# pq-cli progression engine, in Dafny

This project models the progression engine of pq-cli, a terminal clone of the
idle role-playing game Progress Quest. The engine lives in `pqcli/mechanic.py`.
A character works through a queue of timed tasks. Each game tick fills the
task bar. When the bar is full the task is settled:

- a kill brings loot, experience, quest progress and plot progress;
- a purchase costs gold and brings equipment;
- a sale turns the first inventory entry into gold;
- a plot task completes an act.

Then the next task is chosen. Filling the plot bar plays one of three scripted
cinematics. Completing a quest brings a reward and a new quest.

The model has nine modules:

- `Dice` (dice.dfy) replaces the hidden global random generator with an explicit tape of raw draws and a cursor. A fixed tape makes every run deterministic. The `Random` class plays the generator.
- `Text` (text.dfy) models the Python string behaviour the engine uses: substring `in`, `lower()` and `str(int)`.
- `Wrappers` and `Content` (content.dfy) hold the enumerations, the catalogue records and the content tables. The wording helpers are uninterpreted functions.
- `Bars` (bars.dfy) is the clamped progress bar.
- `Tasks` (tasks.dfy) has the seven task variants.
- `Containers` (containers.dfy) has stats, the stats builder, the quest book, the inventory, the equipment and the spell book. Each is a class whose methods update its fields.
- `Generators` (generators.dfy) has nearest-of-N selection of equipment and monsters, the item and name generators, and `monster_task`.
- `Players` (players.dfy) is the character: `set_task`, `level_up`, `win_stat`, `win_spell`, `win_equipment` and `win_item`.
- `Engine` (engine.dfy) is the `Simulation` class: `tick`, `dequeue`, `complete_act`, `complete_quest` and `interplot_cinematic`.

Stateful code is modelled with classes and methods. Pure computations are modelled with functions and lemmas.

The character keeps an invariant between steps, `Players.Player.Valid`. It says:

- the five bars are distinct objects;
- the level is positive;
- the stats are rolled, with a positive sum of squares;
- inventory and spell names are unique;
- the encumbrance bar never shows more than the load;
- the exp bar's maximum is the level-up time of the current level;
- the carrying capacity is 10 plus strength;
- the queue holds only story tasks that take time;
- every monster in play comes from the catalogue;
- a sale in progress has something to sell.

Every engine operation preserves `Valid`. `dequeue` is proved to terminate, and it always leaves a task under way.

Where the game's documented behaviour and the code disagree, the model follows the code:

- The bar has no lower clamp. The documentation calls `0 <= position` an invariant; the code never enforces it.
- After `add_quest` the quest log can hold 101 entries: 100 kept, plus the new one. The documentation says it is bounded to the last 100.
- `level_up_time` is `20 * level * 60`. The documentation gives a factor of 1000 more.
- The documentation says every task `dequeue` installs has a nonzero duration. A kill task's duration can round down to zero, at player levels above 6000 times the kill's effective level (the walked level, rounded down to a multiple of the pack size). Termination is proved another way instead. Such a kill follows only a kill or the way to the killing fields, with nothing queued and the load not full. Every kill adds one unit of loot, so a measure on the remaining load capacity decreases.

## Model

| member | source | states |
|---|---|---|
| Dice.Draw | pqcli/mechanic.py:550 | `below(n)` gives a value in `[0, n)` |
| Dice.Pick | pqcli/mechanic.py:330 | `choice(xs)` gives an element of `xs` |
| Dice.Random.Below | pqcli/mechanic.py:314 | a draw is the tape entry at the cursor reduced below `n`, and consumes exactly one position |
| Dice.Random.Odds | pqcli/mechanic.py:329 | `odds(a, b)` is one draw below `b`, true when it is below `a` |
| Dice.Random.Choice | pqcli/mechanic.py:359 | `choice(xs)` consumes one draw and gives the picked element |
| Text.ContainsSuffix | pqcli/mechanic.py:475 | the `in` test finds any string at the end of a string |
| Text.ContainsPrefix | pqcli/mechanic.py:475 | the `in` test finds any string at the start of a string |
| Text.ContainsUnderPrefix | pqcli/mechanic.py:384 | a substring stays a substring once text is put in front |
| Text.LowerChar | pqcli/mechanic.py:462 | `lower()` maps an upper-case ASCII letter to a lower-case one and leaves every other character alone |
| Text.Lower | pqcli/mechanic.py:457-462 | `lower()` keeps the length and lowers each character in place |
| Text.NatToString | pqcli/mechanic.py:393-395 | `str(n)` is a non-empty string of decimal digits |
| Text.IntToString | pqcli/mechanic.py:393 | `str(n)` starts with a minus sign exactly when `n` is negative |
| Text.NatToStringRoundTrip | pqcli/mechanic.py:395 | reading the printed digits back gives the number |
| Bars.Clamp | pqcli/mechanic.py:53-54 | `min(new_pos, max_)`: never above the maximum, equal to the input or the maximum, and the input itself when it fits |
| Bars.Bar.constructor | pqcli/mechanic.py:36-38 | a new bar is empty, with the given maximum |
| Bars.Bar.Reset | pqcli/mechanic.py:41-43 | both fields are replaced as given, without clamping |
| Bars.Bar.Reposition | pqcli/mechanic.py:53-54 | the position is clamped to the unchanged maximum; the bar is done exactly when the requested position reaches the maximum |
| Bars.Bar.Increment | pqcli/mechanic.py:46-47 | the position becomes the clamped sum, with no floor; done exactly when the sum reaches the maximum |
| Containers.IndexOf | pqcli/mechanic.py:147-155 | the `for ... else` search: the first entry with the name, or the length exactly when the name is absent |
| Containers.FirstIndex | pqcli/mechanic.py:147-150 | a linear scan that stops at the first match finds `IndexOf` |
| Containers.IndexOfAppend | pqcli/mechanic.py:153-154 | appending keeps every existing name's position, and a new name lands at the end |
| Containers.InOrder | pqcli/mechanic.py:64-65 | the stat values are walked in declaration order, one per stat kind |
| Containers.SumSquaresCovers | pqcli/mechanic.py:333 | the weight total of `win_stat` is at least each stat's squared value |
| Containers.SumUpdate | pqcli/mechanic.py:70-71 | raising one value by `d` raises the sum by `d` |
| Containers.Stats.constructor | pqcli/mechanic.py:61-62 | the values are stored as given |
| Containers.Stats.Increment | pqcli/mechanic.py:70-71 | exactly the named stat grows by `qty` |
| Containers.StatIndex | pqcli/mechanic.py:336 | each stat kind has its place in iteration order |
| Containers.StatTotalIncrement | pqcli/mechanic.py:70-71 | incrementing a stat by `qty` raises the stat total by `qty` |
| Containers.RolledIncrement | pqcli/mechanic.py:343 | a non-negative increment keeps the weight total of `win_stat` positive |
| Containers.PositiveWeight | pqcli/mechanic.py:333-334 | a single nonzero stat makes the weight total positive, so `below(t)` is defined |
| Containers.ThreeDice | pqcli/mechanic.py:837 | three six-sided dice give 3 to 18 |
| Containers.RollThreeDice | pqcli/mechanic.py:837 | three dice read three draws |
| Containers.RolledValuesUsable | pqcli/mechanic.py:836-845 | every roll has a value for each stat, none negative, with a positive sum of squares |
| Containers.StatsBuilder.constructor | pqcli/mechanic.py:832-833 | the history starts empty |
| Containers.StatsBuilder.Roll | pqcli/mechanic.py:835-848 | the prime stats are three dice each, in declaration order; hit points and mana are a draw below 8 plus a sixth of condition and of intelligence; 20 draws; the roll is appended to the history |
| Containers.StatsBuilder.Unroll | pqcli/mechanic.py:850-852 | the last roll is dropped and the one before it returned; on an empty history nothing changes; on failure the result is `None` |
| Containers.KeepLast | pqcli/mechanic.py:98 | `s[-n:]` is the last n entries, or all of them when there are fewer |
| Containers.QuestLogShape | pqcli/mechanic.py:96-99 | after `add_quest` the log has at most 101 entries, ends with the new quest, and the rest is the last 100 old quests |
| Containers.QuestBook.constructor | pqcli/mechanic.py:79-84 | no quests, act 0, plot bar max 26, quest bar max 1, no quest monster |
| Containers.QuestBook.CurrentQuest | pqcli/mechanic.py:90-94 | the last quest, present exactly when the log is non-empty |
| Containers.QuestBook.AddQuest | pqcli/mechanic.py:96-99 | the log becomes the last 100 old quests plus the new one, which is now current; act and monster unchanged |
| Containers.TotalUpdate | pqcli/mechanic.py:150 | raising one entry's quantity raises the total load by the same amount |
| Containers.TotalRemove | pqcli/mechanic.py:138-142 | removing an entry lowers the total load by its quantity |
| Containers.StockedNames | pqcli/mechanic.py:145-155 | `add` keeps the order of the names and appends the name only when it is new |
| Containers.StockedTotal | pqcli/mechanic.py:145-159 | `add` raises the total load by the quantity |
| Containers.StockedUnique | pqcli/mechanic.py:145-155 | `add` keeps item names unique |
| Containers.StockedQuantity | pqcli/mechanic.py:145-155 | `add` raises the named item's quantity by `qty`, and no other item's |
| Containers.RemovedShape | pqcli/mechanic.py:138-142 | `pop` removes exactly one name, lowers the total by its quantity, and keeps names unique |
| Containers.Inventory.constructor | pqcli/mechanic.py:111-114 | no gold, no items, an empty encumbrance bar of the given capacity |
| Containers.Inventory.AddGold | pqcli/mechanic.py:129-136 | gold changes by the amount with no floor; items unchanged |
| Containers.Inventory.SyncEncumbrance | pqcli/mechanic.py:158-159 | the encumbrance bar shows the total load, clamped to the capacity |
| Containers.Inventory.Add | pqcli/mechanic.py:145-156 | the items become `Stocked`, which merges into the entry of that name or appends one; the load grows by the quantity; the bar is resynced; gold unchanged |
| Containers.Inventory.Pop | pqcli/mechanic.py:138-142 | the entry at the Python index, negative ones counting from the end, is removed; the load drops by its quantity; the bar is resynced |
| Containers.Inventory.SetCapacity | pqcli/mechanic.py:161-162 | a new capacity; the position is kept as it is |
| Containers.Equipment.constructor | pqcli/mechanic.py:168-172 | only the weapon ("Sharp Rock") and hauberk ("-3 Burlap") slots are filled |
| Containers.Equipment.Get | pqcli/mechanic.py:177-178 | a slot never filled gives `None` |
| Containers.Equipment.Put | pqcli/mechanic.py:180-182 | only the given slot changes, to the given name |
| Containers.LearnedNames | pqcli/mechanic.py:200-211 | `add` keeps the order of the spell names and appends a new one only |
| Containers.LearnedUnique | pqcli/mechanic.py:200-211 | `add` keeps spell names unique |
| Containers.LearnedLevel | pqcli/mechanic.py:200-211 | `add` raises the named spell's level by `level`, and no other spell's |
| Containers.SpellBook.constructor | pqcli/mechanic.py:194-195 | the book starts empty |
| Containers.SpellBook.Add | pqcli/mechanic.py:200-211 | the spells become `Learned`: the level of a known spell grows, or a new spell is appended; names stay unique |
| Generators.Candidates | pqcli/mechanic.py:731-733 | the `n + 1` successive draws of nearest-of-N |
| Generators.NearestOfN | pqcli/mechanic.py:730-736 | the result is one of the candidates, at least as close to the goal as every candidate, and strictly closer than every earlier one; its index is returned |
| Generators.NearestMonsterUnique | pqcli/mechanic.py:730-736 | two monsters that are both nearest among the same draws, the first of equals, are the same draw: `unnamed_monster` has exactly one outcome per tape |
| Generators.NearestPresetUnique | pqcli/mechanic.py:744-752 | the nearest preset among the same six draws, the first of equals, is unique: `pick_equipment` has exactly one outcome per tape |
| Generators.PickEquipment | pqcli/mechanic.py:744-752 | the preset drawn at the returned position among six successive draws, no farther from the goal quality than any of them and strictly nearer than every earlier one |
| Generators.UnnamedMonster | pqcli/mechanic.py:730-736 | the monster drawn at the returned position among `iterations + 1` successive draws, no farther from the level than any of them and strictly nearer than every earlier one |
| Generators.NamedMonster | pqcli/mechanic.py:739-741 | a name generated from the draw after the monster's, " the " and the name of the nearest monster among five successive draws at the given level |
| Generators.OfInName | pqcli/mechanic.py:707 | a name of the form `a of b` passes the market's " of " test |
| Generators.BoringItem | pqcli/mechanic.py:718-719 | one draw from the boring items |
| Generators.InterestingItem | pqcli/mechanic.py:710-715 | an attribute, a space and a special thing, in two draws |
| Generators.SpecialItem | pqcli/mechanic.py:706-707 | an interesting item " of " something, in three draws; always contains " of " |
| Generators.ImpressiveGuy | pqcli/mechanic.py:722-727 | a title followed by " of ", in three draws |
| Generators.Walk | pqcli/mechanic.py:758-761 | the level random walk moves at most one level per step, and each step reads one or two draws |
| Generators.WalkedLevel | pqcli/mechanic.py:758-763 | the walked level, raised to 1, lies between 1 and twice the player's level |
| Generators.WalkLevel | pqcli/mechanic.py:758-763 | the loop over the level gives `WalkedLevel` and leaves the cursor where `Walk` ends |
| Generators.ChooseFoe | pqcli/mechanic.py:765-791 | one time in 25 a non-player character at the walked level and no monster; else, when a quest monster exists and a draw below 4 is 0, that monster at its level; else the nearest catalogue monster among six draws; only a non-player character can be definite |
| Generators.PackOf | pqcli/mechanic.py:793-799 | a gap of at most 10 gives a single foe and no draw; a larger gap draws the pack size `(level + below(max(lev, 1))) // max(lev, 1)`, raised to 1; the pack never exceeds the level and the rounded-down level stays positive |
| Generators.Qualify | pqcli/mechanic.py:801-820 | no adjective for a zero gap; "imaginary" at -10 or below and "messianic" at 10 or above, with no draw; between them one draw chooses sick/young or big/special, nested for gaps beyond 5, with the sizes the source computes |
| Generators.PackSize | pqcli/mechanic.py:796 | a pack is never larger than the level it is drawn for |
| Generators.PackLevel | pqcli/mechanic.py:796-799 | splitting the level into a pack leaves each member at level at least 1, and the pack's total at most the level |
| Generators.DurationBound | pqcli/mechanic.py:827 | a kill of at most twice the player's level lasts between 0 and 12000 |
| Generators.MonsterTask | pqcli/mechanic.py:755-828 | a kill task "Executing …" aimed at the walked level; a non-player character (one time in 25, no monster, a single foe), the quest monster (one time in 4 when there is one) or else the nearest of six catalogue draws at the walked level; a pack only when the monster is more than 10 levels low; the effective level is the walked level rounded down to a multiple of the pack size; the duration is `6000 * effective // player_level`, between 0 and 12000 |
| Players.LevelUpTime | pqcli/mechanic.py:28-30 | 1200 seconds per level |
| Players.EquipPrice | pqcli/mechanic.py:306-307 | `5L² + 10L + 20`, never below 15 |
| Players.EquipPriceRises | pqcli/mechanic.py:306-307 | equipment gets strictly dearer with every level |
| Players.ChooseWeighted | pqcli/mechanic.py:333-340 | the subtract-until-negative walk stops at the first stat whose running sum of squares exceeds `t`; that stat is never zero |
| Players.DrawStat | pqcli/mechanic.py:329-340 | a coin, then a uniform stat or the weighted walk over a draw below the sum of squares; two draws |
| Players.PlusLabel | pqcli/mechanic.py:392-395 | nothing for a zero bonus, "-N " for a negative one, "+N " for a positive one |
| Players.AdmissibleAppend | pqcli/mechanic.py:384-390 | a modifier that passes both loop tests goes in front of the name and adds its quality |
| Players.StackModifiers | pqcli/mechanic.py:381-390 | the applied modifiers are exactly the draws `choice(pool)` at successive positions, at most two, each passing the no-repeat and not-too-much tests while a bonus was left; when fewer than two are applied and a bonus is left, the next draw fails a test; the name is those modifiers in front of the preset's and the bonus drops by their qualities |
| Players.StackedUnique | pqcli/mechanic.py:381-390 | the draws determine the applied modifiers: two stackings of the same tape, preset and bonus are equal |
| Players.NameEquipment | pqcli/mechanic.py:376-395 | the modifiers `StackModifiers` draws, then the leftover bonus `plus - Σquality` as a "+N "/"-N " label in front of the prefixed name; the cursor moves past the draws the loop read |
| Players.PrefixedContains | pqcli/mechanic.py:384 | every applied modifier's name occurs in the built name |
| Players.ModifiersDistinct | pqcli/mechanic.py:384-385 | the no-repeat test keeps the applied modifiers' names distinct |
| Players.NameEndsWithBase | pqcli/mechanic.py:388-395 | the built equipment name ends with the preset's own name |
| Players.PrefixedEndsWith | pqcli/mechanic.py:388 | prefixing modifiers keeps the preset's name at the end |
| Players.Prologue | pqcli/mechanic.py:276-296 | four regular scenes and the plot task that loads act 1, all taking time |
| Players.Player.constructor | pqcli/mechanic.py:252-298 | level 1; an empty exp bar sized for level 1; an empty quest book, inventory and spell book; capacity 10 plus strength; starting equipment; the prologue queued; "Loading" under way for 2000 |
| Players.Player.SetTask | pqcli/mechanic.py:300-302 | the task is installed and the task bar reset to its duration, done exactly when the duration is not positive |
| Players.Player.Append | pqcli/mechanic.py:575 | the story task goes to the back of the queue |
| Players.Player.LevelUp | pqcli/mechanic.py:309-324 | level plus one; hit points grow by condition // 3 + 1 + a draw below 4, and mana likewise from intelligence; two more stat points; one spell level learned; the exp bar restarts empty at `LevelUpTime` of the new level, so its maximum strictly grows |
| Players.Player.GrowStats | pqcli/mechanic.py:312-321 | the vitality gains and two stat points raise the stat total by the two gains plus 2, in six draws |
| Players.Player.GainVitality | pqcli/mechanic.py:312-319 | only hit points and mana change, by the gains drawn in that order |
| Players.Player.GrowStat | pqcli/mechanic.py:312-319 | one stat other than strength grows by a non-negative amount; the total grows by that amount |
| Players.Player.WinStat | pqcli/mechanic.py:326-346 | exactly one stat, the one `StatDrawn` selects, grows by 1; the capacity follows strength with the position kept; two draws |
| Players.Player.WinSpell | pqcli/mechanic.py:348-356 | one level of the spell at a draw below `min(wisdom + level, number of spells)` |
| Players.ForgeEquipment | pqcli/mechanic.py:364-395 | for a slot: the nearest preset of that slot's list among six draws at the level, a bonus of level minus its quality, modifiers from the worse pool when the bonus is negative and the better one otherwise, stacked from the following draws, and the labelled name, which ends with the preset's name |
| Players.EquipmentWonUnique | pqcli/mechanic.py:358-398 | the draws determine the won equipment: two wins from the same tape position and level are equal |
| Players.Player.WinEquipment | pqcli/mechanic.py:358-398 | the slot is the first draw; the rest is `ForgeEquipment` on the following draws at the player's level; the cursor moves by exactly the draws read; only that slot changes, to the new name |
| Players.Player.WinItem | pqcli/mechanic.py:400-401 | one special item, containing " of ", added once; the load grows by 1 |
| Engine.Beat | pqcli/mechanic.py:580-694 | every cinematic beat is a regular task that takes time |
| Engine.Duration | pqcli/mechanic.py:580-694 | the beats last between 1000 and 4000 |
| Engine.CombatScene | pqcli/mechanic.py:621-641 | the score modulo 3 selects grim combat, the upper hand or the advantage, and the result is a combat beat |
| Engine.ActLoader | pqcli/mechanic.py:699-703 | the closing task of a cinematic is a plot task that takes time |
| Engine.AppendedExtend | pqcli/mechanic.py:574-576 | appending one more task to the story keeps the queue an extension of the queue before the cinematic |
| Engine.SalePriceRange | pqcli/mechanic.py:473-478 | a plain item sells for exactly quantity times level; an item "of" something sells for at least that and at most `10 * level` times that |
| Engine.Simulation.constructor | pqcli/mechanic.py:405-408 | a simulation with no time elapsed |
| Engine.LootOf | pqcli/mechanic.py:449-464 | the loot of a kill: a special item exactly for a non-player character or an item-less monster, nothing exactly for an empty drop item, else the lower-cased "monster item" |
| Engine.StalledKill | pqcli/mechanic.py:456 | a monster whose drop item is empty yields no loot, and its kill can last 0 (6000 * 1 // 6001) |
| Engine.LootUnderValid | pqcli/mechanic.py:449-464 | with content whose drop items all have names, every kill yields loot |
| Engine.Simulation.FinishKill | pqcli/mechanic.py:449-464 | a kill adds one unit of loot: a special item for an NPC or an item-less monster, else the lower-cased monster and item name without a draw |
| Engine.Simulation.FinishBuy | pqcli/mechanic.py:466-469 | the equipment price for the level is paid, with no floor; the items are unchanged; the equipment won is `EquipmentWon` at the cursor, and only its slot changes |
| Engine.Simulation.Appraise | pqcli/mechanic.py:473-478 | the sale price is `SalePrice`; two draws for an item "of" something, none otherwise |
| Engine.Simulation.SellFirst | pqcli/mechanic.py:472-480 | the first entry is removed and its sale price added to the gold |
| Engine.Simulation.FinishSale | pqcli/mechanic.py:471-489 | after the optional sale, the loop stops exactly when items are left, and the task becomes selling the first of them for 1000 |
| Engine.Simulation.OpenAct | pqcli/mechanic.py:524-527 | the act moves on; the plot bar restarts empty at `3600 * (1 + 5 * act)` |
| Engine.Simulation.CompleteAct | pqcli/mechanic.py:523-531 | as `OpenAct`; from act 2 on, the special item drawn at the cursor is added once and the equipment `EquipmentWon` three draws later replaces its slot; before that neither changes |
| Engine.Simulation.FinishTask | pqcli/mechanic.py:449-492 | the effects of a finished task by kind; the loop stops only after a sale or the way to the market; a sale removes the first entry and adds its price; the way to the market leaves items and gold alone; a kill adds one unit of loot; the way to the killing fields and a regular task change nothing of the character |
| Engine.Simulation.DrawKill | pqcli/mechanic.py:516-521 | `monster_task` on the character's draws gives a kill of a catalogue monster or of the quest monster |
| Engine.Simulation.SelectNextTask | pqcli/mechanic.py:494-521 | the next task in priority order: the queue head; the market when the load is full; a purchase when gold exceeds the price, or the killing fields, unless coming from a kill or the fields; else a kill. Only a kill can leave the bar full |
| Engine.Simulation.Dequeue | pqcli/mechanic.py:447-521 | terminates with a task under way and the invariant kept; the queue loses at most its head; with the bar not full nothing changes |
| Engine.Simulation.Enqueue | pqcli/mechanic.py:574-576 | a story task joins the queue and the queue is dequeued; with the bar running it just joins the back |
| Engine.Simulation.QuestReward | pqcli/mechanic.py:539-546 | the reward is drawn from the four kinds; the stat total grows by 1 exactly for a stat; the load grows by 1 exactly for an item; the spells and the equipment change only for their own kinds |
| Engine.Simulation.DrawQuest | pqcli/mechanic.py:549-568 | the caption of each of the five quest kinds, from the draws that follow the choice; an extermination quest's monster is the nearest of four catalogue draws at the player's level, a placation quest's the nearest of two |
| Engine.Simulation.NewQuest | pqcli/mechanic.py:548-570 | one caption joins the log; only an extermination quest sets the quest monster, the nearest of four catalogue draws at the player's level |
| Engine.Simulation.CompleteQuest | pqcli/mechanic.py:533-571 | the quest bar restarts at 50 plus a draw below 1000; with no quest under way there is no reward; a new quest is logged |
| Engine.Simulation.GainExperience | pqcli/mechanic.py:418-422 | a full exp bar means a level up; otherwise the bar grows by the task's length in seconds |
| Engine.Simulation.AdvanceQuest | pqcli/mechanic.py:426-434 | a full quest bar or no quest completes the quest, leaving a quest under way and a bar between 50 and 1049; otherwise the bar grows |
| Engine.Simulation.EnqueueMore | pqcli/mechanic.py:574-576 | with the bar running, the next beat of the story joins the queue |
| Engine.Simulation.DrawHost | pqcli/mechanic.py:657 | the host is `impressive_guy()`, three draws |
| Engine.Simulation.DrawBoringItem | pqcli/mechanic.py:674 | the forgotten item is `boring_item()`, one draw |
| Engine.Simulation.DrawNemesis | pqcli/mechanic.py:608 | the nemesis is `named_monster(level + 3)`: the nearest of five catalogue draws at three levels above the player's, in six draws |
| Engine.Simulation.OasisCinematic | pqcli/mechanic.py:579-597 | the oasis, allies, council and chosen beats, in that order |
| Engine.Simulation.ConfrontNemesis | pqcli/mechanic.py:600-614 | the quarry beat, then the struggle with the drawn nemesis |
| Engine.Simulation.FightRound | pqcli/mechanic.py:620-639 | the score grows by one or two, and the combat beat it selects joins the story |
| Engine.Simulation.FightNemesis | pqcli/mechanic.py:616-641 | at most act plus one rounds, every one a combat beat with the nemesis |
| Engine.Simulation.NemesisCinematic | pqcli/mechanic.py:599-654 | quarry, struggle, between none and act plus one combat beats, then victory and awakening |
| Engine.ProtectorStory | pqcli/mechanic.py:656-694 | the protector episode is six beats |
| Engine.Simulation.ProtectorCinematic | pqcli/mechanic.py:656-694 | the host is `impressive_guy()` at the cursor and the six beats are `ProtectorStory` of the host and the forgotten item |
| Engine.Simulation.InterplotCinematic | pqcli/mechanic.py:573-703 | a draw below 3 picks the episode; the nemesis episode opens with the quarry and the struggle with the drawn foe, and ends with victory and awakening; the protector episode is `ProtectorStory` of `impressive_guy()` and a boring item; every branch ends with the plot task loading the next act; the queue grows by the story |
| Engine.Simulation.AdvancePlot | pqcli/mechanic.py:437-443 | a full plot bar plays a cinematic, which leaves a task under way and at least four tasks queued; otherwise the bar grows |
| Engine.Simulation.KillRewards | pqcli/mechanic.py:417-443 | experience, quest progress from act 1 on, and plot progress; the level rises exactly when the exp bar was full |
| Engine.Simulation.Tick | pqcli/mechanic.py:410-445 | with the bar running, only the task bar and the elapsed time change, nothing else of the character; otherwise the finished task is settled and a task is left under way; the level rises only for a kill with a full exp bar |

## Left out

- Signals (`emit`, `connect`), logging, `datetime`, and `create_player` with its clock-seeded generator are not modelled. They are notifications, output and wall-clock access.
- The internals of `pqcli.random` are not part of this model. `below_low` and `choice_low` are modelled like `below` and `choice`, so their bias towards low values is not captured. Each draw is the tape entry at the cursor.
- The wording helpers of `pqcli.lingo` (`indefinite`, `definite`, `act_name`, `sick`, `young`, `big`, `special`, `generate_name`) are uninterpreted functions. `generate_name` is a function of one raw draw.
- The content tables of `pqcli.config` are parameters. They are required to be non-empty. Their order of stat kinds and equipment slots is the Progress Quest order; `pqcli/config.py` is not part of this model.
- Content.Valid also requires every monster's drop item to have a name. With an empty drop item the source adds no loot (see Findings), and the termination measure of `dequeue` would then rely on the random walk. So the `NoLoot` case of `Engine.LootOf` never reaches `Engine.Simulation.FinishKill` in the model.
- Text.Lower: lowers ASCII letters only, while Python's `lower()` also lowers other Unicode letters. Monster and item names are taken to be ASCII, as the Progress Quest tables are.
- Containers.KeepLast: defined for a positive count only, where it agrees with `s[-n:]`; `s[-0:]` would keep everything. The source only keeps the last 100.
- Players.Player.LevelUp: restarts the exp bar right after raising the level, where the source does it last. No draw in between reads the bar, so the final state is the same.
- Bar positions and the elapsed time are floats in the source. They are reals here, so IEEE rounding is not modelled.
- `Player.task` starts as `None` in the source and is set at once by the constructor. The model never has an empty task.
- Monster truthiness in `monster_task` (`quest_monster and ...`) is taken as "is present", which is what a dataclass instance gives.
- Players.Player.WinStat: the constant `True` that `win_stat` returns is not modelled.
- Containers.Inventory.Pop: requires an index in range. The source raises `IndexError` otherwise, and its only caller pops index 0 of a non-empty inventory.
- Containers.StatsBuilder.Unroll: the source raises `IndexError` on an empty history, or after dropping the only roll. The model returns `None` in both cases.
- Generators.MonsterTask: the description is stated only by its "Executing " prefix; the adjectives it gets are stated by `Generators.Qualify`, and the article by the uninterpreted `indefinite`.
- Engine.Simulation.KillRewards: states only the level change. The experience, quest and plot effects are stated by `GainExperience`, `AdvanceQuest` and `AdvancePlot`; they are not carried through, because later steps may change the same bars.
- Engine.Simulation.Dequeue: states the invariant, termination and the queue relation, not the sequence of tasks settled inside the loop. Each iteration is stated by `FinishTask` and `SelectNextTask`.
- Engine.Simulation.FinishTask: for purchases and plot tasks the effects are stated by `FinishBuy` and `CompleteAct` and are not repeated here.
- Engine.Simulation.CompleteQuest: the effects of the reward are stated by `QuestReward`, not repeated here.
- Engine.Simulation.AdvancePlot: when a cinematic plays, only its effect on the queue and the task bar is stated; the story is stated by `InterplotCinematic`.
- Engine.Simulation.InterplotCinematic: for the nemesis episode it states the opening and closing beats; the full story, with its combat rounds, is stated by `NemesisCinematic`.
- Engine.Simulation.DrawKill: states the prefix, the origin of the monster and that the cursor only moves forward; the duration is stated by `Generators.MonsterTask`.

## Findings

| source | as written | input that shows it | evidently intended | confidence | as-written member | corrected member |
|---|---|---|---|---|---|---|
| pqcli/mechanic.py:451-464 | a kill of a monster whose drop item is the empty string adds nothing: the `elif` truth test fails and there is no `else` | a monster `("Rat", 1, "")` killed at an effective level of 1 by a character of level 6001: the task lasts `6000 // 6001 == 0`, leaves no loot, and `dequeue` keeps drawing kills | every kill leaves loot, so the load grows and the market ends the run of kills | low, not executed | Engine.StalledKill | Engine.LootUnderValid |
