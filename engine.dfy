/** The simulation loop: `tick` runs the current task down; a finished kill pays
    out experience, quest and plot progress; `dequeue` settles every finished
    task (loot, purchases, sales, the end of an act) and picks the next one. */
module Engine {
  import opened Wrappers
  import opened Dice
  import opened Text
  import opened Content
  import opened Bars
  import opened Containers
  import opened Tasks
  import opened Generators
  import opened Players

  /** The beats of the interplot cinematics. */
  datatype Scene =
    | Oasis | Allies | Council | Chosen
    | Quarry | Struggle(foe: string) | GrimCombat(foe: string) | UpperHand(foe: string)
    | Advantage(foe: string) | Victory(foe: string) | Awake
    | Relief(host: string) | Rejoicing(host: string) | Forgotten(item: string)
    | Overheard | DoubleDealer(host: string) | Trusted

  /** The story task that tells a beat, with its wording and its duration. */
  function Beat(scene: Scene): (t: Task)
    ensures t.RegularTask? && Scripted(t)
  {
    RegularTask(Wording(scene), Duration(scene))
  }

  /** What the progress bar says while a beat runs. */
  function Wording(scene: Scene): string {
    match scene
    case Oasis => "Exhausted, you arrive at a friendly oasis in a hostile land"
    case Allies => "You greet old friends and meet new allies"
    case Council => "You are privy to a council of powerful do-gooders"
    case Chosen => "There is much to be done. You are chosen!"
    case Quarry => "Your quarry is in sight, but a mighty enemy bars your path!"
    case Struggle(foe) => "A desperate struggle commences with " + foe
    case GrimCombat(foe) => "Locked in grim combat with " + foe
    case UpperHand(foe) => foe + " seems to have the upper hand"
    case Advantage(foe) => "You seem to gain the advantage over " + foe
    case Victory(foe) => "Victory! " + foe + " is slain! Exhausted, you lose conciousness"
    case Awake => "You awake in a friendly place, but the road awaits"
    case Relief(host) => "Oh sweet relief! You've reached the protection of the good " + host
    case Rejoicing(host) => "There is rejoicing, and an unnerving encouter with " + host + " in private"
    case Forgotten(item) => "You forget your " + item + " and go back to get it"
    case Overheard => "What's this!? You overhear something shocking!"
    case DoubleDealer(host) => "Could " + host + " be a dirty double-dealer?"
    case Trusted => "Who can possibly be trusted with this news!? ... Oh yes, of course"
  }

  /** How long a beat takes, in milliseconds of game time. */
  function Duration(scene: Scene): (d: int)
    ensures 1000 <= d <= 4000
  {
    match scene
    case Oasis => 1000
    case Allies => 2000
    case Council => 2000
    case Chosen => 1000
    case Quarry => 1000
    case Struggle(_) => 4000
    case GrimCombat(_) => 2000
    case UpperHand(_) => 2000
    case Advantage(_) => 2000
    case Victory(_) => 3000
    case Awake => 2000
    case Relief(_) => 2000
    case Rejoicing(_) => 3000
    case Forgotten(_) => 2000
    case Overheard => 2000
    case DoubleDealer(_) => 2000
    case Trusted => 3000
  }

  /** A beat of the running fight with `foe`. */
  predicate Combat(t: Task, foe: string) {
    t == Beat(GrimCombat(foe)) || t == Beat(UpperHand(foe)) || t == Beat(Advantage(foe))
  }

  /** The combat beat for a running score: the score modulo 3 picks one of three. */
  function CombatScene(score: nat, foe: string): (scene: Scene)
    ensures Combat(Beat(scene), foe)
    ensures scene == GrimCombat(foe) <==> score % 3 == 0
    ensures scene == UpperHand(foe) <==> score % 3 == 1
  {
    if score % 3 == 0 then GrimCombat(foe)
    else if score % 3 == 1 then UpperHand(foe)
    else Advantage(foe)
  }

  /** The plot task that closes a cinematic and loads the next act. */
  function ActLoader(content: Provider, act: int): (t: Task)
    ensures t.PlotTask? && Scripted(t)
  {
    PlotTask("Loading " + content.lingo.actName(act + 1), 1000)
  }

  /** The six beats of the protector episode, with its host and the item left behind. */
  function ProtectorStory(host: string, item: string): (story: seq<Task>)
    ensures |story| == 6
  {
    [Beat(Relief(host)), Beat(Rejoicing(host)), Beat(Forgotten(item)),
     Beat(Overheard), Beat(DoubleDealer(host)), Beat(Trusted)]
  }

  lemma ProtectorBeats(host: string, item: string)
    ensures ProtectorStory(host, item) ==
            [Beat(Relief(host)), Beat(Rejoicing(host)), Beat(Forgotten(item)),
             Beat(Overheard), Beat(DoubleDealer(host)), Beat(Trusted)]
  {
  }

  /** The tasks appended to the queue `q0` so far are `burst`; the first of all
      may have been taken off the front already. */
  ghost predicate Appended(q0: seq<Task>, burst: seq<Task>, q: seq<Task>) {
    q == q0 + burst || (q0 + burst != [] && q == (q0 + burst)[1..])
  }

  /** A story closed by one more task keeps its beats in place. */
  lemma Closed(story: seq<Task>, t: Task)
    ensures var burst := story + [t];
            && |burst| == |story| + 1 && burst[..|story|] == story && burst[|story|] == t
            && burst[..|story| + 1] == burst
            && forall j :: 0 <= j < |story| ==> burst[j] == story[j]
  {
  }

  /** One more task of a story appended keeps the queue an extension of `q0`. */
  lemma AppendedExtend(q0: seq<Task>, story: seq<Task>, i: nat, q: seq<Task>)
    requires i < |story| && Appended(q0, story[..i], q)
    ensures Appended(q0, story[..i + 1], q + [story[i]])
  {
    assert story[..i + 1] == story[..i] + [story[i]];
    if q != q0 + story[..i] {
      assert q + [story[i]] == (q0 + story[..i + 1])[1..];
    }
  }

  /** A valid character's act count is never negative. */
  lemma ActStarted(player: Player)
    requires player.Valid()
    ensures 0 <= player.questBook.act
  {
  }

  /** What the market pays for the first inventory entry: its quantity times the
      level, and for an item with " of " in its name that amount times one plus a
      draw below 10 times one plus a draw below the level. */
  function SalePrice(item: InventoryItem, level: int, tape: Tape, k: nat): int
    requires 1 <= level
  {
    var amount := item.quantity * level;
    if Contains(item.name, " of ") then amount * ((1 + Draw(tape, k, 10)) * (1 + Draw(tape, k + 1, level)))
    else amount
  }

  /** A plain item sells for exactly quantity times level; a special one for at
      least that and at most ten times the level times as much. */
  lemma SalePriceRange(item: InventoryItem, level: int, tape: Tape, k: nat)
    requires 1 <= level && 0 <= item.quantity
    ensures item.quantity * level <= SalePrice(item, level, tape, k)
    ensures !Contains(item.name, " of ") ==> SalePrice(item, level, tape, k) == item.quantity * level
    ensures SalePrice(item, level, tape, k) <= item.quantity * level * (10 * level)
  {
    var amount := item.quantity * level;
    assert 0 <= amount by { MulMonotone(0, item.quantity, level); }
    if Contains(item.name, " of ") {
      var a := 1 + Draw(tape, k, 10);
      var b := 1 + Draw(tape, k + 1, level);
      MulMonotone(a, 10, b);
      MulMonotone(b, level, 10);
      assert 1 <= a * b <= 10 * level by { MulMonotone(1, a, b); }
      MulMonotone(1, a * b, amount);
      MulMonotone(a * b, 10 * level, amount);
    } else {
      MulMonotone(1, 10 * level, amount);
    }
  }

  /** What a finished kill leaves in the inventory. */
  datatype Loot = SpecialLoot | DropLoot(name: string) | NoLoot

  /** The loot of a kill, branch by branch as the source writes it: a special
      item for a non-player character or a monster without a drop item, the
      lower-cased "<monster> <item>" for a drop item with a name, and nothing at
      all for a drop item that is the empty string, which fails the truth test. */
  function LootOf(monster: Option<Monster>): (loot: Loot)
    ensures loot == NoLoot <==> monster.Some? && monster.value.item == Some("")
    ensures loot == SpecialLoot <==> monster.None? || monster.value.item.None?
    ensures loot.DropLoot? ==> loot.name == Lower(monster.value.name + " " + monster.value.item.value)
  {
    if monster.None? || monster.value.item.None? then SpecialLoot
    else if monster.value.item.value != "" then DropLoot(Lower(monster.value.name + " " + monster.value.item.value))
    else NoLoot
  }

  /** As written, a kill can leave nothing behind: a drop item that is the
      empty string fails the truth test, and no branch adds anything. With a
      kill that also takes no time (a character of level 6001 at an effective
      level of 1, where 6000 * 1 / 6001 rounds to 0), the task loop goes on
      drawing kills that change nothing but the random state. */
  lemma StalledKill()
    ensures var rat := Monster("Rat", 1, Some(""));
            LootOf(Some(rat)) == NoLoot && 6000 * rat.level / 6001 == 0
  {
  }

  /** With content whose drop items all have names, every kill leaves loot. */
  lemma LootUnderValid(content: Provider, monster: Option<Monster>)
    requires Content.Valid(content)
    requires monster.Some? ==> monster.value in content.monsters
    ensures LootOf(monster) != NoLoot
  {
    if monster.Some? {
      assert YieldsLoot(monster.value);
    }
  }

  /** The reward for a completed quest: one of the four `win_*` steps. */
  datatype Reward = SpellReward | EquipmentReward | StatReward | ItemReward

  const Rewards: seq<Reward> := [SpellReward, EquipmentReward, StatReward, ItemReward]

  class Simulation {
    const player: Player
    var elapsed: real

    constructor (player: Player)
      ensures this.player == player && elapsed == 0.0
    {
      this.player := player;
      elapsed := 0.0;
    }

    /** Loot from a kill: an NPC or a monster without a drop item leaves a
        special item; a monster with one leaves "<monster> <item>", lower-cased. */
    method FinishKill(monster: Option<Monster>)
      requires player.Valid()
      requires monster.Some? ==> monster.value in player.content.monsters
      modifies player.inventory, player.inventory.encumBar, player.rng
      ensures player.Valid()
      ensures Total(player.inventory.items) == old(Total(player.inventory.items)) + 1
      ensures player.inventory.gold == old(player.inventory.gold)
      ensures player.inventory.encumBar.max == old(player.inventory.encumBar.max)
      ensures player.inventory.encumBar.position ==
              Clamp(Total(player.inventory.items) as real, player.inventory.encumBar.max)
      ensures monster.None? || monster.value.item.None? ==>
                player.inventory.items ==
                Stocked(old(player.inventory.items), SpecialItem(player.rng.tape, old(player.rng.drawn), player.content).0, 1)
      ensures monster.Some? && monster.value.item.Some? ==>
                player.inventory.items ==
                Stocked(old(player.inventory.items), Lower(monster.value.name + " " + monster.value.item.value), 1)
                && player.rng.drawn == old(player.rng.drawn)
    {
      LootUnderValid(player.content, monster);
      match LootOf(monster)
      case SpecialLoot =>
        ghost var item := player.WinItem();
      case DropLoot(name) =>
        player.inventory.Add(name, 1);
    }

    /** A purchase: the price for the level is paid (the balance may go
        negative) and a new piece of equipment is won. */
    method FinishBuy() returns (ghost won: EquipmentWin)
      requires player.Valid()
      modifies player.inventory, player.equipment, player.rng
      ensures player.Valid()
      ensures player.inventory.gold == old(player.inventory.gold) - EquipPrice(player.level)
      ensures player.inventory.items == old(player.inventory.items)
      ensures EquipmentWon(player.rng.tape, old(player.rng.drawn), player.content, player.level, won)
      ensures player.equipment.items == old(player.equipment.items)[won.slot := won.name]
    {
      player.inventory.AddGold(-EquipPrice(player.level));
      won := player.WinEquipment();
    }

    /** What the first inventory entry fetches: quantity times level, and for
        an item "of" something two draws more, below 10 and below the level. */
    method Appraise() returns (amount: int)
      requires player.Valid() && player.task.SellTask?
      modifies player.rng
      ensures player.Valid()
      ensures amount == SalePrice(player.inventory.items[0], player.level, player.rng.tape, old(player.rng.drawn))
      ensures player.rng.drawn == old(player.rng.drawn) + if Contains(player.inventory.items[0].name, " of ") then 2 else 0
    {
      hide Draw;
      var item := player.inventory.items[0];
      amount := item.quantity * player.level;
      if Contains(item.name, " of ") {
        var a := player.rng.Below(10);
        var b := player.rng.Below(player.level);
        amount := amount * ((1 + a) * (1 + b));
      }
    }

    /** The sale of the first inventory entry at `SalePrice`. */
    method SellFirst()
      requires player.Valid() && player.task.SellTask?
      modifies player.inventory, player.inventory.encumBar, player.rng
      ensures player.Consistent()
      ensures player.inventory.items == Removed(old(player.inventory.items), 0)
      ensures player.inventory.gold ==
              old(player.inventory.gold) + SalePrice(old(player.inventory.items[0]), player.level, player.rng.tape, old(player.rng.drawn))
      ensures player.rng.drawn == old(player.rng.drawn) + if Contains(old(player.inventory.items[0]).name, " of ") then 2 else 0
    {
      var amount := Appraise();
      player.inventory.Pop(0);
      player.inventory.AddGold(amount);
    }

    /** At the market, or after a sale: while anything is left, the next task
        is selling the first entry, and the dequeue loop stops (`stop`). */
    method FinishSale() returns (stop: bool)
      requires player.Valid() && (player.task.SellTask? || player.task.HeadingToMarketTask?)
      modifies player, player.taskBar, player.inventory, player.inventory.encumBar, player.rng
      ensures player.Consistent()
      ensures player.level == old(player.level) && player.queue == old(player.queue)
      ensures stop <==> |player.inventory.items| > 0
      ensures stop ==> player.Valid() && !player.taskBar.Done()
      ensures stop ==> var first := player.inventory.items[0];
                       player.task == SellTask("Selling " + player.content.lingo.indefinite(first.name, first.quantity), 1000)
      ensures !stop ==> player.task == old(player.task)
      ensures old(player.task).SellTask? ==>
                player.inventory.items == Removed(old(player.inventory.items), 0)
                && player.inventory.gold ==
                   old(player.inventory.gold) + SalePrice(old(player.inventory.items[0]), player.level, player.rng.tape, old(player.rng.drawn))
      ensures old(player.task).HeadingToMarketTask? ==>
                player.inventory.items == old(player.inventory.items) && player.inventory.gold == old(player.inventory.gold)
    {
      if player.task.SellTask? {
        SellFirst();
      }
      stop := |player.inventory.items| > 0;
      if stop {
        var first := player.inventory.items[0];
        player.SetTask(SellTask("Selling " + player.content.lingo.indefinite(first.name, first.quantity), 1000));
      }
    }

    /** The first half of `complete_act()`: the act counter moves on and the
        plot bar restarts, empty, at an hour per act-and-a-fifth. */
    method OpenAct()
      requires player.Valid()
      modifies player.questBook, player.questBook.plotBar
      ensures player.Valid()
      ensures player.questBook.act == old(player.questBook.act) + 1
      ensures player.questBook.plotBar.max == 3600 * (1 + 5 * player.questBook.act)
      ensures player.questBook.plotBar.position == 0.0
    {
      player.questBook.act := player.questBook.act + 1;
      player.questBook.plotBar.Reset(3600 * (1 + 5 * player.questBook.act), 0.0);
    }

    /** `complete_act()`: the act advances, the plot bar restarts at an hour
        per act-and-a-fifth, and from the second act on a special item and then
        a piece of equipment are won. */
    method CompleteAct() returns (ghost item: string, ghost won: EquipmentWin)
      requires player.Valid()
      modifies player.questBook, player.questBook.plotBar, player.inventory, player.inventory.encumBar,
               player.equipment, player.rng
      ensures player.Valid()
      ensures player.questBook.act == old(player.questBook.act) + 1
      ensures player.questBook.plotBar.max == 3600 * (1 + 5 * player.questBook.act)
      ensures player.questBook.plotBar.position == 0.0
      ensures player.questBook.act > 1 ==>
                item == SpecialItem(player.rng.tape, old(player.rng.drawn), player.content).0
                && player.inventory.items == Stocked(old(player.inventory.items), item, 1)
                && Total(player.inventory.items) == old(Total(player.inventory.items)) + 1
                && EquipmentWon(player.rng.tape, old(player.rng.drawn) + 3, player.content, player.level, won)
                && player.equipment.items == old(player.equipment.items)[won.slot := won.name]
      ensures player.questBook.act <= 1 ==>
                player.inventory.items == old(player.inventory.items)
                && player.equipment.items == old(player.equipment.items)
    {
      item, won := "", EquipmentWin(Weapon, EquipmentPreset("", 0), 0, [], "");
      OpenAct();
      hide *;
      if player.questBook.act > 1 {
        item := player.WinItem();
        won := player.WinEquipment();
      }
    }

    /** What a finished task leaves behind, by kind. `stop` says a sale is
        under way and the dequeue loop ends; otherwise the task is unchanged
        and a next one must be chosen. */
    method FinishTask() returns (stop: bool)
      requires player.Valid()
      modifies player.Repr()
      ensures player.Consistent()
      ensures player.level == old(player.level) && player.queue == old(player.queue)
      ensures stop ==> player.Valid() && !player.taskBar.Done() && player.task.SellTask?
      ensures stop ==> old(player.task).SellTask? || old(player.task).HeadingToMarketTask?
      ensures !stop ==> player.task == old(player.task)
      ensures old(player.task).SellTask? ==>
                player.inventory.items == Removed(old(player.inventory.items), 0)
                && player.inventory.gold ==
                   old(player.inventory.gold) + SalePrice(old(player.inventory.items[0]), player.level, player.rng.tape, old(player.rng.drawn))
      ensures old(player.task).HeadingToMarketTask? ==>
                player.inventory.items == old(player.inventory.items) && player.inventory.gold == old(player.inventory.gold)
      ensures old(player.task).KillTask? ==>
                Total(player.inventory.items) == old(Total(player.inventory.items)) + 1
                && player.inventory.encumBar.max == old(player.inventory.encumBar.max)
                && player.inventory.encumBar.position ==
                   Clamp(Total(player.inventory.items) as real, player.inventory.encumBar.max)
      ensures old(player.task).HeadingToKillingFieldsTask? || old(player.task).RegularTask? ==>
                !stop && unchanged(player.Repr())
    {
      stop := false;
      match player.task
      case KillTask(_, _, monster) =>
        FinishKill(monster);
      case BuyTask(_, _) =>
        ghost var won := FinishBuy();
      case HeadingToMarketTask(_, _) =>
        stop := FinishSale();
      case SellTask(_, _) =>
        stop := FinishSale();
      case PlotTask(_, _) =>
        ghost var item, won := CompleteAct();
      case RegularTask(_, _) =>
      case HeadingToKillingFieldsTask(_, _) =>
    }

    /** `monster_task(level, quest_monster)` on the character's random source:
        a kill of a catalogue monster or of the quest monster. */
    method DrawKill() returns (t: Task)
      requires player.Consistent()
      modifies player.rng
      ensures player.Consistent()
      ensures t.KillTask? && |t.description| >= 10 && t.description[..10] == "Executing "
      ensures FromCatalogue(t, player.content)
      ensures player.rng.drawn >= old(player.rng.drawn)
    {
      var next;
      ghost var walked, qty, pick, effectiveLevel;
      t, next, walked, qty, pick, effectiveLevel := MonsterTask(player.rng.tape, player.rng.drawn, player.content, player.level, player.questBook.monster);
      player.rng.Advance(next);
    }

    /** The next task after `previous`: the head of the queue; else the market
        when the load is full; else, unless coming from a kill or the way to
        the killing fields, a purchase when the gold exceeds the price of
        equipment, or the way to the killing fields; else a monster to kill. */
    method SelectNextTask(previous: Task)
      requires player.Consistent()
      modifies player, player.taskBar, player.rng
      ensures player.Valid()
      ensures player.level == old(player.level)
      ensures old(player.queue) != [] ==>
                player.task == old(player.queue[0]) && player.queue == old(player.queue[1..])
                && !player.taskBar.Done()
      ensures old(player.queue) == [] ==> player.queue == []
      ensures old(player.queue) == [] && player.inventory.encumBar.Done() ==>
                player.task == HeadingToMarketTask("Heading to market to sell loot", 4000)
      ensures old(player.queue) == [] && !player.inventory.encumBar.Done()
              && !(previous.KillTask? || previous.HeadingToKillingFieldsTask?) ==>
                player.task == if player.inventory.gold > EquipPrice(player.level)
                               then BuyTask("Negotiating purchase of better equipment", 5000)
                               else HeadingToKillingFieldsTask("Heading to the killing fields", 4000)
      ensures old(player.queue) == [] && !player.inventory.encumBar.Done()
              && (previous.KillTask? || previous.HeadingToKillingFieldsTask?) ==>
                player.task.KillTask? && |player.task.description| >= 10
                && player.task.description[..10] == "Executing "
      ensures player.taskBar.Done() ==>
                old(player.queue) == [] && !player.inventory.encumBar.Done()
                && (previous.KillTask? || previous.HeadingToKillingFieldsTask?) && player.task.KillTask?
    {
      if player.queue != [] {
        var next := player.queue[0];
        assert next in player.queue;
        player.queue := player.queue[1..];
        player.SetTask(next);
      } else if player.inventory.encumBar.Done() {
        player.SetTask(HeadingToMarketTask("Heading to market to sell loot", 4000));
      } else if !(previous.KillTask? || previous.HeadingToKillingFieldsTask?) {
        if player.inventory.gold > EquipPrice(player.level) {
          player.SetTask(BuyTask("Negotiating purchase of better equipment", 5000));
        } else {
          player.SetTask(HeadingToKillingFieldsTask("Heading to the killing fields", 4000));
        }
      } else {
        var t := DrawKill();
        player.SetTask(t);
      }
    }

    /** `dequeue()`: while the task bar is full, settle the task and start the
        next. It ends because every story task and every task other than a
        kill takes time, and a kill of length zero only follows a kill or the
        way to the killing fields with nothing queued and the load not full:
        each such kill adds a unit of loot towards the capacity. */
    method Dequeue()
      requires player.Valid()
      modifies player.Repr()
      ensures player.Valid() && !player.taskBar.Done()
      ensures player.level == old(player.level)
      ensures player.queue == old(player.queue) || (old(player.queue) != [] && player.queue == old(player.queue[1..]))
      ensures !old(player.taskBar.Done()) ==> unchanged(player.Repr())
    {
      ghost var q0 := player.queue;
      while player.taskBar.Done()
        invariant player.Valid()
        invariant player.level == old(player.level)
        invariant player.queue == q0 || (q0 != [] && player.queue == q0[1..] && !player.taskBar.Done())
        invariant !old(player.taskBar.Done()) ==> unchanged(player.Repr())
        decreases (if player.taskBar.Done() then 1 else 0),
                  (if player.inventory.encumBar.Done() then 0 else 1),
                  player.inventory.Headroom(),
                  (if player.task.KillTask? then 0 else 1)
      {
        var previous := player.task;
        var stop := FinishTask();
        if stop {
          break;
        }
        SelectNextTask(previous);
      }
    }

    /** `enqueue(task)` of the cinematics: append, then dequeue. */
    method Enqueue(t: Task)
      requires player.Valid() && Scripted(t)
      modifies player.Repr()
      ensures player.Valid() && !player.taskBar.Done()
      ensures player.level == old(player.level)
      ensures Appended(old(player.queue), [t], player.queue)
      ensures !old(player.taskBar.Done()) ==>
                player.queue == old(player.queue) + [t] && player.questBook.act == old(player.questBook.act)
    {
      player.Append(t);
      Dequeue();
    }

    /** The reward for a completed quest, chosen with one draw. */
    method QuestReward() returns (reward: Reward)
      requires player.Valid()
      modifies player.stats, player.rng, player.inventory, player.inventory.encumBar, player.spellBook, player.equipment
      ensures player.Valid()
      ensures reward == Pick(player.rng.tape, old(player.rng.drawn), Rewards)
      ensures reward == StatReward <==> StatTotal(player.stats.values) == old(StatTotal(player.stats.values)) + 1
      ensures reward == ItemReward <==> Total(player.inventory.items) == old(Total(player.inventory.items)) + 1
      ensures reward != SpellReward ==> player.spellBook.spells == old(player.spellBook.spells)
      ensures reward != EquipmentReward ==> player.equipment.items == old(player.equipment.items)
    {
      hide Draw, Pick;
      reward := player.rng.Choice(Rewards);
      match reward
      case SpellReward =>
        ghost var spell := player.WinSpell();
      case EquipmentReward =>
        ghost var won := player.WinEquipment();
      case StatReward =>
        ghost var chosen := player.WinStat();
      case ItemReward =>
        ghost var item := player.WinItem();
    }

    /** The draws that make up a new quest: a choice below 5, then the monster
        or item it is about, and the caption that names it. */
    method DrawQuest() returns (choice: nat, caption: string, ghost target: Option<Monster>, quarry: Option<Monster>,
                                ghost pick: nat)
      requires player.Valid()
      modifies player.rng
      ensures player.Valid()
      ensures choice == Draw(player.rng.tape, old(player.rng.drawn), 5)
      ensures quarry == (if choice == 0 then target else None)
      ensures target.Some? <==> choice == 0 || choice == 4
      ensures target.Some? ==> target.value in player.content.monsters
      ensures choice == 0 ==>
                target.Some?
                && NearestMonster(player.rng.tape, old(player.rng.drawn) + 1, player.content.monsters, 3, player.level,
                                  target.value, pick)
      ensures choice == 4 ==>
                target.Some?
                && NearestMonster(player.rng.tape, old(player.rng.drawn) + 1, player.content.monsters, 1, player.level,
                                  target.value, pick)
      ensures choice == 0 ==>
                caption == "Exterminate " + player.content.lingo.definite(target.value.name, 2)
      ensures choice == 1 ==>
                caption == "Seek " + player.content.lingo.definite(
                  InterestingItem(player.rng.tape, old(player.rng.drawn) + 1, player.content).0, 1)
      ensures choice == 2 ==>
                caption == "Deliver this " + BoringItem(player.rng.tape, old(player.rng.drawn) + 1, player.content).0
      ensures choice == 3 ==>
                caption == "Fetch me " + player.content.lingo.indefinite(
                  BoringItem(player.rng.tape, old(player.rng.drawn) + 1, player.content).0, 1)
      ensures choice == 4 ==> caption == "Placate " + player.content.lingo.definite(target.value.name, 2)
    {
      hide Draw, Pick, InterestingItem, BoringItem;
      choice := player.rng.Below(5);
      var tape, k := player.rng.tape, player.rng.drawn;
      var lingo := player.content.lingo;
      target, quarry, pick := None, None, 0;
      if choice == 0 {
        var m, i := UnnamedMonster(tape, k, player.content.monsters, player.level, 3);
        pick := i;
        player.rng.Advance(k + 4);
        target, quarry := Some(m), Some(m);
        caption := "Exterminate " + lingo.definite(m.name, 2);
      } else if choice == 1 {
        var r := InterestingItem(tape, k, player.content);
        player.rng.Advance(r.1);
        caption := "Seek " + lingo.definite(r.0, 1);
      } else if choice == 2 {
        var r := BoringItem(tape, k, player.content);
        player.rng.Advance(r.1);
        caption := "Deliver this " + r.0;
      } else if choice == 3 {
        var r := BoringItem(tape, k, player.content);
        player.rng.Advance(r.1);
        caption := "Fetch me " + lingo.indefinite(r.0, 1);
      } else {
        var m, i := UnnamedMonster(tape, k, player.content.monsters, player.level, 1);
        pick := i;
        player.rng.Advance(k + 2);
        target := Some(m);
        caption := "Placate " + lingo.definite(m.name, 2);
      }
    }

    /** The next quest, chosen with a draw below 5: exterminate a monster of
        about the level (which becomes the quest monster), seek an interesting
        item, deliver or fetch a boring one, or placate a monster. */
    method NewQuest() returns (choice: nat, caption: string, ghost target: Option<Monster>, ghost pick: nat)
      requires player.Valid()
      modifies player.questBook, player.rng
      ensures player.Valid()
      ensures choice == Draw(player.rng.tape, old(player.rng.drawn), 5)
      ensures player.questBook.quests == KeepLast(old(player.questBook.quests), 100) + [caption]
      ensures player.questBook.act == old(player.questBook.act)
      ensures player.questBook.monster.Some? <==> choice == 0
      ensures target.Some? <==> choice == 0 || choice == 4
      ensures target.Some? ==> target.value in player.content.monsters
      ensures choice == 0 ==>
                target.Some?
                && NearestMonster(player.rng.tape, old(player.rng.drawn) + 1, player.content.monsters, 3, player.level,
                                  target.value, pick)
      ensures choice == 4 ==>
                target.Some?
                && NearestMonster(player.rng.tape, old(player.rng.drawn) + 1, player.content.monsters, 1, player.level,
                                  target.value, pick)
      ensures choice == 0 ==>
                player.questBook.monster == target
                && caption == "Exterminate " + player.content.lingo.definite(target.value.name, 2)
      ensures choice == 1 ==>
                caption == "Seek " + player.content.lingo.definite(
                  InterestingItem(player.rng.tape, old(player.rng.drawn) + 1, player.content).0, 1)
      ensures choice == 2 ==>
                caption == "Deliver this " + BoringItem(player.rng.tape, old(player.rng.drawn) + 1, player.content).0
      ensures choice == 3 ==>
                caption == "Fetch me " + player.content.lingo.indefinite(
                  BoringItem(player.rng.tape, old(player.rng.drawn) + 1, player.content).0, 1)
      ensures choice == 4 ==> caption == "Placate " + player.content.lingo.definite(target.value.name, 2)
    {
      hide Draw, Pick, InterestingItem, BoringItem, NearestMonster, KeepLast;
      player.questBook.monster := None;
      var quarry;
      choice, caption, target, quarry, pick := DrawQuest();
      player.questBook.monster := quarry;
      player.questBook.AddQuest(caption);
    }

    /** `complete_quest()`: the quest bar restarts at 50 plus a draw below
        1000; a reward when a quest was under way; then a new quest. */
    method CompleteQuest() returns (ghost caption: string)
      requires player.Valid()
      modifies player.questBook, player.questBook.questBar, player.stats, player.rng, player.inventory,
               player.inventory.encumBar, player.spellBook, player.equipment
      ensures player.Valid()
      ensures player.questBook.questBar.max == 50 + Draw(player.rng.tape, old(player.rng.drawn), 1000)
      ensures player.questBook.questBar.position == 0.0
      ensures player.questBook.quests == KeepLast(old(player.questBook.quests), 100) + [caption]
      ensures player.questBook.act == old(player.questBook.act)
      ensures !(old(player.questBook.CurrentQuest()).Some? && old(player.questBook.CurrentQuest()).value != "") ==>
                player.spellBook.spells == old(player.spellBook.spells)
                && player.equipment.items == old(player.equipment.items)
                && player.stats.values == old(player.stats.values)
                && player.inventory.items == old(player.inventory.items)
    {
      hide Draw;
      var r := player.rng.Below(1000);
      player.questBook.questBar.Reset(50 + r, 0.0);
      var current := player.questBook.CurrentQuest();
      if current.Some? && current.value != "" {
        var reward := QuestReward();
      }
      var choice, title;
      ghost var target, pick;
      choice, title, target, pick := NewQuest();
      caption := title;
    }

    /** The experience a kill brings: a level when the bar is full, otherwise
        the bar grows by the task's length in seconds. */
    method GainExperience()
      requires player.Valid()
      modifies player, player.stats, player.rng, player.inventory.encumBar, player.spellBook, player.expBar
      ensures player.Valid()
      ensures player.task == old(player.task) && player.queue == old(player.queue)
      ensures old(player.expBar.Done()) ==>
                player.level == old(player.level) + 1
                && player.expBar.max == LevelUpTime(player.level) && player.expBar.position == 0.0
      ensures !old(player.expBar.Done()) ==>
                player.level == old(player.level) && player.expBar.max == old(player.expBar.max)
                && player.expBar.position ==
                   Clamp(old(player.expBar.position) + player.taskBar.max as real / 1000.0, player.expBar.max)
    {
      if player.expBar.Done() {
        ghost var hpGain, mpGain, spell := player.LevelUp();
      } else {
        player.expBar.Increment(player.taskBar.max as real / 1000.0);
      }
    }

    /** Quest progress from a kill: a quest completes when the quest bar is
        full or no quest is under way; otherwise the bar grows. */
    method AdvanceQuest()
      requires player.Valid()
      modifies player.questBook, player.questBook.questBar, player.stats, player.rng, player.inventory,
               player.inventory.encumBar, player.spellBook, player.equipment
      ensures player.Valid()
      ensures player.questBook.act == old(player.questBook.act)
      ensures old(player.questBook.questBar.Done()) || old(player.questBook.CurrentQuest()).None? ==>
                player.questBook.CurrentQuest().Some? && player.questBook.questBar.position == 0.0
                && 50 <= player.questBook.questBar.max < 1050
      ensures !(old(player.questBook.questBar.Done()) || old(player.questBook.CurrentQuest()).None?) ==>
                player.questBook.quests == old(player.questBook.quests)
                && player.questBook.questBar.max == old(player.questBook.questBar.max)
                && player.questBook.questBar.position ==
                   Clamp(old(player.questBook.questBar.position) + player.taskBar.max as real / 1000.0,
                         player.questBook.questBar.max)
    {
      if player.questBook.questBar.Done() || player.questBook.CurrentQuest().None? {
        ghost var caption := CompleteQuest();
      } else {
        player.questBook.questBar.Increment(player.taskBar.max as real / 1000.0);
      }
    }

    /** A further `enqueue` within a cinematic: the task bar is running, so
        the dequeue that follows is idle and beat `i` of the story just joins
        the queue. */
    method EnqueueMore(t: Task, ghost q0: seq<Task>, ghost story: seq<Task>, ghost i: nat)
      requires player.Valid() && !player.taskBar.Done()
      requires i < |story| && story[i] == t && Scripted(t)
      requires Appended(q0, story[..i], player.queue)
      modifies player.Repr()
      ensures player.Valid() && !player.taskBar.Done()
      ensures player.level == old(player.level) && player.questBook.act == old(player.questBook.act)
      ensures Appended(q0, story[..i + 1], player.queue)
    {
      Enqueue(t);
      AppendedExtend(q0, story, i, old(player.queue));
    }

    /** `impressive_guy()`: three draws name a host of standing. */
    method DrawHost() returns (host: string)
      requires player.Valid()
      modifies player.rng
      ensures player.Valid()
      ensures host == ImpressiveGuy(player.rng.tape, old(player.rng.drawn), player.content).0
      ensures Contains(host, " of ") && player.rng.drawn == old(player.rng.drawn) + 3
    {
      var guy := ImpressiveGuy(player.rng.tape, player.rng.drawn, player.content);
      player.rng.Advance(guy.1);
      host := guy.0;
    }

    /** `boring_item()`: one draw. */
    method DrawBoringItem() returns (item: string)
      requires player.Valid()
      modifies player.rng
      ensures player.Valid()
      ensures item == BoringItem(player.rng.tape, old(player.rng.drawn), player.content).0
      ensures item in player.content.boringItems && player.rng.drawn == old(player.rng.drawn) + 1
    {
      var boring := BoringItem(player.rng.tape, player.rng.drawn, player.content);
      player.rng.Advance(boring.1);
      item := boring.0;
    }

    /** `named_monster(level + 3)`: the monster nearest three levels above the
        character's among five draws, and a name from a sixth, name the nemesis
        of a cinematic. */
    method DrawNemesis() returns (name: string, ghost monster: Monster, ghost pick: nat)
      requires player.Valid()
      modifies player.rng
      ensures player.Valid()
      ensures monster in player.content.monsters
      ensures NearestMonster(player.rng.tape, old(player.rng.drawn), player.content.monsters, 4, player.level + 3,
                             monster, pick)
      ensures name == player.content.lingo.generateName(player.rng.tape(old(player.rng.drawn) + 5)) + " the " + monster.name
      ensures player.rng.drawn == old(player.rng.drawn) + 6
    {
      hide NearestMonster, Candidates, Draw, Pick;
      var k := player.rng.drawn;
      name, monster, pick := NamedMonster(player.rng.tape, k, player.content, player.level + 3);
      player.rng.Advance(k + 6);
    }

    /** Choice 0 of the cinematic: four beats at a friendly oasis. */
    method OasisCinematic() returns (ghost burst: seq<Task>)
      requires player.Valid()
      modifies player.Repr()
      ensures player.Valid() && !player.taskBar.Done()
      ensures player.level == old(player.level)
      ensures burst == [Beat(Oasis), Beat(Allies), Beat(Council), Beat(Chosen)]
      ensures Appended(old(player.queue), burst, player.queue)
    {
      hide *;
      ghost var q0 := player.queue;
      burst := [Beat(Oasis), Beat(Allies), Beat(Council), Beat(Chosen)];
      Enqueue(Beat(Oasis));
      assert burst[..1] == [Beat(Oasis)];
      EnqueueMore(Beat(Allies), q0, burst, 1);
      EnqueueMore(Beat(Council), q0, burst, 2);
      EnqueueMore(Beat(Chosen), q0, burst, 3);
      assert burst[..4] == burst;
    }

    /** The opening of choice 1: the quarry in sight, then a nemesis named
        three levels up and the struggle with it. */
    method ConfrontNemesis() returns (ghost burst: seq<Task>, foe: string)
      requires player.Valid()
      modifies player.Repr()
      ensures player.Valid() && !player.taskBar.Done()
      ensures player.level == old(player.level)
      ensures burst == [Beat(Quarry), Beat(Struggle(foe))]
      ensures Appended(old(player.queue), burst, player.queue)
    {
      hide *;
      ghost var q0 := player.queue;
      Enqueue(Beat(Quarry));
      ghost var monster, pick;
      foe, monster, pick := DrawNemesis();
      burst := [Beat(Quarry), Beat(Struggle(foe))];
      assert burst[..1] == [Beat(Quarry)];
      EnqueueMore(Beat(Struggle(foe)), q0, burst, 1);
      assert burst[..2] == burst;
    }

    /** One round of the struggle: one or two points more for the score, and
        the combat beat it selects joins the story. */
    method FightRound(ghost q0: seq<Task>, ghost burst: seq<Task>, score: nat, foe: string)
      returns (next: nat, ghost longer: seq<Task>)
      requires player.Valid() && !player.taskBar.Done()
      requires Appended(q0, burst, player.queue)
      modifies player.Repr()
      ensures player.Valid() && !player.taskBar.Done()
      ensures player.level == old(player.level) && player.questBook.act == old(player.questBook.act)
      ensures score + 1 <= next <= score + 2
      ensures longer == burst + [Beat(CombatScene(next, foe))]
      ensures Appended(q0, longer, player.queue)
    {
      var step := player.Roll(2);
      next := score + 1 + step;
      var beat := Beat(CombatScene(next, foe));
      longer := burst + [beat];
      assert longer[..|burst|] == burst;
      EnqueueMore(beat, q0, longer, |burst|);
      assert longer[..|burst| + 1] == longer;
    }

    /** The running fight of choice 1: the score starts at a draw below 3;
        round `i` happens while `i` does not exceed a draw below the act plus
        two, and adds one or two to the score, whose remainder modulo 3 picks
        the beat. */
    method FightNemesis(ghost q0: seq<Task>, ghost opening: seq<Task>, foe: string) returns (ghost burst: seq<Task>)
      requires player.Valid() && !player.taskBar.Done()
      requires Appended(q0, opening, player.queue)
      modifies player.Repr()
      ensures player.Valid() && !player.taskBar.Done()
      ensures player.level == old(player.level) && player.questBook.act == old(player.questBook.act)
      ensures |opening| <= |burst| <= |opening| + player.questBook.act + 1
      ensures burst[..|opening|] == opening
      ensures forall j :: |opening| <= j < |burst| ==> Combat(burst[j], foe)
      ensures Appended(q0, burst, player.queue)
    {
      ActStarted(player);
      hide *;
      var score := player.Roll(3);
      var i := 1;
      burst := opening;
      ghost var act := player.questBook.act;
      while true
        invariant player.Valid() && !player.taskBar.Done()
        invariant player.level == old(player.level) && player.questBook.act == act && 0 <= act
        invariant 1 <= i <= act + 2 && |burst| == |opening| + i - 1
        invariant burst[..|opening|] == opening
        invariant forall j :: |opening| <= j < |burst| ==> Combat(burst[j], foe)
        invariant Appended(q0, burst, player.queue)
        decreases act + 2 - i
      {
        var bound := player.Roll(1 + player.questBook.act + 1);
        if i > bound {
          break;
        }
        score, burst := FightRound(q0, burst, score, foe);
        i := i + 1;
      }
    }

    /** Choice 1 of the cinematic: a fight with a named monster three levels
        up, a struggle of between none and act-plus-one combat beats, victory. */
    method NemesisCinematic() returns (ghost burst: seq<Task>, ghost foe: string)
      requires player.Valid()
      modifies player.Repr()
      ensures player.Valid() && !player.taskBar.Done()
      ensures player.level == old(player.level)
      ensures 4 <= |burst| <= player.questBook.act + 5
      ensures burst[0] == Beat(Quarry) && burst[1] == Beat(Struggle(foe))
      ensures forall j :: 2 <= j < |burst| - 2 ==> Combat(burst[j], foe)
      ensures burst[|burst| - 2..] == [Beat(Victory(foe)), Beat(Awake)]
      ensures Appended(old(player.queue), burst, player.queue)
    {
      hide *;
      ghost var q0 := player.queue;
      ghost var opening;
      var nemesis;
      opening, nemesis := ConfrontNemesis();
      foe := nemesis;
      ghost var fight := FightNemesis(q0, opening, nemesis);
      burst := fight + [Beat(Victory(nemesis)), Beat(Awake)];
      assert burst[..|fight|] == fight;
      EnqueueMore(Beat(Victory(nemesis)), q0, burst, |fight|);
      EnqueueMore(Beat(Awake), q0, burst, |fight| + 1);
      assert burst[..|fight| + 2] == burst;
    }

    /** Choice 2 of the cinematic: the protection of an impressive host, who
        may be a double-dealer. The host is drawn before anything is queued;
        the forgotten item only after the first two beats. */
    method ProtectorCinematic() returns (ghost burst: seq<Task>, host: string, item: string)
      requires player.Valid()
      modifies player.Repr()
      ensures player.Valid() && !player.taskBar.Done()
      ensures player.level == old(player.level)
      ensures host == ImpressiveGuy(player.rng.tape, old(player.rng.drawn), player.content).0
      ensures Contains(host, " of ") && item in player.content.boringItems
      ensures burst == ProtectorStory(host, item)
      ensures Appended(old(player.queue), burst, player.queue)
    {
      hide *;
      ghost var q0 := player.queue;
      host := DrawHost();
      Enqueue(Beat(Relief(host)));
      ghost var opening := [Beat(Relief(host)), Beat(Rejoicing(host))];
      assert opening[..1] == [Beat(Relief(host))];
      EnqueueMore(Beat(Rejoicing(host)), q0, opening, 1);
      item := DrawBoringItem();
      burst := ProtectorStory(host, item);
      ProtectorBeats(host, item);
      assert burst[..2] == opening[..2];
      EnqueueMore(Beat(Forgotten(item)), q0, burst, 2);
      EnqueueMore(Beat(Overheard), q0, burst, 3);
      EnqueueMore(Beat(DoubleDealer(host)), q0, burst, 4);
      EnqueueMore(Beat(Trusted), q0, burst, 5);
      assert burst[..6] == burst;
    }

    /** `interplot_cinematic()`: one of three scripted episodes, chosen with a
        draw below 3, then the plot task that loads the next act. */
    method InterplotCinematic() returns (choice: nat, ghost burst: seq<Task>, ghost foe: string, ghost item: string)
      requires player.Valid()
      modifies player.Repr()
      ensures player.Valid() && !player.taskBar.Done()
      ensures player.level == old(player.level)
      ensures choice == Draw(player.rng.tape, old(player.rng.drawn), 3)
      ensures Appended(old(player.queue), burst, player.queue)
      ensures 5 <= |burst| && burst[|burst| - 1] == ActLoader(player.content, player.questBook.act)
      ensures choice == 0 ==> |burst| == 5 && burst[..4] == [Beat(Oasis), Beat(Allies), Beat(Council), Beat(Chosen)]
      ensures choice == 1 ==>
                |burst| <= player.questBook.act + 6 && burst[0] == Beat(Quarry) && burst[1] == Beat(Struggle(foe))
                && (forall j :: 2 <= j < |burst| - 3 ==> Combat(burst[j], foe))
                && burst[|burst| - 3] == Beat(Victory(foe)) && burst[|burst| - 2] == Beat(Awake)
      ensures choice == 2 ==>
                |burst| == 7 && burst[..6] == ProtectorStory(foe, item)
                && foe == ImpressiveGuy(player.rng.tape, old(player.rng.drawn) + 1, player.content).0
                && item in player.content.boringItems
    {
      hide Draw, Beat, ActLoader, ProtectorStory, ImpressiveGuy, Combat, Appended;
      choice := player.rng.Below(3);
      foe, item := "", "";
      ghost var q0 := player.queue;
      ghost var story;
      if choice == 0 {
        story := OasisCinematic();
      } else if choice == 1 {
        story, foe := NemesisCinematic();
      } else {
        var host, boring;
        story, host, boring := ProtectorCinematic();
        foe, item := host, boring;
      }
      var loader := ActLoader(player.content, player.questBook.act);
      ghost var q1 := player.queue;
      Enqueue(loader);
      burst := story + [loader];
      Closed(story, loader);
      AppendedExtend(q0, burst, |story|, q1);
    }

    /** Plot progress from a kill: the cinematic when the plot bar is full,
        otherwise the bar grows. */
    method AdvancePlot()
      requires player.Valid()
      modifies player.Repr()
      ensures player.Valid()
      ensures player.level == old(player.level)
      ensures !old(player.questBook.plotBar.Done()) ==>
                player.questBook.plotBar.max == old(player.questBook.plotBar.max)
                && player.questBook.plotBar.position ==
                   Clamp(old(player.questBook.plotBar.position) + player.taskBar.max as real / 1000.0,
                         player.questBook.plotBar.max)
                && player.queue == old(player.queue) && player.task == old(player.task)
      ensures old(player.questBook.plotBar.Done()) ==> !player.taskBar.Done() && |player.queue| >= 4
    {
      if player.questBook.plotBar.Done() {
        var choice;
        ghost var burst, foe, item;
        choice, burst, foe, item := InterplotCinematic();
      } else {
        player.questBook.plotBar.Increment(player.taskBar.max as real / 1000.0);
      }
    }

    /** What a finished kill brings: experience (or a level), quest progress
        from the first act on, and plot progress. */
    method KillRewards()
      requires player.Valid()
      modifies player.Repr()
      ensures player.Valid()
      ensures player.level == old(player.level) + if old(player.expBar.Done()) then 1 else 0
    {
      GainExperience();
      if player.questBook.act >= 1 {
        AdvanceQuest();
      }
      AdvancePlot();
    }

    /** `tick(elapsed)`: while the task runs, the time is added to the task bar
        and to the elapsed total; once it is done, a kill brings experience,
        quest progress (from the first act on) and plot progress, and the
        queue moves on. */
    method Tick(inc: real)
      requires player.Valid()
      modifies this, player.Repr()
      ensures player.Valid()
      ensures !old(player.taskBar.Done()) ==>
                elapsed == old(elapsed) + inc
                && player.taskBar.max == old(player.taskBar.max)
                && player.taskBar.position == Clamp(old(player.taskBar.position) + inc, player.taskBar.max)
                && player.level == old(player.level) && player.task == old(player.task)
                && player.queue == old(player.queue)
                && unchanged(player.Repr() - {player.taskBar})
      ensures old(player.taskBar.Done()) ==> elapsed == old(elapsed) && !player.taskBar.Done()
      ensures player.level == old(player.level) + if old(player.taskBar.Done() && player.task.KillTask? && player.expBar.Done()) then 1 else 0
    {
      if !player.taskBar.Done() {
        elapsed := elapsed + inc;
        player.taskBar.Increment(inc);
        return;
      }
      if player.task.KillTask? {
        KillRewards();
      }
      Dequeue();
    }
  }
}
