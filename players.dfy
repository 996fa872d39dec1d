/** The character: level, experience, task and task queue, and the containers
    it owns, with the rewards that change them. The source's global random
    generator and its content tables are fields here, fixed at creation. */
module Players {
  import opened Wrappers
  import opened Content
  import opened Dice
  import opened Text
  import opened Bars
  import opened Containers
  import opened Tasks
  import opened Generators

  // ---------------------------------------------------------------------------
  // Arithmetic
  // ---------------------------------------------------------------------------

  /** `level_up_time(level)`: twenty minutes of game time per level, in seconds. */
  function LevelUpTime(level: int): (seconds: int)
    ensures seconds == 1200 * level
  {
    20 * level * 60
  }

  /** `equip_price()` at `level`: 5L² + 10L + 20, which is 5(L + 1)² + 15. */
  function EquipPrice(level: int): (price: int)
    ensures price >= 15
  {
    assert 5 * level * level + 10 * level + 20 == 5 * ((level + 1) * (level + 1)) + 15;
    5 * level * level + 10 * level + 20
  }

  /** Equipment only gets dearer as the character levels up. */
  lemma EquipPriceRises(a: int, b: int)
    requires -1 <= a < b
    ensures EquipPrice(a) < EquipPrice(b)
  {
    assert EquipPrice(b) - EquipPrice(a) == (5 * (a + b) + 10) * (b - a);
    MulMonotone(1, 5 * (a + b) + 10, b - a);
  }

  // ---------------------------------------------------------------------------
  // win_stat: the weighted walk
  // ---------------------------------------------------------------------------

  /** The walk of `win_stat` over the stats in order: subtract each squared value
      from `t` and stop at the first stat that takes it below zero. That stat is
      the first whose running sum of squares exceeds `t`, and it is never a stat
      whose value is zero. */
  method ChooseWeighted(vs: seq<int>, t: int) returns (i: nat)
    requires 0 <= t < SumSquares(vs)
    ensures i < |vs|
    ensures SumSquares(vs[..i]) <= t < SumSquares(vs[..i + 1])
    ensures forall j :: 0 <= j < i ==> SumSquares(vs[..j]) + vs[j] * vs[j] <= t
    ensures vs[i] != 0
  {
    assert vs[..|vs|] == vs;
    i := 0;
    var rest := t;
    while rest >= vs[i] * vs[i]
      invariant i < |vs|
      invariant rest == t - SumSquares(vs[..i])
      invariant 0 <= rest
      invariant forall j :: 0 <= j < i ==> SumSquares(vs[..j]) + vs[j] * vs[j] <= t
      decreases |vs| - i
    {
      assert vs[..i + 1][..i] == vs[..i];
      rest := rest - vs[i] * vs[i];
      i := i + 1;
    }
    assert vs[..i + 1][..i] == vs[..i];
  }

  /** Which stat place the draws at `k` and `k + 1` select: on heads of the coin,
      a uniform pick among the stats; on tails, the place where a draw below
      the sum of squares falls among the running sums of squares. */
  predicate StatDrawn(tape: Tape, k: nat, vs: seq<int>, i: nat) {
    && i < |AllStats| && i < |vs|
    && if Chance(tape, k, 1, 2) then AllStats[i] == Pick(tape, k + 1, AllStats)
       else 0 < SumSquares(vs) &&
            var t := Draw(tape, k + 1, SumSquares(vs));
            SumSquares(vs[..i]) <= t < SumSquares(vs[..i + 1])
  }

  /** The draws of `win_stat`: a coin, then either a uniform pick of a stat or the
      weighted walk over a draw below the sum of squares. Gives the stat's place. */
  method DrawStat(rng: Random, vs: seq<int>) returns (i: nat)
    requires |vs| == |AllStats| && 0 < SumSquares(vs)
    modifies rng
    ensures i < |vs|
    ensures StatDrawn(rng.tape, old(rng.drawn), vs, i)
    ensures rng.drawn == old(rng.drawn) + 2
  {
    var uniform := rng.Odds(1, 2);
    if uniform {
      var stat := rng.Choice(AllStats);
      i := StatIndex(stat);
    } else {
      var t := rng.Below(SumSquares(vs));
      i := ChooseWeighted(vs, t);
    }
  }

  // ---------------------------------------------------------------------------
  // win_equipment: the name builder
  // ---------------------------------------------------------------------------

  function Abs(x: int): nat {
    if x < 0 then -x else x
  }

  /** The total quality of the modifiers applied so far. */
  function QualitySum(ms: seq<Modifier>): int {
    if ms == [] then 0 else QualitySum(ms[..|ms| - 1]) + ms[|ms| - 1].quality
  }

  /** `base` with the modifiers put in front, the latest one first. */
  function Prefixed(ms: seq<Modifier>, base: string): string {
    if ms == [] then base else ms[|ms| - 1].name + " " + Prefixed(ms[..|ms| - 1], base)
  }

  /** The leftover bonus written in front of the name: "-N " or "+N ", or nothing. */
  function PlusLabel(plus: int): (tag: string)
    ensures plus == 0 <==> tag == ""
    ensures plus < 0 ==> tag == IntToString(plus) + " " && tag[0] == '-'
    ensures plus > 0 ==> tag == "+" + IntToString(plus) + " "
  {
    if plus < 0 then IntToString(plus) + " " else if plus > 0 then "+" + IntToString(plus) + " " else ""
  }

  predicate EndsWith(s: string, suffix: string) {
    |suffix| <= |s| && s[|s| - |suffix|..] == suffix
  }

  /** A drawn modifier fails the tests of the loop: its name already occurs in
      the name, or its quality exceeds what is left of the bonus. */
  predicate Rejected(m: Modifier, name: string, plus: int) {
    Contains(name, m.name) || Abs(plus) < Abs(m.quality)
  }

  /** Each applied modifier was drawn while a bonus was left and passed both
      tests of the loop. */
  ghost predicate Admissible(applied: seq<Modifier>, base: string, plus0: int) {
    forall j :: 0 <= j < |applied| ==>
      && QualitySum(applied[..j]) != plus0
      && !Rejected(applied[j], Prefixed(applied[..j], base), plus0 - QualitySum(applied[..j]))
  }

  /** Putting one more admissible modifier in front. */
  lemma AdmissibleAppend(applied: seq<Modifier>, base: string, plus0: int, m: Modifier)
    requires Admissible(applied, base, plus0)
    requires QualitySum(applied) != plus0
    requires !Rejected(m, Prefixed(applied, base), plus0 - QualitySum(applied))
    ensures Admissible(applied + [m], base, plus0)
    ensures Prefixed(applied + [m], base) == m.name + " " + Prefixed(applied, base)
    ensures QualitySum(applied + [m]) == QualitySum(applied) + m.quality
  {
    var longer := applied + [m];
    assert longer[..|applied|] == applied;
    forall j | 0 <= j < |longer|
      ensures QualitySum(longer[..j]) != plus0
      ensures !Rejected(longer[j], Prefixed(longer[..j], base), plus0 - QualitySum(longer[..j]))
    {
      if j < |applied| {
        assert longer[..j] == applied[..j];
      }
    }
  }

  /** The stacking loop of `win_equipment` as drawn from `k`: at most two
      modifiers, each the draw of its turn and admissible; and unless two are on
      or the bonus is used up, the next draw was rejected and ended the loop. */
  ghost predicate Stacked(tape: Tape, k: nat, base: string, plus0: int, pool: seq<Modifier>, applied: seq<Modifier>) {
    && 0 < |pool| && |applied| <= 2
    && (forall j :: 0 <= j < |applied| ==> applied[j] == Pick(tape, k + j, pool))
    && Admissible(applied, base, plus0)
    && (|applied| < 2 && QualitySum(applied) != plus0 ==>
          Rejected(Pick(tape, k + |applied|, pool), Prefixed(applied, base), plus0 - QualitySum(applied)))
  }

  /** How many draws the stacking loop reads: one per modifier, and one more for
      the modifier that was rejected. */
  function StackDraws(applied: seq<Modifier>, plus0: int): nat {
    |applied| + if |applied| < 2 && QualitySum(applied) != plus0 then 1 else 0
  }

  /** The draws decide the modifiers: the stacking loop has one outcome. */
  lemma StackedUnique(tape: Tape, k: nat, base: string, plus0: int, pool: seq<Modifier>,
                      a: seq<Modifier>, b: seq<Modifier>)
    requires Stacked(tape, k, base, plus0, pool, a) && Stacked(tape, k, base, plus0, pool, b)
    ensures a == b
  {
    assert forall j :: 0 <= j < |a| && j < |b| ==> a[j] == b[j];
    assert |a| <= |b| ==> b[..|a|] == a;
    assert |b| <= |a| ==> a[..|b|] == b;
    assert |a| == |b|;
    assert forall j :: 0 <= j < |a| ==> a[j] == b[j];
  }

  /** The stacking loop of `win_equipment`: while fewer than two modifiers are on
      and a bonus `plus` is left, draw a modifier; stop at one whose name already
      occurs in the name or whose quality exceeds what is left, otherwise put it
      in front and take its quality off. */
  method StackModifiers(tape: Tape, k: nat, base: string, plus0: int, pool: seq<Modifier>)
    returns (name: string, plus: int, next: nat, applied: seq<Modifier>)
    requires 0 < |pool|
    ensures Stacked(tape, k, base, plus0, pool, applied)
    ensures name == Prefixed(applied, base) && plus == plus0 - QualitySum(applied)
    ensures next == k + StackDraws(applied, plus0)
  {
    hide Contains, Prefixed, QualitySum, Admissible, Pick, Stacked;
    StackStart(base, plus0);
    name := base;
    plus := plus0;
    var count := 0;
    next := k;
    applied := [];
    while count < 2 && plus != 0
      invariant count == |applied| <= 2
      invariant next == k + count
      invariant forall j :: 0 <= j < |applied| ==> applied[j] == Pick(tape, k + j, pool)
      invariant plus == plus0 - QualitySum(applied)
      invariant name == Prefixed(applied, base)
      invariant Admissible(applied, base, plus0)
    {
      var modifier := Pick(tape, next, pool);
      next := next + 1;
      if Contains(name, modifier.name) {
        break;  // no repeats
      }
      if Abs(plus) < Abs(modifier.quality) {
        break;  // too much
      }
      AdmissibleAppend(applied, base, plus0, modifier);
      DrawnAppend(tape, k, pool, applied, modifier);
      name := modifier.name + " " + name;
      plus := plus - modifier.quality;
      applied := applied + [modifier];
      count := count + 1;
    }
    StackedFrom(tape, k, base, plus0, pool, applied);
  }

  /** The next draw appended to the modifiers drawn so far. */
  lemma StackStart(base: string, plus0: int)
    ensures Prefixed([], base) == base && QualitySum([]) == 0 && Admissible([], base, plus0)
  {
  }
  lemma DrawnAppend(tape: Tape, k: nat, pool: seq<Modifier>, applied: seq<Modifier>, m: Modifier)
    requires 0 < |pool|
    requires forall j :: 0 <= j < |applied| ==> applied[j] == Pick(tape, k + j, pool)
    requires m == Pick(tape, k + |applied|, pool)
    ensures forall j :: 0 <= j < |applied| + 1 ==> (applied + [m])[j] == Pick(tape, k + j, pool)
  {
  }

  /** The parts of `Stacked`, put together where the stacking loop ends. */
  lemma StackedFrom(tape: Tape, k: nat, base: string, plus0: int, pool: seq<Modifier>, applied: seq<Modifier>)
    requires 0 < |pool| && |applied| <= 2
    requires forall j :: 0 <= j < |applied| ==> applied[j] == Pick(tape, k + j, pool)
    requires Admissible(applied, base, plus0)
    requires |applied| < 2 && QualitySum(applied) != plus0 ==>
               Rejected(Pick(tape, k + |applied|, pool), Prefixed(applied, base), plus0 - QualitySum(applied))
    ensures Stacked(tape, k, base, plus0, pool, applied)
  {
  }

  /** The modifiers of `win_equipment`, then a nonzero leftover bonus written in
      front as "+N" or "-N". */
  method NameEquipment(tape: Tape, k: nat, base: string, plus0: int, pool: seq<Modifier>)
    returns (name: string, next: nat, applied: seq<Modifier>)
    requires 0 < |pool|
    ensures Stacked(tape, k, base, plus0, pool, applied)
    ensures name == PlusLabel(plus0 - QualitySum(applied)) + Prefixed(applied, base)
    ensures next == k + StackDraws(applied, plus0)
  {
    var plus;
    name, plus, next, applied := StackModifiers(tape, k, base, plus0, pool);
    if plus < 0 {
      name := IntToString(plus) + " " + name;
    }
    if plus > 0 {
      name := "+" + IntToString(plus) + " " + name;
    }
  }

  /** Every applied modifier's name occurs in the built name. */
  lemma {:induction false} PrefixedContains(ms: seq<Modifier>, base: string, i: nat)
    requires i < |ms|
    ensures Contains(Prefixed(ms, base), ms[i].name)
  {
    var n := |ms| - 1;
    var rest := Prefixed(ms[..n], base);
    if i == n {
      ContainsPrefix(ms[n].name, " " + rest);
      assert Prefixed(ms, base) == ms[n].name + (" " + rest);
    } else {
      PrefixedContains(ms[..n], base, i);
      ContainsUnderPrefix(ms[n].name + " ", rest, ms[i].name);
      assert Prefixed(ms, base) == (ms[n].name + " ") + rest;
    }
  }

  /** The no-repeat test keeps the applied modifiers' names distinct. */
  lemma ModifiersDistinct(applied: seq<Modifier>, base: string, plus0: int)
    requires Admissible(applied, base, plus0)
    ensures forall i, j :: 0 <= i < j < |applied| ==> applied[i].name != applied[j].name
  {
    forall i, j | 0 <= i < j < |applied|
      ensures applied[i].name != applied[j].name
    {
      PrefixedContains(applied[..j], base, i);
    }
  }

  /** The built name always ends with the name of the equipment itself. */
  lemma {:induction false} NameEndsWithBase(plus: int, ms: seq<Modifier>, base: string)
    ensures EndsWith(PlusLabel(plus) + Prefixed(ms, base), base)
  {
    PrefixedEndsWith(ms, base);
    var p := Prefixed(ms, base);
    assert (PlusLabel(plus) + p)[|PlusLabel(plus) + p| - |base|..] == p[|p| - |base|..];
  }

  lemma {:induction false} PrefixedEndsWith(ms: seq<Modifier>, base: string)
    ensures EndsWith(Prefixed(ms, base), base)
  {
    if ms != [] {
      var n := |ms| - 1;
      var p := Prefixed(ms[..n], base);
      PrefixedEndsWith(ms[..n], base);
      assert (ms[n].name + " " + p)[|ms[n].name + " " + p| - |base|..] == p[|p| - |base|..];
    }
  }

  /** The presets a slot draws from: weapons, shields, or armours for the rest. */
  function Stuff(content: Provider, slot: EquipmentType): seq<EquipmentPreset> {
    if slot == Weapon then content.weapons else if slot == Shield then content.shields else content.armors
  }

  /** The modifiers for a positive bonus: offensive ones for a weapon. */
  function Better(content: Provider, slot: EquipmentType): seq<Modifier> {
    if slot == Weapon then content.offenseAttrib else content.defenseAttrib
  }

  /** The modifiers for a negative bonus. */
  function Worse(content: Provider, slot: EquipmentType): seq<Modifier> {
    if slot == Weapon then content.offenseBad else content.defenseBad
  }

  /** The modifiers that fit a bonus: the bad ones for a negative bonus. */
  function Pool(content: Provider, slot: EquipmentType, plus: int): seq<Modifier> {
    if plus < 0 then Worse(content, slot) else Better(content, slot)
  }

  /** A piece of equipment won: its slot, the preset (candidate `pick` of the
      six drawn), the modifiers put on and the name built. */
  datatype EquipmentWin = EquipmentWin(slot: EquipmentType, preset: EquipmentPreset, pick: nat,
                                       applied: seq<Modifier>, name: string)

  /** The equipment for `w.slot` as drawn from `k` at `level`: the preset of
      quality nearest the level among six draws; modifiers from the pool for the
      bonus `level - quality`, stacked from the seventh draw on; and the name,
      the modifiers in front of the preset's name with the leftover bonus as a
      label before them. */
  ghost predicate Forged(tape: Tape, k: nat, content: Provider, level: int, w: EquipmentWin) {
    var plus := level - w.preset.quality;
    && NearestPreset(tape, k, Stuff(content, w.slot), level, w.preset, w.pick)
    && Stacked(tape, k + 6, w.preset.name, plus, Pool(content, w.slot, plus), w.applied)
    && w.name == PlusLabel(plus - QualitySum(w.applied)) + Prefixed(w.applied, w.preset.name)
  }

  /** `win_equipment()` as drawn from `k`: the slot, then the forged equipment. */
  ghost predicate EquipmentWon(tape: Tape, k: nat, content: Provider, level: int, w: EquipmentWin) {
    w.slot == Pick(tape, k, AllEquipment) && Forged(tape, k + 1, content, level, w)
  }

  /** The draws `win_equipment()` reads: the slot, six presets, then the stacking. */
  function EquipmentDraws(w: EquipmentWin, level: int): nat {
    7 + StackDraws(w.applied, level - w.preset.quality)
  }

  /** The draws decide the equipment won: slot, preset, modifiers and name. */
  lemma EquipmentWonUnique(tape: Tape, k: nat, content: Provider, level: int, w1: EquipmentWin, w2: EquipmentWin)
    requires EquipmentWon(tape, k, content, level, w1) && EquipmentWon(tape, k, content, level, w2)
    ensures w1 == w2
  {
    hide Stacked, NearestPreset, PlusLabel, Prefixed, QualitySum, Pick, Stuff, Pool;
    NearestPresetUnique(tape, k + 1, Stuff(content, w1.slot), level, w1.preset, w1.pick, w2.preset, w2.pick);
    var plus := level - w1.preset.quality;
    StackedUnique(tape, k + 7, w1.preset.name, plus, Pool(content, w1.slot, plus), w1.applied, w2.applied);
  }

  /** The equipment of `win_equipment()` for a drawn slot: the preset nearest
      the level, then its name with modifiers. The name ends with the preset's. */
  method ForgeEquipment(tape: Tape, k: nat, content: Provider, slot: EquipmentType, level: int)
    returns (w: EquipmentWin, next: nat)
    requires Content.Valid(content)
    ensures w.slot == slot && Forged(tape, k, content, level, w)
    ensures next == k + EquipmentDraws(w, level) - 1
    ensures EndsWith(w.name, w.preset.name)
  {
    hide Stacked, NearestPreset, PlusLabel, Prefixed, QualitySum, Pick, EndsWith, StackDraws;
    var stuff := Stuff(content, slot);
    var better := Better(content, slot);
    var worse := Worse(content, slot);
    var preset, pick := PickEquipment(tape, k, stuff, level);
    var plus := level - preset.quality;
    var pool := if plus < 0 then worse else better;
    var name, after, applied := NameEquipment(tape, k + 6, preset.name, plus, pool);
    NameEndsWithBase(plus - QualitySum(applied), applied, preset.name);
    w := EquipmentWin(slot, preset, pick, applied, name);
    next := after;
  }

  // ---------------------------------------------------------------------------
  // The player
  // ---------------------------------------------------------------------------

  /** The scenes of the prologue, in order. */
  function PrologueScene(i: nat): string {
    match i
    case 0 => "Experiencing an enigmatic and foreboding night vision"
    case 1 => "Much is revealed about that wise old bastard you'd underestimated"
    case 2 => "A shocking series of events leaves you alone and bewildered, but resolute"
    case _ => "Drawing upon an unrealized reserve of determination, you set out on a long and dangerous journey"
  }

  /** The story a new character starts with: four scenes, then the plot task
      that loads act 1. All of them are story tasks that take time. */
  function Prologue(content: Provider): (q: seq<Task>)
    ensures |q| == 5 && forall t :: t in q ==> Scripted(t)
  {
    hide PrologueScene;
    [ RegularTask(PrologueScene(0), 10000),
      RegularTask(PrologueScene(1), 6000),
      RegularTask(PrologueScene(2), 6000),
      RegularTask(PrologueScene(3), 4000),
      PlotTask("Loading " + content.lingo.actName(1), 2000) ]
  }

  class Player {
    const name: string
    const race: Race
    const charClass: CharClass
    const stats: Stats
    const expBar: Bar
    var level: int
    const questBook: QuestBook
    const inventory: Inventory
    const equipment: Equipment
    const spellBook: SpellBook
    const taskBar: Bar
    var task: Task
    var queue: seq<Task>
    const content: Provider
    const rng: Random

    /** The objects that make up the player. */
    ghost function Repr(): (r: set<object>)
      ensures this in r && rng in r
    {
      {this, stats, expBar, questBook, questBook.plotBar, questBook.questBar,
       inventory, inventory.encumBar, equipment, spellBook, taskBar, rng}
    }

    /** What every step keeps: the five bars are distinct objects, the level is
        positive, the experience bar is sized for the level, the stats are rolled, names are unique in the inventory and
        the spell book, the carrying capacity follows strength, the content is
        usable, the queue holds story tasks only, and every monster in play
        comes from the catalogue. */
    ghost predicate Consistent()
      reads this, stats, expBar, questBook, inventory, inventory.encumBar, spellBook
    {
      && expBar != taskBar && expBar != questBook.plotBar && expBar != questBook.questBar
      && expBar != inventory.encumBar && taskBar != questBook.plotBar && taskBar != questBook.questBar
      && taskBar != inventory.encumBar && questBook.plotBar != questBook.questBar
      && questBook.plotBar != inventory.encumBar && questBook.questBar != inventory.encumBar
      && 1 <= level
      && expBar.max == LevelUpTime(level)
      && 0 <= questBook.act
      && stats.Rolled()
      && inventory.Valid()
      && spellBook.Valid()
      && inventory.encumBar.max == 10 + stats.values[Strength]
      && Content.Valid(content)
      && (forall t :: t in queue ==> Scripted(t))
      && FromCatalogue(task, content)
      && (questBook.monster.Some? ==> questBook.monster.value in content.monsters)
    }

    /** Between steps, a sale in progress always has an item to sell. */
    ghost predicate Valid()
      reads this, stats, expBar, questBook, inventory, inventory.encumBar, spellBook
    {
      Consistent() && (task.SellTask? ==> |inventory.items| > 0)
    }

    /** A new character: level 1, the prologue queued, "Loading" under way. */
    constructor (name: string, race: Race, charClass: CharClass, stats: Stats, content: Provider, rng: Random)
      requires stats.Rolled()
      requires Content.Valid(content)
      ensures Valid()
      ensures this.stats == stats && this.content == content && this.rng == rng
      ensures level == 1 && expBar.max == LevelUpTime(1) && expBar.position == 0.0
      ensures questBook.quests == [] && questBook.act == 0 && questBook.monster == None
      ensures inventory.items == [] && inventory.gold == 0
      ensures inventory.encumBar.max == 10 + stats.values[Strength]
      ensures spellBook.spells == []
      ensures equipment.items == map[Weapon := "Sharp Rock", Hauberk := "-3 Burlap"]
      ensures task == RegularTask("Loading", 2000) && taskBar.max == 2000 && taskBar.position == 0.0
      ensures queue == Prologue(content)
    {
      hide Prologue, PrologueScene;
      this.name := name;
      this.race := race;
      this.charClass := charClass;
      this.stats := stats;
      this.content := content;
      this.rng := rng;
      expBar := new Bar(LevelUpTime(1));
      level := 1;
      questBook := new QuestBook();
      inventory := new Inventory(10 + stats.values[Strength]);
      equipment := new Equipment();
      spellBook := new SpellBook();
      taskBar := new Bar(0);
      task := RegularTask("Loading", 2000);
      queue := Prologue(content);
      new;
      SetTask(RegularTask("Loading", 2000));
    }

    /** `set_task(task)`: the task bar restarts, sized to the task's duration. */
    method SetTask(t: Task)
      requires Consistent()
      requires FromCatalogue(t, content)
      modifies this, taskBar
      ensures Consistent()
      ensures task == t && queue == old(queue) && level == old(level)
      ensures taskBar.max == t.duration && taskBar.position == 0.0
      ensures taskBar.Done() <==> t.duration <= 0
    {
      task := t;
      taskBar.Reset(t.duration, 0.0);
    }

    /** A draw below `n` from the character's random source, which leaves
        the character as it was. */
    method Roll(n: nat) returns (r: nat)
      requires Valid() && 0 < n
      modifies rng
      ensures Valid()
      ensures r == Draw(rng.tape, old(rng.drawn), n) && rng.drawn == old(rng.drawn) + 1
    {
      r := rng.Below(n);
    }

    /** `queue.append(task)`: a story task goes to the back of the queue. */
    method Append(t: Task)
      requires Valid() && Scripted(t)
      modifies this
      ensures Valid()
      ensures queue == old(queue) + [t] && task == old(task) && level == old(level)
    {
      queue := queue + [t];
    }

    /** `level_up()`: one level more; hit points grow by a third of condition plus
        one plus a draw below 4, mana likewise from intelligence; two stat points
        and a spell level are won; the experience bar restarts, longer, for the
        new level. The source restarts the bar last; no draw depends on it, so it
        is restarted here right after the level changes. */
    method LevelUp() returns (ghost hpGain: nat, ghost mpGain: nat, ghost spell: string)
      requires Valid()
      modifies this, stats, rng, inventory.encumBar, spellBook, expBar
      ensures Valid()
      ensures level == old(level) + 1
      ensures task == old(task) && queue == old(queue)
      ensures expBar.max == LevelUpTime(level) && expBar.max > old(expBar.max) && expBar.position == 0.0
      ensures hpGain == old(stats.values[Condition]) / 3 + 1 + Draw(rng.tape, old(rng.drawn), 4)
      ensures mpGain == old(stats.values[Intelligence]) / 3 + 1 + Draw(rng.tape, old(rng.drawn) + 1, 4)
      ensures stats.values[HpMax] >= old(stats.values[HpMax]) + hpGain
      ensures stats.values[MpMax] >= old(stats.values[MpMax]) + mpGain
      ensures StatTotal(stats.values) == old(StatTotal(stats.values)) + hpGain + mpGain + 2
      ensures spell in content.spells && spellBook.spells == Learned(old(spellBook.spells), spell, 1)
    {
      hide Draw;
      level := level + 1;
      expBar.Reset(LevelUpTime(level), 0.0);
      hpGain, mpGain := GrowStats();
      spell := WinSpell();
    }

    /** The stat part of `level_up()`: hit points and mana, then two stat points. */
    method GrowStats() returns (ghost hpGain: nat, ghost mpGain: nat)
      requires Valid()
      modifies stats, rng, inventory.encumBar
      ensures Valid()
      ensures hpGain == old(stats.values[Condition]) / 3 + 1 + Draw(rng.tape, old(rng.drawn), 4)
      ensures mpGain == old(stats.values[Intelligence]) / 3 + 1 + Draw(rng.tape, old(rng.drawn) + 1, 4)
      ensures stats.values[HpMax] >= old(stats.values[HpMax]) + hpGain
      ensures stats.values[MpMax] >= old(stats.values[MpMax]) + mpGain
      ensures StatTotal(stats.values) == old(StatTotal(stats.values)) + hpGain + mpGain + 2
      ensures rng.drawn == old(rng.drawn) + 6
    {
      hide Draw;
      var hp, mp := GainVitality();
      hpGain, mpGain := hp, mp;
      ghost var first := WinStat();
      ghost var second := WinStat();
    }

    /** The hit point and mana part of `level_up()`: two draws below 4, in that order. */
    method GainVitality() returns (hpGain: nat, mpGain: nat)
      requires Valid()
      modifies stats, rng
      ensures Valid()
      ensures hpGain == old(stats.values[Condition]) / 3 + 1 + Draw(rng.tape, old(rng.drawn), 4)
      ensures mpGain == old(stats.values[Intelligence]) / 3 + 1 + Draw(rng.tape, old(rng.drawn) + 1, 4)
      ensures stats.values == old(stats.values)[HpMax := old(stats.values[HpMax]) + hpGain]
                                               [MpMax := old(stats.values[MpMax]) + mpGain]
      ensures StatTotal(stats.values) == old(StatTotal(stats.values)) + hpGain + mpGain
      ensures rng.drawn == old(rng.drawn) + 2
    {
      hide Draw, StatTotal, SumSquares, InOrder;
      var hp := rng.Below(4);
      hpGain := stats.values[Condition] / 3 + 1 + hp;
      GrowStat(HpMax, hpGain);
      var mp := rng.Below(4);
      mpGain := stats.values[Intelligence] / 3 + 1 + mp;
      GrowStat(MpMax, mpGain);
    }

    /** `stats.increment(stat, qty)` for a gain that cannot be negative; strength
        is never raised this way, so the carrying capacity stays right. */
    method GrowStat(stat: StatType, qty: nat)
      requires Valid() && stat != Strength
      modifies stats
      ensures Valid()
      ensures stats.values == old(stats.values)[stat := old(stats.values)[stat] + qty]
      ensures StatTotal(stats.values) == old(StatTotal(stats.values)) + qty
    {
      StatTotalIncrement(stats.values, stat, qty);
      RolledIncrement(stats.values, stat, qty);
      stats.Increment(stat, qty);
    }

    /** `win_stat()`: on a coin draw, a stat picked uniformly; otherwise a draw
        below the sum of the squared values, walked down the stats in order, so
        that high stats tend to grow. The chosen stat goes up by one; when it is
        strength, the carrying capacity follows and the load shown is kept. */
    method WinStat() returns (ghost chosen: StatType)
      requires Valid()
      modifies stats, rng, inventory.encumBar
      ensures Valid()
      ensures stats.values == old(stats.values)[chosen := old(stats.values)[chosen] + 1]
      ensures inventory.encumBar.max == 10 + stats.values[Strength]
      ensures inventory.encumBar.position == old(inventory.encumBar.position)
      ensures StatDrawn(rng.tape, old(rng.drawn), old(InOrder(stats.values)), StatIndex(chosen))
      ensures StatTotal(stats.values) == old(StatTotal(stats.values)) + 1
      ensures rng.drawn == old(rng.drawn) + 2
    {
      hide StatDrawn, Draw, Chance, Pick;
      var i := DrawStat(rng, InOrder(stats.values));
      var stat := AllStats[i];
      assert StatIndex(stat) == i;
      chosen := stat;
      StatTotalIncrement(stats.values, stat, 1);
      RolledIncrement(stats.values, stat, 1);
      stats.Increment(stat, 1);
      if stat == Strength {
        inventory.SetCapacity(10 + stats.values[Strength]);
      }
    }

    /** `win_spell()`: one level of a spell drawn among the first
        `min(wisdom + level, number of spells)` of the spell list. */
    method WinSpell() returns (ghost spell: string)
      requires Valid()
      modifies spellBook, rng
      ensures Valid()
      ensures var bound := if stats.values[Wisdom] + level < |content.spells|
                           then stats.values[Wisdom] + level else |content.spells|;
              0 < bound <= |content.spells| && spell == content.spells[Draw(rng.tape, old(rng.drawn), bound)]
      ensures spellBook.spells == Learned(old(spellBook.spells), spell, 1)
      ensures rng.drawn == old(rng.drawn) + 1
    {
      hide Draw;
      var bound := if stats.values[Wisdom] + level < |content.spells|
                   then stats.values[Wisdom] + level else |content.spells|;
      var i := rng.Below(bound);
      var drawn := content.spells[i];
      spell := drawn;
      spellBook.Add(drawn, 1);
    }

    /** `win_equipment()`: a slot is drawn, then the preset nearest the level
        for it, then modifiers for the difference between level and quality;
        only that slot changes, to the name built. */
    method WinEquipment() returns (ghost won: EquipmentWin)
      requires Valid()
      modifies equipment, rng
      ensures Valid()
      ensures EquipmentWon(rng.tape, old(rng.drawn), content, level, won)
      ensures EndsWith(won.name, won.preset.name)
      ensures rng.drawn == old(rng.drawn) + EquipmentDraws(won, level)
      ensures equipment.items == old(equipment.items)[won.slot := won.name]
      ensures equipment.Get(won.slot) == Some(won.name)
      ensures forall s :: s != won.slot ==> equipment.Get(s) == old(equipment.Get(s))
    {
      hide Forged, Pick;
      var choice := rng.Choice(AllEquipment);
      var w, next := ForgeEquipment(rng.tape, rng.drawn, content, choice, level);
      won := w;
      rng.Advance(next);
      equipment.Put(choice, w.name);
    }

    /** `win_item()`: one special item, which always has "of" in its name. */
    method WinItem() returns (ghost item: string)
      requires Valid()
      modifies inventory, inventory.encumBar, rng
      ensures Valid()
      ensures item == SpecialItem(rng.tape, old(rng.drawn), content).0
      ensures Contains(item, " of ")
      ensures inventory.items == Stocked(old(inventory.items), item, 1)
      ensures Total(inventory.items) == old(Total(inventory.items)) + 1
      ensures inventory.gold == old(inventory.gold) && inventory.encumBar.max == old(inventory.encumBar.max)
      ensures inventory.encumBar.position == Clamp(Total(inventory.items) as real, inventory.encumBar.max)
      ensures rng.drawn == old(rng.drawn) + 3
    {
      var r := SpecialItem(rng.tape, rng.drawn, content);
      item := r.0;
      rng.Advance(r.1);
      inventory.Add(r.0, 1);
    }
  }
}
