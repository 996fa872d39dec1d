/** The containers a player owns: stats, quest book, inventory, equipment and
    spell book, plus the stats builder used at character creation. Each is a
    class whose methods update its fields in place; the change notifications
    the source emits are not modelled. */
module Containers {
  import opened Wrappers
  import opened Content
  import opened Bars
  import opened Dice

  // ---------------------------------------------------------------------------
  // Lookup by name, shared by the inventory and the spell book
  // ---------------------------------------------------------------------------

  /** The position of the first entry called `name`, or `|names|` when there is none
      (the `for ... break ... else` search of the source). */
  function IndexOf(names: seq<string>, name: string): (i: nat)
    ensures i <= |names|
    ensures i < |names| ==> names[i] == name
    ensures i == |names| <==> name !in names
    ensures forall j :: 0 <= j < i ==> names[j] != name
  {
    if names == [] then 0
    else if names[0] == name then 0
    else 1 + IndexOf(names[1..], name)
  }

  /** A linear search that stops at the first match finds `IndexOf`. */
  lemma FirstIndex(names: seq<string>, name: string, i: nat)
    requires i <= |names|
    requires i < |names| ==> names[i] == name
    requires forall j :: 0 <= j < i ==> names[j] != name
    ensures IndexOf(names, name) == i
  {
  }

  /** No name occurs twice. */
  predicate Unique(names: seq<string>) {
    forall i, j :: 0 <= i < j < |names| ==> names[i] != names[j]
  }

  /** Appending a name keeps the position of every name already present. */
  lemma {:induction false} IndexOfAppend(names: seq<string>, x: string, n: string)
    ensures IndexOf(names + [x], n) == if n in names then IndexOf(names, n) else if n == x then |names| else |names| + 1
  {
    if names != [] {
      assert (names + [x])[1..] == names[1..] + [x];
      if names[0] != n {
        IndexOfAppend(names[1..], x, n);
      }
    }
  }

  // ---------------------------------------------------------------------------
  // Stats
  // ---------------------------------------------------------------------------

  /** The stat values in declaration order. */
  function InOrder(values: map<StatType, int>): (vs: seq<int>)
    requires forall s: StatType :: s in values
    ensures |vs| == |AllStats|
    ensures forall i :: 0 <= i < |AllStats| ==> vs[i] == values[AllStats[i]]
  {
    seq(|AllStats|, i requires 0 <= i < |AllStats| => values[AllStats[i]])
  }

  /** The sum of the squares of the values, the weight total of `win_stat`. */
  function SumSquares(vs: seq<int>): int {
    if vs == [] then 0 else SumSquares(vs[..|vs| - 1]) + vs[|vs| - 1] * vs[|vs| - 1]
  }

  /** The sum of the values. */
  function Sum(vs: seq<int>): int {
    if vs == [] then 0 else Sum(vs[..|vs| - 1]) + vs[|vs| - 1]
  }

  /** A sum of squares is at least each of its squares. */
  lemma {:induction false} SumSquaresCovers(vs: seq<int>, i: nat)
    requires i < |vs|
    ensures SumSquares(vs) >= vs[i] * vs[i]
    ensures SumSquares(vs) >= 0
  {
    var n := |vs| - 1;
    assert SumSquares(vs) == SumSquares(vs[..n]) + vs[n] * vs[n];
    if i < n {
      SumSquaresCovers(vs[..n], i);
    } else if n > 0 {
      SumSquaresCovers(vs[..n], 0);
    }
  }

  /** Raising one value by `d` raises the sum by `d`. */
  lemma {:induction false} SumUpdate(vs: seq<int>, i: nat, d: int)
    requires i < |vs|
    ensures Sum(vs[i := vs[i] + d]) == Sum(vs) + d
  {
    var n := |vs| - 1;
    var ws := vs[i := vs[i] + d];
    if i < n {
      assert ws[..n] == vs[..n][i := vs[i] + d];
      SumUpdate(vs[..n], i, d);
    } else {
      assert ws[..n] == vs[..n];
    }
  }

  class Stats {
    var values: map<StatType, int>

    constructor (values: map<StatType, int>)
      ensures this.values == values
    {
      this.values := values;
    }

    /** Every stat kind has a value. */
    ghost predicate Valid()
      reads this
    {
      forall s: StatType :: s in values
    }

    /** What a roll produces: no value is negative and not all of them are zero,
        so that `win_stat` always has a positive weight total to draw from. */
    ghost predicate Rolled()
      reads this
    {
      && Valid()
      && (forall s: StatType :: values[s] >= 0)
      && 0 < SumSquares(InOrder(values))
    }

    /** `increment(stat, qty)`. */
    method Increment(stat: StatType, qty: int)
      requires stat in values
      modifies this
      ensures values == old(values)[stat := old(values)[stat] + qty]
    {
      values := values[stat := values[stat] + qty];
    }
  }

  /** The place of a stat kind in declaration order. */
  function StatIndex(stat: StatType): (i: nat)
    ensures i < |AllStats| && AllStats[i] == stat
  {
    match stat
    case Strength => 0
    case Condition => 1
    case Dexterity => 2
    case Intelligence => 3
    case Wisdom => 4
    case Charisma => 5
    case HpMax => 6
    case MpMax => 7
  }

  /** The sum of all stat values. */
  function StatTotal(values: map<StatType, int>): int
    requires forall s: StatType :: s in values
  {
    Sum(InOrder(values))
  }

  /** Incrementing one stat by `qty` raises the total by `qty`. */
  lemma StatTotalIncrement(values: map<StatType, int>, stat: StatType, qty: int)
    requires forall s: StatType :: s in values
    ensures StatTotal(values[stat := values[stat] + qty]) == StatTotal(values) + qty
  {
    var vs := InOrder(values);
    var i := StatIndex(stat);
    assert InOrder(values[stat := values[stat] + qty]) == vs[i := vs[i] + qty];
    SumUpdate(vs, i, qty);
  }

  /** Incrementing a stat of a rolled stat set by a non-negative amount keeps it rolled. */
  lemma RolledIncrement(values: map<StatType, int>, stat: StatType, qty: nat)
    requires forall s: StatType :: s in values
    requires forall s: StatType :: values[s] >= 0
    requires 0 < SumSquares(InOrder(values))
    ensures 0 < SumSquares(InOrder(values[stat := values[stat] + qty]))
  {
    var vs := InOrder(values);
    var ws := InOrder(values[stat := values[stat] + qty]);
    var i :| 0 <= i < |vs| && vs[i] != 0 by {
      if forall i :: 0 <= i < |vs| ==> vs[i] == 0 {
        ZeroSquares(vs);
      }
    }
    assert ws[i] >= vs[i] > 0;
    SumSquaresCovers(ws, i);
  }

  /** One positive stat is enough for a positive weight total. */
  lemma PositiveWeight(values: map<StatType, int>, stat: StatType)
    requires forall s: StatType :: s in values
    requires values[stat] != 0
    ensures 0 < SumSquares(InOrder(values))
  {
    var i := StatIndex(stat);
    SumSquaresCovers(InOrder(values), i);
  }

  lemma {:induction false} ZeroSquares(vs: seq<int>)
    requires forall i :: 0 <= i < |vs| ==> vs[i] == 0
    ensures SumSquares(vs) == 0
  {
    if vs != [] {
      ZeroSquares(vs[..|vs| - 1]);
    }
  }

  /** Three six-sided dice: 3 plus three draws below 6. */
  function ThreeDice(tape: Tape, k: nat): (r: int)
    ensures 3 <= r <= 18
  {
    3 + Draw(tape, k, 6) + Draw(tape, k + 1, 6) + Draw(tape, k + 2, 6)
  }

  method RollThreeDice(rng: Random) returns (r: int)
    modifies rng
    ensures r == ThreeDice(rng.tape, old(rng.drawn))
    ensures rng.drawn == old(rng.drawn) + 3
  {
    var a := rng.Below(6);
    var b := rng.Below(6);
    var c := rng.Below(6);
    r := 3 + a + b + c;
  }

  /** What `roll()` produces from the draws at `k` onwards: each prime stat, in
      declaration order, is 3 plus three draws below 6; the maxima of hit points
      and mana are a draw below 8 plus a sixth of condition and of intelligence. */
  function RolledValues(tape: Tape, k: nat): map<StatType, int> {
    map[Strength := ThreeDice(tape, k), Condition := ThreeDice(tape, k + 3),
        Dexterity := ThreeDice(tape, k + 6), Intelligence := ThreeDice(tape, k + 9),
        Wisdom := ThreeDice(tape, k + 12), Charisma := ThreeDice(tape, k + 15),
        HpMax := Draw(tape, k + 18, 8) + ThreeDice(tape, k + 3) / 6,
        MpMax := Draw(tape, k + 19, 8) + ThreeDice(tape, k + 9) / 6]
  }

  /** Every roll has a value for each stat, none negative, and a positive total
      of squares, so `win_stat` can always draw from it. */
  lemma RolledValuesUsable(tape: Tape, k: nat)
    ensures var values := RolledValues(tape, k);
            (forall s: StatType :: s in values && values[s] >= 0) && 0 < SumSquares(InOrder(values))
  {
    hide Draw, ThreeDice;
    var values := RolledValues(tape, k);
    forall s: StatType ensures s in values && values[s] >= 0 {
      var i := StatIndex(s);
    }
    PositiveWeight(values, Strength);
  }

  /** Creates rolled stat sets and keeps their history, so that a roll can be undone. */
  class StatsBuilder {
    var history: seq<Stats>

    constructor ()
      ensures history == []
    {
      history := [];
    }

    /** `roll()`: the stats of `RolledValues` at the current draw, recorded in
        the history. */
    method Roll(rng: Random) returns (stats: Stats)
      modifies this, rng
      ensures fresh(stats) && stats.Rolled()
      ensures stats.values == RolledValues(rng.tape, old(rng.drawn))
      ensures rng.drawn == old(rng.drawn) + 20
      ensures history == old(history) + [stats]
    {
      hide Draw, ThreeDice;
      ghost var k := rng.drawn;
      var strength := RollThreeDice(rng);
      var condition := RollThreeDice(rng);
      var dexterity := RollThreeDice(rng);
      var intelligence := RollThreeDice(rng);
      var wisdom := RollThreeDice(rng);
      var charisma := RollThreeDice(rng);
      var h := rng.Below(8);
      var m := rng.Below(8);
      var values := map[
        Strength := strength, Condition := condition, Dexterity := dexterity,
        Intelligence := intelligence, Wisdom := wisdom, Charisma := charisma,
        HpMax := h + condition / 6, MpMax := m + intelligence / 6];
      assert values == RolledValues(rng.tape, k);
      RolledValuesUsable(rng.tape, k);
      stats := new Stats(values);
      history := history + [stats];
    }

    /** `unroll()`: drops the latest roll and returns the one before it. On an empty
        history the source fails before changing anything; with a single roll it
        drops that roll and then fails. Both failures give `None` here. */
    method Unroll() returns (stats: Option<Stats>)
      modifies this
      ensures old(history) == [] ==> history == [] && stats == None
      ensures old(history) != [] ==> history == old(history)[..|old(history)| - 1]
      ensures stats.Some? <==> |old(history)| >= 2
      ensures stats.Some? ==> stats.value == history[|history| - 1]
    {
      if history == [] {
        return None;
      }
      history := history[..|history| - 1];
      if history == [] {
        return None;
      }
      stats := Some(history[|history| - 1]);
    }
  }

  // ---------------------------------------------------------------------------
  // Quest book
  // ---------------------------------------------------------------------------

  /** Python's `s[-n:]` for a positive `n`: the last `n` entries, or all of them
      when there are fewer (`s[-0:]` would be all of `s`, hence the bound). */
  function KeepLast<T>(s: seq<T>, n: nat): (r: seq<T>)
    requires 0 < n
    ensures |r| == if |s| <= n then |s| else n
    ensures r == s[|s| - |r|..]
  {
    if |s| <= n then s else s[|s| - n..]
  }

  /** The log after `add_quest`: never longer than 101, ends with the new quest,
      and what precedes it is the last 100 quests (all of them if fewer). */
  lemma QuestLogShape(quests: seq<string>, name: string)
    ensures var r := KeepLast(quests, 100) + [name];
      && |r| <= 101
      && r[|r| - 1] == name
      && r[..|r| - 1] == quests[|quests| - (|r| - 1)..]
      && (|quests| <= 100 ==> r == quests + [name])
  {
    var r := KeepLast(quests, 100) + [name];
    assert r[..|r| - 1] == KeepLast(quests, 100);
  }

  class QuestBook {
    var quests: seq<string>
    var act: int
    const plotBar: Bar
    const questBar: Bar
    var monster: Option<Monster>

    constructor ()
      ensures quests == [] && act == 0 && monster == None
      ensures fresh(plotBar) && fresh(questBar) && plotBar != questBar
      ensures plotBar.max == 26 && plotBar.position == 0.0
      ensures questBar.max == 1 && questBar.position == 0.0
    {
      quests := [];
      act := 0;
      plotBar := new Bar(26);
      questBar := new Bar(1);
      monster := None;
    }

    /** `current_quest`: the latest quest, if any. */
    function CurrentQuest(): (q: Option<string>)
      reads this
      ensures q.Some? <==> quests != []
      ensures q.Some? ==> q.value == quests[|quests| - 1]
    {
      if quests != [] then Some(quests[|quests| - 1]) else None
    }

    /** `add_quest(name)`: trims the log to its last 100 entries, then appends. */
    method AddQuest(name: string)
      modifies this
      ensures quests == KeepLast(old(quests), 100) + [name]
      ensures CurrentQuest() == Some(name)
      ensures |quests| <= 101
      ensures act == old(act) && monster == old(monster)
    {
      quests := KeepLast(quests, 100);
      quests := quests + [name];
    }
  }

  // ---------------------------------------------------------------------------
  // Inventory
  // ---------------------------------------------------------------------------

  datatype InventoryItem = InventoryItem(name: string, quantity: int)

  function ItemNames(items: seq<InventoryItem>): (names: seq<string>)
    ensures |names| == |items|
    ensures forall i :: 0 <= i < |items| ==> names[i] == items[i].name
  {
    seq(|items|, i requires 0 <= i < |items| => items[i].name)
  }

  /** The sum of the quantities: what the encumbrance bar mirrors. */
  function Total(items: seq<InventoryItem>): int {
    if items == [] then 0 else Total(items[..|items| - 1]) + items[|items| - 1].quantity
  }

  /** How many units of `name` the inventory holds (the first entry of that name). */
  function QuantityOf(items: seq<InventoryItem>, name: string): int {
    var i := IndexOf(ItemNames(items), name);
    if i < |items| then items[i].quantity else 0
  }

  /** The items after `add(name, qty)`: merged into the first entry of that name,
      or appended as a new entry. */
  function Stocked(items: seq<InventoryItem>, name: string, qty: int): seq<InventoryItem> {
    var i := IndexOf(ItemNames(items), name);
    if i < |items| then items[i := InventoryItem(name, items[i].quantity + qty)]
    else items + [InventoryItem(name, qty)]
  }

  /** The items after `pop(index)` with a non-negative index. */
  function Removed(items: seq<InventoryItem>, index: nat): seq<InventoryItem>
    requires index < |items|
  {
    items[..index] + items[index + 1..]
  }

  /** Raising the quantity of one entry by `d` raises the total by `d`. */
  lemma {:induction false} TotalUpdate(items: seq<InventoryItem>, i: nat, d: int)
    requires i < |items|
    ensures Total(items[i := InventoryItem(items[i].name, items[i].quantity + d)]) == Total(items) + d
  {
    var n := |items| - 1;
    var updated := items[i := InventoryItem(items[i].name, items[i].quantity + d)];
    if i < n {
      assert updated[..n] == items[..n][i := InventoryItem(items[i].name, items[i].quantity + d)];
      TotalUpdate(items[..n], i, d);
    } else {
      assert updated[..n] == items[..n];
    }
  }

  /** Removing an entry lowers the total by its quantity. */
  lemma {:induction false} TotalRemove(items: seq<InventoryItem>, j: nat)
    requires j < |items|
    ensures Total(Removed(items, j)) == Total(items) - items[j].quantity
  {
    var n := |items| - 1;
    var r := Removed(items, j);
    if j == n {
      assert r == items[..n];
    } else {
      assert r[..|r| - 1] == Removed(items[..n], j);
      assert r[|r| - 1] == items[n];
      TotalRemove(items[..n], j);
    }
  }

  /** `add` keeps the order of the names and appends `name` when it is new. */
  lemma StockedNames(items: seq<InventoryItem>, name: string, qty: int)
    ensures ItemNames(Stocked(items, name, qty)) ==
              if name in ItemNames(items) then ItemNames(items) else ItemNames(items) + [name]
  {
    var names := ItemNames(items);
    var r := Stocked(items, name, qty);
    if IndexOf(names, name) < |items| {
      assert ItemNames(r) == names;
    } else {
      assert ItemNames(r) == names + [name];
    }
  }

  /** `add` raises the total by `qty`. */
  lemma StockedTotal(items: seq<InventoryItem>, name: string, qty: int)
    ensures Total(Stocked(items, name, qty)) == Total(items) + qty
  {
    var i := IndexOf(ItemNames(items), name);
    var r := Stocked(items, name, qty);
    if i < |items| {
      assert items[i].name == name;
      assert r == items[i := InventoryItem(items[i].name, items[i].quantity + qty)];
      TotalUpdate(items, i, qty);
    } else {
      assert r == items + [InventoryItem(name, qty)];
      assert r[..|r| - 1] == items;
    }
  }

  /** `add` keeps names unique. */
  lemma StockedUnique(items: seq<InventoryItem>, name: string, qty: int)
    requires Unique(ItemNames(items))
    ensures Unique(ItemNames(Stocked(items, name, qty)))
  {
    StockedNames(items, name, qty);
  }

  /** `add` changes exactly one quantity, the one of `name`, by `qty`. */
  lemma StockedQuantity(items: seq<InventoryItem>, name: string, qty: int, other: string)
    ensures QuantityOf(Stocked(items, name, qty), name) == QuantityOf(items, name) + qty
    ensures other != name ==> QuantityOf(Stocked(items, name, qty), other) == QuantityOf(items, other)
  {
    var names := ItemNames(items);
    StockedNames(items, name, qty);
    if IndexOf(names, name) == |items| {
      IndexOfAppend(names, name, name);
      IndexOfAppend(names, name, other);
    }
  }

  /** `pop` lowers the total by the removed quantity and keeps names unique. */
  lemma RemovedShape(items: seq<InventoryItem>, j: nat)
    requires j < |items|
    ensures Total(Removed(items, j)) == Total(items) - items[j].quantity
    ensures ItemNames(Removed(items, j)) == ItemNames(items)[..j] + ItemNames(items)[j + 1..]
    ensures Unique(ItemNames(items)) ==> Unique(ItemNames(Removed(items, j)))
  {
    TotalRemove(items, j);
    RemovedItemNames(items, j);
  }

  lemma RemovedItemNames(items: seq<InventoryItem>, j: nat)
    requires j < |items|
    ensures ItemNames(Removed(items, j)) == ItemNames(items)[..j] + ItemNames(items)[j + 1..]
    ensures Unique(ItemNames(items)) ==> Unique(ItemNames(Removed(items, j)))
  {
    var r := Removed(items, j);
    assert forall k :: 0 <= k < j ==> r[k] == items[k];
    assert forall k :: j <= k < |r| ==> r[k] == items[k + 1];
    RemovedNames(ItemNames(items), ItemNames(r), j);
  }

  /** Names of what is left after removing entry `j`. */
  lemma RemovedNames(names: seq<string>, rest: seq<string>, j: nat)
    requires j < |names| && |rest| == |names| - 1
    requires forall k :: 0 <= k < j ==> rest[k] == names[k]
    requires forall k :: j <= k < |rest| ==> rest[k] == names[k + 1]
    ensures rest == names[..j] + names[j + 1..]
    ensures Unique(names) ==> Unique(rest)
  {
    if Unique(names) {
      forall a, b | 0 <= a < b < |rest| ensures rest[a] != rest[b] {
        var a' := if a < j then a else a + 1;
        var b' := if b < j then b else b + 1;
        assert names[a'] != names[b'];
      }
    }
  }

  class Inventory {
    var gold: int
    var items: seq<InventoryItem>
    const encumBar: Bar

    constructor (capacity: int)
      ensures Valid()
      ensures gold == 0 && items == []
      ensures fresh(encumBar) && encumBar.max == capacity && encumBar.position == 0.0
    {
      gold := 0;
      items := [];
      encumBar := new Bar(capacity);
    }

    /** Items are keyed by name, and the encumbrance bar never shows more than the
        load: it is synced to the clamped total and a new capacity keeps the position. */
    ghost predicate Valid()
      reads this, encumBar
    {
      && Unique(ItemNames(items))
      && encumBar.position <= Total(items) as real
    }

    /** How many more units fit before the encumbrance bar is full. */
    function Headroom(): nat
      reads this, encumBar
    {
      var total := Total(items);
      if total < encumBar.max then encumBar.max - total else 0
    }

    /** `add_gold(qty)`: no floor, the balance may go negative. */
    method AddGold(qty: int)
      requires Valid()
      modifies this
      ensures Valid()
      ensures gold == old(gold) + qty && items == old(items)
    {
      gold := gold + qty;
    }

    /** `sync_encumbrance()`. */
    method SyncEncumbrance()
      modifies encumBar
      ensures encumBar.max == old(encumBar.max)
      ensures encumBar.position == Clamp(Total(items) as real, encumBar.max)
    {
      encumBar.Reposition(Total(items) as real);
    }

    /** `add(name, qty)`: merge into an entry of that name, or append a new one. */
    method Add(itemName: string, quantity: int)
      requires Valid()
      modifies this, encumBar
      ensures Valid()
      ensures items == Stocked(old(items), itemName, quantity)
      ensures Total(items) == old(Total(items)) + quantity
      ensures gold == old(gold) && encumBar.max == old(encumBar.max)
      ensures encumBar.position == Clamp(Total(items) as real, encumBar.max)
    {
      var i := 0;
      while i < |items| && items[i].name != itemName
        invariant 0 <= i <= |items|
        invariant forall j :: 0 <= j < i ==> items[j].name != itemName
      {
        i := i + 1;
      }
      FirstIndex(ItemNames(items), itemName, i);
      StockedTotal(items, itemName, quantity);
      StockedUnique(items, itemName, quantity);
      ghost var stocked := Stocked(items, itemName, quantity);
      if i < |items| {
        items := items[i := InventoryItem(itemName, items[i].quantity + quantity)];
      } else {
        items := items + [InventoryItem(itemName, quantity)];
      }
      assert items == stocked;
      SyncEncumbrance();
    }

    /** `pop(index)`: Python indexing, so a negative index counts from the end. */
    method Pop(index: int)
      requires Valid()
      requires -|items| <= index < |items|
      modifies this, encumBar
      ensures Valid()
      ensures items == Removed(old(items), if index < 0 then index + |old(items)| else index)
      ensures Total(items) == old(Total(items)) - old(items)[if index < 0 then index + |old(items)| else index].quantity
      ensures gold == old(gold) && encumBar.max == old(encumBar.max)
      ensures encumBar.position == Clamp(Total(items) as real, encumBar.max)
    {
      var j := if index < 0 then index + |items| else index;
      RemovedShape(items, j);
      items := items[..j] + items[j + 1..];
      SyncEncumbrance();
    }

    /** `set_capacity(capacity)`: a new maximum, the position kept as it is. */
    method SetCapacity(capacity: int)
      requires Valid()
      modifies encumBar
      ensures Valid()
      ensures encumBar.max == capacity && encumBar.position == old(encumBar.position)
    {
      encumBar.Reset(capacity, encumBar.position);
    }
  }

  // ---------------------------------------------------------------------------
  // Equipment
  // ---------------------------------------------------------------------------

  class Equipment {
    var items: map<EquipmentType, string>

    /** Only the weapon and the hauberk start filled. */
    constructor ()
      ensures items == map[Weapon := "Sharp Rock", Hauberk := "-3 Burlap"]
    {
      items := map[Weapon := "Sharp Rock", Hauberk := "-3 Burlap"];
    }

    /** `equipment[slot]`: nothing for a slot never filled. */
    function Get(slot: EquipmentType): (name: Option<string>)
      reads this
      ensures name.Some? <==> slot in items
      ensures name.Some? ==> name.value == items[slot]
    {
      if slot in items then Some(items[slot]) else None
    }

    /** `put(slot, name)`: only that slot changes. */
    method Put(slot: EquipmentType, itemName: string)
      modifies this
      ensures items == old(items)[slot := itemName]
      ensures Get(slot) == Some(itemName)
      ensures forall s :: s != slot ==> Get(s) == old(Get(s))
    {
      items := items[slot := itemName];
    }
  }

  // ---------------------------------------------------------------------------
  // Spell book
  // ---------------------------------------------------------------------------

  datatype Spell = Spell(name: string, level: int)

  function SpellNames(spells: seq<Spell>): (names: seq<string>)
    ensures |names| == |spells|
    ensures forall i :: 0 <= i < |spells| ==> names[i] == spells[i].name
  {
    seq(|spells|, i requires 0 <= i < |spells| => spells[i].name)
  }

  /** The level of `name` in the book, 0 when it is not there. */
  function LevelOf(spells: seq<Spell>, name: string): int {
    var i := IndexOf(SpellNames(spells), name);
    if i < |spells| then spells[i].level else 0
  }

  /** The spells after `add(name, level)`. */
  function Learned(spells: seq<Spell>, name: string, level: int): seq<Spell> {
    var i := IndexOf(SpellNames(spells), name);
    if i < |spells| then spells[i := Spell(name, spells[i].level + level)]
    else spells + [Spell(name, level)]
  }

  /** `add` keeps the order of the names and appends `name` when it is new. */
  lemma LearnedNames(spells: seq<Spell>, name: string, level: int)
    ensures SpellNames(Learned(spells, name, level)) ==
              if name in SpellNames(spells) then SpellNames(spells) else SpellNames(spells) + [name]
  {
    var names := SpellNames(spells);
    var r := Learned(spells, name, level);
    if IndexOf(names, name) < |spells| {
      assert SpellNames(r) == names;
    } else {
      assert SpellNames(r) == names + [name];
    }
  }

  /** `add` keeps names unique. */
  lemma LearnedUnique(spells: seq<Spell>, name: string, level: int)
    requires Unique(SpellNames(spells))
    ensures Unique(SpellNames(Learned(spells, name, level)))
  {
    LearnedNames(spells, name, level);
  }

  /** `add` raises the level of `name` by `level` and no other. */
  lemma LearnedLevel(spells: seq<Spell>, name: string, level: int, other: string)
    ensures LevelOf(Learned(spells, name, level), name) == LevelOf(spells, name) + level
    ensures other != name ==> LevelOf(Learned(spells, name, level), other) == LevelOf(spells, other)
  {
    var names := SpellNames(spells);
    LearnedNames(spells, name, level);
    if IndexOf(names, name) == |spells| {
      IndexOfAppend(names, name, name);
      IndexOfAppend(names, name, other);
    }
  }

  class SpellBook {
    var spells: seq<Spell>

    constructor ()
      ensures spells == []
    {
      spells := [];
    }

    /** Spells are keyed by name. */
    ghost predicate Valid()
      reads this
    {
      Unique(SpellNames(spells))
    }

    /** `add(name, level)`: raise the level of a known spell, or append a new one. */
    method Add(spellName: string, level: int)
      requires Valid()
      modifies this
      ensures Valid()
      ensures spells == Learned(old(spells), spellName, level)
    {
      var i := 0;
      while i < |spells| && spells[i].name != spellName
        invariant 0 <= i <= |spells|
        invariant forall j :: 0 <= j < i ==> spells[j].name != spellName
      {
        i := i + 1;
      }
      FirstIndex(SpellNames(spells), spellName, i);
      LearnedUnique(spells, spellName, level);
      ghost var learned := Learned(spells, spellName, level);
      if i < |spells| {
        spells := spells[i := Spell(spellName, spells[i].level + level)];
      } else {
        spells := spells + [Spell(spellName, level)];
      }
      assert spells == learned;
    }
  }
}
