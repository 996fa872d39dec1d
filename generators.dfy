/** The random generators of the engine: picking equipment and monsters near a
    level, naming monsters, people and items, and composing a kill task.
    Each takes the tape and the position of its first draw, and gives back
    (or states) how far it read, so that the caller can move the cursor on. */
module Generators {
  import opened Wrappers
  import opened Content
  import opened Dice
  import opened Text
  import opened Tasks

  /** `abs(goal - x)`. */
  function Distance(goal: int, x: int): nat {
    if goal >= x then goal - x else x - goal
  }

  /** The `n + 1` table entries drawn one after another from position `k`. */
  function Candidates<T>(tape: Tape, k: nat, xs: seq<T>, n: nat): (cs: seq<T>)
    requires 0 < |xs|
    ensures |cs| == n + 1
    ensures forall j :: 0 <= j <= n ==> cs[j] == Pick(tape, k + j, xs)
  {
    seq(n + 1, j requires 0 <= j <= n => Pick(tape, k + j, xs))
  }

  /** Nearest of `n + 1` random draws: a first draw, then `n` alternatives, each
      kept only when strictly closer to `goal`. The result is the closest of the
      candidates, and the first of them when several are equally close. */
  method NearestOfN<T>(tape: Tape, k: nat, xs: seq<T>, n: nat, goal: int, key: T -> int)
    returns (r: T, i: nat)
    requires 0 < |xs|
    ensures i <= n && r == Candidates(tape, k, xs, n)[i]
    ensures forall j :: 0 <= j <= n ==>
              Distance(goal, key(r)) <= Distance(goal, key(Candidates(tape, k, xs, n)[j]))
    ensures forall j :: 0 <= j < i ==>
              Distance(goal, key(r)) < Distance(goal, key(Candidates(tape, k, xs, n)[j]))
  {
    ghost var cs := Candidates(tape, k, xs, n);
    r := Pick(tape, k, xs);
    i := 0;
    var j := 1;
    while j <= n
      invariant 1 <= j <= n + 1 && i < j
      invariant r == cs[i]
      invariant forall m :: 0 <= m < j ==> Distance(goal, key(r)) <= Distance(goal, key(cs[m]))
      invariant forall m :: 0 <= m < i ==> Distance(goal, key(r)) < Distance(goal, key(cs[m]))
    {
      var alternative := Pick(tape, k + j, xs);
      if Distance(goal, key(alternative)) < Distance(goal, key(r)) {
        r, i := alternative, j;
      }
      j := j + 1;
    }
  }

  /** `r` is candidate `i` of the `n + 1` monsters drawn from `k`: no farther
      from `level` than any candidate, and strictly nearer than every earlier one. */
  ghost predicate NearestMonster(tape: Tape, k: nat, monsters: seq<Monster>, n: nat, level: int, r: Monster, i: nat) {
    && 0 < |monsters| && i <= n
    && r == Candidates(tape, k, monsters, n)[i]
    && (forall j :: 0 <= j <= n ==> Distance(level, r.level) <= Distance(level, Candidates(tape, k, monsters, n)[j].level))
    && (forall j :: 0 <= j < i ==> Distance(level, r.level) < Distance(level, Candidates(tape, k, monsters, n)[j].level))
  }

  /** `r` is candidate `i` of the six presets drawn from `k`, the first of those
      whose quality is nearest `goal`. */
  ghost predicate NearestPreset(tape: Tape, k: nat, source: seq<EquipmentPreset>, goal: int, r: EquipmentPreset, i: nat) {
    && 0 < |source| && i <= 5
    && r == Candidates(tape, k, source, 5)[i]
    && (forall j :: 0 <= j <= 5 ==> Distance(goal, r.quality) <= Distance(goal, Candidates(tape, k, source, 5)[j].quality))
    && (forall j :: 0 <= j < i ==> Distance(goal, r.quality) < Distance(goal, Candidates(tape, k, source, 5)[j].quality))
  }

  /** The draws decide the nearest monster: two monsters that both meet
      `NearestMonster` for the same draws are the same candidate. */
  lemma NearestMonsterUnique(tape: Tape, k: nat, monsters: seq<Monster>, n: nat, level: int,
                             r1: Monster, i1: nat, r2: Monster, i2: nat)
    requires NearestMonster(tape, k, monsters, n, level, r1, i1)
    requires NearestMonster(tape, k, monsters, n, level, r2, i2)
    ensures i1 == i2 && r1 == r2
  {
  }

  /** The draws decide the nearest preset. */
  lemma NearestPresetUnique(tape: Tape, k: nat, source: seq<EquipmentPreset>, goal: int,
                            r1: EquipmentPreset, i1: nat, r2: EquipmentPreset, i2: nat)
    requires NearestPreset(tape, k, source, goal, r1, i1)
    requires NearestPreset(tape, k, source, goal, r2, i2)
    ensures i1 == i2 && r1 == r2
  {
  }

  /** `pick_equipment(source, goal)`: the preset of quality nearest `goal` among six
      draws (so it reads six positions of the tape). */
  method PickEquipment(tape: Tape, k: nat, source: seq<EquipmentPreset>, goal: int)
    returns (r: EquipmentPreset, i: nat)
    requires 0 < |source|
    ensures r in source
    ensures NearestPreset(tape, k, source, goal, r, i)
  {
    r, i := NearestOfN(tape, k, source, 5, goal, (e: EquipmentPreset) => e.quality);
  }

  /** `unnamed_monster(level, iterations)`: the monster of level nearest `level`
      among `iterations + 1` draws. */
  method UnnamedMonster(tape: Tape, k: nat, monsters: seq<Monster>, level: int, iterations: nat)
    returns (r: Monster, i: nat)
    requires 0 < |monsters|
    ensures r in monsters
    ensures NearestMonster(tape, k, monsters, iterations, level, r, i)
  {
    r, i := NearestOfN(tape, k, monsters, iterations, level, (m: Monster) => m.level);
  }

  /** `named_monster(level)`: a generated name, then "the" and the monster
      nearest `level` out of five draws; the name is made after the monster is
      drawn, from the sixth draw. */
  method NamedMonster(tape: Tape, k: nat, content: Provider, level: int)
    returns (name: string, monster: Monster, ghost i: nat)
    requires 0 < |content.monsters|
    ensures monster in content.monsters
    ensures NearestMonster(tape, k, content.monsters, 4, level, monster, i)
    ensures name == content.lingo.generateName(tape(k + 5)) + " the " + monster.name
  {
    monster, i := UnnamedMonster(tape, k, content.monsters, level, 4);
    name := content.lingo.generateName(tape(k + 5)) + " the " + monster.name;
  }

  /** Any name of the form `a of b` passes the "of" test of the market. */
  lemma OfInName(a: string, b: string)
    ensures Contains(a + " of " + b, " of ")
  {
    ContainsPrefix(" of ", b);
    assert a + " of " + b == a + (" of " + b);
    ContainsUnderPrefix(a, " of " + b, " of ");
  }

  /** `boring_item()`: one draw from the boring items. */
  function BoringItem(tape: Tape, k: nat, content: Provider): (r: (string, nat))
    requires 0 < |content.boringItems|
    ensures r.0 in content.boringItems && r.1 == k + 1
  {
    (Pick(tape, k, content.boringItems), k + 1)
  }

  /** `interesting_item()`: an attribute and a special thing, two draws. */
  function InterestingItem(tape: Tape, k: nat, content: Provider): (r: (string, nat))
    requires 0 < |content.itemAttrib| && 0 < |content.specials|
    ensures r.1 == k + 2
    ensures exists attrib, special ::
              attrib in content.itemAttrib && special in content.specials && r.0 == attrib + " " + special
  {
    var attrib := Pick(tape, k, content.itemAttrib);
    var special := Pick(tape, k + 1, content.specials);
    (attrib + " " + special, k + 2)
  }

  /** `special_item()`: an interesting item "of" something, three draws; it always
      fetches the higher price at the market. */
  function SpecialItem(tape: Tape, k: nat, content: Provider): (r: (string, nat))
    requires 0 < |content.itemAttrib| && 0 < |content.specials| && 0 < |content.itemOfs|
    ensures r.1 == k + 3
    ensures Contains(r.0, " of ")
  {
    var item := InterestingItem(tape, k, content).0;
    var of := Pick(tape, k + 2, content.itemOfs);
    OfInName(item, of);
    (item + " of " + of, k + 3)
  }

  /** `impressive_guy()`: a title, then either "of the" and a race or "of" and a
      generated name, on a coin draw; three draws in all. */
  function ImpressiveGuy(tape: Tape, k: nat, content: Provider): (r: (string, nat))
    requires 0 < |content.impressiveTitles| && 0 < |content.races|
    ensures r.1 == k + 3
    ensures Contains(r.0, " of ")
    ensures exists title :: title in content.impressiveTitles && |title| <= |r.0| && r.0[..|title|] == title
  {
    var title := Pick(tape, k, content.impressiveTitles);
    var rest :=
      if Draw(tape, k + 1, 2) != 0 then "the " + Pick(tape, k + 2, content.races).name
      else content.lingo.generateName(tape(k + 2));
    var guy := title + " of " + rest;
    OfInName(title, rest);
    assert guy[..|title|] == title;
    (guy, k + 3)
  }

  /** The level random walk of `monster_task`: one step per level of the player,
      each a 2-in-5 chance to move one level up or down. */
  function Walk(tape: Tape, k: nat, level: int, steps: nat): (r: (int, nat))
    ensures level - steps <= r.0 <= level + steps
    ensures k + steps <= r.1 <= k + 2 * steps
    decreases steps
  {
    if steps == 0 then (level, k)
    else if Chance(tape, k, 2, 5) then Walk(tape, k + 2, level + Draw(tape, k + 1, 2) * 2 - 1, steps - 1)
    else Walk(tape, k + 1, level, steps - 1)
  }

  /** Multiplying by a natural number keeps the order. */
  lemma {:induction false} MulMonotone(x: int, y: int, b: nat)
    requires x <= y
    ensures x * b <= y * b
    decreases b
  {
    if b > 0 {
      MulMonotone(x, y, b - 1);
      assert x * b == x * (b - 1) + x;
      assert y * b == y * (b - 1) + y;
    }
  }

  /** Euclidean division by a positive divisor, bounded from both sides. */
  lemma DivBetween(a: int, b: int, lo: int, hi: int)
    requires 0 < b && lo * b <= a < (hi + 1) * b
    ensures lo <= a / b <= hi
  {
    var q := a / b;
    assert q * b + a % b == a;
    if q > hi {
      MulMonotone(hi + 1, q, b);
    }
    if q < lo {
      MulMonotone(q + 1, lo, b);
    }
  }

  /** A pack is never larger than the level it is drawn for: with `0 <= r < m`,
      `(level + r) // m` is at most `level`. */
  lemma PackSize(level: int, m: int, r: int)
    requires 1 <= level && 1 <= m && 0 <= r < m
    ensures (level + r) / m <= level
  {
    MulMonotone(1, m, level);
    assert (level + 1) * m == level * m + m;
    DivBetween(level + r, m, 0, level);
  }

  /** Splitting `level` into `qty` equal monsters and multiplying back loses at most
      the remainder, and never drops below one. */
  lemma PackLevel(level: int, qty: int)
    requires 1 <= qty <= level
    ensures 1 <= level / qty
    ensures 1 <= (level / qty) * qty <= level
  {
    MulMonotone(1, qty, level + 1);
    DivBetween(level, qty, 1, level);
    var q := level / qty;
    assert q * qty + level % qty == level;
    MulMonotone(1, q, qty);
  }

  /** A kill task for a level of at most twice the player's takes at most 12000. */
  lemma DurationBound(level: int, playerLevel: int)
    requires 1 <= playerLevel && 1 <= level <= 2 * playerLevel
    ensures 0 <= 6000 * level / playerLevel <= 12000
  {
    DivBetween(6000 * level, playerLevel, 0, 12000);
  }

  /** The level a kill task aims at: the player's level walked at random, and
      at least 1. */
  function WalkedLevel(tape: Tape, k: nat, playerLevel: int): (level: int)
    requires 1 <= playerLevel
    ensures 1 <= level <= 2 * playerLevel
  {
    var walked := Walk(tape, k, playerLevel, playerLevel).0;
    if walked < 1 then 1 else walked
  }

  /** The walk that opens `monster_task`: `player_level` steps, each a 2-in-5
      chance of a coin that moves the level one up or one down. */
  method WalkLevel(tape: Tape, k: nat, playerLevel: int) returns (level: int, next: nat)
    requires 1 <= playerLevel
    ensures level == WalkedLevel(tape, k, playerLevel)
    ensures next == Walk(tape, k, playerLevel, playerLevel).1
  {
    level := playerLevel;
    next := k;
    var step := 0;
    while step < playerLevel
      invariant 0 <= step <= playerLevel
      invariant Walk(tape, next, level, playerLevel - step) == Walk(tape, k, playerLevel, playerLevel)
    {
      var move := Chance(tape, next, 2, 5);
      next := next + 1;
      if move {
        level := level + Draw(tape, next, 2) * 2 - 1;
        next := next + 1;
      }
      step := step + 1;
    }
    if level < 1 {
      level := 1;
    }
  }

  /** The quest monster is hunted: no non-player character was drawn at `k`,
      there is a quest monster, and the draw after it came up 1 in 4. */
  predicate QuestFoe(tape: Tape, k: nat, questMonster: Option<Monster>) {
    !Chance(tape, k, 1, 25) && questMonster.Some? && Chance(tape, k + 1, 1, 4)
  }

  /** Who is to be killed, drawn from `k`: one time in 25 a non-player character
      (a passing race and class, or a titled and named member of a race) at the
      walked level itself; else, when there is a quest monster, one time in 4
      that monster; else the catalogue monster nearest the level among six
      draws. Gives the description so far, the foe's level and the monster. */
  method ChooseFoe(tape: Tape, k: nat, content: Provider, level: int, questMonster: Option<Monster>)
    returns (result: string, lev: int, monster: Option<Monster>, isDefinite: bool, next: nat, ghost pick: nat)
    requires Valid(content)
    ensures Chance(tape, k, 1, 25) ==> monster.None? && lev == level
    ensures QuestFoe(tape, k, questMonster) ==>
              monster == questMonster && lev == questMonster.value.level && result == questMonster.value.name
    ensures !Chance(tape, k, 1, 25) && !QuestFoe(tape, k, questMonster) ==>
              monster.Some? && lev == monster.value.level && result == monster.value.name
              && NearestMonster(tape, k + 1 + (if questMonster.Some? then 1 else 0), content.monsters, 5, level,
                                monster.value, pick)
    ensures isDefinite ==> monster.None?
    ensures k < next
  {
    hide Draw, Pick, Candidates;
    var c := k;
    isDefinite := false;
    monster := None;
    pick := 0;
    var npc := Chance(tape, c, 1, 25);
    c := c + 1;
    if npc {
      var race := Pick(tape, c, content.races);
      var passing := Chance(tape, c + 1, 1, 2);
      c := c + 2;
      if passing {
        result := "passing " + race.name + " " + Pick(tape, c, content.classes).name;
        c := c + 1;
      } else {
        result := Pick(tape, c, content.titles) + " " + content.lingo.generateName(tape(c + 1)) + " the " + race.name;
        c := c + 2;
        isDefinite := true;
      }
      lev := level;
    } else {
      var useQuest := false;
      if questMonster.Some? {
        useQuest := Chance(tape, c, 1, 4);
        c := c + 1;
      }
      if useQuest {
        monster := questMonster;
        result := questMonster.value.name;
        lev := questMonster.value.level;
      } else {
        var m, i := UnnamedMonster(tape, c, content.monsters, level, 5);
        c := c + 6;
        monster, pick := Some(m), i;
        result := m.name;
        lev := m.level;
      }
    }
    next := c;
  }

  /** A monster more than ten levels below the level comes as a pack: `qty`
      is the level plus a draw below the monster's level (at least 1), divided
      by that, and at least one; otherwise `qty` is 1 and nothing is drawn. */
  method PackOf(tape: Tape, k: nat, level: int, lev: int) returns (qty: int, next: nat)
    requires 1 <= level
    ensures level - lev <= 10 ==> qty == 1 && next == k
    ensures level - lev > 10 ==>
              var weight := if lev > 1 then lev else 1;
              var drawn := (level + Draw(tape, k, weight)) / weight;
              qty == (if drawn < 1 then 1 else drawn) && next == k + 1
    ensures 1 <= qty <= level
    ensures 1 <= level / qty && 1 <= (level / qty) * qty <= level
  {
    qty := 1;
    next := k;
    if level - lev > 10 {
      var weight := if lev > 1 then lev else 1;
      var extra := Draw(tape, k, weight);
      next := k + 1;
      qty := (level + extra) / weight;
      if qty < 1 {
        qty := 1;
      }
      PackSize(level, weight, extra);
    }
    PackLevel(level, qty);
  }

  /** The adjectives for the gap between the level and the foe's level: far
      below is "imaginary", far above "messianic", and a gap of up to nine
      either way draws one or two of the sick/young or big/special words. */
  method Qualify(tape: Tape, k: nat, content: Provider, gap: int, lev: int, level: int, result: string)
    returns (described: string, next: nat)
    ensures gap == 0 ==> described == result && next == k
    ensures gap <= -10 ==> described == "imaginary " + result && next == k
    ensures gap >= 10 ==> described == "messianic " + result && next == k
    ensures gap != 0 && -10 < gap < 10 ==> next == k + 1
    ensures -10 < gap < -5 ==>
              var i := 5 - Draw(tape, k, 11 + gap);
              described == content.lingo.sick(i, content.lingo.young(lev - level - i, result))
    ensures -5 <= gap < 0 ==>
              described == if Draw(tape, k, 2) == 1 then content.lingo.sick(gap, result)
                            else content.lingo.young(gap, result)
    ensures 0 < gap <= 5 ==>
              described == if Draw(tape, k, 2) == 1 then content.lingo.big(gap, result)
                            else content.lingo.special(gap, result)
    ensures 5 < gap < 10 ==>
              var i := 5 - Draw(tape, k, 11 - gap);
              described == content.lingo.big(i, content.lingo.special(gap - i, result))
  {
    described := result;
    next := k;
    if gap <= -10 {
      described := "imaginary " + result;
    } else if gap < -5 {
      var i := 10 + gap;
      i := 5 - Draw(tape, k, i + 1);
      next := k + 1;
      described := content.lingo.sick(i, content.lingo.young(lev - level - i, result));
    } else if gap < 0 {
      var coin := Draw(tape, k, 2);
      next := k + 1;
      described := if coin == 1 then content.lingo.sick(gap, result) else content.lingo.young(gap, result);
    } else if gap >= 10 {
      described := "messianic " + result;
    } else if gap > 5 {
      var i := 10 - gap;
      i := 5 - Draw(tape, k, i + 1);
      next := k + 1;
      described := content.lingo.big(i, content.lingo.special(gap - i, result));
    } else if gap > 0 {
      var coin := Draw(tape, k, 2);
      next := k + 1;
      described := if coin == 1 then content.lingo.big(gap, result) else content.lingo.special(gap, result);
    }
  }

  /** `monster_task(player_level, quest_monster)`: a kill task aimed at a randomly
      walked level `walked`. The foe is a non-player character one time in 25,
      the quest monster one time in 4 when there is one, or else the catalogue
      monster nearest `walked` among six draws. A monster more than ten levels
      below comes as a pack of `qty` whose members share the level, so the
      effective level is `walked` rounded down to a multiple of `qty`. The
      description gets adjectives for the remaining gap. The duration is 6000
      times the effective level, divided by the player's level and rounded
      down; it can be zero once the player's level exceeds 6000 times it. */
  method MonsterTask(tape: Tape, k: nat, content: Provider, playerLevel: int, questMonster: Option<Monster>)
    returns (task: Task, next: nat, ghost walked: int, ghost qty: int, ghost pick: nat, ghost effectiveLevel: int)
    requires Valid(content)
    requires 1 <= playerLevel
    ensures task.KillTask?
    ensures |task.description| >= 10 && task.description[..10] == "Executing "
    ensures walked == WalkedLevel(tape, k, playerLevel)
    ensures Chance(tape, Walk(tape, k, playerLevel, playerLevel).1, 1, 25) ==> task.monster.None? && qty == 1
    ensures QuestFoe(tape, Walk(tape, k, playerLevel, playerLevel).1, questMonster) ==> task.monster == questMonster
    ensures !Chance(tape, Walk(tape, k, playerLevel, playerLevel).1, 1, 25)
            && !QuestFoe(tape, Walk(tape, k, playerLevel, playerLevel).1, questMonster) ==>
              task.monster.Some?
              && NearestMonster(tape, Walk(tape, k, playerLevel, playerLevel).1 + 1 + (if questMonster.Some? then 1 else 0),
                                content.monsters, 5, walked, task.monster.value, pick)
    ensures task.monster.Some? ==> task.monster.value in content.monsters || task.monster == questMonster
    ensures 1 <= qty <= walked
    ensures qty > 1 ==> task.monster.Some? && walked - task.monster.value.level > 10
    ensures effectiveLevel == (walked / qty) * qty && 1 <= effectiveLevel <= walked
    ensures task.duration == 6000 * effectiveLevel / playerLevel
    ensures 0 <= task.duration <= 12000
    ensures k <= next
  {
    var level, c := WalkLevel(tape, k, playerLevel);
    walked := level;
    var result, lev, monster, isDefinite, c1, i := ChooseFoe(tape, c, content, level, questMonster);
    pick := i;
    var n, c2 := PackOf(tape, c1, level, lev);
    qty := n;
    level := level / n;
    var described, c3 := Qualify(tape, c2, content, level - lev, lev, level, result);
    level := level * n;
    if !isDefinite {
      described := content.lingo.indefinite(described, n);
    }
    effectiveLevel := level;
    DurationBound(level, playerLevel);
    task := KillTask("Executing " + described, 6000 * level / playerLevel, monster);
    next := c3;
  }
}
