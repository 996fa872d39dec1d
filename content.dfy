/** The optional value used for `Optional[...]` fields of the source. */
module Wrappers {
  datatype Option<+T> = None | Some(value: T)
}

/** The reference data the engine reads but never changes: the stat and slot
    enumerations, and the content tables and word helpers that the game's
    configuration and wording modules supply. Tables are passed in as values;
    the wording helpers are passed in as functions whose text is not modelled. */
module Content {
  import opened Wrappers

  /** The stat kinds, in declaration order (the order `win_stat` walks them). */
  datatype StatType = Strength | Condition | Dexterity | Intelligence | Wisdom | Charisma | HpMax | MpMax

  const AllStats: seq<StatType> := [Strength, Condition, Dexterity, Intelligence, Wisdom, Charisma, HpMax, MpMax]

  /** The six stats a character rolls with three six-sided dice. */
  const PrimeStats: seq<StatType> := [Strength, Condition, Dexterity, Intelligence, Wisdom, Charisma]

  /** The equipment slots, in declaration order. */
  datatype EquipmentType =
    | Weapon | Shield | Helm | Hauberk | Brassairts | Vambraces | Gauntlets | Cuisses | Greaves | Sollerets

  const AllEquipment: seq<EquipmentType> :=
    [Weapon, Shield, Helm, Hauberk, Brassairts, Vambraces, Gauntlets, Cuisses, Greaves, Sollerets]

  /** A monster of the catalogue: its name, level and optional drop item. */
  datatype Monster = Monster(name: string, level: int, item: Option<string>)

  /** A weapon, shield or armour of the catalogue with its quality. */
  datatype EquipmentPreset = EquipmentPreset(name: string, quality: int)

  /** An equipment name modifier ("Vorpal", "Rusty", ...) with its quality. */
  datatype Modifier = Modifier(name: string, quality: int)

  datatype Race = Race(name: string)

  datatype CharClass = CharClass(name: string)

  /** The wording helpers. `generateName` turns one raw draw into a name. */
  datatype Lingo = Lingo(
    indefinite: (string, int) -> string,
    definite: (string, int) -> string,
    actName: int -> string,
    sick: (int, string) -> string,
    young: (int, string) -> string,
    big: (int, string) -> string,
    special: (int, string) -> string,
    generateName: nat -> string)

  /** The content tables. */
  datatype Provider = Provider(
    spells: seq<string>,
    monsters: seq<Monster>,
    weapons: seq<EquipmentPreset>,
    armors: seq<EquipmentPreset>,
    shields: seq<EquipmentPreset>,
    offenseAttrib: seq<Modifier>,
    offenseBad: seq<Modifier>,
    defenseAttrib: seq<Modifier>,
    defenseBad: seq<Modifier>,
    races: seq<Race>,
    classes: seq<CharClass>,
    titles: seq<string>,
    impressiveTitles: seq<string>,
    itemAttrib: seq<string>,
    specials: seq<string>,
    itemOfs: seq<string>,
    boringItems: seq<string>,
    lingo: Lingo)

  /** Killing this monster always yields one unit of loot: it either has no drop
      item (a generic special item is won) or a drop item with a name. */
  predicate YieldsLoot(m: Monster) {
    m.item.None? || m.item.value != ""
  }

  /** Every table the engine draws from is non-empty, and every drop item has a name. */
  predicate Valid(p: Provider) {
    && |p.spells| > 0 && |p.monsters| > 0
    && |p.weapons| > 0 && |p.armors| > 0 && |p.shields| > 0
    && |p.offenseAttrib| > 0 && |p.offenseBad| > 0 && |p.defenseAttrib| > 0 && |p.defenseBad| > 0
    && |p.races| > 0 && |p.classes| > 0 && |p.titles| > 0 && |p.impressiveTitles| > 0
    && |p.itemAttrib| > 0 && |p.specials| > 0 && |p.itemOfs| > 0 && |p.boringItems| > 0
    && forall m :: m in p.monsters ==> YieldsLoot(m)
  }
}
