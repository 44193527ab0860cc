/** The game data both handlers read: actors with their keyed records and
    items, controlled tokens, and the active combat with its combatants.
    A keyed object (`system.attribute`, `system.skill`, ...) is an ordered
    list of (key, record) entries: `Object.entries` visits such non-numeric
    keys in insertion order. */
module Foundry {
  import opened Js

  datatype Attribute = Attribute(labelKey: string, value: int)

  /** A skill names the attribute it is rolled with by key. */
  datatype Skill = Skill(labelKey: string, value: int, attribute: string)

  datatype Condition = Condition(labelKey: string, value: bool)

  /** `value` indexes the consumable dice table. */
  datatype Consumable = Consumable(labelKey: string, value: int)

  /** A monster's armor: rating and an optional free-text note ("" when absent). */
  datatype MonsterArmor = MonsterArmor(value: int, description: string)

  datatype Bonus = Bonus(value: int, max: int)

  /** The `system` record of an item, by item type. `OtherData(t)` is an item of
      type `t` carrying none of the fields the builders read: for a type the
      builders handle (a `weapon` without `category`, say) reading those fields
      throws, which is how a malformed item reaches the builders' `catch`. */
  datatype ItemSystem =
    | WeaponData(category: string, range: string, damage: int, features: seq<(string, bool)>)
    | ArmorData(part: string, featureText: string, bonus: Bonus)
    | SpellData(spellType: string, rank: nat, range: string, duration: string,
                ingredient: string, description: string)
    | MonsterAttackData(damageType: string, range: string, damage: int, description: string)
    | OtherData(itemType: string)

  datatype Item = Item(id: string, name: string, system: ItemSystem)
  {
    /** `item.type`. */
    function Type(): string {
      match system
      case WeaponData(_, _, _, _) => "weapon"
      case ArmorData(_, _, _) => "armor"
      case SpellData(_, _, _, _, _, _) => "spell"
      case MonsterAttackData(_, _, _, _) => "monsterAttack"
      case OtherData(t) => t
    }
  }

  datatype Actor = Actor(
    id: string,
    actorType: string,
    attribute: seq<(string, Attribute)>,
    skill: seq<(string, Skill)>,
    condition: seq<(string, Condition)>,
    consumable: seq<(string, Consumable)>,
    armor: MonsterArmor,
    items: seq<Item>)

  /** A token on the canvas: its id, its actor if any, and `token.document.actorId`. */
  datatype Token = Token(id: string, actor: Option<Actor>, documentActorId: string)

  /** `initiative` is `null` (None) until rolled. */
  datatype Combatant = Combatant(id: string, tokenId: Option<string>, actorId: string, initiative: Option<int>)

  /** The active combat: its combatants in collection order and
      `current.tokenId`, which is `null` (None) before the first turn. */
  datatype Combat = Combat(combatants: seq<Combatant>, currentTokenId: Option<string>)

  /** `obj[key]` on a keyed object: the record stored under `key`, if any. */
  function Lookup<V>(entries: seq<(string, V)>, key: string): (r: Option<V>)
    ensures r.Some? <==> exists i :: 0 <= i < |entries| && entries[i].0 == key
    ensures r.Some? ==> exists i :: 0 <= i < |entries| && entries[i] == (key, r.value)
  {
    if entries == [] then None
    else if entries[0].0 == key then Some(entries[0].1)
    else
      assert forall i :: 0 <= i < |entries[1..]| ==> entries[1..][i] == entries[i + 1];
      Lookup(entries[1..], key)
  }

  /** JavaScript truthiness of an initiative: `null` and `0` are falsy. */
  predicate Rolled(initiative: Option<int>) {
    initiative.Some? && initiative.value != 0
  }

  /** `game.combat?.current?.tokenId`. */
  function CurrentTokenId(combat: Option<Combat>): Nullable {
    match combat
    case None => Undefined
    case Some(c) => if c.currentTokenId.Some? then Str(c.currentTokenId.value) else Null
  }

  /** `this.token?.id`. */
  function SelectedTokenId(token: Option<Token>): Nullable {
    if token.Some? then Str(token.value.id) else Undefined
  }

  /** The actor types both handlers act on. */
  const KnownActorTypes: seq<string> := ["character", "monster"]
}
