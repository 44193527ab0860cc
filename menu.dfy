/** What each menu builder of `scripts/action-handler.js` hands to the host,
    as functions of the actor data: the `addGroup`/`addActions` calls of one
    builder, the actions inside them and their tooltips. The builders
    themselves, which compute these step by step, are the methods of
    `ActionHandlers.ActionHandler`; the properties are in
    `SheetProperties`, `CombatProperties` and `BuildOrder`.

    Sequences that the builders fill one element at a time are defined here
    by their last element, in the order the loops visit them. */
module Menu {
  import opened Js
  import opened Foundry
  import opened Hud
  import opened Buckets

  /** What the builders take from the host: translation (`Utils.i18n`) and
      the item image (`Utils.getImage`), both opaque to this model. */
  datatype Host = Host(T: string -> string, image: Item -> string)

  /** `game.fbl.config`: the canonical attribute keys and the consumable dice table. */
  datatype Config = Config(attributes: seq<string>, consumableDice: map<int, string>)

  /** The guard `x.length === 0` as the builders write it. Every `x` it is
      applied to is a keyed object or the actor's item collection (a `Map`),
      neither of which has a numeric `length`: the read gives `undefined`, or
      a record if some key is literally "length", and the guard never holds. */
  predicate LengthIsZero<V>(keyedObject: seq<V>) {
    false
  }

  /** `"<translated utility type>: <name>"`, the `listName` of a utility action. */
  function UtilityListName(h: Host, name: string): string {
    h.T("tokenActionHud.utility") + ": " + name
  }

  // ---------------------------------------------------------------- attributes

  function AttributeAction(h: Host, id: string, a: Attribute): Action {
    var name := h.T(a.labelKey);
    TooltipAction(id, name, Tooltip(name, [Field(h.T("VALUE"), Num(a.value))]), Payload("attributes", id))
  }

  /** The attribute actions, for the entries whose key is canonical. */
  function AttributeActions(h: Host, canonical: seq<string>, entries: seq<(string, Attribute)>): seq<Action> {
    if entries == [] then []
    else
      var (id, a) := entries[|entries| - 1];
      AttributeActions(h, canonical, entries[..|entries| - 1])
        + (if id in canonical then [AttributeAction(h, id, a)] else [])
  }

  function AttributesGroup(h: Host): Group {
    Group("attributes", h.T("HEADER.ATTRIBUTES"))
  }

  function AttributeCalls(h: Host, config: Config, actor: Actor): seq<HostCall> {
    if LengthIsZero(actor.attribute) then []
    else GroupCalls(AttributesGroup(h), "character", AttributeActions(h, config.attributes, actor.attribute))
  }

  // -------------------------------------------------------------------- skills

  /** A skill action: tooltip lines attribute value, skill value and their sum. */
  function SkillAction(h: Host, id: string, s: Skill, a: Attribute): Action {
    var name := h.T(s.labelKey);
    TooltipAction(id, name,
      Tooltip(name, [Field(h.T(a.labelKey), Num(a.value)), Field(name, Num(s.value)),
                     Field(h.T("VALUE"), Num(a.value + s.value))]),
      Payload("skills", id))
  }

  /** The skill actions, or None once a skill names an attribute the actor
      lacks (reading `attribute.label` of `undefined` throws). */
  function SkillActions(h: Host, attributes: seq<(string, Attribute)>, skills: seq<(string, Skill)>): Option<seq<Action>> {
    if skills == [] then Some([])
    else
      var (id, s) := skills[|skills| - 1];
      match SkillActions(h, attributes, skills[..|skills| - 1])
      case None => None
      case Some(acts) =>
        match Lookup(attributes, s.attribute)
        case None => None
        case Some(a) => Some(acts + [SkillAction(h, id, s, a)])
  }

  function SkillsGroup(h: Host): Group {
    Group("skills", h.T("HEADER.SKILLS"))
  }

  function SkillCalls(h: Host, actor: Actor): seq<HostCall> {
    if LengthIsZero(actor.skill) then []
    else
      match SkillActions(h, actor.attribute, actor.skill)
      case None => []
      case Some(acts) => GroupCalls(SkillsGroup(h), "character", acts)
  }

  // ----------------------------------------------------------- standard combat

  const CombatTypes: seq<string> := ["weapon", "armor"]

  /** An item whose type is one of `allowed` but which lacks that type's data. */
  predicate Malformed(item: Item, allowed: seq<string>) {
    item.system.OtherData? && item.system.itemType in allowed
  }

  function FeatureKey(name: string): string {
    if name == "slowReload" then "slow_reload" else name
  }

  /** The translated names of the enabled weapon features, in order. */
  function EnabledFeatures(h: Host, features: seq<(string, bool)>): seq<string> {
    if features == [] then []
    else
      var (name, enabled) := features[|features| - 1];
      EnabledFeatures(h, features[..|features| - 1])
        + (if enabled then [h.T("WEAPON.FEATURES." + Upper(FeatureKey(name)))] else [])
  }

  function WeaponAction(h: Host, item: Item): Action
    requires item.system.WeaponData?
  {
    var w := item.system;
    ItemAction(item.id, item.name,
      Tooltip(item.name, [
        Field(h.T("WEAPON.CATEGORY"), Text(h.T("WEAPON." + Upper(w.category)))),
        Field(h.T("WEAPON.RANGE"), Text(h.T("RANGE." + Upper(w.range)))),
        Field(h.T("WEAPON.DAMAGE"), Num(w.damage)),
        Field(h.T("WEAPON.FEATURE"), Text(Join(EnabledFeatures(h, w.features), ", "))),
        Note(h.T("tokenActionHud.template.weaponTooltipParry")),
        Note(h.T("tokenActionHud.template.weaponTooltipDisarm"))]),
      h.image(item), Payload("weapon", item.id))
  }

  /** The armor part shown: `head` is translated as `helmet`. */
  function ArmorPart(part: string): string {
    if part == "head" then "helmet" else part
  }

  function ArmorAction(h: Host, item: Item): Action
    requires item.system.ArmorData?
  {
    var a := item.system;
    ItemAction(item.id, item.name,
      Tooltip(item.name, [
        Field(h.T("GEAR.TYPE"), Text(h.T("ARMOR." + Upper(ArmorPart(a.part))))),
        Note(a.featureText),
        Field(h.T("GEAR.BONUS"), Ratio(a.bonus.value, a.bonus.max))]),
      h.image(item), Payload("armor", item.id))
  }

  /** The aggregate armor action `all`, reporting the accumulated text `total`. */
  function TotalArmorAction(h: Host, total: string): Action {
    TooltipAction("all", h.T("ARMOR.TOTAL"),
      Tooltip(h.T("ARMOR.TOTAL"), [Field(h.T("GEAR.BONUS"), Text(total))]),
      Payload("armor", "all"))
  }

  /** The `forEach` over the items: the `actionsMap` buckets and `armorTotal`
      after it, or None when the `catch` ends the builder. */
  function CombatScan(h: Host, items: seq<Item>): Option<(Buckets<string, Action>, string)> {
    if items == [] then Some(([], ""))
    else
      var item := items[|items| - 1];
      match CombatScan(h, items[..|items| - 1])
      case None => None
      case Some((b, total)) =>
        if item.Type() !in CombatTypes then Some((b, total))
        else
          match item.system
          case WeaponData(_, _, _, _) => Some((Push(b, "weapon", WeaponAction(h, item)), total))
          case ArmorData(_, _, bonus) =>
            Some((Push(b, "armor", ArmorAction(h, item)), total + IntToString(bonus.value)))
          case _ => None
  }

  /** The buckets once the aggregate armor action has been pushed. */
  function CombatBuckets(h: Host, items: seq<Item>): Option<Buckets<string, Action>> {
    match CombatScan(h, items)
    case None => None
    case Some((b, total)) => Some(Push(b, "armor", TotalArmorAction(h, total)))
  }

  /** The group of an item-type bucket: id the type, name `HEADER.<TYPE>`. */
  function TypeGroup(h: Host, itemType: string): Group {
    Group(itemType, h.T("HEADER." + Upper(itemType)))
  }

  /** One group per bucket under `combat`, in key order. */
  function TypeGroupCalls(h: Host, b: Buckets<string, Action>): seq<HostCall> {
    if b == [] then []
    else
      var (k, acts) := b[|b| - 1];
      TypeGroupCalls(h, b[..|b| - 1]) + GroupCalls(TypeGroup(h, k), "combat", acts)
  }

  /** The fixed maneuvers, as (translation label, action id). */
  const Maneuvers: seq<(string, string)> := [
    ("BREAK_FREE", "break-free"), ("DISARM", "disarm"), ("DODGE", "dodge"),
    ("GRAPPLE", "grapple"), ("GRAPPLE_ATTACK", "grapple-attack"), ("PARRY", "parry"),
    ("RETREAT", "retreat"), ("SHOVE", "shove"), ("UNARMED_STRIKE", "unarmed")]

  function ManeuverAction(h: Host, m: (string, string)): Action {
    PlainAction(m.1, h.T("ACTION." + m.0), Payload("action", m.1))
  }

  function ManeuverActionsOf(h: Host, ms: seq<(string, string)>): seq<Action> {
    if ms == [] then []
    else ManeuverActionsOf(h, ms[..|ms| - 1]) + [ManeuverAction(h, ms[|ms| - 1])]
  }

  function ManeuversGroup(h: Host): Group {
    Group("actions", h.T("HEADER.ACTIONS"))
  }

  function ManeuverCalls(h: Host): seq<HostCall> {
    GroupCalls(ManeuversGroup(h), "combat", ManeuverActionsOf(h, Maneuvers))
  }

  function CombatCalls(h: Host, actor: Actor): seq<HostCall> {
    if LengthIsZero(actor.items) then []
    else
      match CombatBuckets(h, actor.items)
      case None => []
      case Some(b) => TypeGroupCalls(h, b) + ManeuverCalls(h)
  }

  // ------------------------------------------------------------ monster combat

  const MonsterCombatTypes: seq<string> := ["monsterAttack", "armor"]

  function RandomAttackAction(h: Host): Action {
    PlainAction("random", h.T("HEADER.ATTACK"), Payload("monsterAttack", "random"))
  }

  function MonsterAttackAction(h: Host, item: Item): Action
    requires item.system.MonsterAttackData?
  {
    var m := item.system;
    ItemAction(item.id, item.name,
      Tooltip(item.name, [
        Field(h.T("WEAPON.CATEGORY"), Text(h.T("ATTACK." + Upper(m.damageType)))),
        Field(h.T("WEAPON.RANGE"), Text(h.T("RANGE." + Upper(m.range)))),
        Field(h.T("WEAPON.DAMAGE"), Num(m.damage)),
        Note(m.description)]),
      h.image(item), Payload("monsterAttack", item.id))
  }

  /** The `forEach` over a monster's items: the attack actions pushed after
      `random`, or None when the `catch` ends the builder. Armor items are
      pushed into a bucket that is never read, so they leave no trace here. */
  function MonsterScan(h: Host, items: seq<Item>): Option<seq<Action>> {
    if items == [] then Some([])
    else
      var item := items[|items| - 1];
      match MonsterScan(h, items[..|items| - 1])
      case None => None
      case Some(attacks) =>
        if item.Type() != "monsterAttack" then Some(attacks)
        else if item.system.MonsterAttackData? then Some(attacks + [MonsterAttackAction(h, item)])
        else None
  }

  /** The single armor action `monster`; the note line only for a truthy description. */
  function MonsterArmorAction(h: Host, armor: MonsterArmor): Action {
    TooltipAction("monster", h.T("ARMOR.TOTAL"),
      Tooltip(h.T("MONSTER.ARMOR"),
        [Field(h.T("GEAR.BONUS"), Num(armor.value))]
          + (if armor.description != "" then [Note(armor.description)] else [])),
      Payload("armor", "monster"))
  }

  function MonsterAttackGroup(h: Host): Group {
    Group("monsterAttack", h.T("ITEM.TypeMonsterattack"))
  }

  function MonsterArmorGroup(h: Host): Group {
    Group("armor", h.T("MONSTER.ARMOR"))
  }

  function MonsterCombatCalls(h: Host, actor: Actor): seq<HostCall> {
    if LengthIsZero(actor.items) then []
    else
      match MonsterScan(h, actor.items)
      case None => []
      case Some(attacks) =>
        GroupCalls(MonsterAttackGroup(h), "combat", [RandomAttackAction(h)] + attacks)
          + GroupCalls(MonsterArmorGroup(h), "combat", [MonsterArmorAction(h, actor.armor)])
          + ManeuverCalls(h)
  }

  // -------------------------------------------------------------------- spells

  function SpellAction(h: Host, item: Item): Action
    requires item.system.SpellData?
  {
    var s := item.system;
    ItemAction(item.id, item.name,
      Tooltip(item.name, [
        Field(h.T("SPELL.SPELL_TYPE"), Text(h.T(s.spellType))),
        Field(h.T("SPELL.RANK"), Num(s.rank)),
        Field(h.T("SPELL.RANGE"), Text(h.T("RANGE." + Upper(s.range)))),
        Field(h.T("SPELL.DURATION"), Text(s.duration)),
        Field(h.T("SPELL.INGREDIENT"), Text(s.ingredient)),
        Note(s.description)]),
      h.image(item), Payload("spell", item.id))
  }

  /** The `forEach` over the items: spell actions bucketed by rank, or None
      when the `catch` ends the builder. */
  function SpellScan(h: Host, items: seq<Item>): Option<Buckets<nat, Action>> {
    if items == [] then Some([])
    else
      var item := items[|items| - 1];
      match SpellScan(h, items[..|items| - 1])
      case None => None
      case Some(b) =>
        if item.Type() != "spell" then Some(b)
        else if item.system.SpellData? then Some(PushRanked(b, item.system.rank, SpellAction(h, item)))
        else None
  }

  function RankGroup(h: Host, rank: nat): Group {
    Group("spells_rank_" + IntToString(rank), h.T("SPELL.RANK") + " " + IntToString(rank))
  }

  /** One group per rank bucket under `spells`, in key order. */
  function RankGroupCalls(h: Host, b: Buckets<nat, Action>): seq<HostCall> {
    if b == [] then []
    else
      var (r, acts) := b[|b| - 1];
      RankGroupCalls(h, b[..|b| - 1]) + GroupCalls(RankGroup(h, r), "spells", acts)
  }

  function SpellCalls(h: Host, actor: Actor): seq<HostCall> {
    if LengthIsZero(actor.items) then []
    else
      match SpellScan(h, actor.items)
      case None => []
      case Some(b) => RankGroupCalls(h, b)
  }

  // ---------------------------------------------------------------- conditions

  function ConditionAction(h: Host, id: string, c: Condition): Action {
    Action(id, h.T(c.labelKey), None, None, Some(if c.value then " active" else ""), None, None,
           Payload("condition", id))
  }

  function ConditionActions(h: Host, entries: seq<(string, Condition)>): seq<Action> {
    if entries == [] then []
    else
      var (id, c) := entries[|entries| - 1];
      ConditionActions(h, entries[..|entries| - 1]) + [ConditionAction(h, id, c)]
  }

  function ConditionsGroup(h: Host): Group {
    Group("conditions", h.T("HEADER.CONDITION"))
  }

  /** Conditions are added with `addActions` alone: no `addGroup` call. */
  function ConditionCalls(h: Host, actor: Actor): seq<HostCall> {
    if LengthIsZero(actor.condition) then []
    else [AddActions(ConditionActions(h, actor.condition), ConditionsGroup(h))]
  }

  // --------------------------------------------------------------- consumables

  /** `consumableDice[value] ?? "0"`. */
  function DiceLabel(dice: map<int, string>, value: int): string {
    if value in dice then dice[value] else "0"
  }

  function ConsumableAction(h: Host, dice: map<int, string>, id: string, c: Consumable): Action {
    PlainAction(id, h.T(c.labelKey) + " " + DiceLabel(dice, c.value), Payload("consumable", id))
  }

  function ConsumableActions(h: Host, dice: map<int, string>, entries: seq<(string, Consumable)>): seq<Action> {
    if entries == [] then []
    else
      var (id, c) := entries[|entries| - 1];
      ConsumableActions(h, dice, entries[..|entries| - 1]) + [ConsumableAction(h, dice, id, c)]
  }

  function ConsumablesGroup(h: Host): Group {
    Group("consumables", h.T("HEADER.CONSUMABLE"))
  }

  /** Consumables are added with `addActions` alone: no `addGroup` call. */
  function ConsumableCalls(h: Host, config: Config, actor: Actor): seq<HostCall> {
    if LengthIsZero(actor.consumable) then []
    else [AddActions(ConsumableActions(h, config.consumableDice, actor.consumable), ConsumablesGroup(h))]
  }

  // ------------------------------------------------------------- token utility

  function TokenIds(tokens: seq<Token>): (r: seq<string>)
    ensures |r| == |tokens|
    ensures forall i :: 0 <= i < |tokens| ==> r[i] == tokens[i].id
  {
    if tokens == [] then [] else TokenIds(tokens[..|tokens| - 1]) + [tokens[|tokens| - 1].id]
  }

  /** `combatants.filter(c => tokenIds.includes(c.tokenId))`. */
  function MatchedCombatants(combatants: seq<Combatant>, tokenIds: seq<string>): (r: seq<Combatant>)
    ensures forall c :: c in r <==> c in combatants && c.tokenId.Some? && c.tokenId.value in tokenIds
  {
    if combatants == [] then []
    else
      var c := combatants[|combatants| - 1];
      var rest := combatants[..|combatants| - 1];
      assert combatants == rest + [c];
      MatchedCombatants(rest, tokenIds)
        + (if c.tokenId.Some? && c.tokenId.value in tokenIds then [c] else [])
  }

  /** The combatant filter keeps order and repeats: it distributes over
      concatenation ... */
  lemma {:induction false} MatchedCombatantsAppend(a: seq<Combatant>, b: seq<Combatant>, tokenIds: seq<string>)
    ensures MatchedCombatants(a + b, tokenIds) == MatchedCombatants(a, tokenIds) + MatchedCombatants(b, tokenIds)
    decreases |b|
  {
    if b == [] {
      assert a + b == a;
    } else {
      var c := b[|b| - 1];
      assert (a + b)[..|a + b| - 1] == a + b[..|b| - 1];
      assert (a + b)[|a + b| - 1] == c;
      MatchedCombatantsAppend(a, b[..|b| - 1], tokenIds);
    }
  }

  /** ... and keeps one combatant iff it belongs to a controlled token. */
  lemma MatchedCombatantsOne(c: Combatant, tokenIds: seq<string>)
    ensures MatchedCombatants([c], tokenIds) == if c.tokenId.Some? && c.tokenId.value in tokenIds then [c] else []
  {
    assert [c][..0] == [];
  }

  /** `combatants.every(c => c?.initiative)`. */
  function EveryRolled(combatants: seq<Combatant>): (b: bool)
    ensures b <==> forall i :: 0 <= i < |combatants| ==> Rolled(combatants[i].initiative)
  {
    if combatants == [] then true
    else Rolled(combatants[0].initiative) && EveryRolled(combatants[1..])
  }

  /** A combatant that belongs to one of the controlled tokens. */
  predicate OfTokens(c: Combatant, tokenIds: seq<string>) {
    c.tokenId.Some? && c.tokenId.value in tokenIds
  }

  /** Some combatant belongs to a controlled token, and all such have a truthy initiative. */
  predicate AllMatchedRolled(combatants: seq<Combatant>, tokenIds: seq<string>) {
    (exists c :: c in combatants && OfTokens(c, tokenIds))
    && forall c :: c in combatants && OfTokens(c, tokenIds) ==> Rolled(c.initiative)
  }

  lemma MatchedRolled(combatants: seq<Combatant>, tokenIds: seq<string>)
    ensures var matched := MatchedCombatants(combatants, tokenIds);
      (|matched| > 0 && EveryRolled(matched)) <==> AllMatchedRolled(combatants, tokenIds)
  {
    var matched := MatchedCombatants(combatants, tokenIds);
    if |matched| > 0 && EveryRolled(matched) {
      assert matched[0] in matched;
      forall c | c in combatants && OfTokens(c, tokenIds) ensures Rolled(c.initiative) {
        assert c in matched;
      }
    }
    if AllMatchedRolled(combatants, tokenIds) {
      var c :| c in combatants && OfTokens(c, tokenIds);
      assert c in matched;
      forall i | 0 <= i < |matched| ensures Rolled(matched[i].initiative) {
        assert matched[i] in matched;
      }
    }
  }

  /** `cs[i]` is the one combatant that belongs to a controlled token. */
  predicate OnlyMatchAt(cs: seq<Combatant>, tokenIds: seq<string>, i: int) {
    0 <= i < |cs| && OfTokens(cs[i], tokenIds)
    && forall j :: 0 <= j < |cs| && j != i ==> !OfTokens(cs[j], tokenIds)
  }

  /** No combatant is kept iff none belongs to a controlled token. */
  lemma NoMatch(cs: seq<Combatant>, tokenIds: seq<string>)
    ensures MatchedCombatants(cs, tokenIds) == [] <==> forall j :: 0 <= j < |cs| ==> !OfTokens(cs[j], tokenIds)
  {
    var m := MatchedCombatants(cs, tokenIds);
    if m != [] {
      assert m[0] in m;
      var j :| 0 <= j < |cs| && cs[j] == m[0];
    }
    forall j | 0 <= j < |cs| && OfTokens(cs[j], tokenIds) ensures m != [] {
      assert cs[j] in m;
    }
  }

  /** When the last combatant belongs to a controlled token, it is the only
      such one iff none before it does. */
  lemma OnlyMatchLast(cs: seq<Combatant>, tokenIds: seq<string>)
    requires cs != [] && OfTokens(cs[|cs| - 1], tokenIds)
    ensures (exists i :: OnlyMatchAt(cs, tokenIds, i))
            <==> forall j :: 0 <= j < |cs| - 1 ==> !OfTokens(cs[j], tokenIds)
  {
    if exists i :: OnlyMatchAt(cs, tokenIds, i) {
      var i :| OnlyMatchAt(cs, tokenIds, i);
      assert i == |cs| - 1;
    }
    if forall j :: 0 <= j < |cs| - 1 ==> !OfTokens(cs[j], tokenIds) {
      assert OnlyMatchAt(cs, tokenIds, |cs| - 1);
    }
  }

  /** When the last combatant belongs to no controlled token, the only match
      is the only match among the others. */
  lemma OnlyMatchOther(init: seq<Combatant>, c: Combatant, tokenIds: seq<string>)
    requires !OfTokens(c, tokenIds)
    ensures (exists i :: OnlyMatchAt(init + [c], tokenIds, i)) <==> exists i :: OnlyMatchAt(init, tokenIds, i)
  {
    var cs := init + [c];
    assert cs[|init|] == c;
    assert forall j :: 0 <= j < |init| ==> cs[j] == init[j];
    if exists i :: OnlyMatchAt(cs, tokenIds, i) {
      var i :| OnlyMatchAt(cs, tokenIds, i);
      assert OnlyMatchAt(init, tokenIds, i);
    }
    if exists i :: OnlyMatchAt(init, tokenIds, i) {
      var i :| OnlyMatchAt(init, tokenIds, i);
      assert OnlyMatchAt(cs, tokenIds, i);
    }
  }

  /** The initiative badge condition: exactly one combatant is kept iff
      exactly one, counting repeats, belongs to a controlled token. */
  lemma {:induction false} OneMatch(cs: seq<Combatant>, tokenIds: seq<string>)
    ensures |MatchedCombatants(cs, tokenIds)| == 1 <==> exists i :: OnlyMatchAt(cs, tokenIds, i)
  {
    if cs != [] {
      var init := cs[..|cs| - 1];
      var c := cs[|cs| - 1];
      if OfTokens(c, tokenIds) {
        NoMatch(init, tokenIds);
        OnlyMatchLast(cs, tokenIds);
      } else {
        OneMatch(init, tokenIds);
        OnlyMatchOther(init, c, tokenIds);
        assert init + [c] == cs;
      }
    }
  }

  /** The initiative action. Without a combat its class is empty; with one it
      is a toggle, lit iff the controlled tokens have combatants and every one
      of them has rolled, and it carries a badge with the initiative iff
      exactly one combatant matches. */
  function InitiativeAction(h: Host, combat: Option<Combat>, controlled: seq<Token>): (r: Action)
    ensures r.id == "initiative" && r.system == Payload("utility", "initiative")
    ensures r.listName == Some(UtilityListName(h, r.name))
    ensures combat.None? ==> r.cssClass == Some("") && r.info1.None?
    ensures combat.Some? ==>
      (r.cssClass == Some("toggle active") <==> AllMatchedRolled(combat.value.combatants, TokenIds(controlled)))
      && (r.cssClass == Some("toggle") <==> !AllMatchedRolled(combat.value.combatants, TokenIds(controlled)))
    ensures combat.Some? ==>
      var matched := MatchedCombatants(combat.value.combatants, TokenIds(controlled));
      (r.info1.Some? <==> |matched| == 1) && (r.info1.Some? ==> r.info1.value.text == matched[0].initiative)
  {
    var name := h.T("COMBAT.InitiativeRoll");
    var listName := Some(UtilityListName(h, name));
    var system := Payload("utility", "initiative");
    match combat
    case None => Action("initiative", name, None, None, Some(""), listName, None, system)
    case Some(c) =>
      var matched := MatchedCombatants(c.combatants, TokenIds(controlled));
      MatchedRolled(c.combatants, TokenIds(controlled));
      var lit := |matched| > 0 && EveryRolled(matched);
      var badge := if |matched| == 1 then Some(Badge(matched[0].initiative)) else None;
      Action("initiative", name, None, None, Some(if lit then "toggle active" else "toggle"), listName, badge, system)
  }

  function EndTurnAction(h: Host): Action {
    var name := h.T("tokenActionHud.endTurn");
    Action("endTurn", name, None, None, Some(""), Some(UtilityListName(h, name)), None,
           Payload("utility", "endTurn"))
  }

  /** The token utility actions: `initiative` always, then `endTurn` iff the
      current turn's token id equals the selected token's id under `===`
      (both `undefined` counts as equal). */
  function TokenUtilityActions(h: Host, token: Option<Token>, combat: Option<Combat>, controlled: seq<Token>): (r: seq<Action>)
    ensures |r| == (if CurrentTokenId(combat) == SelectedTokenId(token) then 2 else 1)
    ensures r[0] == InitiativeAction(h, combat, controlled)
    ensures |r| == 2 ==> r[1].id == "endTurn" && r[1].system == Payload("utility", "endTurn")
  {
    [InitiativeAction(h, combat, controlled)]
      + (if CurrentTokenId(combat) == SelectedTokenId(token) then [EndTurnAction(h)] else [])
  }

  function TokenGroup(h: Host): Group {
    Group("token", h.T("tokenActionHud.token"))
  }

  function TokenUtilityCalls(h: Host, token: Option<Token>, combat: Option<Combat>, controlled: seq<Token>): seq<HostCall> {
    GroupCalls(TokenGroup(h), "utility", TokenUtilityActions(h, token, combat, controlled))
  }

  // --------------------------------------------------------- character utility

  function UtilityAction(h: Host, id: string, name: string): Action {
    Action(id, name, None, None, None, Some(UtilityListName(h, name)), None, Payload("utility", id))
  }

  /** Rest, pride and reputation, in that order. */
  function CharacterUtilityActions(h: Host): (r: seq<Action>)
    ensures |r| == 3 && r[0].id == "rests" && r[1].id == "pride" && r[2].id == "reputation"
    ensures forall i :: 0 <= i < |r| ==> r[i].system == Payload("utility", r[i].id)
  {
    [UtilityAction(h, "rests", h.T("SHEET.HEADER.REST")),
     UtilityAction(h, "pride", h.T("BIO.PRIDE")),
     UtilityAction(h, "reputation", h.T("BIO.REPUTATION"))]
  }

  function CharacterUtilityGroup(h: Host): Group {
    Group("character_utils", h.T("ACTOR.TypeCharacter"))
  }

  function CharacterUtilityCalls(h: Host): seq<HostCall> {
    GroupCalls(CharacterUtilityGroup(h), "utility", CharacterUtilityActions(h))
  }

  // ----------------------------------------------------------- actor selection

  /** The actors of the tokens that have one, in token order. */
  function TokenActors(tokens: seq<Token>): (r: seq<Actor>)
    ensures forall a :: a in r <==> exists t :: t in tokens && t.actor == Some(a)
  {
    if tokens == [] then []
    else
      var t := tokens[|tokens| - 1];
      var rest := tokens[..|tokens| - 1];
      assert tokens == rest + [t];
      TokenActors(rest) + (if t.actor.Some? then [t.actor.value] else [])
  }

  /** `#getActors`: every controlled token's actor when all of them are a
      character or a monster, and nothing otherwise. */
  function GetActors(tokens: seq<Token>): (r: seq<Actor>)
    ensures r == [] || r == TokenActors(tokens)
    ensures forall a :: a in r ==> a.actorType in KnownActorTypes
    ensures (forall t :: t in tokens && t.actor.Some? ==> t.actor.value.actorType in KnownActorTypes)
            <==> r == TokenActors(tokens)
  {
    var actors := TokenActors(tokens);
    if forall a :: a in actors ==> a.actorType in KnownActorTypes then actors else []
  }

  // ---------------------------------------------------------- the whole menu

  function CharacterCalls(h: Host, config: Config, actor: Actor, token: Option<Token>,
                          combat: Option<Combat>, controlled: seq<Token>): seq<HostCall> {
    AttributeCalls(h, config, actor) + SkillCalls(h, actor) + CombatCalls(h, actor)
      + SpellCalls(h, actor) + ConditionCalls(h, actor) + ConsumableCalls(h, config, actor)
      + TokenUtilityCalls(h, token, combat, controlled) + CharacterUtilityCalls(h)
  }

  function MonsterCalls(h: Host, config: Config, actor: Actor, token: Option<Token>,
                        combat: Option<Combat>, controlled: seq<Token>): seq<HostCall> {
    AttributeCalls(h, config, actor) + SkillCalls(h, actor) + MonsterCombatCalls(h, actor)
      + SpellCalls(h, actor) + TokenUtilityCalls(h, token, combat, controlled)
  }

  /** `buildSystemActions`: branch on the selected actor's type. */
  function SystemCalls(h: Host, config: Config, actor: Option<Actor>, token: Option<Token>,
                       combat: Option<Combat>, controlled: seq<Token>): seq<HostCall> {
    if actor.Some? && actor.value.actorType == "character" then
      CharacterCalls(h, config, actor.value, token, combat, controlled)
    else if actor.Some? && actor.value.actorType == "monster" then
      MonsterCalls(h, config, actor.value, token, combat, controlled)
    else if actor.None? then TokenUtilityCalls(h, token, combat, controlled)
    else []
  }
}
