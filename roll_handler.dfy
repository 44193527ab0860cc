/** The click dispatcher of `scripts/roll-handler.js`. A click hands back the
    payload `"<actionTypeId>|<actionId>"` the menu builder encoded; the
    dispatcher decodes it, picks the actor or actors it applies to, and calls
    one sheet or combat-tracker operation per actor. Those foreign calls are
    recorded as `Effect` values, in the order they are made. */
module RollHandlers {
  import opened Js
  import opened Foundry

  /** The operations called on an actor: `actor.sheet.roll*(id)`,
      `actor.toggleCondition(id)` and `actor.rest()`. An id is `undefined`
      (None) when the payload had no `|`. */
  datatype ActorOp =
    | RollAttribute(id: Option<string>)
    | RollSkill(id: Option<string>)
    | RollArmor
    | RollSpecificArmor(id: Option<string>)
    | RollGear(id: Option<string>)
    | RollAttack
    | RollSpecificAttack(id: Option<string>)
    | RollAction(id: Option<string>)
    | RollSpell(id: Option<string>)
    | ToggleCondition(id: Option<string>)
    | RollConsumable(id: Option<string>)
    | Rest
    | RollPride
    | RollReputation

  /** One thing a click does. `Rejected` is a `TypeError` thrown inside one of
      the un-awaited async handlers: its promise rejects and that handler does
      nothing more, while the caller carries on. */
  datatype Effect =
    | Render(actorOf: Option<string>, itemId: Option<string>)
    | OnActor(actorId: string, op: ActorOp)
    | RollInitiative(combatantIds: seq<string>)
    | NextTurn
    | Rejected

  /** What the handler sees when a click arrives: `this.actor`, `this.token`,
      the render-item setting (`this.isRenderItem()`), the controlled tokens
      (`canvas.tokens.controlled`) and `game.combat`. */
  datatype Context = Context(
    actor: Option<Actor>,
    token: Option<Token>,
    renderItem: bool,
    controlled: seq<Token>,
    combat: Option<Combat>)

  // ---------------------------------------------------------------- decoding

  /** `const [actionTypeId, actionId] = encodedValue.split('|')`: the first two
      pieces; the second is `undefined` when there is no `|`. */
  function Decode(encoded: string): (r: (string, Option<string>))
    ensures '|' !in r.0
    ensures r.1.Some? ==> '|' !in r.1.value
    ensures r.1.None? <==> '|' !in encoded
  {
    var parts := Split(encoded, '|');
    (parts[0], if |parts| > 1 then Some(parts[1]) else None)
  }

  /** Decoding undoes the encoding `type + "|" + id` when neither part holds a `|`. */
  lemma DecodeEncoded(typeId: string, actionId: string)
    requires '|' !in typeId && '|' !in actionId
    ensures Decode(typeId + "|" + actionId) == (typeId, Some(actionId))
  {
    SplitAtFirstSeparator(typeId, '|', actionId);
    SplitNoSeparator(actionId, '|');
  }

  /** A payload without `|` is all action type and no id. */
  lemma DecodeWithoutId(typeId: string)
    requires '|' !in typeId
    ensures Decode(typeId) == (typeId, None)
  {
    SplitNoSeparator(typeId, '|');
  }

  /** An id that itself holds a `|` comes back cut at that `|`. */
  lemma DecodeTruncates(typeId: string, actionId: string, rest: string)
    requires '|' !in typeId && '|' !in actionId
    ensures Decode(typeId + "|" + actionId + "|" + rest) == (typeId, Some(actionId))
  {
    assert typeId + "|" + actionId + "|" + rest == typeId + ['|'] + (actionId + ['|'] + rest);
    SplitAtFirstSeparator(typeId, '|', actionId + ['|'] + rest);
    SplitAtFirstSeparator(actionId, '|', rest);
  }

  // ------------------------------------------------------ per-type handlers

  /** `#handleArmorAction`: the aggregate ids roll the whole armor. */
  function ArmorOp(actionId: Option<string>): (r: ActorOp)
    ensures r == RollArmor <==> actionId == Some("all") || actionId == Some("monster")
    ensures r != RollArmor ==> r == RollSpecificArmor(actionId)
  {
    if actionId == Some("all") || actionId == Some("monster") then RollArmor
    else RollSpecificArmor(actionId)
  }

  /** `#handleMonsterAttackAction`: `random` rolls a random attack. */
  function MonsterAttackOp(actionId: Option<string>): (r: ActorOp)
    ensures r == RollAttack <==> actionId == Some("random")
    ensures r != RollAttack ==> r == RollSpecificAttack(actionId)
  {
    if actionId == Some("random") then RollAttack else RollSpecificAttack(actionId)
  }

  /** The action types `#handleAction` sends to a single actor operation. */
  const ActorActionTypes: seq<string> :=
    ["attributes", "skills", "armor", "weapon", "monsterAttack", "action", "spell", "condition", "consumable"]

  /** The actor operation the switch of `#handleAction` picks for a type other
      than `utility`, if any. */
  function ActorActionOp(typeId: string, actionId: Option<string>): (r: Option<ActorOp>)
    ensures r.Some? <==> typeId in ActorActionTypes
  {
    if typeId == "attributes" then Some(RollAttribute(actionId))
    else if typeId == "skills" then Some(RollSkill(actionId))
    else if typeId == "armor" then Some(ArmorOp(actionId))
    else if typeId == "weapon" then Some(RollGear(actionId))
    else if typeId == "monsterAttack" then Some(MonsterAttackOp(actionId))
    else if typeId == "action" then Some(RollAction(actionId))
    else if typeId == "spell" then Some(RollSpell(actionId))
    else if typeId == "condition" then Some(ToggleCondition(actionId))
    else if typeId == "consumable" then Some(RollConsumable(actionId))
    else None
  }

  /** `combatants.filter(([key, combatant]) => !combatant.initiative)`. */
  function Pending(cs: seq<Combatant>): (r: seq<Combatant>)
    ensures forall c :: c in r <==> c in cs && !Rolled(c.initiative)
  {
    if cs == [] then []
    else if !Rolled(cs[0].initiative) then [cs[0]] + Pending(cs[1..])
    else Pending(cs[1..])
  }

  /** `cs[i]` is the first combatant of `actorId`. */
  predicate FirstAt(cs: seq<Combatant>, actorId: string, i: int) {
    0 <= i < |cs| && cs[i].actorId == actorId
    && forall j :: 0 <= j < i ==> cs[j].actorId != actorId
  }

  /** `combatants.find(([key, combatant]) => combatant.actorId === actorId)`:
      nothing when no combatant belongs to the actor, otherwise the first one. */
  function FirstOfActor(cs: seq<Combatant>, actorId: string): (r: Option<Combatant>)
    ensures r.None? <==> forall c :: c in cs ==> c.actorId != actorId
    ensures r.Some? ==> r.value.actorId == actorId && r.value in cs
    ensures forall i :: FirstAt(cs, actorId, i) ==> r == Some(cs[i])
  {
    if cs == [] then None
    else if cs[0].actorId == actorId then Some(cs[0])
    else
      FirstAtTail(cs, actorId);
      FirstOfActor(cs[1..], actorId)
  }

  /** Past a combatant of another actor, the first one of `actorId` is the
      first one of the rest. */
  lemma FirstAtTail(cs: seq<Combatant>, actorId: string)
    requires cs != [] && cs[0].actorId != actorId
    ensures forall i :: FirstAt(cs, actorId, i) ==> FirstAt(cs[1..], actorId, i - 1)
  {
    forall i | FirstAt(cs, actorId, i) ensures FirstAt(cs[1..], actorId, i - 1) {
      forall j | 0 <= j < i - 1 ensures cs[1..][j].actorId != actorId {
        assert cs[1..][j] == cs[j + 1];
      }
    }
  }

  /** `cs[i]` is the first combatant of `actorId` that has not rolled. */
  predicate FirstPendingAt(cs: seq<Combatant>, actorId: string, i: int) {
    0 <= i < |cs| && cs[i].actorId == actorId && !Rolled(cs[i].initiative)
    && forall j :: 0 <= j < i ==> cs[j].actorId != actorId || Rolled(cs[j].initiative)
  }

  /** `#handleUtilityAction`, case `initiative`: roll the actor's first
      combatant that has not rolled yet. */
  function InitiativeEffects(actor: Actor, combat: Option<Combat>): (r: seq<Effect>)
    ensures r == [Rejected] <==> combat.None?
    ensures combat.Some? && r != [] ==>
              exists c :: c in combat.value.combatants && c.actorId == actor.id
                          && !Rolled(c.initiative) && c.id != "" && r == [RollInitiative([c.id])]
  {
    match combat
    case None => [Rejected]
    case Some(c) =>
      if c.combatants == [] then []
      else match FirstOfActor(Pending(c.combatants), actor.id)
        case Some(cb) => if cb.id != "" then [RollInitiative([cb.id])] else []
        case None => []
  }

  /** `#handleUtilityAction`, case `endTurn`: `token.id` on a missing token throws. */
  function EndTurnEffects(token: Option<Token>, combat: Option<Combat>): (r: seq<Effect>)
    ensures r == [NextTurn] <==> token.Some? && combat.Some? && combat.value.currentTokenId == Some(token.value.id)
    ensures r == [Rejected] <==> token.None?
    ensures r == [] || r == [NextTurn] || r == [Rejected]
  {
    match token
    case None => [Rejected]
    case Some(t) => if CurrentTokenId(combat) == Str(t.id) then [NextTurn] else []
  }

  /** `#handleUtilityAction`. */
  function HandleUtilityAction(actor: Actor, token: Option<Token>, combat: Option<Combat>,
                               actionId: Option<string>): seq<Effect> {
    if actionId == Some("rests") then [OnActor(actor.id, Rest)]
    else if actionId == Some("pride") then [OnActor(actor.id, RollPride)]
    else if actionId == Some("reputation") then [OnActor(actor.id, RollReputation)]
    else if actionId == Some("initiative") then InitiativeEffects(actor, combat)
    else if actionId == Some("endTurn") then EndTurnEffects(token, combat)
    else []
  }

  /** `#handleAction`: the switch on the action type. */
  function HandleAction(actor: Actor, token: Option<Token>, combat: Option<Combat>,
                        typeId: string, actionId: Option<string>): (r: seq<Effect>)
    ensures typeId in ActorActionTypes ==> r == [OnActor(actor.id, ActorActionOp(typeId, actionId).value)]
    ensures typeId !in ActorActionTypes && typeId != "utility" ==> r == []
    ensures |r| <= 1
  {
    if typeId == "utility" then HandleUtilityAction(actor, token, combat, actionId)
    else match ActorActionOp(typeId, actionId)
      case Some(op) => [OnActor(actor.id, op)]
      case None => []
  }

  // ------------------------------------------------------- group initiative

  /** What one token adds to the group roll: the id of the first combatant of
      its actor, all combatants considered whether they have rolled or not,
      when that id is truthy. */
  function TokenCombatantId(cs: seq<Combatant>, t: Token): (r: seq<string>)
    ensures |r| <= 1
    ensures r != [] ==> exists c :: c in cs && c.actorId == t.documentActorId && c.id == r[0] && r[0] != ""
    ensures (forall c :: c in cs ==> c.actorId != t.documentActorId) ==> r == []
    ensures forall i :: FirstAt(cs, t.documentActorId, i) ==> r == if cs[i].id != "" then [cs[i].id] else []
  {
    match FirstOfActor(cs, t.documentActorId)
    case Some(c) => if c.id != "" then [c.id] else []
    case None => []
  }

  /** The ids the loop of `#handleGroupInitiative` pushes, token by token. */
  function CollectIds(cs: seq<Combatant>, tokens: seq<Token>): (r: seq<string>)
    ensures |r| <= |tokens|
  {
    if tokens == [] then []
    else CollectIds(cs, tokens[..|tokens| - 1]) + TokenCombatantId(cs, tokens[|tokens| - 1])
  }

  /** `#handleGroupInitiative`, as a value. */
  function GroupInitiative(tokens: seq<Token>, combat: Option<Combat>): seq<Effect> {
    match combat
    case None => [Rejected]
    case Some(c) =>
      if c.combatants == [] then []
      else
        var ids := CollectIds(c.combatants, tokens);
        if ids == [] then [] else [RollInitiative(ids)]
  }

  /** `#handleGroupInitiative(tokens)`. */
  method HandleGroupInitiative(tokens: seq<Token>, combat: Option<Combat>) returns (effects: seq<Effect>)
    ensures effects == GroupInitiative(tokens, combat)
  {
    if combat.None? {
      return [Rejected];
    }
    var combatants := combat.value.combatants;
    effects := [];
    if |combatants| != 0 {
      var combatantsId := [];
      for i := 0 to |tokens|
        invariant combatantsId == CollectIds(combatants, tokens[..i])
      {
        var actorId := tokens[i].documentActorId;
        var found := FirstOfActor(combatants, actorId);
        if found.Some? && found.value.id != "" {
          combatantsId := combatantsId + [found.value.id];
        }
        assert tokens[..i + 1][..i] == tokens[..i];
        assert CollectIds(combatants, tokens[..i + 1])
                 == CollectIds(combatants, tokens[..i]) + TokenCombatantId(combatants, tokens[i]);
      }
      assert tokens[..|tokens|] == tokens;
      if |combatantsId| != 0 {
        effects := [RollInitiative(combatantsId)];
      }
    }
  }

  // ------------------------------------------------------------- the click

  /** `knownCharacters.includes(token.actor?.type)`. */
  predicate KnownToken(t: Token) {
    t.actor.Some? && t.actor.value.actorType in KnownActorTypes
  }

  /** `canvas.tokens.controlled.filter(...)`: the tokens of characters and monsters, in order. */
  function KnownTokens(tokens: seq<Token>): (r: seq<Token>)
    ensures forall t :: t in r <==> t in tokens && KnownToken(t)
  {
    if tokens == [] then []
    else if KnownToken(tokens[0]) then [tokens[0]] + KnownTokens(tokens[1..])
    else KnownTokens(tokens[1..])
  }

  /** The `for` loop of `handleActionClick`: `#handleAction` for each token's actor in turn. */
  function FanOut(tokens: seq<Token>, combat: Option<Combat>, typeId: string, actionId: Option<string>): seq<Effect>
    requires forall t :: t in tokens ==> t.actor.Some?
  {
    if tokens == [] then []
    else
      var t := tokens[|tokens| - 1];
      FanOut(tokens[..|tokens| - 1], combat, typeId, actionId)
        + HandleAction(t.actor.value, Some(t), combat, typeId, actionId)
  }

  /** `this.actor?.id`, as `doRenderItem` receives the actor. */
  function ActorId(actor: Option<Actor>): Option<string> {
    if actor.Some? then Some(actor.value.id) else None
  }

  /** `handleActionClick`, as a value. */
  function ClickEffects(ctx: Context, encoded: string): seq<Effect> {
    var (typeId, actionId) := Decode(encoded);
    if typeId == "item" && ctx.renderItem then [Render(ActorId(ctx.actor), actionId)]
    else if ctx.actor.Some? then HandleAction(ctx.actor.value, ctx.token, ctx.combat, typeId, actionId)
    else
      var tokens := KnownTokens(ctx.controlled);
      if typeId == "utility" && actionId == Some("initiative") then GroupInitiative(tokens, ctx.combat)
      else FanOut(tokens, ctx.combat, typeId, actionId)
  }

  /** `handleActionClick(event, encodedValue)`. */
  method HandleActionClick(ctx: Context, encoded: string) returns (effects: seq<Effect>)
    ensures effects == ClickEffects(ctx, encoded)
  {
    var parts := Split(encoded, '|');
    var actionTypeId := parts[0];
    var actionId := if |parts| > 1 then Some(parts[1]) else None;
    if actionTypeId == "item" && ctx.renderItem {
      return [Render(ActorId(ctx.actor), actionId)];
    }
    if ctx.actor.Some? {
      return HandleAction(ctx.actor.value, ctx.token, ctx.combat, actionTypeId, actionId);
    }
    var controlledTokens := KnownTokens(ctx.controlled);
    if actionTypeId == "utility" && actionId == Some("initiative") {
      effects := HandleGroupInitiative(controlledTokens, ctx.combat);
    } else {
      assert forall t :: t in controlledTokens ==> t.actor.Some?;
      effects := [];
      for i := 0 to |controlledTokens|
        invariant effects == FanOut(controlledTokens[..i], ctx.combat, actionTypeId, actionId)
      {
        var token := controlledTokens[i];
        assert token in controlledTokens;
        var actor := token.actor.value;
        var more := HandleAction(actor, Some(token), ctx.combat, actionTypeId, actionId);
        effects := effects + more;
        assert controlledTokens[..i + 1][..i] == controlledTokens[..i];
      }
      assert controlledTokens[..|controlledTokens|] == controlledTokens;
    }
  }
}
