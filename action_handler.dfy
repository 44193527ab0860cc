/** The menu builder of `scripts/action-handler.js`: an object whose
    `buildSystemActions` runs the category builders in turn, each of which
    fills local lists in a loop and then appends to the host through
    `addGroup`/`addActions`. Those host calls are kept, in order, in the
    field `trace`; each builder is proved to append exactly what the
    matching function of `Menu` says. */
module ActionHandlers {
  import opened Js
  import opened Foundry
  import opened Hud
  import opened Buckets
  import opened Menu

  class ActionHandler {
    /** Translation and images, from the host. */
    const host: Host
    /** `game.fbl.config`. */
    const config: Config
    /** The controlled tokens (`Utils.getControlledTokens()`). */
    const controlled: seq<Token>
    /** `game.combat`. */
    const combat: Option<Combat>
    /** `this.actor` and `this.token`, set by the host before a build. */
    const actor: Option<Actor>
    const token: Option<Token>

    var actors: seq<Actor>
    var actorType: Option<string>
    /** Every `addGroup`/`addActions` call made so far. */
    var trace: seq<HostCall>

    constructor (host: Host, config: Config, controlled: seq<Token>, combat: Option<Combat>,
                 actor: Option<Actor>, token: Option<Token>)
      ensures this.host == host && this.config == config && this.controlled == controlled
      ensures this.combat == combat && this.actor == actor && this.token == token
      ensures actors == [] && actorType == None && trace == []
    {
      this.host := host;
      this.config := config;
      this.controlled := controlled;
      this.combat := combat;
      this.actor := actor;
      this.token := token;
      actors := [];
      actorType := None;
      trace := [];
    }

    /** `buildSystemActions`: the actors in view, then the builders for the
        selected actor's type. */
    method BuildSystemActions()
      modifies this
      ensures actors == if actor.None? then GetActors(controlled) else [actor.value]
      ensures actorType == if actor.None? then None else Some(actor.value.actorType)
      ensures trace == old(trace) + SystemCalls(host, config, actor, token, combat, controlled)
    {
      actors := if actor.None? then GetActors(controlled) else [actor.value];
      actorType := if actor.None? then None else Some(actor.value.actorType);
      if actorType == Some("character") {
        BuildCharacterActions();
      } else if actorType == Some("monster") {
        BuildMonsterActions();
      } else if actor.None? {
        BuildMultipleTokenActions();
      }
    }

    method BuildCharacterActions()
      requires actor.Some?
      modifies this`trace
      ensures trace == old(trace) + CharacterCalls(host, config, actor.value, token, combat, controlled)
    {
      ghost var a := actor.value;
      BuildAttributes();
      ghost var calls := AttributeCalls(host, config, a);
      BuildSkills();
      Appended(old(trace), calls, SkillCalls(host, a));
      calls := calls + SkillCalls(host, a);
      BuildCombat();
      Appended(old(trace), calls, CombatCalls(host, a));
      calls := calls + CombatCalls(host, a);
      BuildSpells();
      Appended(old(trace), calls, SpellCalls(host, a));
      calls := calls + SpellCalls(host, a);
      BuildConditions();
      Appended(old(trace), calls, ConditionCalls(host, a));
      calls := calls + ConditionCalls(host, a);
      BuildConsumables();
      Appended(old(trace), calls, ConsumableCalls(host, config, a));
      calls := calls + ConsumableCalls(host, config, a);
      BuildTokenUtility();
      Appended(old(trace), calls, TokenUtilityCalls(host, token, combat, controlled));
      calls := calls + TokenUtilityCalls(host, token, combat, controlled);
      BuildCharacterUtility();
      Appended(old(trace), calls, CharacterUtilityCalls(host));
    }

    method BuildMonsterActions()
      requires actor.Some?
      modifies this`trace
      ensures trace == old(trace) + MonsterCalls(host, config, actor.value, token, combat, controlled)
    {
      ghost var a := actor.value;
      BuildAttributes();
      ghost var calls := AttributeCalls(host, config, a);
      BuildSkills();
      Appended(old(trace), calls, SkillCalls(host, a));
      calls := calls + SkillCalls(host, a);
      BuildMonsterCombat();
      Appended(old(trace), calls, MonsterCombatCalls(host, a));
      calls := calls + MonsterCombatCalls(host, a);
      BuildSpells();
      Appended(old(trace), calls, SpellCalls(host, a));
      calls := calls + SpellCalls(host, a);
      BuildTokenUtility();
      Appended(old(trace), calls, TokenUtilityCalls(host, token, combat, controlled));
    }

    method BuildMultipleTokenActions()
      modifies this`trace
      ensures trace == old(trace) + TokenUtilityCalls(host, token, combat, controlled)
    {
      BuildTokenUtility();
    }

    /** The attribute group: one action per canonical key. */
    method BuildAttributes()
      requires actor.Some?
      modifies this`trace
      ensures trace == old(trace) + AttributeCalls(host, config, actor.value)
    {
      var attributes := actor.value.attribute;
      if LengthIsZero(attributes) { return; }
      var actions := [];
      for i := 0 to |attributes|
        invariant actions == AttributeActions(host, config.attributes, attributes[..i])
      {
        assert attributes[..i + 1][..i] == attributes[..i];
        var (id, attribute) := attributes[i];
        if id !in config.attributes { continue; }
        actions := actions + [AttributeAction(host, id, attribute)];
      }
      assert attributes[..|attributes|] == attributes;
      var groupData := AttributesGroup(host);
      trace := trace + [AddGroup(groupData, "character"), AddActions(actions, groupData)];
    }

    /** The skill group, or nothing once a skill's attribute is missing. */
    method BuildSkills()
      requires actor.Some?
      modifies this`trace
      ensures trace == old(trace) + SkillCalls(host, actor.value)
    {
      var skills := actor.value.skill;
      if LengthIsZero(skills) { return; }
      var actions := [];
      for i := 0 to |skills|
        invariant SkillActions(host, actor.value.attribute, skills[..i]) == Some(actions)
      {
        assert skills[..i + 1][..i] == skills[..i];
        var (id, skill) := skills[i];
        var attribute := Lookup(actor.value.attribute, skill.attribute);
        if attribute.None? {
          // `attribute.label` throws; the catch logs and returns
          SkillsFailFromPrefix(host, actor.value.attribute, skills, i + 1);
          return;
        }
        actions := actions + [SkillAction(host, id, skill, attribute.value)];
      }
      assert skills[..|skills|] == skills;
      var groupData := SkillsGroup(host);
      trace := trace + [AddGroup(groupData, "character"), AddActions(actions, groupData)];
    }

    /** Weapon and armor groups in first-seen order, the aggregate armor
        action, then the nine maneuvers. */
    method BuildCombat()
      requires actor.Some?
      modifies this`trace
      ensures trace == old(trace) + CombatCalls(host, actor.value)
    {
      var items := actor.value.items;
      if LengthIsZero(items) { return; }
      var actionsMap: Buckets<string, Action> := [];
      var armorTotal := "";
      for i := 0 to |items|
        invariant CombatScan(host, items[..i]) == Some((actionsMap, armorTotal))
      {
        assert items[..i + 1][..i] == items[..i];
        var item := items[i];
        var actionType := item.Type();
        if actionType !in CombatTypes { continue; }
        var action;
        if item.system.WeaponData? {
          action := WeaponAction(host, item);
        } else if item.system.ArmorData? {
          action := ArmorAction(host, item);
          armorTotal := armorTotal + IntToString(item.system.bonus.value);
        } else {
          // a missing field throws; the catch logs and returns
          CombatFailsFromPrefix(host, items, i + 1);
          return;
        }
        actionsMap := Push(actionsMap, actionType, action);
      }
      assert items[..|items|] == items;
      actionsMap := Push(actionsMap, "armor", TotalArmorAction(host, armorTotal));
      AddTypeGroups(actionsMap);
      AddManeuvers();
    }

    /** One group per item-type bucket under `combat`, in key order. */
    method AddTypeGroups(actionsMap: Buckets<string, Action>)
      modifies this`trace
      ensures trace == old(trace) + TypeGroupCalls(host, actionsMap)
    {
      for j := 0 to |actionsMap|
        invariant trace == old(trace) + TypeGroupCalls(host, actionsMap[..j])
      {
        assert actionsMap[..j + 1][..j] == actionsMap[..j];
        var groupData := TypeGroup(host, actionsMap[j].0);
        trace := trace + [AddGroup(groupData, "combat"), AddActions(actionsMap[j].1, groupData)];
      }
      assert actionsMap[..|actionsMap|] == actionsMap;
    }

    /** The `actions` group of the nine fixed maneuvers, under `combat`. */
    method AddManeuvers()
      modifies this`trace
      ensures trace == old(trace) + ManeuverCalls(host)
    {
      var actions := [];
      for k := 0 to |Maneuvers|
        invariant actions == ManeuverActionsOf(host, Maneuvers[..k])
      {
        assert Maneuvers[..k + 1][..k] == Maneuvers[..k];
        actions := actions + [ManeuverAction(host, Maneuvers[k])];
      }
      assert Maneuvers[..|Maneuvers|] == Maneuvers;
      var groupData := ManeuversGroup(host);
      trace := trace + [AddGroup(groupData, "combat"), AddActions(actions, groupData)];
    }

    /** The monster's attack group headed by `random`, its single armor
        action, then the nine maneuvers. */
    method BuildMonsterCombat()
      requires actor.Some?
      modifies this`trace
      ensures trace == old(trace) + MonsterCombatCalls(host, actor.value)
    {
      var items := actor.value.items;
      if LengthIsZero(items) { return; }
      var attacks := [];
      for i := 0 to |items|
        invariant MonsterScan(host, items[..i]) == Some(attacks)
      {
        assert items[..i + 1][..i] == items[..i];
        var item := items[i];
        if item.Type() != "monsterAttack" { continue; }
        if !item.system.MonsterAttackData? {
          // a missing field throws; the catch logs and returns
          MonsterFailsFromPrefix(host, items, i + 1);
          return;
        }
        attacks := attacks + [MonsterAttackAction(host, item)];
      }
      assert items[..|items|] == items;
      var attackGroup := MonsterAttackGroup(host);
      trace := trace + [AddGroup(attackGroup, "combat"), AddActions([RandomAttackAction(host)] + attacks, attackGroup)];
      var armorGroup := MonsterArmorGroup(host);
      trace := trace + [AddGroup(armorGroup, "combat"), AddActions([MonsterArmorAction(host, actor.value.armor)], armorGroup)];
      AddManeuvers();
    }

    /** One group per spell rank, in ascending rank order. */
    method BuildSpells()
      requires actor.Some?
      modifies this`trace
      ensures trace == old(trace) + SpellCalls(host, actor.value)
    {
      var items := actor.value.items;
      if LengthIsZero(items) { return; }
      var actionsMap: Buckets<nat, Action> := [];
      for i := 0 to |items|
        invariant SpellScan(host, items[..i]) == Some(actionsMap)
      {
        assert items[..i + 1][..i] == items[..i];
        var item := items[i];
        if item.Type() != "spell" { continue; }
        if !item.system.SpellData? {
          // a missing field throws; the catch logs and returns
          SpellsFailFromPrefix(host, items, i + 1);
          return;
        }
        actionsMap := PushRanked(actionsMap, item.system.rank, SpellAction(host, item));
      }
      assert items[..|items|] == items;
      for j := 0 to |actionsMap|
        invariant trace == old(trace) + RankGroupCalls(host, actionsMap[..j])
      {
        assert actionsMap[..j + 1][..j] == actionsMap[..j];
        var groupData := RankGroup(host, actionsMap[j].0);
        trace := trace + [AddGroup(groupData, "spells"), AddActions(actionsMap[j].1, groupData)];
      }
      assert actionsMap[..|actionsMap|] == actionsMap;
    }

    method BuildConditions()
      requires actor.Some?
      modifies this`trace
      ensures trace == old(trace) + ConditionCalls(host, actor.value)
    {
      var conditions := actor.value.condition;
      if LengthIsZero(conditions) { return; }
      var actions := [];
      for i := 0 to |conditions|
        invariant actions == ConditionActions(host, conditions[..i])
      {
        assert conditions[..i + 1][..i] == conditions[..i];
        var (id, condition) := conditions[i];
        actions := actions + [ConditionAction(host, id, condition)];
      }
      assert conditions[..|conditions|] == conditions;
      trace := trace + [AddActions(actions, ConditionsGroup(host))];
    }

    method BuildConsumables()
      requires actor.Some?
      modifies this`trace
      ensures trace == old(trace) + ConsumableCalls(host, config, actor.value)
    {
      var consumables := actor.value.consumable;
      if LengthIsZero(consumables) { return; }
      var actions := [];
      for i := 0 to |consumables|
        invariant actions == ConsumableActions(host, config.consumableDice, consumables[..i])
      {
        assert consumables[..i + 1][..i] == consumables[..i];
        var (id, consumable) := consumables[i];
        actions := actions + [ConsumableAction(host, config.consumableDice, id, consumable)];
      }
      assert consumables[..|consumables|] == consumables;
      trace := trace + [AddActions(actions, ConsumablesGroup(host))];
    }

    method BuildTokenUtility()
      modifies this`trace
      ensures trace == old(trace) + TokenUtilityCalls(host, token, combat, controlled)
    {
      var groupData := TokenGroup(host);
      trace := trace + [AddGroup(groupData, "utility"),
                        AddActions(TokenUtilityActions(host, token, combat, controlled), groupData)];
    }

    method BuildCharacterUtility()
      modifies this`trace
      ensures trace == old(trace) + CharacterUtilityCalls(host)
    {
      var groupData := CharacterUtilityGroup(host);
      trace := trace + [AddGroup(groupData, "utility"), AddActions(CharacterUtilityActions(host), groupData)];
    }
  }

  /** Appending to the trace in two steps is appending the two parts at once;
      kept as a lemma so that the builders' proofs see only this fact. */
  lemma Appended(start: seq<HostCall>, before: seq<HostCall>, more: seq<HostCall>)
    ensures start + before + more == start + (before + more)
  {
  }

  // Once a scan has failed on a prefix it fails on the whole list.

  lemma SkillsFailFromPrefix(h: Host, attributes: seq<(string, Attribute)>, skills: seq<(string, Skill)>, n: nat)
    requires n <= |skills| && SkillActions(h, attributes, skills[..n]).None?
    ensures SkillActions(h, attributes, skills).None?
    decreases |skills| - n
  {
    if n < |skills| {
      assert skills[..n + 1][..n] == skills[..n];
      SkillsFailFromPrefix(h, attributes, skills, n + 1);
    } else {
      assert skills[..n] == skills;
    }
  }

  lemma CombatFailsFromPrefix(h: Host, items: seq<Item>, n: nat)
    requires n <= |items| && CombatScan(h, items[..n]).None?
    ensures CombatScan(h, items).None?
    decreases |items| - n
  {
    if n < |items| {
      assert items[..n + 1][..n] == items[..n];
      CombatFailsFromPrefix(h, items, n + 1);
    } else {
      assert items[..n] == items;
    }
  }

  lemma MonsterFailsFromPrefix(h: Host, items: seq<Item>, n: nat)
    requires n <= |items| && MonsterScan(h, items[..n]).None?
    ensures MonsterScan(h, items).None?
    decreases |items| - n
  {
    if n < |items| {
      assert items[..n + 1][..n] == items[..n];
      MonsterFailsFromPrefix(h, items, n + 1);
    } else {
      assert items[..n] == items;
    }
  }

  lemma SpellsFailFromPrefix(h: Host, items: seq<Item>, n: nat)
    requires n <= |items| && SpellScan(h, items[..n]).None?
    ensures SpellScan(h, items).None?
    decreases |items| - n
  {
    if n < |items| {
      assert items[..n + 1][..n] == items[..n];
      SpellsFailFromPrefix(h, items, n + 1);
    } else {
      assert items[..n] == items;
    }
  }
}
