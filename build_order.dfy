/** The order in which `buildSystemActions` of `scripts/action-handler.js`
    fills the HUD: the builders run one after the other, and none of them
    awaits anything, so the host sees each builder's groups as one block, in
    the order of the builder calls. */
module BuildOrder {
  import opened Js
  import opened Foundry
  import opened Hud
  import opened Buckets
  import opened Menu
  import opened CombatProperties

  /** The rank of a group id in the character menu's builder order:
      attributes, skills, the combat tab, spell ranks, conditions,
      consumables, the token utilities, the character utilities. */
  function Phase(groupId: string): (p: nat)
    ensures p <= 8
  {
    if groupId == "attributes" then 0
    else if groupId == "skills" then 1
    else if groupId in ["weapon", "armor", "actions", "monsterAttack"] then 2
    else if groupId == "conditions" then 4
    else if groupId == "consumables" then 5
    else if groupId == "token" then 6
    else if groupId == "character_utils" then 7
    else if |groupId| >= 12 && groupId[..12] == "spells_rank_" then 3
    else 8
  }

  /** Every call of `calls` is about a group of phase `p`. */
  predicate InPhase(calls: seq<HostCall>, p: nat) {
    forall i :: 0 <= i < |calls| ==> Phase(calls[i].GroupId()) == p
  }

  /** The phases of the calls never go down. */
  predicate PhaseOrdered(calls: seq<HostCall>) {
    forall i, j :: 0 <= i < j < |calls| ==> Phase(calls[i].GroupId()) <= Phase(calls[j].GroupId())
  }

  /** Every phase of `calls` lies between `lo` and `hi`. */
  predicate PhasesWithin(calls: seq<HostCall>, lo: nat, hi: nat) {
    forall i :: 0 <= i < |calls| ==> lo <= Phase(calls[i].GroupId()) <= hi
  }

  /** An ordered run followed by a later single-phase block stays ordered. */
  lemma OrderedAppend(a: seq<HostCall>, b: seq<HostCall>, lo: nat, p: nat)
    requires lo <= p && PhaseOrdered(a) && PhasesWithin(a, lo, p) && InPhase(b, p)
    ensures PhaseOrdered(a + b) && PhasesWithin(a + b, lo, p)
  {
    forall i, j | 0 <= i < j < |a + b| ensures Phase((a + b)[i].GroupId()) <= Phase((a + b)[j].GroupId()) {
      if j < |a| {
        assert (a + b)[i] == a[i] && (a + b)[j] == a[j];
      } else if i < |a| {
        assert (a + b)[i] == a[i] && (a + b)[j] == b[j - |a|];
      } else {
        assert (a + b)[i] == b[i - |a|] && (a + b)[j] == b[j - |a|];
      }
    }
    forall i | 0 <= i < |a + b| ensures lo <= Phase((a + b)[i].GroupId()) <= p {
      if i < |a| { assert (a + b)[i] == a[i]; } else { assert (a + b)[i] == b[i - |a|]; }
    }
  }

  /** Two blocks of one phase make one block of that phase. */
  lemma InPhaseAppend(a: seq<HostCall>, b: seq<HostCall>, p: nat)
    requires InPhase(a, p) && InPhase(b, p)
    ensures InPhase(a + b, p)
  {
    forall i | 0 <= i < |a + b| ensures Phase((a + b)[i].GroupId()) == p {
      if i < |a| { assert (a + b)[i] == a[i]; } else { assert (a + b)[i] == b[i - |a|]; }
    }
  }

  /** Blocks of phases `0 <= p1 <= ... <= p8`, one after the other, are ordered. */
  lemma BlocksOrdered(b1: seq<HostCall>, b2: seq<HostCall>, b3: seq<HostCall>, b4: seq<HostCall>,
                      b5: seq<HostCall>, b6: seq<HostCall>, b7: seq<HostCall>, b8: seq<HostCall>,
                      p1: nat, p2: nat, p3: nat, p4: nat, p5: nat, p6: nat, p7: nat, p8: nat)
    requires p1 <= p2 <= p3 <= p4 <= p5 <= p6 <= p7 <= p8
    requires InPhase(b1, p1) && InPhase(b2, p2) && InPhase(b3, p3) && InPhase(b4, p4)
    requires InPhase(b5, p5) && InPhase(b6, p6) && InPhase(b7, p7) && InPhase(b8, p8)
    ensures PhaseOrdered(b1 + b2 + b3 + b4 + b5 + b6 + b7 + b8)
    ensures PhasesWithin(b1 + b2 + b3 + b4 + b5 + b6 + b7 + b8, p1, p8)
  {
    InPhaseOrdered(b1, p1);
    OrderedAppend(b1, b2, p1, p2);
    OrderedAppend(b1 + b2, b3, p1, p3);
    OrderedAppend(b1 + b2 + b3, b4, p1, p4);
    OrderedAppend(b1 + b2 + b3 + b4, b5, p1, p5);
    OrderedAppend(b1 + b2 + b3 + b4 + b5, b6, p1, p6);
    OrderedAppend(b1 + b2 + b3 + b4 + b5 + b6, b7, p1, p7);
    OrderedAppend(b1 + b2 + b3 + b4 + b5 + b6 + b7, b8, p1, p8);
  }

  /** A single-phase block is ordered. */
  lemma InPhaseOrdered(calls: seq<HostCall>, p: nat)
    requires InPhase(calls, p)
    ensures PhaseOrdered(calls) && PhasesWithin(calls, p, p)
  {
  }

  /** The phase of a spell-rank group id. */
  lemma RankPhase(r: nat)
    ensures Phase("spells_rank_" + IntToString(r)) == 3
  {
    var id := "spells_rank_" + IntToString(r);
    assert id[..12] == "spells_rank_";
    assert id[0] == 's' && id[1] == 'p' && id[2] == 'e';
  }

  // ---------------------------------------------------------- the builders

  /** The two calls of a group are in the group's phase. */
  lemma GroupCallsPhase(g: Group, parent: string, actions: seq<Action>, p: nat)
    requires Phase(g.id) == p
    ensures InPhase(GroupCalls(g, parent, actions), p)
  {
  }

  lemma AttributesPhase(h: Host, config: Config, actor: Actor)
    ensures InPhase(AttributeCalls(h, config, actor), 0)
  {
    assert Phase(AttributesGroup(h).id) == 0;
  }

  lemma SkillsPhase(h: Host, actor: Actor)
    ensures InPhase(SkillCalls(h, actor), 1)
  {
    assert Phase(SkillsGroup(h).id) == 1;
  }

  /** Buckets keyed `weapon` or `armor` give groups of the combat phase. */
  lemma {:induction false} TypeGroupsPhase(h: Host, b: Buckets<string, Action>)
    requires forall i :: 0 <= i < |b| ==> b[i].0 == "weapon" || b[i].0 == "armor"
    ensures InPhase(TypeGroupCalls(h, b), 2)
  {
    if b != [] {
      var init := b[..|b| - 1];
      var (k, acts) := b[|b| - 1];
      TypeGroupsPhase(h, init);
      assert Phase(TypeGroup(h, k).id) == 2;
      GroupCallsPhase(TypeGroup(h, k), "combat", acts, 2);
      InPhaseAppend(TypeGroupCalls(h, init), GroupCalls(TypeGroup(h, k), "combat", acts), 2);
    }
  }

  lemma ManeuversPhase(h: Host)
    ensures InPhase(ManeuverCalls(h), 2)
  {
    assert Phase(ManeuversGroup(h).id) == 2;
    GroupCallsPhase(ManeuversGroup(h), "combat", ManeuverActionsOf(h, Maneuvers), 2);
  }

  /** Every group of the standard combat tab is `weapon`, `armor` or `actions`. */
  lemma CombatPhase(h: Host, actor: Actor)
    ensures InPhase(CombatCalls(h, actor), 2)
  {
    if CombatBuckets(h, actor.items).Some? {
      var b := CombatBuckets(h, actor.items).value;
      CombatBucketsSpec(h, actor.items);
      forall i | 0 <= i < |b| ensures b[i].0 == "weapon" || b[i].0 == "armor" {
        assert b[i].0 in KeySet(b);
      }
      TypeGroupsPhase(h, b);
      ManeuversPhase(h);
      InPhaseAppend(TypeGroupCalls(h, b), ManeuverCalls(h), 2);
    }
  }

  lemma MonsterCombatPhase(h: Host, actor: Actor)
    ensures InPhase(MonsterCombatCalls(h, actor), 2)
  {
    if MonsterScan(h, actor.items).Some? {
      var attacks := MonsterScan(h, actor.items).value;
      var a := GroupCalls(MonsterAttackGroup(h), "combat", [RandomAttackAction(h)] + attacks);
      var m := GroupCalls(MonsterArmorGroup(h), "combat", [MonsterArmorAction(h, actor.armor)]);
      assert Phase(MonsterAttackGroup(h).id) == 2;
      assert Phase(MonsterArmorGroup(h).id) == 2;
      ManeuversPhase(h);
      InPhaseAppend(a, m, 2);
      InPhaseAppend(a + m, ManeuverCalls(h), 2);
    }
  }

  /** Rank buckets give groups of the spell phase. */
  lemma {:induction false} RankGroupsPhase(h: Host, b: Buckets<nat, Action>)
    ensures InPhase(RankGroupCalls(h, b), 3)
  {
    if b != [] {
      var init := b[..|b| - 1];
      var (r, acts) := b[|b| - 1];
      RankGroupsPhase(h, init);
      RankPhase(r);
      GroupCallsPhase(RankGroup(h, r), "spells", acts, 3);
      InPhaseAppend(RankGroupCalls(h, init), GroupCalls(RankGroup(h, r), "spells", acts), 3);
    }
  }

  lemma SpellsPhase(h: Host, actor: Actor)
    ensures InPhase(SpellCalls(h, actor), 3)
  {
    if SpellScan(h, actor.items).Some? {
      RankGroupsPhase(h, SpellScan(h, actor.items).value);
    }
  }

  lemma ConditionsPhase(h: Host, actor: Actor)
    ensures InPhase(ConditionCalls(h, actor), 4)
  {
    assert Phase(ConditionsGroup(h).id) == 4;
  }

  lemma ConsumablesPhase(h: Host, config: Config, actor: Actor)
    ensures InPhase(ConsumableCalls(h, config, actor), 5)
  {
    assert Phase(ConsumablesGroup(h).id) == 5;
  }

  lemma TokenUtilityPhase(h: Host, token: Option<Token>, combat: Option<Combat>, controlled: seq<Token>)
    ensures InPhase(TokenUtilityCalls(h, token, combat, controlled), 6)
  {
    var acts := TokenUtilityActions(h, token, combat, controlled);
    assert TokenUtilityCalls(h, token, combat, controlled) == GroupCalls(TokenGroup(h), "utility", acts);
    assert Phase(TokenGroup(h).id) == 6;
    GroupCallsPhase(TokenGroup(h), "utility", acts, 6);
  }

  lemma CharacterUtilityPhase(h: Host)
    ensures InPhase(CharacterUtilityCalls(h), 7)
  {
    assert Phase(CharacterUtilityGroup(h).id) == 7;
    GroupCallsPhase(CharacterUtilityGroup(h), "utility", CharacterUtilityActions(h), 7);
  }

  // ------------------------------------------------------------ whole menus

  /** A character's menu lists attributes, skills, combat, spells,
      conditions, consumables, token utilities and character utilities, in
      that order, each builder's groups together. */
  lemma CharacterMenuOrdered(h: Host, config: Config, actor: Actor, token: Option<Token>,
                             combat: Option<Combat>, controlled: seq<Token>)
    ensures PhaseOrdered(CharacterCalls(h, config, actor, token, combat, controlled))
  {
    AttributesPhase(h, config, actor);
    SkillsPhase(h, actor);
    CombatPhase(h, actor);
    SpellsPhase(h, actor);
    ConditionsPhase(h, actor);
    ConsumablesPhase(h, config, actor);
    TokenUtilityPhase(h, token, combat, controlled);
    CharacterUtilityPhase(h);
    BlocksOrdered(AttributeCalls(h, config, actor), SkillCalls(h, actor), CombatCalls(h, actor),
                  SpellCalls(h, actor), ConditionCalls(h, actor), ConsumableCalls(h, config, actor),
                  TokenUtilityCalls(h, token, combat, controlled), CharacterUtilityCalls(h),
                  0, 1, 2, 3, 4, 5, 6, 7);
  }

  /** A monster's menu lists attributes, skills, the monster combat tab,
      spells and token utilities, in that order, and never a condition,
      consumable or character-utility group. */
  lemma MonsterMenuOrdered(h: Host, config: Config, actor: Actor, token: Option<Token>,
                           combat: Option<Combat>, controlled: seq<Token>)
    ensures PhaseOrdered(MonsterCalls(h, config, actor, token, combat, controlled))
    ensures forall i :: 0 <= i < |MonsterCalls(h, config, actor, token, combat, controlled)| ==>
              Phase(MonsterCalls(h, config, actor, token, combat, controlled)[i].GroupId()) in {0, 1, 2, 3, 6}
  {
    var a := AttributeCalls(h, config, actor);
    var s := SkillCalls(h, actor);
    var m := MonsterCombatCalls(h, actor);
    var sp := SpellCalls(h, actor);
    var t := TokenUtilityCalls(h, token, combat, controlled);
    AttributesPhase(h, config, actor);
    SkillsPhase(h, actor);
    MonsterCombatPhase(h, actor);
    SpellsPhase(h, actor);
    TokenUtilityPhase(h, token, combat, controlled);
    BlocksOrdered(a, s, m, sp, t, [], [], [], 0, 1, 2, 3, 6, 6, 6, 6);
    assert MonsterCalls(h, config, actor, token, combat, controlled) == a + s + m + sp + t + [] + [] + [];
    MonsterPhases(a, s, m, sp, t);
  }

  /** Blocks of phases 0, 1, 2, 3 and 6 hold no group of phase 4, 5 or 7. */
  lemma MonsterPhases(a: seq<HostCall>, s: seq<HostCall>, m: seq<HostCall>, sp: seq<HostCall>, t: seq<HostCall>)
    requires InPhase(a, 0) && InPhase(s, 1) && InPhase(m, 2) && InPhase(sp, 3) && InPhase(t, 6)
    ensures forall i :: 0 <= i < |a + s + m + sp + t| ==> Phase((a + s + m + sp + t)[i].GroupId()) in {0, 1, 2, 3, 6}
  {
    forall i | 0 <= i < |a + s + m + sp + t| ensures Phase((a + s + m + sp + t)[i].GroupId()) in {0, 1, 2, 3, 6} {
      var c := (a + s + m + sp + t)[i];
      if i < |a| { assert c == a[i]; }
      else if i < |a + s| { assert c == s[i - |a|]; }
      else if i < |a + s + m| { assert c == m[i - |a + s|]; }
      else if i < |a + s + m + sp| { assert c == sp[i - |a + s + m|]; }
      else { assert c == t[i - |a + s + m + sp|]; }
    }
  }

  /** What `buildSystemActions` builds, by the selected actor: the ordered
      character or monster menu, only the token utilities when no actor is
      selected, and nothing for any other actor type. */
  lemma MenuByActorType(h: Host, config: Config, actor: Option<Actor>, token: Option<Token>,
                        combat: Option<Combat>, controlled: seq<Token>)
    ensures actor.None? ==> SystemCalls(h, config, actor, token, combat, controlled)
                              == TokenUtilityCalls(h, token, combat, controlled)
    ensures actor.Some? && actor.value.actorType !in KnownActorTypes ==>
              SystemCalls(h, config, actor, token, combat, controlled) == []
    ensures actor.Some? && actor.value.actorType in KnownActorTypes ==>
              PhaseOrdered(SystemCalls(h, config, actor, token, combat, controlled))
  {
    if actor.Some? && actor.value.actorType == "character" {
      CharacterMenuOrdered(h, config, actor.value, token, combat, controlled);
    } else if actor.Some? && actor.value.actorType == "monster" {
      MonsterMenuOrdered(h, config, actor.value, token, combat, controlled);
    }
  }
}
