/** What the dispatcher of `scripts/roll-handler.js` promises: which effects
    a click has, for one actor and for many, and how the two initiative
    rules choose the combatants they roll. */
module RollProperties {
  import opened Js
  import opened Foundry
  import opened RollHandlers
  import Menu

  // ------------------------------------------------------------- one actor

  /** Every action type of the switch other than `utility` makes exactly one
      call on the actor; a weapon always rolls gear, whatever the id. */
  lemma OneOperationPerAction(actor: Actor, token: Option<Token>, combat: Option<Combat>,
                              typeId: string, actionId: Option<string>)
    ensures typeId in ActorActionTypes ==>
              exists op :: HandleAction(actor, token, combat, typeId, actionId) == [OnActor(actor.id, op)]
    ensures HandleAction(actor, token, combat, "weapon", actionId) == [OnActor(actor.id, RollGear(actionId))]
    ensures typeId !in ActorActionTypes + ["utility"] ==> HandleAction(actor, token, combat, typeId, actionId) == []
  {
    if typeId in ActorActionTypes {
      var op := ActorActionOp(typeId, actionId).value;
      assert HandleAction(actor, token, combat, typeId, actionId) == [OnActor(actor.id, op)];
    }
  }

  /** The character utilities the menu offers each make exactly one call on
      the actor: rest, then the pride roll, then the reputation roll. */
  lemma CharacterUtilityClicks(h: Menu.Host, actor: Actor, token: Option<Token>, combat: Option<Combat>)
    ensures var offered := Menu.CharacterUtilityActions(h);
            forall i :: 0 <= i < |offered| ==>
              HandleAction(actor, token, combat, "utility", Some(offered[i].id))
                == [OnActor(actor.id, [Rest, RollPride, RollReputation][i])]
  {
  }

  /** A utility id the switch does not know does nothing. */
  lemma UnknownUtilityDoesNothing(actor: Actor, token: Option<Token>, combat: Option<Combat>, actionId: Option<string>)
    requires actionId !in [Some("rests"), Some("pride"), Some("reputation"), Some("initiative"), Some("endTurn")]
    ensures HandleAction(actor, token, combat, "utility", actionId) == []
  {
  }

  /** Filtering out the combatants that rolled and then taking the actor's
      first one is taking the actor's first combatant that has not rolled. */
  lemma {:induction false} FirstPendingIsFirst(cs: seq<Combatant>, actorId: string)
    ensures FirstOfActor(Pending(cs), actorId).Some? ==>
              exists i :: FirstPendingAt(cs, actorId, i) && cs[i] == FirstOfActor(Pending(cs), actorId).value
  {
    if cs != [] {
      var tail := cs[1..];
      FirstPendingIsFirst(tail, actorId);
      if !Rolled(cs[0].initiative) && cs[0].actorId == actorId {
        assert Pending(cs) == [cs[0]] + Pending(tail);
        assert FirstPendingAt(cs, actorId, 0);
      } else {
        assert FirstOfActor(Pending(cs), actorId) == FirstOfActor(Pending(tail), actorId) by {
          if !Rolled(cs[0].initiative) {
            assert Pending(cs) == [cs[0]] + Pending(tail);
            assert (Pending(cs))[1..] == Pending(tail);
          }
        }
        if FirstOfActor(Pending(tail), actorId).Some? {
          var i :| FirstPendingAt(tail, actorId, i) && tail[i] == FirstOfActor(Pending(tail), actorId).value;
          assert FirstPendingAt(cs, actorId, i + 1) by {
            forall j | 0 <= j < i + 1 ensures cs[j].actorId != actorId || Rolled(cs[j].initiative) {
              if j > 0 { assert cs[j] == tail[j - 1]; }
            }
          }
        }
      }
    }
  }

  /** There is at most one first pending combatant. */
  lemma FirstPendingUnique(cs: seq<Combatant>, actorId: string, i: int, k: int)
    requires FirstPendingAt(cs, actorId, i) && FirstPendingAt(cs, actorId, k)
    ensures i == k
  {
  }

  /** Single-actor initiative rolls exactly the actor's first combatant that
      has not rolled, when its id is truthy, and nothing when every combatant
      of the actor has rolled. */
  lemma SingleActorInitiative(actor: Actor, token: Option<Token>, c: Combat)
    ensures forall i :: FirstPendingAt(c.combatants, actor.id, i) ==>
              HandleAction(actor, token, Some(c), "utility", Some("initiative"))
                == if c.combatants[i].id != "" then [RollInitiative([c.combatants[i].id])] else []
    ensures (forall cb :: cb in c.combatants && cb.actorId == actor.id ==> Rolled(cb.initiative)) ==>
              HandleAction(actor, token, Some(c), "utility", Some("initiative")) == []
  {
    var cs := c.combatants;
    FirstPendingIsFirst(cs, actor.id);
    forall i | FirstPendingAt(cs, actor.id, i)
      ensures HandleAction(actor, token, Some(c), "utility", Some("initiative"))
                == if cs[i].id != "" then [RollInitiative([cs[i].id])] else []
    {
      assert cs[i] in Pending(cs);
      var k :| FirstPendingAt(cs, actor.id, k) && cs[k] == FirstOfActor(Pending(cs), actor.id).value;
      FirstPendingUnique(cs, actor.id, i, k);
    }
  }

  /** `endTurn` advances the combat exactly when the turn is this token's. */
  lemma EndTurnOnlyOnOwnTurn(actor: Actor, t: Token, combat: Option<Combat>)
    ensures (HandleAction(actor, Some(t), combat, "utility", Some("endTurn")) == [NextTurn])
              <==> (combat.Some? && combat.value.currentTokenId == Some(t.id))
    ensures (HandleAction(actor, Some(t), combat, "utility", Some("endTurn")) != [NextTurn])
              ==> (HandleAction(actor, Some(t), combat, "utility", Some("endTurn")) == [])
  {
  }

  // -------------------------------------------------------- group initiative

  /** The ids collected for a run of tokens are those of its two halves, in order. */
  lemma {:induction false} CollectIdsAppend(cs: seq<Combatant>, ts: seq<Token>, us: seq<Token>)
    ensures CollectIds(cs, ts + us) == CollectIds(cs, ts) + CollectIds(cs, us)
    decreases |us|
  {
    if us == [] {
      assert ts + us == ts;
    } else {
      var last := us[|us| - 1];
      assert (ts + us)[..|ts + us| - 1] == ts + us[..|us| - 1];
      CollectIdsAppend(cs, ts, us[..|us| - 1]);
    }
  }

  /** An id is collected iff some token contributes it. */
  lemma {:induction false} CollectIdsMembers(cs: seq<Combatant>, ts: seq<Token>)
    ensures forall x :: x in CollectIds(cs, ts) <==> exists t :: t in ts && x in TokenCombatantId(cs, t)
  {
    if ts != [] {
      var init := ts[..|ts| - 1];
      var last := ts[|ts| - 1];
      CollectIdsMembers(cs, init);
      assert ts == init + [last];
      forall x ensures x in CollectIds(cs, ts) <==> exists t :: t in ts && x in TokenCombatantId(cs, t) {
        if x in CollectIds(cs, ts) && x !in CollectIds(cs, init) {
          assert x in TokenCombatantId(cs, last);
        }
        if exists t :: t in ts && x in TokenCombatantId(cs, t) {
          var t :| t in ts && x in TokenCombatantId(cs, t);
          if t != last { assert t in init; }
        }
      }
    }
  }

  /** Group initiative sends one roll for all collected ids when there are
      any, and nothing otherwise; the combatants' own initiative plays no part. */
  lemma GroupInitiativeRollsCollected(tokens: seq<Token>, c: Combat)
    requires c.combatants != []
    ensures GroupInitiative(tokens, Some(c)) == [] <==>
              forall t :: t in tokens ==> TokenCombatantId(c.combatants, t) == []
    ensures GroupInitiative(tokens, Some(c)) != [] ==>
              GroupInitiative(tokens, Some(c)) == [RollInitiative(CollectIds(c.combatants, tokens))]
  {
    var cs := c.combatants;
    CollectIdsMembers(cs, tokens);
    if CollectIds(cs, tokens) != [] {
      assert CollectIds(cs, tokens)[0] in CollectIds(cs, tokens);
    }
    forall t | t in tokens && TokenCombatantId(cs, t) != [] ensures CollectIds(cs, tokens) != [] {
      var x := TokenCombatantId(cs, t)[0];
      assert x in TokenCombatantId(cs, t);
      assert x in CollectIds(cs, tokens);
    }
  }

  /** An actor with a combatant at `k` has a first combatant, at or before `k`. */
  lemma {:induction false} FirstAtExists(cs: seq<Combatant>, actorId: string, k: int)
    requires 0 <= k < |cs| && cs[k].actorId == actorId
    ensures exists i :: 0 <= i <= k && FirstAt(cs, actorId, i)
    decreases k
  {
    if exists j :: 0 <= j < k && cs[j].actorId == actorId {
      var j :| 0 <= j < k && cs[j].actorId == actorId;
      FirstAtExists(cs, actorId, j);
    } else {
      assert FirstAt(cs, actorId, k);
    }
  }

  /** A token contributes only the id of its actor's first combatant. */
  lemma TokenContributesFirst(cs: seq<Combatant>, t: Token)
    ensures forall x :: x in TokenCombatantId(cs, t) ==>
              exists i :: FirstAt(cs, t.documentActorId, i) && cs[i].id != "" && x == cs[i].id
  {
    if TokenCombatantId(cs, t) != [] {
      var k :| 0 <= k < |cs| && cs[k].actorId == t.documentActorId && cs[k].id == TokenCombatantId(cs, t)[0];
      FirstAtExists(cs, t.documentActorId, k);
      var i :| 0 <= i <= k && FirstAt(cs, t.documentActorId, i);
      assert TokenCombatantId(cs, t) == [cs[i].id];
    }
  }

  /** Group initiative rolls, for each token, the first combatant of the
      token's actor, whether that combatant has rolled or not, when its id is
      truthy; and nothing else. */
  lemma GroupRollsFirstCombatants(cs: seq<Combatant>, tokens: seq<Token>)
    ensures forall x :: x in CollectIds(cs, tokens) <==>
              exists t, i :: t in tokens && FirstAt(cs, t.documentActorId, i) && cs[i].id != "" && x == cs[i].id
  {
    CollectIdsMembers(cs, tokens);
    forall x | x in CollectIds(cs, tokens)
      ensures exists t, i :: t in tokens && FirstAt(cs, t.documentActorId, i) && cs[i].id != "" && x == cs[i].id
    {
      var t :| t in tokens && x in TokenCombatantId(cs, t);
      TokenContributesFirst(cs, t);
    }
    forall t, i | t in tokens && FirstAt(cs, t.documentActorId, i) && cs[i].id != ""
      ensures cs[i].id in CollectIds(cs, tokens)
    {
      assert cs[i].id in TokenCombatantId(cs, t);
    }
  }

  /** The combatants a token resolves to depend on their ids and actors only:
      changing any initiative changes nothing. */
  lemma TokenIgnoresInitiative(cs: seq<Combatant>, cs2: seq<Combatant>, t: Token)
    requires |cs| == |cs2|
    requires forall i :: 0 <= i < |cs| ==> cs2[i].id == cs[i].id && cs2[i].actorId == cs[i].actorId
    ensures TokenCombatantId(cs, t) == TokenCombatantId(cs2, t)
  {
    var a := t.documentActorId;
    if exists k :: 0 <= k < |cs| && cs[k].actorId == a {
      var k :| 0 <= k < |cs| && cs[k].actorId == a;
      FirstAtExists(cs, a, k);
      var i :| 0 <= i <= k && FirstAt(cs, a, i);
      assert FirstAt(cs2, a, i);
    } else {
      forall c | c in cs2 ensures c.actorId != a {
        var k :| 0 <= k < |cs2| && cs2[k] == c;
      }
    }
  }

  /** Group initiative ignores whether the combatants have rolled: two
      combats that differ only in initiatives roll the same ids. */
  lemma {:induction false} GroupInitiativeIgnoresRolls(tokens: seq<Token>, c: Combat, c2: Combat)
    requires |c.combatants| == |c2.combatants|
    requires forall i :: 0 <= i < |c.combatants| ==>
               c2.combatants[i].id == c.combatants[i].id && c2.combatants[i].actorId == c.combatants[i].actorId
    ensures CollectIds(c.combatants, tokens) == CollectIds(c2.combatants, tokens)
    ensures GroupInitiative(tokens, Some(c)) == GroupInitiative(tokens, Some(c2))
  {
    if tokens != [] {
      GroupInitiativeIgnoresRolls(tokens[..|tokens| - 1], c, c2);
      TokenIgnoresInitiative(c.combatants, c2.combatants, tokens[|tokens| - 1]);
    }
  }

  /** A combat that has not started yields no roll; no combat at all throws. */
  lemma GroupInitiativeWithoutCombatants(tokens: seq<Token>, combat: Option<Combat>)
    ensures combat.None? ==> GroupInitiative(tokens, combat) == [Rejected]
    ensures combat.Some? && combat.value.combatants == [] ==> GroupInitiative(tokens, combat) == []
  {
  }

  /** The two initiative rules disagree on a combatant that has already
      rolled: the single-actor rule skips it, the group rule rolls it again,
      and once per token of the same actor. */
  lemma GroupRerollsRolledCombatant()
    ensures var hero := Actor("a1", "character", [], [], [], [], MonsterArmor(0, ""), []);
            var t1 := Token("t1", Some(hero), "a1");
            var t2 := Token("t2", Some(hero), "a1");
            var c := Combat([Combatant("c1", Some("t1"), "a1", Some(12))], None);
            HandleAction(hero, Some(t1), Some(c), "utility", Some("initiative")) == []
            && GroupInitiative([t1], Some(c)) == [RollInitiative(["c1"])]
            && GroupInitiative([t1, t2], Some(c)) == [RollInitiative(["c1", "c1"])]
  {
    var hero := Actor("a1", "character", [], [], [], [], MonsterArmor(0, ""), []);
    var t1 := Token("t1", Some(hero), "a1");
    var t2 := Token("t2", Some(hero), "a1");
    var c1 := Combatant("c1", Some("t1"), "a1", Some(12));
    var cs := [c1];
    assert Pending(cs) == [];
    assert FirstOfActor(cs, "a1") == Some(c1);
    assert TokenCombatantId(cs, t1) == ["c1"] && TokenCombatantId(cs, t2) == ["c1"];
    assert [t1][..0] == [];
    assert CollectIds(cs, [t1]) == ["c1"];
    assert [t1, t2][..1] == [t1];
    assert CollectIds(cs, [t1, t2]) == ["c1", "c1"];
  }

  // ------------------------------------------------------------- many actors

  /** Without a selected actor, an action of an actor type runs once per
      character or monster token, in token order, on that token's actor. */
  lemma {:induction false} FanOutPerToken(tokens: seq<Token>, combat: Option<Combat>, typeId: string, actionId: Option<string>)
    requires forall t :: t in tokens ==> t.actor.Some?
    requires typeId in ActorActionTypes
    ensures |FanOut(tokens, combat, typeId, actionId)| == |tokens|
    ensures forall i :: 0 <= i < |tokens| ==>
              FanOut(tokens, combat, typeId, actionId)[i]
                == OnActor(tokens[i].actor.value.id, ActorActionOp(typeId, actionId).value)
  {
    if tokens != [] {
      var init := tokens[..|tokens| - 1];
      assert forall t :: t in init ==> t in tokens;
      FanOutPerToken(init, combat, typeId, actionId);
      forall i | 0 <= i < |tokens| - 1 ensures tokens[i] == init[i] { }
    }
  }

  /** An action type the switch does not know does nothing, however many tokens. */
  lemma {:induction false} FanOutUnknownType(tokens: seq<Token>, combat: Option<Combat>, typeId: string, actionId: Option<string>)
    requires forall t :: t in tokens ==> t.actor.Some?
    requires typeId !in ActorActionTypes + ["utility"]
    ensures FanOut(tokens, combat, typeId, actionId) == []
  {
    if tokens != [] {
      var init := tokens[..|tokens| - 1];
      assert forall t :: t in init ==> t in tokens;
      FanOutUnknownType(init, combat, typeId, actionId);
      OneOperationPerAction(tokens[|tokens| - 1].actor.value, Some(tokens[|tokens| - 1]), combat, typeId, actionId);
    }
  }

  /** The filter of controlled tokens keeps their order and their repeats:
      it distributes over concatenation ... */
  lemma {:induction false} KnownTokensAppend(a: seq<Token>, b: seq<Token>)
    ensures KnownTokens(a + b) == KnownTokens(a) + KnownTokens(b)
  {
    if a != [] {
      assert (a + b)[0] == a[0] && (a + b)[1..] == a[1..] + b;
      KnownTokensAppend(a[1..], b);
    } else {
      assert a + b == b;
    }
  }

  /** ... and keeps a single token iff it is a character's or a monster's. */
  lemma KnownTokensOne(t: Token)
    ensures KnownTokens([t]) == if KnownToken(t) then [t] else []
  {
    assert [t][1..] == [];
  }

  // --------------------------------------------------------------- the click

  /** With render-item on, clicking an item only renders it. */
  lemma RenderItemClick(ctx: Context, itemId: string)
    requires ctx.renderItem && '|' !in itemId
    ensures ClickEffects(ctx, "item|" + itemId) == [Render(ActorId(ctx.actor), Some(itemId))]
  {
    assert "item|" + itemId == "item" + "|" + itemId;
    DecodeEncoded("item", itemId);
  }

  /** With an actor selected, the click is handled once, for that actor and token. */
  lemma SingleActorClick(ctx: Context, typeId: string, actionId: string)
    requires ctx.actor.Some? && '|' !in typeId && '|' !in actionId
    requires !(typeId == "item" && ctx.renderItem)
    ensures ClickEffects(ctx, typeId + "|" + actionId)
              == HandleAction(ctx.actor.value, ctx.token, ctx.combat, typeId, Some(actionId))
  {
    DecodeEncoded(typeId, actionId);
  }

  /** With no actor selected, group initiative goes over the character and
      monster tokens only. */
  lemma GroupInitiativeClick(ctx: Context, typeId: string, actionId: string)
    requires ctx.actor.None? && typeId == "utility" && actionId == "initiative"
    ensures ClickEffects(ctx, typeId + "|" + actionId) == GroupInitiative(KnownTokens(ctx.controlled), ctx.combat)
  {
    DecodeEncoded(typeId, actionId);
  }

  /** With no actor selected, an action of an actor type becomes one call per
      character or monster token, in the order of `KnownTokens`, which is
      the order the tokens are controlled in (`KnownTokensAppend`). */
  lemma MultiActorClick(ctx: Context, typeId: string, actionId: string)
    requires ctx.actor.None? && typeId in ActorActionTypes && '|' !in typeId && '|' !in actionId
    ensures var r := ClickEffects(ctx, typeId + "|" + actionId);
            var ts := KnownTokens(ctx.controlled);
            |r| == |ts|
            && (forall i :: 0 <= i < |ts| ==>
                  KnownToken(ts[i]) && r[i] == OnActor(ts[i].actor.value.id, ActorActionOp(typeId, Some(actionId)).value))
            && (forall e :: e in r ==>
                  exists t :: t in ctx.controlled && KnownToken(t) && e == OnActor(t.actor.value.id, e.op))
  {
    DecodeEncoded(typeId, actionId);
    var ts := KnownTokens(ctx.controlled);
    FanOutPerToken(ts, ctx.combat, typeId, Some(actionId));
    var r := ClickEffects(ctx, typeId + "|" + actionId);
    forall e | e in r
      ensures exists t :: t in ctx.controlled && KnownToken(t) && e == OnActor(t.actor.value.id, e.op)
    {
      var i :| 0 <= i < |r| && r[i] == e;
      assert ts[i] in ts;
    }
    forall i | 0 <= i < |ts| ensures KnownToken(ts[i]) {
      assert ts[i] in ts;
    }
  }
}
