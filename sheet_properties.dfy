/** What the attribute, skill, condition and consumable builders of
    `scripts/action-handler.js` promise about the actions they emit. */
module SheetProperties {
  import opened Js
  import opened Foundry
  import opened Hud
  import opened Menu

  // ---------------------------------------------------------------- attributes

  /** Only entries whose key is canonical become actions; each such entry
      does, with id the key and payload `(attributes, key)`. */
  lemma {:induction false} AttributeActionsSpec(h: Host, canonical: seq<string>, entries: seq<(string, Attribute)>)
    ensures |AttributeActions(h, canonical, entries)| <= |entries|
    ensures forall act :: act in AttributeActions(h, canonical, entries) ==>
              act.id in canonical && act.system == Payload("attributes", act.id)
              && exists e :: e in entries && act == AttributeAction(h, e.0, e.1)
    ensures forall e :: e in entries && e.0 in canonical ==> AttributeAction(h, e.0, e.1) in AttributeActions(h, canonical, entries)
  {
    if entries != [] {
      var init := entries[..|entries| - 1];
      var last := entries[|entries| - 1];
      AttributeActionsSpec(h, canonical, init);
      assert entries == init + [last];
      forall e | e in entries && e.0 in canonical ensures AttributeAction(h, e.0, e.1) in AttributeActions(h, canonical, entries) {
        if e != last { assert e in init; }
      }
    }
  }

  // -------------------------------------------------------------------- skills

  /** The skills scan fails iff some skill names an attribute the actor lacks. */
  lemma {:induction false} SkillActionsFail(h: Host, attributes: seq<(string, Attribute)>, skills: seq<(string, Skill)>)
    ensures SkillActions(h, attributes, skills).None? <==>
              exists i :: 0 <= i < |skills| && Lookup(attributes, skills[i].1.attribute).None?
  {
    if skills != [] {
      var init := skills[..|skills| - 1];
      SkillActionsFail(h, attributes, init);
      if exists i :: 0 <= i < |init| && Lookup(attributes, init[i].1.attribute).None? {
        var i :| 0 <= i < |init| && Lookup(attributes, init[i].1.attribute).None?;
        assert skills[i] == init[i];
      }
      if exists i :: 0 <= i < |skills| && Lookup(attributes, skills[i].1.attribute).None? {
        var i :| 0 <= i < |skills| && Lookup(attributes, skills[i].1.attribute).None?;
        if i < |init| { assert skills[i] == init[i]; }
      }
    }
  }

  /** When the scan succeeds there is one action per skill, in order, and its
      tooltip reports the attribute's value, the skill's value and their sum. */
  lemma {:induction false} SkillActionsTotals(h: Host, attributes: seq<(string, Attribute)>, skills: seq<(string, Skill)>)
    requires SkillActions(h, attributes, skills).Some?
    ensures |SkillActions(h, attributes, skills).value| == |skills|
    ensures forall i :: 0 <= i < |skills| ==>
              var act := SkillActions(h, attributes, skills).value[i];
              var (id, s) := skills[i];
              Lookup(attributes, s.attribute).Some?
              && var a := Lookup(attributes, s.attribute).value;
                 act.id == id && act.system == Payload("skills", id)
                 && act.tooltip.Some? && |act.tooltip.value.lines| == 3
                 && act.tooltip.value.lines[0] == Field(h.T(a.labelKey), Num(a.value))
                 && act.tooltip.value.lines[1] == Field(h.T(s.labelKey), Num(s.value))
                 && act.tooltip.value.lines[2] == Field(h.T("VALUE"), Num(a.value + s.value))
  {
    if skills != [] {
      var init := skills[..|skills| - 1];
      SkillActionsTotals(h, attributes, init);
      forall i | 0 <= i < |init| ensures skills[i] == init[i] { }
    }
  }

  /** The skills group is all or nothing: one skill with a missing attribute
      and no skill is shown. */
  lemma SkillsAllOrNothing(h: Host, actor: Actor)
    ensures SkillCalls(h, actor) == [] <==>
              exists i :: 0 <= i < |actor.skill| && Lookup(actor.attribute, actor.skill[i].1.attribute).None?
    ensures SkillCalls(h, actor) != [] ==>
              SkillCalls(h, actor) == GroupCalls(SkillsGroup(h), "character", SkillActions(h, actor.attribute, actor.skill).value)
              && |SkillActions(h, actor.attribute, actor.skill).value| == |actor.skill|
  {
    SkillActionsFail(h, actor.attribute, actor.skill);
    if SkillActions(h, actor.attribute, actor.skill).Some? {
      SkillActionsTotals(h, actor.attribute, actor.skill);
    }
  }

  // ---------------------------------------------------------------- conditions

  /** One action per condition, in order; its class is `" active"` exactly
      when the condition is set, and `""` otherwise. */
  lemma {:induction false} ConditionActionsSpec(h: Host, entries: seq<(string, Condition)>)
    ensures |ConditionActions(h, entries)| == |entries|
    ensures forall i :: 0 <= i < |entries| ==>
              var act := ConditionActions(h, entries)[i];
              act.id == entries[i].0 && act.system == Payload("condition", entries[i].0)
              && (act.cssClass == Some(" active") <==> entries[i].1.value)
              && (act.cssClass == Some("") <==> !entries[i].1.value)
  {
    if entries != [] {
      var init := entries[..|entries| - 1];
      ConditionActionsSpec(h, init);
      forall i | 0 <= i < |init| ensures entries[i] == init[i] { }
    }
  }

  // --------------------------------------------------------------- consumables

  /** One action per consumable, in order, named by its translated label and
      its die from the table, `"0"` when the table has none for its value. */
  lemma {:induction false} ConsumableActionsSpec(h: Host, dice: map<int, string>, entries: seq<(string, Consumable)>)
    ensures |ConsumableActions(h, dice, entries)| == |entries|
    ensures forall i :: 0 <= i < |entries| ==>
              var act := ConsumableActions(h, dice, entries)[i];
              var (id, c) := entries[i];
              act.id == id && act.system == Payload("consumable", id)
              && (c.value in dice ==> act.name == h.T(c.labelKey) + " " + dice[c.value])
              && (c.value !in dice ==> act.name == h.T(c.labelKey) + " 0")
  {
    if entries != [] {
      var init := entries[..|entries| - 1];
      ConsumableActionsSpec(h, dice, init);
      forall i | 0 <= i < |init| ensures entries[i] == init[i] { }
    }
  }
}
