/** What the combat, monster-combat and spell builders of
    `scripts/action-handler.js` promise: which items become actions, under
    which group, in which order, and when the whole builder gives up. */
module CombatProperties {
  import opened Js
  import opened Foundry
  import opened Hud
  import opened Buckets
  import opened Menu

  // ------------------------------------------------------ reference readings

  /** The weapon actions, one per weapon item, in item order. */
  function WeaponActions(h: Host, items: seq<Item>): seq<Action> {
    if items == [] then []
    else
      var item := items[|items| - 1];
      WeaponActions(h, items[..|items| - 1]) + (if item.system.WeaponData? then [WeaponAction(h, item)] else [])
  }

  /** The armor actions, one per armor item, in item order. */
  function ArmorActions(h: Host, items: seq<Item>): seq<Action> {
    if items == [] then []
    else
      var item := items[|items| - 1];
      ArmorActions(h, items[..|items| - 1]) + (if item.system.ArmorData? then [ArmorAction(h, item)] else [])
  }

  /** `armorTotal`: the decimal texts of the armor bonuses one after the
      other, since `"" + n` concatenates rather than adds. */
  function ArmorText(items: seq<Item>): string {
    if items == [] then ""
    else
      var item := items[|items| - 1];
      ArmorText(items[..|items| - 1]) + (if item.system.ArmorData? then IntToString(item.system.bonus.value) else "")
  }

  /** The monster attack actions, one per well-formed `monsterAttack` item, in item order. */
  function MonsterAttackActions(h: Host, items: seq<Item>): seq<Action> {
    if items == [] then []
    else
      var item := items[|items| - 1];
      MonsterAttackActions(h, items[..|items| - 1])
        + (if item.system.MonsterAttackData? then [MonsterAttackAction(h, item)] else [])
  }

  /** The spell actions of rank `r`, in item order. */
  function SpellsOfRank(h: Host, items: seq<Item>, r: nat): seq<Action> {
    if items == [] then []
    else
      var item := items[|items| - 1];
      SpellsOfRank(h, items[..|items| - 1], r)
        + (if item.system.SpellData? && item.system.rank == r then [SpellAction(h, item)] else [])
  }

  /** The ranks of the spell items. */
  function SpellRanks(items: seq<Item>): set<nat> {
    set i | 0 <= i < |items| && items[i].system.SpellData? :: items[i].system.rank
  }

  /** Some item of an allowed type lacks that type's data. */
  predicate SomeMalformed(items: seq<Item>, allowed: seq<string>) {
    exists i :: 0 <= i < |items| && Malformed(items[i], allowed)
  }

  /** Dropping the last item keeps the malformed items of the rest. */
  lemma MalformedInit(items: seq<Item>, allowed: seq<string>)
    requires items != []
    ensures SomeMalformed(items, allowed) <==>
              SomeMalformed(items[..|items| - 1], allowed) || Malformed(items[|items| - 1], allowed)
  {
    var init := items[..|items| - 1];
    if SomeMalformed(init, allowed) {
      var i :| 0 <= i < |init| && Malformed(init[i], allowed);
      assert items[i] == init[i];
    }
    if SomeMalformed(items, allowed) {
      var i :| 0 <= i < |items| && Malformed(items[i], allowed);
      if i < |init| { assert items[i] == init[i]; }
    }
  }

  /** Pushing under a key not yet present appends a bucket at the end. */
  lemma {:induction false} PushFresh<K, V>(b: Buckets<K, V>, k: K, v: V)
    requires k !in KeySet(b)
    ensures Push(b, k, v) == b + [(k, [v])]
  {
    if b != [] {
      KeySetCons(b[0], b[1..]);
      assert b == [b[0]] + b[1..];
      PushFresh(b[1..], k, v);
    }
  }

  // ---------------------------------------------------------- standard combat

  /** The combat scan gives up iff some `weapon` or `armor` item lacks its data. */
  lemma {:induction false} CombatScanFails(h: Host, items: seq<Item>)
    ensures CombatScan(h, items).None? <==> SomeMalformed(items, CombatTypes)
  {
    if items != [] {
      CombatScanFails(h, items[..|items| - 1]);
      MalformedInit(items, CombatTypes);
    }
  }

  /** One step of the combat scan: what the last item adds to the scan of the others. */
  lemma CombatScanStep(h: Host, items: seq<Item>)
    requires items != [] && CombatScan(h, items).Some?
    ensures CombatScan(h, items[..|items| - 1]).Some?
    ensures var (b, total) := CombatScan(h, items[..|items| - 1]).value;
            var item := items[|items| - 1];
            CombatScan(h, items).value ==
              if item.system.WeaponData? then (Push(b, "weapon", WeaponAction(h, item)), total)
              else if item.system.ArmorData? then (Push(b, "armor", ArmorAction(h, item)), total + IntToString(item.system.bonus.value))
              else (b, total)
  {
  }

  /** The scan's `armorTotal` is the concatenated armor bonuses. */
  lemma {:induction false} CombatScanTotal(h: Host, items: seq<Item>)
    requires CombatScan(h, items).Some?
    ensures CombatScan(h, items).value.1 == ArmorText(items)
  {
    if items != [] {
      CombatScanTotal(h, items[..|items| - 1]);
    }
  }

  /** When it does not give up, the scan holds the weapon actions, in item
      order, under `weapon`. */
  lemma {:induction false} CombatScanWeapons(h: Host, items: seq<Item>)
    requires CombatScan(h, items).Some?
    ensures Get(CombatScan(h, items).value.0, "weapon") == WeaponActions(h, items)
  {
    if items != [] {
      var init := items[..|items| - 1];
      var item := items[|items| - 1];
      CombatScanStep(h, items);
      CombatScanWeapons(h, init);
      var b := CombatScan(h, init).value.0;
      if item.system.WeaponData? {
        PushGet(b, "weapon", WeaponAction(h, item), "weapon");
      } else if item.system.ArmorData? {
        PushGet(b, "armor", ArmorAction(h, item), "weapon");
      }
    }
  }

  /** ... and the armor actions, in item order, under `armor`. */
  lemma {:induction false} CombatScanArmor(h: Host, items: seq<Item>)
    requires CombatScan(h, items).Some?
    ensures Get(CombatScan(h, items).value.0, "armor") == ArmorActions(h, items)
  {
    if items != [] {
      var init := items[..|items| - 1];
      var item := items[|items| - 1];
      CombatScanStep(h, items);
      CombatScanArmor(h, init);
      var b := CombatScan(h, init).value.0;
      if item.system.WeaponData? {
        PushGet(b, "weapon", WeaponAction(h, item), "armor");
      } else if item.system.ArmorData? {
        PushGet(b, "armor", ArmorAction(h, item), "armor");
      }
    }
  }

  /** Each key of the scan appears once, lists at least one action, and is
      present exactly when an item of its type is. */
  lemma {:induction false} CombatScanKeys(h: Host, items: seq<Item>)
    requires CombatScan(h, items).Some?
    ensures DistinctKeys(CombatScan(h, items).value.0) && NonEmpty(CombatScan(h, items).value.0)
    ensures KeySet(CombatScan(h, items).value.0) ==
              (if WeaponActions(h, items) != [] then {"weapon"} else {})
              + (if ArmorActions(h, items) != [] then {"armor"} else {})
  {
    if items != [] {
      var init := items[..|items| - 1];
      var item := items[|items| - 1];
      CombatScanStep(h, items);
      CombatScanKeys(h, init);
      var b := CombatScan(h, init).value.0;
      if item.system.WeaponData? {
        PushKeys(b, "weapon", WeaponAction(h, item));
      } else if item.system.ArmorData? {
        PushKeys(b, "armor", ArmorAction(h, item));
      }
    }
  }

  /** The combat buckets exist iff no `weapon` or `armor` item is malformed. */
  lemma CombatBucketsFail(h: Host, items: seq<Item>)
    ensures CombatBuckets(h, items).None? <==> SomeMalformed(items, CombatTypes)
  {
    CombatScanFails(h, items);
  }

  /** A well-formed inventory always yields the `armor` bucket, ending in the
      aggregate `all` action that reports the concatenated bonuses, and the
      `weapon` bucket iff there is a weapon. */
  lemma CombatBucketsSpec(h: Host, items: seq<Item>)
    requires CombatBuckets(h, items).Some?
    ensures var b := CombatBuckets(h, items).value;
            Get(b, "armor") == ArmorActions(h, items) + [TotalArmorAction(h, ArmorText(items))]
            && Get(b, "weapon") == WeaponActions(h, items)
            && KeySet(b) == {"armor"} + (if WeaponActions(h, items) != [] then {"weapon"} else {})
            && DistinctKeys(b) && NonEmpty(b)
  {
    CombatScanTotal(h, items);
    CombatScanWeapons(h, items);
    CombatScanArmor(h, items);
    CombatScanKeys(h, items);
    var b := CombatScan(h, items).value.0;
    var all := TotalArmorAction(h, CombatScan(h, items).value.1);
    assert CombatBuckets(h, items).value == Push(b, "armor", all);
    PushGet(b, "armor", all, "armor");
    PushGet(b, "armor", all, "weapon");
    PushKeys(b, "armor", all);
  }

  /** With no armor item, the armor bucket holds only the aggregate action
      and comes last. */
  lemma CombatBucketsArmorLast(h: Host, items: seq<Item>)
    requires CombatBuckets(h, items).Some? && ArmorActions(h, items) == []
    ensures var b := CombatBuckets(h, items).value;
            b != [] && b[|b| - 1] == ("armor", [TotalArmorAction(h, ArmorText(items))])
  {
    CombatScanTotal(h, items);
    CombatScanKeys(h, items);
    var b := CombatScan(h, items).value.0;
    PushFresh(b, "armor", TotalArmorAction(h, CombatScan(h, items).value.1));
  }

  /** The armor total of a helmet with bonus 1 and a shield with bonus 2 reads
      `"12"`, not `3`. */
  lemma ArmorTotalConcatenates(helmet: Item, shield: Item)
    requires helmet.system.ArmorData? && helmet.system.bonus.value == 1
    requires shield.system.ArmorData? && shield.system.bonus.value == 2
    ensures ArmorText([helmet, shield]) == "12"
  {
    assert IntToString(1) == "1" by { assert NatToString(1) == [DigitChar(1)]; }
    assert IntToString(2) == "2" by { assert NatToString(2) == [DigitChar(2)]; }
    assert ArmorText([helmet]) == "1" by {
      assert [helmet][..0] == [];
      assert ArmorText([helmet]) == ArmorText([]) + IntToString(1);
    }
    assert [helmet, shield][..1] == [helmet];
    assert ArmorText([helmet, shield]) == ArmorText([helmet]) + IntToString(2);
  }

  /** The calls of a bucket list: for the `i`-th bucket, its group under
      `parent` and then its actions. */
  lemma {:induction false} TypeGroupCallsAt(h: Host, b: Buckets<string, Action>)
    ensures |TypeGroupCalls(h, b)| == 2 * |b|
    ensures forall i :: 0 <= i < |b| ==>
              TypeGroupCalls(h, b)[2 * i] == AddGroup(TypeGroup(h, b[i].0), "combat")
              && TypeGroupCalls(h, b)[2 * i + 1] == AddActions(b[i].1, TypeGroup(h, b[i].0))
  {
    if b != [] {
      var init := b[..|b| - 1];
      TypeGroupCallsAt(h, init);
      forall i | 0 <= i < |init| ensures b[i] == init[i] { }
    }
  }

  /** The group of a present key holds that key's actions. */
  lemma TypeGroupHolds(h: Host, b: Buckets<string, Action>, k: string)
    requires DistinctKeys(b) && k in KeySet(b)
    ensures AddActions(Get(b, k), TypeGroup(h, k)) in TypeGroupCalls(h, b)
  {
    TypeGroupCallsAt(h, b);
    var i :| 0 <= i < |b| && b[i].0 == k;
    GetAt(b, i);
    assert TypeGroupCalls(h, b)[2 * i + 1] == AddActions(Get(b, k), TypeGroup(h, k));
  }

  /** A key has a group iff it is present. */
  lemma TypeGroupMentions(h: Host, b: Buckets<string, Action>, k: string)
    ensures (exists i :: 0 <= i < |TypeGroupCalls(h, b)| && TypeGroupCalls(h, b)[i].GroupId() == k) <==> k in KeySet(b)
  {
    var calls := TypeGroupCalls(h, b);
    TypeGroupCallsAt(h, b);
    if k in KeySet(b) {
      var j :| 0 <= j < |b| && b[j].0 == k;
      assert calls[2 * j].GroupId() == k;
    }
    if exists i :: 0 <= i < |calls| && calls[i].GroupId() == k {
      var i :| 0 <= i < |calls| && calls[i].GroupId() == k;
      var j := i / 2;
      assert i == 2 * j || i == 2 * j + 1;
      assert b[j].0 == k;
    }
  }

  /** The standard combat tab: nothing at all when an item is malformed;
      otherwise one group per bucket under `combat`, then the maneuvers. */
  lemma CombatCallsShape(h: Host, actor: Actor)
    ensures SomeMalformed(actor.items, CombatTypes) ==> CombatCalls(h, actor) == []
    ensures !SomeMalformed(actor.items, CombatTypes) ==>
              CombatBuckets(h, actor.items).Some?
              && CombatCalls(h, actor) == TypeGroupCalls(h, CombatBuckets(h, actor.items).value) + ManeuverCalls(h)
              && |CombatCalls(h, actor)| >= 4
              && CombatCalls(h, actor)[|CombatCalls(h, actor)| - 2..] == ManeuverCalls(h)
  {
    CombatBucketsFail(h, actor.items);
    if !SomeMalformed(actor.items, CombatTypes) {
      var b := CombatBuckets(h, actor.items).value;
      CombatBucketsSpec(h, actor.items);
      assert "armor" in KeySet(b);
      TypeGroupCallsAt(h, b);
    }
  }

  /** In a well-formed combat tab the armor group always holds the armor
      items' actions followed by the aggregate one. */
  lemma CombatArmorGroup(h: Host, actor: Actor)
    requires !SomeMalformed(actor.items, CombatTypes)
    ensures AddActions(ArmorActions(h, actor.items) + [TotalArmorAction(h, ArmorText(actor.items))], TypeGroup(h, "armor"))
              in CombatCalls(h, actor)
  {
    CombatCallsShape(h, actor);
    var b := CombatBuckets(h, actor.items).value;
    CombatBucketsSpec(h, actor.items);
    TypeGroupHolds(h, b, "armor");
  }

  /** In a well-formed combat tab a weapon group appears iff there is a weapon. */
  lemma CombatWeaponGroup(h: Host, actor: Actor)
    requires !SomeMalformed(actor.items, CombatTypes)
    ensures (exists i :: 0 <= i < |CombatCalls(h, actor)| && CombatCalls(h, actor)[i].GroupId() == "weapon")
            <==> WeaponActions(h, actor.items) != []
  {
    CombatCallsShape(h, actor);
    var b := CombatBuckets(h, actor.items).value;
    CombatBucketsSpec(h, actor.items);
    TypeGroupMentions(h, b, "weapon");
    WeaponMentions(TypeGroupCalls(h, b), ManeuverCalls(h));
  }

  /** The maneuvers add no `weapon` group. */
  lemma WeaponMentions(t: seq<HostCall>, m: seq<HostCall>)
    requires forall i :: 0 <= i < |m| ==> m[i].GroupId() == "actions"
    ensures (exists i :: 0 <= i < |t + m| && (t + m)[i].GroupId() == "weapon")
            <==> (exists i :: 0 <= i < |t| && t[i].GroupId() == "weapon")
  {
    if exists i :: 0 <= i < |t + m| && (t + m)[i].GroupId() == "weapon" {
      var i :| 0 <= i < |t + m| && (t + m)[i].GroupId() == "weapon";
      if i < |t| { assert (t + m)[i] == t[i]; }
    }
    if exists i :: 0 <= i < |t| && t[i].GroupId() == "weapon" {
      var i :| 0 <= i < |t| && t[i].GroupId() == "weapon";
      assert (t + m)[i] == t[i];
    }
  }

  // ---------------------------------------------------------------- maneuvers

  lemma {:induction false} ManeuverActionsAt(h: Host, ms: seq<(string, string)>)
    ensures |ManeuverActionsOf(h, ms)| == |ms|
    ensures forall i :: 0 <= i < |ms| ==>
              ManeuverActionsOf(h, ms)[i].id == ms[i].1
              && ManeuverActionsOf(h, ms)[i].name == h.T("ACTION." + ms[i].0)
              && ManeuverActionsOf(h, ms)[i].system == Payload("action", ms[i].1)
  {
    if ms != [] {
      var init := ms[..|ms| - 1];
      ManeuverActionsAt(h, init);
      forall i | 0 <= i < |init| ensures ms[i] == init[i] { }
    }
  }

  /** The nine maneuvers, in their fixed order, each sending `action|<id>`. */
  lemma NineManeuvers(h: Host)
    ensures var acts := ManeuverActionsOf(h, Maneuvers);
            |acts| == 9
            && (forall i :: 0 <= i < 9 ==> acts[i].system == Payload("action", acts[i].id))
            && acts[0].id == "break-free" && acts[1].id == "disarm" && acts[2].id == "dodge"
            && acts[3].id == "grapple" && acts[4].id == "grapple-attack" && acts[5].id == "parry"
            && acts[6].id == "retreat" && acts[7].id == "shove" && acts[8].id == "unarmed"
  {
    ManeuverActionsAt(h, Maneuvers);
  }

  // ----------------------------------------------------------- monster combat

  /** The monster scan gives up iff some `monsterAttack` item lacks its data;
      otherwise it holds one action per attack item, in order. */
  lemma {:induction false} MonsterScanSpec(h: Host, items: seq<Item>)
    ensures MonsterScan(h, items).None? <==> SomeMalformed(items, ["monsterAttack"])
    ensures MonsterScan(h, items).Some? ==> MonsterScan(h, items).value == MonsterAttackActions(h, items)
  {
    if items != [] {
      MonsterScanSpec(h, items[..|items| - 1]);
      MalformedInit(items, ["monsterAttack"]);
    }
  }

  /** The monster combat tab: the attacks group led by `random`, the armor
      group holding the single `monster` action, then the maneuvers; nothing
      when an attack item is malformed. Armor items never show. */
  lemma MonsterCombatShape(h: Host, actor: Actor)
    ensures SomeMalformed(actor.items, ["monsterAttack"]) ==> MonsterCombatCalls(h, actor) == []
    ensures !SomeMalformed(actor.items, ["monsterAttack"]) ==>
              MonsterCombatCalls(h, actor) ==
                [AddGroup(MonsterAttackGroup(h), "combat"),
                 AddActions([RandomAttackAction(h)] + MonsterAttackActions(h, actor.items), MonsterAttackGroup(h)),
                 AddGroup(MonsterArmorGroup(h), "combat"),
                 AddActions([MonsterArmorAction(h, actor.armor)], MonsterArmorGroup(h))]
                + ManeuverCalls(h)
  {
    MonsterScanSpec(h, actor.items);
  }

  /** The monster armor action rolls the whole armor and carries the
      description line exactly when the description is not empty. */
  lemma MonsterArmorNote(h: Host, armor: MonsterArmor)
    ensures MonsterArmorAction(h, armor).system == Payload("armor", "monster")
    ensures MonsterArmorAction(h, armor).tooltip.Some?
    ensures Note(armor.description) in MonsterArmorAction(h, armor).tooltip.value.lines <==> armor.description != ""
  {
  }

  // -------------------------------------------------------------------- spells

  /** The spell scan gives up iff some `spell` item lacks its data. */
  lemma {:induction false} SpellScanFails(h: Host, items: seq<Item>)
    ensures SpellScan(h, items).None? <==> SomeMalformed(items, ["spell"])
  {
    if items != [] {
      SpellScanFails(h, items[..|items| - 1]);
      MalformedInit(items, ["spell"]);
    }
  }

  /** One step of the spell scan: what the last item adds to the scan of the others. */
  lemma SpellScanStep(h: Host, items: seq<Item>)
    requires items != [] && SpellScan(h, items).Some?
    ensures SpellScan(h, items[..|items| - 1]).Some?
    ensures var item := items[|items| - 1];
            SpellScan(h, items).value ==
              if item.system.SpellData?
              then PushRanked(SpellScan(h, items[..|items| - 1]).value, item.system.rank, SpellAction(h, item))
              else SpellScan(h, items[..|items| - 1]).value
  {
  }

  /** The ranks in use, after one more item. */
  lemma SpellRanksInit(items: seq<Item>)
    requires items != []
    ensures var item := items[|items| - 1];
            SpellRanks(items) == SpellRanks(items[..|items| - 1]) + (if item.system.SpellData? then {item.system.rank} else {})
  {
    var init := items[..|items| - 1];
    var item := items[|items| - 1];
    forall x | x in SpellRanks(items) ensures x in SpellRanks(init) || (item.system.SpellData? && x == item.system.rank) {
      var i :| 0 <= i < |items| && items[i].system.SpellData? && items[i].system.rank == x;
      if i < |init| { assert items[i] == init[i]; }
    }
    forall x | x in SpellRanks(init) ensures x in SpellRanks(items) {
      var i :| 0 <= i < |init| && init[i].system.SpellData? && init[i].system.rank == x;
      assert items[i] == init[i];
    }
  }

  /** When it does not give up, the scan has one bucket per rank in use, in
      ascending rank, none of them empty. */
  lemma {:induction false} SpellScanKeys(h: Host, items: seq<Item>)
    requires SpellScan(h, items).Some?
    ensures Ascending(SpellScan(h, items).value) && NonEmpty(SpellScan(h, items).value)
    ensures KeySet(SpellScan(h, items).value) == SpellRanks(items)
  {
    if items != [] {
      var init := items[..|items| - 1];
      var item := items[|items| - 1];
      SpellScanStep(h, items);
      SpellScanKeys(h, init);
      SpellRanksInit(items);
      if item.system.SpellData? {
        var b := SpellScan(h, init).value;
        PushRankedKeys(b, item.system.rank, SpellAction(h, item));
        PushRankedAscending(b, item.system.rank, SpellAction(h, item));
        PushRankedNonEmpty(b, item.system.rank, SpellAction(h, item));
      }
    }
  }

  /** ... and each bucket holds its rank's spells, in item order. */
  lemma {:induction false} SpellScanGet(h: Host, items: seq<Item>, r: nat)
    requires SpellScan(h, items).Some?
    ensures Get(SpellScan(h, items).value, r) == SpellsOfRank(h, items, r)
  {
    if items != [] {
      var init := items[..|items| - 1];
      var item := items[|items| - 1];
      SpellScanStep(h, items);
      SpellScanKeys(h, init);
      SpellScanGet(h, init, r);
      if item.system.SpellData? {
        PushRankedGet(SpellScan(h, init).value, item.system.rank, SpellAction(h, item), r);
      }
    }
  }

  /** The calls of the rank buckets: for the `i`-th, its group under `spells`
      and then its actions. */
  lemma {:induction false} RankGroupCallsAt(h: Host, b: Buckets<nat, Action>)
    ensures |RankGroupCalls(h, b)| == 2 * |b|
    ensures forall i :: 0 <= i < |b| ==>
              RankGroupCalls(h, b)[2 * i] == AddGroup(RankGroup(h, b[i].0), "spells")
              && RankGroupCalls(h, b)[2 * i + 1] == AddActions(b[i].1, RankGroup(h, b[i].0))
  {
    if b != [] {
      var init := b[..|b| - 1];
      var last := b[|b| - 1];
      RankGroupCallsAt(h, init);
      var g := RankGroup(h, last.0);
      var calls := RankGroupCalls(h, b);
      assert calls == RankGroupCalls(h, init) + [AddGroup(g, "spells"), AddActions(last.1, g)];
      forall i | 0 <= i < |b|
        ensures calls[2 * i] == AddGroup(RankGroup(h, b[i].0), "spells")
        ensures calls[2 * i + 1] == AddActions(b[i].1, RankGroup(h, b[i].0))
      {
        if i < |init| {
          assert b[i] == init[i];
          assert calls[2 * i] == RankGroupCalls(h, init)[2 * i];
          assert calls[2 * i + 1] == RankGroupCalls(h, init)[2 * i + 1];
        }
      }
    }
  }

  /** The spells tab: one `spells_rank_<r>` group per rank in use, in
      ascending rank, each filled with exactly that rank's spells; nothing
      when a spell item is malformed. */
  lemma SpellCallsShape(h: Host, actor: Actor)
    ensures SomeMalformed(actor.items, ["spell"]) ==> SpellCalls(h, actor) == []
    ensures !SomeMalformed(actor.items, ["spell"]) ==>
              SpellScan(h, actor.items).Some? &&
              var b := SpellScan(h, actor.items).value;
              |SpellCalls(h, actor)| == 2 * |b|
              && KeySet(b) == SpellRanks(actor.items)
              && forall i :: 0 <= i < |b| ==>
                   SpellCalls(h, actor)[2 * i] == AddGroup(RankGroup(h, b[i].0), "spells")
                   && SpellCalls(h, actor)[2 * i + 1] == AddActions(SpellsOfRank(h, actor.items, b[i].0), RankGroup(h, b[i].0))
                   && (i + 1 < |b| ==> b[i].0 < b[i + 1].0)
  {
    SpellScanFails(h, actor.items);
    if !SomeMalformed(actor.items, ["spell"]) {
      var b := SpellScan(h, actor.items).value;
      SpellScanKeys(h, actor.items);
      assert SpellCalls(h, actor) == RankGroupCalls(h, b);
      RankGroupCallsAt(h, b);
      AscendingDistinct(b);
      forall i | 0 <= i < |b| ensures b[i].1 == SpellsOfRank(h, actor.items, b[i].0) {
        GetAt(b, i);
        SpellScanGet(h, actor.items, b[i].0);
      }
    }
  }
}
