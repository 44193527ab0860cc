# Token Action HUD for Forbidden Lands — a Dafny model

This project models the two classes through which the Forbidden Lands system
plugs into Token Action HUD Core:

* the **action handler** (`scripts/action-handler.js`) builds the HUD menu for
  the selected token. When an actor is selected, it builds attribute and skill
  groups, the combat tab (weapon and armor groups, or a monster's attacks and
  armor, followed by the nine standard maneuvers), one group per spell rank,
  conditions, consumables and the token and character utilities. With no
  actor selected, it builds only the token utilities. The model is the class
  `ActionHandlers.ActionHandler`. Its builder methods append the host's
  `addGroup`/`addActions` calls to a `trace` field. Each method is proved to
  append exactly what a function of the actor data in module `Menu` says.
  The properties of those functions are proved in `SheetProperties`,
  `CombatProperties` and `BuildOrder`.
* the **roll handler** (`scripts/roll-handler.js`) decodes the
  `"<actionTypeId>|<actionId>"` payload of a clicked action. It then calls
  one sheet or combat-tracker operation for the selected actor, or for each
  controlled character or monster token. The model is module `RollHandlers`.
  There, a click yields the sequence of `Effect`s it causes (sheet rolls,
  `rollInitiative`, `nextTurn`, renders). `RollProperties` states what the
  dispatcher promises.

The model follows the code as written, including these points where its
behaviour may be unexpected:

* The weapon tooltip lists parry and disarm lines
  (`scripts/action-handler.js:230`). Clicking a weapon, however, always rolls
  the gear (`scripts/roll-handler.js:218-220`). No modifier key selects
  another roll.
* Group initiative rolls the first combatant of each token's actor, whether
  or not it has already rolled (`RollProperties.GroupRollsFirstCombatants`,
  `RollProperties.GroupInitiativeIgnoresRolls`). Single-actor initiative
  skips combatants that have rolled (`RollProperties.SingleActorInitiative`).
  `RollProperties.GroupRerollsRolledCombatant` gives a concrete case where
  the two differ.
* One skill whose attribute is missing throws inside the builder's
  `try`. The whole skills group is then dropped, not just that skill.
* The aggregate armor tooltip reports `"" + b1 + b2 + …`: the bonuses are
  concatenated as text, not added (`"12"` for bonuses 1 and 2).
* The consumable die comes from the dice table untranslated, and is `"0"`
  when the table has no entry.
* The guards `x.length === 0` are applied to keyed objects and to the item
  collection, which have no numeric `length`, so they never fire
  (`Menu.LengthIsZero`).

JavaScript object key order is modelled explicitly:

* String keys keep insertion order (`Buckets.Push`), so the weapon and armor
  groups appear in first-seen order.
* Integer-like keys are listed in ascending order (`Buckets.PushRanked`), so
  the spell-rank groups appear by ascending rank.

An item of an allowed type whose data lacks a field the builder reads makes
that builder throw. Its `catch` then returns before any group is added. The
model represents such an item by the `OtherData` variant.

## Model

| member | source | states |
|---|---|---|
| `ActionHandlers.ActionHandler.constructor` | scripts/action-handler.js:11 | the handler starts with no actors, no actor type and an empty trace of host calls |
| `ActionHandlers.ActionHandler.BuildSystemActions` | scripts/action-handler.js:18-30 | sets `actors` to the selected actor or to `#getActors()`, and `actorType` to the actor's type; appends the character menu, the monster menu, the token utilities (no actor) or nothing (any other actor type) |
| `ActionHandlers.ActionHandler.BuildCharacterActions` | scripts/action-handler.js:36-45 | appends the eight character builders' calls in source order |
| `ActionHandlers.ActionHandler.BuildMonsterActions` | scripts/action-handler.js:51-57 | appends attributes, skills, monster combat, spells and token utilities, in that order |
| `ActionHandlers.ActionHandler.BuildMultipleTokenActions` | scripts/action-handler.js:64-66 | appends only the token utility group |
| `ActionHandlers.ActionHandler.BuildAttributes` | scripts/action-handler.js:72-125 | the loop appends the `attributes` group under `character` with one action per canonical attribute key |
| `ActionHandlers.ActionHandler.BuildSkills` | scripts/action-handler.js:131-182 | the loop appends the `skills` group, or nothing once a skill's attribute is missing (the `catch` path) |
| `ActionHandlers.ActionHandler.BuildCombat` | scripts/action-handler.js:188-325 | the item loop fills the buckets and the armor text; a malformed item stops the builder with nothing appended; otherwise it appends the type groups, then the maneuvers |
| `ActionHandlers.ActionHandler.AddTypeGroups` | scripts/action-handler.js:281-293 | one `addGroup`/`addActions` pair per bucket under `combat`, in key order |
| `ActionHandlers.ActionHandler.AddManeuvers` | scripts/action-handler.js:295-324 | the `actions` group of the nine standard maneuvers under `combat` |
| `ActionHandlers.ActionHandler.BuildMonsterCombat` | scripts/action-handler.js:331-459 | the attack group led by `random`, the single monster armor action, then the maneuvers; nothing once an attack item is malformed |
| `ActionHandlers.ActionHandler.BuildSpells` | scripts/action-handler.js:465-521 | one group per rank bucket under `spells`, in ascending rank; nothing once a spell item is malformed |
| `ActionHandlers.ActionHandler.BuildConditions` | scripts/action-handler.js:527-567 | appends the condition actions to the `conditions` group, without an `addGroup` |
| `ActionHandlers.ActionHandler.BuildConsumables` | scripts/action-handler.js:573-612 | appends the consumable actions to the `consumables` group, without an `addGroup` |
| `ActionHandlers.ActionHandler.BuildTokenUtility` | scripts/action-handler.js:618-688 | appends the `token` group under `utility` with the initiative action and, on the token's own turn, end turn |
| `ActionHandlers.ActionHandler.BuildCharacterUtility` | scripts/action-handler.js:694-736 | appends the `character_utils` group with rest, pride and reputation |
| `ActionHandlers.SkillsFailFromPrefix` | scripts/action-handler.js:140-169 | once a skill prefix has thrown, the whole skill scan fails, which is why the loop may stop early |
| `ActionHandlers.CombatFailsFromPrefix` | scripts/action-handler.js:198-264 | once an item prefix has thrown, the combat scan fails |
| `ActionHandlers.MonsterFailsFromPrefix` | scripts/action-handler.js:346-387 | once an item prefix has thrown, the monster scan fails |
| `ActionHandlers.SpellsFailFromPrefix` | scripts/action-handler.js:473-508 | once an item prefix has thrown, the spell scan fails |
| `Menu.TokenIds` | scripts/action-handler.js:648 | one id per controlled token, in order |
| `Menu.MatchedCombatants` | scripts/action-handler.js:649-651 | exactly the combatants whose token is controlled |
| `Menu.MatchedCombatantsAppend` | scripts/action-handler.js:649-651 | the filter keeps the combatants' order and repeats: it distributes over concatenation |
| `Menu.MatchedCombatantsOne` | scripts/action-handler.js:649-651 | a single combatant is kept iff its token is controlled |
| `Menu.NoMatch` | scripts/action-handler.js:649-661 | no combatant is kept iff none belongs to a controlled token |
| `Menu.OneMatch` | scripts/action-handler.js:649-658 | the badge condition, one kept combatant, holds iff exactly one combatant, counting repeats, belongs to a controlled token |
| `Menu.EveryRolled` | scripts/action-handler.js:662 | true iff every combatant's initiative is truthy |
| `Menu.MatchedRolled` | scripts/action-handler.js:660-664 | the filter-then-every test is lit iff some combatant belongs to a controlled token and all such have rolled |
| `Menu.InitiativeAction` | scripts/action-handler.js:638-675 | without a combat the class is empty and there is no badge; with one it is a toggle, lit iff all matched combatants rolled, with a badge showing the initiative iff exactly one matches (see `Menu.OneMatch`) |
| `Menu.TokenUtilityActions` | scripts/action-handler.js:622-636 | initiative always; end turn iff the current turn's token id equals the selected token's id (`undefined` equal to `undefined`) |
| `Menu.CharacterUtilityActions` | scripts/action-handler.js:698-724 | rest, pride and reputation, in that order, each with action type `utility` and its own id |
| `Menu.TokenActors` | scripts/action-handler.js:742-744 | exactly the actors of the tokens that have one |
| `Menu.GetActors` | scripts/action-handler.js:739-750 | all the tokens' actors iff every one is a character or monster, otherwise none |
| `Foundry.Lookup` | scripts/action-handler.js:144 | an attribute is found iff its key is present, and then it is that key's value |
| `Js.Upper` | scripts/action-handler.js:210 | `toUpperCase` keeps the length and upper-cases each ASCII letter |
| `Js.NatToStringDigits` | scripts/action-handler.js:513 | a rank's text is a non-empty run of decimal digits |
| `Js.Split` | scripts/roll-handler.js:16 | at least one piece, none holding the separator; a single piece iff the text has no separator |
| `Js.SplitNoSeparator` | scripts/roll-handler.js:16 | text without the separator splits into itself |
| `Js.SplitAtFirstSeparator` | scripts/roll-handler.js:16 | the first separator ends the first piece |
| `Buckets.PushGet` | scripts/action-handler.js:251-259 | pushing under a key adds the action at the end of that key's list and leaves the others unchanged |
| `Buckets.PushKeys` | scripts/action-handler.js:251-259 | the key joins the key set; distinct keys and non-empty lists are kept |
| `Buckets.PushRankedGet` | scripts/action-handler.js:495-503 | a push under a rank adds the action to that rank's list only |
| `Buckets.PushRankedKeys` | scripts/action-handler.js:495-503 | the rank joins the key set |
| `Buckets.PushRankedAscending` | scripts/action-handler.js:512 | integer keys stay in ascending order, as `Object.keys` lists them |
| `Buckets.PushRankedNonEmpty` | scripts/action-handler.js:495-503 | no rank's list is ever empty |
| `SheetProperties.AttributeActionsSpec` | scripts/action-handler.js:86-107 | an action for an entry iff its key is canonical, with id the key and action type `attributes` and action id the key |
| `SheetProperties.SkillActionsFail` | scripts/action-handler.js:141-149 | the skill scan fails iff some skill names an attribute the actor lacks |
| `SheetProperties.SkillActionsTotals` | scripts/action-handler.js:141-164 | one action per skill, in order, whose tooltip shows the attribute value, the skill value and their sum |
| `SheetProperties.SkillsAllOrNothing` | scripts/action-handler.js:137-181 | the skills group is empty iff some skill's attribute is missing, and otherwise holds every skill |
| `SheetProperties.ConditionActionsSpec` | scripts/action-handler.js:537-551 | one action per condition; class `" active"` iff the condition is set, `""` iff not |
| `SheetProperties.ConsumableActionsSpec` | scripts/action-handler.js:583-596 | one action per consumable named by its label and its die, `"0"` when the table has none |
| `CombatProperties.CombatScanFails` | scripts/action-handler.js:198-264 | the combat scan fails iff some weapon or armor item is malformed |
| `CombatProperties.CombatScanTotal` | scripts/action-handler.js:240 | the armor total is the armor bonuses' texts concatenated |
| `CombatProperties.CombatScanWeapons` | scripts/action-handler.js:251-259 | the `weapon` bucket holds the weapon actions, in item order |
| `CombatProperties.CombatScanArmor` | scripts/action-handler.js:251-259 | the `armor` bucket holds the armor actions, in item order |
| `CombatProperties.CombatScanKeys` | scripts/action-handler.js:251 | each key appears once and is non-empty; a key is present iff an item of its type is |
| `CombatProperties.CombatBucketsFail` | scripts/action-handler.js:261-264 | the buckets exist iff no weapon or armor item is malformed |
| `CombatProperties.CombatBucketsSpec` | scripts/action-handler.js:266-279 | the `armor` bucket always exists and ends in the aggregate `all` action; the `weapon` bucket exists iff there is a weapon |
| `CombatProperties.CombatBucketsArmorLast` | scripts/action-handler.js:278-279 | with no armor item, the armor bucket holds only the aggregate action and comes last |
| `CombatProperties.ArmorTotalConcatenates` | scripts/action-handler.js:196-240 | bonuses 1 and 2 give the total text `"12"` |
| `CombatProperties.TypeGroupCallsAt` | scripts/action-handler.js:283-293 | the `i`-th bucket gives calls `2i` (its group under `combat`) and `2i+1` (its actions) |
| `CombatProperties.TypeGroupHolds` | scripts/action-handler.js:291-292 | a present key's group receives that key's actions |
| `CombatProperties.TypeGroupMentions` | scripts/action-handler.js:283-293 | a key has a group iff it is present |
| `CombatProperties.CombatCallsShape` | scripts/action-handler.js:188-325 | nothing when an item is malformed; otherwise the type groups, then the maneuvers last |
| `CombatProperties.CombatArmorGroup` | scripts/action-handler.js:278-292 | the armor group holds the armor items' actions, then the aggregate one |
| `CombatProperties.CombatWeaponGroup` | scripts/action-handler.js:251-292 | a weapon group appears iff there is a weapon |
| `CombatProperties.ManeuverActionsAt` | scripts/action-handler.js:308-314 | one action per maneuver, in order, with its translated label and action type `action` and action id the maneuver's value |
| `CombatProperties.NineManeuvers` | scripts/action-handler.js:296-314 | exactly the nine maneuvers, in their fixed order |
| `CombatProperties.MonsterScanSpec` | scripts/action-handler.js:346-387 | the monster scan fails iff an attack item is malformed; otherwise one action per attack item, in order |
| `CombatProperties.MonsterCombatShape` | scripts/action-handler.js:331-459 | the attacks group led by `random`, the armor group with only the `monster` action, then the maneuvers; nothing when an attack item is malformed |
| `CombatProperties.MonsterArmorNote` | scripts/action-handler.js:407-424 | the monster armor action rolls the whole armor and has the description line iff the description is non-empty |
| `CombatProperties.SpellScanFails` | scripts/action-handler.js:473-508 | the spell scan fails iff some spell item is malformed |
| `CombatProperties.SpellRanksInit` | scripts/action-handler.js:495 | the ranks in use after one more item |
| `CombatProperties.SpellScanKeys` | scripts/action-handler.js:495-497 | one bucket per rank in use, ascending, none empty |
| `CombatProperties.SpellScanGet` | scripts/action-handler.js:497-503 | each rank's bucket holds that rank's spells, in item order |
| `CombatProperties.RankGroupCallsAt` | scripts/action-handler.js:511-520 | the `i`-th rank bucket gives the group `spells_rank_<r>` under `spells`, then its actions |
| `CombatProperties.SpellCallsShape` | scripts/action-handler.js:465-521 | one group per rank in use, in ascending rank, each holding exactly that rank's spells; nothing when a spell item is malformed |
| `BuildOrder.Phase` | scripts/action-handler.js:36-45 | every group id has one of the nine phases |
| `BuildOrder.RankPhase` | scripts/action-handler.js:513 | a `spells_rank_<r>` group is in the spells phase |
| `BuildOrder.GroupCallsPhase` | scripts/action-handler.js:123-124 | a group's two calls share the group's phase |
| `BuildOrder.AttributesPhase` | scripts/action-handler.js:116-124 | the attribute builder's calls are all in phase 0 |
| `BuildOrder.SkillsPhase` | scripts/action-handler.js:173-181 | the skill builder's calls are all in phase 1 |
| `BuildOrder.TypeGroupsPhase` | scripts/action-handler.js:283-293 | `weapon`/`armor` bucket groups are in the combat phase |
| `BuildOrder.ManeuversPhase` | scripts/action-handler.js:316-324 | the maneuvers group is in the combat phase |
| `BuildOrder.CombatPhase` | scripts/action-handler.js:188-325 | every call of the standard combat tab is in the combat phase |
| `BuildOrder.MonsterCombatPhase` | scripts/action-handler.js:331-459 | every call of the monster combat tab is in the combat phase |
| `BuildOrder.RankGroupsPhase` | scripts/action-handler.js:512-520 | rank groups are in the spells phase |
| `BuildOrder.SpellsPhase` | scripts/action-handler.js:465-521 | every call of the spell builder is in the spells phase |
| `BuildOrder.ConditionsPhase` | scripts/action-handler.js:559-566 | the condition builder's call is in phase 4 |
| `BuildOrder.ConsumablesPhase` | scripts/action-handler.js:604-611 | the consumable builder's call is in phase 5 |
| `BuildOrder.TokenUtilityPhase` | scripts/action-handler.js:678-687 | the token utility calls are in phase 6 |
| `BuildOrder.CharacterUtilityPhase` | scripts/action-handler.js:726-735 | the character utility calls are in phase 7 |
| `BuildOrder.CharacterMenuOrdered` | scripts/action-handler.js:36-45 | the character menu's groups come in builder order: attributes, skills, combat, spells, conditions, consumables, token and character utilities |
| `BuildOrder.MonsterMenuOrdered` | scripts/action-handler.js:51-57 | the monster menu is in builder order and has no condition, consumable or character-utility group |
| `BuildOrder.MenuByActorType` | scripts/action-handler.js:18-30 | `SystemCalls` by actor: no actor, only the token utilities; an unknown actor type, nothing; a character or monster, an ordered menu |
| `RollHandlers.Decode` | scripts/roll-handler.js:16 | neither the type nor the id holds the separator; the id is `undefined` iff the payload has no separator |
| `RollHandlers.DecodeEncoded` | scripts/roll-handler.js:16 | decoding a type and an id joined by the separator gives both back |
| `RollHandlers.DecodeWithoutId` | scripts/roll-handler.js:16 | a payload without the separator decodes to the whole type and no id |
| `RollHandlers.DecodeTruncates` | scripts/roll-handler.js:16 | an id holding the separator is cut at it |
| `RollHandlers.ArmorOp` | scripts/roll-handler.js:203-209 | `all` and `monster` roll the whole armor; any other id rolls that armor piece |
| `RollHandlers.MonsterAttackOp` | scripts/roll-handler.js:229-235 | `random` rolls a random attack; any other id rolls that attack |
| `RollHandlers.ActorActionOp` | scripts/roll-handler.js:76-103 | an actor operation exists iff the type is one of the nine actor action types |
| `RollHandlers.Pending` | scripts/roll-handler.js:143 | exactly the combatants whose initiative is falsy |
| `RollHandlers.FirstOfActor` | scripts/roll-handler.js:144 | none iff no combatant belongs to the actor; otherwise the first combatant of that actor |
| `RollHandlers.InitiativeEffects` | scripts/roll-handler.js:140-147 | a rejection iff there is no combat; any roll is of one of the actor's combatants that has not rolled and has an id |
| `RollHandlers.EndTurnEffects` | scripts/roll-handler.js:148-152 | next turn iff the current turn is this token's; a rejection iff there is no token |
| `RollHandlers.HandleAction` | scripts/roll-handler.js:75-108 | an actor action type gives exactly its one operation on the actor; an unknown type gives nothing |
| `RollHandlers.TokenCombatantId` | scripts/roll-handler.js:166-168 | nothing when no combatant belongs to the token's actor; otherwise the id of the first such combatant, whatever its initiative, when that id is non-empty |
| `RollHandlers.CollectIds` | scripts/roll-handler.js:165-169 | at most one id per token |
| `RollHandlers.HandleGroupInitiative` | scripts/roll-handler.js:161-172 | the loop is proved equal to `GroupInitiative`: it collects the ids token by token, then makes one roll of all of them, if any |
| `RollHandlers.KnownTokens` | scripts/roll-handler.js:33-34 | exactly the controlled tokens whose actor is a character or a monster |
| `RollProperties.KnownTokensAppend` | scripts/roll-handler.js:33-34 | the token filter keeps the controlled order and repeats: it distributes over concatenation |
| `RollProperties.KnownTokensOne` | scripts/roll-handler.js:33-34 | a single token is kept iff its actor is a character or a monster |
| `RollHandlers.HandleActionClick` | scripts/roll-handler.js:15-46 | the loop is proved equal to `ClickEffects`: render the item, or handle the action for the selected actor, or roll group initiative, or handle the action once per known token; the four click lemmas below state each branch |
| `RollProperties.OneOperationPerAction` | scripts/roll-handler.js:76-103 | each actor action type makes exactly one sheet call; a weapon always rolls the gear |
| `RollProperties.CharacterUtilityClicks` | scripts/roll-handler.js:129-139 | each character utility the menu offers makes one call on the actor: rest, the pride roll, the reputation roll |
| `RollProperties.UnknownUtilityDoesNothing` | scripts/roll-handler.js:130-153 | an unknown utility id does nothing |
| `RollProperties.FirstPendingIsFirst` | scripts/roll-handler.js:143-144 | filter-then-find picks the actor's first combatant that has not rolled |
| `RollProperties.FirstPendingUnique` | scripts/roll-handler.js:143-144 | there is at most one such first combatant |
| `RollProperties.SingleActorInitiative` | scripts/roll-handler.js:140-147 | single-actor initiative rolls exactly that first combatant, when it has an id, and does nothing when all the actor's combatants rolled |
| `RollProperties.EndTurnOnlyOnOwnTurn` | scripts/roll-handler.js:148-152 | end turn advances the combat iff it is the token's turn |
| `RollProperties.CollectIdsAppend` | scripts/roll-handler.js:165-169 | the ids of two runs of tokens are the ids of each, in order |
| `RollProperties.CollectIdsMembers` | scripts/roll-handler.js:165-169 | an id is collected iff some token contributes it |
| `RollProperties.GroupInitiativeRollsCollected` | scripts/roll-handler.js:163-171 | no roll iff no id was collected; otherwise one roll of exactly the collected ids |
| `RollProperties.TokenContributesFirst` | scripts/roll-handler.js:166-168 | a token contributes only the non-empty id of its actor's first combatant |
| `RollProperties.GroupRollsFirstCombatants` | scripts/roll-handler.js:161-171 | an id is rolled iff it is the non-empty id of the first combatant of some token's actor, rolled or not |
| `RollProperties.TokenIgnoresInitiative` | scripts/roll-handler.js:166-168 | what a token contributes depends on the combatants' ids and actors, not on their initiative |
| `RollProperties.GroupInitiativeIgnoresRolls` | scripts/roll-handler.js:161-172 | two combats that differ only in initiatives give the same group roll |
| `RollProperties.GroupInitiativeWithoutCombatants` | scripts/roll-handler.js:161-172 | no combat rejects; a combat without combatants rolls nothing |
| `RollProperties.GroupRerollsRolledCombatant` | scripts/roll-handler.js:140-170 | for one actor whose only combatant has rolled, single-actor initiative rolls nothing, while group initiative rolls it again, once per token of that actor |
| `RollProperties.FanOutPerToken` | scripts/roll-handler.js:39-42 | `FanOut` gives one operation per known token, in token order, on that token's actor |
| `RollProperties.FanOutUnknownType` | scripts/roll-handler.js:39-42 | an unknown type does nothing however many tokens are controlled |
| `RollProperties.RenderItemClick` | scripts/roll-handler.js:18-22 | with render-item on, an item click only renders the item |
| `RollProperties.SingleActorClick` | scripts/roll-handler.js:27-30 | with an actor selected, the action is handled once, for it and its token |
| `RollProperties.GroupInitiativeClick` | scripts/roll-handler.js:36-37 | with no actor selected, initiative goes to the group roll over the known tokens |
| `RollProperties.MultiActorClick` | scripts/roll-handler.js:33-43 | with no actor selected, an actor action becomes one operation per known token, in their controlled order, each on a controlled character or monster |

## Left out

- Registration through `Hooks.once` and the extension of Token Action HUD Core's base classes are not modelled. The host's `addGroup`/`addActions` are recorded in a trace instead of being executed.
- Tooltip HTML is modelled as a structured title and list of lines, not as markup. The tooltip's CSS class and direction constants are left out.
- `Utils.getImage` (`scripts/utils.js`) is an opaque function of the item. `scripts/utils.js` is not part of this model.
- `Utils.i18n` is an opaque translation function. The language tables are not modelled.
- The builders are `async` but contain no `await`, so they run to completion in call order. The model runs them sequentially.
- `Rejected` stands for a `TypeError` that ends one un-awaited async handler while the click carries on. Promise scheduling is not modelled.
- `handleActionHover` and `handleGroupClick` have empty bodies. `#handleItemAction` is never called. None of the three is modelled.
- The `event` argument is passed to the per-type handlers but none of them reads it, so it is not modelled.
- `scripts/defaults.js` (the default layout) and `scripts/constants.js` (the type-to-label tables) are not modelled. Only the `utility` label key used in `listName` is kept.
- `Js.Upper`: upper-cases ASCII letters only. The keys and setting values the builders upper-case are ASCII.
- Spell ranks are modelled as natural numbers. A rank that is not an integer-like key would be ordered by insertion in JavaScript, and that case is not modelled.
- A monster's `armor` items fall into a bucket that the monster builder never emits. The model drops them, with the same visible result.
- The branch of `#buildAttributes` that reads `game.fbl.config.attributes` when no actor is selected is dead. The builder only runs with an actor, so it is not modelled.
- `game.combat.rollInitiative` is called with a single id in one place and an array in the other. Both are modelled as a sequence of ids.
- `Logger.error` in every `catch` only logs, so it is not modelled beyond the empty result.
