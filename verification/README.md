# Demon Lord system for Foundry VTT: rules, migrations and status hooks in Dafny

This project models three parts of the Shadow of the Demon Lord game system for Foundry VTT.

- **The affliction gate and effect summaries** of `ActorAfflictionsEffects`:
  - whether an affliction blocks a roll, and the error notice that goes with it;
  - the boons/banes summary lines of afflictions and actions;
  - the summary lines of a talent.
- **The world migrations** run at start-up (`handleMigrations`):
  - the 1.7.7 step: data-model merge of every actor;
  - the 2.0.0 step: icon moves and default icons, and the reset of character statistics;
  - the 3.1.0 step: `strengthmin` becomes a structured `requirement`, and a numeric `corruption` becomes `{value, immune}`;
  - the helpers `_getNewImgPath`, `_resetActorData`, `_nullToUndefined` and `migrateItemData`.
- **The hooks of the entry script**:
  - the label tables of `createActiveEffect` / `deleteActiveEffect`;
  - `toggleEffect`, and how `createToken` and `updateActor` bring a token's status icons in line with the actor's flags;
  - the initiative `updateActor` gives an actor's combatants;
  - the `ready` migration gate;
  - the `concat` template helper;
  - the status-effect list built in `setup`;
  - the token defaults of `preCreateActor`.

## How the host is modelled

The host (Foundry) is modelled in these terms:

- **JavaScript values** are a datatype `JsValue`, with JavaScript truthiness (`Truthy`), `??`, `?.` and `typeof … === 'object'`.
- **The world a migration runs on** is a value: its items, actors and compendium packs. A step returns the new world and a log of what it asked of the host: notifications and writes.
- **Host writes that throw** are a parameter. `failing` is the set of write targets the host rejects. A rejected write leaves its documents unchanged, and is logged with `ok == false`.
- **Host functions whose code is not part of this model** are parameters. This covers `isNewerVersion` (`newer`), the result of `mergeObject` inside `migrateActorData`, the answer to the 2.0.0 dialog, and the `CONFIG.DL.defaultItemIcons` table.
- **Localisation** is uninterpreted: a localised text is the symbolic term `Localize(key)`.

The following are Dafny classes, because the source updates their fields in place:

- the actor record that `_resetActorData` and `_nullToUndefined` rewrite;
- the actor document and the tokens the status hooks update;
- the `changes` object of `preCreateActor`.

Every loop of the source is a method, proved equal to a specification function. The properties are lemmas about those functions.

Files:

- `js_values.dfy`, `strings.dfy`: JavaScript values and the string operations used (`includes`, `replace`, capitalising).
- `afflictions_effects.dfy`: `ActorAfflictionsEffects`.
- `migration_transforms.dfy`: records, update patches, and the per-document transformations of the migrations.
- `migration_world.dfy`: the world, write targets, the event log, and bulk writes.
- `migration_177.dfy`, `migration_200.dfy`, `migration_310.dfy`, `migration_310_facts.dfy`: the three steps and their properties.
- `migration_pipeline.dfy`: `handleMigrations`.
- `status_hooks.dfy`, `system_hooks.dfy`: the entry script's hooks.

## Model

| member | source | states |
|---|---|---|
| AfflictionsEffects.FirstAfflicted | src/module/actor/actor-afflictions-effects.js:22-27 | the index found is the first afflicted name of the list, and it is `None` exactly when no listed name is afflicted |
| AfflictionsEffects.CheckRollBlockingAfflictions | src/module/actor/actor-afflictions-effects.js:21-30 | the roll is blocked iff some listed affliction is truthy; exactly one error notice is raised, for the first such affliction; no notice when not blocked |
| AfflictionsEffects.FirstAfflictedAt | src/module/actor/actor-afflictions-effects.js:22-27 | an afflicted name preceded only by unafflicted ones is the one the loop stops at |
| AfflictionsEffects.CheckConditionalRollBlockingAffliction | src/module/actor/actor-afflictions-effects.js:38-47 | a falsy flag never blocks; otherwise it blocks iff the actor has the affliction; one notice exactly when blocked |
| AfflictionsEffects.WarningTableNeverConsulted | src/module/actor/actor-afflictions-effects.js:6-13 | bracket access on the warning `Map` never yields the table's message, so every blocking notice localises the same undefined key |
| AfflictionsEffects.EffectLines | src/module/actor/actor-afflictions-effects.js:75-82 | one summary line per active effect, in order, each carrying the roll-type label and the number |
| AfflictionsEffects.BuildAfflictionsEffects | src/module/actor/actor-afflictions-effects.js:58-84 | `null` exactly for roll types other than SPELL, CHALLENGE and ATTACK; otherwise the lines of the active effects under that roll type's label |
| AfflictionsEffects.RollTypeLabels | src/module/actor/actor-afflictions-effects.js:61-71 | SPELL and CHALLENGE share a label that differs from ATTACK's; only these three have one |
| AfflictionsEffects.ActiveEffectsAppend | src/module/actor/actor-afflictions-effects.js:75-77 | filtering for active effects distributes over concatenating effect lists |
| AfflictionsEffects.ActiveEffectsCount | src/module/actor/actor-afflictions-effects.js:76-77 | an effect appears in the summary as often as it is listed if the actor has it as an affliction or action, and otherwise not at all |
| AfflictionsEffects.ActiveEffectsEmpty | src/module/actor/actor-afflictions-effects.js:75-83 | the summary is empty iff no listed effect is active |
| AfflictionsEffects.AttributeLinesOf | src/module/actor/actor-afflictions-effects.js:101-105 | one boons/banes line per selected attribute, with the block's `boonsbanes` value |
| AfflictionsEffects.AppendAttributeBoonsBanes | src/module/actor/actor-afflictions-effects.js:100-105 | the loop over the five attribute selectors appends exactly the attribute lines of the block |
| AfflictionsEffects.AppendToggled | src/module/actor/actor-afflictions-effects.js:107-114 | an optional line is appended iff its switch and its value are both truthy |
| AfflictionsEffects.AppendTalentOnly | src/module/actor/actor-afflictions-effects.js:122-152 | the TALENT-only part appends the challenge, versus, healing, damage and bonus lines of the talent |
| AfflictionsEffects.AppendBonuses | src/module/actor/actor-afflictions-effects.js:143-152 | the defense, health, speed and power bonus lines, each iff active and non-zero |
| AfflictionsEffects.BuildTalentEffects | src/module/actor/actor-afflictions-effects.js:94-155 | the talent summary as the source assembles it, with a header-only result collapsed to empty |
| AfflictionsEffects.AppendActionLines | src/module/actor/actor-afflictions-effects.js:99-114 | the `action` block adds exactly its attribute boons/banes, extra damage and +20 lines, after what was there |
| AfflictionsEffects.SelectedAttributesSpec | src/module/actor/actor-afflictions-effects.js:86-92 | an attribute is selected iff its selector field is truthy, and selected attributes keep the table's order |
| AfflictionsEffects.AttributeLinesSpec | src/module/actor/actor-afflictions-effects.js:100-105 | with boons/banes off there are no attribute lines; with it on, an attribute has a line iff it is selected, in table order |
| AfflictionsEffects.NoBareHeader | src/module/actor/actor-afflictions-effects.js:116-154 | a summary is never the talent name alone, and it is empty iff the talent contributes no line |
| AfflictionsEffects.ActionLinesAreModifiers | src/module/actor/actor-afflictions-effects.js:100-114 | the action part contributes only modifier lines, never a header |
| AfflictionsEffects.TalentOnlyLinesAreModifiers | src/module/actor/actor-afflictions-effects.js:122-152 | the TALENT-only part contributes only modifier lines |
| AfflictionsEffects.ModifiersOnly | src/module/actor/actor-afflictions-effects.js:101-105 | attribute lines are modifier lines |
| AfflictionsEffects.NonTalentIgnoresTalentBlocks | src/module/actor/actor-afflictions-effects.js:116-118 | for a roll other than TALENT only the `action` block matters, and the summary has at most eight lines |
| AfflictionsEffects.SelectedLength | src/module/actor/actor-afflictions-effects.js:101-105 | no more attributes are selected than the table has selectors |
| AfflictionsEffects.TalentDamageLine | src/module/actor/actor-afflictions-effects.js:139-140 | for a TALENT roll the flat damage line has no toggle: it is listed iff `data.damage` is truthy |
| AfflictionsEffects.NoBonusLinesUnderName | src/module/actor/actor-afflictions-effects.js:142-152 | with the talent name shown, no defense, health, speed or power bonus line is ever listed |
| AfflictionsEffects.ToggledLineLabel | src/module/actor/actor-afflictions-effects.js:107-114 | a toggled line, when listed, is a modifier under its own locale key |
| AfflictionsEffects.VsAndHealingLabels | src/module/actor/actor-afflictions-effects.js:133-138 | the vs and healing lines are modifiers under the vs boons/banes, vs damage and healing keys only |
| MigrationTransforms.ApplyItemPatches | src/module/migration.js:57 | a bulk item update keeps every item's id, kind and `strengthmin`, and updates each item by the patches naming it |
| MigrationTransforms.ApplyActorPatches | src/module/migration.js:156 | a bulk actor update keeps every actor's id and embedded items |
| MigrationTransforms.StrengthminPatch | src/module/migration.js:49-51 | an item gets an update iff its `strengthmin` is truthy; the update sets `requirement` to Strength with that minimum |
| MigrationTransforms.StrengthminPatchesSpec | src/module/migration.js:47-52 | the collected updates are exactly those of the items with a truthy `strengthmin`, and none iff no item has one |
| MigrationTransforms.StrengthminSurvivesUpdates | src/module/migration.js:49-57 | `strengthmin` is never cleared, so after any bulk item update the same updates are collected again |
| MigrationTransforms.StrengthminUpdateSetsRequirement | src/module/migration.js:50 | applying an item's update gives it the Strength requirement and leaves its `strengthmin` in place |
| MigrationTransforms.CorruptionPatch | src/module/migration.js:123-126 | an actor gets an update iff its corruption is numeric; the new corruption is `{value, immune: false}` with the old value |
| MigrationTransforms.CorruptionKeepsValue | src/module/migration.js:125 | the `?? 0` fallback never applies: a numeric corruption is kept as the value |
| MigrationTransforms.CorruptionPatchesConvert | src/module/migration.js:122-127 | an actor named by a corruption update no longer has a numeric corruption; an actor not named is unchanged |
| MigrationTransforms.StructuredStaysStructured | src/module/migration.js:123 | a corruption already converted stays non-numeric under corruption updates |
| MigrationTransforms.CorruptionPatchesSpec | src/module/migration.js:122-127 | every collected update converts corruption, and every actor with a numeric corruption has one |
| MigrationTransforms.CorruptionConvertedOnce | src/module/migration.js:119-158 | after the converted actors are written back, no actor needs converting again |
| MigrationTransforms.NoNumericNoPatches | src/module/migration.js:152 | with no numeric corruption nothing is collected, so no bulk write is issued |
| MigrationTransforms.GetNewImgPath | src/module/migration.js:290-304 | a legacy icon path is moved; otherwise, only with the default-icon option, a mystery-man placeholder and an item, the type's default icon; otherwise nothing |
| MigrationTransforms.MovedIconPathSpec | src/module/migration.js:291-293 | a moved path replaces the first `/demonlord/icons` by `/demonlord/assets/icons` and then the first `.png` by `.webp` |
| MigrationTransforms.PathIconFallsBackToNovice | src/module/migration.js:297-299 | a path item whose path type has no (or an empty) icon gets the novice icon |
| MigrationTransforms.PlaceholderIsNotLegacy | src/module/migration.js:290-303 | the placeholder icon is never a legacy path, so the two branches of `_getNewImgPath` do not overlap |
| MigrationTransforms.ResetActorData | src/module/migration.js:306-318 | the actor record's attributes become 10, its health, healing rate, defense, power and insanity maximum 0, its speed 10; the other fields are kept |
| MigrationTransforms.ResetForgetsStats | src/module/migration.js:306-318 | two records reset to the same record iff they agree on the fields the reset does not touch; resetting twice is resetting once |
| MigrationTransforms.NullToUndefinedFields | src/module/migration.js:426-435 | the conversion keeps the object's keys |
| MigrationTransforms.NullToUndefined | src/module/migration.js:426-435 | the loop over the entries rewrites the object in place into its converted form |
| MigrationTransforms.NullToUndefinedRemovesNulls | src/module/migration.js:428-432 | no `null` remains, down to the recursion depth |
| MigrationTransforms.NullToUndefinedKeepsOthers | src/module/migration.js:428-432 | `null` becomes `undefined`, other non-object values are kept, and at depth 0 objects are not entered |
| MigrationTransforms.NullToUndefinedIdempotent | src/module/migration.js:426-435 | converting twice is converting once |
| MigrationTransforms.MigrateItemData | src/module/migration.js:405-418 | the item update is always empty |
| MigrationWorld.WriteItems | src/module/migration.js:53-63 | a bulk item write is logged; it applies the updates unless the host rejects it, and a rejection marks the phase failed |
| MigrationWorld.WriteActors | src/module/migration.js:152-162 | the same for a bulk actor write |
| MigrationWorld.CollectStrengthminUpdates | src/module/migration.js:47-52 | the loop collects exactly the `strengthmin` updates of the items |
| Migration310.MigrateWorldItems | src/module/migration.js:44-63 | the world-item loop and its single bulk write, as specified by `WorldItemsPhase` |
| Migration310.MigrateActorEmbedded | src/module/migration.js:68-88 | one actor's embedded-item loop and its write, issued only when some update was collected |
| Migration310.EmbeddedPass | src/module/migration.js:66-93 | the embedded-item pass keeps the number of actors |
| Migration310.MigrateEmbeddedItems | src/module/migration.js:66-93 | the pass over all world actors' embedded items |
| Migration310.MigrateItemPacks | src/module/migration.js:96-117 | only unlocked Item packs are visited; each with updates gets one write |
| Migration310.MigrateWorldActors | src/module/migration.js:120-162 | corruption is collected for every actor, embedded items are written a second time, then the single bulk actor write |
| Migration310.PackActorsPass | src/module/migration.js:168-199 | an actor whose corruption is not numeric is skipped; the pass keeps the actor list's length |
| Migration310.MigratePackActors | src/module/migration.js:168-199 | the pack-actor loop, skipping converted actors, returns the pack's corruption updates |
| Migration310.MigrateActorPack | src/module/migration.js:165-204 | one Actor compendium: its embedded items, then its bulk write, whose rejection is reported as the loop's abort |
| Migration310.ActorPacksPhase | src/module/migration.js:164-208 | the actor-pack pass keeps the number of packs |
| Migration310.MigrateActorPacks | src/module/migration.js:164-208 | unlocked Actor packs in order; a rejected bulk write ends the loop, leaving the remaining packs as they were |
| Migration310.AbortedPassSkipsRest | src/module/migration.js:201-207 | once a pack's bulk write is rejected, every later pack is left untouched |
| Migration310.MigrateWorld310 | src/module/migration.js:35-212 | the whole 3.1.0 step, as specified by `Migrate310` |
| Migration310Facts.PatchListSameStrengthmin | src/module/migration.js:68-75 | actors whose items need the same updates yield the same list of embedded writes |
| Migration310Facts.CorruptionSameSystems | src/module/migration.js:122-127 | actors with the same ids and data yield the same corruption updates |
| Migration310Facts.EmbeddedUpdateFacts | src/module/migration.js:68-88 | one actor's embedded pass keeps its id and data; it writes iff something was collected, and its failure shows in the log |
| Migration310Facts.EmbeddedPassEvents | src/module/migration.js:66-93 | the embedded pass logs only non-empty writes of that pass, and fails iff one is rejected |
| Migration310Facts.EmbeddedPassWrites | src/module/migration.js:66-93 | the embedded pass writes exactly the `strengthmin` updates of each actor that has some, in actor order |
| Migration310Facts.EmbeddedPassValues | src/module/migration.js:66-93 | the pass keeps each actor's id and data and the `strengthmin` updates its items need |
| Migration310Facts.ItemPacksEvents | src/module/migration.js:96-117 | Item-pack writes go only to item-pack items and are never empty; the phase fails iff one is rejected |
| Migration310Facts.ItemPacksValues | src/module/migration.js:96-117 | locked or non-Item packs are unchanged, and every pack keeps its id, lock, type and actors |
| Migration310.ItemPacksPhase | src/module/migration.js:96-117 | the pack phase keeps the number of packs |
| Migration310Facts.PackActorsEvents | src/module/migration.js:168-199 | a pack's actor pass writes only that pack's embedded items, never an empty list, and fails iff a write is rejected |
| Migration310Facts.PackActorsValues | src/module/migration.js:168-199 | converted actors are skipped unchanged, and every actor keeps its id and data |
| Migration310Facts.ActorPackUpdateFacts | src/module/migration.js:165-204 | one Actor pack gets at most one bulk write, exactly when some actor has a numeric corruption |
| Migration310Facts.ActorPacksFacts | src/module/migration.js:164-208 | the Actor-pack phase fails iff some write is rejected; an aborted loop has failed |
| Migration310Facts.EmbeddedItemsProcessedTwice | src/module/migration.js:66-149 | the world actors' embedded-item updates are written twice, the same list each time |
| Migration310Facts.WorldActorsFacts | src/module/migration.js:120-162 | at most one bulk actor write, exactly when some actor has a numeric corruption; no world-item write |
| Migration310Facts.WorldItemsFacts | src/module/migration.js:44-63 | at most one bulk item write, exactly when some item has a truthy `strengthmin` |
| Migration310Facts.Migrate310Notices | src/module/migration.js:41-211 | the step opens with the start notice and ends with the error notice iff some write was rejected, the success notice otherwise |
| Migration310Facts.SomeFailedSeven | src/module/migration.js:37-211 | the step's log shows a rejection iff one of its five phases does |
| Migration310Facts.Migrate310NonEmptyWrites | src/module/migration.js:35-212 | the step never issues an empty write |
| Migration310Facts.Migrate310ItemBulkWrite | src/module/migration.js:53-58 | the world items get at most one bulk write, exactly when some item has a truthy `strengthmin` |
| Migration310Facts.Migrate310ActorBulkWrite | src/module/migration.js:152-157 | the world actors get at most one bulk write, exactly when some actor has a numeric corruption |
| Migration310Facts.Migrate310Rerun | src/module/migration.js:35-212 | run again, the step collects the same `strengthmin` updates, and no corruption update once the actor write succeeded |
| Migration310Facts.PackSkipsConvertedActors | src/module/migration.js:169 | an already converted pack actor is skipped and needs no update |
| Migration200.ItemIconPatch | src/module/migration.js:236-237 | an item is written iff `_getNewImgPath` yields a non-empty icon; the write sets that icon and keeps the name |
| Migration200.ItemIconsPhase | src/module/migration.js:233-242 | the item phase keeps the number of items |
| Migration200.MigrateItemIcons | src/module/migration.js:233-242 | the world-item loop, one write per item that needs one, each failure logged and the loop continuing |
| Migration200.CollectIconUpdates | src/module/migration.js:263-273 | the loop collects the icon updates of the embedded items that need one |
| Migration200.BuildActorUpdate | src/module/migration.js:247-259 | the edited copy of the actor's data is the update `ActorDataPatch` describes: moved icons, a character's statistics reset |
| Migration200.MigrateActor200 | src/module/migration.js:246-283 | one actor: the data write, then the embedded-icon write and the effect sync, all skipped after a rejected write |
| Migration200.ActorsPhase200 | src/module/migration.js:245-284 | the actor phase keeps the number of actors |
| Migration200.MigrateActors200 | src/module/migration.js:245-284 | the loop over world actors |
| Migration200.MigrateWorld200 | src/module/migration.js:218-288 | the whole 2.0.0 step, as specified by `Migrate200` |
| Migration200.ActorAlwaysWritten | src/module/migration.js:247-260 | every actor is written first, even when nothing changes; a character's statistics are reset, others keep their data except the religion image |
| Migration200.ActorsPhase200Failed | src/module/migration.js:245-284 | the actor phase fails iff some write is rejected |
| Migration200.ActorMigration200Failed | src/module/migration.js:246-283 | one actor's migration fails iff one of its writes is rejected |
| Migration200.EarlyStopFails | src/module/migration.js:260-283 | a rejected actor write or embedded-icon write ends the actor's migration as failed |
| Migration200.SyncDecidesFailure | src/module/migration.js:278-283 | once the actor and icon writes went through, the actor fails iff its effect sync is rejected |
| Migration200.ItemIconsPhaseFailed | src/module/migration.js:233-242 | the item phase fails iff some write is rejected |
| Migration200.Migrate200Notices | src/module/migration.js:231-287 | start notice first; error notice last iff some write was rejected, success notice otherwise |
| Migration200.DialogAnswerDecidesDefaults | src/module/migration.js:290-303 | declining the dialog only moves legacy paths; accepting replaces a placeholder with its default icon |
| Migration177.ActorsPhase177 | src/module/migration.js:332-343 | one write per actor and never a failed phase, whatever the host rejects |
| Migration177.MigrateWorld177 | src/module/migration.js:328-359 | the whole 1.7.7 step: every actor merged and written, no item written |
| Migration177.Migrate177AlwaysReportsSuccess | src/module/migration.js:328-359 | the success notice closes the step even when an actor write was rejected, and every actor is written once, in order |
| Migration177.ActorsPhase177Events | src/module/migration.js:332-343 | the i-th write is the merge of the i-th actor |
| MigrationPipeline.DueSteps | src/module/migration.js:19-25 | a step runs iff its version is newer than the stored one (the first two also need no release generation), each at most once |
| MigrationPipeline.HandleMigrationsSpec | src/module/migration.js:1-29 | nothing for a non-GM; with no stored version only the version stamp; otherwise the stamp is always last |
| MigrationPipeline.HandleMigrations | src/module/migration.js:1-29 | the awaited sequence of steps, as specified by `HandleMigrationsSpec` |
| MigrationPipeline.RunStepMethod | src/module/migration.js:19-25 | one awaited step, as specified by `RunStep` |
| MigrationPipeline.RunStepsSnoc | src/module/migration.js:19-25 | running one more step continues from the world the earlier steps left |
| MigrationPipeline.RunIfDue | src/module/migration.js:19-25 | one guarded call: the step joins the run, on the world the earlier steps left, iff it is due |
| MigrationPipeline.RunThreeSteps | src/module/migration.js:19-25 | three steps in a row: each runs on the world the previous one left and their logs follow one another |
| MigrationPipeline.ThreeDueSteps | src/module/migration.js:10-28 | when all three steps are due, the run is the warning (if any), the three logs in order, then the version stamp |
| MigrationPipeline.DueStepsAreASuffix | src/module/migration.js:19-25 | for an ordered `isNewerVersion`, the steps that run are a final segment of 1.7.7, 2.0.0, 3.1.0 |
| MigrationPipeline.AllStepsFromAnOldWorld | src/module/migration.js:10-28 | a world older than 1.7.7 runs all three steps in ascending order, each on the previous one's result, and stamps the version last |
| StatusHooks.ApplyWrite | src/module/demonlord.js:367-369 | an update entry sets exactly its flag and keeps `fastturn` |
| StatusHooks.ApplyUniformWrites | src/module/demonlord.js:371-377 | an update setting all its entries to one value sets exactly the flags it names |
| StatusHooks.Cleared | src/module/demonlord.js:528-533 | clearing keeps every entry's flag and sets its value to false |
| StatusHooks.DeleteMirrorsCreate | src/module/demonlord.js:362-674 | for every label, deleting an effect writes false to exactly the fields creating it sets to true |
| StatusHooks.KnownLabelsOnly | src/module/demonlord.js:365-516 | an effect leads to a create or delete update iff its label is one of the 29 known labels |
| StatusHooks.InjuredWritesHealth | src/module/demonlord.js:366-527 | the Injured effect sets the health `injured` flag, and deleting it clears that flag |
| StatusHooks.AsleepLabel | src/module/demonlord.js:371-377 | Asleep is the capitalised name of the asleep affliction and sets asleep, prone and unconscious |
| StatusHooks.AfflictionLabelsWriteTheirField | src/module/demonlord.js:362-674 | for every affliction but asleep, the effect labelled with its capitalised name sets exactly that affliction on creation and clears exactly it on deletion |
| StatusHooks.ActionLabelsWriteTheirField | src/module/demonlord.js:362-674 | for every action, the effect labelled with its capitalised name sets exactly that action on creation and clears exactly it on deletion |
| StatusHooks.AtMostOneFlag | src/module/demonlord.js:365-516 | no label but Asleep writes more than one flag, and Asleep writes three |
| StatusHooks.SingleFlagLabels | src/module/demonlord.js:365-516 | every known label except Asleep writes exactly one flag |
| StatusHooks.CreateOnlySets | src/module/demonlord.js:365-516 | every entry of a create update sets its flag to true |
| StatusHooks.CreateSetsExactlyItsFlags | src/module/demonlord.js:362-517 | creating an effect sets its flags to true and leaves every other flag alone; an unknown label changes nothing |
| StatusHooks.AsleepSetsThreeAfflictions | src/module/demonlord.js:371-534 | Asleep sets asleep, prone and unconscious together, and deleting it clears all three |
| StatusHooks.EffectFlagsAreFollowed | src/module/demonlord.js:236-512 | every flag an effect hook writes is one the token hooks pass to `toggleEffect` |
| StatusHooks.CreateThenDelete | src/module/demonlord.js:362-674 | creating then deleting an effect leaves its flags false and every other flag unchanged |
| StatusHooks.ActorDocument.Update | src/module/demonlord.js:367 | `actor.update` applies the update entries in order |
| StatusHooks.OnCreateActiveEffect | src/module/demonlord.js:362-517 | the actor's flags after the hook are its old flags with the label's update applied; no effect, no change |
| StatusHooks.OnDeleteActiveEffect | src/module/demonlord.js:519-674 | the same for the delete table |
| StatusHooks.FindByIcon | src/module/demonlord.js:786 | `find` returns a status effect with the icon iff one exists |
| StatusHooks.Token.ToggleStatus | src/module/demonlord.js:787 | the host toggle removes a present effect and adds an absent one |
| StatusHooks.ToggleEffect | src/module/demonlord.js:782-789 | toggles iff the flag's truthiness and the presence of the icon disagree and the icon is registered |
| StatusHooks.ToggleSyncsOneIcon | src/module/demonlord.js:782-789 | afterwards a registered icon is present iff the flag is truthy; no other icon changes |
| StatusHooks.ToggleIdempotent | src/module/demonlord.js:782-789 | calling `toggleEffect` again with the same flag changes nothing |
| StatusHooks.TrackedFlags | src/module/demonlord.js:203-269 | the 29 calls follow the health flag, the 20 afflictions and the 8 actions, each with its `statusIcons` icon |
| StatusHooks.SyncedIsInSync | src/module/demonlord.js:237-267 | read one call after another, the calls leave the token showing each registered flag's icon iff the flag is truthy (the last call for a shared icon decides), and icons no call names are kept |
| StatusHooks.UnawaitedMatchesSequential | src/module/demonlord.js:782-788 | when no two flags share an icon, the un-awaited calls, each deciding on the icons shown before the hook, give the same icons as the calls read one after another |
| StatusHooks.SharedIconDiverges | src/module/demonlord.js:782-788 | with a shared icon the two readings differ: a truthy then a falsy flag on an absent icon leave it shown in the source and hidden in the sequential reading |
| StatusHooks.SyncToken | src/module/demonlord.js:237-267 | the calls on one token, in order |
| StatusHooks.SyncActiveTokens | src/module/demonlord.js:236-270 | every token on the active scene ends in sync with the actor's flags; tokens on other scenes are untouched |
| StatusHooks.OnCreateToken | src/module/demonlord.js:198-271 | no world actor, nothing changes; otherwise the actor's tokens on the active scene end in sync |
| StatusHooks.InitiativeOrdersTurns | src/module/demonlord.js:281-285 | every fast turn comes before every slow one, and within each turn characters come before other actors |
| StatusHooks.ActorCombatants | src/module/demonlord.js:276-279 | exactly the combatants whose actor is the updated actor object, in combat order |
| StatusHooks.InitiativeCalls | src/module/demonlord.js:277-288 | one `setInitiative` per combatant of the actor, in order, all with the actor's initiative |
| StatusHooks.SetActorInitiative | src/module/demonlord.js:276-288 | the loop over the combatants, comparing actor objects by identity, makes exactly those calls |
| StatusHooks.MatchedByIdentity | src/module/demonlord.js:279-279 | a combatant standing for another actor object with the same id gets no call; one standing for the actor itself gets one |
| StatusHooks.OnUpdateActor | src/module/demonlord.js:273-358 | nothing unless the update has data and the user is GM or owner; then the initiative calls (only during a combat), and tokens on the active scene end in sync |
| SystemHooks.Concat | src/module/demonlord.js:94-102 | the loop returns the concatenation of the argument pieces |
| SystemHooks.ConcatenatedAppend | src/module/demonlord.js:94-102 | concatenation distributes over splitting the arguments |
| SystemHooks.NonObjects | src/module/demonlord.js:97 | exactly the arguments whose `typeof` is not `'object'` |
| SystemHooks.ConcatSkipsObjects | src/module/demonlord.js:96-100 | objects and `null` contribute nothing, so the trailing options hash is dropped and a lone string comes back unchanged |
| SystemHooks.ReadyGate | src/module/demonlord.js:118-134 | non-GM users never migrate; otherwise it migrates iff no version is stored or it is older than 1.7.7, and warns iff a stored version is older than 0.8 |
| SystemHooks.ReadyGateAgainstHandleMigrations | src/module/demonlord.js:118-134 | with no stored version the gate migrates while `handleMigrations` only stamps; otherwise the gate migrates iff the 1.7.7 step is due and warns iff `handleMigrations` does |
| SystemHooks.RunStepsStartsWith | src/module/migration.js:19-25 | a run's log opens with its first step's log |
| SystemHooks.StepOpensWithStart | src/module/migration.js:41-41 | every migration step opens its log with the start notice |
| SystemHooks.NoWarningOpensWithFirstStep | src/module/migration.js:10-28 | without the compatibility warning, the run's log opens with the first due step's log |
| SystemHooks.SystemStatusEffects | src/module/demonlord.js:151-158 | one effect per `statusIcons` entry, in order: the key as id, the key with its first letter upper-cased as label, the icon |
| SystemHooks.SetupStatusEffects | src/module/demonlord.js:150-169 | both loops build `StatusEffectList`: system effects, then the core effects only when the `statusIcons` setting is off |
| SystemHooks.SystemIconsComeFirst | src/module/demonlord.js:150-169 | every system icon is registered and is found before any core effect with that icon; with the setting on, only system effects are listed |
| SystemHooks.PreCreateActor | src/module/demonlord.js:175-196 | the hook rewrites `changes.token` into `WithTokenDefaults` |
| SystemHooks.TokenDefaultsSpec | src/module/demonlord.js:175-196 | a creature's token is hostile and any other is neutral; the token takes the actor's name and health bar; only characters get vision and a linked actor; applying it twice is applying it once |
| JsValues.Coalesce | src/module/migration.js:125 | `??` yields its left operand unless that is `null` or `undefined`, and the right one otherwise |
| JsValues.Prop | src/module/actor/actor-afflictions-effects.js:76 | property access yields the stored entry of an object and `undefined` for a missing key or a non-object |
| Strings.IndexOf | src/module/migration.js:291 | the position found is the first occurrence of the pattern; `None` iff the pattern occurs nowhere |
| Strings.ReplaceFirst | src/module/migration.js:292-293 | `replace` with a string pattern substitutes the first occurrence only, or returns the input unchanged |
| Strings.Capitalize | src/module/demonlord.js:155 | with ASCII upper-casing (see Left out): same length, the first character upper-cased, the rest kept |

## Behaviour as written

These are places where the model follows the code rather than what a reader would expect.

- **`strengthmin` is never cleared by 3.1.0.** Every run issues the same `requirement` writes again (`StrengthminSurvivesUpdates`, `Migrate310Rerun`).
- **A rejected bulk write in an Actor compendium ends the 3.1.0 pack loop.** The remaining packs are not visited (`AbortedPassSkipsRest`).
- **1.7.7 always reports success.** Failures are only logged to the console (`Migrate177AlwaysReportsSuccess`).
- **2.0.0 writes every world actor**, whether or not anything changed (`ActorAlwaysWritten`).
- **The warning messages are never found.** The affliction gate reads its warning table with bracket access on a `Map`, which yields `undefined` for every key (`WarningTableNeverConsulted`).
- **`?? 0` never applies** in the corruption conversion, because the value is numeric there (`CorruptionKeepsValue`).
- **The `ready` hook calls `migrations.migrateWorld()`, which `migration.js` does not export.** Only the gate's decision is modelled (`ReadyDecision.MigrateWorld`). On a fresh world that decision differs from `handleMigrations` (`ReadyGateAgainstHandleMigrations`).

## Left out

- Console logging, the `dryRun` branches (the flag is constant `false`) and the notification texts. Notices are symbolic.
- `isNewerVersion` is a parameter. An order on versions is assumed only where stated (`OrderedThresholds`).
- `mergeObject` and `game.system.model` inside `migrateActorData` are not part of this model. The merged data is a parameter of the 1.7.7 step. The `actor.items` branch of `migrateActorData` never produces an item update, because `migrateItemData` is always empty.
- `isNumeric` is read as "a number, or a string of optionally signed decimal digits". `parseFloat`/`isFinite` on fractions, exponents and surrounding blanks is not modelled.
- The 2.0.0 dialog is its boolean answer. `CONFIG.DL.defaultItemIcons` is a parameter.
- `_handleOnUpdateEmbedded` is one logged event. Its effect on the actor's embedded effects is not modelled.
- `actor.data` and `actor.system` are one record. The `item.name || ''` fallback is the identity, because names are strings here.
- Localisation, the `setup` hook's localisation of `CONFIG.DL.attributes`, and the HTML of the summaries. Summaries are sequences of symbolic lines.
- Sheet, template, dice and chat registration, and `loadActorForChatMessage`. This is host and UI glue.
- StatusHooks.ToggleEffect: when no registered status effect has the icon, the host's `toggleEffect(undefined)` is taken to do nothing. The host's behaviour there is not part of this model.
- StatusHooks.Token: a token's status icons are modelled as its own set. Linked tokens of one actor share their actor's effects in the host; that sharing is not modelled.
- StatusHooks.SyncToken: the 29 straight-line `toggleEffect` calls of each token hook are modelled as a loop over the list `TrackedFlags`, in the source's order.
- StatusHooks.SyncToken: the source does not await the 29 `toggleEffect` calls, so each reads the token's effects as they were before the hook. `SyncToken` and `SyncedIsInSync` run them one after another instead. The two agree when no two flags share an icon (`UnawaitedMatchesSequential`). For a shared icon they can differ (`SharedIconDiverges`), and the host's handling of overlapping toggles is not part of this model.
- StatusHooks.OnUpdateActor: `setInitiative` is not awaited in the source. Its calls are returned as a list; their effect on the combat is not modelled.
- SystemHooks.PreCreateActor: `mergeObject` on the `token.*` keys is read as setting those entries. Other entries of `changes` are not modelled.
- Strings.Capitalize: `toUpperCase` is modelled for the ASCII letters only (`Strings.UpperChar`). JavaScript also upper-cases other cased letters and can lengthen a string ('ß' becomes "SS"). So the "same length" promise holds only for the model. The `statusIcons` keys it is applied to are ASCII.
- Numbers are integers (`JsValues.JsValue`). Fractions, `NaN` and `Infinity` are not modelled: not for truthiness, not for the boons/banes number of a summary line, and not for `concat`'s number-to-string conversion.
- Only host writes can fail. A `TypeError` from a malformed document cannot arise in the typed records, although in the source it aborts the enclosing `try` block. Examples: a world actor without `system.characteristics` at migration.js:123 drops that population's corruption updates, and an index entry without `system` at migration.js:169 ends the actor-pack loop.
