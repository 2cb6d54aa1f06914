/**
 * `migrateWorld_2_0_0`: icons under the legacy folder move to the assets
 * folder (and, if the user agreed in the dialog, placeholder item icons get
 * their type's default), characters' statistics are reset, and each actor's
 * embedded items get their new icons. Every document is written on its own
 * inside a `try`; a failure sets `errorsInMigration` and moves on.
 */
module Migration200 {
  import opened JsValues
  import opened MigrationTransforms
  import opened MigrationWorld
  import opened Strings

  /* ---------------------------------------------------------------------- */
  /*  World items                                                           */
  /* ---------------------------------------------------------------------- */

  /**
   * The update of one item: `{name: item.name || '', img: newIcon}` when
   * `_getNewImgPath` gives a truthy path. Names are strings here, and
   * `s || ''` is `s` for every string.
   */
  function ItemIconPatch(item: Item, migrateNewIcons: bool, icons: DefaultIcons): (r: Option<ItemPatch>)
    ensures r.Some? <==> IsNewIcon(GetNewImgPath(item.img, migrateNewIcons, Some(item), icons))
    ensures r.Some? ==> r.value == ItemPatch(item.id, SetIcon(item.name, GetNewImgPath(item.img, migrateNewIcons, Some(item), icons).value))
  {
    var newIcon := GetNewImgPath(item.img, migrateNewIcons, Some(item), icons);
    if IsNewIcon(newIcon) then Some(ItemPatch(item.id, SetIcon(item.name, newIcon.value))) else None
  }

  function ItemIconsPhase(items: seq<Item>, migrateNewIcons: bool, icons: DefaultIcons, failing: set<Target>): (r: Outcome<seq<Item>>)
    ensures |r.value| == |items|
  {
    if items == [] then Outcome([], [], false)
    else
      var init := ItemIconsPhase(items[..|items| - 1], migrateNewIcons, icons, failing);
      var item := items[|items| - 1];
      match ItemIconPatch(item, migrateNewIcons, icons)
      case None => init.(value := init.value + [item])
      case Some(p) =>
        var ok := ItemIcon(item.id) !in failing;
        Outcome(init.value + [if ok then ApplyItemPatch(item, p) else item],
                init.events + [ItemWrite(ItemIcon(item.id), [p], ok)],
                init.failed || !ok)
  }

  /** The world-item loop: one `item.update` per item that gets a new icon. */
  method MigrateItemIcons(items: seq<Item>, migrateNewIcons: bool, icons: DefaultIcons, failing: set<Target>) returns (o: Outcome<seq<Item>>)
    ensures o == ItemIconsPhase(items, migrateNewIcons, icons, failing)
  {
    o := Outcome([], [], false);
    for i := 0 to |items|
      invariant o == ItemIconsPhase(items[..i], migrateNewIcons, icons, failing)
    {
      var item := items[i];
      assert items[..i + 1][..i] == items[..i];
      var newIcon := GetNewImgPath(item.img, migrateNewIcons, Some(item), icons);
      if IsNewIcon(newIcon) {
        var update := ItemPatch(item.id, SetIcon(item.name, newIcon.value));
        if ItemIcon(item.id) in failing {
          o := Outcome(o.value + [item], o.events + [ItemWrite(ItemIcon(item.id), [update], false)], true);
        } else {
          o := Outcome(o.value + [ApplyItemPatch(item, update)], o.events + [ItemWrite(ItemIcon(item.id), [update], true)], o.failed);
        }
      } else {
        o := o.(value := o.value + [item]);
      }
    }
    assert items[..|items|] == items;
  }

  /* ---------------------------------------------------------------------- */
  /*  Actors                                                                */
  /* ---------------------------------------------------------------------- */

  /** A new path if `_getNewImgPath` (without default migration) yields one, else the old path. */
  function MovedOrKept(img: Option<string>, icons: DefaultIcons): Option<string>
  {
    var moved := GetNewImgPath(img, false, None, icons);
    if IsNewIcon(moved) then moved else img
  }

  /**
   * The data `actor.update(actUpd)` writes: the actor icon and the religion
   * icon moved out of the legacy folder, and a character's statistics reset.
   */
  function ActorDataPatch(actor: Actor, icons: DefaultIcons): ActorPatch
  {
    var system := actor.system.(religionImage := MovedOrKept(actor.system.religionImage, icons));
    ActorPatch(actor.id, ReplaceData(MovedOrKept(actor.img, icons),
                                     if actor.kind == "character" then ResetStats(system) else system))
  }

  /** The icon update of one embedded item, as a list of at most one entry. */
  function IconPatchOf(item: Item, migrateNewIcons: bool, icons: DefaultIcons): seq<ItemPatch>
  {
    match ItemIconPatch(item, migrateNewIcons, icons) case Some(p) => [p] case None => []
  }

  /** The embedded-item icon updates of one actor, in item order. */
  function EmbeddedIconPatches(items: seq<Item>, migrateNewIcons: bool, icons: DefaultIcons): seq<ItemPatch>
  {
    if items == [] then []
    else EmbeddedIconPatches(items[..|items| - 1], migrateNewIcons, icons) + IconPatchOf(items[|items| - 1], migrateNewIcons, icons)
  }

  /**
   * One actor: the actor write (always issued), then, if it went through,
   * the embedded icon write (if any) and the re-embedding of item effects.
   * A failure anywhere ends this actor's migration.
   */
  function ActorMigration200(actor: Actor, migrateNewIcons: bool, icons: DefaultIcons, failing: set<Target>): Outcome<Actor>
  {
    var update := ActorDataPatch(actor, icons);
    var actorWrite := ActorWrite(ActorData(actor.id), [update], ActorData(actor.id) !in failing);
    if ActorData(actor.id) in failing then Outcome(actor, [actorWrite], true)
    else
      var updated := ApplyActorPatch(actor, update);
      var patches := EmbeddedIconPatches(actor.items, migrateNewIcons, icons);
      if patches != [] && EmbeddedIcons(actor.id) in failing then
        Outcome(updated, [actorWrite, ItemWrite(EmbeddedIcons(actor.id), patches, false)], true)
      else
        var migrated := if patches == [] then updated else updated.(items := ApplyItemPatches(updated.items, patches));
        var iconWrites := if patches == [] then [] else [ItemWrite(EmbeddedIcons(actor.id), patches, true)];
        var synced := EmbedEffects(actor.id) !in failing;
        Outcome(migrated, [actorWrite] + iconWrites + [EffectsSync(EmbedEffects(actor.id), synced)], !synced)
  }

  /** The embedded-item loop: push the icon update of each item that gets a new icon. */
  method CollectIconUpdates(items: seq<Item>, migrateNewIcons: bool, icons: DefaultIcons) returns (updates: seq<ItemPatch>)
    ensures updates == EmbeddedIconPatches(items, migrateNewIcons, icons)
  {
    updates := [];
    for i := 0 to |items|
      invariant updates == EmbeddedIconPatches(items[..i], migrateNewIcons, icons)
    {
      var data := items[i];
      ghost var before := updates;
      var newItemIcon := GetNewImgPath(data.img, migrateNewIcons, Some(data), icons);
      if IsNewIcon(newItemIcon) {
        updates := updates + [ItemPatch(data.id, SetIcon(data.name, newItemIcon.value))];
      }
      assert updates == before + IconPatchOf(data, migrateNewIcons, icons);
      assert items[..i + 1][..i] == items[..i];
    }
    assert items[..|items|] == items;
  }

  /**
   * The first half of the actor loop's body: the plain copy of the actor's
   * data is edited in place (new icons, `_resetActorData` for a character)
   * and becomes the update object.
   */
  method BuildActorUpdate(actor: Actor, icons: DefaultIcons) returns (update: ActorPatch)
    ensures update == ActorDataPatch(actor, icons)
  {
    var actUpd := new ActorDataCopy(actor.system);
    var actImg := actor.img;
    var newActorIcon := GetNewImgPath(actor.img, false, None, icons);
    var newReligionIcon := GetNewImgPath(actor.system.religionImage, false, None, icons);
    if IsNewIcon(newActorIcon) {
      actImg := newActorIcon;
    }
    if IsNewIcon(newReligionIcon) {
      actUpd.religionImage := newReligionIcon;
    }
    if actor.kind == "character" {
      ResetActorData(actUpd);
    }
    update := ActorPatch(actor.id, ReplaceData(actImg, actUpd.Snapshot()));
  }

  /** The body of the actor loop: the actor write, then the embedded icons and effects. */
  method MigrateActor200(actor: Actor, migrateNewIcons: bool, icons: DefaultIcons, failing: set<Target>) returns (o: Outcome<Actor>)
    ensures o == ActorMigration200(actor, migrateNewIcons, icons, failing)
  {
    var update := BuildActorUpdate(actor, icons);
    if ActorData(actor.id) in failing {
      o := Outcome(actor, [ActorWrite(ActorData(actor.id), [update], false)], true);
      return;
    }
    var migrated := ApplyActorPatch(actor, update);
    var events := [ActorWrite(ActorData(actor.id), [update], true)];
    var embeddedUpdateData := CollectIconUpdates(actor.items, migrateNewIcons, icons);
    if |embeddedUpdateData| > 0 {
      if EmbeddedIcons(actor.id) in failing {
        o := Outcome(migrated, events + [ItemWrite(EmbeddedIcons(actor.id), embeddedUpdateData, false)], true);
        return;
      }
      migrated := migrated.(items := ApplyItemPatches(migrated.items, embeddedUpdateData));
      events := events + [ItemWrite(EmbeddedIcons(actor.id), embeddedUpdateData, true)];
    }
    var synced := EmbedEffects(actor.id) !in failing;
    o := Outcome(migrated, events + [EffectsSync(EmbedEffects(actor.id), synced)], !synced);
  }

  function ActorsPhase200(actors: seq<Actor>, migrateNewIcons: bool, icons: DefaultIcons, failing: set<Target>): (r: Outcome<seq<Actor>>)
    ensures |r.value| == |actors|
  {
    if actors == [] then Outcome([], [], false)
    else
      var init := ActorsPhase200(actors[..|actors| - 1], migrateNewIcons, icons, failing);
      var u := ActorMigration200(actors[|actors| - 1], migrateNewIcons, icons, failing);
      Outcome(init.value + [u.value], init.events + u.events, init.failed || u.failed)
  }

  method MigrateActors200(actors: seq<Actor>, migrateNewIcons: bool, icons: DefaultIcons, failing: set<Target>) returns (o: Outcome<seq<Actor>>)
    ensures o == ActorsPhase200(actors, migrateNewIcons, icons, failing)
  {
    o := Outcome([], [], false);
    for i := 0 to |actors|
      invariant o == ActorsPhase200(actors[..i], migrateNewIcons, icons, failing)
    {
      var u := MigrateActor200(actors[i], migrateNewIcons, icons, failing);
      o := Outcome(o.value + [u.value], o.events + u.events, o.failed || u.failed);
      assert actors[..i + 1][..i] == actors[..i];
    }
    assert actors[..|actors|] == actors;
  }

  /* ---------------------------------------------------------------------- */
  /*  The whole step                                                        */
  /* ---------------------------------------------------------------------- */

  /** `migrateNewIcons` is the answer to the confirmation dialog. */
  function Migrate200(w: World, migrateNewIcons: bool, icons: DefaultIcons, failing: set<Target>): Outcome<World>
  {
    var a := ItemIconsPhase(w.items, migrateNewIcons, icons, failing);
    var b := ActorsPhase200(w.actors, migrateNewIcons, icons, failing);
    var failed := a.failed || b.failed;
    Outcome(World(a.value, b.value, w.packs),
            [Notify(StartInfo)] + a.events + b.events + [Notify(if failed then ErrorInfo else SuccessInfo)],
            failed)
  }

  /** `migrateWorld_2_0_0` */
  method MigrateWorld200(w: World, migrateNewIcons: bool, icons: DefaultIcons, failing: set<Target>) returns (o: Outcome<World>)
    ensures o == Migrate200(w, migrateNewIcons, icons, failing)
  {
    var items := MigrateItemIcons(w.items, migrateNewIcons, icons, failing);
    var actors := MigrateActors200(w.actors, migrateNewIcons, icons, failing);
    var errorsInMigration := items.failed || actors.failed;
    o := Outcome(World(items.value, actors.value, w.packs),
                 [Notify(StartInfo)] + items.events + actors.events
                   + [Notify(if errorsInMigration then ErrorInfo else SuccessInfo)],
                 errorsInMigration);
  }

  /* ---------------------------------------------------------------------- */
  /*  Properties                                                            */
  /* ---------------------------------------------------------------------- */

  /**
   * Every actor is written, whether or not anything changed; when that write
   * fails nothing else happens to the actor. When it succeeds, a character
   * ends with the fixed statistics and any other actor keeps its own.
   */
  lemma ActorAlwaysWritten(actor: Actor, migrateNewIcons: bool, icons: DefaultIcons, failing: set<Target>)
    ensures var o := ActorMigration200(actor, migrateNewIcons, icons, failing);
      && |o.events| >= 1
      && o.events[0] == ActorWrite(ActorData(actor.id), [ActorDataPatch(actor, icons)], ActorData(actor.id) !in failing)
      && (ActorData(actor.id) in failing ==> o.value == actor && |o.events| == 1 && o.failed)
      && (ActorData(actor.id) !in failing ==>
            && o.value.items == (var p := EmbeddedIconPatches(actor.items, migrateNewIcons, icons);
                                 if p != [] && EmbeddedIcons(actor.id) !in failing then ApplyItemPatches(actor.items, p) else actor.items)
            && (actor.kind == "character" ==> o.value.system == ResetStats(o.value.system))
            && (actor.kind != "character" ==>
                  o.value.system == actor.system.(religionImage := o.value.system.religionImage)))
  {
  }

  /** `errorsInMigration` agrees with the host's rejections, and the closing notice with the flag. */
  lemma {:induction false} ActorsPhase200Failed(actors: seq<Actor>, migrateNewIcons: bool, icons: DefaultIcons, failing: set<Target>)
    ensures var r := ActorsPhase200(actors, migrateNewIcons, icons, failing);
      r.failed <==> SomeFailedWrite(r.events)
  {
    if actors != [] {
      var init := actors[..|actors| - 1];
      ActorsPhase200Failed(init, migrateNewIcons, icons, failing);
      var r0 := ActorsPhase200(init, migrateNewIcons, icons, failing);
      var actor := actors[|actors| - 1];
      var u := ActorMigration200(actor, migrateNewIcons, icons, failing);
      ActorMigration200Failed(actor, migrateNewIcons, icons, failing);
      SomeFailedWriteAppend(r0.events, u.events);
    }
  }

  lemma ActorMigration200Failed(actor: Actor, migrateNewIcons: bool, icons: DefaultIcons, failing: set<Target>)
    ensures var u := ActorMigration200(actor, migrateNewIcons, icons, failing);
      u.failed <==> SomeFailedWrite(u.events)
  {
    var patches := EmbeddedIconPatches(actor.items, migrateNewIcons, icons);
    if ActorData(actor.id) in failing || (patches != [] && EmbeddedIcons(actor.id) in failing) {
      EarlyStopFails(actor, migrateNewIcons, icons, failing);
    } else {
      SyncDecidesFailure(actor, migrateNewIcons, icons, failing);
    }
  }

  /** A rejected actor write or embedded icon write ends the actor's migration as failed. */
  lemma EarlyStopFails(actor: Actor, migrateNewIcons: bool, icons: DefaultIcons, failing: set<Target>)
    requires ActorData(actor.id) in failing
          || (EmbeddedIconPatches(actor.items, migrateNewIcons, icons) != [] && EmbeddedIcons(actor.id) in failing)
    ensures var u := ActorMigration200(actor, migrateNewIcons, icons, failing);
      u.failed && SomeFailedWrite(u.events)
  {
    var u := ActorMigration200(actor, migrateNewIcons, icons, failing);
    if ActorData(actor.id) in failing {
      assert FailedWrite(u.events[0]);
    } else {
      assert FailedWrite(u.events[1]);
    }
  }

  /** Once the actor and icon writes went through, only the effects sync can fail. */
  lemma SyncDecidesFailure(actor: Actor, migrateNewIcons: bool, icons: DefaultIcons, failing: set<Target>)
    requires ActorData(actor.id) !in failing
    requires EmbeddedIconPatches(actor.items, migrateNewIcons, icons) == [] || EmbeddedIcons(actor.id) !in failing
    ensures var u := ActorMigration200(actor, migrateNewIcons, icons, failing);
      (u.failed <==> EmbedEffects(actor.id) in failing) && (u.failed <==> SomeFailedWrite(u.events))
  {
    var u := ActorMigration200(actor, migrateNewIcons, icons, failing);
    var last := |u.events| - 1;
    assert FailedWrite(u.events[last]) <==> EmbedEffects(actor.id) in failing;
    assert forall i :: 0 <= i < last ==> !FailedWrite(u.events[i]);
  }

  lemma {:induction false} ItemIconsPhaseFailed(items: seq<Item>, migrateNewIcons: bool, icons: DefaultIcons, failing: set<Target>)
    ensures var r := ItemIconsPhase(items, migrateNewIcons, icons, failing);
      r.failed <==> SomeFailedWrite(r.events)
  {
    if items != [] {
      var init := items[..|items| - 1];
      ItemIconsPhaseFailed(init, migrateNewIcons, icons, failing);
      var r0 := ItemIconsPhase(init, migrateNewIcons, icons, failing);
      var item := items[|items| - 1];
      match ItemIconPatch(item, migrateNewIcons, icons) {
        case None =>
        case Some(p) =>
          var e := [ItemWrite(ItemIcon(item.id), [p], ItemIcon(item.id) !in failing)];
          SomeFailedWriteAppend(r0.events, e);
          assert SomeFailedWrite(e) <==> ItemIcon(item.id) in failing by {
            assert FailedWrite(e[0]) <==> ItemIcon(item.id) in failing;
          }
      }
    }
  }

  lemma Migrate200Notices(w: World, migrateNewIcons: bool, icons: DefaultIcons, failing: set<Target>)
    ensures var o := Migrate200(w, migrateNewIcons, icons, failing);
      && o.events[0] == Notify(StartInfo)
      && (o.failed <==> SomeFailedWrite(o.events))
      && o.events[|o.events| - 1] == Notify(if SomeFailedWrite(o.events) then ErrorInfo else SuccessInfo)
  {
    var a := ItemIconsPhase(w.items, migrateNewIcons, icons, failing);
    var b := ActorsPhase200(w.actors, migrateNewIcons, icons, failing);
    ItemIconsPhaseFailed(w.items, migrateNewIcons, icons, failing);
    ActorsPhase200Failed(w.actors, migrateNewIcons, icons, failing);
    var s := [Notify(StartInfo)];
    var f := [Notify(if a.failed || b.failed then ErrorInfo else SuccessInfo)];
    SomeFailedWriteAppend(s, a.events);
    SomeFailedWriteAppend(s + a.events, b.events);
    SomeFailedWriteAppend(s + a.events + b.events, f);
  }

  /**
   * When the user declines the dialog, only icons in the legacy folder are
   * touched, and each is replaced by its moved path; accepting it also gives
   * placeholder icons their type's default.
   */
  lemma DialogAnswerDecidesDefaults(item: Item, icons: DefaultIcons)
    ensures ItemIconPatch(item, false, icons).Some? ==>
      item.img.Some? && Contains(item.img.value, LegacyIconFolder)
      && ItemIconPatch(item, false, icons).value.change == SetIcon(item.name, MovedIconPath(item.img.value))
    ensures item.img == Some(MysteryMan) && IsNewIcon(DefaultIconFor(item, icons)) ==>
      ItemIconPatch(item, true, icons) == Some(ItemPatch(item.id, SetIcon(item.name, DefaultIconFor(item, icons).value)))
      && ItemIconPatch(item, false, icons).None?
  {
    if item.img == Some(MysteryMan) {
      PlaceholderIsNotLegacy();
    }
  }
}
