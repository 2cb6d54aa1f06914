/**
 * `migrateWorld_3_1_0`: the `strengthmin` -> `requirement` and scalar
 * corruption -> `{value, immune}` migration, run over five populations in
 * turn (world items, embedded items, item packs, world actors with their
 * embedded items again, actor packs with their embedded items). Each
 * population's updates are collected in a loop and sent in one bulk write;
 * caught failures set `errorsInMigration`.
 */
module Migration310 {
  import opened JsValues
  import opened MigrationTransforms
  import opened MigrationWorld

  /* ---------------------------------------------------------------------- */
  /*  World items                                                           */
  /* ---------------------------------------------------------------------- */

  function WorldItemsPhase(items: seq<Item>, failing: set<Target>): Outcome<seq<Item>>
  {
    var updates := StrengthminPatches(items);
    if updates == [] then Outcome(items, [], false)
    else WriteItems(items, WorldItems, updates, failing)
  }

  /** The world-item pass: one bulk write of every `strengthmin` update, if there is any. */
  method MigrateWorldItems(items: seq<Item>, failing: set<Target>) returns (o: Outcome<seq<Item>>)
    ensures o == WorldItemsPhase(items, failing)
  {
    var itemUpdates := CollectStrengthminUpdates(items);
    if |itemUpdates| > 0 {
      if WorldItems in failing {
        o := Outcome(items, [ItemWrite(WorldItems, itemUpdates, false)], true);
      } else {
        o := Outcome(ApplyItemPatches(items, itemUpdates), [ItemWrite(WorldItems, itemUpdates, true)], false);
      }
    } else {
      o := Outcome(items, [], false);
    }
  }

  /* ---------------------------------------------------------------------- */
  /*  Embedded items of one actor                                           */
  /* ---------------------------------------------------------------------- */

  function EmbeddedUpdate(actor: Actor, target: Target, failing: set<Target>): Outcome<Actor>
  {
    var updates := StrengthminPatches(actor.items);
    if updates == [] then Outcome(actor, [], false)
    else
      var w := WriteItems(actor.items, target, updates, failing);
      Outcome(actor.(items := w.value), w.events, w.failed)
  }

  /** One actor's embedded items: one write of their `strengthmin` updates, its failure caught. */
  method MigrateActorEmbedded(actor: Actor, target: Target, failing: set<Target>) returns (o: Outcome<Actor>)
    ensures o == EmbeddedUpdate(actor, target, failing)
  {
    var embeddedUpdateData := CollectStrengthminUpdates(actor.items);
    o := Outcome(actor, [], false);
    if |embeddedUpdateData| > 0 {
      var ok := target !in failing;
      if ok {
        o := o.(value := actor.(items := ApplyItemPatches(actor.items, embeddedUpdateData)));
      } else {
        o := o.(failed := true);
      }
      o := o.(events := [ItemWrite(target, embeddedUpdateData, ok)]);
    }
  }

  /** The embedded-item pass over the world actors; `pass` tells the first from the second. */
  function EmbeddedPass(actors: seq<Actor>, pass: nat, failing: set<Target>): (r: Outcome<seq<Actor>>)
    ensures |r.value| == |actors|
  {
    if actors == [] then Outcome([], [], false)
    else
      var init := EmbeddedPass(actors[..|actors| - 1], pass, failing);
      var last := actors[|actors| - 1];
      var u := EmbeddedUpdate(last, EmbeddedItems(pass, last.id), failing);
      Outcome(init.value + [u.value], init.events + u.events, init.failed || u.failed)
  }

  method MigrateEmbeddedItems(actors: seq<Actor>, pass: nat, failing: set<Target>) returns (o: Outcome<seq<Actor>>)
    ensures o == EmbeddedPass(actors, pass, failing)
  {
    o := Outcome([], [], false);
    for i := 0 to |actors|
      invariant o == EmbeddedPass(actors[..i], pass, failing)
    {
      var u := MigrateActorEmbedded(actors[i], EmbeddedItems(pass, actors[i].id), failing);
      o := Outcome(o.value + [u.value], o.events + u.events, o.failed || u.failed);
      assert actors[..i + 1][..i] == actors[..i];
    }
    assert actors[..|actors|] == actors;
  }

  /* ---------------------------------------------------------------------- */
  /*  Item packs                                                            */
  /* ---------------------------------------------------------------------- */

  /** `game.packs.filter(p => !p.locked && p.metadata.type === 'Item')` */
  predicate IsItemPack(p: Pack)
  {
    !p.locked && p.docType == "Item"
  }

  function ItemPackUpdate(p: Pack, failing: set<Target>): Outcome<Pack>
  {
    var updates := StrengthminPatches(p.items);
    if updates == [] then Outcome(p, [], false)
    else
      var w := WriteItems(p.items, ItemPackItems(p.id), updates, failing);
      Outcome(p.(items := w.value), w.events, w.failed)
  }

  function ItemPacksPhase(packs: seq<Pack>, failing: set<Target>): (r: Outcome<seq<Pack>>)
    ensures |r.value| == |packs|
  {
    if packs == [] then Outcome([], [], false)
    else
      var init := ItemPacksPhase(packs[..|packs| - 1], failing);
      var last := packs[|packs| - 1];
      if !IsItemPack(last) then Outcome(init.value + [last], init.events, init.failed)
      else
        var u := ItemPackUpdate(last, failing);
        Outcome(init.value + [u.value], init.events + u.events, init.failed || u.failed)
  }

  /** Each unlocked item pack: one write of its `strengthmin` updates, its failure caught. */
  method MigrateItemPacks(packs: seq<Pack>, failing: set<Target>) returns (o: Outcome<seq<Pack>>)
    ensures o == ItemPacksPhase(packs, failing)
  {
    o := Outcome([], [], false);
    for i := 0 to |packs|
      invariant o == ItemPacksPhase(packs[..i], failing)
    {
      var compendium := packs[i];
      if IsItemPack(compendium) {
        var compendiumUpdates := CollectStrengthminUpdates(compendium.items);
        if |compendiumUpdates| > 0 {
          var ok := ItemPackItems(compendium.id) !in failing;
          o := o.(events := o.events + [ItemWrite(ItemPackItems(compendium.id), compendiumUpdates, ok)]);
          if ok {
            compendium := compendium.(items := ApplyItemPatches(compendium.items, compendiumUpdates));
          } else {
            o := o.(failed := true);
          }
        }
      }
      o := o.(value := o.value + [compendium]);
      assert packs[..i + 1][..i] == packs[..i];
    }
    assert packs[..|packs|] == packs;
  }

  /* ---------------------------------------------------------------------- */
  /*  World actors                                                          */
  /* ---------------------------------------------------------------------- */

  /**
   * The actor pass: the corruption updates are collected while each actor's
   * embedded items get their second `strengthmin` write; then one bulk
   * actor write, whose failure is caught by the enclosing `try`.
   */
  function WorldActorsPhase(actors: seq<Actor>, failing: set<Target>): Outcome<seq<Actor>>
  {
    var embedded := EmbeddedPass(actors, 2, failing);
    var updates := CorruptionPatches(actors);
    if updates == [] then embedded
    else
      var w := WriteActors(embedded.value, WorldActors, updates, failing);
      Outcome(w.value, embedded.events + w.events, embedded.failed || w.failed)
  }

  method MigrateWorldActors(actors: seq<Actor>, failing: set<Target>) returns (o: Outcome<seq<Actor>>)
    ensures o == WorldActorsPhase(actors, failing)
  {
    var actorUpdates: seq<ActorPatch> := [];
    o := Outcome([], [], false);
    for i := 0 to |actors|
      invariant actorUpdates == CorruptionPatches(actors[..i])
      invariant o == EmbeddedPass(actors[..i], 2, failing)
    {
      var actor := actors[i];
      if IsNumeric(actor.system.corruption) {
        var corruptionValue := Coalesce(actor.system.corruption, Num(0));
        actorUpdates := actorUpdates + [ActorPatch(actor.id, SetCorruption(corruptionValue))];
      }
      var u := MigrateActorEmbedded(actor, EmbeddedItems(2, actor.id), failing);
      o := Outcome(o.value + [u.value], o.events + u.events, o.failed || u.failed);
      assert actors[..i + 1][..i] == actors[..i];
    }
    assert actors[..|actors|] == actors;
    if |actorUpdates| > 0 {
      var ok := WorldActors !in failing;
      o := Outcome(if ok then ApplyActorPatches(o.value, actorUpdates) else o.value,
                   o.events + [ActorWrite(WorldActors, actorUpdates, ok)],
                   o.failed || !ok);
    }
  }

  /* ---------------------------------------------------------------------- */
  /*  Actor packs                                                           */
  /* ---------------------------------------------------------------------- */

  /** `game.packs.filter(p => !p.locked && p.metadata.type === 'Actor')` */
  predicate IsActorPack(p: Pack)
  {
    !p.locked && p.docType == "Actor"
  }

  /**
   * The actors of one pack: those whose corruption is not numeric are
   * skipped as already converted; the others get their embedded
   * `strengthmin` write.
   */
  function PackActorsPass(actors: seq<Actor>, packId: string, failing: set<Target>): (r: Outcome<seq<Actor>>)
    ensures |r.value| == |actors|
  {
    if actors == [] then Outcome([], [], false)
    else
      var init := PackActorsPass(actors[..|actors| - 1], packId, failing);
      var last := actors[|actors| - 1];
      if !IsNumeric(last.system.corruption) then Outcome(init.value + [last], init.events, init.failed)
      else
        var u := EmbeddedUpdate(last, PackEmbeddedItems(packId, last.id), failing);
        Outcome(init.value + [u.value], init.events + u.events, init.failed || u.failed)
  }

  /** The pack's bulk actor write is attempted and rejected. */
  predicate BulkWriteFails(p: Pack, failing: set<Target>)
  {
    CorruptionPatches(p.actors) != [] && ActorPackActors(p.id) in failing
  }

  function ActorPackUpdate(p: Pack, failing: set<Target>): Outcome<Pack>
  {
    var embedded := PackActorsPass(p.actors, p.id, failing);
    var updates := CorruptionPatches(p.actors);
    if updates == [] then Outcome(p.(actors := embedded.value), embedded.events, embedded.failed)
    else
      var w := WriteActors(embedded.value, ActorPackActors(p.id), updates, failing);
      Outcome(p.(actors := w.value), embedded.events + w.events, embedded.failed || w.failed)
  }

  /** The packs after the actor-pack pass, and whether a bulk write failure ended it early. */
  datatype PacksRun = PacksRun(outcome: Outcome<seq<Pack>>, aborted: bool)

  /**
   * The actor-pack pass. A pack's bulk actor write is not inside a `try` of
   * its own: its failure leaves the loop, so later packs are not visited.
   */
  function ActorPacksPhase(packs: seq<Pack>, failing: set<Target>): (r: PacksRun)
    ensures |r.outcome.value| == |packs|
  {
    if packs == [] then PacksRun(Outcome([], [], false), false)
    else
      var init := ActorPacksPhase(packs[..|packs| - 1], failing);
      var last := packs[|packs| - 1];
      if init.aborted || !IsActorPack(last) then
        PacksRun(init.outcome.(value := init.outcome.value + [last]), init.aborted)
      else
        var u := ActorPackUpdate(last, failing);
        PacksRun(Outcome(init.outcome.value + [u.value], init.outcome.events + u.events, init.outcome.failed || u.failed),
                 BulkWriteFails(last, failing))
  }

  method MigratePackActors(actors: seq<Actor>, packId: string, failing: set<Target>) returns (o: Outcome<seq<Actor>>, compendiumUpdates: seq<ActorPatch>)
    ensures o == PackActorsPass(actors, packId, failing)
    ensures compendiumUpdates == CorruptionPatches(actors)
  {
    o := Outcome([], [], false);
    compendiumUpdates := [];
    for i := 0 to |actors|
      invariant o == PackActorsPass(actors[..i], packId, failing)
      invariant compendiumUpdates == CorruptionPatches(actors[..i])
    {
      var actor := actors[i];
      assert actors[..i + 1][..i] == actors[..i];
      if !IsNumeric(actor.system.corruption) {
        o := o.(value := o.value + [actor]);
        continue;
      }
      var corruptionValue := Coalesce(actor.system.corruption, Num(0));
      compendiumUpdates := compendiumUpdates + [ActorPatch(actor.id, SetCorruption(corruptionValue))];
      var u := MigrateActorEmbedded(actor, PackEmbeddedItems(packId, actor.id), failing);
      o := Outcome(o.value + [u.value], o.events + u.events, o.failed || u.failed);
    }
    assert actors[..|actors|] == actors;
  }

  /** One Actor compendium: its actors' embedded items, then its bulk actor write, whose failure ends the pack loop. */
  method MigrateActorPack(compendium: Pack, failing: set<Target>) returns (u: Outcome<Pack>, abort: bool)
    ensures u == ActorPackUpdate(compendium, failing)
    ensures abort == BulkWriteFails(compendium, failing)
  {
    var embedded, compendiumUpdates := MigratePackActors(compendium.actors, compendium.id, failing);
    var events, failed := embedded.events, embedded.failed;
    var migrated := embedded.value;
    abort := false;
    if |compendiumUpdates| > 0 {
      var ok := ActorPackActors(compendium.id) !in failing;
      events := events + [ActorWrite(ActorPackActors(compendium.id), compendiumUpdates, ok)];
      if ok {
        migrated := ApplyActorPatches(migrated, compendiumUpdates);
      } else {
        failed := true;
        abort := true;
      }
    }
    u := Outcome(compendium.(actors := migrated), events, failed);
  }

  method MigrateActorPacks(packs: seq<Pack>, failing: set<Target>) returns (r: PacksRun)
    ensures r == ActorPacksPhase(packs, failing)
  {
    var o: Outcome<seq<Pack>> := Outcome([], [], false);
    var aborted := false;
    var i := 0;
    while i < |packs| && !aborted
      invariant 0 <= i <= |packs|
      invariant PacksRun(o, aborted) == ActorPacksPhase(packs[..i], failing)
    {
      var compendium := packs[i];
      assert packs[..i + 1][..i] == packs[..i];
      if IsActorPack(compendium) {
        var u, abort := MigrateActorPack(compendium, failing);
        o := Outcome(o.value + [u.value], o.events + u.events, o.failed || u.failed);
        aborted := abort;
      } else {
        o := o.(value := o.value + [compendium]);
      }
      i := i + 1;
    }
    if aborted {
      AbortedPassSkipsRest(packs, i, failing);
      o := o.(value := o.value + packs[i..]);
    } else {
      assert packs[..|packs|] == packs;
    }
    r := PacksRun(o, aborted);
  }

  /** Once a pack's bulk write has failed, the remaining packs are left as they are and nothing more is written. */
  lemma {:induction false} AbortedPassSkipsRest(packs: seq<Pack>, i: nat, failing: set<Target>)
    requires i <= |packs| && ActorPacksPhase(packs[..i], failing).aborted
    ensures var pre := ActorPacksPhase(packs[..i], failing);
      ActorPacksPhase(packs, failing) == PacksRun(pre.outcome.(value := pre.outcome.value + packs[i..]), true)
    decreases |packs| - i
  {
    if i == |packs| {
      assert packs[..i] == packs;
      assert packs[i..] == [];
      var pre := ActorPacksPhase(packs[..i], failing);
      assert pre.outcome.value + packs[i..] == pre.outcome.value;
    } else {
      var n := |packs|;
      var init := packs[..n - 1];
      assert init[..i] == packs[..i];
      AbortedPassSkipsRest(init, i, failing);
      var pre := ActorPacksPhase(packs[..i], failing);
      assert pre.outcome.value + init[i..] + [packs[n - 1]] == pre.outcome.value + packs[i..] by {
        assert init[i..] + [packs[n - 1]] == packs[i..];
      }
    }
  }

  /* ---------------------------------------------------------------------- */
  /*  The whole step                                                        */
  /* ---------------------------------------------------------------------- */

  /** The final notice: success iff `errorsInMigration` stayed false. */
  function FinalNotice(failed: bool): Event
  {
    Notify(if failed then ErrorInfo else SuccessInfo)
  }

  function Migrate310(w: World, failing: set<Target>): Outcome<World>
  {
    var a := WorldItemsPhase(w.items, failing);
    var b := EmbeddedPass(w.actors, 1, failing);
    var c := ItemPacksPhase(w.packs, failing);
    var d := WorldActorsPhase(b.value, failing);
    var e := ActorPacksPhase(c.value, failing);
    var failed := a.failed || b.failed || c.failed || d.failed || e.outcome.failed;
    Outcome(World(a.value, d.value, e.outcome.value),
            [Notify(StartInfo)] + a.events + b.events + c.events + d.events + e.outcome.events + [FinalNotice(failed)],
            failed)
  }

  /** `migrateWorld_3_1_0` */
  method MigrateWorld310(w: World, failing: set<Target>) returns (o: Outcome<World>)
    ensures o == Migrate310(w, failing)
  {
    var items := MigrateWorldItems(w.items, failing);
    var embedded := MigrateEmbeddedItems(w.actors, 1, failing);
    var itemPacks := MigrateItemPacks(w.packs, failing);
    var actors := MigrateWorldActors(embedded.value, failing);
    var actorPacks := MigrateActorPacks(itemPacks.value, failing);
    var errorsInMigration := items.failed || embedded.failed || itemPacks.failed || actors.failed || actorPacks.outcome.failed;
    o := Outcome(World(items.value, actors.value, actorPacks.outcome.value),
                 [Notify(StartInfo)] + items.events + embedded.events + itemPacks.events + actors.events
                   + actorPacks.outcome.events + [FinalNotice(errorsInMigration)],
                 errorsInMigration);
  }
}
