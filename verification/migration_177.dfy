/**
 * `migrateWorld_1_7_7`: every world actor is written back with the data
 * `migrateActorData` produces, and the world items are run through
 * `migrateItemData`, which never asks for anything. Failures are only
 * logged: the step reports success whatever happened.
 */
module Migration177 {
  import opened JsValues
  import opened MigrationTransforms
  import opened MigrationWorld

  /**
   * The write for one actor. `migrateActorData` (a merge with the host's
   * data model through `mergeObject`) is a parameter; its result always has
   * a `data` entry, so it is never empty and the write is always issued.
   */
  function ActorMergeWrite(a: Actor, migrateActorData: Actor -> ActorSystem, failing: set<Target>): Event
  {
    ActorWrite(ActorMerge(a.id), [ActorPatch(a.id, MergeData(migrateActorData(a)))], ActorMerge(a.id) !in failing)
  }

  function ActorsPhase177(actors: seq<Actor>, migrateActorData: Actor -> ActorSystem, failing: set<Target>): (r: Outcome<seq<Actor>>)
    ensures |r.value| == |actors| && |r.events| == |actors| && !r.failed
  {
    if actors == [] then Outcome([], [], false)
    else
      var init := ActorsPhase177(actors[..|actors| - 1], migrateActorData, failing);
      var a := actors[|actors| - 1];
      var e := ActorMergeWrite(a, migrateActorData, failing);
      Outcome(init.value + [if e.ok then ApplyActorPatch(a, e.actorPatches[0]) else a], init.events + [e], false)
  }

  function Migrate177(w: World, migrateActorData: Actor -> ActorSystem, failing: set<Target>): Outcome<World>
  {
    var actors := ActorsPhase177(w.actors, migrateActorData, failing);
    Outcome(World(w.items, actors.value, w.packs), [Notify(StartInfo)] + actors.events + [Notify(SuccessInfo)], false)
  }

  /** `migrateWorld_1_7_7` */
  method MigrateWorld177(w: World, migrateActorData: Actor -> ActorSystem, failing: set<Target>) returns (o: Outcome<World>)
    ensures o == Migrate177(w, migrateActorData, failing)
  {
    var actors: seq<Actor> := [];
    var events := [Notify(StartInfo)];
    for i := 0 to |w.actors|
      invariant actors == ActorsPhase177(w.actors[..i], migrateActorData, failing).value
      invariant events == [Notify(StartInfo)] + ActorsPhase177(w.actors[..i], migrateActorData, failing).events
    {
      var a := w.actors[i];
      var updateData := ActorPatch(a.id, MergeData(migrateActorData(a)));
      if ActorMerge(a.id) in failing {
        // the error is logged and the loop goes on
        actors := actors + [a];
        events := events + [ActorWrite(ActorMerge(a.id), [updateData], false)];
      } else {
        actors := actors + [ApplyActorPatch(a, updateData)];
        events := events + [ActorWrite(ActorMerge(a.id), [updateData], true)];
      }
      assert w.actors[..i + 1][..i] == w.actors[..i];
    }
    assert w.actors[..|w.actors|] == w.actors;
    for i := 0 to |w.items| {
      // `migrateItemData` yields `{}` for every item, so `isObjectEmpty` holds and no item is written
      var updateData := MigrateItemData(w.items[i]);
    }
    events := events + [Notify(SuccessInfo)];
    o := Outcome(World(w.items, actors, w.packs), events, false);
  }

  /**
   * The step always closes with the success notice, even when some actor
   * write was rejected; the log shows a rejection exactly when some actor's
   * write target is failing. Every actor is written, one write each, in
   * order, and no item is written.
   */
  lemma Migrate177AlwaysReportsSuccess(w: World, migrateActorData: Actor -> ActorSystem, failing: set<Target>)
    ensures var o := Migrate177(w, migrateActorData, failing);
      && o.events[|o.events| - 1] == Notify(SuccessInfo)
      && |o.events| == |w.actors| + 2
      && (forall i :: 0 <= i < |w.actors| ==> o.events[i + 1] == ActorMergeWrite(w.actors[i], migrateActorData, failing))
      && (SomeFailedWrite(o.events) <==> exists i :: 0 <= i < |w.actors| && ActorMerge(w.actors[i].id) in failing)
      && o.value.items == w.items
  {
    var o := Migrate177(w, migrateActorData, failing);
    ActorsPhase177Events(w.actors, migrateActorData, failing);
    var ev := ActorsPhase177(w.actors, migrateActorData, failing).events;
    assert forall i :: 0 <= i < |ev| ==> o.events[i + 1] == ev[i];
    if SomeFailedWrite(o.events) {
      var k :| 0 <= k < |o.events| && FailedWrite(o.events[k]);
      assert FailedWrite(ev[k - 1]);
    }
    if exists i :: 0 <= i < |w.actors| && ActorMerge(w.actors[i].id) in failing {
      var i :| 0 <= i < |w.actors| && ActorMerge(w.actors[i].id) in failing;
      assert FailedWrite(o.events[i + 1]);
    }
  }

  lemma {:induction false} ActorsPhase177Events(actors: seq<Actor>, migrateActorData: Actor -> ActorSystem, failing: set<Target>)
    ensures var r := ActorsPhase177(actors, migrateActorData, failing);
      forall i :: 0 <= i < |actors| ==> r.events[i] == ActorMergeWrite(actors[i], migrateActorData, failing)
  {
    if actors != [] {
      var init := actors[..|actors| - 1];
      ActorsPhase177Events(init, migrateActorData, failing);
      assert forall i :: 0 <= i < |init| ==> actors[i] == init[i];
    }
  }
}
