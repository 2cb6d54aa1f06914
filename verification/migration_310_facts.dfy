/**
 * What the 3.1.0 migration guarantees, stated over its specification
 * functions: the error flag and the final notice agree with the host's
 * rejections, every population is sent in at most one non-empty bulk write,
 * the embedded items of every world actor are written twice with the same
 * updates, and a second run finds the same `strengthmin` work to do but no
 * corruption left to convert.
 */
module Migration310Facts {
  import opened JsValues
  import opened MigrationTransforms
  import opened MigrationWorld
  import opened Migration310

  /** A write carries at least one update. */
  predicate NonEmptyWrite(e: Event)
  {
    (e.ItemWrite? ==> e.itemPatches != []) && (e.ActorWrite? ==> e.actorPatches != [])
  }

  /** The non-empty `strengthmin` update lists of a sequence of actors' embedded items, in order. */
  function EmbeddedPatchList(actors: seq<Actor>): seq<seq<ItemPatch>>
  {
    if actors == [] then []
    else
      var patches := StrengthminPatches(actors[|actors| - 1].items);
      EmbeddedPatchList(actors[..|actors| - 1]) + (if patches == [] then [] else [patches])
  }

  lemma {:induction false} NoWritesTo(events: seq<Event>, t: Target)
    requires forall i :: 0 <= i < |events| ==> events[i].Notify? || events[i].target != t
    ensures WritesTo(events, t) == 0
  {
    if events != [] {
      NoWritesTo(events[1..], t);
    }
  }

  lemma {:induction false} NoItemWrites(events: seq<Event>)
    requires forall i :: 0 <= i < |events| ==> !events[i].ItemWrite?
    ensures WrittenItemPatches(events) == []
  {
    if events != [] {
      NoItemWrites(events[1..]);
    }
  }

  lemma {:induction false} PatchListSameStrengthmin(x: seq<Actor>, y: seq<Actor>)
    requires |x| == |y|
    requires forall i :: 0 <= i < |x| ==> StrengthminPatches(x[i].items) == StrengthminPatches(y[i].items)
    ensures EmbeddedPatchList(x) == EmbeddedPatchList(y)
  {
    if x != [] {
      PatchListSameStrengthmin(x[..|x| - 1], y[..|y| - 1]);
    }
  }

  lemma {:induction false} CorruptionSameSystems(x: seq<Actor>, y: seq<Actor>)
    requires |x| == |y|
    requires forall i :: 0 <= i < |x| ==> x[i].id == y[i].id && x[i].system == y[i].system
    ensures CorruptionPatches(x) == CorruptionPatches(y)
  {
    if x != [] {
      CorruptionSameSystems(x[..|x| - 1], y[..|y| - 1]);
    }
  }

  /* ---------------------------------------------------------------------- */
  /*  Per-population facts                                                  */
  /* ---------------------------------------------------------------------- */

  lemma EmbeddedUpdateFacts(actor: Actor, target: Target, failing: set<Target>)
    ensures var u := EmbeddedUpdate(actor, target, failing);
      && (u.failed <==> SomeFailedWrite(u.events))
      && u.value.id == actor.id && u.value.system == actor.system
      && StrengthminPatches(u.value.items) == StrengthminPatches(actor.items)
      && (StrengthminPatches(actor.items) == [] ==> u.events == [])
      && (StrengthminPatches(actor.items) != [] ==>
            u.events == [ItemWrite(target, StrengthminPatches(actor.items), target !in failing)])
  {
    StrengthminSurvivesUpdates(actor.items, StrengthminPatches(actor.items));
    var u := EmbeddedUpdate(actor, target, failing);
    if StrengthminPatches(actor.items) != [] {
      assert FailedWrite(u.events[0]) <==> target in failing;
    }
  }

  /** An embedded-item pass writes only to its own pass's targets and only non-empty lists. */
  lemma {:induction false} EmbeddedPassEvents(actors: seq<Actor>, pass: nat, failing: set<Target>)
    ensures var r := EmbeddedPass(actors, pass, failing);
      && (r.failed <==> SomeFailedWrite(r.events))
      && (forall i :: 0 <= i < |r.events| ==>
            r.events[i].ItemWrite? && r.events[i].target.EmbeddedItems? && r.events[i].target.pass == pass
            && r.events[i].itemPatches != [])
  {
    if actors != [] {
      var init := actors[..|actors| - 1];
      var last := actors[|actors| - 1];
      EmbeddedPassEvents(init, pass, failing);
      var r0 := EmbeddedPass(init, pass, failing);
      var u := EmbeddedUpdate(last, EmbeddedItems(pass, last.id), failing);
      EmbeddedUpdateFacts(last, EmbeddedItems(pass, last.id), failing);
      SomeFailedWriteAppend(r0.events, u.events);
    }
  }

  /** An embedded-item pass writes exactly the actors' non-empty `strengthmin` update lists, in actor order. */
  lemma {:induction false} EmbeddedPassWrites(actors: seq<Actor>, pass: nat, failing: set<Target>)
    ensures WrittenItemPatches(EmbeddedPass(actors, pass, failing).events) == EmbeddedPatchList(actors)
  {
    if actors != [] {
      var init := actors[..|actors| - 1];
      var last := actors[|actors| - 1];
      EmbeddedPassWrites(init, pass, failing);
      var r0 := EmbeddedPass(init, pass, failing);
      var u := EmbeddedUpdate(last, EmbeddedItems(pass, last.id), failing);
      EmbeddedUpdateFacts(last, EmbeddedItems(pass, last.id), failing);
      WrittenItemPatchesAppend(r0.events, u.events);
    }
  }

  /** An embedded-item pass changes only items, and never what the `strengthmin` updates are computed from. */
  lemma {:induction false} EmbeddedPassValues(actors: seq<Actor>, pass: nat, failing: set<Target>)
    ensures var r := EmbeddedPass(actors, pass, failing);
      forall i :: 0 <= i < |actors| ==>
        r.value[i].id == actors[i].id && r.value[i].system == actors[i].system
        && StrengthminPatches(r.value[i].items) == StrengthminPatches(actors[i].items)
  {
    if actors != [] {
      var init := actors[..|actors| - 1];
      var last := actors[|actors| - 1];
      EmbeddedPassValues(init, pass, failing);
      var u := EmbeddedUpdate(last, EmbeddedItems(pass, last.id), failing);
      assert u.value.id == last.id && u.value.system == last.system
        && StrengthminPatches(u.value.items) == StrengthminPatches(last.items) by {
        EmbeddedUpdateFacts(last, EmbeddedItems(pass, last.id), failing);
      }
      var r0 := EmbeddedPass(init, pass, failing);
      var r := EmbeddedPass(actors, pass, failing);
      assert r.value == r0.value + [u.value];
      forall i | 0 <= i < |actors|
        ensures r.value[i].id == actors[i].id && r.value[i].system == actors[i].system
          && StrengthminPatches(r.value[i].items) == StrengthminPatches(actors[i].items)
      {
        if i < |init| {
          assert r.value[i] == r0.value[i] && actors[i] == init[i];
        }
      }
    }
  }

  /** Item-pack writes go only to item packs and are never empty; the phase fails iff one is rejected. */
  lemma {:induction false} ItemPacksEvents(packs: seq<Pack>, failing: set<Target>)
    ensures var r := ItemPacksPhase(packs, failing);
      && (r.failed <==> SomeFailedWrite(r.events))
      && (forall i :: 0 <= i < |r.events| ==>
            r.events[i].ItemWrite? && r.events[i].target.ItemPackItems? && r.events[i].itemPatches != [])
  {
    if packs != [] {
      var init := packs[..|packs| - 1];
      var last := packs[|packs| - 1];
      ItemPacksEvents(init, failing);
      var r0 := ItemPacksPhase(init, failing);
      if IsItemPack(last) {
        var u := ItemPackUpdate(last, failing);
        SomeFailedWriteAppend(r0.events, u.events);
        if StrengthminPatches(last.items) != [] {
          assert FailedWrite(u.events[0]) <==> ItemPackItems(last.id) in failing;
        }
      }
    }
  }

  /** Locked and non-Item packs are left as they are; every pack keeps its id, lock, type and actors. */
  lemma {:induction false} ItemPacksValues(packs: seq<Pack>, failing: set<Target>)
    ensures var r := ItemPacksPhase(packs, failing);
      && (forall i :: 0 <= i < |packs| && !IsItemPack(packs[i]) ==> r.value[i] == packs[i])
      && (forall i :: 0 <= i < |packs| ==> (r.value[i].actors == packs[i].actors && r.value[i].id == packs[i].id
            && r.value[i].locked == packs[i].locked && r.value[i].docType == packs[i].docType))
  {
    if packs != [] {
      var init := packs[..|packs| - 1];
      ItemPacksValues(init, failing);
      var r0 := ItemPacksPhase(init, failing);
      var r := ItemPacksPhase(packs, failing);
      assert forall i :: 0 <= i < |init| ==> r.value[i] == r0.value[i] && packs[i] == init[i];
    }
  }

  /** A pack's actor pass writes only that pack's embedded items, never an empty list; it fails iff one is rejected. */
  lemma {:induction false} PackActorsEvents(actors: seq<Actor>, packId: string, failing: set<Target>)
    ensures var r := PackActorsPass(actors, packId, failing);
      && (r.failed <==> SomeFailedWrite(r.events))
      && (forall i :: 0 <= i < |r.events| ==>
            r.events[i].ItemWrite? && r.events[i].target.PackEmbeddedItems? && r.events[i].target.packId == packId
            && r.events[i].itemPatches != [])
  {
    if actors != [] {
      var init := actors[..|actors| - 1];
      var last := actors[|actors| - 1];
      PackActorsEvents(init, packId, failing);
      var r0 := PackActorsPass(init, packId, failing);
      if IsNumeric(last.system.corruption) {
        var u := EmbeddedUpdate(last, PackEmbeddedItems(packId, last.id), failing);
        EmbeddedUpdateFacts(last, PackEmbeddedItems(packId, last.id), failing);
        SomeFailedWriteAppend(r0.events, u.events);
      }
    }
  }

  /** Converted actors are skipped unchanged; every actor keeps its id and data. */
  lemma {:induction false} PackActorsValues(actors: seq<Actor>, packId: string, failing: set<Target>)
    ensures var r := PackActorsPass(actors, packId, failing);
      && (forall i :: 0 <= i < |actors| && !IsNumeric(actors[i].system.corruption) ==> r.value[i] == actors[i])
      && (forall i :: 0 <= i < |actors| ==> r.value[i].id == actors[i].id && r.value[i].system == actors[i].system)
  {
    if actors != [] {
      var init := actors[..|actors| - 1];
      var last := actors[|actors| - 1];
      PackActorsValues(init, packId, failing);
      var r0 := PackActorsPass(init, packId, failing);
      var r := PackActorsPass(actors, packId, failing);
      var v := if IsNumeric(last.system.corruption) then EmbeddedUpdate(last, PackEmbeddedItems(packId, last.id), failing).value else last;
      assert v.id == last.id && v.system == last.system by {
        EmbeddedUpdateFacts(last, PackEmbeddedItems(packId, last.id), failing);
      }
      assert r.value == r0.value + [v];
      forall i | 0 <= i < |actors|
        ensures (!IsNumeric(actors[i].system.corruption) ==> r.value[i] == actors[i])
          && r.value[i].id == actors[i].id && r.value[i].system == actors[i].system
      {
        if i < |init| {
          assert r.value[i] == r0.value[i] && actors[i] == init[i];
        }
      }
    }
  }

  lemma ActorPackUpdateFacts(p: Pack, failing: set<Target>)
    ensures var u := ActorPackUpdate(p, failing);
      && (u.failed <==> SomeFailedWrite(u.events))
      && (BulkWriteFails(p, failing) ==> u.failed)
      && (forall i :: 0 <= i < |u.events| ==>
            NonEmptyWrite(u.events[i]) && !u.events[i].Notify?
            && (u.events[i].target.PackEmbeddedItems? || u.events[i].target.ActorPackActors?))
      && WritesTo(u.events, ActorPackActors(p.id)) == (if CorruptionPatches(p.actors) == [] then 0 else 1)
  {
    var embedded := PackActorsPass(p.actors, p.id, failing);
    PackActorsEvents(p.actors, p.id, failing);
    NoWritesTo(embedded.events, ActorPackActors(p.id));
    var updates := CorruptionPatches(p.actors);
    if updates != [] {
      var w := WriteActors(embedded.value, ActorPackActors(p.id), updates, failing);
      SomeFailedWriteAppend(embedded.events, w.events);
      WritesToAppend(embedded.events, w.events, ActorPackActors(p.id));
      assert FailedWrite(w.events[0]) <==> ActorPackActors(p.id) in failing;
      assert WritesTo(w.events, ActorPackActors(p.id)) == 1 by {
        assert w.events[1..] == [];
      }
    }
  }

  lemma {:induction false} ActorPacksFacts(packs: seq<Pack>, failing: set<Target>)
    ensures var r := ActorPacksPhase(packs, failing);
      && (r.outcome.failed <==> SomeFailedWrite(r.outcome.events))
      && (r.aborted ==> r.outcome.failed)
      && (forall i :: 0 <= i < |r.outcome.events| ==>
            NonEmptyWrite(r.outcome.events[i]) && !r.outcome.events[i].Notify?
            && (r.outcome.events[i].target.PackEmbeddedItems? || r.outcome.events[i].target.ActorPackActors?))
  {
    if packs != [] {
      var init := packs[..|packs| - 1];
      var last := packs[|packs| - 1];
      ActorPacksFacts(init, failing);
      var r0 := ActorPacksPhase(init, failing);
      if !r0.aborted && IsActorPack(last) {
        var u := ActorPackUpdate(last, failing);
        ActorPackUpdateFacts(last, failing);
        SomeFailedWriteAppend(r0.outcome.events, u.events);
      }
    }
  }

  /* ---------------------------------------------------------------------- */
  /*  The whole step                                                        */
  /* ---------------------------------------------------------------------- */

  /**
   * The world-actor pass writes the same embedded updates as the first
   * embedded pass did: embedded items are migrated twice per run.
   */
  lemma EmbeddedItemsProcessedTwice(actors: seq<Actor>, failing: set<Target>)
    ensures var first := EmbeddedPass(actors, 1, failing);
      var second := WorldActorsPhase(first.value, failing);
      WrittenItemPatches(first.events) == EmbeddedPatchList(actors)
      && WrittenItemPatches(second.events) == EmbeddedPatchList(actors)
  {
    var first := EmbeddedPass(actors, 1, failing);
    EmbeddedPassWrites(actors, 1, failing);
    EmbeddedPassValues(actors, 1, failing);
    PatchListSameStrengthmin(first.value, actors);
    var embedded := EmbeddedPass(first.value, 2, failing);
    EmbeddedPassWrites(first.value, 2, failing);
    var updates := CorruptionPatches(first.value);
    if updates != [] {
      var w := WriteActors(embedded.value, WorldActors, updates, failing);
      WrittenItemPatchesAppend(embedded.events, w.events);
      NoItemWrites(w.events);
    }
  }

  lemma WorldActorsFacts(actors: seq<Actor>, failing: set<Target>)
    ensures var d := WorldActorsPhase(actors, failing);
      && (d.failed <==> SomeFailedWrite(d.events))
      && (forall i :: 0 <= i < |d.events| ==> NonEmptyWrite(d.events[i]) && !d.events[i].Notify?)
      && WritesTo(d.events, WorldActors) == (if CorruptionPatches(actors) == [] then 0 else 1)
      && WritesTo(d.events, WorldItems) == 0
  {
    var d := WorldActorsPhase(actors, failing);
    var embedded := EmbeddedPass(actors, 2, failing);
    EmbeddedPassEvents(actors, 2, failing);
    assert WritesTo(embedded.events, WorldActors) == 0 by { NoWritesTo(embedded.events, WorldActors); }
    assert WritesTo(embedded.events, WorldItems) == 0 by { NoWritesTo(embedded.events, WorldItems); }
    var updates := CorruptionPatches(actors);
    if updates != [] {
      var w := WriteActors(embedded.value, WorldActors, updates, failing);
      assert d.events == embedded.events + w.events;
      SomeFailedWriteAppend(embedded.events, w.events);
      assert FailedWrite(w.events[0]) <==> WorldActors in failing;
      assert w.events[1..] == [];
      WritesToAppend(embedded.events, w.events, WorldActors);
      WritesToAppend(embedded.events, w.events, WorldItems);
      forall i | 0 <= i < |d.events| ensures NonEmptyWrite(d.events[i]) && !d.events[i].Notify? {
        if i >= |embedded.events| {
          assert d.events[i] == w.events[0];
        }
      }
    }
  }

  lemma WorldItemsFacts(items: seq<Item>, failing: set<Target>)
    ensures var a := WorldItemsPhase(items, failing);
      && (a.failed <==> SomeFailedWrite(a.events))
      && (forall i :: 0 <= i < |a.events| ==> NonEmptyWrite(a.events[i]) && !a.events[i].Notify?)
      && WritesTo(a.events, WorldItems) == (if StrengthminPatches(items) == [] then 0 else 1)
      && WritesTo(a.events, WorldActors) == 0
  {
    var a := WorldItemsPhase(items, failing);
    if StrengthminPatches(items) != [] {
      assert FailedWrite(a.events[0]) <==> WorldItems in failing;
      assert a.events[1..] == [];
    }
  }

  /**
   * `errorsInMigration` is set exactly when the host rejected some write,
   * the step opens with the start notice and closes with the success notice
   * iff no write was rejected (the error notice otherwise).
   */
  lemma Migrate310Notices(w: World, failing: set<Target>)
    ensures var o := Migrate310(w, failing);
      && |o.events| >= 2
      && o.events[0] == Notify(StartInfo)
      && (o.failed <==> SomeFailedWrite(o.events))
      && o.events[|o.events| - 1] == Notify(if SomeFailedWrite(o.events) then ErrorInfo else SuccessInfo)
  {
    var a := WorldItemsPhase(w.items, failing);
    var b := EmbeddedPass(w.actors, 1, failing);
    var c := ItemPacksPhase(w.packs, failing);
    var d := WorldActorsPhase(b.value, failing);
    var e := ActorPacksPhase(c.value, failing);
    var failed := a.failed || b.failed || c.failed || d.failed || e.outcome.failed;
    var s := [Notify(StartInfo)];
    var f := [FinalNotice(failed)];
    assert a.failed <==> SomeFailedWrite(a.events) by { WorldItemsFacts(w.items, failing); }
    assert b.failed <==> SomeFailedWrite(b.events) by { EmbeddedPassEvents(w.actors, 1, failing); }
    assert c.failed <==> SomeFailedWrite(c.events) by { ItemPacksEvents(w.packs, failing); }
    assert d.failed <==> SomeFailedWrite(d.events) by { WorldActorsFacts(b.value, failing); }
    assert e.outcome.failed <==> SomeFailedWrite(e.outcome.events) by { ActorPacksFacts(c.value, failing); }
    SomeFailedSeven(s, a.events, b.events, c.events, d.events, e.outcome.events, f);
    assert Migrate310(w, failing).events == s + a.events + b.events + c.events + d.events + e.outcome.events + f;
  }

  lemma SomeFailedSeven(s: seq<Event>, a: seq<Event>, b: seq<Event>, c: seq<Event>, d: seq<Event>, e: seq<Event>, f: seq<Event>)
    requires |s| == 1 && s[0].Notify? && |f| == 1 && f[0].Notify?
    ensures SomeFailedWrite(s + a + b + c + d + e + f)
      <==> SomeFailedWrite(a) || SomeFailedWrite(b) || SomeFailedWrite(c) || SomeFailedWrite(d) || SomeFailedWrite(e)
  {
    SomeFailedWriteAppend(s, a);
    SomeFailedWriteAppend(s + a, b);
    SomeFailedWriteAppend(s + a + b, c);
    SomeFailedWriteAppend(s + a + b + c, d);
    SomeFailedWriteAppend(s + a + b + c + d, e);
    SomeFailedWriteAppend(s + a + b + c + d + e, f);
  }

  predicate NonEmptyWrites(events: seq<Event>)
  {
    forall i :: 0 <= i < |events| ==> NonEmptyWrite(events[i])
  }

  lemma NonEmptyWritesAppend(a: seq<Event>, b: seq<Event>)
    requires NonEmptyWrites(a) && NonEmptyWrites(b)
    ensures NonEmptyWrites(a + b)
  {
    forall i | 0 <= i < |a + b| ensures NonEmptyWrite((a + b)[i]) {
      if i >= |a| { assert (a + b)[i] == b[i - |a|]; }
    }
  }

  lemma NonEmptyWritesSeven(s: seq<Event>, a: seq<Event>, b: seq<Event>, c: seq<Event>, d: seq<Event>, e: seq<Event>, f: seq<Event>)
    requires |s| == 1 && s[0].Notify? && |f| == 1 && f[0].Notify?
    requires NonEmptyWrites(a) && NonEmptyWrites(b) && NonEmptyWrites(c) && NonEmptyWrites(d) && NonEmptyWrites(e)
    ensures NonEmptyWrites(s + a + b + c + d + e + f)
  {
    NonEmptyWritesAppend(s, a);
    NonEmptyWritesAppend(s + a, b);
    NonEmptyWritesAppend(s + a + b, c);
    NonEmptyWritesAppend(s + a + b + c, d);
    NonEmptyWritesAppend(s + a + b + c + d, e);
    NonEmptyWritesAppend(s + a + b + c + d + e, f);
  }

  lemma WritesToSeven(s: seq<Event>, a: seq<Event>, b: seq<Event>, c: seq<Event>, d: seq<Event>, e: seq<Event>, f: seq<Event>, t: Target)
    ensures WritesTo(s + a + b + c + d + e + f, t)
      == WritesTo(s, t) + WritesTo(a, t) + WritesTo(b, t) + WritesTo(c, t) + WritesTo(d, t) + WritesTo(e, t) + WritesTo(f, t)
  {
    WritesToAppend(s, a, t);
    WritesToAppend(s + a, b, t);
    WritesToAppend(s + a + b, c, t);
    WritesToAppend(s + a + b + c, d, t);
    WritesToAppend(s + a + b + c + d, e, t);
    WritesToAppend(s + a + b + c + d + e, f, t);
  }

  /** No write of the 3.1.0 step carries an empty update list. */
  lemma Migrate310NonEmptyWrites(w: World, failing: set<Target>)
    ensures NonEmptyWrites(Migrate310(w, failing).events)
  {
    var a := WorldItemsPhase(w.items, failing);
    var b := EmbeddedPass(w.actors, 1, failing);
    var c := ItemPacksPhase(w.packs, failing);
    var d := WorldActorsPhase(b.value, failing);
    var e := ActorPacksPhase(c.value, failing);
    var failed := a.failed || b.failed || c.failed || d.failed || e.outcome.failed;
    var s := [Notify(StartInfo)];
    var f := [FinalNotice(failed)];
    assert NonEmptyWrites(a.events) by { WorldItemsFacts(w.items, failing); }
    assert NonEmptyWrites(b.events) by { EmbeddedPassEvents(w.actors, 1, failing); }
    assert NonEmptyWrites(c.events) by { ItemPacksEvents(w.packs, failing); }
    assert NonEmptyWrites(d.events) by { WorldActorsFacts(b.value, failing); }
    assert NonEmptyWrites(e.outcome.events) by { ActorPacksFacts(c.value, failing); }
    NonEmptyWritesSeven(s, a.events, b.events, c.events, d.events, e.outcome.events, f);
    assert Migrate310(w, failing).events == s + a.events + b.events + c.events + d.events + e.outcome.events + f;
  }

  /** The world items go out in at most one bulk write, sent exactly when there is an update to make. */
  lemma Migrate310ItemBulkWrite(w: World, failing: set<Target>)
    ensures WritesTo(Migrate310(w, failing).events, WorldItems) == (if StrengthminPatches(w.items) == [] then 0 else 1)
  {
    var a := WorldItemsPhase(w.items, failing);
    var b := EmbeddedPass(w.actors, 1, failing);
    var c := ItemPacksPhase(w.packs, failing);
    var d := WorldActorsPhase(b.value, failing);
    var e := ActorPacksPhase(c.value, failing);
    var failed := a.failed || b.failed || c.failed || d.failed || e.outcome.failed;
    var s := [Notify(StartInfo)];
    var f := [FinalNotice(failed)];
    assert WritesTo(s, WorldItems) == 0 by { NoWritesTo(s, WorldItems); }
    assert WritesTo(a.events, WorldItems) == (if StrengthminPatches(w.items) == [] then 0 else 1) by { WorldItemsFacts(w.items, failing); }
    assert WritesTo(b.events, WorldItems) == 0 by {
      EmbeddedPassEvents(w.actors, 1, failing);
      NoWritesTo(b.events, WorldItems);
    }
    assert WritesTo(c.events, WorldItems) == 0 by {
      ItemPacksEvents(w.packs, failing);
      NoWritesTo(c.events, WorldItems);
    }
    assert WritesTo(d.events, WorldItems) == 0 by { WorldActorsFacts(b.value, failing); }
    assert WritesTo(e.outcome.events, WorldItems) == 0 by {
      ActorPacksFacts(c.value, failing);
      NoWritesTo(e.outcome.events, WorldItems);
    }
    assert WritesTo(f, WorldItems) == 0 by { NoWritesTo(f, WorldItems); }
    WritesToSeven(s, a.events, b.events, c.events, d.events, e.outcome.events, f, WorldItems);
    assert Migrate310(w, failing).events == s + a.events + b.events + c.events + d.events + e.outcome.events + f;
  }

  /** The world actors go out in at most one bulk write, sent exactly when some corruption is numeric. */
  lemma Migrate310ActorBulkWrite(w: World, failing: set<Target>)
    ensures WritesTo(Migrate310(w, failing).events, WorldActors) == (if CorruptionPatches(w.actors) == [] then 0 else 1)
  {
    var a := WorldItemsPhase(w.items, failing);
    var b := EmbeddedPass(w.actors, 1, failing);
    var c := ItemPacksPhase(w.packs, failing);
    var d := WorldActorsPhase(b.value, failing);
    var e := ActorPacksPhase(c.value, failing);
    var failed := a.failed || b.failed || c.failed || d.failed || e.outcome.failed;
    var s := [Notify(StartInfo)];
    var f := [FinalNotice(failed)];
    assert WritesTo(s, WorldActors) == 0 by { NoWritesTo(s, WorldActors); }
    assert WritesTo(a.events, WorldActors) == 0 by { WorldItemsFacts(w.items, failing); }
    assert WritesTo(b.events, WorldActors) == 0 by {
      EmbeddedPassEvents(w.actors, 1, failing);
      NoWritesTo(b.events, WorldActors);
    }
    assert WritesTo(c.events, WorldActors) == 0 by {
      ItemPacksEvents(w.packs, failing);
      NoWritesTo(c.events, WorldActors);
    }
    assert WritesTo(d.events, WorldActors) == (if CorruptionPatches(w.actors) == [] then 0 else 1) by {
      WorldActorsFacts(b.value, failing);
      EmbeddedPassValues(w.actors, 1, failing);
      CorruptionSameSystems(b.value, w.actors);
    }
    assert WritesTo(e.outcome.events, WorldActors) == 0 by {
      ActorPacksFacts(c.value, failing);
      NoWritesTo(e.outcome.events, WorldActors);
    }
    assert WritesTo(f, WorldActors) == 0 by { NoWritesTo(f, WorldActors); }
    WritesToSeven(s, a.events, b.events, c.events, d.events, e.outcome.events, f, WorldActors);
    assert Migrate310(w, failing).events == s + a.events + b.events + c.events + d.events + e.outcome.events + f;
  }

  /**
   * Nothing clears `strengthmin`: on the migrated world a second run finds
   * the same world-item and embedded-item updates to issue. Once the world
   * actors' bulk write has gone through, no world actor's corruption is
   * numeric any more, so the corruption conversion happens once.
   */
  lemma Migrate310Rerun(w: World, failing: set<Target>)
    ensures var o := Migrate310(w, failing);
      && StrengthminPatches(o.value.items) == StrengthminPatches(w.items)
      && EmbeddedPatchList(o.value.actors) == EmbeddedPatchList(w.actors)
      && (WorldActors !in failing ==> CorruptionPatches(o.value.actors) == [])
  {
    var a := WorldItemsPhase(w.items, failing);
    StrengthminSurvivesUpdates(w.items, StrengthminPatches(w.items));
    var b := EmbeddedPass(w.actors, 1, failing);
    EmbeddedPassValues(w.actors, 1, failing);
    var b2 := EmbeddedPass(b.value, 2, failing);
    EmbeddedPassValues(b.value, 2, failing);
    var updates := CorruptionPatches(b.value);
    var d := WorldActorsPhase(b.value, failing);
    CorruptionSameSystems(b2.value, b.value);
    if updates == [] {
      assert d.value == b2.value;
      PatchListSameStrengthmin(d.value, w.actors);
      if WorldActors !in failing {
        assert CorruptionPatches(d.value) == [];
      }
    } else {
      var after := ApplyActorPatches(b2.value, updates);
      assert d.value == if WorldActors in failing then b2.value else after;
      PatchListSameStrengthmin(d.value, w.actors);
      if WorldActors !in failing {
        CorruptionConvertedOnce(b2.value);
      }
    }
  }

  /**
   * An actor-pack entry whose corruption is not numeric is taken as already
   * converted: it is left as it is and none of its items is written.
   */
  lemma PackSkipsConvertedActors(actors: seq<Actor>, packId: string, failing: set<Target>, i: nat)
    requires i < |actors| && !IsNumeric(actors[i].system.corruption)
    ensures PackActorsPass(actors, packId, failing).value[i] == actors[i]
    ensures CorruptionPatch(actors[i]).None?
  {
    PackActorsValues(actors, packId, failing);
  }
}
