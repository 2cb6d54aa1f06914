/**
 * The world a migration step runs against, seen as a value: the world's
 * items and actors, its compendium packs, and the log of what a step asked
 * of the host (notifications and writes). Which writes the host rejects is
 * a parameter, `failing`: a write whose target is in `failing` throws and
 * leaves the documents as they were.
 */
module MigrationWorld {
  import opened JsValues
  import opened MigrationTransforms

  /** A compendium pack: `metadata.id`, `locked`, `metadata.type` and its documents. */
  datatype Pack = Pack(id: string, locked: bool, docType: string, items: seq<Item>, actors: seq<Actor>)

  datatype World = World(items: seq<Item>, actors: seq<Actor>, packs: seq<Pack>)

  /** The documents a single host write addresses. */
  datatype Target =
    | WorldItems                                        // Item.updateDocuments(itemUpdates)
    | EmbeddedItems(pass: nat, actorId: string)         // actor.updateEmbeddedDocuments('Item', ...)
    | ItemPackItems(packId: string)                     // Item.updateDocuments(..., {pack})
    | WorldActors                                       // Actor.updateDocuments(actorUpdates)
    | ActorPackActors(packId: string)                   // Actor.updateDocuments(..., {pack})
    | PackEmbeddedItems(packId: string, actorId: string)
    | ItemIcon(itemId: string)                          // item.update({name, img})
    | ActorData(actorId: string)                        // actor.update(actUpd)
    | EmbeddedIcons(actorId: string)
    | EmbedEffects(actorId: string)                     // actor._handleOnUpdateEmbedded
    | ActorMerge(actorId: string)                       // a.update(migrateActorData(a.data))

  /** The notifications `ui.notifications` shows, and the stored version tag being set. */
  datatype Message =
    | StartInfo
    | SuccessInfo
    | ErrorInfo
    | CompatibilityWarning
    | VersionStamp(version: string)

  datatype Event =
    | Notify(message: Message)
    | ItemWrite(target: Target, itemPatches: seq<ItemPatch>, ok: bool)
    | ActorWrite(target: Target, actorPatches: seq<ActorPatch>, ok: bool)
    | EffectsSync(target: Target, ok: bool)

  /** A write the host rejected. */
  predicate FailedWrite(e: Event)
  {
    !e.Notify? && !e.ok
  }

  predicate SomeFailedWrite(events: seq<Event>)
  {
    exists i :: 0 <= i < |events| && FailedWrite(events[i])
  }

  lemma SomeFailedWriteAppend(a: seq<Event>, b: seq<Event>)
    ensures SomeFailedWrite(a + b) <==> SomeFailedWrite(a) || SomeFailedWrite(b)
  {
    if SomeFailedWrite(a) {
      var i :| 0 <= i < |a| && FailedWrite(a[i]);
      assert (a + b)[i] == a[i];
    }
    if SomeFailedWrite(b) {
      var i :| 0 <= i < |b| && FailedWrite(b[i]);
      assert (a + b)[|a| + i] == b[i];
    }
    if SomeFailedWrite(a + b) {
      var i :| 0 <= i < |a + b| && FailedWrite((a + b)[i]);
      if i < |a| { assert a[i] == (a + b)[i]; } else { assert b[i - |a|] == (a + b)[i]; }
    }
  }

  /** The number of writes addressed to `t`. */
  function WritesTo(events: seq<Event>, t: Target): nat
  {
    if events == [] then 0
    else (if !events[0].Notify? && events[0].target == t then 1 else 0) + WritesTo(events[1..], t)
  }

  lemma {:induction false} WritesToAppend(a: seq<Event>, b: seq<Event>, t: Target)
    ensures WritesTo(a + b, t) == WritesTo(a, t) + WritesTo(b, t)
  {
    if a != [] {
      assert (a + b)[1..] == a[1..] + b;
      WritesToAppend(a[1..], b, t);
    } else {
      assert a + b == b;
    }
  }

  /** The update lists of the item writes, in the order they were issued. */
  function WrittenItemPatches(events: seq<Event>): seq<seq<ItemPatch>>
  {
    if events == [] then []
    else (if events[0].ItemWrite? then [events[0].itemPatches] else []) + WrittenItemPatches(events[1..])
  }

  lemma {:induction false} WrittenItemPatchesAppend(a: seq<Event>, b: seq<Event>)
    ensures WrittenItemPatches(a + b) == WrittenItemPatches(a) + WrittenItemPatches(b)
  {
    if a != [] {
      assert (a + b)[1..] == a[1..] + b;
      WrittenItemPatchesAppend(a[1..], b);
    } else {
      assert a + b == b;
    }
  }

  /** The result of a step, or of one population's part of it. */
  datatype Outcome<T> = Outcome(value: T, events: seq<Event>, failed: bool)

  /** A bulk item write: applied when the host accepts it, reported either way. */
  function WriteItems(items: seq<Item>, target: Target, patches: seq<ItemPatch>, failing: set<Target>): (r: Outcome<seq<Item>>)
    ensures r.events == [ItemWrite(target, patches, target !in failing)]
    ensures r.failed <==> target in failing
    ensures r.value == if target in failing then items else ApplyItemPatches(items, patches)
  {
    var ok := target !in failing;
    Outcome(if ok then ApplyItemPatches(items, patches) else items, [ItemWrite(target, patches, ok)], !ok)
  }

  /** A bulk actor write. */
  function WriteActors(actors: seq<Actor>, target: Target, patches: seq<ActorPatch>, failing: set<Target>): (r: Outcome<seq<Actor>>)
    ensures r.events == [ActorWrite(target, patches, target !in failing)]
    ensures r.failed <==> target in failing
    ensures r.value == if target in failing then actors else ApplyActorPatches(actors, patches)
  {
    var ok := target !in failing;
    Outcome(if ok then ApplyActorPatches(actors, patches) else actors, [ActorWrite(target, patches, ok)], !ok)
  }

  /**
   * The loop shared by every pass over a collection of items: push the
   * `strengthmin` update of each item whose `strengthmin` is truthy.
   */
  method CollectStrengthminUpdates(items: seq<Item>) returns (updates: seq<ItemPatch>)
    ensures updates == StrengthminPatches(items)
  {
    updates := [];
    for i := 0 to |items|
      invariant updates == StrengthminPatches(items[..i])
    {
      if Truthy(items[i].strengthmin) {
        updates := updates + [ItemPatch(items[i].id, SetRequirement(Requirement("Strength", items[i].strengthmin)))];
      }
      assert items[..i + 1][..i] == items[..i];
    }
    assert items[..|items|] == items;
  }
}
