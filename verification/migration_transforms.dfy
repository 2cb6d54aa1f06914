/**
 * The records the migration reads and the per-record transforms it applies:
 * the `strengthmin` and `corruption` patches, the icon path rewrite
 * `_getNewImgPath`, the destructive `_resetActorData`, the recursive
 * `_nullToUndefined`, and `migrateItemData`.
 */
module MigrationTransforms {
  import opened JsValues
  import opened Strings

  /* ---------------------------------------------------------------------- */
  /*  Records                                                               */
  /* ---------------------------------------------------------------------- */

  /** `system.requirement`: `{attribute, minvalue}` */
  datatype Requirement = Requirement(attribute: string, minvalue: JsValue)

  /**
   * An item document. `systemType` is the item's `system.type`, which is what
   * `item.data?.data?.type ?? item.data.type` reaches both for a document
   * and for its plain-object copy; `None` is `undefined`.
   */
  datatype Item = Item(
    id: string,
    name: string,
    kind: string,
    img: Option<string>,
    systemType: Option<string>,
    strengthmin: JsValue,
    requirement: Option<Requirement>)

  /** The part of an actor's `system` data the migration reads or rewrites. */
  datatype ActorSystem = ActorSystem(
    strength: JsValue, agility: JsValue, intellect: JsValue, will: JsValue, perception: JsValue,
    healthMax: JsValue, healingRate: JsValue, defense: JsValue, speed: JsValue, power: JsValue,
    insanityMax: JsValue,
    corruption: JsValue,
    religionImage: Option<string>)

  datatype Actor = Actor(id: string, name: string, kind: string, img: Option<string>, system: ActorSystem, items: seq<Item>)

  /* ---------------------------------------------------------------------- */
  /*  Update patches (the `{_id, ...}` objects handed to bulk updates)      */
  /* ---------------------------------------------------------------------- */

  datatype ItemChange =
    | SetRequirement(requirement: Requirement)
    | SetIcon(newName: string, newImg: string)

  datatype ItemPatch = ItemPatch(id: string, change: ItemChange)

  datatype ActorChange =
    | SetCorruption(value: JsValue)
    | ReplaceData(newImg: Option<string>, newSystem: ActorSystem)
    | MergeData(merged: ActorSystem)

  datatype ActorPatch = ActorPatch(id: string, change: ActorChange)

  /** The host applies a patch to the record with the patch's `_id`; other records are untouched. */
  function ApplyItemPatch(item: Item, patch: ItemPatch): (r: Item)
    ensures r.id == item.id && r.strengthmin == item.strengthmin && r.kind == item.kind
  {
    if patch.id != item.id then item
    else match patch.change
      case SetRequirement(req) => item.(requirement := Some(req))
      case SetIcon(n, img) => item.(name := n, img := Some(img))
  }

  function ApplyItemPatchesTo(item: Item, patches: seq<ItemPatch>): (r: Item)
    ensures r.id == item.id && r.strengthmin == item.strengthmin && r.kind == item.kind
    decreases |patches|
  {
    if patches == [] then item else ApplyItemPatchesTo(ApplyItemPatch(item, patches[0]), patches[1..])
  }

  /** A successful bulk item update. */
  function ApplyItemPatches(items: seq<Item>, patches: seq<ItemPatch>): (r: seq<Item>)
    ensures |r| == |items|
    ensures forall i :: 0 <= i < |items| ==> r[i] == ApplyItemPatchesTo(items[i], patches)
  {
    seq(|items|, i requires 0 <= i < |items| => ApplyItemPatchesTo(items[i], patches))
  }

  /** The structured corruption `{value, immune: false}`. */
  function StructuredCorruption(value: JsValue): JsValue
  {
    Obj(map["value" := value, "immune" := Bool(false)])
  }

  function ApplyActorPatch(actor: Actor, patch: ActorPatch): (r: Actor)
    ensures r.id == actor.id && r.items == actor.items
  {
    if patch.id != actor.id then actor
    else match patch.change
      case SetCorruption(v) => actor.(system := actor.system.(corruption := StructuredCorruption(v)))
      case ReplaceData(img, sys) => actor.(img := img, system := sys)
      case MergeData(sys) => actor.(system := sys)
  }

  function ApplyActorPatchesTo(actor: Actor, patches: seq<ActorPatch>): (r: Actor)
    ensures r.id == actor.id && r.items == actor.items
    decreases |patches|
  {
    if patches == [] then actor else ApplyActorPatchesTo(ApplyActorPatch(actor, patches[0]), patches[1..])
  }

  /** A successful bulk actor update. */
  function ApplyActorPatches(actors: seq<Actor>, patches: seq<ActorPatch>): (r: seq<Actor>)
    ensures |r| == |actors|
    ensures forall i :: 0 <= i < |actors| ==> r[i] == ApplyActorPatchesTo(actors[i], patches)
  {
    seq(|actors|, i requires 0 <= i < |actors| => ApplyActorPatchesTo(actors[i], patches))
  }

  /* ---------------------------------------------------------------------- */
  /*  strengthmin -> requirement                                            */
  /* ---------------------------------------------------------------------- */

  /**
   * The update an item gets in the 3.1.0 migration:
   * `{_id, system: {requirement: {attribute: 'Strength', minvalue: strengthmin}}}`
   * when its `strengthmin` is truthy, none otherwise.
   */
  function StrengthminPatch(item: Item): (r: Option<ItemPatch>)
    ensures r.Some? <==> Truthy(item.strengthmin)
    ensures r.Some? ==> (r.value.id == item.id
      && r.value.change == SetRequirement(Requirement("Strength", item.strengthmin)))
  {
    if Truthy(item.strengthmin)
    then Some(ItemPatch(item.id, SetRequirement(Requirement("Strength", item.strengthmin))))
    else None
  }

  /** The update list the migration builds for a collection of items, in collection order. */
  function StrengthminPatches(items: seq<Item>): seq<ItemPatch>
  {
    if items == [] then []
    else
      var last := items[|items| - 1];
      StrengthminPatches(items[..|items| - 1])
        + (match StrengthminPatch(last) case Some(p) => [p] case None => [])
  }

  /**
   * One update per item whose `strengthmin` is truthy, in collection order:
   * an item is patched iff its `strengthmin` is truthy, and every patch
   * carries its item's id and the requirement built from its `strengthmin`.
   */
  lemma {:induction false} StrengthminPatchesSpec(items: seq<Item>)
    ensures |StrengthminPatches(items)| <= |items|
    ensures forall p :: p in StrengthminPatches(items) ==>
      exists i :: 0 <= i < |items| && StrengthminPatch(items[i]) == Some(p)
    ensures forall i :: 0 <= i < |items| && Truthy(items[i].strengthmin) ==>
      StrengthminPatch(items[i]).value in StrengthminPatches(items)
    ensures StrengthminPatches(items) == [] <==> forall i :: 0 <= i < |items| ==> !Truthy(items[i].strengthmin)
  {
    if items != [] {
      var init := items[..|items| - 1];
      StrengthminPatchesSpec(init);
      assert forall i :: 0 <= i < |init| ==> init[i] == items[i];
    }
  }

  /**
   * `strengthmin` is never cleared: whatever updates the host applied, the
   * items still produce exactly the same `strengthmin` updates, so a second
   * run (or a second pass in the same run) re-issues them.
   */
  lemma {:induction false} StrengthminSurvivesUpdates(items: seq<Item>, patches: seq<ItemPatch>)
    ensures StrengthminPatches(ApplyItemPatches(items, patches)) == StrengthminPatches(items)
  {
    if items != [] {
      var init := items[..|items| - 1];
      var applied := ApplyItemPatches(items, patches);
      assert applied[..|applied| - 1] == ApplyItemPatches(init, patches);
      StrengthminSurvivesUpdates(init, patches);
    }
  }

  /** The requirement a successful `strengthmin` update leaves behind. */
  lemma StrengthminUpdateSetsRequirement(item: Item)
    requires Truthy(item.strengthmin)
    ensures var after := ApplyItemPatch(item, StrengthminPatch(item).value);
      after.requirement == Some(Requirement("Strength", item.strengthmin))
      && after.strengthmin == item.strengthmin
      && StrengthminPatch(after) == StrengthminPatch(item)
  {
  }

  /* ---------------------------------------------------------------------- */
  /*  corruption -> {value, immune}                                         */
  /* ---------------------------------------------------------------------- */

  /**
   * The corruption update of an actor: when `isNumeric(corruption)`, set it
   * to `{value: corruption ?? 0, immune: false}`; otherwise none.
   */
  function CorruptionPatch(actor: Actor): (r: Option<ActorPatch>)
    ensures r.Some? <==> IsNumeric(actor.system.corruption)
    ensures r.Some? ==> (r.value.id == actor.id
      && r.value.change == SetCorruption(Coalesce(actor.system.corruption, Num(0))))
  {
    if IsNumeric(actor.system.corruption)
    then Some(ActorPatch(actor.id, SetCorruption(Coalesce(actor.system.corruption, Num(0)))))
    else None
  }

  function CorruptionPatches(actors: seq<Actor>): seq<ActorPatch>
  {
    if actors == [] then []
    else
      var last := actors[|actors| - 1];
      CorruptionPatches(actors[..|actors| - 1])
        + (match CorruptionPatch(last) case Some(p) => [p] case None => [])
  }

  /**
   * The `?? 0` default is never used: a value that passes `isNumeric` is
   * neither `null` nor `undefined`, so the new `value` is the old scalar.
   */
  lemma CorruptionKeepsValue(actor: Actor)
    requires CorruptionPatch(actor).Some?
    ensures CorruptionPatch(actor).value.change == SetCorruption(actor.system.corruption)
  {
  }

  /** An actor whose id some corruption update targets ends with structured corruption. */
  lemma {:induction false} CorruptionPatchesConvert(actor: Actor, patches: seq<ActorPatch>)
    requires forall p :: p in patches ==> p.change.SetCorruption?
    ensures (exists p :: p in patches && p.id == actor.id) ==> !IsNumeric(ApplyActorPatchesTo(actor, patches).system.corruption)
    ensures (forall p :: p in patches ==> p.id != actor.id) ==> ApplyActorPatchesTo(actor, patches) == actor
    decreases |patches|
  {
    if patches != [] {
      var next := ApplyActorPatch(actor, patches[0]);
      CorruptionPatchesConvert(next, patches[1..]);
      assert forall p :: p in patches[1..] ==> p in patches;
      if patches[0].id == actor.id {
        assert !IsNumeric(next.system.corruption);
        StructuredStaysStructured(next, patches[1..]);
      }
    }
  }

  lemma {:induction false} StructuredStaysStructured(actor: Actor, patches: seq<ActorPatch>)
    requires forall p :: p in patches ==> p.change.SetCorruption?
    requires !IsNumeric(actor.system.corruption)
    ensures !IsNumeric(ApplyActorPatchesTo(actor, patches).system.corruption)
    decreases |patches|
  {
    if patches != [] {
      assert forall p :: p in patches[1..] ==> p in patches;
      StructuredStaysStructured(ApplyActorPatch(actor, patches[0]), patches[1..]);
    }
  }

  lemma {:induction false} CorruptionPatchesSpec(actors: seq<Actor>)
    ensures forall p :: p in CorruptionPatches(actors) ==> p.change.SetCorruption?
    ensures forall i :: 0 <= i < |actors| && IsNumeric(actors[i].system.corruption) ==>
      exists p :: p in CorruptionPatches(actors) && p.id == actors[i].id
  {
    if actors != [] {
      var init := actors[..|actors| - 1];
      CorruptionPatchesSpec(init);
      assert forall i :: 0 <= i < |init| ==> init[i] == actors[i];
      var last := actors[|actors| - 1];
      if IsNumeric(last.system.corruption) {
        assert CorruptionPatch(last).value in CorruptionPatches(actors);
      }
    }
  }

  /**
   * The corruption conversion is idempotent: once the updates of a
   * population are applied, the population yields no corruption update.
   */
  lemma CorruptionConvertedOnce(actors: seq<Actor>)
    ensures CorruptionPatches(ApplyActorPatches(actors, CorruptionPatches(actors))) == []
  {
    var patches := CorruptionPatches(actors);
    var after := ApplyActorPatches(actors, patches);
    CorruptionPatchesSpec(actors);
    forall i | 0 <= i < |after| ensures !IsNumeric(after[i].system.corruption) {
      CorruptionPatchesConvert(actors[i], patches);
    }
    NoNumericNoPatches(after);
  }

  lemma {:induction false} NoNumericNoPatches(actors: seq<Actor>)
    requires forall i :: 0 <= i < |actors| ==> !IsNumeric(actors[i].system.corruption)
    ensures CorruptionPatches(actors) == []
  {
    if actors != [] {
      NoNumericNoPatches(actors[..|actors| - 1]);
    }
  }

  /* ---------------------------------------------------------------------- */
  /*  _getNewImgPath                                                        */
  /* ---------------------------------------------------------------------- */

  const LegacyIconFolder := "systems/demonlord/icons"
  const MysteryMan := "icons/svg/mystery-man.svg"

  /**
   * `CONFIG.DL.defaultItemIcons`: an icon per item type, and for `path`
   * items a table keyed by path type.
   */
  datatype DefaultIcons = DefaultIcons(byType: map<string, string>, path: map<string, string>)

  /** The rewrite of an icon under the system's legacy icon folder. */
  function MovedIconPath(img: string): string
  {
    ReplaceFirst(ReplaceFirst(img, "/demonlord/icons", "/demonlord/assets/icons"), ".png", ".webp")
  }

  /**
   * `CONFIG.DL.defaultItemIcons[item.type]`, or for a path item
   * `path[pathType] || path.novice`; `undefined` (None) when the table has
   * no entry. An absent path type is the key `"undefined"`.
   */
  function PathTypeKey(item: Item): string
  {
    match item.systemType case Some(t) => t case None => "undefined"
  }

  function DefaultIconFor(item: Item, icons: DefaultIcons): Option<string>
  {
    if item.kind == "path" then
      var pathType := PathTypeKey(item);
      if pathType in icons.path && icons.path[pathType] != "" then Some(icons.path[pathType])
      else if "novice" in icons.path then Some(icons.path["novice"])
      else None
    else if item.kind in icons.byType then Some(icons.byType[item.kind])
    else None
  }

  /**
   * `_getNewImgPath(img, migrateDefault, item)`: an icon under the legacy
   * folder is moved to the assets folder and turned into a `.webp`; the
   * placeholder icon is replaced by the item type's default when asked to
   * and an item is given; anything else yields `undefined` (None).
   */
  function GetNewImgPath(img: Option<string>, migrateDefault: bool, item: Option<Item>, icons: DefaultIcons): (r: Option<string>)
    ensures img.Some? && Contains(img.value, LegacyIconFolder) ==> r == Some(MovedIconPath(img.value))
    ensures !(img.Some? && Contains(img.value, LegacyIconFolder)) && migrateDefault && img == Some(MysteryMan) && item.Some?
      ==> r == DefaultIconFor(item.value, icons)
    ensures !(img.Some? && Contains(img.value, LegacyIconFolder)) && !(migrateDefault && img == Some(MysteryMan) && item.Some?)
      ==> r == None
  {
    if img.Some? && img.value != "" && Contains(img.value, LegacyIconFolder) then
      Some(MovedIconPath(img.value))
    else if migrateDefault && img == Some(MysteryMan) && item.Some? then
      DefaultIconFor(item.value, icons)
    else
      None
  }

  /** `if (newIcon)` at the call sites. */
  predicate IsNewIcon(r: Option<string>)
  {
    r.Some? && r.value != ""
  }

  /**
   * The moved path: the text before the first `/demonlord/icons` is kept,
   * that occurrence becomes `/demonlord/assets/icons`, and afterwards the
   * first `.png` becomes `.webp`; the rest is untouched.
   */
  lemma MovedIconPathSpec(img: string)
    requires Contains(img, LegacyIconFolder)
    ensures IndexOf(img, "/demonlord/icons").Some?
    ensures var i := IndexOf(img, "/demonlord/icons").value;
      var moved := img[..i] + "/demonlord/assets/icons" + img[i + 16..];
      MovedIconPath(img) == ReplaceFirst(moved, ".png", ".webp")
  {
    var k := IndexOf(img, LegacyIconFolder).value;
    assert OccursAt(img, "/demonlord/icons", k + 7) by {
      assert img[k + 7..k + 23] == LegacyIconFolder[7..];
    }
  }

  /** A path item with no usable path-type icon falls back to the novice icon. */
  lemma PathIconFallsBackToNovice(item: Item, icons: DefaultIcons)
    requires item.kind == "path" && "novice" in icons.path
    requires PathTypeKey(item) !in icons.path || icons.path[PathTypeKey(item)] == ""
    ensures GetNewImgPath(Some(MysteryMan), true, Some(item), icons) == Some(icons.path["novice"])
  {
    PlaceholderIsNotLegacy();
  }

  /** The placeholder icon does not live in the legacy icon folder. */
  lemma PlaceholderIsNotLegacy()
    ensures !Contains(MysteryMan, LegacyIconFolder)
  {
    assert |MysteryMan| == 25 && |LegacyIconFolder| == 23 && LegacyIconFolder[0] == 's';
    assert MysteryMan[0] == 'i' && MysteryMan[1] == 'c' && MysteryMan[2] == 'o';
    forall i: nat | i <= |MysteryMan| ensures !OccursAt(MysteryMan, LegacyIconFolder, i) {
      if i + |LegacyIconFolder| <= |MysteryMan| {
        assert i <= 2;
        assert MysteryMan[i] != 's';
        assert MysteryMan[i..i + |LegacyIconFolder|][0] == MysteryMan[i];
      }
    }
  }

  /* ---------------------------------------------------------------------- */
  /*  _resetActorData                                                       */
  /* ---------------------------------------------------------------------- */

  /**
   * The plain-object copy `actor.data.toObject()` of an actor's system data,
   * which the 2.0.0 migration edits in place before writing it back.
   */
  class ActorDataCopy {
    var strength: JsValue
    var agility: JsValue
    var intellect: JsValue
    var will: JsValue
    var perception: JsValue
    var healthMax: JsValue
    var healingRate: JsValue
    var defense: JsValue
    var speed: JsValue
    var power: JsValue
    var insanityMax: JsValue
    var corruption: JsValue
    var religionImage: Option<string>

    constructor (s: ActorSystem)
      ensures Snapshot() == s
    {
      strength, agility, intellect, will, perception := s.strength, s.agility, s.intellect, s.will, s.perception;
      healthMax, healingRate, defense, speed, power := s.healthMax, s.healingRate, s.defense, s.speed, s.power;
      insanityMax, corruption, religionImage := s.insanityMax, s.corruption, s.religionImage;
    }

    /** The data the copy holds, as a value. */
    function Snapshot(): ActorSystem
      reads this
    {
      ActorSystem(strength, agility, intellect, will, perception,
                  healthMax, healingRate, defense, speed, power, insanityMax,
                  corruption, religionImage)
    }
  }

  /** The data `_resetActorData` leaves behind. */
  function ResetStats(s: ActorSystem): ActorSystem
  {
    s.(strength := Num(10), agility := Num(10), intellect := Num(10), will := Num(10), perception := Num(10),
       healthMax := Num(0), healingRate := Num(0), defense := Num(0), speed := Num(10), power := Num(0),
       insanityMax := Num(0))
  }

  /**
   * `_resetActorData(actData)`: overwrites the five attribute values and six
   * characteristics in place with fixed values; nothing else changes.
   */
  method ResetActorData(actData: ActorDataCopy)
    modifies actData
    ensures actData.Snapshot() == ResetStats(old(actData.Snapshot()))
  {
    actData.strength := Num(10);
    actData.agility := Num(10);
    actData.intellect := Num(10);
    actData.will := Num(10);
    actData.perception := Num(10);
    actData.healthMax := Num(0);
    actData.healingRate := Num(0);
    actData.defense := Num(0);
    actData.speed := Num(10);
    actData.power := Num(0);
    actData.insanityMax := Num(0);
  }

  /**
   * The reset is a destructive overwrite: two actors end with the same data
   * exactly when they agree on what the reset does not touch (corruption
   * and religion image), whatever their attributes were before.
   */
  lemma ResetForgetsStats(s: ActorSystem, t: ActorSystem)
    ensures ResetStats(s) == ResetStats(t) <==> s.corruption == t.corruption && s.religionImage == t.religionImage
    ensures ResetStats(ResetStats(s)) == ResetStats(s)
  {
  }

  /* ---------------------------------------------------------------------- */
  /*  _nullToUndefined                                                      */
  /* ---------------------------------------------------------------------- */

  function Depth(recDepth: int): nat
  {
    if recDepth > 0 then recDepth else 0
  }

  /** What `_nullToUndefined` stores back for one property value. */
  function NullToUndefinedEntry(v: JsValue, recDepth: int): JsValue
    decreases Depth(recDepth), 0
  {
    if v == Null then Undefined
    else if recDepth > 0 && v.Obj? && |v.fields| > 0 then Obj(NullToUndefinedFields(v.fields, recDepth - 1))
    else v
  }

  /** The properties of an object after `_nullToUndefined(data, recDepth)`. */
  function NullToUndefinedFields(m: map<string, JsValue>, recDepth: int): (r: map<string, JsValue>)
    ensures r.Keys == m.Keys
    decreases Depth(recDepth), 1
  {
    map k | k in m :: NullToUndefinedEntry(m[k], recDepth)
  }

  /** No `null` in `m`, nor in its plain objects down to `recDepth` levels below. */
  ghost predicate NullFree(m: map<string, JsValue>, recDepth: int)
    decreases Depth(recDepth)
  {
    forall k :: k in m ==> (m[k] != Null
      && (recDepth > 0 && m[k].Obj? ==> NullFree(m[k].fields, recDepth - 1)))
  }

  /** A plain mutable object whose own properties the migration rewrites in place. */
  class PlainObject {
    var fields: map<string, JsValue>

    constructor (m: map<string, JsValue>)
      ensures fields == m
    {
      fields := m;
    }
  }

  /**
   * `_nullToUndefined(data, recDepth)`: every `null` property becomes
   * `undefined`, and non-empty plain objects are treated the same way while
   * `recDepth` is positive, one level less each time.
   */
  method NullToUndefined(data: PlainObject, recDepth: int)
    modifies data
    ensures data.fields == NullToUndefinedFields(old(data.fields), recDepth)
  {
    ghost var orig := data.fields;
    var keys := data.fields.Keys;
    while keys != {}
      invariant keys <= orig.Keys && data.fields.Keys == orig.Keys
      invariant forall k :: k in keys ==> data.fields[k] == orig[k]
      invariant forall k :: k in orig && k !in keys ==> data.fields[k] == NullToUndefinedEntry(orig[k], recDepth)
      decreases keys
    {
      var k :| k in keys;
      var v := data.fields[k];
      if v == Null {
        data.fields := data.fields[k := Undefined];
      } else if recDepth > 0 && v.Obj? && |v.fields| > 0 {
        data.fields := data.fields[k := Obj(NullToUndefinedFields(v.fields, recDepth - 1))];
      }
      keys := keys - {k};
    }
  }

  /** After the conversion no `null` is left within the depth it reaches. */
  lemma {:induction false} NullToUndefinedRemovesNulls(m: map<string, JsValue>, recDepth: int)
    ensures NullFree(NullToUndefinedFields(m, recDepth), recDepth)
    decreases Depth(recDepth)
  {
    var r := NullToUndefinedFields(m, recDepth);
    forall k | k in r
      ensures r[k] != Null && (recDepth > 0 && r[k].Obj? ==> NullFree(r[k].fields, recDepth - 1))
    {
      var v := m[k];
      assert r[k] == NullToUndefinedEntry(v, recDepth);
      if recDepth > 0 && v.Obj? && |v.fields| > 0 {
        NullToUndefinedRemovesNulls(v.fields, recDepth - 1);
      } else if recDepth > 0 && v.Obj? {
        assert v.fields == map[];
      }
    }
  }

  /**
   * Only `null`s change: every other value keeps its place, primitives and
   * arrays (whose `toString` tag is not `[object Object]`) are not entered,
   * and the set of properties stays the same.
   */
  lemma NullToUndefinedKeepsOthers(m: map<string, JsValue>, recDepth: int, k: string)
    requires k in m
    ensures var r := NullToUndefinedFields(m, recDepth);
      && (m[k] == Null ==> r[k] == Undefined)
      && (m[k] != Null && !m[k].Obj? ==> r[k] == m[k])
      && (recDepth <= 0 ==> (m[k] != Null ==> r[k] == m[k]))
  {
  }

  /** Running the conversion twice changes nothing more. */
  lemma {:induction false} NullToUndefinedIdempotent(m: map<string, JsValue>, recDepth: int)
    ensures NullToUndefinedFields(NullToUndefinedFields(m, recDepth), recDepth) == NullToUndefinedFields(m, recDepth)
    decreases Depth(recDepth)
  {
    var r := NullToUndefinedFields(m, recDepth);
    forall k | k in r ensures NullToUndefinedEntry(r[k], recDepth) == r[k] {
      var v := m[k];
      if recDepth > 0 && v.Obj? && |v.fields| > 0 {
        NullToUndefinedIdempotent(v.fields, recDepth - 1);
        assert |NullToUndefinedFields(v.fields, recDepth - 1).Keys| == |v.fields.Keys|;
      }
    }
  }

  /* ---------------------------------------------------------------------- */
  /*  migrateItemData                                                       */
  /* ---------------------------------------------------------------------- */

  /**
   * `migrateItemData`: the item-type check has an empty branch, so the
   * update object stays `{}` for every item.
   */
  function MigrateItemData(item: Item): (r: map<string, JsValue>)
    ensures |r| == 0
  {
    var updateData: map<string, JsValue> := map[];
    if |updateData| != 0 then updateData["id" := Str(item.id)] else updateData
  }
}
