/**
 * The status-effect hooks of the system's entry script. Creating or deleting
 * an Active Effect on a token sets or clears the matching flags of its actor
 * (`createActiveEffect`, `deleteActiveEffect`); creating a token or updating
 * an actor brings the tokens on the active scene back in line with those
 * flags through `toggleEffect` (`createToken`, `updateActor`), and an actor
 * update also resets the initiative of the actor's combatants.
 */
module StatusHooks {
  import opened JsValues
  import opened Strings

  /* ---------------------------------------------------------------------- */
  /*  Actor flags and the updates the effect hooks issue                    */
  /* ---------------------------------------------------------------------- */

  /** An actor flag the hooks write, as a path below the actor's `data`. */
  datatype FieldPath =
    | HealthInjured           // data.characteristics.health.injured
    | Affliction(name: string) // data.afflictions.<name>
    | Action(name: string)     // data.actions.<name>

  /** One `'data.<path>': <bool>` entry of an update object. */
  datatype FieldWrite = FieldWrite(path: FieldPath, value: bool)

  /** The part of an actor's `data` the hooks read and write. */
  datatype ActorData = ActorData(
    injured: JsValue,
    afflictions: map<string, JsValue>,
    actions: map<string, JsValue>,
    fastturn: JsValue)

  /** The afflictions, in the order the token hooks visit them. */
  const AfflictionNames: seq<string> := [
    "asleep", "blinded", "charmed", "compelled", "dazed", "deafened", "defenseless",
    "diseased", "fatigued", "frightened", "horrified", "grabbed", "immobilized",
    "impaired", "poisoned", "prone", "slowed", "stunned", "surprised", "unconscious"]

  /** The actions, in the order the token hooks visit them. */
  const ActionNames: seq<string> := [
    "concentrate", "defend", "help", "prepare", "reload", "retreat", "rush", "stabilize"]

  /** The labels both effect hooks act on; any other label writes nothing. */
  const EffectLabels: seq<string> := [
    "Injured", "Asleep", "Blinded", "Charmed", "Compelled", "Dazed", "Deafened",
    "Defenseless", "Diseased", "Fatigued", "Frightened", "Horrified", "Grabbed",
    "Immobilized", "Impaired", "Poisoned", "Prone", "Slowed", "Stunned", "Surprised",
    "Unconscious", "Concentrate", "Defend", "Help", "Prepare", "Reload", "Retreat",
    "Rush", "Stabilize"]

  /** The update `createActiveEffect` issues for an effect labelled `label`. */
  function CreatedEffectUpdate(effectLabel: string): seq<FieldWrite>
  {
    match effectLabel
    case "Injured" => [FieldWrite(HealthInjured, true)]
    case "Asleep" => [FieldWrite(Affliction("asleep"), true), FieldWrite(Affliction("prone"), true),
                      FieldWrite(Affliction("unconscious"), true)]
    case "Blinded" => [FieldWrite(Affliction("blinded"), true)]
    case "Charmed" => [FieldWrite(Affliction("charmed"), true)]
    case "Compelled" => [FieldWrite(Affliction("compelled"), true)]
    case "Dazed" => [FieldWrite(Affliction("dazed"), true)]
    case "Deafened" => [FieldWrite(Affliction("deafened"), true)]
    case "Defenseless" => [FieldWrite(Affliction("defenseless"), true)]
    case "Diseased" => [FieldWrite(Affliction("diseased"), true)]
    case "Fatigued" => [FieldWrite(Affliction("fatigued"), true)]
    case "Frightened" => [FieldWrite(Affliction("frightened"), true)]
    case "Horrified" => [FieldWrite(Affliction("horrified"), true)]
    case "Grabbed" => [FieldWrite(Affliction("grabbed"), true)]
    case "Immobilized" => [FieldWrite(Affliction("immobilized"), true)]
    case "Impaired" => [FieldWrite(Affliction("impaired"), true)]
    case "Poisoned" => [FieldWrite(Affliction("poisoned"), true)]
    case "Prone" => [FieldWrite(Affliction("prone"), true)]
    case "Slowed" => [FieldWrite(Affliction("slowed"), true)]
    case "Stunned" => [FieldWrite(Affliction("stunned"), true)]
    case "Surprised" => [FieldWrite(Affliction("surprised"), true)]
    case "Unconscious" => [FieldWrite(Affliction("unconscious"), true)]
    case "Concentrate" => [FieldWrite(Action("concentrate"), true)]
    case "Defend" => [FieldWrite(Action("defend"), true)]
    case "Help" => [FieldWrite(Action("help"), true)]
    case "Prepare" => [FieldWrite(Action("prepare"), true)]
    case "Reload" => [FieldWrite(Action("reload"), true)]
    case "Retreat" => [FieldWrite(Action("retreat"), true)]
    case "Rush" => [FieldWrite(Action("rush"), true)]
    case "Stabilize" => [FieldWrite(Action("stabilize"), true)]
    case _ => []
  }

  /** The update `deleteActiveEffect` issues for an effect labelled `label`. */
  function DeletedEffectUpdate(effectLabel: string): seq<FieldWrite>
  {
    match effectLabel
    case "Injured" => [FieldWrite(HealthInjured, false)]
    case "Asleep" => [FieldWrite(Affliction("asleep"), false), FieldWrite(Affliction("prone"), false),
                      FieldWrite(Affliction("unconscious"), false)]
    case "Blinded" => [FieldWrite(Affliction("blinded"), false)]
    case "Charmed" => [FieldWrite(Affliction("charmed"), false)]
    case "Compelled" => [FieldWrite(Affliction("compelled"), false)]
    case "Dazed" => [FieldWrite(Affliction("dazed"), false)]
    case "Deafened" => [FieldWrite(Affliction("deafened"), false)]
    case "Defenseless" => [FieldWrite(Affliction("defenseless"), false)]
    case "Diseased" => [FieldWrite(Affliction("diseased"), false)]
    case "Fatigued" => [FieldWrite(Affliction("fatigued"), false)]
    case "Frightened" => [FieldWrite(Affliction("frightened"), false)]
    case "Horrified" => [FieldWrite(Affliction("horrified"), false)]
    case "Grabbed" => [FieldWrite(Affliction("grabbed"), false)]
    case "Immobilized" => [FieldWrite(Affliction("immobilized"), false)]
    case "Impaired" => [FieldWrite(Affliction("impaired"), false)]
    case "Poisoned" => [FieldWrite(Affliction("poisoned"), false)]
    case "Prone" => [FieldWrite(Affliction("prone"), false)]
    case "Slowed" => [FieldWrite(Affliction("slowed"), false)]
    case "Stunned" => [FieldWrite(Affliction("stunned"), false)]
    case "Surprised" => [FieldWrite(Affliction("surprised"), false)]
    case "Unconscious" => [FieldWrite(Affliction("unconscious"), false)]
    case "Concentrate" => [FieldWrite(Action("concentrate"), false)]
    case "Defend" => [FieldWrite(Action("defend"), false)]
    case "Help" => [FieldWrite(Action("help"), false)]
    case "Prepare" => [FieldWrite(Action("prepare"), false)]
    case "Reload" => [FieldWrite(Action("reload"), false)]
    case "Retreat" => [FieldWrite(Action("retreat"), false)]
    case "Rush" => [FieldWrite(Action("rush"), false)]
    case "Stabilize" => [FieldWrite(Action("stabilize"), false)]
    case _ => []
  }

  /** The current value of a flag; an absent affliction or action reads as `undefined`. */
  function FlagAt(d: ActorData, p: FieldPath): JsValue
  {
    match p
    case HealthInjured => d.injured
    case Affliction(n) => Field(d.afflictions, n)
    case Action(n) => Field(d.actions, n)
  }

  function ApplyWrite(d: ActorData, w: FieldWrite): (r: ActorData)
    ensures forall p :: FlagAt(r, p) == if p == w.path then Bool(w.value) else FlagAt(d, p)
    ensures r.fastturn == d.fastturn
  {
    match w.path
    case HealthInjured => d.(injured := Bool(w.value))
    case Affliction(n) => d.(afflictions := d.afflictions[n := Bool(w.value)])
    case Action(n) => d.(actions := d.actions[n := Bool(w.value)])
  }

  /** An update object's entries applied in order. */
  function ApplyWrites(d: ActorData, writes: seq<FieldWrite>): ActorData
    decreases |writes|
  {
    if writes == [] then d else ApplyWrites(ApplyWrite(d, writes[0]), writes[1..])
  }

  predicate Writes(writes: seq<FieldWrite>, p: FieldPath)
  {
    exists k :: 0 <= k < |writes| && writes[k].path == p
  }

  /**
   * An update whose entries all carry the same value sets exactly the flags
   * it names to that value and leaves every other flag as it was.
   */
  lemma {:induction false} ApplyUniformWrites(d: ActorData, writes: seq<FieldWrite>, b: bool)
    requires forall k :: 0 <= k < |writes| ==> writes[k].value == b
    ensures forall p :: FlagAt(ApplyWrites(d, writes), p) == if Writes(writes, p) then Bool(b) else FlagAt(d, p)
    ensures ApplyWrites(d, writes).fastturn == d.fastturn
    decreases |writes|
  {
    if writes != [] {
      var d1 := ApplyWrite(d, writes[0]);
      ApplyUniformWrites(d1, writes[1..], b);
      forall p
        ensures FlagAt(ApplyWrites(d, writes), p) == if Writes(writes, p) then Bool(b) else FlagAt(d, p)
      {
        if Writes(writes[1..], p) {
          var k :| 0 <= k < |writes[1..]| && writes[1..][k].path == p;
          assert writes[k + 1].path == p;
        }
      }
    }
  }

  /** The entries of an update with every value cleared. */
  function Cleared(writes: seq<FieldWrite>): (r: seq<FieldWrite>)
    ensures |r| == |writes|
    ensures forall k :: 0 <= k < |writes| ==> r[k] == FieldWrite(writes[k].path, false)
  {
    seq(|writes|, k requires 0 <= k < |writes| => FieldWrite(writes[k].path, false))
  }

  /** Clearing a one-entry update. */
  lemma ClearedSingle(p: FieldPath)
    ensures Cleared([FieldWrite(p, true)]) == [FieldWrite(p, false)]
  {
  }

  /** Deleting an effect clears exactly the flags creating it set. */
  lemma DeleteMirrorsCreate(effectLabel: string)
    ensures DeletedEffectUpdate(effectLabel) == Cleared(CreatedEffectUpdate(effectLabel))
  {
  }

  /** Every entry of a creation update sets its flag. */
  lemma CreateOnlySets(effectLabel: string)
    ensures forall k :: 0 <= k < |CreatedEffectUpdate(effectLabel)| ==> CreatedEffectUpdate(effectLabel)[k].value
  {
  }

  /** Only the known labels lead to an update, and each of those to a non-empty one. */
  lemma KnownLabelsOnly(effectLabel: string)
    ensures |CreatedEffectUpdate(effectLabel)| > 0 <==> effectLabel in EffectLabels
    ensures |DeletedEffectUpdate(effectLabel)| > 0 <==> effectLabel in EffectLabels
  {
    DeleteMirrorsCreate(effectLabel);
  }

  /** No label but Asleep writes more than one flag. */
  lemma AtMostOneFlag(effectLabel: string)
    ensures effectLabel != "Asleep" ==> |CreatedEffectUpdate(effectLabel)| <= 1
    ensures effectLabel == "Asleep" ==> |CreatedEffectUpdate(effectLabel)| == 3
  {
  }

  /** Every known label except Asleep writes exactly one flag. */
  lemma SingleFlagLabels(effectLabel: string)
    ensures effectLabel in EffectLabels && effectLabel != "Asleep" ==> |CreatedEffectUpdate(effectLabel)| == 1
  {
    AtMostOneFlag(effectLabel);
    KnownLabelsOnly(effectLabel);
  }

  /* ---------------------------------------------------------------------- */
  /*  Which field each label writes                                         */
  /* ---------------------------------------------------------------------- */

  /** The Injured label writes the health flag. */
  lemma InjuredWritesHealth()
    ensures CreatedEffectUpdate("Injured") == [FieldWrite(HealthInjured, true)]
    ensures DeletedEffectUpdate("Injured") == [FieldWrite(HealthInjured, false)]
  {
  }

  /** The Asleep label is the capitalised affliction name and writes three afflictions. */
  lemma AsleepLabel()
    ensures Capitalize("asleep") == "Asleep"
    ensures CreatedEffectUpdate("Asleep")
         == [FieldWrite(Affliction("asleep"), true), FieldWrite(Affliction("prone"), true), FieldWrite(Affliction("unconscious"), true)]
  {
  }

  lemma LabelBlinded()
    ensures Capitalize("blinded") == "Blinded" && CreatedEffectUpdate("Blinded") == [FieldWrite(Affliction("blinded"), true)]
  {
  }

  lemma LabelCharmed()
    ensures Capitalize("charmed") == "Charmed" && CreatedEffectUpdate("Charmed") == [FieldWrite(Affliction("charmed"), true)]
  {
  }

  lemma LabelCompelled()
    ensures Capitalize("compelled") == "Compelled" && CreatedEffectUpdate("Compelled") == [FieldWrite(Affliction("compelled"), true)]
  {
  }

  lemma LabelDazed()
    ensures Capitalize("dazed") == "Dazed" && CreatedEffectUpdate("Dazed") == [FieldWrite(Affliction("dazed"), true)]
  {
  }

  lemma LabelDeafened()
    ensures Capitalize("deafened") == "Deafened" && CreatedEffectUpdate("Deafened") == [FieldWrite(Affliction("deafened"), true)]
  {
  }

  lemma LabelDefenseless()
    ensures Capitalize("defenseless") == "Defenseless" && CreatedEffectUpdate("Defenseless") == [FieldWrite(Affliction("defenseless"), true)]
  {
  }

  lemma LabelDiseased()
    ensures Capitalize("diseased") == "Diseased" && CreatedEffectUpdate("Diseased") == [FieldWrite(Affliction("diseased"), true)]
  {
  }

  lemma LabelFatigued()
    ensures Capitalize("fatigued") == "Fatigued" && CreatedEffectUpdate("Fatigued") == [FieldWrite(Affliction("fatigued"), true)]
  {
  }

  lemma LabelFrightened()
    ensures Capitalize("frightened") == "Frightened" && CreatedEffectUpdate("Frightened") == [FieldWrite(Affliction("frightened"), true)]
  {
  }

  lemma LabelHorrified()
    ensures Capitalize("horrified") == "Horrified" && CreatedEffectUpdate("Horrified") == [FieldWrite(Affliction("horrified"), true)]
  {
  }

  lemma LabelGrabbed()
    ensures Capitalize("grabbed") == "Grabbed" && CreatedEffectUpdate("Grabbed") == [FieldWrite(Affliction("grabbed"), true)]
  {
  }

  lemma LabelImmobilized()
    ensures Capitalize("immobilized") == "Immobilized" && CreatedEffectUpdate("Immobilized") == [FieldWrite(Affliction("immobilized"), true)]
  {
  }

  lemma LabelImpaired()
    ensures Capitalize("impaired") == "Impaired" && CreatedEffectUpdate("Impaired") == [FieldWrite(Affliction("impaired"), true)]
  {
  }

  lemma LabelPoisoned()
    ensures Capitalize("poisoned") == "Poisoned" && CreatedEffectUpdate("Poisoned") == [FieldWrite(Affliction("poisoned"), true)]
  {
  }

  lemma LabelProne()
    ensures Capitalize("prone") == "Prone" && CreatedEffectUpdate("Prone") == [FieldWrite(Affliction("prone"), true)]
  {
  }

  lemma LabelSlowed()
    ensures Capitalize("slowed") == "Slowed" && CreatedEffectUpdate("Slowed") == [FieldWrite(Affliction("slowed"), true)]
  {
  }

  lemma LabelStunned()
    ensures Capitalize("stunned") == "Stunned" && CreatedEffectUpdate("Stunned") == [FieldWrite(Affliction("stunned"), true)]
  {
  }

  lemma LabelSurprised()
    ensures Capitalize("surprised") == "Surprised" && CreatedEffectUpdate("Surprised") == [FieldWrite(Affliction("surprised"), true)]
  {
  }

  lemma LabelUnconscious()
    ensures Capitalize("unconscious") == "Unconscious" && CreatedEffectUpdate("Unconscious") == [FieldWrite(Affliction("unconscious"), true)]
  {
  }

  lemma LabelConcentrate()
    ensures Capitalize("concentrate") == "Concentrate" && CreatedEffectUpdate("Concentrate") == [FieldWrite(Action("concentrate"), true)]
  {
  }

  lemma LabelDefend()
    ensures Capitalize("defend") == "Defend" && CreatedEffectUpdate("Defend") == [FieldWrite(Action("defend"), true)]
  {
  }

  lemma LabelHelp()
    ensures Capitalize("help") == "Help" && CreatedEffectUpdate("Help") == [FieldWrite(Action("help"), true)]
  {
  }

  lemma LabelPrepare()
    ensures Capitalize("prepare") == "Prepare" && CreatedEffectUpdate("Prepare") == [FieldWrite(Action("prepare"), true)]
  {
  }

  lemma LabelReload()
    ensures Capitalize("reload") == "Reload" && CreatedEffectUpdate("Reload") == [FieldWrite(Action("reload"), true)]
  {
  }

  lemma LabelRetreat()
    ensures Capitalize("retreat") == "Retreat" && CreatedEffectUpdate("Retreat") == [FieldWrite(Action("retreat"), true)]
  {
  }

  lemma LabelRush()
    ensures Capitalize("rush") == "Rush" && CreatedEffectUpdate("Rush") == [FieldWrite(Action("rush"), true)]
  {
  }

  lemma LabelStabilize()
    ensures Capitalize("stabilize") == "Stabilize" && CreatedEffectUpdate("Stabilize") == [FieldWrite(Action("stabilize"), true)]
  {
  }

  /**
   * Every affliction but asleep has an effect labelled with its capitalised
   * name, and that effect writes exactly the affliction's own flag.
   */
  lemma AfflictionLabelsWriteTheirField(n: string)
    requires n in AfflictionNames && n != "asleep"
    ensures CreatedEffectUpdate(Capitalize(n)) == [FieldWrite(Affliction(n), true)]
    ensures DeletedEffectUpdate(Capitalize(n)) == [FieldWrite(Affliction(n), false)]
  {
    AfflictionLabelsCreateTheirField(n);
    DeleteMirrorsCreate(Capitalize(n));
    ClearedSingle(Affliction(n));
  }

  lemma AfflictionLabelsCreateTheirField(n: string)
    requires n in AfflictionNames && n != "asleep"
    ensures CreatedEffectUpdate(Capitalize(n)) == [FieldWrite(Affliction(n), true)]
  {
    assert AfflictionNames == ["asleep"] + EarlyAfflictions + LateAfflictions;
    if n in EarlyAfflictions {
      EarlyAfflictionLabels(n);
    } else {
      LateAfflictionLabels(n);
    }
  }

  /** `AfflictionNames` after asleep, in two halves. */
  const EarlyAfflictions: seq<string> := ["blinded", "charmed", "compelled", "dazed", "deafened", "defenseless", "diseased", "fatigued", "frightened"]
  const LateAfflictions: seq<string> := ["horrified", "grabbed", "immobilized", "impaired", "poisoned", "prone", "slowed", "stunned", "surprised", "unconscious"]

  lemma EarlyAfflictionLabels(n: string)
    requires n in EarlyAfflictions
    ensures CreatedEffectUpdate(Capitalize(n)) == [FieldWrite(Affliction(n), true)]
  {
    if n == "blinded" {
      LabelBlinded();
    } else if n == "charmed" {
      LabelCharmed();
    } else if n == "compelled" {
      LabelCompelled();
    } else if n == "dazed" {
      LabelDazed();
    } else if n == "deafened" {
      LabelDeafened();
    } else if n == "defenseless" {
      LabelDefenseless();
    } else if n == "diseased" {
      LabelDiseased();
    } else if n == "fatigued" {
      LabelFatigued();
    } else {
      LabelFrightened();
    }
  }

  lemma LateAfflictionLabels(n: string)
    requires n in LateAfflictions
    ensures CreatedEffectUpdate(Capitalize(n)) == [FieldWrite(Affliction(n), true)]
  {
    if n == "horrified" {
      LabelHorrified();
    } else if n == "grabbed" {
      LabelGrabbed();
    } else if n == "immobilized" {
      LabelImmobilized();
    } else if n == "impaired" {
      LabelImpaired();
    } else if n == "poisoned" {
      LabelPoisoned();
    } else if n == "prone" {
      LabelProne();
    } else if n == "slowed" {
      LabelSlowed();
    } else if n == "stunned" {
      LabelStunned();
    } else if n == "surprised" {
      LabelSurprised();
    } else {
      LabelUnconscious();
    }
  }

  /**
   * Every action has an effect labelled with its capitalised name, and that
   * effect writes exactly the action's own flag.
   */
  lemma ActionLabelsWriteTheirField(n: string)
    requires n in ActionNames
    ensures CreatedEffectUpdate(Capitalize(n)) == [FieldWrite(Action(n), true)]
    ensures DeletedEffectUpdate(Capitalize(n)) == [FieldWrite(Action(n), false)]
  {
    ActionLabelsCreateTheirField(n);
    DeleteMirrorsCreate(Capitalize(n));
    ClearedSingle(Action(n));
  }

  lemma ActionLabelsCreateTheirField(n: string)
    requires n in ActionNames
    ensures CreatedEffectUpdate(Capitalize(n)) == [FieldWrite(Action(n), true)]
  {
    if n == "concentrate" {
      LabelConcentrate();
    } else if n == "defend" {
      LabelDefend();
    } else if n == "help" {
      LabelHelp();
    } else if n == "prepare" {
      LabelPrepare();
    } else if n == "reload" {
      LabelReload();
    } else if n == "retreat" {
      LabelRetreat();
    } else if n == "rush" {
      LabelRush();
    } else {
      LabelStabilize();
    }
  }

  /**
   * Creating an effect sets every flag its label names to true and leaves
   * every other flag, and `fastturn`, as it was; an unknown label changes
   * nothing.
   */
  lemma CreateSetsExactlyItsFlags(d: ActorData, effectLabel: string)
    ensures var after := ApplyWrites(d, CreatedEffectUpdate(effectLabel));
      && (forall p :: FlagAt(after, p) == if Writes(CreatedEffectUpdate(effectLabel), p) then Bool(true) else FlagAt(d, p))
      && after.fastturn == d.fastturn
      && (effectLabel !in EffectLabels ==> after == d)
  {
    CreateOnlySets(effectLabel);
    ApplyUniformWrites(d, CreatedEffectUpdate(effectLabel), true);
    KnownLabelsOnly(effectLabel);
  }

  /** An Asleep effect makes the actor asleep, prone and unconscious at once; removing it lifts all three. */
  lemma AsleepSetsThreeAfflictions(d: ActorData)
    ensures var a := ApplyWrites(d, CreatedEffectUpdate("Asleep"));
      && Field(a.afflictions, "asleep") == Bool(true)
      && Field(a.afflictions, "prone") == Bool(true)
      && Field(a.afflictions, "unconscious") == Bool(true)
    ensures var c := ApplyWrites(d, DeletedEffectUpdate("Asleep"));
      && Field(c.afflictions, "asleep") == Bool(false)
      && Field(c.afflictions, "prone") == Bool(false)
      && Field(c.afflictions, "unconscious") == Bool(false)
  {
    var u := CreatedEffectUpdate("Asleep");
    ApplyUniformWrites(d, u, true);
    assert u[0].path == Affliction("asleep") && u[1].path == Affliction("prone") && u[2].path == Affliction("unconscious");
    assert FlagAt(ApplyWrites(d, u), Affliction("prone")) == Bool(true);
    var v := DeletedEffectUpdate("Asleep");
    ApplyUniformWrites(d, v, false);
    assert v[0].path == Affliction("asleep") && v[1].path == Affliction("prone") && v[2].path == Affliction("unconscious");
    assert FlagAt(ApplyWrites(d, v), Affliction("prone")) == Bool(false);
  }

  /** A flag the token hooks pass to `toggleEffect`. */
  predicate Followed(p: FieldPath)
  {
    p.HealthInjured? || (p.Affliction? && p.name in AfflictionNames) || (p.Action? && p.name in ActionNames)
  }

  /** Every flag an effect hook writes is one the token hooks follow. */
  lemma EffectFlagsAreFollowed(effectLabel: string)
    ensures forall k :: 0 <= k < |CreatedEffectUpdate(effectLabel)| ==> Followed(CreatedEffectUpdate(effectLabel)[k].path)
  {
  }

  /**
   * Creating an effect and then deleting it leaves every flag the effect
   * names false (not as it was before), and every other flag untouched.
   */
  lemma CreateThenDelete(d: ActorData, effectLabel: string)
    ensures var after := ApplyWrites(ApplyWrites(d, CreatedEffectUpdate(effectLabel)), DeletedEffectUpdate(effectLabel));
      forall p :: FlagAt(after, p) == if Writes(CreatedEffectUpdate(effectLabel), p) then Bool(false) else FlagAt(d, p)
  {
    var u := CreatedEffectUpdate(effectLabel);
    var v := DeletedEffectUpdate(effectLabel);
    DeleteMirrorsCreate(effectLabel);
    CreateOnlySets(effectLabel);
    ApplyUniformWrites(d, u, true);
    ApplyUniformWrites(ApplyWrites(d, u), v, false);
    forall p ensures Writes(v, p) <==> Writes(u, p) {
      if Writes(u, p) {
        var k :| 0 <= k < |u| && u[k].path == p;
        assert v[k].path == p;
      }
      if Writes(v, p) {
        var k :| 0 <= k < |v| && v[k].path == p;
        assert u[k].path == p;
      }
    }
  }

  /** An actor document, as far as the hooks read and update it. */
  class ActorDocument {
    const id: string
    const actorType: string
    var data: ActorData

    constructor (id: string, actorType: string, data: ActorData)
      ensures this.id == id && this.actorType == actorType && this.data == data
    {
      this.id := id;
      this.actorType := actorType;
      this.data := data;
    }

    /** `actor.update({...})` with an update object of boolean flags. */
    method Update(writes: seq<FieldWrite>)
      modifies this
      ensures data == ApplyWrites(old(data), writes)
    {
      data := ApplyWrites(data, writes);
    }
  }

  /** `Hooks.on('createActiveEffect')`: `label` is the effect's label, `None` when there is no effect. */
  method OnCreateActiveEffect(parent: ActorDocument, effectLabel: Option<string>)
    modifies parent
    ensures effectLabel.None? ==> parent.data == old(parent.data)
    ensures effectLabel.Some? ==> parent.data == ApplyWrites(old(parent.data), CreatedEffectUpdate(effectLabel.value))
  {
    if effectLabel.Some? {
      var update := CreatedEffectUpdate(effectLabel.value);
      if update != [] {
        parent.Update(update);
      }
    }
  }

  /** `Hooks.on('deleteActiveEffect')` */
  method OnDeleteActiveEffect(parent: ActorDocument, effectLabel: Option<string>)
    modifies parent
    ensures effectLabel.None? ==> parent.data == old(parent.data)
    ensures effectLabel.Some? ==> parent.data == ApplyWrites(old(parent.data), DeletedEffectUpdate(effectLabel.value))
  {
    if effectLabel.Some? {
      var update := DeletedEffectUpdate(effectLabel.value);
      if update != [] {
        parent.Update(update);
      }
    }
  }

  /* ---------------------------------------------------------------------- */
  /*  toggleEffect and the token hooks                                      */
  /* ---------------------------------------------------------------------- */

  /** An entry of `CONFIG.statusEffects`. */
  datatype StatusEffect = StatusEffect(id: string, title: string, icon: string)

  /** `CONFIG.statusEffects.find((e) => e.icon === tokenIcon)`; an `undefined` icon matches no entry. */
  function FindByIcon(effects: seq<StatusEffect>, icon: Option<string>): (r: Option<StatusEffect>)
    ensures r.Some? <==> exists i :: 0 <= i < |effects| && Some(effects[i].icon) == icon
    ensures r.Some? ==> Some(r.value.icon) == icon && r.value in effects
  {
    if effects == [] then None
    else if Some(effects[0].icon) == icon then Some(effects[0])
    else
      var r := FindByIcon(effects[1..], icon);
      assert forall i :: 1 <= i < |effects| ==> effects[i] == effects[1..][i - 1];
      r
  }

  /** A token on a scene; `effectIcons` are the icons of its actor's active effects. */
  class Token {
    const sceneId: string
    var effectIcons: set<string>

    constructor (sceneId: string, effectIcons: set<string>)
      ensures this.sceneId == sceneId && this.effectIcons == effectIcons
    {
      this.sceneId := sceneId;
      this.effectIcons := effectIcons;
    }

    /** The host's `token.toggleEffect(effect)`: the effect is removed when present and added otherwise. */
    method ToggleStatus(effect: StatusEffect)
      modifies this
      ensures effectIcons == if effect.icon in old(effectIcons) then old(effectIcons) - {effect.icon}
                             else old(effectIcons) + {effect.icon}
    {
      if effect.icon in effectIcons {
        effectIcons := effectIcons - {effect.icon};
      } else {
        effectIcons := effectIcons + {effect.icon};
      }
    }
  }

  /** `toggleEffect` acts when the flag and the presence of the icon disagree. */
  predicate MustToggle(affliction: JsValue, found: bool)
  {
    (Truthy(affliction) && !found) || (!Truthy(affliction) && found)
  }

  /** The effect icons after `toggleEffect(token, affliction, tokenIcon)`. */
  function Toggled(icons: set<string>, affliction: JsValue, tokenIcon: Option<string>, statusEffects: seq<StatusEffect>): set<string>
  {
    var found := tokenIcon.Some? && tokenIcon.value in icons;
    var effect := FindByIcon(statusEffects, tokenIcon);
    if MustToggle(affliction, found) && effect.Some? then
      (if effect.value.icon in icons then icons - {effect.value.icon} else icons + {effect.value.icon})
    else icons
  }

  /** `toggleEffect(token, affliction, tokenIcon)` */
  method ToggleEffect(token: Token, affliction: JsValue, tokenIcon: Option<string>, statusEffects: seq<StatusEffect>)
    modifies token
    ensures token.effectIcons == Toggled(old(token.effectIcons), affliction, tokenIcon, statusEffects)
  {
    var actorEffectFound := tokenIcon.Some? && tokenIcon.value in token.effectIcons;
    if (Truthy(affliction) && !actorEffectFound) || (!Truthy(affliction) && actorEffectFound) {
      var effect := FindByIcon(statusEffects, tokenIcon);
      if effect.Some? {
        token.ToggleStatus(effect.value);
      }
    }
  }

  /** An icon that names a registered status effect. */
  predicate Registered(statusEffects: seq<StatusEffect>, icon: Option<string>)
  {
    FindByIcon(statusEffects, icon).Some?
  }

  /**
   * After `toggleEffect` a registered icon is shown exactly when the flag is
   * truthy, and no other icon changes; an unregistered icon changes nothing.
   */
  lemma ToggleSyncsOneIcon(icons: set<string>, affliction: JsValue, tokenIcon: Option<string>, statusEffects: seq<StatusEffect>)
    ensures var r := Toggled(icons, affliction, tokenIcon, statusEffects);
      && (Registered(statusEffects, tokenIcon) ==> (tokenIcon.value in r <==> Truthy(affliction)))
      && (!Registered(statusEffects, tokenIcon) ==> r == icons)
      && (forall x :: Some(x) != tokenIcon ==> (x in r <==> x in icons))
  {
  }

  /** `toggleEffect` a second time with the same flag does nothing. */
  lemma ToggleIdempotent(icons: set<string>, affliction: JsValue, tokenIcon: Option<string>, statusEffects: seq<StatusEffect>)
    ensures var r := Toggled(icons, affliction, tokenIcon, statusEffects);
      Toggled(r, affliction, tokenIcon, statusEffects) == r
  {
  }

  /** A flag the token hooks follow, and the icon `CONFIG.DL.statusIcons` gives it. */
  datatype Tracked = Tracked(flag: JsValue, icon: Option<string>)

  /** `CONFIG.DL.statusIcons.<key>`; a missing key reads as `undefined`. */
  function IconOf(statusIcons: map<string, string>, key: string): Option<string>
  {
    if key in statusIcons then Some(statusIcons[key]) else None
  }

  /** The 29 `toggleEffect` calls of the token hooks: the health flag, the afflictions, then the actions. */
  function TrackedFlags(d: ActorData, statusIcons: map<string, string>): (r: seq<Tracked>)
    ensures |r| == 1 + |AfflictionNames| + |ActionNames|
    ensures r[0] == Tracked(d.injured, IconOf(statusIcons, "injured"))
    ensures forall k :: 0 <= k < |AfflictionNames| ==>
      r[1 + k] == Tracked(Field(d.afflictions, AfflictionNames[k]), IconOf(statusIcons, AfflictionNames[k]))
    ensures forall k :: 0 <= k < |ActionNames| ==>
      r[1 + |AfflictionNames| + k] == Tracked(Field(d.actions, ActionNames[k]), IconOf(statusIcons, ActionNames[k]))
  {
    [Tracked(d.injured, IconOf(statusIcons, "injured"))]
    + seq(|AfflictionNames|, k requires 0 <= k < |AfflictionNames| =>
        Tracked(Field(d.afflictions, AfflictionNames[k]), IconOf(statusIcons, AfflictionNames[k])))
    + seq(|ActionNames|, k requires 0 <= k < |ActionNames| =>
        Tracked(Field(d.actions, ActionNames[k]), IconOf(statusIcons, ActionNames[k])))
  }

  /** The effect icons after the `toggleEffect` calls for `tracked`, in order. */
  function Synced(icons: set<string>, tracked: seq<Tracked>, statusEffects: seq<StatusEffect>): set<string>
  {
    if tracked == [] then icons
    else
      var last := tracked[|tracked| - 1];
      Toggled(Synced(icons, tracked[..|tracked| - 1], statusEffects), last.flag, last.icon, statusEffects)
  }

  /** No later call uses the same icon as call `j`. */
  predicate LastWithIcon(tracked: seq<Tracked>, j: int)
    requires 0 <= j < |tracked|
  {
    forall k :: j < k < |tracked| ==> tracked[k].icon != tracked[j].icon
  }

  /**
   * The token shows the icon of every registered flag exactly when the flag
   * is truthy (for an icon shared by several flags, the last one decides).
   */
  predicate InSync(icons: set<string>, tracked: seq<Tracked>, statusEffects: seq<StatusEffect>)
  {
    forall j :: 0 <= j < |tracked| && Registered(statusEffects, tracked[j].icon) && LastWithIcon(tracked, j) ==>
      (tracked[j].icon.value in icons <==> Truthy(tracked[j].flag))
  }

  /** Whatever the token showed before, the calls leave it in sync, and icons no call names are kept. */
  lemma {:induction false} SyncedIsInSync(icons: set<string>, tracked: seq<Tracked>, statusEffects: seq<StatusEffect>)
    ensures InSync(Synced(icons, tracked, statusEffects), tracked, statusEffects)
    ensures forall x :: (forall j :: 0 <= j < |tracked| ==> tracked[j].icon != Some(x)) ==>
      (x in Synced(icons, tracked, statusEffects) <==> x in icons)
  {
    if tracked != [] {
      var n := |tracked| - 1;
      var init := tracked[..n];
      var before := Synced(icons, init, statusEffects);
      SyncedIsInSync(icons, init, statusEffects);
      ToggleSyncsOneIcon(before, tracked[n].flag, tracked[n].icon, statusEffects);
      var after := Synced(icons, tracked, statusEffects);
      forall j | 0 <= j < |tracked| && Registered(statusEffects, tracked[j].icon) && LastWithIcon(tracked, j)
        ensures tracked[j].icon.value in after <==> Truthy(tracked[j].flag)
      {
        if j < n {
          assert init[j] == tracked[j];
          assert LastWithIcon(init, j);
          assert tracked[n].icon != tracked[j].icon;
        }
      }
      forall x | forall j :: 0 <= j < |tracked| ==> tracked[j].icon != Some(x)
        ensures x in after <==> x in icons
      {
        assert forall j :: 0 <= j < |init| ==> init[j] == tracked[j];
        assert tracked[n].icon != Some(x);
      }
    }
  }

  /**
   * The calls as the source issues them: none is awaited, so every call
   * decides on the icons the token showed before the hook, and the host's
   * toggles then follow in call order.
   */
  function Unawaited(icons: set<string>, tracked: seq<Tracked>, statusEffects: seq<StatusEffect>): set<string>
  {
    if tracked == [] then icons
    else
      var last := tracked[|tracked| - 1];
      var before := Unawaited(icons, tracked[..|tracked| - 1], statusEffects);
      var found := last.icon.Some? && last.icon.value in icons;
      var effect := FindByIcon(statusEffects, last.icon);
      if MustToggle(last.flag, found) && effect.Some? then
        (if effect.value.icon in before then before - {effect.value.icon} else before + {effect.value.icon})
      else before
  }

  /** No two calls name the same icon. */
  predicate DistinctIcons(tracked: seq<Tracked>)
  {
    forall j, k :: 0 <= j < k < |tracked| ==> tracked[j].icon.None? || tracked[j].icon != tracked[k].icon
  }

  /**
   * When no two flags share an icon, reading the calls one after another
   * gives the same icons as the un-awaited calls: no call touches an icon
   * an earlier call decided on.
   */
  lemma {:induction false} UnawaitedMatchesSequential(icons: set<string>, tracked: seq<Tracked>, statusEffects: seq<StatusEffect>)
    requires DistinctIcons(tracked)
    ensures Unawaited(icons, tracked, statusEffects) == Synced(icons, tracked, statusEffects)
  {
    if tracked != [] {
      var n := |tracked| - 1;
      var init := tracked[..n];
      assert DistinctIcons(init) by {
        forall j, k | 0 <= j < k < |init| ensures init[j].icon.None? || init[j].icon != init[k].icon {
          assert init[j] == tracked[j] && init[k] == tracked[k];
        }
      }
      UnawaitedMatchesSequential(icons, init, statusEffects);
      SyncedIsInSync(icons, init, statusEffects);
      if tracked[n].icon.Some? {
        var x := tracked[n].icon.value;
        forall j | 0 <= j < |init| ensures init[j].icon != Some(x) {
          assert init[j] == tracked[j];
        }
        assert x in Synced(icons, init, statusEffects) <==> x in icons;
      }
    }
  }

  /**
   * With a shared icon the two readings part: a truthy flag and a later
   * falsy one on the same absent icon leave it shown in the source, since
   * the second call still sees it absent, but hidden when read in order.
   */
  lemma SharedIconDiverges()
    ensures var tracked := [Tracked(Bool(true), Some("x")), Tracked(Bool(false), Some("x"))];
      var effects := [StatusEffect("x", "X", "x")];
      Unawaited({}, tracked, effects) == {"x"} && Synced({}, tracked, effects) == {}
  {
    var tracked := [Tracked(Bool(true), Some("x")), Tracked(Bool(false), Some("x"))];
    assert tracked[..1] == [Tracked(Bool(true), Some("x"))];
    assert tracked[..1][..0] == [];
  }

  /** The `toggleEffect` calls on one token. */
  method SyncToken(token: Token, tracked: seq<Tracked>, statusEffects: seq<StatusEffect>)
    modifies token
    ensures token.effectIcons == Synced(old(token.effectIcons), tracked, statusEffects)
  {
    for i := 0 to |tracked|
      invariant token.effectIcons == Synced(old(token.effectIcons), tracked[..i], statusEffects)
    {
      ToggleEffect(token, tracked[i].flag, tracked[i].icon, statusEffects);
      assert tracked[..i + 1][..i] == tracked[..i];
    }
    assert tracked[..|tracked|] == tracked;
  }

  /**
   * The loop over `actor.getActiveTokens()`: every token on the active scene
   * ends in sync with the actor's flags (also when a token is listed twice);
   * tokens on other scenes are left alone.
   */
  method SyncActiveTokens(tokens: seq<Token>, activeSceneId: string, d: ActorData,
                          statusIcons: map<string, string>, statusEffects: seq<StatusEffect>)
    modifies set t | t in tokens
    ensures forall t :: t in tokens && t.sceneId == activeSceneId ==>
      InSync(t.effectIcons, TrackedFlags(d, statusIcons), statusEffects)
    ensures forall t :: t in tokens && t.sceneId != activeSceneId ==> t.effectIcons == old(t.effectIcons)
  {
    var tracked := TrackedFlags(d, statusIcons);
    for i := 0 to |tokens|
      invariant forall t :: t in tokens[..i] && t.sceneId == activeSceneId ==> InSync(t.effectIcons, tracked, statusEffects)
      invariant forall t :: t in tokens && t.sceneId != activeSceneId ==> t.effectIcons == old(t.effectIcons)
    {
      var token := tokens[i];
      if token.sceneId == activeSceneId {
        ghost var before := token.effectIcons;
        SyncToken(token, tracked, statusEffects);
        SyncedIsInSync(before, tracked, statusEffects);
      }
      assert tokens[..i + 1] == tokens[..i] + [token];
    }
    assert tokens[..|tokens|] == tokens;
  }

  /* ---------------------------------------------------------------------- */
  /*  The createToken and updateActor hooks                                 */
  /* ---------------------------------------------------------------------- */

  /**
   * `Hooks.on('createToken')`: `actor` is the token's world actor (`None`
   * when there is none) and `activeTokens` its `getActiveTokens()`.
   */
  method OnCreateToken(actor: Option<ActorDocument>, activeTokens: seq<Token>, activeSceneId: string,
                       statusIcons: map<string, string>, statusEffects: seq<StatusEffect>)
    modifies set t | t in activeTokens
    ensures actor.None? ==> forall t :: t in activeTokens ==> t.effectIcons == old(t.effectIcons)
    ensures actor.Some? ==> forall t :: t in activeTokens && t.sceneId == activeSceneId ==>
      InSync(t.effectIcons, TrackedFlags(actor.value.data, statusIcons), statusEffects)
    ensures forall t :: t in activeTokens && t.sceneId != activeSceneId ==> t.effectIcons == old(t.effectIcons)
  {
    if actor.None? {
      return;
    }
    SyncActiveTokens(activeTokens, activeSceneId, actor.value.data, statusIcons, statusEffects);
  }

  /**
   * A combatant of the current combat and the actor object it stands for.
   * The hook compares that object with the updated actor by identity, so an
   * unlinked token's own actor never matches the world actor it copies,
   * even though both carry the same id.
   */
  datatype Combatant = Combatant(id: string, actor: ActorDocument)

  /** A `game.combat.setInitiative(id, value)` call. */
  datatype InitiativeCall = InitiativeCall(combatantId: string, value: int)

  /** The initiative `updateActor` gives an actor's combatants. */
  function Initiative(actorType: string, fastturn: JsValue): int
  {
    if actorType == "character" then (if Truthy(fastturn) then 70 else 30)
    else (if Truthy(fastturn) then 50 else 10)
  }

  /**
   * The initiative values put the turns in the order of the rules: every
   * fast turn before every slow one, and within each, characters before
   * the other actors.
   */
  lemma InitiativeOrdersTurns(type1: string, fast1: JsValue, type2: string, fast2: JsValue)
    ensures Truthy(fast1) && !Truthy(fast2) ==> Initiative(type1, fast1) > Initiative(type2, fast2)
    ensures Truthy(fast1) == Truthy(fast2) && type1 == "character" && type2 != "character" ==>
      Initiative(type1, fast1) > Initiative(type2, fast2)
    ensures Truthy(fast1) == Truthy(fast2) && (type1 == "character" <==> type2 == "character") ==>
      Initiative(type1, fast1) == Initiative(type2, fast2)
  {
  }

  /** The combatants that stand for the actor, in combat order. */
  function ActorCombatants(combatants: seq<Combatant>, actor: ActorDocument): (r: seq<Combatant>)
    ensures forall k :: 0 <= k < |r| ==> r[k] in combatants && r[k].actor == actor
    ensures forall k :: 0 <= k < |combatants| && combatants[k].actor == actor ==> combatants[k] in r
    ensures |r| <= |combatants|
  {
    if combatants == [] then []
    else
      var init := ActorCombatants(combatants[..|combatants| - 1], actor);
      var c := combatants[|combatants| - 1];
      assert combatants == combatants[..|combatants| - 1] + [c];
      if c.actor == actor then init + [c] else init
  }

  /** The `setInitiative` calls of the loop over the combatants. */
  function InitiativeCalls(combatants: seq<Combatant>, actor: ActorDocument, value: int): (r: seq<InitiativeCall>)
    ensures var mine := ActorCombatants(combatants, actor);
      |r| == |mine| && forall k :: 0 <= k < |r| ==> r[k] == InitiativeCall(mine[k].id, value)
  {
    if combatants == [] then []
    else
      var init := InitiativeCalls(combatants[..|combatants| - 1], actor, value);
      var c := combatants[|combatants| - 1];
      if c.actor == actor then init + [InitiativeCall(c.id, value)] else init
  }

  /**
   * Combatants are matched by object, not by id: a combatant standing for
   * another actor object with the same id (an unlinked token's copy) gets
   * no call, while one standing for the actor itself does.
   */
  lemma MatchedByIdentity(combatants: seq<Combatant>, actor: ActorDocument, copy: ActorDocument, cid: string, value: int)
    requires copy != actor && copy.id == actor.id
    ensures InitiativeCalls(combatants + [Combatant(cid, copy)], actor, value) == InitiativeCalls(combatants, actor, value)
    ensures InitiativeCalls(combatants + [Combatant(cid, actor)], actor, value)
         == InitiativeCalls(combatants, actor, value) + [InitiativeCall(cid, value)]
  {
    assert (combatants + [Combatant(cid, copy)])[..|combatants|] == combatants;
    assert (combatants + [Combatant(cid, actor)])[..|combatants|] == combatants;
  }

  /** The loop over `game.combat.combatants`. */
  method SetActorInitiative(combatants: seq<Combatant>, actor: ActorDocument) returns (calls: seq<InitiativeCall>)
    ensures calls == InitiativeCalls(combatants, actor, Initiative(actor.actorType, actor.data.fastturn))
  {
    calls := [];
    for i := 0 to |combatants|
      invariant calls == InitiativeCalls(combatants[..i], actor, Initiative(actor.actorType, actor.data.fastturn))
    {
      var combatant := combatants[i];
      var init := 0;
      if combatant.actor == actor {
        if actor.actorType == "character" {
          init := if Truthy(actor.data.fastturn) then 70 else 30;
        } else {
          init := if Truthy(actor.data.fastturn) then 50 else 10;
        }
        calls := calls + [InitiativeCall(combatant.id, init)];
      }
      assert combatants[..i + 1][..i] == combatants[..i];
    }
    assert combatants[..|combatants|] == combatants;
  }

  /**
   * `Hooks.on('updateActor')`: `dataUpdate` is `updateData.data` and
   * `combat` the current combat's combatants (`None` outside combat). It
   * returns the `setInitiative` calls it makes.
   */
  method OnUpdateActor(actor: ActorDocument, dataUpdate: JsValue, isGM: bool, isOwner: bool,
                       combat: Option<seq<Combatant>>, activeTokens: seq<Token>, activeSceneId: string,
                       statusIcons: map<string, string>, statusEffects: seq<StatusEffect>)
    returns (calls: seq<InitiativeCall>)
    modifies set t | t in activeTokens
    ensures !(Truthy(dataUpdate) && (isGM || isOwner)) ==>
      calls == [] && forall t :: t in activeTokens ==> t.effectIcons == old(t.effectIcons)
    ensures Truthy(dataUpdate) && (isGM || isOwner) ==>
      && calls == (if combat.Some? then InitiativeCalls(combat.value, actor, Initiative(actor.actorType, actor.data.fastturn)) else [])
      && forall t :: t in activeTokens && t.sceneId == activeSceneId ==>
           InSync(t.effectIcons, TrackedFlags(actor.data, statusIcons), statusEffects)
    ensures forall t :: t in activeTokens && t.sceneId != activeSceneId ==> t.effectIcons == old(t.effectIcons)
  {
    calls := [];
    if Truthy(dataUpdate) && (isGM || isOwner) {
      if combat.Some? {
        calls := SetActorInitiative(combat.value, actor);
      }
      SyncActiveTokens(activeTokens, activeSceneId, actor.data, statusIcons, statusEffects);
    }
  }
}
