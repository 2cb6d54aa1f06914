/**
 * The remaining rules of the system's entry script: the `concat` template
 * helper, the `ready` hook's decision to migrate, the status-effect list
 * built in `setup`, and the token defaults `preCreateActor` gives a new
 * actor.
 */
module SystemHooks {
  import opened JsValues
  import opened Strings
  import opened StatusHooks
  import opened MigrationWorld
  import opened MigrationPipeline

  /* ---------------------------------------------------------------------- */
  /*  The `concat` helper                                                   */
  /* ---------------------------------------------------------------------- */

  /** What `outStr += arg` adds for one argument: nothing for an object (or `null`). */
  function ConcatPiece(v: JsValue): string
  {
    if IsTypeofObject(v) then "" else ToJsString(v)
  }

  /** The string `concat` returns for `args`. */
  function Concatenated(args: seq<JsValue>): string
  {
    if args == [] then "" else Concatenated(args[..|args| - 1]) + ConcatPiece(args[|args| - 1])
  }

  /** `Handlebars.registerHelper('concat', ...)`: the loop over `arguments`. */
  method Concat(args: seq<JsValue>) returns (outStr: string)
    ensures outStr == Concatenated(args)
  {
    outStr := "";
    for i := 0 to |args|
      invariant outStr == Concatenated(args[..i])
    {
      if !IsTypeofObject(args[i]) {
        outStr := outStr + ToJsString(args[i]);
      }
      assert args[..i + 1][..i] == args[..i];
    }
    assert args[..|args|] == args;
  }

  /** Concatenation distributes over splitting the arguments. */
  lemma {:induction false} ConcatenatedAppend(a: seq<JsValue>, b: seq<JsValue>)
    ensures Concatenated(a + b) == Concatenated(a) + Concatenated(b)
    decreases |b|
  {
    if b == [] {
      assert a + b == a;
    } else {
      var b' := b[..|b| - 1];
      var piece := ConcatPiece(b[|b| - 1]);
      assert (a + b)[..|a + b| - 1] == a + b';
      assert Concatenated(a + b) == Concatenated(a + b') + piece;
      ConcatenatedAppend(a, b');
      AppendAssoc(Concatenated(a), Concatenated(b'), piece);
    }
  }

  /** The arguments that are not objects, in order. */
  function NonObjects(args: seq<JsValue>): (r: seq<JsValue>)
    ensures forall v :: v in r <==> v in args && !IsTypeofObject(v)
  {
    if args == [] then []
    else
      var init := NonObjects(args[..|args| - 1]);
      var v := args[|args| - 1];
      assert args == args[..|args| - 1] + [v];
      if IsTypeofObject(v) then init else init + [v]
  }

  /**
   * Objects contribute nothing: `concat` of the arguments is `concat` of the
   * non-object ones, so the options hash Handlebars passes last is dropped,
   * and strings come out unchanged.
   */
  lemma {:induction false} ConcatSkipsObjects(args: seq<JsValue>)
    ensures Concatenated(args) == Concatenated(NonObjects(args))
    ensures forall s, options :: Concatenated([Str(s), Obj(options)]) == s
  {
    if args != [] {
      var init := args[..|args| - 1];
      var v := args[|args| - 1];
      ConcatSkipsObjects(init);
      if !IsTypeofObject(v) {
        assert Concatenated(NonObjects(init) + [v]) == Concatenated(NonObjects(init)) + ConcatPiece(v) by {
          assert (NonObjects(init) + [v])[..|NonObjects(init)|] == NonObjects(init);
        }
      }
    }
    forall s, options ensures Concatenated([Str(s), Obj(options)]) == s {
      assert [Str(s), Obj(options)][..1] == [Str(s)];
      assert [Str(s)][..0] == [];
      assert Concatenated([Str(s)]) == "" + ToJsString(Str(s));
    }
  }

  /* ---------------------------------------------------------------------- */
  /*  The `ready` hook's migration gate                                     */
  /* ---------------------------------------------------------------------- */

  /** What the `ready` hook does about migration: nothing, or call `migrateWorld`, after a warning or not. */
  datatype ReadyDecision = Stay | MigrateWorld(warned: bool)

  /**
   * The gate on the stored `systemMigrationVersion` (`""` when none is
   * stored); `newer` is the host's `isNewerVersion`.
   */
  function ReadyGate(isGM: bool, currentVersion: string, newer: (string, string) -> bool): (r: ReadyDecision)
    ensures !isGM ==> r == Stay
    ensures isGM ==> (r.MigrateWorld? <==> currentVersion == "" || newer("1.7.7", currentVersion))
    ensures r.MigrateWorld? ==> (r.warned <==> currentVersion != "" && newer(CompatibleMigrationVersion, currentVersion))
  {
    if !isGM then Stay
    else
      var needsMigration := currentVersion != "" && newer("1.7.7", currentVersion);
      if !needsMigration && currentVersion != "" then Stay
      else MigrateWorld(currentVersion != "" && newer(CompatibleMigrationVersion, currentVersion))
  }

  /**
   * The gate and `handleMigrations` disagree on a fresh world: with no
   * stored version the gate goes on to migrate while `handleMigrations`
   * only stamps the version. With a stored version and no release
   * generation they agree: the gate goes on exactly when the 1.7.7 step is
   * due, and warns exactly when `handleMigrations` does.
   */
  lemma ReadyGateAgainstHandleMigrations(host: Host, w: World, newer: (string, string) -> bool, inputs: StepInputs)
    requires host.isGM
    ensures host.storedVersion == "" ==>
      ReadyGate(true, "", newer) == MigrateWorld(false)
      && HandleMigrationsSpec(host, w, newer, inputs) == Run(w, [Notify(VersionStamp(host.systemVersion))])
    ensures host.storedVersion != "" && !Truthy(host.generation) ==>
      var gate := ReadyGate(true, host.storedVersion, newer);
      var run := HandleMigrationsSpec(host, w, newer, inputs);
      && (gate.MigrateWorld? <==> V177 in DueSteps(host.storedVersion, host.generation, newer))
      && (gate.MigrateWorld? ==> (gate.warned <==> run.events[0] == Notify(CompatibilityWarning)))
  {
    if host.storedVersion != "" && !Truthy(host.generation) {
      var cv := host.storedVersion;
      if ReadyGate(true, cv, newer).MigrateWorld? && !newer(CompatibleMigrationVersion, cv) {
        // the 1.7.7 step runs first and opens with its start notice
        var due := DueSteps(cv, host.generation, newer);
        RunStepsStartsWith(due, w, inputs);
        StepOpensWithStart(due[0], w, inputs);
        NoWarningOpensWithFirstStep(host, w, newer, inputs);
      }
    }
  }

  /** Without the compatibility warning, the log of `handleMigrations` opens with the log of the steps it runs. */
  lemma NoWarningOpensWithFirstStep(host: Host, w: World, newer: (string, string) -> bool, inputs: StepInputs)
    requires host.isGM && host.storedVersion != ""
    requires !(newer(CompatibleMigrationVersion, host.storedVersion) && !Truthy(host.generation))
    ensures var steps := RunSteps(DueSteps(host.storedVersion, host.generation, newer), w, inputs).events;
      var events := HandleMigrationsSpec(host, w, newer, inputs).events;
      steps != [] ==> events[0] == steps[0]
  {
    var steps := RunSteps(DueSteps(host.storedVersion, host.generation, newer), w, inputs).events;
    assert HandleMigrationsSpec(host, w, newer, inputs).events == [] + steps + [Notify(VersionStamp(host.systemVersion))];
  }


  /** Every migration step opens its log with the start notice. */
  lemma StepOpensWithStart(s: Step, w: World, inputs: StepInputs)
    ensures var events := RunStep(s, w, inputs).events;
      events != [] && events[0] == Notify(StartInfo)
  {
    match s
    case V177 =>
      var o := Migration177.Migrate177(w, inputs.migrateActorData, inputs.failing);
    case V200 =>
      var o := Migration200.Migrate200(w, inputs.migrateNewIcons, inputs.icons, inputs.failing);
    case V310 =>
      var o := Migration310.Migrate310(w, inputs.failing);
  }

  /** The log of a run of steps opens with the log of its first step. */
  lemma {:induction false} RunStepsStartsWith(steps: seq<Step>, w: World, inputs: StepInputs)
    requires steps != []
    ensures var first := RunStep(steps[0], w, inputs).events;
      var events := RunSteps(steps, w, inputs).events;
      |first| <= |events| && events[..|first|] == first
  {
    var init := steps[..|steps| - 1];
    var before := RunSteps(init, w, inputs);
    var o := RunStep(steps[|steps| - 1], before.world, inputs);
    assert RunSteps(steps, w, inputs).events == before.events + o.events;
    if init == [] {
      assert before.events == [];
    } else {
      assert init[0] == steps[0];
      RunStepsStartsWith(init, w, inputs);
    }
  }

  /* ---------------------------------------------------------------------- */
  /*  The `setup` hook's status-effect list                                 */
  /* ---------------------------------------------------------------------- */

  /** One effect per `CONFIG.DL.statusIcons` entry: the key as id, the key with its first letter upper-cased as label. */
  function SystemStatusEffects(entries: seq<(string, string)>): (r: seq<StatusEffect>)
    ensures |r| == |entries|
    ensures forall i :: 0 <= i < |entries| ==> r[i] == StatusEffect(entries[i].0, Capitalize(entries[i].0), entries[i].1)
  {
    if entries == [] then []
    else
      var e := entries[|entries| - 1];
      SystemStatusEffects(entries[..|entries| - 1]) + [StatusEffect(e.0, Capitalize(e.0), e.1)]
  }

  /**
   * The list `CONFIG.statusEffects` is set to: the system's effects, then,
   * unless the `statusIcons` setting is on, copies of the core effects.
   */
  function StatusEffectList(entries: seq<(string, string)>, statusIconsSetting: JsValue, coreEffects: seq<StatusEffect>): seq<StatusEffect>
  {
    SystemStatusEffects(entries) + (if Truthy(statusIconsSetting) then [] else coreEffects)
  }

  /** `Hooks.once('setup')`, the part that builds the status effects. */
  method SetupStatusEffects(entries: seq<(string, string)>, statusIconsSetting: JsValue, coreEffects: seq<StatusEffect>)
    returns (effects: seq<StatusEffect>)
    ensures effects == StatusEffectList(entries, statusIconsSetting, coreEffects)
  {
    effects := [];
    for i := 0 to |entries|
      invariant effects == SystemStatusEffects(entries[..i])
    {
      var (key, attribute) := entries[i];
      effects := effects + [StatusEffect(key, Capitalize(key), attribute)];
      assert entries[..i + 1][..i] == entries[..i];
    }
    assert entries[..|entries|] == entries;
    if !Truthy(statusIconsSetting) {
      for i := 0 to |coreEffects|
        invariant effects == SystemStatusEffects(entries) + coreEffects[..i]
      {
        var effect := coreEffects[i];
        effects := effects + [StatusEffect(effect.id, effect.title, effect.icon)];
        assert coreEffects[..i + 1] == coreEffects[..i] + [coreEffects[i]];
      }
      assert coreEffects[..|coreEffects|] == coreEffects;
    }
  }

  /** `find` on a concatenation looks in the second part only when the first has no match. */
  lemma {:induction false} FindByIconAppend(a: seq<StatusEffect>, b: seq<StatusEffect>, icon: Option<string>)
    ensures FindByIcon(a + b, icon) == if FindByIcon(a, icon).Some? then FindByIcon(a, icon) else FindByIcon(b, icon)
  {
    if a != [] {
      assert (a + b)[0] == a[0];
      assert (a + b)[1..] == a[1..] + b;
      FindByIconAppend(a[1..], b, icon);
    } else {
      assert a + b == b;
    }
  }

  /**
   * Every system status icon is registered, and an icon is always matched
   * to a system effect before any core one; with the `statusIcons` setting
   * on, only system effects are listed.
   */
  lemma SystemIconsComeFirst(entries: seq<(string, string)>, statusIconsSetting: JsValue, coreEffects: seq<StatusEffect>)
    ensures var list := StatusEffectList(entries, statusIconsSetting, coreEffects);
      forall i :: 0 <= i < |entries| ==>
        && Registered(list, Some(entries[i].1))
        && FindByIcon(list, Some(entries[i].1)).value in SystemStatusEffects(entries)
    ensures Truthy(statusIconsSetting) ==> StatusEffectList(entries, statusIconsSetting, coreEffects) == SystemStatusEffects(entries)
    ensures !Truthy(statusIconsSetting) ==>
      StatusEffectList(entries, statusIconsSetting, coreEffects)[|entries|..] == coreEffects
  {
    var system := SystemStatusEffects(entries);
    var rest := if Truthy(statusIconsSetting) then [] else coreEffects;
    forall i | 0 <= i < |entries|
      ensures Registered(system + rest, Some(entries[i].1))
      ensures FindByIcon(system + rest, Some(entries[i].1)).value in system
    {
      assert Some(system[i].icon) == Some(entries[i].1);
      FindByIconAppend(system, rest, Some(entries[i].1));
    }
    if Truthy(statusIconsSetting) {
      assert system + [] == system;
    }
  }

  /* ---------------------------------------------------------------------- */
  /*  `preCreateActor` token defaults                                       */
  /* ---------------------------------------------------------------------- */

  /** `CONST.TOKEN_DISPOSITIONS` values the hook uses. */
  datatype Disposition = Hostile | Neutral

  /** `CONST.TOKEN_DISPLAY_MODES.OWNER_HOVER` */
  datatype DisplayMode = OwnerHover

  /** The `token` entries of a new actor's data that the hook sets; `None` is an entry not set yet. */
  datatype TokenData = TokenData(
    bar1: Option<string>,            // bar1.attribute
    displayName: Option<DisplayMode>,
    displayBars: Option<DisplayMode>,
    disposition: Option<Disposition>,
    name: Option<string>,
    vision: Option<bool>,
    actorLink: Option<bool>)

  /** The data object `preCreateActor` receives as `changes`. */
  class ActorChanges {
    var token: TokenData

    constructor (token: TokenData)
      ensures this.token == token
    {
      this.token := token;
    }
  }

  /** The token entries after the hook: `mergeObject`, then the character-only flags. */
  function WithTokenDefaults(t: TokenData, actorType: string, actorName: string): (r: TokenData)
  {
    var merged := t.(bar1 := Some("characteristics.health"), displayName := Some(OwnerHover), displayBars := Some(OwnerHover),
                     disposition := Some(if actorType == "creature" then Hostile else Neutral), name := Some(actorName));
    if actorType == "character" then merged.(vision := Some(true), actorLink := Some(true)) else merged
  }

  /** `Hooks.on('preCreateActor')` */
  method PreCreateActor(actorType: string, actorName: string, changes: ActorChanges)
    modifies changes
    ensures changes.token == WithTokenDefaults(old(changes.token), actorType, actorName)
  {
    var disposition := Neutral;
    if actorType == "creature" {
      disposition := Hostile;
    }
    changes.token := changes.token.(bar1 := Some("characteristics.health"), displayName := Some(OwnerHover),
                                    displayBars := Some(OwnerHover), disposition := Some(disposition), name := Some(actorName));
    if actorType == "character" {
      changes.token := changes.token.(vision := Some(true), actorLink := Some(true));
    }
  }

  /**
   * A creature's token is hostile and every other one neutral; the token
   * takes the actor's name and shows its health bar; only characters get
   * vision and a linked actor, and other actors keep what they had.
   * Running the hook a second time changes nothing more.
   */
  lemma TokenDefaultsSpec(t: TokenData, actorType: string, actorName: string)
    ensures var r := WithTokenDefaults(t, actorType, actorName);
      && (r.disposition == Some(Hostile) <==> actorType == "creature")
      && r.disposition.Some? && r.name == Some(actorName) && r.bar1 == Some("characteristics.health")
      && r.displayName == Some(OwnerHover) && r.displayBars == Some(OwnerHover)
      && (actorType == "character" ==> r.vision == Some(true) && r.actorLink == Some(true))
      && (actorType != "character" ==> r.vision == t.vision && r.actorLink == t.actorLink)
      && WithTokenDefaults(r, actorType, actorName) == r
  {
  }
}
