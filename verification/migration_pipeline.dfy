/**
 * `handleMigrations`: the version-gated sequence of migration steps run at
 * start-up. `isNewerVersion` is the host's and is a parameter `newer`
 * (`newer(a, b)`: version `a` is newer than version `b`).
 */
module MigrationPipeline {
  import opened JsValues
  import opened MigrationTransforms
  import opened MigrationWorld
  import Migration177
  import Migration200
  import Migration310

  datatype Step = V177 | V200 | V310

  /** The version each step migrates to. */
  function Threshold(s: Step): string
  {
    match s
    case V177 => "1.7.7"
    case V200 => "2.0.0"
    case V310 => "3.1.0"
  }

  /** The position of a step in the order `handleMigrations` runs them. */
  function Rank(s: Step): nat
  {
    match s
    case V177 => 0
    case V200 => 1
    case V310 => 2
  }

  const CompatibleMigrationVersion := "0.8"

  /**
   * What the host provides: whether the user is the GM, the stored
   * `systemMigrationVersion` setting, the running system's version and
   * `game.data.release?.generation`.
   */
  datatype Host = Host(isGM: bool, storedVersion: string, systemVersion: string, generation: JsValue)

  /** The inputs the steps take from outside: rejected writes, the dialog answer, the icon tables and `migrateActorData`. */
  datatype StepInputs = StepInputs(
    failing: set<Target>,
    migrateNewIcons: bool,
    icons: DefaultIcons,
    migrateActorData: Actor -> ActorSystem)

  /** What a call leaves behind: the world and the log of notices and writes. */
  datatype Run = Run(world: World, events: seq<Event>)

  /** A step is due when its version is newer than the stored one; the first two also need no release generation. */
  predicate Due(s: Step, currentVersion: string, generation: JsValue, newer: (string, string) -> bool)
  {
    newer(Threshold(s), currentVersion) && (s == V310 || !Truthy(generation))
  }

  /** The steps that run, in the order they run. */
  function DueSteps(currentVersion: string, generation: JsValue, newer: (string, string) -> bool): (r: seq<Step>)
    ensures forall s :: s in r <==> Due(s, currentVersion, generation, newer)
    ensures forall i, j :: 0 <= i < j < |r| ==> Rank(r[i]) < Rank(r[j])
  {
    (if Due(V177, currentVersion, generation, newer) then [V177] else [])
      + (if Due(V200, currentVersion, generation, newer) then [V200] else [])
      + (if Due(V310, currentVersion, generation, newer) then [V310] else [])
  }

  function RunStep(s: Step, w: World, inputs: StepInputs): Outcome<World>
  {
    match s
    case V177 => Migration177.Migrate177(w, inputs.migrateActorData, inputs.failing)
    case V200 => Migration200.Migrate200(w, inputs.migrateNewIcons, inputs.icons, inputs.failing)
    case V310 => Migration310.Migrate310(w, inputs.failing)
  }

  /** The steps run one after another, each on the world the previous one left. */
  function RunSteps(steps: seq<Step>, w: World, inputs: StepInputs): Run
  {
    if steps == [] then Run(w, [])
    else
      var before := RunSteps(steps[..|steps| - 1], w, inputs);
      var o := RunStep(steps[|steps| - 1], before.world, inputs);
      Run(o.value, before.events + o.events)
  }

  function HandleMigrationsSpec(host: Host, w: World, newer: (string, string) -> bool, inputs: StepInputs): (r: Run)
    ensures !host.isGM ==> r == Run(w, [])
    ensures host.isGM && host.storedVersion == "" ==> r == Run(w, [Notify(VersionStamp(host.systemVersion))])
    ensures host.isGM ==> |r.events| > 0 && r.events[|r.events| - 1] == Notify(VersionStamp(host.systemVersion))
  {
    if !host.isGM then Run(w, [])
    else if host.storedVersion == "" then Run(w, [Notify(VersionStamp(host.systemVersion))])
    else
      var cv := host.storedVersion;
      var warning := if newer(CompatibleMigrationVersion, cv) && !Truthy(host.generation) then [Notify(CompatibilityWarning)] else [];
      var steps := RunSteps(DueSteps(cv, host.generation, newer), w, inputs);
      Run(steps.world, warning + steps.events + [Notify(VersionStamp(host.systemVersion))])
  }

  /** One awaited step. */
  method RunStepMethod(s: Step, w: World, inputs: StepInputs) returns (o: Outcome<World>)
    ensures o == RunStep(s, w, inputs)
  {
    match s
    case V177 => o := Migration177.MigrateWorld177(w, inputs.migrateActorData, inputs.failing);
    case V200 => o := Migration200.MigrateWorld200(w, inputs.migrateNewIcons, inputs.icons, inputs.failing);
    case V310 => o := Migration310.MigrateWorld310(w, inputs.failing);
  }

  lemma RunStepsSnoc(steps: seq<Step>, s: Step, w: World, inputs: StepInputs)
    ensures var before := RunSteps(steps, w, inputs);
      var o := RunStep(s, before.world, inputs);
      RunSteps(steps + [s], w, inputs) == Run(o.value, before.events + o.events)
  {
    assert (steps + [s])[..|steps|] == steps;
  }

  /**
   * One guarded call of `handleMigrations`: when `due`, step `s` runs on the
   * world the earlier calls left and its log is appended.
   */
  method RunIfDue(s: Step, due: bool, w: World, inputs: StepInputs, ghost steps: seq<Step>, world: World, events: seq<Event>)
    returns (ghost steps': seq<Step>, world': World, events': seq<Event>)
    requires Run(world, events) == RunSteps(steps, w, inputs)
    ensures steps' == steps + (if due then [s] else [])
    ensures Run(world', events') == RunSteps(steps', w, inputs)
  {
    steps', world', events' := steps, world, events;
    assert steps + [] == steps;
    if due {
      var o := RunStepMethod(s, world, inputs);
      RunStepsSnoc(steps, s, w, inputs);
      world', events' := o.value, events + o.events;
      steps' := steps + [s];
    }
  }

  /** `handleMigrations` */
  method HandleMigrations(host: Host, w: World, newer: (string, string) -> bool, inputs: StepInputs) returns (r: Run)
    ensures r == HandleMigrationsSpec(host, w, newer, inputs)
  {
    if !host.isGM {
      return Run(w, []);
    }
    var currentVersion := host.storedVersion;
    if currentVersion == "" {
      // no version saved: nothing to migrate from
      return Run(w, [Notify(VersionStamp(host.systemVersion))]);
    }
    var warning: seq<Event> := [];
    if newer(CompatibleMigrationVersion, currentVersion) && !Truthy(host.generation) {
      warning := [Notify(CompatibilityWarning)];
    }
    ghost var steps: seq<Step> := [];
    var world, events := w, [];
    steps, world, events := RunIfDue(V177, Due(V177, currentVersion, host.generation, newer), w, inputs, steps, world, events);
    steps, world, events := RunIfDue(V200, Due(V200, currentVersion, host.generation, newer), w, inputs, steps, world, events);
    steps, world, events := RunIfDue(V310, Due(V310, currentVersion, host.generation, newer), w, inputs, steps, world, events);
    assert steps == DueSteps(currentVersion, host.generation, newer);
    r := Run(world, warning + events + [Notify(VersionStamp(host.systemVersion))]);
  }

  /* ---------------------------------------------------------------------- */
  /*  Properties                                                            */
  /* ---------------------------------------------------------------------- */

  /** `newer` behaves as "strictly later" on version tags, with the three thresholds in their natural order. */
  ghost predicate OrderedThresholds(newer: (string, string) -> bool)
  {
    && (forall a, b, c :: newer(a, b) && newer(b, c) ==> newer(a, c))
    && newer("2.0.0", "1.7.7") && newer("3.1.0", "2.0.0")
  }

  /**
   * Under an order on versions the due steps are always a final segment of
   * 1.7.7, 2.0.0, 3.1.0: once a step is due every later one is too (with a
   * release generation present, only 3.1.0 can run).
   */
  lemma DueStepsAreASuffix(cv: string, generation: JsValue, newer: (string, string) -> bool)
    requires OrderedThresholds(newer)
    ensures var d := DueSteps(cv, generation, newer);
      d == [] || d == [V310] || (!Truthy(generation) && (d == [V200, V310] || d == [V177, V200, V310]))
  {
    if newer("1.7.7", cv) {
      assert newer("2.0.0", cv);
      assert newer("3.1.0", cv);
    } else if newer("2.0.0", cv) {
      assert newer("3.1.0", cv);
    }
  }

  /**
   * A world stored at a version older than every threshold, with no release
   * generation, runs all three steps in ascending order; the stored version
   * is stamped last.
   */
  lemma AllStepsFromAnOldWorld(host: Host, w: World, newer: (string, string) -> bool, inputs: StepInputs)
    requires host.isGM && host.storedVersion != "" && !Truthy(host.generation)
    requires newer("1.7.7", host.storedVersion) && OrderedThresholds(newer)
    ensures DueSteps(host.storedVersion, host.generation, newer) == [V177, V200, V310]
    ensures var r := HandleMigrationsSpec(host, w, newer, inputs);
      var s1 := Migration177.Migrate177(w, inputs.migrateActorData, inputs.failing);
      var s2 := Migration200.Migrate200(s1.value, inputs.migrateNewIcons, inputs.icons, inputs.failing);
      var s3 := Migration310.Migrate310(s2.value, inputs.failing);
      r.world == s3.value
      && r.events == (if newer(CompatibleMigrationVersion, host.storedVersion) then [Notify(CompatibilityWarning)] else [])
                     + s1.events + s2.events + s3.events + [Notify(VersionStamp(host.systemVersion))]
  {
    DueStepsAreASuffix(host.storedVersion, host.generation, newer);
    ThreeDueSteps(host, w, newer, inputs, V177, V200, V310);
  }

  /** When exactly three steps are due, `handleMigrations` runs them one after another between the warning and the stamp. */
  lemma ThreeDueSteps(host: Host, w: World, newer: (string, string) -> bool, inputs: StepInputs, a: Step, b: Step, c: Step)
    requires host.isGM && host.storedVersion != ""
    requires DueSteps(host.storedVersion, host.generation, newer) == [a, b, c]
    ensures var r := HandleMigrationsSpec(host, w, newer, inputs);
      var s1 := RunStep(a, w, inputs);
      var s2 := RunStep(b, s1.value, inputs);
      var s3 := RunStep(c, s2.value, inputs);
      r.world == s3.value
      && r.events == (if newer(CompatibleMigrationVersion, host.storedVersion) && !Truthy(host.generation) then [Notify(CompatibilityWarning)] else [])
                     + s1.events + s2.events + s3.events + [Notify(VersionStamp(host.systemVersion))]
  {
    RunThreeSteps(a, b, c, w, inputs);
    var s1 := RunStep(a, w, inputs);
    var s2 := RunStep(b, s1.value, inputs);
    var s3 := RunStep(c, s2.value, inputs);
    var run := RunSteps(DueSteps(host.storedVersion, host.generation, newer), w, inputs);
    assert run == Run(s3.value, s1.events + s2.events + s3.events);
    var warning := if newer(CompatibleMigrationVersion, host.storedVersion) && !Truthy(host.generation) then [Notify(CompatibilityWarning)] else [];
    var stamp := [Notify(VersionStamp(host.systemVersion))];
    assert HandleMigrationsSpec(host, w, newer, inputs) == Run(run.world, warning + run.events + stamp);
    Reassociate(warning, s1.events, s2.events, s3.events, stamp);
  }

  lemma Reassociate<T>(a: seq<T>, b: seq<T>, c: seq<T>, d: seq<T>, e: seq<T>)
    ensures a + (b + c + d) + e == a + b + c + d + e
  {
  }


  /** Three steps in a row: each runs on the world the previous one left, and the logs follow one another. */
  lemma RunThreeSteps(a: Step, b: Step, c: Step, w: World, inputs: StepInputs)
    ensures var s1 := RunStep(a, w, inputs);
      var s2 := RunStep(b, s1.value, inputs);
      var s3 := RunStep(c, s2.value, inputs);
      RunSteps([a, b, c], w, inputs) == Run(s3.value, s1.events + s2.events + s3.events)
  {
    Strings.BuildThree(a, b, c);
    Strings.EmptyAppend(RunStep(a, w, inputs).events);
    RunStepsSnoc([], a, w, inputs);
    RunStepsSnoc([a], b, w, inputs);
    RunStepsSnoc([a, b], c, w, inputs);
  }

}
