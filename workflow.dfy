/**
 * The command itself: `interact`, which fills the options and the
 * vendor and plugin names, and `execute`, which runs the fixed sequence of
 * steps. The shell commands are recorded in a trace rather than run; no
 * step's exit status is looked at, so the trace does not depend on one.
 */
module Installer {
  import opened Wrappers
  import opened PhpStrings
  import opened Environment
  import opened Authors
  import opened Manifest
  import opened PackageName
  import opened FileTree
  import opened PluginWorkspace
  import opened Process

  /** The command's options. */
  datatype Options = Options(
    packageName: Option<string>,
    author: Option<string>,
    description: Option<string>,
    license: Option<string>,
    force: bool,
    flags: ConsoleFlags)

  /** PHP truthiness of an option: null, the empty string and `"0"` count as not given. */
  predicate IsGiven(o: Option<string>) {
    o.Some? && o.value != "" && o.value != "0"
  }

  /**
   * What the console hands back for each prompt. An empty line stands for
   * the prompt's default, null (`None`); the package-name validator sees
   * that as the empty string.
   */
  datatype Answers = Answers(
    packageName: string,
    author: Option<string>,
    description: Option<string>,
    license: Option<string>)

  /** The four confirmation questions of `execute`, in order. */
  datatype Confirmations = Confirmations(assets: bool, sqlite: bool, fixtures: bool, server: bool)

  /** Why the command stops. */
  datatype Failure =
    | BadPackageName(nameError: NameError)
    | BadAuthor(message: string)
    | NullAuthorAnswer
    | DestinationExists(message: string)
    | ManifestFailed(manifestError: ManifestError)
    | EnvTemplateMissing(message: string)

  /** The steps of `execute`, in the order they run. */
  datatype Task =
    | Install | ComposerFile | DummyName | ClassNames | DumpAutoload
    | BuildAssets | SqliteEnv | CreateDatabase | LoadFixtures | StartServer

  datatype Step =
    | CheckDestination(directory: string)
    | Run(task: Task, commands: Commands<Shell>, cwd: Option<string>)
    | Edit(task: Task)
    | Ready(directory: string)

  /** The shell commands `execute` hands to the process, by name. */
  datatype Shell =
    | CreateProject(composer: string, directory: string)
    | DumpAutoloadOptimized(composer: string)
    | YarnInstall | YarnBuild | AssetsInstall
    | DatabaseCreate | SchemaCreate | FixturesLoad | ServerRun

  /** The text of each shell command. */
  function ShellText(command: Shell): string {
    match command
    case CreateProject(composer, dir) => composer + " create-project sylius/plugin-skeleton " + dir
    case DumpAutoloadOptimized(composer) => composer + " dump-autoload --optimize"
    case YarnInstall => "(cd tests/Application && yarn install)"
    case YarnBuild => "(cd tests/Application && yarn build)"
    case AssetsInstall => "(cd tests/Application && bin/console assets:install public -e test)"
    case DatabaseCreate => "(cd tests/Application && bin/console doctrine:database:create -e test)"
    case SchemaCreate => "(cd tests/Application && bin/console doctrine:schema:create -e test)"
    case FixturesLoad => "(cd tests/Application && bin/console sylius:fixtures:load -e test)"
    case ServerRun => "(cd tests/Application && bin/console server:run -d public -e test)"
  }

  function CommandsText(commands: Commands<Shell>): Commands<string> {
    match commands
    case Single(c) => Single(ShellText(c))
    case Many(cs) => Many(seq(|cs|, i requires 0 <= i < |cs| => ShellText(cs[i])))
  }

  /** The command line a step hands to the process: its commands decorated with the console flags and joined. */
  function StepLine(flags: ConsoleFlags, step: Step): string
    requires step.Run?
  {
    CommandLine(flags, CommandsText(step.commands))
  }

  /** The position of a step in the fixed order of `execute`. */
  function Rank(step: Step): nat {
    match step
    case CheckDestination(_) => 0
    case Ready(_) => 11
    case Run(t, _, _) => TaskRank(t)
    case Edit(t) => TaskRank(t)
  }

  function TaskRank(t: Task): nat {
    match t
    case Install => 1
    case ComposerFile => 2
    case DummyName => 3
    case ClassNames => 4
    case DumpAutoload => 5
    case BuildAssets => 6
    case SqliteEnv => 7
    case CreateDatabase => 8
    case LoadFixtures => 9
    case StartServer => 10
  }

  /** The task a step carries out, if it is one of the ten tasks. */
  function TaskOf(step: Step): Option<Task> {
    if step.Run? || step.Edit? then Some(step.task) else None
  }

  /** The tasks a trace carries out. */
  function Tasks(trace: seq<Step>): set<Task> {
    set i, t | 0 <= i < |trace| && TaskOf(trace[i]) == Some(t) :: t
  }

  lemma TasksConcat(a: seq<Step>, b: seq<Step>)
    ensures Tasks(a + b) == Tasks(a) + Tasks(b)
  {
    forall t | t in Tasks(a + b) ensures t in Tasks(a) + Tasks(b) {
      var i :| 0 <= i < |a + b| && TaskOf((a + b)[i]) == Some(t);
      if i < |a| {
        assert (a + b)[i] == a[i];
      } else {
        assert (a + b)[i] == b[i - |a|];
      }
    }
    forall t | t in Tasks(a) + Tasks(b) ensures t in Tasks(a + b) {
      if t in Tasks(a) {
        var i :| 0 <= i < |a| && TaskOf(a[i]) == Some(t);
        assert (a + b)[i] == a[i];
      } else {
        var i :| 0 <= i < |b| && TaskOf(b[i]) == Some(t);
        assert (a + b)[|a| + i] == b[i];
      }
    }
  }

  lemma TasksOne(step: Step)
    ensures Tasks([step]) == if step.Run? || step.Edit? then {step.task} else {}
  {
    if step.Run? || step.Edit? {
      assert TaskOf([step][0]) == Some(step.task);
    }
  }

  /** The line the ready step writes. */
  function ReadyMessage(dir: string): string {
    "Your plugin is ready in folder " + dir + "/"
  }

  /** The steps a confirmation question guards: run when it was answered yes. */
  function Gate(yes: bool, steps: seq<Step>): seq<Step> {
    if yes then steps else []
  }

  function AssetsSteps(dir: string): seq<Step> {
    [Run(BuildAssets, Many([YarnInstall, YarnBuild, AssetsInstall]), Some(dir))]
  }

  function SqliteSteps(dir: string): seq<Step> {
    [Edit(SqliteEnv), Run(CreateDatabase, Many([DatabaseCreate, SchemaCreate]), Some(dir))]
  }

  function FixturesSteps(dir: string): seq<Step> {
    [Run(LoadFixtures, Many([FixturesLoad]), Some(dir))]
  }

  function ServerSteps(dir: string): seq<Step> {
    [Run(StartServer, Many([ServerRun]), Some(dir))]
  }

  /** The optional steps a set of confirmations switches on. */
  function OptionalSteps(dir: string, yes: Confirmations): seq<Step> {
    Gate(yes.assets, AssetsSteps(dir)) + Gate(yes.sqlite, SqliteSteps(dir))
    + Gate(yes.fixtures, FixturesSteps(dir)) + Gate(yes.server, ServerSteps(dir))
  }

  /** The steps every run that passes the destination check goes through. */
  function CoreSteps(composer: string, dir: string): seq<Step> {
    [ Run(Install, Many([CreateProject(composer, dir)]), None),
      Edit(ComposerFile), Edit(DummyName), Edit(ClassNames),
      Run(DumpAutoload, Single(DumpAutoloadOptimized(composer)), Some(dir)) ]
  }

  /** The install step runs the one `create-project` command for the folder, from the working directory. */
  lemma InstallStepLine(flags: ConsoleFlags, composer: string, dir: string)
    ensures var step := CoreSteps(composer, dir)[0];
      && step.Run? && step.cwd == None
      && StepLine(flags, step) == composer + " create-project sylius/plugin-skeleton " + dir + FlagSuffix(flags)
  {
    CommandLineOfOne(flags, ShellText(CreateProject(composer, dir)));
  }

  /** Dump-autoload is handed a single command, not a list, and runs inside the folder. */
  lemma DumpAutoloadStepLine(flags: ConsoleFlags, composer: string, dir: string)
    ensures var step := CoreSteps(composer, dir)[4];
      && step.Run? && step.cwd == Some(dir)
      && StepLine(flags, step) == composer + " dump-autoload --optimize" + FlagSuffix(flags)
  {
    CommandLineOfOne(flags, ShellText(DumpAutoloadOptimized(composer)));
  }

  /**
   * The database step runs inside the folder and joins its two commands
   * with ` && `, each with the flag suffix: the schema is created only
   * once the database has been.
   */
  lemma DatabaseStepLine(flags: ConsoleFlags, dir: string)
    ensures var step := SqliteSteps(dir)[1];
      && step.Run? && step.cwd == Some(dir)
      && StepLine(flags, step)
         == ShellText(DatabaseCreate) + FlagSuffix(flags) + " && " + ShellText(SchemaCreate) + FlagSuffix(flags)
  {
    var first, second := ShellText(DatabaseCreate), ShellText(SchemaCreate);
    assert CommandsText(SqliteSteps(dir)[1].commands) == Many([first] + [second]);
    CommandLineOfMany(flags, first, [second]);
    CommandLineOfOne(flags, second);
  }

  /** Every step of a run that reaches the end, in order. */
  function FullTrace(force: bool, composer: string, dir: string, yes: Confirmations): seq<Step> {
    Gate(!force, [CheckDestination(dir)]) + CoreSteps(composer, dir) + OptionalSteps(dir, yes)
    + [Ready(dir)]
  }

  predicate StrictlyOrdered(trace: seq<Step>) {
    forall i, j :: 0 <= i < j < |trace| ==> Rank(trace[i]) < Rank(trace[j])
  }

  /** Each step is ranked below the next one. */
  predicate Increasing(trace: seq<Step>)
    decreases |trace|
  {
    |trace| <= 1 || (Rank(trace[0]) < Rank(trace[1]) && Increasing(trace[1..]))
  }

  /** Every step of `trace` has a rank between `lo` and `hi`. */
  predicate RanksIn(trace: seq<Step>, lo: nat, hi: nat)
    decreases |trace|
  {
    trace == [] || (lo <= Rank(trace[0]) <= hi && RanksIn(trace[1..], lo, hi))
  }

  /** Ranks that go up from each step to the next go up along the whole trace. */
  lemma {:induction false} IncreasingIsStrict(trace: seq<Step>, lo: nat, hi: nat)
    requires Increasing(trace) && RanksIn(trace, lo, hi)
    ensures StrictlyOrdered(trace)
    ensures forall i :: 0 <= i < |trace| ==> lo <= Rank(trace[i]) <= hi
    decreases |trace|
  {
    if trace != [] {
      var rest := trace[1..];
      IncreasingIsStrict(rest, lo, hi);
      forall j | 1 <= j < |trace| ensures Rank(trace[0]) < Rank(trace[j]) {
        if j > 1 {
          assert rest[0] == trace[1] && rest[j - 1] == trace[j];
        }
      }
      forall i, j | 0 <= i < j < |trace| ensures Rank(trace[i]) < Rank(trace[j]) {
        if i > 0 {
          assert rest[i - 1] == trace[i] && rest[j - 1] == trace[j];
        }
      }
      forall i | 1 <= i < |trace| ensures lo <= Rank(trace[i]) <= hi {
        assert rest[i - 1] == trace[i];
      }
    }
  }

  /** Two increasing traces whose ranks do not overlap make an increasing trace when joined. */
  lemma {:induction false} OrderedConcat(a: seq<Step>, b: seq<Step>, lo: nat, mid: nat, next: nat, hi: nat)
    requires lo <= mid < next <= hi
    requires Increasing(a) && Increasing(b)
    requires RanksIn(a, lo, mid) && RanksIn(b, next, hi)
    ensures Increasing(a + b) && RanksIn(a + b, lo, hi)
    decreases |a|
  {
    if a == [] {
      assert a + b == b;
      Widen(b, next, hi, lo);
    } else {
      assert (a + b)[1..] == a[1..] + b;
      OrderedConcat(a[1..], b, lo, mid, next, hi);
      if |a| == 1 {
        assert (a + b)[0] == a[0];
        if b != [] {
          assert (a + b)[1] == b[0];
        }
      } else {
        assert (a + b)[0] == a[0] && (a + b)[1] == a[1];
      }
    }
  }

  /** Rank bounds can be loosened. */
  lemma {:induction false} Widen(trace: seq<Step>, lo: nat, hi: nat, lower: nat)
    requires RanksIn(trace, lo, hi) && lower <= lo
    ensures RanksIn(trace, lower, hi)
    decreases |trace|
  {
    if trace != [] {
      Widen(trace[1..], lo, hi, lower);
    }
  }

  /** One step is increasing and has its own rank. */
  lemma OneStep(step: Step)
    ensures Increasing([step]) && RanksIn([step], Rank(step), Rank(step))
  {
    assert [step][1..] == [];
  }

  /** A gate keeps the order and the ranks of what it guards. */
  lemma GateOrdered(yes: bool, steps: seq<Step>, lo: nat, hi: nat)
    requires Increasing(steps) && RanksIn(steps, lo, hi)
    ensures Increasing(Gate(yes, steps)) && RanksIn(Gate(yes, steps), lo, hi)
  {
  }

  /** A gate carries out the tasks of what it guards, or none. */
  lemma GateTasks(yes: bool, steps: seq<Step>)
    ensures Tasks(Gate(yes, steps)) == if yes then Tasks(steps) else {}
  {
  }

  /** Four traces whose rank ranges follow one another make one increasing trace. */
  lemma OrderedFour(a: seq<Step>, b: seq<Step>, c: seq<Step>, d: seq<Step>,
                    alo: nat, ahi: nat, blo: nat, bhi: nat, clo: nat, chi: nat, dlo: nat, dhi: nat)
    requires alo <= ahi < blo <= bhi < clo <= chi < dlo <= dhi
    requires Increasing(a) && Increasing(b) && Increasing(c) && Increasing(d)
    requires RanksIn(a, alo, ahi) && RanksIn(b, blo, bhi) && RanksIn(c, clo, chi) && RanksIn(d, dlo, dhi)
    ensures Increasing(a + b + c + d) && RanksIn(a + b + c + d, alo, dhi)
  {
    OrderedConcat(a, b, alo, ahi, blo, bhi);
    OrderedThen(a + b, c, d, alo, bhi, clo, chi, dlo, dhi);
  }

  /** An increasing trace followed by two more whose rank ranges follow it is increasing. */
  lemma OrderedThen(ab: seq<Step>, c: seq<Step>, d: seq<Step>, lo: nat, bhi: nat, clo: nat, chi: nat, dlo: nat, dhi: nat)
    requires lo <= bhi < clo <= chi < dlo <= dhi
    requires Increasing(ab) && Increasing(c) && Increasing(d)
    requires RanksIn(ab, lo, bhi) && RanksIn(c, clo, chi) && RanksIn(d, dlo, dhi)
    ensures Increasing(ab + c + d) && RanksIn(ab + c + d, lo, dhi)
  {
    OrderedConcat(ab, c, lo, bhi, clo, chi);
    OrderedConcat(ab + c, d, lo, chi, dlo, dhi);
  }

  /** The tasks of four traces joined are the tasks of each. */
  lemma TasksFour(a: seq<Step>, b: seq<Step>, c: seq<Step>, d: seq<Step>)
    ensures Tasks(a + b + c + d) == Tasks(a) + Tasks(b) + Tasks(c) + Tasks(d)
  {
    TasksConcat(a, b);
    TasksConcat(a + b, c);
    TasksConcat(a + b + c, d);
  }

  /** The SQLite steps: the settings edit, then the database commands. */
  lemma SqliteStepsOrdered(dir: string)
    ensures Increasing(SqliteSteps(dir)) && RanksIn(SqliteSteps(dir), 7, 8)
    ensures Tasks(SqliteSteps(dir)) == {SqliteEnv, CreateDatabase}
  {
    var steps := SqliteSteps(dir);
    assert steps[1..] == [steps[1]] && [steps[1]][1..] == [];
    assert TaskOf(steps[0]) == Some(SqliteEnv) && TaskOf(steps[1]) == Some(CreateDatabase);
    forall t | t in Tasks(steps) ensures t in {SqliteEnv, CreateDatabase} {
      var i :| 0 <= i < |steps| && TaskOf(steps[i]) == Some(t);
    }
  }

  /** Each gated optional part: its rank range and its tasks. */
  lemma OptionalPartsOrdered(dir: string, yes: Confirmations)
    ensures Increasing(Gate(yes.assets, AssetsSteps(dir))) && RanksIn(Gate(yes.assets, AssetsSteps(dir)), 6, 6)
    ensures Increasing(Gate(yes.sqlite, SqliteSteps(dir))) && RanksIn(Gate(yes.sqlite, SqliteSteps(dir)), 7, 8)
    ensures Increasing(Gate(yes.fixtures, FixturesSteps(dir))) && RanksIn(Gate(yes.fixtures, FixturesSteps(dir)), 9, 9)
    ensures Increasing(Gate(yes.server, ServerSteps(dir))) && RanksIn(Gate(yes.server, ServerSteps(dir)), 10, 10)
  {
    OneStep(AssetsSteps(dir)[0]);
    SqliteStepsOrdered(dir);
    OneStep(FixturesSteps(dir)[0]);
    OneStep(ServerSteps(dir)[0]);
    GateOrdered(yes.assets, AssetsSteps(dir), 6, 6);
    GateOrdered(yes.sqlite, SqliteSteps(dir), 7, 8);
    GateOrdered(yes.fixtures, FixturesSteps(dir), 9, 9);
    GateOrdered(yes.server, ServerSteps(dir), 10, 10);
  }

  /** The optional steps run in the fixed order, each one ranked after dump-autoload. */
  lemma OptionalStepsOrdered(dir: string, yes: Confirmations)
    ensures Increasing(OptionalSteps(dir, yes)) && RanksIn(OptionalSteps(dir, yes), 6, 10)
  {
    OptionalPartsOrdered(dir, yes);
    OrderedFour(Gate(yes.assets, AssetsSteps(dir)), Gate(yes.sqlite, SqliteSteps(dir)),
                Gate(yes.fixtures, FixturesSteps(dir)), Gate(yes.server, ServerSteps(dir)), 6, 6, 7, 8, 9, 9, 10, 10);
  }

  /** The fixed steps run in order. */
  lemma CoreStepsOrdered(composer: string, dir: string)
    ensures Increasing(CoreSteps(composer, dir)) && RanksIn(CoreSteps(composer, dir), 1, 5)
  {
    var core := CoreSteps(composer, dir);
    var s0, s1, s2 := [core[0]], [core[1]], core[2..];
    assert core == s0 + s1 + s2;
    OneStep(core[0]);
    OneStep(core[1]);
    CoreTailOrdered(core[2..], core[2], core[3], core[4]);
    OrderedConcat(s0, s1, 1, 1, 2, 2);
    OrderedConcat(s0 + s1, s2, 1, 2, 3, 5);
  }

  /** The three steps after the manifest rewrite run in order. */
  lemma CoreTailOrdered(tail: seq<Step>, a: Step, b: Step, c: Step)
    requires tail == [a, b, c] && Rank(a) == 3 && Rank(b) == 4 && Rank(c) == 5
    ensures Increasing(tail) && RanksIn(tail, 3, 5)
  {
    assert [c][1..] == [];
    assert Increasing([c]) && RanksIn([c], 3, 5);
    assert [b, c][1..] == [c];
    assert Increasing([b, c]) && RanksIn([b, c], 3, 5);
    assert tail[1..] == [b, c];
  }

  /** The fixed steps carry out the five fixed tasks. */
  lemma CoreStepsTasks(composer: string, dir: string)
    ensures Tasks(CoreSteps(composer, dir)) == {Install, ComposerFile, DummyName, ClassNames, DumpAutoload}
  {
    var core := CoreSteps(composer, dir);
    forall t | t in Tasks(core) ensures t in {Install, ComposerFile, DummyName, ClassNames, DumpAutoload} {
      var i :| 0 <= i < |core| && TaskOf(core[i]) == Some(t);
    }
    assert TaskOf(core[0]) == Some(Install);
    assert TaskOf(core[1]) == Some(ComposerFile);
    assert TaskOf(core[2]) == Some(DummyName);
    assert TaskOf(core[3]) == Some(ClassNames);
    assert TaskOf(core[4]) == Some(DumpAutoload);
  }

  /** The four parts of a full run: the gated check, the fixed steps, the optional steps and the ready message. */
  lemma FullTraceParts(force: bool, composer: string, dir: string, yes: Confirmations)
    ensures FullTrace(force, composer, dir, yes)
            == Gate(!force, [CheckDestination(dir)]) + CoreSteps(composer, dir) + OptionalSteps(dir, yes)
               + [Ready(dir)]
  {
  }

  /** A full run's ranks go up from each step to the next, from 0 to 11. */
  lemma FullTraceIncreasing(force: bool, composer: string, dir: string, yes: Confirmations)
    ensures Increasing(FullTrace(force, composer, dir, yes)) && RanksIn(FullTrace(force, composer, dir, yes), 0, 11)
  {
    OneStep(CheckDestination(dir));
    GateOrdered(!force, [CheckDestination(dir)], 0, 0);
    CoreStepsOrdered(composer, dir);
    OptionalStepsOrdered(dir, yes);
    OneStep(Ready(dir));
    OrderedFour(Gate(!force, [CheckDestination(dir)]), CoreSteps(composer, dir), OptionalSteps(dir, yes),
                [Ready(dir)], 0, 0, 1, 5, 6, 10, 11, 11);
    FullTraceParts(force, composer, dir, yes);
  }

  /**
   * A run that reaches the end goes through the steps in the fixed order:
   * the destination check first exactly when `--force` is not given, then
   * install, the three customisations, dump-autoload, the confirmed
   * optional steps, and the ready message last.
   */
  lemma FullTraceOrdered(force: bool, composer: string, dir: string, yes: Confirmations)
    ensures var trace := FullTrace(force, composer, dir, yes);
      && StrictlyOrdered(trace)
      && (trace[0] == CheckDestination(dir) <==> !force)
      && (forall i :: 0 < i < |trace| ==> !trace[i].CheckDestination?)
      && trace[|trace| - 1] == Ready(dir)
  {
    var trace := FullTrace(force, composer, dir, yes);
    FullTraceIncreasing(force, composer, dir, yes);
    IncreasingIsStrict(trace, 0, 11);
    FullTraceEnds(force, composer, dir, yes);
    forall i | 0 < i < |trace| ensures !trace[i].CheckDestination? {
      assert Rank(trace[0]) < Rank(trace[i]);
    }
  }

  /** The first step of a full run is the check, or install under `--force`; the last is the ready message. */
  lemma FullTraceEnds(force: bool, composer: string, dir: string, yes: Confirmations)
    ensures var trace := FullTrace(force, composer, dir, yes);
      && |trace| > 1
      && trace[0] == (if force then Run(Install, Many([CreateProject(composer, dir)]), None) else CheckDestination(dir))
      && trace[|trace| - 1] == Ready(dir)
  {
    var check, core, optional, ready :=
      Gate(!force, [CheckDestination(dir)]), CoreSteps(composer, dir), OptionalSteps(dir, yes), [Ready(dir)];
    FullTraceParts(force, composer, dir, yes);
    var trace := check + core + optional + ready;
    assert trace[0] == (check + core)[0];
    assert trace == (check + core + optional) + ready;
  }

  /** The tasks carried out are the five fixed ones and each optional one whose question was answered yes. */
  lemma FullTraceTasks(force: bool, composer: string, dir: string, yes: Confirmations)
    ensures Tasks(FullTrace(force, composer, dir, yes))
            == {Install, ComposerFile, DummyName, ClassNames, DumpAutoload}
               + (if yes.assets then {BuildAssets} else {}) + (if yes.sqlite then {SqliteEnv, CreateDatabase} else {})
               + (if yes.fixtures then {LoadFixtures} else {}) + (if yes.server then {StartServer} else {})
  {
    FullTraceParts(force, composer, dir, yes);
    TasksFour(Gate(!force, [CheckDestination(dir)]), CoreSteps(composer, dir), OptionalSteps(dir, yes),
              [Ready(dir)]);
    TasksOne(CheckDestination(dir));
    GateTasks(!force, [CheckDestination(dir)]);
    TasksOne(Ready(dir));
    CoreStepsTasks(composer, dir);
    OptionalTasks(dir, yes);
  }

  /** The tasks of the optional steps: those whose question was answered yes. */
  lemma OptionalTasks(dir: string, yes: Confirmations)
    ensures Tasks(OptionalSteps(dir, yes))
            == (if yes.assets then {BuildAssets} else {}) + (if yes.sqlite then {SqliteEnv, CreateDatabase} else {})
               + (if yes.fixtures then {LoadFixtures} else {}) + (if yes.server then {StartServer} else {})
  {
    TasksFour(Gate(yes.assets, AssetsSteps(dir)), Gate(yes.sqlite, SqliteSteps(dir)),
              Gate(yes.fixtures, FixturesSteps(dir)), Gate(yes.server, ServerSteps(dir)));
    TasksOne(AssetsSteps(dir)[0]);
    SqliteStepsOrdered(dir);
    TasksOne(FixturesSteps(dir)[0]);
    TasksOne(ServerSteps(dir)[0]);
    GateTasks(yes.assets, AssetsSteps(dir));
    GateTasks(yes.sqlite, SqliteSteps(dir));
    GateTasks(yes.fixtures, FixturesSteps(dir));
    GateTasks(yes.server, ServerSteps(dir));
  }

  // ----- the command object -----

  predicate IsPrefix(a: seq<Step>, b: seq<Step>) {
    |a| <= |b| && b[..|a|] == a
  }

  /** The plugin folder after the three customisations, before any optional step. */
  function Customized(written: map<string, string>, dir: string, ns: string, order: seq<string>): map<string, string>
    requires IsListing(order, RenameScope(written, dir))
  {
    RenamePass(ContentPass(written, dir, ns), order, PlainPluginName(dir))
  }

  /**
   * `files` is the downloaded template `installed` after the three
   * customisations: `composer.json` decoded to an object and rewritten with
   * `fields` and `authors`, then the content pass and the rename pass.
   */
  ghost predicate SkeletonCustomized(installed: map<string, string>, files: map<string, string>, codec: JsonCodec,
                                     dir: string, ns: string, order: seq<string>,
                                     fields: ManifestFields, authors: Option<seq<Author>>)
  {
    var path := ManifestPath(dir);
    && path in installed && IsObject(codec.decode(installed[path]))
    && exists out ::
         && ManifestRewritten(codec.decode(installed[path]).value.fields, out, fields, authors, ns)
         && IsListing(order, RenameScope(installed[path := codec.encode(JObject(out))], dir))
         && files == Customized(installed[path := codec.encode(JObject(out))], dir, ns, order)
  }

  /** The plugin folder after a successful run: the customised template, then the SQLite settings when asked for. */
  ghost predicate RunCompleted(installed: map<string, string>, files: map<string, string>, codec: JsonCodec,
                               dir: string, ns: string, order: seq<string>, fields: ManifestFields,
                               authors: Option<seq<Author>>, sqlite: bool, templateNewer: bool)
  {
    exists customized ::
      && SkeletonCustomized(installed, customized, codec, dir, ns, order, fields, authors)
      && OptionalApplied(customized, files, dir, sqlite, templateNewer)
  }

  /** The files after the optional steps: the SQLite settings prepared when asked for, nothing else changed. */
  ghost predicate OptionalApplied(before: map<string, string>, after: map<string, string>, dir: string,
                                  sqlite: bool, templateNewer: bool)
  {
    if sqlite then EnvTemplatePath(dir) in before && after == EnvPrepared(before, dir, templateNewer)
    else after == before
  }

  /** The customised template, then the SQLite settings when asked for, is a completed run. */
  lemma CompletedAfterOptionalSteps(installed: map<string, string>, customized: map<string, string>,
                                    files: map<string, string>, codec: JsonCodec, dir: string, ns: string,
                                    order: seq<string>, fields: ManifestFields, authors: Option<seq<Author>>,
                                    sqlite: bool, templateNewer: bool)
    requires SkeletonCustomized(installed, customized, codec, dir, ns, order, fields, authors)
    requires OptionalApplied(customized, files, dir, sqlite, templateNewer)
    ensures RunCompleted(installed, files, codec, dir, ns, order, fields, authors, sqlite, templateNewer)
  {
  }

  /**
   * The three customisations keep the settings template where the download
   * put it, and create none: the manifest is another file, and the rename
   * pass only lists and produces `.php` files.
   */
  lemma CustomizingKeepsEnvTemplate(written: map<string, string>, dir: string, ns: string, order: seq<string>)
    requires IsListing(order, RenameScope(written, dir))
    ensures EnvTemplatePath(dir) in Customized(written, dir, ns, order) <==> EnvTemplatePath(dir) in written
  {
    var template := EnvTemplatePath(dir);
    var plain := PlainPluginName(dir);
    EnvTemplateIsNotPhp(dir);
    forall k | 0 <= k < |order| ensures order[k] != template && RenameTarget(order[k], plain) != template {
      assert order[k] in Listed(order);
      RenameScopeIsPhp(dir, order[k]);
      RenameTargetIsPhp(order[k], plain);
    }
    RenamePassKeepsPath(ContentPass(written, dir, ns), order, plain, template);
  }

  /** The settings template is in the customised skeleton exactly when the download left it. */
  lemma CustomizedSkeletonKeepsEnvTemplate(installed: map<string, string>, files: map<string, string>,
                                           codec: JsonCodec, dir: string, ns: string, order: seq<string>,
                                           fields: ManifestFields, authors: Option<seq<Author>>)
    requires SkeletonCustomized(installed, files, codec, dir, ns, order, fields, authors)
    ensures EnvTemplatePath(dir) in files <==> EnvTemplatePath(dir) in installed
  {
    var path := ManifestPath(dir);
    var out :| && ManifestRewritten(codec.decode(installed[path]).value.fields, out, fields, authors, ns)
               && IsListing(order, RenameScope(installed[path := codec.encode(JObject(out))], dir))
               && files == Customized(installed[path := codec.encode(JObject(out))], dir, ns, order);
    CustomizingKeepsEnvTemplate(installed[path := codec.encode(JObject(out))], dir, ns, order);
    ManifestIsNotEnvTemplate(dir);
  }

  /** `new:plugin`: the options, and the vendor and plugin names that `interact` fills in. */
  class SkeletonCommand {
    const edition: Edition
    const platform: Platform
    var vendor: string
    var name: string
    var options: Options

    constructor (edition: Edition, platform: Platform, options: Options)
      ensures this.edition == edition && this.platform == platform && this.options == options
      ensures vendor == "" && name == ""
    {
      this.edition := edition;
      this.platform := platform;
      this.options := options;
      vendor := "";
      name := "";
    }

    /**
     * `interact`: the package name comes from its option when that is
     * given and from the prompt otherwise, and must pass
     * `validatePluginName`; the vendor and plugin names are taken from it.
     * The author, description and license are asked for only when their
     * options are not given; the author answer goes through the validator
     * of the prompt.
     */
    method Interact(answers: Answers) returns (r: Result<(), Failure>)
      modifies this
      ensures options.force == old(options.force) && options.flags == old(options.flags)
      ensures var chosen := if IsGiven(old(options.packageName)) then old(options.packageName).value else answers.packageName;
        && (ValidatePluginName(chosen).Err? ==> r == Err(BadPackageName(ValidatePluginName(chosen).error)))
        && (r.Ok? ==> IsValidPluginName(chosen) && options.packageName == Some(chosen) && SplitsAs(chosen, vendor, name))
        && (ValidatePluginName(chosen).Ok? && !IsGiven(old(options.author)) ==>
              if answers.author.None? then r == Err(NullAuthorAnswer)
              else if AuthorAnswer(edition, platform, answers.author.value).Err? then
                r == Err(BadAuthor(AuthorAnswer(edition, platform, answers.author.value).error))
              else r.Ok? && options.author == AuthorAnswer(edition, platform, answers.author.value).value)
        && (ValidatePluginName(chosen).Ok? && IsGiven(old(options.author)) ==> r.Ok?)
      ensures r.Ok? && IsGiven(old(options.author)) ==> options.author == old(options.author)
      ensures r.Ok? ==> options.description == if IsGiven(old(options.description)) then old(options.description) else answers.description
      ensures r.Ok? ==> options.license == if IsGiven(old(options.license)) then old(options.license) else answers.license
    {
      var packageName := if IsGiven(options.packageName) then options.packageName.value else answers.packageName;
      var checked := ValidatePluginName(packageName);
      if checked.Err? {
        return Err(BadPackageName(checked.error));
      }
      options := options.(packageName := Some(packageName));
      ghost var v, n :| SplitsAs(packageName, v, n) && StartsWith(n, PluginPrefix) && EndsWith(n, PluginSuffix);
      var parts := ExtractVendorAndPluginName(packageName);
      vendor, name := parts[0], parts[1];

      if !IsGiven(options.author) {
        if answers.author.None? {
          return Err(NullAuthorAnswer);
        }
        var author := AuthorAnswer(edition, platform, answers.author.value);
        if author.Err? {
          return Err(BadAuthor(author.error));
        }
        options := options.(author := author.value);
      }
      if !IsGiven(options.description) {
        options := options.(description := answers.description);
      }
      if !IsGiven(options.license) {
        options := options.(license := answers.license);
      }
      r := Ok(());
    }

    /** The values the manifest receives, as the options hold them after `interact`. */
    function Fields(): ManifestFields
      reads this
    {
      ManifestFields(options.packageName, options.author, options.description, options.license)
    }

    /**
     * `customizeSkeleton` on the downloaded files: the manifest, then the
     * content pass, then the rename pass. A manifest that cannot be
     * rewritten stops it.
     */
    static method CustomizeSkeleton(edition: Edition, platform: Platform, fields: ManifestFields,
                                    ws: Workspace, codec: JsonCodec, installed: map<string, string>,
                                    dir: string, ns: string, order: seq<string>)
      returns (r: Result<(), Failure>)
      requires IsListing(order, RenameScope(installed, dir))
      modifies ws
      ensures r.Err? <==> ComposerFileFailure(edition, platform, codec, installed, dir, fields).Some?
      ensures r.Err? ==>
          && r == Err(ManifestFailed(ComposerFileFailure(edition, platform, codec, installed, dir, fields).value))
          && ws.files == installed
      ensures r.Ok? ==>
          SkeletonCustomized(installed, ws.files, codec, dir, ns, order, fields, AuthorsGiven(edition, platform, fields.author))
    {
      ws.files := installed;
      var written := ws.CustomizeComposerFile(edition, platform, codec, dir, fields, ns);
      if written.Err? {
        return Err(ManifestFailed(written.error));
      }
      ghost var afterManifest := ws.files;
      RenameScopeOfSamePaths(installed, afterManifest, dir);
      ws.ChangeDummyPluginName(dir, ns);
      RenameScopeOfSamePaths(afterManifest, ws.files, dir);
      ws.RenameClasses(dir, order);
      r := Ok(());
    }

    /**
     * The four confirmation questions of `execute`, each step run when its
     * question was answered yes. Only a missing settings template stops
     * it; `reached` counts the optional steps begun.
     */
    static method RunOptionalSteps(ws: Workspace, dir: string, templateNewer: bool, yes: Confirmations)
      returns (reached: nat, r: Result<(), Failure>)
      modifies ws
      ensures reached <= |OptionalSteps(dir, yes)|
      ensures r.Ok? <==> reached == |OptionalSteps(dir, yes)|
      ensures r.Err? <==> yes.sqlite && EnvTemplatePath(dir) !in old(ws.files)
      ensures r.Err? ==> 0 < reached && OptionalSteps(dir, yes)[reached - 1] == Edit(SqliteEnv)
      ensures r.Err? ==>
          r == Err(EnvTemplateMissing(CopyFailedMessage(EnvTemplatePath(dir)))) && ws.files == old(ws.files)
      ensures r.Ok? ==> OptionalApplied(old(ws.files), ws.files, dir, yes.sqlite, templateNewer)
    {
      var optional := OptionalSteps(dir, yes);
      reached := |Gate(yes.assets, AssetsSteps(dir))|;
      if yes.sqlite {
        reached := reached + 1;
        assert optional[reached - 1] == Edit(SqliteEnv);
        var prepared := ws.PrepareSqliteEnv(dir, templateNewer);
        if prepared.Err? {
          return reached, Err(EnvTemplateMissing(prepared.error));
        }
      }
      reached := |optional|;
      r := Ok(());
    }

    /**
     * `execute`: check the destination unless `--force` is given, install
     * the template, customise it, dump the autoloader, run the optional
     * steps whose question was answered yes, and report the folder. The
     * trace is the steps begun, the failing one last. The files the
     * download leaves behind, the paths that exist beforehand, the
     * manifest codec, the listing order of the rename pass and the age of
     * the settings template are parameters; no process result is one.
     */
    method Execute(ws: Workspace, fs: FileSystem, pharInWorkingDirectory: bool, phpBinary: string,
                   codec: JsonCodec, installed: map<string, string>, order: seq<string>,
                   templateNewer: bool, yes: Confirmations)
      returns (trace: seq<Step>, r: Result<(), Failure>)
      requires IsListing(order, RenameScope(installed, FolderName(vendor, name)))
      modifies ws
      ensures var dir := FolderName(vendor, name);
        var full := FullTrace(options.force, FindComposer(pharInWorkingDirectory, phpBinary), dir, yes);
        && IsPrefix(trace, full)
        && (r.Ok? <==> trace == full)
        && (r.Err? && r.error.DestinationExists? <==> !options.force && VerifyDestination(edition, fs, dir).Err?)
        && (r.Err? && r.error.DestinationExists? ==>
              trace == [CheckDestination(dir)] && r.error.message == DestinationExistsMessage(edition))
        && (r.Err? ==> trace != [] && trace[|trace| - 1] in {CheckDestination(dir), Edit(ComposerFile), Edit(SqliteEnv)})
      ensures var dir := FolderName(vendor, name);
        var failure := ComposerFileFailure(edition, platform, codec, installed, dir, Fields());
        && (r.Ok? <==>
              && (options.force || VerifyDestination(edition, fs, dir).Ok?)
              && failure.None?
              && (yes.sqlite ==> EnvTemplatePath(dir) in installed))
        && (r.Err? && r.error.DestinationExists? ==> ws.files == old(ws.files))
        && ((options.force || VerifyDestination(edition, fs, dir).Ok?) && failure.Some? ==>
              r == Err(ManifestFailed(failure.value)) && ws.files == installed)
        && (r.Err? && r.error.EnvTemplateMissing? ==>
              SkeletonCustomized(installed, ws.files, codec, dir, Namespace(vendor, name), order, Fields(),
                                 AuthorsGiven(edition, platform, Fields().author)))
      ensures r.Ok? ==>
          RunCompleted(installed, ws.files, codec, FolderName(vendor, name), Namespace(vendor, name), order, Fields(),
                       AuthorsGiven(edition, platform, Fields().author), yes.sqlite, templateNewer)
    {
      // As in `RunAfterInstall`, the contracts of the steps carry the proof.
      hide *;
      var dir := FolderName(vendor, name);
      var ns := Namespace(vendor, name);
      var composer := FindComposer(pharInWorkingDirectory, phpBinary);
      var full := FullTrace(options.force, composer, dir, yes);
      var checks := if options.force then 0 else 1;
      if !options.force {
        var checked := VerifyDestination(edition, fs, dir);
        if checked.Err? {
          DestinationTrace(composer, dir, yes);
          return full[..1], Err(DestinationExists(checked.error));
        }
      }
      var fields := Fields();
      var begun, built := RunAfterInstall(edition, platform, fields, ws, codec, installed, dir, ns, order, templateNewer, yes);
      assert unchanged(this);
      RunTrace(options.force, composer, dir, yes, begun, built);
      trace := if built.Ok? then full else full[..checks + 1 + begun];
      r := built;
    }

    /** A run stopped by the destination check has begun that check and nothing else. */
    static lemma DestinationTrace(composer: string, dir: string, yes: Confirmations)
      ensures var full := FullTrace(false, composer, dir, yes);
        && |full| > 1 && full[..1] == [CheckDestination(dir)]
        && IsPrefix(full[..1], full) && full[..1] != full
    {
      FullTraceLayout(false, composer, dir, yes);
    }

    /**
     * The trace of a run past the destination check: the whole run when the
     * steps after the download succeed, and otherwise the steps up to the
     * one that failed, which is the manifest rewrite or the settings edit.
     */
    static lemma RunTrace(force: bool, composer: string, dir: string, yes: Confirmations, begun: nat, r: Result<(), Failure>)
      requires r.Ok? <==> begun == 4 + |OptionalSteps(dir, yes)|
      requires r.Err? ==>
          || (r.error.ManifestFailed? && begun == 1)
          || (r.error.EnvTemplateMissing? && 4 < begun <= 4 + |OptionalSteps(dir, yes)|
              && OptionalSteps(dir, yes)[begun - 5] == Edit(SqliteEnv))
      ensures var full := FullTrace(force, composer, dir, yes);
        var checks := if force then 0 else 1;
        && checks + 1 + begun <= |full|
        && var trace := if r.Ok? then full else full[..checks + 1 + begun];
        && IsPrefix(trace, full)
        && (r.Ok? <==> trace == full)
        && (r.Err? ==> trace != [] && trace[|trace| - 1] in {Edit(ComposerFile), Edit(SqliteEnv)})
    {
      FullTraceLayout(force, composer, dir, yes);
    }

    /**
     * The steps of `execute` after the download: the three customisations,
     * the autoloader dump and the optional steps. `begun` counts the steps
     * begun, the failing one included.
     */
    static method RunAfterInstall(edition: Edition, platform: Platform, fields: ManifestFields,
                                  ws: Workspace, codec: JsonCodec, installed: map<string, string>, dir: string, ns: string,
                                  order: seq<string>, templateNewer: bool, yes: Confirmations)
      returns (begun: nat, r: Result<(), Failure>)
      requires IsListing(order, RenameScope(installed, dir))
      modifies ws
      ensures r.Ok? <==> begun == 4 + |OptionalSteps(dir, yes)|
      ensures r.Err? ==>
          || (r.error.ManifestFailed? && begun == 1)
          || (r.error.EnvTemplateMissing? && 4 < begun <= 4 + |OptionalSteps(dir, yes)|
              && OptionalSteps(dir, yes)[begun - 5] == Edit(SqliteEnv))
      ensures var failure := ComposerFileFailure(edition, platform, codec, installed, dir, fields);
        && (r.Ok? <==> failure.None? && (yes.sqlite ==> EnvTemplatePath(dir) in installed))
        && (failure.Some? ==> r == Err(ManifestFailed(failure.value)) && ws.files == installed)
      ensures r.Err? && r.error.EnvTemplateMissing? ==>
          && r.error.message == CopyFailedMessage(EnvTemplatePath(dir))
          && SkeletonCustomized(installed, ws.files, codec, dir, ns, order, fields,
                                AuthorsGiven(edition, platform, fields.author))
      ensures r.Ok? ==>
          RunCompleted(installed, ws.files, codec, dir, ns, order, fields,
                       AuthorsGiven(edition, platform, fields.author), yes.sqlite, templateNewer)
    {
      // The run follows from the contracts of its steps alone: no definition is unfolded.
      hide *;
      ghost var authors := AuthorsGiven(edition, platform, fields.author);
      var customized := CustomizeSkeleton(edition, platform, fields, ws, codec, installed, dir, ns, order);
      if customized.Err? {
        return 1, customized;
      }
      ghost var afterCustomizing := ws.files;
      CustomizedSkeletonKeepsEnvTemplate(installed, afterCustomizing, codec, dir, ns, order, fields, authors);
      var reached, ran := RunOptionalSteps(ws, dir, templateNewer, yes);
      begun, r := 4 + reached, ran;
      if r.Ok? {
        CompletedAfterOptionalSteps(installed, afterCustomizing, ws.files, codec, dir, ns, order, fields,
                                    authors, yes.sqlite, templateNewer);
      }
    }

    /** Where each part of a full run sits in its trace. */
    static lemma FullTraceLayout(force: bool, composer: string, dir: string, yes: Confirmations)
      ensures var full := FullTrace(force, composer, dir, yes);
        var checks := if force then 0 else 1;
        var optional := OptionalSteps(dir, yes);
        && |full| == checks + 5 + |optional| + 1
        && (!force ==> full[0] == CheckDestination(dir))
        && full[checks + 1] == Edit(ComposerFile)
        && (forall i :: 0 <= i < |optional| ==> full[checks + 5 + i] == optional[i])
    {
      var check := Gate(!force, [CheckDestination(dir)]);
      var full := FullTrace(force, composer, dir, yes);
      assert full == check + CoreSteps(composer, dir) + OptionalSteps(dir, yes) + [Ready(dir)];
    }
  }
}
