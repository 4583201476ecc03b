/**
 * The command-line entry point (main.go) after flag parsing: which single
 * action the parsed flags select, and what the process then writes and exits
 * with.
 */
module Helmit {
  import opened Outcomes
  import opened Charts
  import opened K8sTesting

  const USAGE := "\nUsage: helmit [flags]\nFlags:\n"
    + "  -c, --chart string          Path to the Helm chart\n"
    + "  -h, --help                  Output usage information\n"
    + "      --inittestenv string    Initialize a test environment with the given kubeconfig file\n"
    + "  -t, --test                  Test the Helm chart after loading"

  /**
   * The parsed flag values, and `setCount`, what flag.NFlag() reports: how many
   * flags appeared on the command line (`-chart=` counts although its value is
   * the default).
   */
  datatype Flags = Flags(chart: string, help: bool, initTestEnv: string, test: bool, setCount: nat)

  datatype Action =
    | PrintUsage
    | FatalNoChart
    | InitTestEnv(kubeconfig: string)
    | TestChart(chartPath: string)
    | LoadAndPrint(chartPath: string)

  /** The dispatch of main: help first, then the chart-path check, then inittestenv, then test, then load-and-print. */
  function SelectAction(f: Flags): (a: Action)
    ensures a == PrintUsage <==> f.help || f.setCount == 0
    ensures a == FatalNoChart <==> !f.help && f.setCount != 0 && f.chart == ""
    ensures a.InitTestEnv? <==> !f.help && f.setCount != 0 && f.chart != "" && f.initTestEnv != ""
    ensures a.TestChart? <==> !f.help && f.setCount != 0 && f.chart != "" && f.initTestEnv == "" && f.test
    ensures a.LoadAndPrint? <==> !f.help && f.setCount != 0 && f.chart != "" && f.initTestEnv == "" && !f.test
    ensures a.InitTestEnv? ==> a.kubeconfig == f.initTestEnv
    ensures a.TestChart? || a.LoadAndPrint? ==> a.chartPath == f.chart
  {
    if f.help || f.setCount == 0 then PrintUsage
    else if f.chart == "" then FatalNoChart
    else if f.initTestEnv != "" then InitTestEnv(f.initTestEnv)
    else if f.test then TestChart(f.chart)
    else LoadAndPrint(f.chart)
  }

  /** With help set the usage is printed, whatever the other flags say. */
  lemma HelpOverridesEverything(f: Flags, chart: string, initTestEnv: string, test: bool, setCount: nat)
    requires f.help
    ensures SelectAction(f) == SelectAction(Flags(chart, true, initTestEnv, test, setCount)) == PrintUsage
  {
  }

  /** A missing chart path is fatal even when a test environment or a test run was asked for. */
  lemma MissingChartIsFatalInEveryMode(f: Flags, initTestEnv: string, test: bool)
    requires SelectAction(f) == FatalNoChart
    ensures SelectAction(f.(initTestEnv := initTestEnv, test := test)) == FatalNoChart
  {
  }

  /** inittestenv wins over test, and test wins over load-and-print. */
  lemma ModePrecedence(f: Flags, kubeconfig: string)
    requires kubeconfig != ""
    ensures SelectAction(f).TestChart? ==> SelectAction(f.(initTestEnv := kubeconfig)) == InitTestEnv(kubeconfig)
    ensures SelectAction(f).LoadAndPrint? ==> SelectAction(f.(test := true)) == TestChart(f.chart)
    ensures SelectAction(f).InitTestEnv? ==> SelectAction(f.(test := !f.test)) == SelectAction(f)
  {
  }

  /** What the process leaves behind: its exit code and the lines it wrote to standard output and standard error. */
  datatype Exit = Exit(code: nat, stdout: seq<string>, stderr: seq<string>)

  /** Everything outside the program: the file system, Helm, the cluster, the environment and the clock. */
  datatype Env = Env(
    fs: FileSystem,
    loader: ChartLoader,
    kube: Kube,
    sources: Sources,
    helmDriver: string,                // os.Getenv("HELM_DRIVER")
    now: string,                       // time.Now() formatted as 20060102150405
    initTestEnv: string -> Outcome)    // k8stestinit.InitTestEnv

  /** log.Fatal / log.Fatalf: the message on standard error, then exit status 1. */
  function Fatal(message: string): Exit
  {
    Exit(1, [], [message])
  }

  /** main, from the parsed flags on. */
  function Run(env: Env, f: Flags): (x: Exit)
    ensures x.code == 0 || x.code == 1
    ensures x.code == 1 <==> x.stderr != []
    ensures x.code == 1 ==> x.stdout == [] && |x.stderr| == 1
  {
    match SelectAction(f)
    case PrintUsage => Exit(0, [USAGE], [])
    case FatalNoChart => Fatal("Error: chart path must be specified")
    case InitTestEnv(kubeconfig) =>
      (match env.initTestEnv(kubeconfig)
       case Fail(e) => Fatal("Failed to initialize test environment: " + e)
       case Pass => Exit(0, ["Test environment initialized."], []))
    case TestChart(chartPath) =>
      (match SmokeTest(env.kube, env.sources, env.helmDriver, env.now, chartPath)
       case Fail(e) => Fatal("Failed to test chart: " + e)
       case Pass => Exit(0, ["Chart tested successfully."], []))
    case LoadAndPrint(chartPath) =>
      match LoadChartSpec(env.fs, env.loader, chartPath)
      case Err(e) => Fatal("Failed to load chart: " + e)
      case Ok(chart) =>
        LoadedChartIsWellFormed(env.fs, env.loader, chartPath);
        var m := chart.metadata.value;
        Exit(0, ["Chart Name: " + m.name, "Chart Description: " + m.description, "Chart Version: " + m.version], [])
  }

  /** The process exits 0 exactly when the selected action succeeded; every failure is a fatal exit. */
  lemma ExitZeroIffActionSucceeded(env: Env, f: Flags)
    ensures Run(env, f).code == 0 <==>
      match SelectAction(f)
      case PrintUsage => true
      case FatalNoChart => false
      case InitTestEnv(kubeconfig) => env.initTestEnv(kubeconfig) == Pass
      case TestChart(chartPath) => SmokeTest(env.kube, env.sources, env.helmDriver, env.now, chartPath) == Pass
      case LoadAndPrint(chartPath) => LoadChartSpec(env.fs, env.loader, chartPath).Ok?
  {
  }

  /** Help, or no flags at all: the usage text and exit status 0, nothing else. */
  lemma UsageExitsZero(env: Env, f: Flags)
    requires f.help || f.setCount == 0
    ensures Run(env, f) == Exit(0, [USAGE], [])
  {
  }

  /**
   * A successful load prints the name, the description and the version, in
   * that order; name and version are never empty.
   */
  lemma LoadAndPrintShowsChart(env: Env, f: Flags)
    requires SelectAction(f).LoadAndPrint?
    requires LoadChartSpec(env.fs, env.loader, f.chart).Ok?
    ensures var c := LoadChartSpec(env.fs, env.loader, f.chart).value;
      && c.metadata.Some?
      && Run(env, f).stdout == ["Chart Name: " + c.metadata.value.name,
                                "Chart Description: " + c.metadata.value.description,
                                "Chart Version: " + c.metadata.value.version]
      && c.metadata.value.name != "" && c.metadata.value.version != ""
  {
    LoadedChartIsWellFormed(env.fs, env.loader, f.chart);
  }

  /** A path that fails to stat is reported as a fatal load failure carrying the stat error. */
  lemma MissingChartPathIsFatal(env: Env, f: Flags)
    requires SelectAction(f).LoadAndPrint?
    requires env.fs.stat(f.chart).Err?
    ensures Run(env, f) == Fatal("Failed to load chart: " + env.fs.stat(f.chart).error)
  {
  }
}
