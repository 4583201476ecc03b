/**
 * The cluster smoke test (k8s/k8stesting/k8stesting.go): build a client from a
 * fixed kubeconfig, load the chart by its path suffix, install it under a
 * timestamped release name, check that exactly one release came up deployed,
 * and uninstall it. client-go, Helm's actions and loaders, and the archive
 * reading are oracles.
 */
module K8sTesting {
  import opened Outcomes
  import opened GoStrings
  import opened Charts

  const KUBECONFIG_PATH := "/tmp/helmit_kubeconfig"
  const RELEASE_NAMESPACE := "helmit-test-release"
  const RELEASE_NAME_PREFIX := "helmit-test-release-"
  const STATUS_DEPLOYED := "deployed"
  /** Go's time.Minute, in nanoseconds (a time.Duration). */
  const MINUTE: nat := 60 * 1000000000

  /** How a chart source is decoded, chosen by the suffix of its path. */
  datatype SourceKind = Archive | Yaml | Generic

  function Classify(chartPath: string): (k: SourceKind)
    ensures k == Archive <==> HasSuffix(chartPath, ".tgz") || HasSuffix(chartPath, ".tar.gz")
    ensures k == Yaml <==>
      !(HasSuffix(chartPath, ".tgz") || HasSuffix(chartPath, ".tar.gz")) &&
      (HasSuffix(chartPath, ".yaml") || HasSuffix(chartPath, ".yml"))
  {
    if HasSuffix(chartPath, ".tgz") || HasSuffix(chartPath, ".tar.gz") then Archive
    else if HasSuffix(chartPath, ".yaml") || HasSuffix(chartPath, ".yml") then Yaml
    else Generic
  }

  /** Whatever precedes them, the archive suffixes pick the archive branch and the YAML suffixes the YAML branch. */
  lemma ClassifyBySuffix(stem: string)
    ensures Classify(stem + ".tgz") == Archive
    ensures Classify(stem + ".tar.gz") == Archive
    ensures Classify(stem + ".yaml") == Yaml
    ensures Classify(stem + ".yml") == Yaml
  {
    HasSuffixOfConcat(stem, ".tgz");
    HasSuffixOfConcat(stem, ".tar.gz");
    HasSuffixOfConcat(stem, ".yaml");
    HasSuffixOfConcat(stem, ".yml");
    var y, m := stem + ".yaml", stem + ".yml";
    assert y[|y| - 1] == 'l' && m[|m| - 1] == 'l';
  }

  /** An opaque stand-in for client-go's *rest.Config. */
  type RestConfig = string

  datatype Release = Release(name: string, status: string)

  /** The fields the smoke test sets on Helm's install action before running it. */
  datatype InstallRequest = InstallRequest(
    namespace: string, releaseName: string, createNamespace: bool, timeout: nat)

  /** The client-go and Helm action calls. */
  datatype Kube = Kube(
    buildConfig: string -> Result<RestConfig>,    // clientcmd.BuildConfigFromFlags("", path)
    newClient: RestConfig -> Outcome,             // kubernetes.NewForConfig
    initAction: string -> Outcome,                // action.Configuration.Init, given HELM_DRIVER
    install: (Chart, InstallRequest) -> Outcome,  // Install.Run
    list: string -> Result<seq<Release>>,         // List.Run with the given filter
    uninstall: string -> Outcome)                 // Uninstall.Run

  /** The calls that turn a chart path into a decoded chart. */
  datatype Sources = Sources(
    openFile: string -> Outcome,              // os.Open
    gzipReader: string -> Outcome,            // gzip.NewReader over the opened file
    readTar: string -> Result<seq<byte>>,     // io.Copy of the tar stream into a buffer
    loadArchive: seq<byte> -> Result<Chart>,  // loader.LoadArchive
    load: string -> Result<Chart>)            // loader.Load

  /** The config, client and action-configuration stages. */
  function Connect(k: Kube, helmDriver: string): (r: Outcome)
    ensures r == Pass <==>
      k.buildConfig(KUBECONFIG_PATH).Ok? && k.newClient(k.buildConfig(KUBECONFIG_PATH).value) == Pass
      && k.initAction(helmDriver) == Pass
    ensures k.buildConfig(KUBECONFIG_PATH).Err? ==>
      r == Fail("error building config from flags: " + k.buildConfig(KUBECONFIG_PATH).error)
    ensures (k.buildConfig(KUBECONFIG_PATH).Ok? && k.newClient(k.buildConfig(KUBECONFIG_PATH).value).Fail?) ==>
      r == Fail("error creating kubernetes client: " + k.newClient(k.buildConfig(KUBECONFIG_PATH).value).error)
    ensures (k.buildConfig(KUBECONFIG_PATH).Ok? && k.newClient(k.buildConfig(KUBECONFIG_PATH).value) == Pass
      && k.initAction(helmDriver).Fail?) ==>
      r == Fail("error initializing action configuration: " + k.initAction(helmDriver).error)
  {
    match k.buildConfig(KUBECONFIG_PATH)
    case Err(e) => Fail("error building config from flags: " + e)
    case Ok(cfg) =>
      match k.newClient(cfg)
      case Fail(e) => Fail("error creating kubernetes client: " + e)
      case Pass =>
        match k.initAction(helmDriver)
        case Fail(e) => Fail("error initializing action configuration: " + e)
        case Pass => Pass
  }

  /** The chart load, dispatched on the path suffix. */
  function LoadForTest(s: Sources, chartPath: string): (r: Result<Chart>)
    ensures r.Ok? ==> match Classify(chartPath)
      case Archive => s.openFile(chartPath) == Pass && s.gzipReader(chartPath) == Pass
        && s.readTar(chartPath).Ok? && r == s.loadArchive(s.readTar(chartPath).value)
      case Yaml => r == s.loadArchive(ToBytes(chartPath))
      case Generic => r == s.load(chartPath)
  {
    match Classify(chartPath)
    case Archive =>
      (match s.openFile(chartPath)
       case Fail(e) => Err("error opening chart file: " + e)
       case Pass =>
         match s.gzipReader(chartPath)
         case Fail(e) => Err("error creating gzip reader: " + e)
         case Pass =>
           match s.readTar(chartPath)
           case Err(e) => Err("error reading chart bytes: " + e)
           case Ok(buf) =>
             match s.loadArchive(buf)
             case Err(e) => Err("error loading chart archive: " + e)
             case Ok(c) => Ok(c))
    case Yaml =>
      (match s.loadArchive(ToBytes(chartPath))
       case Err(e) => Err("error loading chart yaml: " + e)
       case Ok(c) => Ok(c))
    case Generic =>
      match s.load(chartPath)
      case Err(e) => Err("error loading chart: " + e)
      case Ok(c) => Ok(c)
  }

  /** Each branch of the load succeeds exactly when all of its stages do, and the first failing stage's
      error is returned under that stage's context message. */
  lemma LoadStageErrors(s: Sources, chartPath: string)
    ensures Classify(chartPath) == Archive ==>
      (s.openFile(chartPath).Fail? ==>
         LoadForTest(s, chartPath) == Err("error opening chart file: " + s.openFile(chartPath).error))
      && (s.openFile(chartPath) == Pass && s.gzipReader(chartPath).Fail? ==>
         LoadForTest(s, chartPath) == Err("error creating gzip reader: " + s.gzipReader(chartPath).error))
      && (s.openFile(chartPath) == Pass && s.gzipReader(chartPath) == Pass && s.readTar(chartPath).Err? ==>
         LoadForTest(s, chartPath) == Err("error reading chart bytes: " + s.readTar(chartPath).error))
      && (s.openFile(chartPath) == Pass && s.gzipReader(chartPath) == Pass && s.readTar(chartPath).Ok?
          && s.loadArchive(s.readTar(chartPath).value).Err? ==>
         LoadForTest(s, chartPath) ==
           Err("error loading chart archive: " + s.loadArchive(s.readTar(chartPath).value).error))
      && (s.openFile(chartPath) == Pass && s.gzipReader(chartPath) == Pass && s.readTar(chartPath).Ok?
          && s.loadArchive(s.readTar(chartPath).value).Ok? ==>
         LoadForTest(s, chartPath) == Ok(s.loadArchive(s.readTar(chartPath).value).value))
    ensures Classify(chartPath) == Yaml ==>
      (s.loadArchive(ToBytes(chartPath)).Err? ==>
         LoadForTest(s, chartPath) == Err("error loading chart yaml: " + s.loadArchive(ToBytes(chartPath)).error))
      && (s.loadArchive(ToBytes(chartPath)).Ok? ==>
         LoadForTest(s, chartPath) == Ok(s.loadArchive(ToBytes(chartPath)).value))
    ensures Classify(chartPath) == Generic ==>
      (s.load(chartPath).Err? ==> LoadForTest(s, chartPath) == Err("error loading chart: " + s.load(chartPath).error))
      && (s.load(chartPath).Ok? ==> LoadForTest(s, chartPath) == Ok(s.load(chartPath).value))
  {
  }

  /** The YAML branch decodes the bytes of the path string itself; the file is never opened or read. */
  lemma YamlBranchDecodesPathBytes(s: Sources, chartPath: string, files: Sources)
    requires Classify(chartPath) == Yaml
    ensures LoadForTest(s, chartPath).Ok? <==> s.loadArchive(ToBytes(chartPath)).Ok?
    ensures LoadForTest(s, chartPath).Ok? ==> LoadForTest(s, chartPath).value == s.loadArchive(ToBytes(chartPath)).value
    ensures LoadForTest(s, chartPath) ==
      LoadForTest(files.(loadArchive := s.loadArchive, load := s.load), chartPath)
  {
  }

  function ReleaseName(now: string): string
  {
    RELEASE_NAME_PREFIX + now
  }

  /** Distinct timestamps give distinct release names. */
  lemma ReleaseNameInjective(t1: string, t2: string)
    ensures ReleaseName(t1) == ReleaseName(t2) ==> t1 == t2
  {
    if ReleaseName(t1) == ReleaseName(t2) {
      var p := |RELEASE_NAME_PREFIX|;
      assert t1 == ReleaseName(t1)[p..];
      assert t2 == ReleaseName(t2)[p..];
    }
  }

  /** Helm's install action, whose fields the smoke test sets one at a time. */
  class InstallAction {
    var namespace: string
    var releaseName: string
    var createNamespace: bool
    var timeout: nat

    /** action.NewInstall: every field at its zero value. */
    constructor ()
      ensures namespace == "" && releaseName == "" && !createNamespace && timeout == 0
    {
      namespace := "";
      releaseName := "";
      createNamespace := false;
      timeout := 0;
    }

    function Request(): InstallRequest
      reads this
    {
      InstallRequest(namespace, releaseName, createNamespace, timeout)
    }
  }

  /** What the install action is configured with, for a given timestamp. */
  function RequestFor(now: string): (req: InstallRequest)
    ensures req.namespace == RELEASE_NAMESPACE && req.releaseName == ReleaseName(now)
    ensures req.createNamespace && req.timeout == 5 * MINUTE
  {
    InstallRequest(RELEASE_NAMESPACE, ReleaseName(now), true, 5 * MINUTE)
  }

  /** The release check: exactly one release, and it is deployed. */
  function VerifyReleases(releases: seq<Release>): (r: Outcome)
    ensures r == Pass <==> |releases| == 1 && releases[0].status == STATUS_DEPLOYED
    ensures |releases| != 1 ==> r == Fail("expected 1 release, found " + FormatInt(|releases|))
    ensures |releases| == 1 && releases[0].status != STATUS_DEPLOYED ==>
      r == Fail("release not deployed, status: " + releases[0].status)
  {
    if |releases| != 1 then Fail("expected 1 release, found " + FormatInt(|releases|))
    else if releases[0].status != STATUS_DEPLOYED then Fail("release not deployed, status: " + releases[0].status)
    else Pass
  }

  /** Install, list by release name, verify, uninstall; each failure ends the sequence. */
  function Deploy(k: Kube, chart: Chart, req: InstallRequest): (r: Outcome)
    ensures r == Pass <==>
      k.install(chart, req) == Pass && k.list(req.releaseName).Ok?
      && VerifyReleases(k.list(req.releaseName).value) == Pass && k.uninstall(req.releaseName) == Pass
  {
    match k.install(chart, req)
    case Fail(e) => Fail("error installing chart: " + e)
    case Pass =>
      match k.list(req.releaseName)
      case Err(e) => Fail("error listing releases: " + e)
      case Ok(releases) =>
        match VerifyReleases(releases)
        case Fail(e) => Fail(e)
        case Pass =>
          match k.uninstall(req.releaseName)
          case Fail(e) => Fail("error uninstalling chart: " + e)
          case Pass => Pass
  }

  /** TestHelmChart as a value; `now` is the timestamp time.Now() would give, already formatted. */
  function SmokeTest(k: Kube, s: Sources, helmDriver: string, now: string, chartPath: string): (r: Outcome)
    ensures Connect(k, helmDriver).Fail? ==> r == Connect(k, helmDriver)
    ensures Connect(k, helmDriver) == Pass && LoadForTest(s, chartPath).Err? ==>
      r == Fail(LoadForTest(s, chartPath).error)
    ensures Connect(k, helmDriver) == Pass && LoadForTest(s, chartPath).Ok? ==>
      r == Deploy(k, LoadForTest(s, chartPath).value, RequestFor(now))
  {
    match Connect(k, helmDriver)
    case Fail(e) => Fail(e)
    case Pass =>
      match LoadForTest(s, chartPath)
      case Err(e) => Fail(e)
      case Ok(chart) => Deploy(k, chart, RequestFor(now))
  }

  /** TestHelmChart: the stages in order, each returning early on its error. */
  method TestHelmChart(k: Kube, s: Sources, helmDriver: string, now: string, chartPath: string) returns (err: Outcome)
    ensures err == SmokeTest(k, s, helmDriver, now, chartPath)
  {
    var cfg := k.buildConfig(KUBECONFIG_PATH);
    if cfg.Err? {
      return Fail("error building config from flags: " + cfg.error);
    }
    var client := k.newClient(cfg.value);
    if client.Fail? {
      return Fail("error creating kubernetes client: " + client.error);
    }
    var init := k.initAction(helmDriver);
    if init.Fail? {
      return Fail("error initializing action configuration: " + init.error);
    }

    var chart: Chart;
    var kind := Classify(chartPath);
    if kind == Archive {
      var f := s.openFile(chartPath);
      if f.Fail? {
        return Fail("error opening chart file: " + f.error);
      }
      var gzf := s.gzipReader(chartPath);
      if gzf.Fail? {
        return Fail("error creating gzip reader: " + gzf.error);
      }
      var buf := s.readTar(chartPath);
      if buf.Err? {
        return Fail("error reading chart bytes: " + buf.error);
      }
      var loaded := s.loadArchive(buf.value);
      if loaded.Err? {
        return Fail("error loading chart archive: " + loaded.error);
      }
      chart := loaded.value;
    } else if kind == Yaml {
      var loaded := s.loadArchive(ToBytes(chartPath));
      if loaded.Err? {
        return Fail("error loading chart yaml: " + loaded.error);
      }
      chart := loaded.value;
    } else {
      var loaded := s.load(chartPath);
      if loaded.Err? {
        return Fail("error loading chart: " + loaded.error);
      }
      chart := loaded.value;
    }

    var installAction := new InstallAction();
    installAction.namespace := RELEASE_NAMESPACE;
    installAction.releaseName := RELEASE_NAME_PREFIX + now;
    installAction.createNamespace := true;
    installAction.timeout := 5 * MINUTE;

    var installed := k.install(chart, installAction.Request());
    if installed.Fail? {
      return Fail("error installing chart: " + installed.error);
    }

    var releaseList := k.list(installAction.releaseName);
    if releaseList.Err? {
      return Fail("error listing releases: " + releaseList.error);
    }
    if |releaseList.value| != 1 {
      return Fail("expected 1 release, found " + FormatInt(|releaseList.value|));
    }
    if releaseList.value[0].status != STATUS_DEPLOYED {
      return Fail("release not deployed, status: " + releaseList.value[0].status);
    }

    var removed := k.uninstall(installAction.releaseName);
    if removed.Fail? {
      return Fail("error uninstalling chart: " + removed.error);
    }
    return Pass;
  }

  /** A config, client or action-configuration failure is returned before any chart is loaded or installed. */
  lemma ConnectFailureStopsEverything(k: Kube, s: Sources, other: Sources, cluster: Kube, helmDriver: string, now: string, chartPath: string)
    requires Connect(k, helmDriver).Fail?
    ensures SmokeTest(k, s, helmDriver, now, chartPath) == Connect(k, helmDriver)
    ensures SmokeTest(k, s, helmDriver, now, chartPath) ==
      SmokeTest(cluster.(buildConfig := k.buildConfig, newClient := k.newClient, initAction := k.initAction),
                other, helmDriver, now, chartPath)
  {
  }

  /** A load failure is returned as it is, before anything is installed. */
  lemma LoadFailureStopsBeforeInstall(k: Kube, s: Sources, cluster: Kube, helmDriver: string, now: string, chartPath: string)
    requires Connect(k, helmDriver) == Pass
    requires LoadForTest(s, chartPath).Err?
    ensures SmokeTest(k, s, helmDriver, now, chartPath) == Fail(LoadForTest(s, chartPath).error)
    ensures SmokeTest(k, s, helmDriver, now, chartPath) ==
      SmokeTest(cluster.(buildConfig := k.buildConfig, newClient := k.newClient, initAction := k.initAction),
                s, helmDriver, now, chartPath)
  {
  }

  /**
   * Uninstall is reached only when install, listing and both checks have
   * passed: before that its answer never matters and the sequence has failed.
   */
  lemma UninstallOnlyAfterVerification(k: Kube, chart: Chart, req: InstallRequest, uninstall: string -> Outcome)
    requires !(k.install(chart, req) == Pass && k.list(req.releaseName).Ok? && VerifyReleases(k.list(req.releaseName).value) == Pass)
    ensures Deploy(k.(uninstall := uninstall), chart, req) == Deploy(k, chart, req)
    ensures Deploy(k, chart, req).Fail?
  {
  }

  /** A failing install, listing or uninstall is reported with its own context message. */
  lemma LaterStageErrors(k: Kube, chart: Chart, req: InstallRequest)
    ensures k.install(chart, req).Fail? ==>
      Deploy(k, chart, req) == Fail("error installing chart: " + k.install(chart, req).error)
    ensures k.install(chart, req) == Pass && k.list(req.releaseName).Err? ==>
      Deploy(k, chart, req) == Fail("error listing releases: " + k.list(req.releaseName).error)
    ensures (k.install(chart, req) == Pass && k.list(req.releaseName).Ok?
      && VerifyReleases(k.list(req.releaseName).value) == Pass && k.uninstall(req.releaseName).Fail?) ==>
      Deploy(k, chart, req) == Fail("error uninstalling chart: " + k.uninstall(req.releaseName).error)
  {
  }

  /** Verification fails unless the listing holds exactly one release and it is deployed. */
  lemma VerificationNeedsOneDeployedRelease(k: Kube, chart: Chart, req: InstallRequest)
    requires k.install(chart, req) == Pass && k.list(req.releaseName).Ok?
    requires |k.list(req.releaseName).value| != 1 || k.list(req.releaseName).value[0].status != STATUS_DEPLOYED
    ensures Deploy(k, chart, req) == VerifyReleases(k.list(req.releaseName).value)
    ensures Deploy(k, chart, req).Fail?
  {
  }

  /** The smoke test succeeds exactly when every stage, uninstall included, succeeds. */
  lemma SmokeTestPassIff(k: Kube, s: Sources, helmDriver: string, now: string, chartPath: string)
    ensures SmokeTest(k, s, helmDriver, now, chartPath) == Pass <==>
      && k.buildConfig(KUBECONFIG_PATH).Ok?
      && k.newClient(k.buildConfig(KUBECONFIG_PATH).value) == Pass
      && k.initAction(helmDriver) == Pass
      && LoadForTest(s, chartPath).Ok?
      && k.install(LoadForTest(s, chartPath).value, RequestFor(now)) == Pass
      && k.list(ReleaseName(now)).Ok?
      && |k.list(ReleaseName(now)).value| == 1
      && k.list(ReleaseName(now)).value[0].status == STATUS_DEPLOYED
      && k.uninstall(ReleaseName(now)) == Pass
  {
  }
}
