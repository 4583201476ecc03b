/**
 * Loading a chart from a path and the program's own structural lint of it
 * (charts/charts.go). Helm's decoders, Helm's `Validate` and the file system
 * are oracles: records of functions that answer each call with a value or an
 * error.
 */
module Charts {
  import opened Outcomes
  import opened GoStrings

  datatype Metadata = Metadata(name: string, version: string, description: string)

  /** A template file of a decoded chart. */
  datatype File = File(name: string, data: seq<byte>)

  /**
   * The parts of a decoded Helm chart the program reads: the metadata pointer
   * (nil when absent) and the template slice (nil, empty or populated).
   */
  datatype Chart = Chart(metadata: Option<Metadata>, templates: Option<seq<File>>)

  const NO_METADATA := "chart has no metadata"
  const NO_NAME := "chart has no name"
  const NO_VERSION := "chart has no version"
  const NO_TEMPLATES := "chart has no templates"

  /** The structural invariant the lint enforces, as one conjunction. */
  predicate WellFormed(c: Chart)
  {
    && c.metadata.Some?
    && c.metadata.value.name != ""
    && c.metadata.value.version != ""
    && c.templates.Some?
    && |c.templates.value| > 0
  }

  /**
   * lintChart: five guards checked in order, the first failing one giving its
   * fixed message.
   */
  function LintChart(c: Chart): (r: Outcome)
    ensures r == Pass <==> WellFormed(c)
    ensures r == Fail(NO_METADATA) <==> c.metadata.None?
    ensures r == Fail(NO_NAME) <==> c.metadata.Some? && c.metadata.value.name == ""
    ensures r == Fail(NO_VERSION) <==>
      c.metadata.Some? && c.metadata.value.name != "" && c.metadata.value.version == ""
    ensures r == Fail(NO_TEMPLATES) <==>
      && c.metadata.Some? && c.metadata.value.name != "" && c.metadata.value.version != ""
      && (c.templates.None? || |c.templates.value| == 0)
  {
    if c.metadata.None? then Fail(NO_METADATA)
    else if c.metadata.value.name == "" then Fail(NO_NAME)
    else if c.metadata.value.version == "" then Fail(NO_VERSION)
    else if c.templates.None? then Fail(NO_TEMPLATES)
    else if |c.templates.value| == 0 then Fail(NO_TEMPLATES)
    else Pass
  }

  /** One validation rule: a condition on the chart and the message given when it fails. */
  datatype Rule = Rule(holds: Chart -> bool, message: string)

  /** The lint as an ordered rule list; later rules may assume the earlier ones held. */
  const LINT_RULES: seq<Rule> := [
    Rule((c: Chart) => c.metadata.Some?, NO_METADATA),
    Rule((c: Chart) => c.metadata.None? || c.metadata.value.name != "", NO_NAME),
    Rule((c: Chart) => c.metadata.None? || c.metadata.value.version != "", NO_VERSION),
    Rule((c: Chart) => c.templates.Some?, NO_TEMPLATES),
    Rule((c: Chart) => c.templates.None? || |c.templates.value| != 0, NO_TEMPLATES)
  ]

  /** The message of the first rule the chart breaks, or Pass when it breaks none. */
  function FirstBroken(rules: seq<Rule>, c: Chart): Outcome
  {
    if rules == [] then Pass
    else if !rules[0].holds(c) then Fail(rules[0].message)
    else FirstBroken(rules[1..], c)
  }

  /** lintChart reports exactly the first broken rule of the ordered list: no aggregation, first failure wins. */
  lemma LintIsFirstBrokenRule(c: Chart)
    ensures LintChart(c) == FirstBroken(LINT_RULES, c)
  {
    assert LINT_RULES[4..][1..] == [];
    assert FirstBroken(LINT_RULES[4..], c) == LintTail(c);
    assert LINT_RULES[3..][1..] == LINT_RULES[4..];
    assert FirstBroken(LINT_RULES[3..], c) == if c.templates.None? then Fail(NO_TEMPLATES) else LintTail(c);
    assert LINT_RULES[2..][1..] == LINT_RULES[3..];
    assert FirstBroken(LINT_RULES[2..], c) ==
      if c.metadata.Some? && c.metadata.value.version == "" then Fail(NO_VERSION) else FirstBroken(LINT_RULES[3..], c);
    assert LINT_RULES[1..][1..] == LINT_RULES[2..];
    assert FirstBroken(LINT_RULES[1..], c) ==
      if c.metadata.Some? && c.metadata.value.name == "" then Fail(NO_NAME) else FirstBroken(LINT_RULES[2..], c);
    assert FirstBroken(LINT_RULES, c) ==
      if c.metadata.None? then Fail(NO_METADATA) else FirstBroken(LINT_RULES[1..], c);
  }

  /** The last rule on its own. */
  function LintTail(c: Chart): Outcome
  {
    if c.templates.None? || |c.templates.value| != 0 then Pass else Fail(NO_TEMPLATES)
  }

  /** With no metadata the lint reports exactly that, whatever the templates are. */
  lemma NoMetadataWhateverTemplates(c: Chart, ts: Option<seq<File>>)
    requires c.metadata.None?
    ensures LintChart(c) == LintChart(c.(templates := ts)) == Fail(NO_METADATA)
  {
  }

  /** A nil template slice and an empty one are rejected alike. */
  lemma NilAndEmptyTemplatesAlike(c: Chart)
    ensures LintChart(c.(templates := None)) == LintChart(c.(templates := Some([])))
    ensures LintChart(c.(templates := None)) != Pass
  {
  }

  /** What os.Stat and ioutil.ReadDir report of an entry: its base name and whether it is a directory. */
  datatype FileInfo = FileInfo(name: string, isDir: bool)

  /** A named byte blob handed to Helm's multi-file loader (loader.BufferedFile). */
  datatype BufferedFile = BufferedFile(name: string, data: seq<byte>)

  /** The file-system calls LoadChart makes. */
  datatype FileSystem = FileSystem(
    stat: string -> Result<FileInfo>,          // os.Stat
    readDir: string -> Result<seq<FileInfo>>,  // ioutil.ReadDir: the listing, in its own order
    readFile: string -> Result<seq<byte>>,     // ioutil.ReadFile
    open: string -> Outcome,                   // os.Open
    readAll: string -> Result<seq<byte>>,      // ioutil.ReadAll of the file os.Open opened
    join: (string, string) -> string)          // filepath.Join

  /** Helm's decoders and its own structural check of a decoded chart. */
  datatype ChartLoader = ChartLoader(
    loadFiles: seq<BufferedFile> -> Result<Chart>,  // loader.LoadFiles
    loadArchive: seq<byte> -> Result<Chart>,        // loader.LoadArchive
    validate: Chart -> Outcome)                     // (*chart.Chart).Validate

  /** Reading one directory entry, by its base name joined to the directory. */
  function ReadEntry(fs: FileSystem, dir: string, e: FileInfo): Result<seq<byte>>
  {
    fs.readFile(fs.join(dir, e.name))
  }

  /** The entries of a listing that are not directories, in listing order. */
  function NonDirs(entries: seq<FileInfo>): (r: seq<FileInfo>)
    ensures |r| <= |entries|
    ensures forall i :: 0 <= i < |r| ==> !r[i].isDir
  {
    if entries == [] then []
    else
      var last := entries[|entries| - 1];
      NonDirs(entries[..|entries| - 1]) + (if last.isDir then [] else [last])
  }

  /** An entry is kept exactly when it is in the listing and is not a directory. */
  lemma {:induction false} NonDirsKeepsExactlyFiles(entries: seq<FileInfo>, e: FileInfo)
    ensures e in NonDirs(entries) <==> e in entries && !e.isDir
  {
    if entries != [] {
      var init := entries[..|entries| - 1];
      var last := entries[|entries| - 1];
      NonDirsKeepsExactlyFiles(init, e);
      assert entries == init + [last];
    }
  }

  /**
   * The files the directory loop collects from a listing: every non-directory
   * entry, read in order, named by its base name; the first read error ends it.
   */
  function ReadEntries(fs: FileSystem, dir: string, entries: seq<FileInfo>): (r: Result<seq<BufferedFile>>)
    ensures r.Ok? ==> |r.value| == |NonDirs(entries)|
  {
    if entries == [] then Ok([])
    else
      var last := entries[|entries| - 1];
      match ReadEntries(fs, dir, entries[..|entries| - 1])
      case Err(e) => Err(e)
      case Ok(acc) =>
        if last.isDir then Ok(acc)
        else
          match ReadEntry(fs, dir, last)
          case Err(e) => Err(e)
          case Ok(data) => Ok(acc + [BufferedFile(last.name, data)])
  }

  /** Once a prefix of the listing has failed, the whole listing fails with the same error. */
  lemma {:induction false} ReadEntriesErrorPersists(fs: FileSystem, dir: string, entries: seq<FileInfo>, i: nat)
    requires i <= |entries|
    requires ReadEntries(fs, dir, entries[..i]).Err?
    ensures ReadEntries(fs, dir, entries) == ReadEntries(fs, dir, entries[..i])
    decreases |entries| - i
  {
    if i < |entries| {
      var init := entries[..|entries| - 1];
      assert init[..i] == entries[..i];
      ReadEntriesErrorPersists(fs, dir, init, i);
    } else {
      assert entries[..i] == entries;
    }
  }

  /** Every entry of `s` can be read. */
  predicate AllReadable(fs: FileSystem, dir: string, s: seq<FileInfo>)
  {
    forall i :: 0 <= i < |s| ==> ReadEntry(fs, dir, s[i]).Ok?
  }

  lemma AllReadableConcat(fs: FileSystem, dir: string, a: seq<FileInfo>, b: seq<FileInfo>)
    ensures AllReadable(fs, dir, a + b) <==> AllReadable(fs, dir, a) && AllReadable(fs, dir, b)
  {
    if AllReadable(fs, dir, a) && AllReadable(fs, dir, b) {
      forall i | 0 <= i < |a + b| ensures ReadEntry(fs, dir, (a + b)[i]).Ok? {
        if i >= |a| { assert (a + b)[i] == b[i - |a|]; }
      }
    }
    if AllReadable(fs, dir, a + b) {
      forall i | 0 <= i < |a| ensures ReadEntry(fs, dir, a[i]).Ok? {
        assert (a + b)[i] == a[i];
      }
      forall i | 0 <= i < |b| ensures ReadEntry(fs, dir, b[i]).Ok? {
        assert (a + b)[|a| + i] == b[i];
      }
    }
  }

  /** The loop succeeds exactly when every non-directory entry can be read. */
  lemma {:induction false} ReadEntriesOkIff(fs: FileSystem, dir: string, entries: seq<FileInfo>)
    ensures ReadEntries(fs, dir, entries).Ok? <==>
      forall i :: 0 <= i < |NonDirs(entries)| ==> ReadEntry(fs, dir, NonDirs(entries)[i]).Ok?
  {
    if entries != [] {
      var init := entries[..|entries| - 1];
      var last := entries[|entries| - 1];
      ReadEntriesOkIff(fs, dir, init);
      var tail := if last.isDir then [] else [last];
      assert NonDirs(entries) == NonDirs(init) + tail;
      AllReadableConcat(fs, dir, NonDirs(init), tail);
      assert AllReadable(fs, dir, NonDirs(init)) <==> ReadEntries(fs, dir, init).Ok?;
      if !last.isDir {
        assert tail[0] == last;
      }
      assert AllReadable(fs, dir, tail) <==> last.isDir || ReadEntry(fs, dir, last).Ok?;
    }
  }

  /**
   * On success the loop hands over the non-directory entries in listing order,
   * each named by its base name and carrying what reading it gave.
   */
  lemma {:induction false} ReadEntriesContents(fs: FileSystem, dir: string, entries: seq<FileInfo>, files: seq<BufferedFile>)
    requires ReadEntries(fs, dir, entries) == Ok(files)
    ensures |files| == |NonDirs(entries)|
    ensures forall i :: 0 <= i < |files| ==>
      files[i].name == NonDirs(entries)[i].name && ReadEntry(fs, dir, NonDirs(entries)[i]) == Ok(files[i].data)
  {
    if entries != [] {
      var init := entries[..|entries| - 1];
      var last := entries[|entries| - 1];
      var acc := ReadEntries(fs, dir, init).value;
      ReadEntriesContents(fs, dir, init, acc);
      var nd, nd0 := NonDirs(entries), NonDirs(init);
      assert forall i :: 0 <= i < |nd0| ==> nd[i] == nd0[i];
      if !last.isDir {
        assert nd[|nd0|] == last;
      }
    }
  }

  /** The first unreadable non-directory entry decides the error the loop returns. */
  lemma {:induction false} ReadEntriesFirstFailure(fs: FileSystem, dir: string, entries: seq<FileInfo>, k: nat)
    requires k < |NonDirs(entries)|
    requires ReadEntry(fs, dir, NonDirs(entries)[k]).Err?
    requires forall j :: 0 <= j < k ==> ReadEntry(fs, dir, NonDirs(entries)[j]).Ok?
    ensures ReadEntries(fs, dir, entries) == Err(ReadEntry(fs, dir, NonDirs(entries)[k]).error)
  {
    var init := entries[..|entries| - 1];
    var last := entries[|entries| - 1];
    var nd, nd0 := NonDirs(entries), NonDirs(init);
    assert forall i :: 0 <= i < |nd0| ==> nd[i] == nd0[i];
    if k < |nd0| {
      ReadEntriesFirstFailure(fs, dir, init, k);
    } else {
      assert !last.isDir && nd[k] == last;
      ReadEntriesOkIff(fs, dir, init);
    }
  }

  /** Reading only touches the non-directory entries: what a sub-directory's path would read never matters. */
  lemma {:induction false} ReadEntriesSkipsDirectories(
    fs: FileSystem, dir: string, entries: seq<FileInfo>, readFile: string -> Result<seq<byte>>)
    requires forall i :: 0 <= i < |NonDirs(entries)| ==>
      readFile(fs.join(dir, NonDirs(entries)[i].name)) == ReadEntry(fs, dir, NonDirs(entries)[i])
    ensures ReadEntries(fs.(readFile := readFile), dir, entries) == ReadEntries(fs, dir, entries)
  {
    if entries != [] {
      var init := entries[..|entries| - 1];
      var nd, nd0 := NonDirs(entries), NonDirs(init);
      var last := entries[|entries| - 1];
      assert forall i :: 0 <= i < |nd0| ==> nd[i] == nd0[i];
      ReadEntriesSkipsDirectories(fs, dir, init, readFile);
      if !last.isDir {
        assert nd[|nd0|] == last;
      }
    }
  }

  /** Stat, then the directory or the archive branch, then the decoder. */
  function Decode(fs: FileSystem, loader: ChartLoader, chartPath: string): (r: Result<Chart>)
    ensures fs.stat(chartPath).Err? ==> r == Err(fs.stat(chartPath).error)
    ensures (fs.stat(chartPath).Ok? && fs.stat(chartPath).value.isDir && fs.readDir(chartPath).Err?) ==>
      r == Err(fs.readDir(chartPath).error)
    ensures (fs.stat(chartPath).Ok? && fs.stat(chartPath).value.isDir && fs.readDir(chartPath).Ok?
      && ReadEntries(fs, chartPath, fs.readDir(chartPath).value).Err?) ==>
      r == Err(ReadEntries(fs, chartPath, fs.readDir(chartPath).value).error)
    ensures (fs.stat(chartPath).Ok? && fs.stat(chartPath).value.isDir && fs.readDir(chartPath).Ok?
      && ReadEntries(fs, chartPath, fs.readDir(chartPath).value).Ok?) ==>
      r == loader.loadFiles(ReadEntries(fs, chartPath, fs.readDir(chartPath).value).value)
    ensures fs.stat(chartPath).Ok? && !fs.stat(chartPath).value.isDir ==>
      r == (if fs.open(chartPath).Fail? then Err(fs.open(chartPath).error)
            else if fs.readAll(chartPath).Err? then Err(fs.readAll(chartPath).error)
            else loader.loadArchive(fs.readAll(chartPath).value))
  {
    match fs.stat(chartPath)
    case Err(e) => Err(e)
    case Ok(info) =>
      if info.isDir then
        (match fs.readDir(chartPath)
         case Err(e) => Err(e)
         case Ok(entries) =>
           match ReadEntries(fs, chartPath, entries)
           case Err(e) => Err(e)
           case Ok(files) => loader.loadFiles(files))
      else
        match fs.open(chartPath)
        case Fail(e) => Err(e)
        case Pass =>
          match fs.readAll(chartPath)
          case Err(e) => Err(e)
          case Ok(content) => loader.loadArchive(content)
  }

  /** The whole of LoadChart as a value: decode, then Helm's Validate, then the lint. */
  function LoadChartSpec(fs: FileSystem, loader: ChartLoader, chartPath: string): (r: Result<Chart>)
    ensures r.Ok? ==> Decode(fs, loader, chartPath) == r && loader.validate(r.value) == Pass && WellFormed(r.value)
    ensures Decode(fs, loader, chartPath).Err? ==> r == Decode(fs, loader, chartPath)
    ensures (fs.stat(chartPath).Ok? && fs.stat(chartPath).value.isDir && fs.readDir(chartPath).Err?) ==>
      r == Err(fs.readDir(chartPath).error)
  {
    match Decode(fs, loader, chartPath)
    case Err(e) => Err(e)
    case Ok(c) =>
      match loader.validate(c)
      case Fail(e) => Err(e)
      case Pass =>
        match LintChart(c)
        case Fail(e) => Err(e)
        case Pass => Ok(c)
  }

  /** LoadChart: stat the path, load a directory's files or read an archive, decode, validate, lint. */
  method LoadChart(fs: FileSystem, loader: ChartLoader, chartPath: string) returns (r: Result<Chart>)
    ensures r == LoadChartSpec(fs, loader, chartPath)
  {
    var fileInfo := fs.stat(chartPath);
    if fileInfo.Err? {
      return Err(fileInfo.error);
    }
    var chart: Chart;
    if fileInfo.value.isDir {
      var files := fs.readDir(chartPath);
      if files.Err? {
        return Err(files.error);
      }
      var entries := files.value;
      var dirFiles: seq<BufferedFile> := [];
      for i := 0 to |entries|
        invariant ReadEntries(fs, chartPath, entries[..i]) == Ok(dirFiles)
      {
        var file := entries[i];
        assert entries[..i + 1][..i] == entries[..i];
        if file.isDir {
          continue;
        }
        var path := fs.join(chartPath, file.name);
        var content := fs.readFile(path);
        if content.Err? {
          ReadEntriesErrorPersists(fs, chartPath, entries, i + 1);
          return Err(content.error);
        }
        dirFiles := dirFiles + [BufferedFile(file.name, content.value)];
      }
      assert entries[..|entries|] == entries;
      var loaded := loader.loadFiles(dirFiles);
      if loaded.Err? {
        return Err(loaded.error);
      }
      chart := loaded.value;
    } else {
      var handle := fs.open(chartPath);
      if handle.Fail? {
        return Err(handle.error);
      }
      var content := fs.readAll(chartPath);
      if content.Err? {
        return Err(content.error);
      }
      var loaded := loader.loadArchive(content.value);
      if loaded.Err? {
        return Err(loaded.error);
      }
      chart := loaded.value;
    }
    var valid := loader.validate(chart);
    if valid.Fail? {
      return Err(valid.error);
    }
    var lint := LintChart(chart);
    if lint.Fail? {
      return Err(lint.error);
    }
    return Ok(chart);
  }

  /** A path that cannot be stat'ed fails with the stat error, whatever the decoder would have done. */
  lemma StatFailureStopsLoad(fs: FileSystem, loader: ChartLoader, other: ChartLoader, chartPath: string)
    requires fs.stat(chartPath).Err?
    ensures LoadChartSpec(fs, loader, chartPath) == LoadChartSpec(fs, other, chartPath) == Err(fs.stat(chartPath).error)
  {
  }

  /**
   * In the directory branch the multi-file decoder sees exactly the
   * non-directory entries of the listing, in order, under their base names.
   */
  lemma DirectoryBranchDecodesNonDirs(fs: FileSystem, loader: ChartLoader, chartPath: string, files: seq<BufferedFile>)
    requires fs.stat(chartPath).Ok? && fs.stat(chartPath).value.isDir
    requires fs.readDir(chartPath).Ok?
    requires ReadEntries(fs, chartPath, fs.readDir(chartPath).value) == Ok(files)
    ensures Decode(fs, loader, chartPath) == loader.loadFiles(files)
    ensures |files| == |NonDirs(fs.readDir(chartPath).value)|
    ensures forall i :: 0 <= i < |files| ==> files[i].name == NonDirs(fs.readDir(chartPath).value)[i].name
  {
    ReadEntriesContents(fs, chartPath, fs.readDir(chartPath).value, files);
  }

  /**
   * A read failure on a non-directory entry aborts the load with that error
   * (the first such entry in listing order), before any decoding.
   */
  lemma DirectoryReadFailureAborts(fs: FileSystem, loader: ChartLoader, other: ChartLoader, chartPath: string, k: nat)
    requires fs.stat(chartPath).Ok? && fs.stat(chartPath).value.isDir
    requires fs.readDir(chartPath).Ok?
    requires k < |NonDirs(fs.readDir(chartPath).value)|
    requires ReadEntry(fs, chartPath, NonDirs(fs.readDir(chartPath).value)[k]).Err?
    requires forall j :: 0 <= j < k ==> ReadEntry(fs, chartPath, NonDirs(fs.readDir(chartPath).value)[j]).Ok?
    ensures LoadChartSpec(fs, loader, chartPath) == LoadChartSpec(fs, other, chartPath)
         == Err(ReadEntry(fs, chartPath, NonDirs(fs.readDir(chartPath).value)[k]).error)
  {
    ReadEntriesFirstFailure(fs, chartPath, fs.readDir(chartPath).value, k);
  }

  /** Only the chart path itself is listed: sub-directories are never descended into. */
  lemma OnlyTheChartDirectoryIsListed(fs: FileSystem, loader: ChartLoader, chartPath: string, readDir: string -> Result<seq<FileInfo>>)
    requires readDir(chartPath) == fs.readDir(chartPath)
    ensures LoadChartSpec(fs.(readDir := readDir), loader, chartPath) == LoadChartSpec(fs, loader, chartPath)
  {
    if fs.stat(chartPath).Ok? && fs.stat(chartPath).value.isDir && fs.readDir(chartPath).Ok? {
      var entries := fs.readDir(chartPath).value;
      ReadEntriesIgnoresListing(fs, chartPath, entries, readDir);
    }
  }

  lemma {:induction false} ReadEntriesIgnoresListing(fs: FileSystem, dir: string, entries: seq<FileInfo>, readDir: string -> Result<seq<FileInfo>>)
    ensures ReadEntries(fs.(readDir := readDir), dir, entries) == ReadEntries(fs, dir, entries)
  {
    if entries != [] {
      ReadEntriesIgnoresListing(fs, dir, entries[..|entries| - 1], readDir);
    }
  }

  /**
   * The load succeeds exactly when decoding succeeds, Helm's Validate passes
   * and the lint passes; the chart returned is then the decoded one, unchanged.
   */
  lemma LoadChartOkIff(fs: FileSystem, loader: ChartLoader, chartPath: string, c: Chart)
    ensures LoadChartSpec(fs, loader, chartPath) == Ok(c) <==>
      Decode(fs, loader, chartPath) == Ok(c) && loader.validate(c) == Pass && WellFormed(c)
  {
  }

  /** A decode error or a Validate error is returned as it is, before the lint runs. */
  lemma DecodeAndValidateErrorsComeFirst(fs: FileSystem, loader: ChartLoader, chartPath: string)
    ensures Decode(fs, loader, chartPath).Err? ==>
      LoadChartSpec(fs, loader, chartPath) == Err(Decode(fs, loader, chartPath).error)
    ensures Decode(fs, loader, chartPath).Ok? && loader.validate(Decode(fs, loader, chartPath).value).Fail? ==>
      LoadChartSpec(fs, loader, chartPath) == Err(loader.validate(Decode(fs, loader, chartPath).value).error)
  {
  }

  /** A decoded, validated chart that fails the lint yields the lint's message and no chart. */
  lemma LintErrorYieldsNoChart(fs: FileSystem, loader: ChartLoader, chartPath: string)
    requires Decode(fs, loader, chartPath).Ok?
    requires loader.validate(Decode(fs, loader, chartPath).value) == Pass
    requires !WellFormed(Decode(fs, loader, chartPath).value)
    ensures LoadChartSpec(fs, loader, chartPath) == Err(LintChart(Decode(fs, loader, chartPath).value).error)
  {
  }

  /** Every chart LoadChart returns has metadata with a non-empty name and version and at least one template. */
  lemma LoadedChartIsWellFormed(fs: FileSystem, loader: ChartLoader, chartPath: string)
    requires LoadChartSpec(fs, loader, chartPath).Ok?
    ensures WellFormed(LoadChartSpec(fs, loader, chartPath).value)
  {
  }
}
