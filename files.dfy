/**
 * Identification files: the dialog that chooses them and `FileProcessor`, which
 * turns an `.mgf` peak list into an `.mzID` identification file by running the
 * MSFragger search engine and then `idconvert`.
 *
 * The file system, the message boxes and the subprocesses are a `Host`: the
 * model records what the code asks of it (popups, launches, deletions) and
 * takes what the subprocesses do as an input (`Run`).
 */
module Files {
  import opened Wrappers
  import opened Paths

  /** Something the code does to the outside world. */
  datatype Action =
    | Popup(text: string)                            // a modal message box
    | Launch(cwd: Option<string>, argv: seq<string>) // `subprocess.run(argv, cwd=...)`
    | Unlink(path: string)                           // `os.unlink(path)`

  /** What one `subprocess.run` call turned out to do. */
  datatype Run =
    | Exited(code: int, produced: set<string>)  // the program ran, created `produced`, exited with `code`
    | NotLaunched                               // the executable or working directory could not be used (OSError)

  /** The file system and the log of what the program asked of it. */
  class Host {
    var files: set<string>
    var dirs: set<string>
    var log: seq<Action>

    constructor (files: set<string>, dirs: set<string>)
      ensures this.files == files && this.dirs == dirs && log == []
    {
      this.files, this.dirs, log := files, dirs, [];
    }

    /** `os.path.exists`. */
    predicate Exists(p: string)
      reads this
    {
      p in files || p in dirs
    }
  }

  // ----- Messages -----

  const MsPathInvalid := "MSFragger path is not valid"
  const IdPathInvalid := "idconvert path is not valid"
  const ParamsPathInvalid := ".params path is not valid"
  const MsFraggerFailure := "MSFragger failure"
  const IdConvertFailure := "idconvert failure"
  const PepMissing := ".pepXML does not exist"
  const MzidMissing := ".mzid does not exist"

  // ----- Output names -----

  /** `make_pep_path`: every ".mgf" replaced by ".pepxml". */
  function PepPath(mgf: string): string {
    ReplaceAll(mgf, ".mgf", ".pepxml")
  }

  /** `make_mzid_path`: every ".mgf" replaced by ".mzID". */
  function MzidPath(mgf: string): string {
    ReplaceAll(mgf, ".mgf", ".mzID")
  }

  /** When ".mgf" is only the suffix, both names swap that suffix; "test.mgf" becomes "test.pepxml" and "test.mzID". */
  lemma OutputNamesOfSuffix(p: string)
    requires Free(".mgf", p)
    ensures PepPath(p + ".mgf") == p + ".pepxml"
    ensures MzidPath(p + ".mgf") == p + ".mzID"
  {
    ReplaceMgfSuffix(p, ".pepxml");
    ReplaceMgfSuffix(p, ".mzID");
  }

  lemma OutputNamesOfTestFile()
    ensures PepPath("test.mgf") == "test.pepxml"
    ensures MzidPath("test.mgf") == "test.mzID"
  {
    assert Free(".mgf", "test") by {
      assert "test"[0] != ".mgf"[0];
    }
    OutputNamesOfSuffix("test");
    assert "test" + ".mgf" == "test.mgf";
    assert "test" + ".pepxml" == "test.pepxml";
    assert "test" + ".mzID" == "test.mzID";
  }

  /** Every occurrence is replaced, not only the suffix: no ".mgf" is left in either name. */
  lemma OutputNamesHoldNoMgf(mgf: string)
    ensures Free(".mgf", PepPath(mgf)) && Free(".mgf", MzidPath(mgf))
  {
    assert ".pepxml"[..4][1] != ".mgf"[1];
    assert MgfFreeReplacement(".pepxml");
    ReplaceLeavesNoMgf(mgf, ".pepxml");
    assert ".mzID"[..4][2] != ".mgf"[2];
    assert MgfFreeReplacement(".mzID");
    ReplaceLeavesNoMgf(mgf, ".mzID");
  }

  // ----- FileProcessor -----

  /** A `[confirmed, path]` pair. */
  datatype Confirmed = Confirmed(ok: bool, path: string)

  /** The three tool paths `process` needs. */
  datatype Tools = Tools(msJar: Confirmed, idFile: Confirmed, params: Confirmed)

  /** `check_path`: a non-empty path naming an existing regular file. */
  predicate CheckPath(files: set<string>, path: string) {
    path != "" && path in files
  }

  /** The message `check()` shows, for the first tool that is not confirmed, in the order MSFragger, idconvert, parameters. */
  function FirstUnconfirmed(t: Tools): (r: Option<string>)
    ensures r.None? <==> t.msJar.ok && t.idFile.ok && t.params.ok
    ensures r == Some(MsPathInvalid) <==> !t.msJar.ok
    ensures r == Some(IdPathInvalid) <==> t.msJar.ok && !t.idFile.ok
    ensures r == Some(ParamsPathInvalid) <==> t.msJar.ok && t.idFile.ok && !t.params.ok
  {
    if !t.msJar.ok then Some(MsPathInvalid)
    else if !t.idFile.ok then Some(IdPathInvalid)
    else if !t.params.ok then Some(ParamsPathInvalid)
    else None
  }

  /** `get_ms` on a jar path: (`dirname`, `basename`). */
  function SplitJar(jar: string): (string, string) {
    (Dirname(jar), Basename(jar))
  }

  /** A jar chosen as `dir/name.jar` splits back into its directory and its file name. */
  lemma SplitJarOfJoin(d: string, name: string)
    requires d != [] && (d[|d| - 1] != '/' || AllSlashes(d))
    requires name != [] && '/' !in name
    ensures SplitJar(Join(d, name)) == (d, name)
  {
    JoinSplits(d, name);
  }

  /** The search engine's command line: `java -Xmx32g -jar <jar name> <params> <mgf>`, run in the jar's directory. */
  function EngineLaunch(t: Tools, mgf: string): Action {
    var (dir, jar) := SplitJar(t.msJar.path);
    Launch(Some(dir), ["java", "-Xmx32g", "-jar", jar, t.params.path, mgf])
  }

  /** The converter's command line: `<idconvert> <pepxml> -o <mgf directory>`. */
  function ConverterLaunch(t: Tools, pep: string, mgf: string): Action {
    Launch(None, [t.idFile.path, pep, "-o", Dirname(mgf)])
  }

  /** How one subprocess step ended. */
  datatype Status = Done | Failed | Raised

  /**
   * The step after a launch: an exit status other than 0 shows `failure` and
   * fails; a launch that raised is not caught (`OSError` is not a
   * `SubprocessError`) and propagates.
   */
  function RunStatus(run: Run): (s: Status)
    ensures s == Raised <==> run.NotLaunched?
    ensures s == Done <==> run.Exited? && run.code == 0
  {
    match run
    case NotLaunched => Raised
    case Exited(code, _) => if code == 0 then Done else Failed
  }

  function RunLog(launch: Action, run: Run, failure: string): seq<Action> {
    [launch] + (if RunStatus(run) == Failed then [Popup(failure)] else [])
  }

  function RunFiles(files: set<string>, run: Run): set<string> {
    if run.Exited? then files + run.produced else files
  }

  /** What `process(mgf)` returned, or the exception it raised. */
  datatype Outcome = Converted(path: string) | NotConverted | Crashed

  /** The outcome of `process`, the actions it took and the regular files afterwards. */
  datatype Trace = Trace(outcome: Outcome, actions: seq<Action>, files: set<string>)

  /** No step of `acts` starts a program. */
  predicate NoLaunch(acts: seq<Action>) {
    forall i :: 0 <= i < |acts| ==> !acts[i].Launch?
  }

  /** A run's log is the launch, then the failure message exactly when the program exited with a non-zero status. */
  lemma RunLogShape(launch: Action, run: Run, failure: string)
    ensures var log := RunLog(launch, run, failure);
      log == (if RunStatus(run) == Failed then [launch, Popup(failure)] else [launch])
  {
  }

  function Prepend(acts: seq<Action>, tr: Trace): Trace {
    Trace(tr.outcome, acts + tr.actions, tr.files)
  }

  /** The last step of `process`: the mzID output must exist. */
  function Finish(mzid: string, files: set<string>, dirs: set<string>): (r: Trace)
    ensures r.files == files
    ensures r.outcome.Converted? <==> mzid in files || mzid in dirs
    ensures r.outcome.Converted? ==> r.outcome.path == mzid && r.actions == []
    ensures !r.outcome.Converted? ==> r.outcome == NotConverted && r.actions == [Popup(MzidMissing)]
  {
    if mzid in files || mzid in dirs then Trace(Converted(mzid), [], files)
    else Trace(NotConverted, [Popup(MzidMissing)], files)
  }

  /** After the converter: stop on its failure, delete the intermediate `pep`, then look for the output `mzid`. */
  function AfterConverter(s: Status, pep: string, mzid: string, files: set<string>, dirs: set<string>): (r: Trace)
    ensures r.outcome.Converted? ==> r.outcome.path == mzid && (mzid in r.files || mzid in dirs)
    ensures r.outcome == NotConverted ==> (s == Failed && r.actions == []) || r.actions == [Unlink(pep), Popup(MzidMissing)]
    ensures r.actions != [] ==> s == Done && r.actions[0] == Unlink(pep) && pep !in r.files
    ensures |r.actions| <= 2 && (|r.actions| == 2 ==> r.actions[1] == Popup(MzidMissing))
  {
    if s == Raised then Trace(Crashed, [], files)
    else if s == Failed then Trace(NotConverted, [], files)
    else if pep !in files then Trace(Crashed, [], files)   // `os.unlink` raises
    else
      assert s.Done?;
      Prepend([Unlink(pep)], Finish(mzid, files - {pep}, dirs))
  }

  /**
   * After the search engine: stop on its failure or a missing intermediate
   * `pep`, otherwise run the converter (`convert`, which does `converter`).
   */
  function AfterEngine(s: Status, pep: string, mzid: string, files: set<string>, dirs: set<string>, convert: Action, converter: Run): (r: Trace)
    requires convert.Launch?
    ensures r.outcome.Converted? ==> r.outcome.path == mzid && (mzid in r.files || mzid in dirs)
    ensures r.outcome == NotConverted ==> (s == Failed && r.actions == []) || (r.actions != [] && r.actions[|r.actions| - 1].Popup?)
    ensures convert in r.actions ==> s == Done && (pep in files || pep in dirs) && r.actions[0] == convert
    ensures Unlink(pep) in r.actions ==>
      s == Done && RunStatus(converter) == Done && pep !in r.files &&
      |r.actions| >= 2 && r.actions[..2] == [convert, Unlink(pep)]
  {
    if s == Raised then Trace(Crashed, [], files)
    else if s == Failed then Trace(NotConverted, [], files)
    else if !(pep in files || pep in dirs) then Trace(NotConverted, [Popup(PepMissing)], files)
    else
      var rest := AfterConverter(RunStatus(converter), pep, mzid, RunFiles(files, converter), dirs);
      RunLogShape(convert, converter, IdConvertFailure);
      Prepend(RunLog(convert, converter, IdConvertFailure), rest)
  }

  /**
   * Once the tools are confirmed: run the search engine (`launch`, which does
   * `engine`), then continue with the converter.
   */
  function AfterCheck(pep: string, mzid: string, files: set<string>, dirs: set<string>, launch: Action, engine: Run, convert: Action, converter: Run): (r: Trace)
    requires launch.Launch? && convert.Launch? && launch != convert
    ensures r.actions != [] && r.actions[0] == launch
    ensures r.outcome.Converted? ==> r.outcome.path == mzid && (mzid in r.files || mzid in dirs)
    ensures r.outcome == NotConverted ==> r.actions[|r.actions| - 1].Popup?
    ensures convert in r.actions ==> RunStatus(engine) == Done && (pep in RunFiles(files, engine) || pep in dirs)
    ensures Unlink(pep) in r.actions ==>
      RunStatus(engine) == Done && RunStatus(converter) == Done && pep !in r.files &&
      |r.actions| >= 3 && r.actions[..3] == [launch, convert, Unlink(pep)]
  {
    var rest := AfterEngine(RunStatus(engine), pep, mzid, RunFiles(files, engine), dirs, convert, converter);
    RunLogShape(launch, engine, MsFraggerFailure);
    Prepend(RunLog(launch, engine, MsFraggerFailure), rest)
  }

  /**
   * The conversion pipeline, stage by stage: an existing output short-circuits;
   * then the tool check, the search engine, the intermediate's existence, the
   * converter, the deletion of the intermediate and the output's existence,
   * each stopping the pipeline at its first failure.
   */
  function Conversion(t: Tools, files: set<string>, dirs: set<string>, mgf: string, engine: Run, converter: Run): Trace {
    var mzid := MzidPath(mgf);
    if mzid in files || mzid in dirs then Trace(Converted(mzid), [], files)
    else if FirstUnconfirmed(t).Some? then Trace(NotConverted, [Popup(FirstUnconfirmed(t).value)], files)
    else
      var pep := PepPath(mgf);
      AfterCheck(pep, mzid, files, dirs, EngineLaunch(t, mgf), engine, ConverterLaunch(t, pep, mgf), converter)
  }

  /** The two command lines differ: the engine's has six words, the converter's four. */
  lemma LaunchesDiffer(t: Tools, mgf: string)
    ensures EngineLaunch(t, mgf) != ConverterLaunch(t, PepPath(mgf), mgf)
  {
    assert |EngineLaunch(t, mgf).argv| == 6;
  }

  /** An output that already exists is returned at once: no check, no subprocess, no deletion. */
  lemma ExistingOutputShortCircuits(t: Tools, files: set<string>, dirs: set<string>, mgf: string, engine: Run, converter: Run)
    requires MzidPath(mgf) in files || MzidPath(mgf) in dirs
    ensures Conversion(t, files, dirs, mgf, engine, converter) == Trace(Converted(MzidPath(mgf)), [], files)
  {
  }

  /** Nothing is launched unless all three tool paths are confirmed, and then the engine runs first. */
  lemma LaunchesRequireConfirmedTools(t: Tools, files: set<string>, dirs: set<string>, mgf: string, engine: Run, converter: Run)
    ensures var tr := Conversion(t, files, dirs, mgf, engine, converter);
      !NoLaunch(tr.actions) ==>
        t.msJar.ok && t.idFile.ok && t.params.ok && !(MzidPath(mgf) in files || MzidPath(mgf) in dirs) &&
        tr.actions[0] == EngineLaunch(t, mgf)
  {
    LaunchesDiffer(t, mgf);
  }

  /** The converter runs only after the engine exited with 0 and left the intermediate `.pepxml` behind. */
  lemma ConverterFollowsEngine(t: Tools, files: set<string>, dirs: set<string>, mgf: string, engine: Run, converter: Run)
    ensures var tr := Conversion(t, files, dirs, mgf, engine, converter);
      ConverterLaunch(t, PepPath(mgf), mgf) in tr.actions ==>
        engine == Exited(0, engine.produced) &&
        (PepPath(mgf) in RunFiles(files, engine) || PepPath(mgf) in dirs)
  {
    LaunchesDiffer(t, mgf);
  }

  /** The intermediate is deleted only after the converter succeeded, right after the two launches, and is gone afterwards. */
  lemma IntermediateDeletedAfterConverter(t: Tools, files: set<string>, dirs: set<string>, mgf: string, engine: Run, converter: Run)
    ensures var tr := Conversion(t, files, dirs, mgf, engine, converter);
      Unlink(PepPath(mgf)) in tr.actions ==>
        RunStatus(engine) == Done && RunStatus(converter) == Done && PepPath(mgf) !in tr.files &&
        |tr.actions| >= 3 && tr.actions[..3] == [EngineLaunch(t, mgf), ConverterLaunch(t, PepPath(mgf), mgf), Unlink(PepPath(mgf))]
  {
    LaunchesDiffer(t, mgf);
  }

  /** A conversion reported as successful names the mzID output, and that output exists afterwards. */
  lemma ConvertedOutputExists(t: Tools, files: set<string>, dirs: set<string>, mgf: string, engine: Run, converter: Run)
    ensures var tr := Conversion(t, files, dirs, mgf, engine, converter);
      tr.outcome.Converted? ==> tr.outcome.path == MzidPath(mgf) && (tr.outcome.path in tr.files || tr.outcome.path in dirs)
  {
    LaunchesDiffer(t, mgf);
  }

  /** Every reported failure ends with a message box telling the user why. */
  lemma FailuresAreReported(t: Tools, files: set<string>, dirs: set<string>, mgf: string, engine: Run, converter: Run)
    ensures var tr := Conversion(t, files, dirs, mgf, engine, converter);
      tr.outcome == NotConverted ==> tr.actions != [] && tr.actions[|tr.actions| - 1].Popup?
  {
    LaunchesDiffer(t, mgf);
  }

  /** Appending to the log in two steps or one gives the same log. */
  lemma LogAppend(log: seq<Action>, first: seq<Action>, next: seq<Action>)
    ensures log + first + next == log + (first + next)
  {
  }

  class FileProcessor {
    var msJar: Confirmed
    var idFile: Confirmed
    var params: Confirmed
    var saved: bool

    /** All three paths start unconfirmed and empty; nothing is unsaved. */
    constructor ()
      ensures Current() == Tools(Confirmed(false, ""), Confirmed(false, ""), Confirmed(false, "")) && saved
    {
      msJar, idFile, params, saved := Confirmed(false, ""), Confirmed(false, ""), Confirmed(false, ""), true;
    }

    function Current(): Tools
      reads this
    {
      Tools(msJar, idFile, params)
    }

    method GetSaved() returns (r: bool)
      ensures r == saved
    {
      r := saved;
    }

    method SetSaved(b: bool)
      modifies this
      ensures saved == b && Current() == old(Current())
    {
      saved := b;
    }

    /** `load_ms_path`: confirm the jar only when it is an existing file. */
    method LoadMsPath(files: set<string>, path: string) returns (ok: bool)
      modifies this
      ensures ok <==> CheckPath(files, path)
      ensures msJar == if ok then Confirmed(true, path) else old(msJar)
      ensures idFile == old(idFile) && params == old(params) && saved == old(saved)
    {
      ok := CheckPath(files, path);
      if ok {
        msJar := Confirmed(true, path);
      }
    }

    /** `set_jar_path`: the file picked in the dialog is confirmed as it is; an empty pick changes nothing. */
    method SetJarPath(picked: string)
      modifies this
      ensures msJar == if picked != "" then Confirmed(true, picked) else old(msJar)
      ensures idFile == old(idFile) && params == old(params) && saved == old(saved)
    {
      if |picked| > 0 {
        msJar := Confirmed(true, picked);
      }
    }

    /** `load_id_path`: confirm the converter only when it is an existing file. */
    method LoadIdPath(files: set<string>, path: string) returns (ok: bool)
      modifies this
      ensures ok <==> CheckPath(files, path)
      ensures idFile == if ok then Confirmed(true, path) else old(idFile)
      ensures msJar == old(msJar) && params == old(params) && saved == old(saved)
    {
      ok := CheckPath(files, path);
      if ok {
        idFile := Confirmed(true, path);
      }
    }

    /** `set_id_path`: a non-empty pick is confirmed and marks the paths unsaved. */
    method SetIdPath(picked: string)
      modifies this
      ensures idFile == if picked != "" then Confirmed(true, picked) else old(idFile)
      ensures saved == (old(saved) && picked == "")
      ensures msJar == old(msJar) && params == old(params)
    {
      if |picked| > 0 {
        idFile := Confirmed(true, picked);
        saved := false;
      }
    }

    /** `load_params_path`: confirms any path, without looking at the file system. */
    method LoadParamsPath(path: string)
      modifies this
      ensures params == Confirmed(true, path)
      ensures msJar == old(msJar) && idFile == old(idFile) && saved == old(saved)
    {
      params := Confirmed(true, path);
    }

    /** `set_params_path`: a non-empty pick is confirmed and marks the paths unsaved. */
    method SetParamsPath(picked: string)
      modifies this
      ensures params == if picked != "" then Confirmed(true, picked) else old(params)
      ensures saved == (old(saved) && picked == "")
      ensures msJar == old(msJar) && idFile == old(idFile)
    {
      if |picked| > 0 {
        params := Confirmed(true, picked);
        saved := false;
      }
    }

    /** `get_ms`: the jar's directory and file name. */
    method GetMs() returns (dir: string, jar: string)
      ensures (dir, jar) == SplitJar(msJar.path)
    {
      dir := Dirname(msJar.path);
      jar := Basename(msJar.path);
    }

    /** `check`: true exactly when all three paths are confirmed; otherwise one message for the first that is not. */
    method Check(host: Host) returns (ok: bool)
      modifies host
      ensures ok <==> FirstUnconfirmed(Current()).None?
      ensures host.log == old(host.log) + (if ok then [] else [Popup(FirstUnconfirmed(Current()).value)])
      ensures host.files == old(host.files) && host.dirs == old(host.dirs)
    {
      if !msJar.ok {
        host.log := host.log + [Popup(MsPathInvalid)];
        return false;
      }
      if !idFile.ok {
        host.log := host.log + [Popup(IdPathInvalid)];
        return false;
      }
      if !params.ok {
        host.log := host.log + [Popup(ParamsPathInvalid)];
        return false;
      }
      return true;
    }

    /** One `subprocess.run` and its exit-status check. */
    static method Execute(host: Host, launch: Action, run: Run, failure: string) returns (s: Status)
      modifies host
      ensures s == RunStatus(run)
      ensures host.log == old(host.log) + RunLog(launch, run, failure)
      ensures host.files == RunFiles(old(host.files), run) && host.dirs == old(host.dirs)
    {
      host.log := host.log + [launch];
      match run {
        case NotLaunched =>
          return Raised;
        case Exited(code, produced) =>
          host.files := host.files + produced;
          if code != 0 {
            host.log := host.log + [Popup(failure)];
            return Failed;
          }
          return Done;
      }
    }

    /** `execute_msfragger`. */
    method ExecuteMsfragger(host: Host, mgf: string, run: Run) returns (s: Status)
      modifies host
      ensures s == RunStatus(run)
      ensures host.log == old(host.log) + RunLog(EngineLaunch(Current(), mgf), run, MsFraggerFailure)
      ensures host.files == RunFiles(old(host.files), run) && host.dirs == old(host.dirs)
    {
      var ms, jar := GetMs();
      s := Execute(host, Launch(Some(ms), ["java", "-Xmx32g", "-jar", jar, params.path, mgf]), run, MsFraggerFailure);
    }

    /** `execute_idconvert`. */
    method ExecuteIdconvert(host: Host, pep: string, mgf: string, run: Run) returns (s: Status)
      modifies host
      ensures s == RunStatus(run)
      ensures host.log == old(host.log) + RunLog(ConverterLaunch(Current(), pep, mgf), run, IdConvertFailure)
      ensures host.files == RunFiles(old(host.files), run) && host.dirs == old(host.dirs)
    {
      s := Execute(host, Launch(None, [idFile.path, pep, "-o", Dirname(mgf)]), run, IdConvertFailure);
    }

    /** `delete_pep`: `os.unlink`, which raises unless the path is a regular file. */
    static method DeletePep(host: Host, pep: string) returns (raised: bool)
      modifies host
      ensures raised <==> pep !in old(host.files)
      ensures host.log == old(host.log) + (if raised then [] else [Unlink(pep)])
      ensures host.files == old(host.files) - {pep} && host.dirs == old(host.dirs)
    {
      if pep !in host.files {
        return true;
      }
      host.log := host.log + [Unlink(pep)];
      host.files := host.files - {pep};
      return false;
    }

    /** `process(mgf)`: the conversion pipeline, with `engine` and `converter` standing for what the two subprocesses do. */
    method Process(host: Host, mgf: string, engine: Run, converter: Run) returns (r: Outcome)
      modifies host
      ensures var tr := Conversion(Current(), old(host.files), old(host.dirs), mgf, engine, converter);
        r == tr.outcome && host.log == old(host.log) + tr.actions && host.files == tr.files
      ensures host.dirs == old(host.dirs)
    {
      ghost var tr := Conversion(Current(), host.files, host.dirs, mgf, engine, converter);
      var mzid := MzidPath(mgf);
      if host.Exists(mzid) {
        assert tr == Trace(Converted(mzid), [], host.files);
        assert host.log + [] == host.log;
        return Converted(mzid);
      }
      ghost var unconfirmed := FirstUnconfirmed(Current());
      var ok := Check(host);
      if !ok {
        assert tr == Trace(NotConverted, [Popup(unconfirmed.value)], host.files);
        return NotConverted;
      }
      var pep := PepPath(mgf);
      assert tr == AfterCheck(pep, mzid, host.files, host.dirs, EngineLaunch(Current(), mgf), engine, ConverterLaunch(Current(), pep, mgf), converter);
      LaunchesDiffer(Current(), mgf);
      r := SearchAndConvert(host, mgf, pep, mzid, engine, converter);
    }

    /** The rest of `process` once the tools are confirmed: run the search engine, then convert. */
    method SearchAndConvert(host: Host, mgf: string, pep: string, mzid: string, engine: Run, converter: Run) returns (r: Outcome)
      requires EngineLaunch(Current(), mgf) != ConverterLaunch(Current(), pep, mgf)
      modifies host
      ensures var tr := AfterCheck(pep, mzid, old(host.files), old(host.dirs), EngineLaunch(Current(), mgf), engine, ConverterLaunch(Current(), pep, mgf), converter);
        r == tr.outcome && host.log == old(host.log) + tr.actions && host.files == tr.files
      ensures host.dirs == old(host.dirs)
    {
      ghost var launch, convert := EngineLaunch(Current(), mgf), ConverterLaunch(Current(), pep, mgf);
      ghost var log1 := RunLog(launch, engine, MsFraggerFailure);
      ghost var log0, files0 := host.log, host.files;
      var s := ExecuteMsfragger(host, mgf, engine);
      r := ConvertSearchResult(host, s, mgf, pep, mzid, converter);
      ghost var rest := AfterEngine(s, pep, mzid, RunFiles(files0, engine), host.dirs, convert, converter);
      LogAppend(log0, log1, rest.actions);
    }

    /** The rest of `process` once the search engine has run with status `s`. */
    method ConvertSearchResult(host: Host, s: Status, mgf: string, pep: string, mzid: string, converter: Run) returns (r: Outcome)
      modifies host
      ensures var tr := AfterEngine(s, pep, mzid, old(host.files), old(host.dirs), ConverterLaunch(Current(), pep, mgf), converter);
        r == tr.outcome && host.log == old(host.log) + tr.actions && host.files == tr.files
      ensures host.dirs == old(host.dirs)
    {
      if s == Raised {
        assert host.log + [] == host.log;
        return Crashed;
      } else if s == Failed {
        assert host.log + [] == host.log;
        return NotConverted;
      }
      if !host.Exists(pep) {
        host.log := host.log + [Popup(PepMissing)];
        return NotConverted;
      }
      var t := ExecuteIdconvert(host, pep, mgf, converter);
      if t == Raised {
        assert host.log + [] == host.log;
        return Crashed;
      } else if t == Failed {
        assert host.log + [] == host.log;
        return NotConverted;
      }
      var raised := DeletePep(host, pep);
      if raised {
        assert host.log + [] == host.log;
        return Crashed;
      }
      if !host.Exists(mzid) {
        host.log := host.log + [Popup(MzidMissing)];
        return NotConverted;
      }
      assert host.log + [] == host.log;
      return Converted(mzid);
    }
  }

  // ----- EditFileDialog -----

  /** The extension test of `dropEvent`, as written. */
  predicate IsIdentFile(name: string) {
    var low := Lower(name);
    EndsWith(low, ".mzid") || EndsWith(low, ".mzidentmL") || EndsWith(low, ".mgf")
  }

  /** A lower-cased name never ends in "mL", so the ".mzidentmL" alternative never matches. */
  lemma MzIdentMLNeverMatches(name: string)
    ensures !EndsWith(Lower(name), ".mzidentmL")
    ensures IsIdentFile(name) <==> EndsWith(Lower(name), ".mzid") || EndsWith(Lower(name), ".mgf")
  {
    var low := Lower(name);
    if |low| > 0 {
      assert low[|low| - 1] != 'L';
    }
  }

  /** The dropped names that pass the extension test, in drop order. */
  function IdentFiles(names: seq<string>): (r: seq<string>)
    ensures |r| <= |names|
  {
    if names == [] then []
    else
      var last := names[|names| - 1];
      IdentFiles(names[..|names| - 1]) + (if IsIdentFile(last) then [last] else [])
  }

  /** The kept names are exactly the dropped names that pass the test. */
  lemma {:induction false} IdentFilesMembers(names: seq<string>)
    ensures forall x :: x in IdentFiles(names) <==> x in names && IsIdentFile(x)
  {
    if names != [] {
      var init := names[..|names| - 1];
      IdentFilesMembers(init);
      assert names == init + [names[|names| - 1]];
    }
  }

  class EditFileDialog {
    var group: string
    var mzidPaths: seq<string>
    var shown: seq<string>   // the file list widget

    constructor ()
      ensures group == "" && mzidPaths == [] && shown == []
    {
      group, mzidPaths, shown := "", [], [];
    }

    /** `set_group`: the group is the text of the group box. */
    method SetGroup(text: string)
      modifies this
      ensures group == text && mzidPaths == old(mzidPaths) && shown == old(shown)
    {
      group := text;
    }

    /** `set_mzid_paths`: a non-empty pick replaces the identification files; an empty pick changes nothing. */
    method SetMzidPaths(picked: seq<string>)
      modifies this
      ensures mzidPaths == (if picked != [] then picked else old(mzidPaths))
      ensures shown == (if picked != [] then picked else old(shown))
      ensures group == old(group)
    {
      if |picked| > 0 {
        shown := picked;
        mzidPaths := picked;
      }
    }

    /** `dropEvent`: keep the identification files among the dropped names; replace the list only if some are kept. */
    method DropEvent(dropped: seq<string>)
      modifies this
      ensures mzidPaths == (if IdentFiles(dropped) != [] then IdentFiles(dropped) else old(mzidPaths))
      ensures shown == (if IdentFiles(dropped) != [] then IdentFiles(dropped) else old(shown))
      ensures group == old(group)
    {
      var listing: seq<string> := [];
      for i := 0 to |dropped|
        invariant listing == IdentFiles(dropped[..i])
      {
        assert dropped[..i + 1][..i] == dropped[..i];
        assert IdentFiles(dropped[..i + 1]) == IdentFiles(dropped[..i]) + (if IsIdentFile(dropped[i]) then [dropped[i]] else []);
        if IsIdentFile(dropped[i]) {
          listing := listing + [dropped[i]];
        }
      }
      assert dropped[..|dropped|] == dropped;
      if |listing| > 0 {
        shown := listing;
        mzidPaths := listing;
      }
    }
  }
}
