/**
 * The main window of `app.py` and its own copy of the parameter widget.
 *
 * The window keeps the project session: the project file path, the enabled
 * state of its actions, the project-name fields, the dark/light view and the
 * module-level `pop` flag that decides whether closing prompts to save. The
 * widget copy has the same list operations as `parameter.py`'s, an edit that
 * converts chosen `.mgf` files on the spot, and an older `process` without the
 * checks of `FileProcessor`.
 *
 * Project files on disk are the map `disk`, from path to the saved dictionary.
 */
module App {
  import opened Wrappers
  import opened Paths
  import opened InputFiles
  import opened Settings
  import opened Files

  const NameKey := "project_name"
  const DescriptionKey := "project_description"
  const InputFilesKey := "input_files"
  const ProjectFile := "parameters.json"

  /** The `.params` file the older `process` always passes to the search engine. */
  const FixedParamsPath := "C:/Users/kaitl/Downloads/closed_fragger.params"

  // ----- The older process -----

  /**
   * `process` of `app.py`: when the `.mzID` output is missing, run the search
   * engine and the converter without looking at their exit status, delete the
   * intermediate file and return the output name, whether or not it exists.
   * A launch failure and a missing intermediate file raise.
   */
  function UncheckedConversion(msJar: string, idFile: string, files: set<string>, dirs: set<string>, mgf: string, engine: Run, converter: Run): (r: Trace)
    ensures r.outcome == Converted(MzidPath(mgf)) || r.outcome == Crashed
    ensures MzidPath(mgf) in files || MzidPath(mgf) in dirs ==> r == Trace(Converted(MzidPath(mgf)), [], files)
    ensures r.outcome == Crashed <==>
      MzidPath(mgf) !in files && MzidPath(mgf) !in dirs &&
      (engine.NotLaunched? || converter.NotLaunched? || PepPath(mgf) !in files + engine.produced + converter.produced)
    ensures r.outcome == Crashed ==> Unlink(PepPath(mgf)) !in r.actions
  {
    var mzid := MzidPath(mgf);
    if mzid in files || mzid in dirs then Trace(Converted(mzid), [], files)
    else
      var launch := Launch(Some(Dirname(msJar)), ["java", "-Xmx32g", "-jar", Basename(msJar), FixedParamsPath, mgf]);
      if engine.NotLaunched? then Trace(Crashed, [launch], files)
      else
        var pep := PepPath(mgf);
        var convert := Launch(None, [idFile, pep, "-o", Dirname(mgf)]);
        var f1 := files + engine.produced;
        if converter.NotLaunched? then Trace(Crashed, [launch, convert], f1)
        else
          var f2 := f1 + converter.produced;
          if pep !in f2 then Trace(Crashed, [launch, convert], f2)
          else Trace(Converted(mzid), [launch, convert, Unlink(pep)], f2 - {pep})
  }

  /**
   * The older `process` can answer with an output that does not exist: both
   * programs fail, the search engine still leaves its intermediate file, and
   * "a.mzID" is returned although no such file was made.
   */
  lemma UncheckedConversionMayNameMissingOutput()
    ensures var tr := UncheckedConversion("/opt/MSFragger.jar", "/opt/idconvert", {}, {}, "a.mgf", Exited(1, {"a.pepxml"}), Exited(1, {}));
      tr.outcome == Converted("a.mzID") && "a.mzID" !in tr.files
  {
    OutputNamesOfSuffix("a");
    assert "a" + ".mgf" == "a.mgf";
    assert "a" + ".pepxml" == "a.pepxml";
    assert "a" + ".mzID" == "a.mzID";
    assert "a.mzID" != "a.pepxml";
  }

  /** When the output already exists, the older `process` and `FileProcessor.process` agree: the output, and nothing done. */
  lemma ShortCircuitsAgree(t: Tools, msJar: string, idFile: string, files: set<string>, dirs: set<string>, mgf: string, engine: Run, converter: Run)
    requires MzidPath(mgf) in files || MzidPath(mgf) in dirs
    ensures UncheckedConversion(msJar, idFile, files, dirs, mgf, engine, converter) == Conversion(t, files, dirs, mgf, engine, converter)
  {
    ExistingOutputShortCircuits(t, files, dirs, mgf, engine, converter);
  }

  /** `subprocess.run` without an exit-status check: it raises only when the program cannot be started. */
  method RunUnchecked(host: Host, launch: Action, run: Run) returns (launched: bool)
    modifies host
    ensures launched <==> run.Exited?
    ensures host.log == old(host.log) + [launch]
    ensures host.files == RunFiles(old(host.files), run) && host.dirs == old(host.dirs)
  {
    host.log := host.log + [launch];
    if run.NotLaunched? {
      return false;
    }
    host.files := host.files + run.produced;
    return true;
  }

  // ----- Edit with on-the-spot conversion -----

  /** The identification file a chosen name stands for: an `.mgf` is converted and its `.mzID` name is used. */
  function AsIdent(p: string): string {
    if EndsWith(p, ".mgf") then MzidPath(p) else p
  }

  function Idents(chosen: seq<string>): (r: seq<string>)
    ensures |r| == |chosen|
    ensures forall i :: 0 <= i < |chosen| ==> r[i] == AsIdent(chosen[i])
  {
    seq(|chosen|, i requires 0 <= i < |chosen| => AsIdent(chosen[i]))
  }

  /**
   * Each name `Idents` puts in place of a chosen `.mgf` is the one the older
   * `process` returns when it does not crash; any other chosen name is kept.
   */
  lemma IdentsAreConversions(chosen: seq<string>, i: int, msJar: string, idFile: string, files: set<string>, dirs: set<string>, engine: Run, converter: Run)
    requires 0 <= i < |chosen|
    ensures var tr := UncheckedConversion(msJar, idFile, files, dirs, chosen[i], engine, converter);
      EndsWith(chosen[i], ".mgf") ==> tr.outcome == Crashed || tr.outcome == Converted(Idents(chosen)[i])
    ensures !EndsWith(chosen[i], ".mgf") ==> Idents(chosen)[i] == chosen[i]
  {
  }

  /**
   * Converting a chosen `dir/name.mgf` keeps the name: the `.mzID` it stands
   * for has the stem `name`, so it pairs with the raw files the `.mgf` would
   * have paired with.
   */
  lemma ConvertedNameKeepsStem(dir: string, name: string)
    requires dir == [] || dir[|dir| - 1] == '/'
    requires '/' !in name && HasNonDot(name, 0, |name|)
    requires Free(".mgf", dir + name)
    ensures AsIdent(dir + name + ".mgf") == dir + name + ".mzID"
    ensures Stem(AsIdent(dir + name + ".mgf")) == name == Stem(dir + name + ".mgf")
  {
    AsIdentOfMgf(dir + name);
    StemOfFileName(dir, name, ".mzID");
    StemOfFileName(dir, name, ".mgf");
  }

  /** A chosen `p.mgf`, with ".mgf" nowhere in `p`, stands for `p.mzID`. */
  lemma AsIdentOfMgf(p: string)
    requires Free(".mgf", p)
    ensures AsIdent(p + ".mgf") == p + ".mzID"
  {
    assert EndsWith(p + ".mgf", ".mgf") by {
      assert (p + ".mgf")[|p|..] == ".mgf";
    }
    OutputNamesOfSuffix(p);
  }

  // ----- The widget copy -----

  class ParametersWidget {
    var inputFiles: seq<InputFile>
    var parameters: Params
    var panel: Panel
    var updateAllowed: bool
    var msJar: string
    var idFile: string

    predicate Valid()
      reads this
    {
      Distinct(inputFiles) && Shape(panel)
    }

    constructor (panel: Panel)
      requires WellFormed(panel)
      ensures Valid()
      ensures inputFiles == [] && parameters == map[] && this.panel == panel && updateAllowed
      ensures msJar == "" && idFile == ""
    {
      WellFormedShape(panel);
      inputFiles, parameters, this.panel, updateAllowed := [], map[], panel, true;
      msJar, idFile := "", "";
    }

    /** `add_file`: as in `parameter.py`. */
    method AddFile(picked: seq<string>)
      requires Valid()
      modifies this
      ensures Valid()
      ensures |inputFiles| >= |old(inputFiles)| && inputFiles[..|old(inputFiles)|] == old(inputFiles)
      ensures NewRecords(inputFiles[|old(inputFiles)|..], Added(old(RawPaths(inputFiles)), picked))
      ensures fresh(inputFiles[|old(inputFiles)|..])
      ensures parameters == old(parameters) && panel == old(panel) && updateAllowed == old(updateAllowed)
      ensures msJar == old(msJar) && idFile == old(idFile)
    {
      if |picked| > 0 {
        inputFiles := AppendNew(inputFiles, picked);
      }
    }

    /** `remove_file`: as in `parameter.py`. */
    method RemoveFile(ranges: seq<RowRange>, default: bool)
      requires Valid()
      modifies this
      ensures Valid()
      ensures inputFiles == if default then [] else Unselected(old(inputFiles), Expand(ranges))
      ensures parameters == old(parameters) && panel == old(panel) && updateAllowed == old(updateAllowed)
      ensures msJar == old(msJar) && idFile == old(idFile)
    {
      var indexes := ExpandRanges(ranges);
      if default {
        inputFiles := [];
        return;
      }
      if |indexes| > 0 {
        var kept := DropSelected(inputFiles, indexes);
        KeptDistinct(inputFiles, indexes, |inputFiles|);
        inputFiles := kept;
      } else {
        UnselectedNoneSelected(inputFiles, indexes);
      }
    }

    /** `remove_all_files`. */
    method RemoveAllFiles()
      requires Valid()
      modifies this
      ensures Valid()
      ensures inputFiles == []
      ensures parameters == old(parameters) && panel == old(panel) && updateAllowed == old(updateAllowed)
      ensures msJar == old(msJar) && idFile == old(idFile)
    {
      RemoveFile([], true);
    }

    /**
     * `edit_file` of `app.py`, for an accepted dialog with `group` and the
     * `chosen` files: as in `parameter.py`, except that each chosen `.mgf`
     * stands for the `.mzID` that `process` names for it.
     */
    method EditFile(ranges: seq<RowRange>, group: string, chosen: seq<string>, accepted: bool)
      requires Valid()
      modifies this, inputFiles
      ensures Valid()
      ensures inputFiles == old(inputFiles)
      ensures forall k :: 0 <= k < |inputFiles| ==>
        inputFiles[k].Value() ==
          if accepted && k in Expand(ranges)
          then Edited(old(inputFiles[k].Value()), group, Idents(chosen), |Expand(ranges)|)
          else old(inputFiles[k].Value())
      ensures parameters == old(parameters) && panel == old(panel) && updateAllowed == old(updateAllowed)
      ensures msJar == old(msJar) && idFile == old(idFile)
    {
      var indexes := ExpandRanges(ranges);
      if |indexes| == 0 || !accepted {
        return;
      }
      var edited := EditRecords(inputFiles, indexes, group, Idents(chosen));
      inputFiles := edited;
    }

    /** `process` of `app.py`, with `engine` and `converter` standing for what the two programs do. */
    method Process(host: Host, mgf: string, engine: Run, converter: Run) returns (r: Outcome)
      modifies host
      ensures var tr := UncheckedConversion(msJar, idFile, old(host.files), old(host.dirs), mgf, engine, converter);
        r == tr.outcome && host.log == old(host.log) + tr.actions && host.files == tr.files
      ensures host.dirs == old(host.dirs)
    {
      var mzid := MzidPath(mgf);
      if host.Exists(mzid) {
        assert host.log + [] == host.log;
        return Converted(mzid);
      }
      var ms, jar := Dirname(msJar), Basename(msJar);
      var launch := Launch(Some(ms), ["java", "-Xmx32g", "-jar", jar, FixedParamsPath, mgf]);
      var launched := RunUnchecked(host, launch, engine);
      if !launched {
        return Crashed;
      }
      var pep := PepPath(mgf);
      var convert := Launch(None, [idFile, pep, "-o", Dirname(mgf)]);
      launched := RunUnchecked(host, convert, converter);
      if !launched {
        assert host.log == old(host.log) + [launch, convert];
        return Crashed;
      }
      var raised := FileProcessor.DeletePep(host, pep);
      if raised {
        assert host.log == old(host.log) + [launch, convert];
        return Crashed;
      }
      assert host.log == old(host.log) + [launch, convert, Unlink(pep)];
      return Converted(mzid);
    }

    /** `update_parameters` of `app.py`: `parameter.py`'s writer without the saved flag. */
    method UpdateParameters()
      requires Valid()
      modifies this
      ensures Valid()
      ensures parameters == if old(updateAllowed) then Store(old(parameters), panel) else old(parameters)
      ensures inputFiles == old(inputFiles) && panel == old(panel) && updateAllowed == old(updateAllowed)
      ensures msJar == old(msJar) && idFile == old(idFile)
    {
      if !updateAllowed {
        return;
      }
      parameters := Store(parameters, panel);
    }

    /** A widget of the panel changed: its change signal runs the writer. */
    method ChangeWidgets(p: Panel)
      requires Valid() && Shape(p)
      modifies this
      ensures Valid() && panel == p
      ensures parameters == if old(updateAllowed) then Store(old(parameters), p) else old(parameters)
      ensures inputFiles == old(inputFiles) && updateAllowed == old(updateAllowed)
      ensures msJar == old(msJar) && idFile == old(idFile)
    {
      panel := p;
      UpdateParameters();
    }
  }

  // ----- Main window -----

  /** The enabled state of the window's actions and containers. */
  datatype Controls = Controls(save: bool, saveAs: bool, reset: bool, run: bool, projectVariables: bool, parameters: bool)

  /** After `__init__`: everything off but "Reset Parameters", which line 1184 switches on again. */
  const StartControls := Controls(false, false, true, false, false, false)
  const AllEnabled := Controls(true, true, true, true, true, true)

  /** The buttons of the close prompt: "Save and Exit", "Discard and Exit", "Cancel". */
  datatype CloseChoice = SaveAndExit | DiscardAndExit | CancelClose
  datatype CloseDecision = Accept | Ignore

  /** What `update_ui` leaves: the two text fields, the panel, the writer's switch and the exception it stopped at. */
  datatype Refreshed = Refreshed(name: string, description: string, panel: Panel, allowed: bool, error: Option<Error>)

  /** The text a project-name field shows after `setText(params[key])`, or `None` when that value is not a string. */
  function FieldText(params: Params, key: string, current: string): Option<string> {
    if key !in params then Some(current)
    else match params[key]
      case Str(s) => Some(s)
      case _ => None
  }

  /**
   * `update_ui`: show the project name and description when present, then
   * read the panel from the defaults or from the dictionary with the writer
   * switched off; the writer is switched on again only if reading ends
   * without an exception.
   */
  function Refresh(params: Params, defaults: Params, default: bool, name: string, description: string, p: Panel, allowed: bool): (r: Refreshed)
    ensures r.error.None? <==>
      (NameKey in params ==> params[NameKey].Str?) && (DescriptionKey in params ==> params[DescriptionKey].Str?) &&
      DecodeInto(if default then defaults else params, p).error.None?
    ensures r.error.None? ==> r.allowed && r.panel == DecodeInto(if default then defaults else params, p).panel
    ensures NameKey in params && !params[NameKey].Str? ==> r == Refreshed(name, description, p, allowed, Some(TypeError(NameKey)))
  {
    match FieldText(params, NameKey, name)
    case None => Refreshed(name, description, p, allowed, Some(TypeError(NameKey)))
    case Some(n) =>
      match FieldText(params, DescriptionKey, description)
      case None => Refreshed(n, description, p, allowed, Some(TypeError(DescriptionKey)))
      case Some(d) =>
        var loaded := DecodeInto(if default then defaults else params, p);
        Refreshed(n, d, loaded.panel, loaded.error.None?, loaded.error)
  }

  /**
   * Reading back a dictionary that the panel wrote restores the panel and
   * switches the writer back on, whatever else the dictionary holds, as long
   * as the project name and description it holds are strings.
   */
  lemma RefreshAfterStore(params: Params, defaults: Params, name: string, description: string, p: Panel, q: Panel, allowed: bool)
    requires WellFormed(p) && WellFormed(q) && SameWidgets(p, q) && p.chargeMin <= p.chargeMax
    requires NameKey in params ==> params[NameKey].Str?
    requires DescriptionKey in params ==> params[DescriptionKey].Str?
    ensures Shape(p)
    ensures var r := Refresh(Store(params, p), defaults, false, name, description, q, allowed);
      r.error.None? && r.allowed && r.panel == p
  {
    StoreRoundTrip(params, p, q);
    WellFormedShape(p);
    StoreKeepsMetadata(params, p);
    RefreshOfClean(Store(params, p), defaults, name, description, q, allowed, p);
  }

  /** A dictionary with string name fields whose panel part reads cleanly refreshes to what it reads. */
  lemma RefreshOfClean(params: Params, defaults: Params, name: string, description: string, q: Panel, allowed: bool, p: Panel)
    requires NameKey in params ==> params[NameKey].Str?
    requires DescriptionKey in params ==> params[DescriptionKey].Str?
    requires DecodeInto(params, q) == Loaded(p, None)
    ensures var r := Refresh(params, defaults, false, name, description, q, allowed);
      r.error.None? && r.allowed && r.panel == p
  {
    assert FieldText(params, NameKey, name).Some?;
    assert FieldText(params, DescriptionKey, description).Some?;
  }

  /** Writing the panel leaves the project name and description entries alone. */
  lemma StoreKeepsMetadata(params: Params, p: Panel)
    requires Shape(p) && Keys(p) == PanelKeys
    ensures var stored := Store(params, p);
      (NameKey in stored <==> NameKey in params) && (NameKey in params ==> stored[NameKey] == params[NameKey]) &&
      (DescriptionKey in stored <==> DescriptionKey in params) &&
      (DescriptionKey in params ==> stored[DescriptionKey] == params[DescriptionKey])
  {
    MetadataKeysAreNotPanelKeys();
  }

  /** The project name, the description and the input-file list are not panel keys. */
  lemma MetadataKeysAreNotPanelKeys()
    ensures NameKey !in PanelKeys && DescriptionKey !in PanelKeys && InputFilesKey !in PanelKeys
  {
    MetadataNotInRawData();
    MetadataNotInAlignment();
    MetadataNotInFeature();
    MetadataNotInIdent();
    MetadataNotInQuality();
    MetadataNotInQuant();
    NotAPanelKey(NameKey);
    NotAPanelKey(DescriptionKey);
    NotAPanelKey(InputFilesKey);
  }

  /** A key outside every group of panel keys is not a panel key. */
  lemma NotAPanelKey(k: string)
    requires k !in RawDataKeys && k !in AlignmentKeys && k !in FeatureKeys && k != ChargeKey
    requires k !in IdentKeys && k !in QualityKeys && k !in QuantKeys
    ensures k !in PanelKeys
  {
    assert EncodeOrder == RawDataKeys + AlignmentKeys + FeatureKeys + [ChargeKey] + IdentKeys + QualityKeys + QuantKeys;
  }

  lemma MetadataNotInRawData()
    ensures NameKey !in RawDataKeys && DescriptionKey !in RawDataKeys && InputFilesKey !in RawDataKeys
  {
  }

  lemma MetadataNotInAlignment()
    ensures NameKey !in AlignmentKeys && DescriptionKey !in AlignmentKeys && InputFilesKey !in AlignmentKeys
  {
  }

  lemma MetadataNotInFeature()
    ensures NameKey !in FeatureKeys && DescriptionKey !in FeatureKeys && InputFilesKey !in FeatureKeys
  {
  }

  lemma MetadataNotInIdent()
    ensures NameKey !in IdentKeys && DescriptionKey !in IdentKeys && InputFilesKey !in IdentKeys
  {
  }

  lemma MetadataNotInQuality()
    ensures NameKey !in QualityKeys && DescriptionKey !in QualityKeys && InputFilesKey !in QualityKeys
  {
  }

  lemma MetadataNotInQuant()
    ensures NameKey !in QuantKeys && DescriptionKey !in QuantKeys && InputFilesKey !in QuantKeys
  {
  }

  /** Saving the file list into the dictionary never changes how the panel reads it. */
  lemma SavingKeepsPanelReading(params: Params, es: seq<Entry>, q: Panel)
    ensures DecodeInto(params[InputFilesKey := Files(es)], q) == DecodeInto(params, q)
  {
    MetadataKeysAreNotPanelKeys();
    OtherKeyKeepsReading(params, InputFilesKey, Files(es), q);
  }

  class MainWindow {
    var projectPath: string
    var dark: bool
    var viewModeText: string
    var pop: bool                   // the module-level `pop` flag
    var controls: Controls
    var nameText: string
    var descriptionText: string
    var directoryText: string
    var disk: map<string, Params>   // project files written so far
    const container: ParametersWidget
    const defaultParam: Params

    predicate Valid()
      reads this, container
    {
      container.Valid()
    }

    constructor (panel: Panel, defaults: Params)
      requires WellFormed(panel)
      ensures Valid() && fresh(container)
      ensures projectPath == "" && !dark && viewModeText == "Dark Mode" && !pop && controls == StartControls
      ensures nameText == "" && descriptionText == "" && directoryText == "" && disk == map[]
      ensures defaultParam == defaults
      ensures container.inputFiles == [] && container.parameters == map[] && container.panel == panel && container.updateAllowed
    {
      container := new ParametersWidget(panel);
      defaultParam := defaults;
      projectPath, dark, viewModeText, pop, controls := "", false, "Dark Mode", false, StartControls;
      nameText, descriptionText, directoryText, disk := "", "", "", map[];
    }

    /** `set_project_name`, run when the name field's text changes to `text`: the field shows it and it is stored under "project_name". */
    method SetProjectName(text: string)
      requires Valid()
      modifies this`nameText, container
      ensures Valid()
      ensures nameText == text
      ensures container.parameters == old(container.parameters)[NameKey := Str(text)]
      ensures container.inputFiles == old(container.inputFiles) && container.panel == old(container.panel)
      ensures container.updateAllowed == old(container.updateAllowed)
    {
      nameText := text;
      container.parameters := container.parameters[NameKey := Str(text)];
    }

    /** `set_project_description`, run when the description field's text changes to `text`: the field shows it and it is stored under "project_description". */
    method SetProjectDescription(text: string)
      requires Valid()
      modifies this`descriptionText, container
      ensures Valid()
      ensures descriptionText == text
      ensures container.parameters == old(container.parameters)[DescriptionKey := Str(text)]
      ensures container.inputFiles == old(container.inputFiles) && container.panel == old(container.panel)
      ensures container.updateAllowed == old(container.updateAllowed)
    {
      descriptionText := text;
      container.parameters := container.parameters[DescriptionKey := Str(text)];
    }

    /** `view_mode`: every call flips between dark and light, and the action names the other mode. */
    method ViewMode()
      modifies this`dark, this`viewModeText
      ensures dark == !old(dark)
      ensures viewModeText == if dark then "Light Mode" else "Dark Mode"
    {
      if !dark {
        dark := true;
        viewModeText := "Light Mode";
      } else {
        dark := false;
        viewModeText := "Dark Mode";
      }
    }

    /**
     * The parameter section of `update_ui`: switch the writer off, read the
     * keys one statement at a time (each widget's change signal reaches the
     * switched-off writer), and switch the writer on again at the end.
     */
    method LoadPanel(src: Params) returns (err: Option<Error>)
      requires Valid()
      modifies container
      ensures Valid()
      ensures var loaded := DecodeInto(src, old(container.panel));
        container.panel == loaded.panel && err == loaded.error && container.updateAllowed == err.None?
      ensures container.parameters == old(container.parameters) && container.inputFiles == old(container.inputFiles)
    {
      ghost var p0 := container.panel;
      container.updateAllowed := false;
      for i := 0 to |DecodeOrder|
        invariant container.Valid()
        invariant DecodeFrom(src, DecodeOrder[..i], p0) == Loaded(container.panel, None)
        invariant !container.updateAllowed
        invariant container.parameters == old(container.parameters) && container.inputFiles == old(container.inputFiles)
      {
        var step := DecodeKey(src, DecodeOrder[i], container.panel);
        DecodeIntoStep(src, i, p0, container.panel);
        DecodeKeyShape(src, DecodeOrder[i], container.panel);
        container.ChangeWidgets(step.panel);
        if step.Fail? {
          return Some(step.error);
        }
      }
      assert DecodeOrder[..|DecodeOrder|] == DecodeOrder;
      container.updateAllowed := true;
      return None;
    }

    /** `update_ui(default)`: the directory field, the name fields, then the panel from the defaults or the dictionary. */
    method UpdateUi(default: bool) returns (err: Option<Error>)
      requires Valid()
      modifies this`nameText, this`descriptionText, this`directoryText, container
      ensures Valid()
      ensures directoryText == Dirname(projectPath)
      ensures var r := Refresh(old(container.parameters), defaultParam, default, old(nameText), old(descriptionText), old(container.panel), old(container.updateAllowed));
        nameText == r.name && descriptionText == r.description && container.panel == r.panel &&
        container.updateAllowed == r.allowed && err == r.error
      ensures container.parameters == old(container.parameters) && container.inputFiles == old(container.inputFiles)
    {
      directoryText := Dirname(projectPath);
      var params := container.parameters;
      match FieldText(params, NameKey, nameText) {
        case None => return Some(TypeError(NameKey));
        case Some(n) => nameText := n;
      }
      match FieldText(params, DescriptionKey, descriptionText) {
        case None => return Some(TypeError(DescriptionKey));
        case Some(d) => descriptionText := d;
      }
      err := LoadPanel(if default then defaultParam else params);
    }

    /** `reset_param`: the panel is read from the default parameters; the dictionary itself is not touched. */
    method ResetParam() returns (err: Option<Error>)
      requires Valid()
      modifies this`nameText, this`descriptionText, this`directoryText, container
      ensures Valid()
      ensures var r := Refresh(old(container.parameters), defaultParam, true, old(nameText), old(descriptionText), old(container.panel), old(container.updateAllowed));
        nameText == r.name && descriptionText == r.description && container.panel == r.panel &&
        container.updateAllowed == r.allowed && err == r.error
      ensures container.parameters == old(container.parameters) && container.inputFiles == old(container.inputFiles)
    {
      err := UpdateUi(true);
    }

    /**
     * `save_project`: when the project file can be opened for writing, the
     * dictionary gets the current input-file list under "input_files" and is
     * written; otherwise an error is shown and nothing changes.
     */
    method SaveProject(writable: bool) returns (ok: bool)
      requires Valid()
      modifies this`disk, container
      ensures Valid()
      ensures ok <==> writable && projectPath != ""
      ensures ok ==> container.parameters == old(container.parameters)[InputFilesKey := Files(Snapshot(container.inputFiles))]
      ensures ok ==> disk == old(disk)[projectPath := container.parameters]
      ensures !ok ==> container.parameters == old(container.parameters) && disk == old(disk)
      ensures container.inputFiles == old(container.inputFiles) && container.panel == old(container.panel)
      ensures container.updateAllowed == old(container.updateAllowed)
    {
      if !writable || projectPath == "" {
        return false;
      }
      container.parameters := container.parameters[InputFilesKey := Files(Snapshot(container.inputFiles))];
      disk := disk[projectPath := container.parameters];
      return true;
    }

    /**
     * `new_project`: for a chosen directory, the project file is
     * "parameters.json" in it, the dictionary starts from the defaults, every
     * action is enabled, the window is refreshed and the project saved, and
     * closing will prompt. The input-file list is kept as it was.
     */
    method NewProject(dirPath: string, writable: bool) returns (err: Option<Error>)
      requires Valid()
      modifies this, container
      ensures Valid()
      ensures dirPath == "" ==> unchanged(this, container) && err.None?
      ensures dirPath != "" ==> projectPath == Join(dirPath, ProjectFile) && controls == AllEnabled
      ensures dirPath != "" ==>
        var r := Refresh(defaultParam, defaultParam, false, old(nameText), old(descriptionText), old(container.panel), old(container.updateAllowed));
        err == r.error && container.panel == r.panel && container.updateAllowed == r.allowed &&
        pop == (r.error.None? || old(pop)) &&
        (r.error.None? && writable ==> container.parameters == defaultParam[InputFilesKey := Files(Snapshot(container.inputFiles))] &&
                                       disk == old(disk)[projectPath := container.parameters]) &&
        (r.error.Some? || !writable ==> container.parameters == defaultParam && disk == old(disk))
      ensures container.inputFiles == old(container.inputFiles)
    {
      if |dirPath| == 0 {
        return None;
      }
      projectPath := Join(dirPath, ProjectFile);
      container.parameters := defaultParam;
      controls := AllEnabled;
      err := RefreshAndSave(writable);
    }

    /**
     * `open_project`: `doc` is the parsed project file, `None` when it cannot
     * be read. The dictionary becomes the document, the path the chosen file;
     * a stored input-file list replaces the widget's list, and a document
     * without one leaves the previous list in place.
     */
    method OpenProject(filePath: string, doc: Option<Params>) returns (raised: bool)
      requires Valid()
      modifies this, container
      ensures Valid()
      ensures filePath == "" || doc.None? ==> unchanged(this, container) && raised == (filePath != "")
      ensures filePath != "" && doc.Some? ==>
        container.parameters == doc.value && projectPath == filePath && controls == AllEnabled
      ensures filePath != "" && doc.Some? && InputFilesKey !in doc.value ==>
        container.inputFiles == old(container.inputFiles)
      ensures filePath != "" && doc.Some? && InputFilesKey in doc.value && doc.value[InputFilesKey].Files? ==>
        Snapshot(container.inputFiles) == doc.value[InputFilesKey].entries && fresh(container.inputFiles)
      ensures filePath != "" && doc.Some? && InputFilesKey in doc.value && !doc.value[InputFilesKey].Files? ==>
        raised && container.inputFiles == old(container.inputFiles) && pop == old(pop) &&
        container.panel == old(container.panel) && container.updateAllowed == old(container.updateAllowed)
      ensures filePath != "" && doc.Some? && (InputFilesKey in doc.value ==> doc.value[InputFilesKey].Files?) ==>
        var r := Refresh(doc.value, defaultParam, false, old(nameText), old(descriptionText), old(container.panel), old(container.updateAllowed));
        raised == r.error.Some? && container.panel == r.panel && container.updateAllowed == r.allowed &&
        nameText == r.name && descriptionText == r.description && pop == (r.error.None? || old(pop))
    {
      if |filePath| == 0 {
        return false;
      }
      if doc.None? {
        return true;
      }
      container.parameters := doc.value;
      projectPath := filePath;
      controls := AllEnabled;
      raised := RestoreInputFiles();
      if raised {
        return;
      }
      var err := RefreshAndPrompt();
      raised := err.Some?;
    }

    /**
     * The `input_files` step of `open_project`: a stored list replaces the
     * widget's list with new records holding the stored entries; no list
     * leaves the widget's list alone; anything else raises.
     */
    method RestoreInputFiles() returns (raised: bool)
      requires Valid()
      modifies container`inputFiles
      ensures Valid()
      ensures InputFilesKey !in container.parameters ==> !raised && container.inputFiles == old(container.inputFiles)
      ensures InputFilesKey in container.parameters && container.parameters[InputFilesKey].Files? ==>
        !raised && Snapshot(container.inputFiles) == container.parameters[InputFilesKey].entries && fresh(container.inputFiles)
      ensures InputFilesKey in container.parameters && !container.parameters[InputFilesKey].Files? ==>
        raised && container.inputFiles == old(container.inputFiles)
    {
      if InputFilesKey !in container.parameters {
        return false;
      }
      match container.parameters[InputFilesKey] {
        case Files(es) =>
          var records := FromEntries(es);
          container.inputFiles := records;
          return false;
        case _ =>
          return true;
      }
    }

    /** `update_ui()` followed by `pop = True`, which is reached only when the refresh raises nothing. */
    method RefreshAndPrompt() returns (err: Option<Error>)
      requires Valid()
      modifies this`nameText, this`descriptionText, this`directoryText, this`pop, container
      ensures Valid()
      ensures directoryText == Dirname(projectPath)
      ensures var r := Refresh(old(container.parameters), defaultParam, false, old(nameText), old(descriptionText), old(container.panel), old(container.updateAllowed));
        err == r.error && nameText == r.name && descriptionText == r.description &&
        container.panel == r.panel && container.updateAllowed == r.allowed && pop == (r.error.None? || old(pop))
      ensures container.parameters == old(container.parameters) && container.inputFiles == old(container.inputFiles)
    {
      err := UpdateUi(false);
      if err.None? {
        pop := true;
      }
    }

    /**
     * `closeEvent`: without `pop` the window closes without a prompt. With it,
     * "Save and Exit" saves and closes, "Cancel" keeps the window open and any
     * other answer closes without saving.
     */
    method CloseEvent(choice: CloseChoice, writable: bool) returns (d: CloseDecision)
      requires Valid()
      modifies this`disk, container
      ensures Valid()
      ensures d == if pop && choice == CancelClose then Ignore else Accept
      ensures pop && choice == SaveAndExit && writable && projectPath != "" ==>
        container.parameters == old(container.parameters)[InputFilesKey := Files(Snapshot(container.inputFiles))] &&
        disk == old(disk)[projectPath := container.parameters]
      ensures !(pop && choice == SaveAndExit && writable && projectPath != "") ==>
        container.parameters == old(container.parameters) && disk == old(disk)
      ensures container.inputFiles == old(container.inputFiles) && container.panel == old(container.panel)
      ensures container.updateAllowed == old(container.updateAllowed)
    {
      if !pop {
        return Accept;
      }
      match choice {
        case SaveAndExit =>
          var ok := SaveProject(writable);
          return Accept;
        case CancelClose =>
          return Ignore;
        case DiscardAndExit =>
          return Accept;
      }
    }

    /** `save_project_as`: for a chosen directory, the project file moves to "parameters.json" in it, then the window is refreshed and saved. */
    method SaveProjectAs(dirPath: string, writable: bool) returns (err: Option<Error>)
      requires Valid()
      modifies this, container
      ensures Valid()
      ensures dirPath == "" ==> unchanged(this, container) && err.None?
      ensures dirPath != "" ==> projectPath == Join(dirPath, ProjectFile) && controls == old(controls)
      ensures dirPath != "" ==>
        var r := Refresh(old(container.parameters), defaultParam, false, old(nameText), old(descriptionText), old(container.panel), old(container.updateAllowed));
        err == r.error && container.panel == r.panel && container.updateAllowed == r.allowed &&
        pop == (r.error.None? || old(pop)) &&
        (r.error.None? && writable ==> container.parameters == old(container.parameters)[InputFilesKey := Files(Snapshot(container.inputFiles))] &&
                                       disk == old(disk)[projectPath := container.parameters]) &&
        (r.error.Some? || !writable ==> container.parameters == old(container.parameters) && disk == old(disk))
      ensures container.inputFiles == old(container.inputFiles)
    {
      if |dirPath| == 0 {
        return None;
      }
      projectPath := Join(dirPath, ProjectFile);
      err := RefreshAndSave(writable);
    }

    /**
     * The common tail of `new_project` and `save_project_as`: refresh the
     * window from the dictionary; when that ends without an exception, save
     * the project and make closing prompt.
     */
    method RefreshAndSave(writable: bool) returns (err: Option<Error>)
      requires Valid() && projectPath != ""
      modifies this`nameText, this`descriptionText, this`directoryText, this`disk, this`pop, container
      ensures Valid()
      ensures directoryText == Dirname(projectPath)
      ensures var r := Refresh(old(container.parameters), defaultParam, false, old(nameText), old(descriptionText), old(container.panel), old(container.updateAllowed));
        err == r.error && nameText == r.name && descriptionText == r.description &&
        container.panel == r.panel && container.updateAllowed == r.allowed &&
        pop == (r.error.None? || old(pop)) &&
        (r.error.None? && writable ==> container.parameters == old(container.parameters)[InputFilesKey := Files(Snapshot(container.inputFiles))] &&
                                       disk == old(disk)[projectPath := container.parameters]) &&
        (r.error.Some? || !writable ==> container.parameters == old(container.parameters) && disk == old(disk))
      ensures container.inputFiles == old(container.inputFiles)
    {
      err := RefreshAndPrompt();
      if err.None? {
        var ok := SaveProject(writable);
      }
    }
  }

  /** A new project's file is "parameters.json" inside the chosen directory, and the directory field shows that directory. */
  lemma ProjectFileInDirectory(dirPath: string)
    requires dirPath != [] && (dirPath[|dirPath| - 1] != '/' || AllSlashes(dirPath))
    ensures Basename(Join(dirPath, ProjectFile)) == ProjectFile
    ensures Dirname(Join(dirPath, ProjectFile)) == dirPath
  {
    JoinSplits(dirPath, ProjectFile);
  }
}
