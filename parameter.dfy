/**
 * The parameter widget of `parameter.py`: the "Input files" tab with its
 * Add / Edit / Remove / Remove All buttons, and the writer that copies the
 * parameter panel into the parameters dictionary.
 *
 * The module-level flag `saved` is a field of the widget here.
 */
module Parameter {
  import opened Wrappers
  import opened InputFiles
  import opened Settings
  import opened Files

  class ParametersWidget {
    var inputFiles: seq<InputFile>
    var parameters: Params
    var panel: Panel
    var updateAllowed: bool
    var saved: bool                 // the module-level `saved` flag
    const fileProcessor: FileProcessor

    /** The list holds each record once, and the panel has all its widgets. */
    predicate Valid()
      reads this
    {
      Distinct(inputFiles) && Shape(panel)
    }

    /**
     * A new widget: empty list and dictionary. The panel is built with the
     * writer switched off, so building it writes nothing; the writer is on
     * once the panel is complete.
     */
    constructor (panel: Panel)
      requires WellFormed(panel)
      ensures Valid()
      ensures inputFiles == [] && parameters == map[] && this.panel == panel
      ensures updateAllowed && saved
    {
      WellFormedShape(panel);
      inputFiles, parameters, this.panel := [], map[], panel;
      updateAllowed, saved := true, true;
      fileProcessor := new FileProcessor();
    }

    /**
     * `add_file`: the picked paths not already in the list are appended as new
     * records, in pick order; the records already there stay where they are.
     */
    method AddFile(picked: seq<string>)
      requires Valid()
      modifies this
      ensures Valid()
      ensures |inputFiles| >= |old(inputFiles)| && inputFiles[..|old(inputFiles)|] == old(inputFiles)
      ensures NewRecords(inputFiles[|old(inputFiles)|..], Added(old(RawPaths(inputFiles)), picked))
      ensures fresh(inputFiles[|old(inputFiles)|..])
      ensures parameters == old(parameters) && panel == old(panel)
      ensures updateAllowed == old(updateAllowed) && saved == old(saved)
    {
      if |picked| > 0 {
        inputFiles := AppendNew(inputFiles, picked);
      }
    }

    /** `remove_file`: all rows go when `default` is set; otherwise the selected rows go and the others stay in order. */
    method RemoveFile(ranges: seq<RowRange>, default: bool)
      requires Valid()
      modifies this
      ensures Valid()
      ensures inputFiles == if default then [] else Unselected(old(inputFiles), Expand(ranges))
      ensures parameters == old(parameters) && panel == old(panel)
      ensures updateAllowed == old(updateAllowed) && saved == old(saved)
    {
      var indexes := ExpandRanges(ranges);
      if default {
        inputFiles := [];
        return;
      }
      if |indexes| > 0 {
        var kept := DropSelected(inputFiles, indexes);
        KeptDistinct(inputFiles, indexes, |inputFiles|);
        inputFiles := kept;
      } else {
        UnselectedNoneSelected(inputFiles, indexes);
      }
    }

    /** `remove_all_files`: the list is emptied. */
    method RemoveAllFiles()
      requires Valid()
      modifies this
      ensures Valid()
      ensures inputFiles == []
      ensures parameters == old(parameters) && panel == old(panel)
      ensures updateAllowed == old(updateAllowed) && saved == old(saved)
    {
      RemoveFile([], true);
    }

    /**
     * `edit_file` as written: with no row selected it returns at once; with a
     * row selected, building the dialog with keyword arguments its constructor
     * does not take raises `TypeError`, before anything is changed.
     */
    method EditFileAsWritten(ranges: seq<RowRange>) returns (raised: bool)
      ensures raised <==> Expand(ranges) != []
    {
      var indexes := ExpandRanges(ranges);
      if |indexes| == 0 {
        return false;
      }
      return true;
    }

    /**
     * `edit_file` with the dialog built as its constructor allows: when rows
     * are selected and the dialog is accepted, every selected record gets the
     * dialog's group and identification file, in place; the list keeps the
     * same records in the same order.
     */
    method EditFile(ranges: seq<RowRange>, dialog: EditFileDialog, accepted: bool)
      requires Valid()
      modifies this, inputFiles
      ensures Valid()
      ensures inputFiles == old(inputFiles)
      ensures forall k :: 0 <= k < |inputFiles| ==>
        inputFiles[k].Value() ==
          if accepted && k in Expand(ranges)
          then Edited(old(inputFiles[k].Value()), dialog.group, dialog.mzidPaths, |Expand(ranges)|)
          else old(inputFiles[k].Value())
      ensures parameters == old(parameters) && panel == old(panel)
      ensures updateAllowed == old(updateAllowed) && saved == old(saved)
    {
      var indexes := ExpandRanges(ranges);
      if |indexes| == 0 || !accepted {
        return;
      }
      var edited := EditRecords(inputFiles, indexes, dialog.group, dialog.mzidPaths);
      inputFiles := edited;
    }

    /**
     * `update_parameters`: with the writer switched off nothing happens;
     * otherwise the project is marked unsaved and every panel key of the
     * dictionary is overwritten from the panel, other keys staying as they were.
     */
    method UpdateParameters()
      requires Valid()
      modifies this
      ensures Valid()
      ensures old(updateAllowed) ==> parameters == Store(old(parameters), panel) && !saved
      ensures !old(updateAllowed) ==> parameters == old(parameters) && saved == old(saved)
      ensures inputFiles == old(inputFiles) && panel == old(panel) && updateAllowed == old(updateAllowed)
    {
      if !updateAllowed {
        return;
      }
      saved := false;
      parameters := Store(parameters, panel);
    }

    /** A widget of the panel changed: its change signal runs the writer. */
    method ChangeWidgets(p: Panel)
      requires Valid() && WellFormed(p)
      modifies this
      ensures Valid() && panel == p
      ensures old(updateAllowed) ==> parameters == Store(old(parameters), p) && !saved
      ensures !old(updateAllowed) ==> parameters == old(parameters) && saved == old(saved)
      ensures inputFiles == old(inputFiles) && updateAllowed == old(updateAllowed)
    {
      WellFormedShape(p);
      panel := p;
      UpdateParameters();
    }
  }

  /**
   * What the widget test of `update_parameters` expects: with "orbitrap"
   * chosen and MS1 resolution 3000 on the panel, the dictionary holds exactly
   * those values afterwards.
   */
  lemma UpdateParametersStoresPanelValues(params: Params, p: Panel)
    requires Shape(p) && p.instrument == "orbitrap"
    requires "resolution_ms1" in p.plain && p.plain["resolution_ms1"].value == Int(3000)
    ensures Store(params, p)["resolution_ms1"] == Int(3000)
    ensures Store(params, p)[InstrumentKey] == Str("orbitrap")
  {
    assert "orbitrap" == InstrumentTypes[0];
    InstrumentTypesAreLower("orbitrap");
  }
}
