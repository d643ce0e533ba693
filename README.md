# PASTAQ-GUI session logic in Dafny

PASTAQ-GUI is a Qt front end for the PASTAQ data-dependent-acquisition
pipeline. This project models the part of it that is not user interface.

- **The "Input files" list** (`src/parameter.py`, repeated in `src/app.py`):
  - adding picked files without duplicates;
  - expanding selected row ranges into indexes;
  - removing the selected rows, or all of them;
  - editing the selected records in place. Each gets a group and an
    identification file. The file is paired directly when one row and one
    file are chosen, and by file-name stem otherwise.
- **The parameter writer** `update_parameters`:
  - the `update_allowed` guard and the `saved` flag;
  - the charge-state range written as a descending list;
  - the fill-alpha value `0.0` written as `"dynamic"`.

  Its reverse is the reading half of `update_ui`, and together they give the
  settings round trip.
- **`FileProcessor`** (`src/files.py`):
  - its three confirmed paths;
  - `check`;
  - the `.mgf` → `.pepxml` → `.mzID` conversion with its early exits;
  - the extension filter of `EditFileDialog.dropEvent`.
- **The main window** (`src/app.py`):
  - the project path and the enabled actions;
  - new / open / save / save-as;
  - merging the input-file list into the saved dictionary;
  - the close prompt driven by the global `pop`;
  - the dark-mode toggle;
  - the older `process`, which does no checks.

The modules follow the program:

| module | file | models |
|---|---|---|
| `Paths` | `paths.dfy` | POSIX `os.path.basename`, `dirname`, `splitext` and `join`; `str.lower`, `str.endswith` and `str.replace` |
| `InputFiles` | `input_files.dfy` | input-file records (`class InputFile`, updated in place) and the list operations |
| `Settings` | `settings.dfy` | the dictionary values, the parameter panel, the writer and the reader |
| `Files` | `files.dfy` | `FileProcessor`, `EditFileDialog`, and a `Host` class holding the files, directories and action log |
| `Parameter` | `parameter.dfy` | `ParametersWidget` of `parameter.py` |
| `App` | `app.dfy` | `ParametersWidget` and `MainWindow` of `app.py` |

The outside world appears as values and objects:
- A `Host` object holds the existing files and directories, plus a log of
  pop-ups, program launches and deletions.
- What a launched program does is an input, `Run`:
  - `Exited(code, produced)`: it ran, with this exit code, and left these
    files;
  - `NotLaunched`: it could not be started.
- File pickers, the edit dialog's answer and the parsed project file are
  inputs to the methods.
- Writing a project file updates the map `disk`; `writable` says whether
  the file could be opened.

## Model

| member | source | states |
|---|---|---|
| `Paths.Basename` | src/parameter.py:203-206 | `os.path.basename`: the result is the suffix after the last `/` and holds no `/` |
| `Paths.SplitExt` | src/parameter.py:204-207 | `os.path.splitext`: the root and extension concatenate back to the name; the extension is empty or starts at the last dot that is not leading |
| `Paths.Lower` | src/parameter.py:795 | ASCII lowering: keeps the length, maps `A`–`Z` to `a`–`z` and keeps every other character |
| `Paths.StemOfFileName` | src/parameter.py:203-208 | the stem of `dir/name.ext` is `name` when the extension has no other dot |
| `Paths.JoinSplits` | src/app.py:1390 | `dirname(join(d, b)) == d` and `basename(join(d, b)) == b` |
| `Paths.ReplaceMgfSuffix` | src/files.py:262-268 | replacing every ".mgf" in `p + ".mgf"`, when `p` holds none, swaps only the suffix |
| `Paths.ReplaceLeavesNoMgf` | src/files.py:262-268 | after replacing every ".mgf", no ".mgf" remains |
| `InputFiles.InputFile.constructor` | src/parameter.py:193-194 | a new record is `{raw_path: p, reference: False}`, without group or identification path |
| `InputFiles.Snapshot` | src/app.py:1434 | the values of the records, one per record, in list order |
| `InputFiles.RawPaths` | src/parameter.py:190 | `[file['raw_path'] for file in input_files]`, one per record, in order |
| `InputFiles.Added` | src/parameter.py:191-194 | the picked paths that get appended: never more than were picked |
| `InputFiles.AddedMembers` | src/parameter.py:191-194 | a path is appended exactly when it was picked and was not in the list before the call |
| `InputFiles.AddTwiceAddsNothing` | src/parameter.py:182-196 | adding the same picks again appends nothing |
| `InputFiles.AddedNothingWhenPresent` | src/parameter.py:191-194 | picks that are all present already append nothing |
| `InputFiles.AppendNew` | src/parameter.py:189-196 | the old records stay, in place and in order; the appended records are new objects, one per path `Added` yields, in pick order; the list stays free of repeats |
| `InputFiles.FromEntries` | src/app.py:1424-1425 | a stored list becomes new records with exactly the stored values, in order |
| `InputFiles.Span` | src/parameter.py:263-264 | `range(top, bottom + 1)`: `bottom - top + 1` consecutive rows, none if the range is inverted |
| `InputFiles.ExpandMembers` | src/parameter.py:259-265 | a row is in the expanded index list exactly when some selected range covers it |
| `InputFiles.ExpandRanges` | src/parameter.py:259-265 | the loop yields each range's rows, range after range |
| `InputFiles.Kept` | src/parameter.py:253-256 | the kept prefix has one entry per unselected index |
| `InputFiles.SelectedCountIsCardinality` | src/parameter.py:253-256 | the number of dropped entries is the number of distinct selected indexes in range |
| `InputFiles.KeptMembers` | src/parameter.py:253-256 | an entry is kept exactly when it sits at an unselected index |
| `InputFiles.UnselectedMembers` | src/parameter.py:253-256 | the same, for the whole list |
| `InputFiles.UnselectedNoneSelected` | src/parameter.py:250-251 | with no index selected, nothing is removed |
| `InputFiles.RemoveFirstOfThree` | src/tests/test_params_buttons.py:124-130 | removing row 0 of three rows leaves the other two, in order |
| `InputFiles.DropSelected` | src/parameter.py:252-257 | the loop builds exactly the unselected entries in their original order |
| `InputFiles.KeptDistinct` | src/parameter.py:252-257 | removing rows keeps a list free of repeated records |
| `InputFiles.FirstEqual` | src/parameter.py:209-213 | the index of the first equal element: every earlier one differs, and none at all when it equals the length |
| `InputFiles.StemMatch` | src/parameter.py:202-213 | when some candidate has the raw file's stem, the first such candidate is taken; otherwise the old identification path stays |
| `InputFiles.Pairing` | src/parameter.py:222-225 | one selected row and one candidate: that candidate, whatever its stem; otherwise the stem match |
| `InputFiles.PairingIdempotent` | src/parameter.py:216-230 | editing twice with the same dialog pairs the same file as once |
| `InputFiles.Edited` | src/parameter.py:216-230 | an edited record keeps its raw path and reference flag, gets the group, and gets the paired identification path |
| `InputFiles.PairSingle` | src/parameter.py:198-200 | `single_id_file` sets the identification path of the record in place and changes nothing else |
| `InputFiles.PairByStem` | src/parameter.py:202-213 | `multiple_id_files` sets the identification path to the stem match, in place |
| `InputFiles.EditRecords` | src/parameter.py:216-230 | the same record objects come back in the same order; each selected record now holds its edited value and each other record is untouched |
| `Settings.ChargeStates` | src/parameter.py:820-823 | the charge list has `max - min + 1` entries, `max, max-1, …, min`, and none when `min > max` |
| `Settings.SeqMin` | src/app.py:1310-1311 | `min` of a non-empty list is an element no larger than any other |
| `Settings.SeqMax` | src/app.py:1312-1313 | `max` of a non-empty list is an element no smaller than any other |
| `Settings.ChargeRoundTrip` | src/app.py:1092-1095 | for `min <= max`, the list is non-empty and `min`/`max` of it give back the range |
| `Settings.InvertedChargeRangeIsEmpty` | src/parameter.py:820-823 | `min > max` writes an empty list |
| `Settings.ChargeStatesDescending` | src/parameter.py:822 | the list is strictly descending |
| `Settings.EncodeAlpha` | src/parameter.py:830-833 | a fill alpha of `0.0`, and only that, is written as `"dynamic"`; any other value is written as is |
| `Settings.DecodeAlpha` | src/app.py:1317-1320 | `"dynamic"` reads as `0.0`, a number (an `int` or `bool` included) reads as its value, and anything else fails (`TypeError`) |
| `Settings.AlphaRoundTrip` | src/app.py:1102-1105 | reading back a written fill alpha gives the same value |
| `Settings.InstrumentTypesAreLower` | src/parameter.py:314 | every item of the instrument combo box is already lower case |
| `Settings.Encode` | src/parameter.py:795-859 | the writer produces one entry per widget: check boxes as booleans, spin and combo boxes as the value they show, the instrument lower-cased, the charge list empty exactly for an inverted range, `"dynamic"` exactly for `0.0` |
| `Settings.EncodeWritesPanelKeys` | src/parameter.py:795-859 | a complete panel writes exactly the panel's keys, and the instrument is one of the combo box items |
| `Settings.Store` | src/parameter.py:795-859 | the dictionary after the writer: the panel's keys are overwritten, every other key is kept |
| `Settings.Bound` | src/app.py:1286-1362 | Qt's `qBound`, which `setValue` applies: a value inside the range is kept, one below is raised to the minimum, one above lowered to the maximum |
| `Settings.BoundReal` | src/app.py:1317-1324 | the same for a `QDoubleSpinBox` |
| `Settings.Take` | src/app.py:1285-1365 | a setter keeps the widget's kind and keeps it showing a value it can show; a combo box raises `TypeError` exactly for a non-text value and ignores a text that is none of its items; a spin box raises `TypeError` for a text and `OverflowError` for an integer outside a C `int` |
| `Settings.TakeShown` | src/app.py:1285-1365 | a value a widget can show is shown unchanged |
| `Settings.UnknownComboTextIsIgnored` | src/app.py:1306 | `setCurrentText` with a text that is none of the items leaves the panel unchanged and raises nothing (e.g. polarity `"sideways"`) |
| `Settings.TextInSpinBoxRaises` | src/app.py:1286 | `setValue` with a text raises `TypeError` and leaves the panel unchanged (e.g. `"resolution_ms1": "x"`) |
| `Settings.QuantTypeMedianIsIgnored` | src/app.py:1033-1034 | the protein quantification combo box, whose items are razor, unique and all, ignores `"median"` |
| `Settings.MinPeptidesTextRaises` | src/app.py:1014-1015 | a text for the minimum peptide count stops reading with `TypeError` |
| `Settings.DpiIsBounded` | src/app.py:882-883 | the DPI spin box runs from 1 to 1000, so a stored 5000 shows as 1000 |
| `Settings.ChargeZeroShowsOne` | src/app.py:709-716 | the charge spin boxes start at 1, so a stored `[0]` shows both bounds as 1 |
| `Settings.LargeIntegerOverflows` | src/app.py:1286 | an integer outside a C `int` given to a spin box raises `OverflowError` |
| `Settings.DecodeChargeOfRange` | src/app.py:1310-1313 | reading the list written for `lo <= hi` within the spin boxes' range sets exactly that range |
| `Settings.BuiltSameWidgets` | src/app.py:576-1034 | two panels built with the source's widgets have the same widgets |
| `Settings.DecodeFromNeedsKeys` | src/app.py:1285-1378 | reading to the end needs every key read; a `KeyError` names a key to be read that is missing |
| `Settings.DecodeIntoNeedsAllKeys` | src/app.py:1285-1378 | `update_ui` reads to the end only if the dictionary holds every panel key |
| `Settings.MissingKeyFails` | src/app.py:1285-1378 | a dictionary missing a panel key stops `update_ui` with an exception |
| `Settings.DecodeEncodedKey` | src/app.py:1285-1378 | reading one key of what the writer wrote sets that widget back to its value |
| `Settings.DecodeEncodedFrom` | src/app.py:1285-1378 | reading written keys in any order restores those widgets |
| `Settings.PanelRoundTrip` | src/app.py:1063-1131 | for a complete panel whose widgets all hold values they can show and `min <= max`, reading back what the writer wrote into a panel with the same widgets gives the panel and no exception |
| `Settings.StoreRoundTrip` | src/app.py:1063-1131 | the same when the writer writes into a dictionary that already holds other keys |
| `Settings.InvertedChargeRangeFails` | src/app.py:1310-1311 | a panel with `min > max` writes a list that reading stops at with `ValueError` at the charge key |
| `Settings.StopsAtCharge` | src/app.py:1310-1311 | the keys before the charge key read cleanly and the charge key raises |
| `Settings.DecodeIntoStep` | src/app.py:1285-1378 | after the first `i` statements ran cleanly, statement `i + 1` either raises, and that is how the whole reading ends, or extends the clean prefix |
| `Settings.DecodeAppend` | src/app.py:1285-1378 | reading `xs + ys` is reading `xs`, then `ys` unless `xs` raised |
| `Settings.DecodeFromAgrees` | src/app.py:1285-1378 | two dictionaries that agree on the keys read are read the same way |
| `Settings.DecodeIntoWellFormed` | src/app.py:1285-1378 | reading never removes a widget, never leaves a combo box outside its items and never leaves a spin box outside its range |
| `Settings.DecodeKeyWellFormed` | src/app.py:1285-1365 | one `setValue`/`setCurrentText` statement keeps every widget showing a value it can show, the charge spin boxes within 1 and `LARGE`, the fill alpha within 0 and 1 |
| `Settings.DecodeFromShape` | src/app.py:1285-1378 | reading keeps the panel's widget layout |
| `Settings.OtherKeyKeepsReading` | src/app.py:1285-1378 | a key that is not a panel key does not change how `update_ui` reads |
| `Files.OutputNamesOfSuffix` | src/files.py:260-268 | for a path whose only ".mgf" is its suffix, the intermediate and output names swap that suffix |
| `Files.OutputNamesOfTestFile` | src/tests/test_files.py:11-21 | "test.mgf" maps to "test.pepxml" and "test.mzID" |
| `Files.OutputNamesHoldNoMgf` | src/files.py:260-268 | neither derived name contains ".mgf" |
| `Files.FirstUnconfirmed` | src/files.py:316-326 | the first unconfirmed tool in the order jar, idconvert, params; none exactly when all three are confirmed |
| `Files.SplitJarOfJoin` | src/files.py:254-258 | `get_ms` splits a jar path back into its directory and file name |
| `Files.RunStatus` | src/files.py:271-313 | a launch failure raises (it is not a `SubprocessError`); a zero exit code succeeds; any other fails |
| `Files.Finish` | src/files.py:358-364 | the final existence check: the output if it exists, otherwise a pop-up and no output |
| `Files.AfterConverter` | src/files.py:353-364 | after a successful converter the intermediate file is deleted before the output check |
| `Files.AfterEngine` | src/files.py:344-364 | a missing intermediate file stops with a pop-up before the converter runs |
| `Files.AfterCheck` | src/files.py:341-364 | the engine runs first, and the converter runs only after the engine succeeded |
| `Files.ExistingOutputShortCircuits` | src/files.py:334-335 | an existing output is returned at once, with no check, launch or deletion |
| `Files.LaunchesRequireConfirmedTools` | src/files.py:337-338 | nothing is launched unless all three tools are confirmed |
| `Files.ConverterFollowsEngine` | src/files.py:341-354 | the converter is launched only after the engine ran successfully and the intermediate file exists |
| `Files.IntermediateDeletedAfterConverter` | src/files.py:353-357 | the intermediate file is deleted only after the converter succeeded |
| `Files.ConvertedOutputExists` | src/files.py:359-364 | a returned output name exists |
| `Files.FailuresAreReported` | src/files.py:337-364 | every `False` return that is not a raised exception ends with a pop-up |
| `Files.FileProcessor.constructor` | src/files.py:177-180 | no tool confirmed, and `saved` set |
| `Files.FileProcessor.GetSaved` | src/files.py:182-183 | returns the flag |
| `Files.FileProcessor.SetSaved` | src/files.py:185-186 | sets the flag and nothing else |
| `Files.FileProcessor.LoadMsPath` | src/files.py:196-201 | confirms the jar and answers true exactly when the path is a non-empty existing file; otherwise nothing changes |
| `Files.FileProcessor.SetJarPath` | src/files.py:204-213 | a picked jar is confirmed; an empty pick changes nothing; `saved` is left alone |
| `Files.FileProcessor.LoadIdPath` | src/files.py:216-221 | as `LoadMsPath`, for idconvert |
| `Files.FileProcessor.SetIdPath` | src/files.py:224-234 | a picked idconvert is confirmed and `saved` cleared |
| `Files.FileProcessor.LoadParamsPath` | src/files.py:237-238 | the parameters file is confirmed without any check |
| `Files.FileProcessor.SetParamsPath` | src/files.py:241-251 | a picked parameters file is confirmed and `saved` cleared |
| `Files.FileProcessor.GetMs` | src/files.py:254-258 | the jar's directory and file name |
| `Files.FileProcessor.Check` | src/files.py:316-326 | true exactly when all three tools are confirmed; otherwise one pop-up naming the first unconfirmed one |
| `Files.FileProcessor.ExecuteMsfragger` | src/files.py:271-294 | launches the engine in the jar's directory with the jar, the parameters file and the `.mgf`; the status and the log follow `RunStatus` |
| `Files.FileProcessor.ExecuteIdconvert` | src/files.py:297-313 | launches the converter on the intermediate file with the `.mgf`'s directory as output |
| `Files.FileProcessor.DeletePep` | src/files.py:328-329 | `os.unlink` removes the file, or raises when it does not exist |
| `Files.FileProcessor.Process` | src/files.py:332-364 | the result, the log and the files are exactly those of the `Conversion` trace, which the lemmas above characterise |
| `Files.IdentFilesMembers` | src/files.py:128-137 | a dropped name is kept exactly when its lower-cased form ends in ".mzid" or ".mgf" |
| `Files.IdentFiles` | src/files.py:131-134 | the kept names are no more than the dropped ones |
| `Files.MzIdentMLNeverMatches` | src/files.py:133 | the ".mzidentmL" test can never hold for a lower-cased name, so the filter is exactly ".mzid" or ".mgf" |
| `Files.EditFileDialog.SetGroup` | src/files.py:139-140 | the group is the text field's text |
| `Files.EditFileDialog.SetMzidPaths` | src/files.py:143-153 | a non-empty pick replaces the list; an empty one changes nothing |
| `Files.EditFileDialog.DropEvent` | src/files.py:128-137 | the dropped identification files replace the list, in order, only if there is at least one |
| `Parameter.ParametersWidget.constructor` | src/parameter.py:47-65 | an empty list and dictionary, the writer on once the panel is built |
| `Parameter.ParametersWidget.AddFile` | src/parameter.py:182-196 | existing records stay in place; the new ones are what `AppendNew` promises; nothing else changes |
| `Parameter.ParametersWidget.RemoveFile` | src/parameter.py:246-257 | `default` empties the list; otherwise exactly the unselected records remain, in order |
| `Parameter.ParametersWidget.RemoveAllFiles` | src/parameter.py:243-244 | the list is emptied |
| `Parameter.ParametersWidget.EditFileAsWritten` | src/parameter.py:232-241 | raises exactly when at least one row is selected |
| `Parameter.ParametersWidget.EditFile` | src/parameter.py:232-241 | an accepted dialog edits every selected record in place as `Edited` says, and leaves the rest; the list keeps the same objects |
| `Parameter.ParametersWidget.UpdateParameters` | src/parameter.py:790-859 | with the writer off nothing changes; otherwise `saved` is cleared and the panel stored into the dictionary |
| `Parameter.ParametersWidget.ChangeWidgets` | src/parameter.py:315 | a widget change runs the writer on the new panel |
| `Parameter.UpdateParametersStoresPanelValues` | src/tests/test_params_buttons.py:134-142 | with "orbitrap" and MS1 resolution 3000 on the panel, the dictionary holds those values |
| `App.UncheckedConversion` | src/app.py:475-495 | the older `process` returns the `.mzID` name or raises, never `False`; it short-circuits on an existing output; it raises exactly on a launch failure or a missing intermediate file |
| `App.UncheckedConversionMayNameMissingOutput` | src/app.py:475-495 | with both programs failing, it still returns "a.mzID", which does not exist |
| `App.ShortCircuitsAgree` | src/app.py:477-478 | on an existing output the older `process` and `FileProcessor.process` behave identically |
| `App.RunUnchecked` | src/app.py:482-490 | `subprocess.run` without a status check raises only if the program cannot start |
| `App.IdentsAreConversions` | src/app.py:449-461 | each chosen `.mgf` is replaced by exactly the name the older `process` returns when it does not crash; any other chosen name is kept |
| `App.AsIdentOfMgf` | src/app.py:451-452 | a chosen `p.mgf` stands for `p.mzID` |
| `App.ConvertedNameKeepsStem` | src/app.py:456-465 | the converted name has the stem of the `.mgf`, so stem pairing is unaffected by the conversion |
| `App.ParametersWidget.constructor` | src/app.py:227-245 | empty list and dictionary, no tools, the writer on |
| `App.ParametersWidget.AddFile` | src/app.py:416-430 | as in `parameter.py` |
| `App.ParametersWidget.RemoveFile` | src/app.py:520-531 | as in `parameter.py` |
| `App.ParametersWidget.RemoveAllFiles` | src/app.py:517-518 | the list is emptied |
| `App.ParametersWidget.EditFile` | src/app.py:433-473 | as in `parameter.py`, with each chosen `.mgf` standing for its `.mzID` |
| `App.ParametersWidget.Process` | src/app.py:475-495 | the result, log and files are those of `UncheckedConversion` |
| `App.ParametersWidget.UpdateParameters` | src/app.py:1063-1131 | with the writer off nothing changes; otherwise the panel is stored; there is no `saved` flag |
| `App.ParametersWidget.ChangeWidgets` | src/app.py:1063-1065 | a widget change runs the writer on the new panel |
| `App.Refresh` | src/app.py:1271-1379 | `update_ui` ends without an exception exactly when the name fields hold strings and every panel statement runs without raising (each key present, each value of a type its widget takes); then the writer is back on and the panel is what was read |
| `App.RefreshAfterStore` | src/app.py:1271-1379 | reading back a dictionary the writer wrote restores the panel and turns the writer back on |
| `App.StoreKeepsMetadata` | src/app.py:1228-1232 | the writer leaves the project name and description entries alone |
| `App.MetadataKeysAreNotPanelKeys` | src/app.py:1228-1232 | "project_name", "project_description" and "input_files" are not panel keys |
| `App.SavingKeepsPanelReading` | src/app.py:1434 | storing the input-file list never changes how the panel reads |
| `App.ProjectFileInDirectory` | src/app.py:1390 | the project file is "parameters.json" inside the chosen directory, so the directory field shows that directory |
| `App.MainWindow.constructor` | src/app.py:1135-1226 | no project, light mode, no prompt, only "Reset Parameters" enabled |
| `App.MainWindow.SetProjectName` | src/app.py:1228-1229 | the name field holds the new text and it is stored under "project_name"; nothing else changes |
| `App.MainWindow.SetProjectDescription` | src/app.py:1231-1232 | the description field holds the new text and it is stored under "project_description"; nothing else changes |
| `App.MainWindow.ViewMode` | src/app.py:1237-1245 | every call flips dark mode; the action names the other mode |
| `App.MainWindow.LoadPanel` | src/app.py:1284-1379 | the statement-by-statement loop ends in the panel `DecodeInto` gives; the writer is off throughout and back on only if no exception |
| `App.MainWindow.UpdateUi` | src/app.py:1271-1379 | the directory field, the name fields, the panel and the writer switch end as `Refresh` says |
| `App.MainWindow.ResetParam` | src/app.py:1234-1235 | the panel is read from the defaults; the dictionary is not touched |
| `App.MainWindow.SaveProject` | src/app.py:1430-1442 | on a writable path the dictionary gets "input_files" set to the current list and is written; otherwise nothing changes |
| `App.MainWindow.NewProject` | src/app.py:1381-1401 | an empty pick changes nothing; otherwise the project file is `join(dir, "parameters.json")`, the dictionary starts from the defaults, every action is enabled, then refresh and save, and closing prompts |
| `App.MainWindow.OpenProject` | src/app.py:1403-1428 | the dictionary and path become the document's; a stored list replaces the input files; then refresh, and closing prompts |
| `App.MainWindow.RestoreInputFiles` | src/app.py:1424-1425 | a stored list replaces the records; no list keeps them |
| `App.MainWindow.RefreshAndPrompt` | src/app.py:1426-1428 | refresh, and set `pop` only if it raised nothing |
| `App.MainWindow.RefreshAndSave` | src/app.py:1398-1401 | refresh; on success, save and set `pop` |
| `App.MainWindow.CloseEvent` | src/app.py:1444-1463 | without `pop` the window closes; with it "Save and Exit" saves and closes, "Cancel" keeps it open, anything else closes without saving |
| `App.MainWindow.SaveProjectAs` | src/app.py:1465-1476 | an empty pick changes nothing; otherwise the project file moves into the directory, then refresh and save |

## Left out

- Qt itself: widgets, layouts, tool tips, palettes and the table display (`update_input_files`, `toggle_reference`). The panel is a value `Panel`. A widget's change signal is the method `ChangeWidgets`.
- The pipeline runner (`src/pipeline.py`, `PipelineRunner`, `PipelineLogDialog`, `run_pipeline`). It is a background thread around the external `pastaq.dda_pipeline`.
- JSON reading and writing. A project file on disk is a dictionary in `disk`; an unreadable file is `doc == None`.
- `os.chdir` and the current directory.
- The duplicate `src/params.py`, `src/identification.py`, `src/buttons.py` and `src/setup.py`.
- `pastaq.default_parameters`: the defaults are an input, `defaultParam`.
- Floating point: spin-box values are exact `real`s, compared and bounded exactly.
- The path separator of Windows. Paths are POSIX.
- Class-level attributes shared between instances (`input_files = []`, `parameters = {}`, `file_processor`), and the aliasing of the dictionary `save_project` mutates. Each widget owns its own list, dictionary and processor here.
- In `app.py`, `check_ms`, `check_id`, `set_jar_path`, `set_id_path` and `set_fasta_path`, the `Paths` tab of the older widget. They set `ms_jar`, `id_file` and `fasta` (src/app.py:350-384) from a file picker or a text field and show pop-ups; the model takes `msJar` and `idFile` as arbitrary values at each call of `process`.
- The `EditFileDialog` of `app.py`. It is represented by its answer: `group`, the chosen files, and whether it was accepted.
- Paths.Lower: lowers ASCII letters only. Python's `str.lower` also lowers other letters and can change the length; the model uses it for `.mzid`/`.mgf` suffix tests and the ASCII combo items, where the two agree.
- Settings.BoundReal: a `QDoubleSpinBox` also rounds its value to 2 decimals; reals are kept exact here.
- Settings.AsReal: an `int` too large for a C `double` (PyQt raises `OverflowError`) is taken as its exact value.
- The constructors of the widgets accept any complete panel whose widgets hold values they can show. The source's own widget kinds, ranges and items are the map `Settings.Layout`, and the predicate `Settings.Built` says a panel follows it; the lemmas about particular widgets (`DpiIsBounded`, `QuantTypeMedianIsIgnored`, `MinPeptidesTextRaises`) assume it.
- App.ParametersWidget.EditFile: assumes that each chosen `.mgf` converts without raising, because it uses the name the older `process` returns (`Idents`). The launches, deletions and exceptions of those conversions are stated by `App.ParametersWidget.Process`, not by this method.
- App.MainWindow.RestoreInputFiles: a stored `input_files` that is not a list of records is modelled as raising before the list changes. The source first assigns the value and then fails while displaying it; the model's list cannot hold a non-record value.
- App.MainWindow.NewProject: the source calls `pastaq.default_parameters('orbitrap', 10)` again, which this model takes to return the same dictionary as `defaultParam`.

The source and the plain reading of the program's purpose disagree in places; the model follows the source:
- A program that cannot be started makes `subprocess.run` raise `OSError`. The `except subprocess.SubprocessError` in `execute_msfragger` and `execute_idconvert` does not catch it, so `process` raises instead of showing a pop-up (`Files.RunStatus`, outcome `Crashed`).
- `load_params_path` confirms any path without checking it.
- `MainWindow.__init__` disables "Reset Parameters" and then enables it again, two lines below the creation of the view-mode action (src/app.py:1184).
- Reset reads the defaults into the panel only. The dictionary changes only through the writer, which is off while reading.
- A stored charge range with `min > max` is written as an empty list, and reading it back raises `ValueError` (`Settings.InvertedChargeRangeFails`).
- `new_project` and an `open_project` without "input_files" keep the input files of the previous project.

## Findings

| source | as written | input that shows it | evidently intended | confidence | as-written member | corrected member |
|---|---|---|---|---|---|---|
| src/parameter.py:237 | `edit_file` builds `files.EditFileDialog(sort=..., update=...)`, but `EditFileDialog.__init__` (src/files.py:35) takes only `parent`, so the call raises `TypeError` whenever a row is selected and no edit ever happens | any selection with at least one row, e.g. the range `RowRange(0, 0)` | build the dialog with its parent and edit the selected records as `examine_edit_files` does | high (not executed) | `Parameter.ParametersWidget.EditFileAsWritten` | `Parameter.ParametersWidget.EditFile` |
| src/app.py:475-495 | the older `process` ignores both exit codes and returns the `.mzID` name even when no such file was made | engine exits 1 leaving "a.pepxml", converter exits 1, on "a.mgf" | report the failure, as `FileProcessor.process` does | medium (not executed) | `App.UncheckedConversionMayNameMissingOutput` | `Files.FileProcessor.Process` |
