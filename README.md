# HaTSPiL step executor, in Dafny

HaTSPiL is a pipeline for tumour/normal sequencing analyses. Every stage of it
hands a command template to one `Executor` (`hatspil/core/executor.py`). The
executor:

- gathers the stage's input files from the previous stage's output (or from
  an explicit list);
- groups them per organism into execution units;
- pairs every tumour sample with its normal controls;
- optionally collapses the units or rewrites them through an input function;
- fills the `{...}` placeholders of the output-name and command templates;
- runs the commands;
- records the output names per organism (with the `.bam` names apart);
- deletes the inputs when allowed;
- commits the outputs as the next stage's input.

This project models that executor. It also models the parts of
`hatspil/mapping.py` that compute rather than configure a command:

- the SAM record filter `filter_alignment`;
- the scanner of the novoalign log in `align`;
- `_filter_non_hg`;
- the output names of the cutadapt stage.

Modules, one per file, following the program's structure:

| file | module | what it holds |
|---|---|---|
| `util.dfy` | `Util` | `Option`/`Result`/`Error`, the `posixpath` helpers used (`join`, `dirname`, `splitext`, `basename`), decimal text of integers |
| `files.dfy` | `Files` | barcodes, `AnalysisFileData` classification, `SingleAnalysis.sample`/`control` |
| `placeholders.dfy` | `Placeholders` | `RE_REPLACER` matches and the substitution loop, with `eval` as lookup in an environment |
| `grouping.dfy` | `Grouping` | units per organism, `_fix_input_filenames`, `_create_mod_input_filenames` |
| `normals.dfy` | `Normals` | `_get_fixed_normals_analyses` (as written, and corrected) |
| `outputs.dfy` | `Outputs` | `_get_output_filename`, `_handle_output_filename` and the output maps |
| `commands.dfy` | `Commands` | `_get_commands`, `_handle_command` and the failure messages |
| `executor.dfy` | `Execution` | parameters of a unit, deletion, `_handle_analysis`, `__call__` with its commit, `override_last_operation_filename`, and the classes `Analysis`, `Disk`, `Executor` |
| `mapping.dfy` | `Mapping` | the SAM filter with its `Storage` class, the log scanner, `_filter_non_hg`, cutadapt names |

The stateful parts are classes whose methods change fields named in their
`modifies` clauses:

- `Execution.Analysis` holds `last_operation_filenames`, `can_unlink` and
  `bamfiles`.
- `Execution.Disk` is the set of existing paths.
- `Outputs.StepOutputs` holds the two output dictionaries.
- `Mapping.Storage` holds the files' lines.

Most loops of the source are methods with loop invariants. Each such
method is proved equal to a specification function, and the properties
the source promises are lemmas about those functions. Three loops exist
only as recursive functions, which `Execution.Executor.GetInputFilenames`
calls through `Execution.InputFilenames`: the grouping loop of
`_get_input_filenames` (`Grouping.Group`), the read-index split
(`Grouping.SplitByReadIndex`) and the per-unit transform loop
(`Grouping.ModInputs` with `Grouping.TransformGroups`).

A step's run is `Execution.Execution`. Its partial effects are part of the
model: when a step fails, the files already deleted stay deleted and the
analysis keeps its old state.

External services are parameters of a `World` value:

- the barcode parser;
- `utils.get_sample_filenames`;
- the working directory;
- the configuration lookups (genome, dbsnp, cosmic, kit, human annotation);
- the exit status of a shell command.

Python dictionaries keep insertion order, so they are modelled as
association lists. `list.remove` compares `AnalysisFileData` objects by
identity, so every file carries an identity number.

Two error paths follow plainly from the code:

- A step whose command is not a single string (a list of commands) fails
  the assertion at `executor.py:321`, so it ends in an `AssertionError`
  (`Commands.HandleCommandFails`).
- `os.unlink` is called unguarded (`executor.py:293`), so deleting an
  input file that is missing raises `FileNotFoundError`
  (`Execution.UnlinkedSpec`).

## Model

| member | source | states |
|---|---|---|
| Files.TypeOf | hatspil/core/executor.py:51-63 | a file is a Control exactly when its name parses with a normal tissue, a Sample exactly when it parses with a tumour tissue |
| Files.FirstOfType | hatspil/core/executor.py:79-93 | the accessor returns the first file of the role, or None exactly when no file has it |
| Files.SampleIsFirst | hatspil/core/executor.py:79-93 | a unit led by a sample has that file as `sample`; its `control` is found among the rest |
| Placeholders.FindMatches | hatspil/core/executor.py:156 | every match group of `\{([^}]+)\}` is non-empty and holds no `}` |
| Placeholders.Lookup | hatspil/core/executor.py:233-239 | evaluation fails exactly for an unknown name, or for a None value when evaluating (not when building a failure message); otherwise it gives the bound string |
| Placeholders.Substitute | hatspil/core/executor.py:594-609 | the loop over the matches of the original template, reassigning the working string, computes `Substitution` |
| Placeholders.NoBraceUnchanged | hatspil/core/executor.py:594-609 | a template without `{` is returned unchanged |
| Placeholders.SubstitutionFails | hatspil/core/executor.py:231-242 | substitution fails exactly when some placeholder fails to evaluate, and then with the error of the first one |
| Placeholders.SubstitutionRenders | hatspil/core/executor.py:575-590 | a template made of literals and placeholders bound to values without `{` becomes the template with every placeholder replaced by its value |
| Commands.GetCommands | hatspil/core/executor.py:565-613 | the command-building loop computes `CommandList` |
| Commands.CommandListSpec | hatspil/core/executor.py:565-613 | an empty command is an assertion failure; a callback is one command; a string is one substituted command, failing iff its substitution fails; a list gives one command per item; a successful result is never empty |
| Commands.PreparedAllSpec | hatspil/core/executor.py:574-590 | a list of commands succeeds iff each string item substitutes; then item i becomes the substituted string or the callable itself |
| Commands.RunCommand | hatspil/core/executor.py:299-354 | running one command computes `HandleCommand` |
| Commands.HandleCommandFails | hatspil/core/executor.py:307-321 | a command fails iff it is a shell line, the run is not fake and its status is non-zero; a failure of a step whose command is not a single string is the assertion of line 321 |
| Commands.DefaultFailureMessages | hatspil/core/executor.py:320-332 | without custom strings the failure says "<arg0> exited with status <n>" and raises "<arg0> error" |
| Commands.StatusInFailureString | hatspil/core/executor.py:324-354 | a custom error string with `{status}` shows the exit status in its place; a custom exception string without placeholders is raised as given |
| Commands.ArgZeroIsOneWord | hatspil/core/executor.py:322 | arg0 holds neither a space nor a slash |
| Util.NatToStringRoundTrip | hatspil/core/executor.py:325 | the decimal text of a status is non-empty, all digits, and reads back as the status |
| Util.NatToStringInjective | hatspil/core/executor.py:325 | different numbers have different decimal texts |
| Outputs.AsOutput | hatspil/core/executor.py:251-254 | the names are kept; a single name is returned as a string, any other count as a list |
| Outputs.GetOutputFilename | hatspil/core/executor.py:203-272 | the output-name procedure with its loops computes `OutputFilename` |
| Outputs.ApplyOutputFunction | hatspil/core/executor.py:244-249 | the flat map loop computes `FlatMap` |
| Outputs.FlatMapFails | hatspil/core/executor.py:244-249 | the flat map fails iff the output function fails on some name, and then on the first such name |
| Outputs.FlatMapOneEach | hatspil/core/executor.py:244-249 | a function giving one name per name yields a list as long as its input, in order |
| Outputs.SubstituteAllSpec | hatspil/core/executor.py:230-242 | the formats substitute iff each one does, and then give one name per format, in order |
| Outputs.OutputWithoutFormat | hatspil/core/executor.py:256-272 | without a format: None when there is no output function, else the flat map over the input names, failing iff the function fails on one of them |
| Outputs.OutputFromFormats | hatspil/core/executor.py:209-254 | with formats and no output function: success iff every joined format substitutes; one name per format, in order; a single format gives a string |
| Outputs.PathJoinedOntoFormats | hatspil/core/executor.py:224-228 | `output_path` is joined onto every plain format |
| Outputs.AbsoluteNames | hatspil/core/executor.py:177-184 | the absolutising loop computes `Absolutized` |
| Outputs.AbsolutizeIdempotent | hatspil/core/executor.py:179-184 | with an absolute working directory, absolutising an absolutised name changes nothing |
| Outputs.DirnameOfAbsolute | hatspil/core/executor.py:179-181 | an absolute name has a non-empty dirname starting with `/`, so it is kept as it is |
| Outputs.AppendGet | hatspil/core/executor.py:198 | `setdefault(k, []).append(name)` adds the name at the end of k's list and changes no other list |
| Outputs.AppendKeys | hatspil/core/executor.py:198 | a new organism is added at the end of the keys, an existing one keeps its place |
| Outputs.RecordNamesGet | hatspil/core/executor.py:186-198 | each organism's list grows by exactly the names recorded under it, in order |
| Outputs.RecordedUnderAll | hatspil/core/executor.py:195-198 | without split by organism every name is recorded under the unit's organism and none under another |
| Outputs.RecordNamesConsistent | hatspil/core/executor.py:186-201 | recording keeps the invariant that the bam map holds, per organism, exactly the `.bam` names of the output map |
| Outputs.HandledOutputSpec | hatspil/core/executor.py:163-201 | with `save_only_last` only the last command records; a recording appends the absolutised names in order under their organisms; the bam invariant holds |
| Outputs.StepOutputs.Add | hatspil/core/executor.py:198-201 | one name is appended to its organism, and to the bam map when it ends in `.bam` |
| Outputs.StepOutputs.RecordAll | hatspil/core/executor.py:186-201 | the recording loop leaves the maps as `RecordNames` describes |
| Outputs.StepOutputs.Handle | hatspil/core/executor.py:163-201 | the maps after handling one command's output are `HandledOutput` of the maps before |
| Grouping.GroupShape | hatspil/core/executor.py:482-505 | the units hold the input names in order; a plain list is organism ""; a dict keeps its organisms in order; split input files gives single-file units, otherwise one unit per organism |
| Grouping.FixInputFilenames | hatspil/core/executor.py:407-419 | the in-place rewrite computes `Collapsed` |
| Grouping.CollapseKeepsFiles | hatspil/core/executor.py:407-419 | collapsing keeps the organisms and all files in order; without split reads each organism has one unit, the concatenation of its former units |
| Grouping.SplitByReadIndexSpec | hatspil/core/executor.py:371-383 | grouping by read index gives distinct keys, each group is exactly the names with that key, in order, and every name's key has a group; the groups come in the order in which their keys first occur |
| Grouping.SplitOrder | hatspil/core/executor.py:371-383 | the groups built by the loop are ordered by the first occurrence of their keys among the names |
| Grouping.ModUnitsOfSplit | hatspil/core/executor.py:369-394 | with split reads, a unit's transformed units are exactly one single-file unit per read group whose result is truthy, in read-group order, named by that result; every such group yields its unit, and there are never more units than groups |
| Grouping.TransformGroupsSingle | hatspil/core/executor.py:385-394 | every added unit holds one non-empty file named by the result of some read group, and there are at most as many units as groups |
| Grouping.TransformGroupsExact | hatspil/core/executor.py:385-394 | the added units are exactly one single-file unit per truthy result of the input function, in read-group order, each named by its result |
| Grouping.TransformGroupsComplete | hatspil/core/executor.py:385-394 | every read group with a truthy result yields a unit named by it; when every result is truthy there is one unit per group, unit i being group i's |
| Grouping.TruthyKeeps | hatspil/core/executor.py:391-394 | keeps every truthy result, keeps a list without empty strings whole, and keeps only truthy results taken from the list |
| Grouping.ModUnitsWhole | hatspil/core/executor.py:395-399 | without split reads, unit k yields exactly one transformed unit, named by the input function on all of unit k's names, whatever the result, in unit order |
| Grouping.ModInputsKeepOrganisms | hatspil/core/executor.py:356-405 | for a non-empty input the transform succeeds; the first result is the input fixed in place, and both results have the input's organisms in order |
| Normals.FixNormals | hatspil/core/executor.py:422-463 | the pairing loop, with the corrected removal (see Findings), computes `Paired` |
| Normals.FixNormalsAt | hatspil/core/executor.py:426-461 | one iteration of the corrected pairing loop computes `PairStep` |
| Normals.ChosenSpec | hatspil/core/executor.py:442-455 | the controls a sample takes: the single control found, else those of the sample's sequencing when there are any, else all found |
| Normals.ControlsFound | hatspil/core/executor.py:434-440 | a (unit, file) pair is found exactly when the file is in that unit and is a normal file with the sample's identity |
| Normals.PairStepSpec | hatspil/core/executor.py:426-461 | for every list of units and every sample index: the sample's unit becomes itself plus the chosen controls, less the chosen controls that were already in it (each once); every other unit loses exactly the chosen controls found in it; when none of the chosen controls is in the sample's unit, that unit is exactly itself plus the chosen controls |
| Normals.AsWrittenAgrees | hatspil/core/executor.py:456-461 | the loop as written and the corrected one give the same units whenever no chosen control lies in the sample's own unit |
| Normals.RemoveEach | hatspil/core/executor.py:460-461 | the corrected removal loop computes `RemoveControls` |
| Normals.FirstUnparsed | hatspil/core/executor.py:434-439 | names the first file, in unit order, whose barcode cannot be read, or None when all can |
| Normals.ControlsFrom | hatspil/core/executor.py:434-440 | every control found is a normal file with the sample's identity, in the unit it is recorded with |
| Normals.PairedKeepsFiles | hatspil/core/executor.py:422-463 | pairing moves files and never duplicates or loses one: every file occurs as often as before, and no unit is empty |
| Normals.PairedErrors | hatspil/core/executor.py:430-439 | pairing cannot fail when every file parses; a failure names a file of the input whose barcode cannot be read |
| Normals.SingleControlJoinsSample | hatspil/core/executor.py:442-445 | scenario: a single matching control is moved into the sample's unit and its emptied unit is dropped |
| Normals.SameSequencingPreferred | hatspil/core/executor.py:446-461 | scenario: among several controls, those with the sample's sequencing are preferred and moved; the others stay |
| Normals.AsWrittenDuplicatesControls | hatspil/core/executor.py:456-461 | as written, two controls already in the sample's unit are appended again and removed from a list that is no longer in the analyses, so they end up twice |
| Normals.CorrectedMovesControls | hatspil/core/executor.py:456-461 | with the removal applied to the unit in the list, the same unit stays as it was |
| Execution.PairedGroups | hatspil/core/executor.py:507-511 | pairing per organism keeps the organisms in order |
| Execution.PairOrganisms | hatspil/core/executor.py:507-511 | the loop over the organisms computes `PairedGroups` |
| Execution.InputFilenamesSpec | hatspil/core/executor.py:465-517 | no explicit inputs and no previous outputs raises; with an input function both maps have the same organisms; without one the second map is empty; without split reads every organism has one unit |
| Execution.Executor.GetInputFilenames | hatspil/core/executor.py:465-517 | the procedure computes `InputFilenames` from the step and the analysis' last outputs |
| Execution.JobsCoverUnits | hatspil/core/executor.py:932-935 | without an input function the units run in order, each alone |
| Execution.JobsPairTransformed | hatspil/core/executor.py:924-927 | with as many transformed as original units, each original unit runs with its transformed unit |
| Execution.KitParamsSpec | hatspil/core/executor.py:553-563 | `indels` is bound iff there is a kit and the organism (or the human annotation) starts with "hg", to the kit's `indels_<organism>`; a missing attribute raises |
| Execution.AdditionalParamsSpec | hatspil/core/executor.py:519-551 | `organism_str` is "" for a falsy organism, else "." + organism; the genome, dbsnp and cosmic entries are present exactly when their lookup succeeds, with its values; nothing else is bound |
| Execution.UnitFileData | hatspil/core/executor.py:638-640 | the unit's file data is a sample or, failing that, a control of the unit, absent exactly when every file is unspecified |
| Execution.UnitEnvSingleFile | hatspil/core/executor.py:634-636 | `input_filename` is bound exactly when the unit has one file, to that file; `organism` is bound |
| Execution.BindOutputSpec | hatspil/core/executor.py:664-666 | `output_filename` is bound to None, to the single name, or (with `output_filename[k]`) to every name of a list |
| Execution.BindItemsSpec | hatspil/core/executor.py:664-666 | binding a list binds each `name[k]` to item k and leaves every other key as it was |
| Execution.IndexedInjective | hatspil/core/executor.py:664-666 | different indexes give different `name[k]` keys |
| Execution.UnlinkedSpec | hatspil/core/executor.py:290-297 | deletion removes only the names and their `.bai` companions; when it goes through, none of the names is left and neither is the `.bai` file of any `.bam` name (compared in lower case); a failure is `FileNotFoundError` for one of the names that is not there |
| Execution.UnlinkedCompletes | hatspil/core/executor.py:290-297 | distinct existing names, none the companion of another, are all deleted without error |
| Execution.UnlinkStepSpec | hatspil/core/executor.py:281-288 | nothing is deleted unless `unlink_inputs`, `can_unlink` and not `run_fake`; then the pre-transform files are deleted when there is an input function, else the unit's |
| Execution.Disk.Unlink | hatspil/core/executor.py:293 | an existing path is removed; a missing one raises `FileNotFoundError` and nothing changes |
| Execution.Disk.UnlinkAll | hatspil/core/executor.py:290-297 | the deletion loop leaves the paths and the error that `Unlinked` describes |
| Execution.Executor.UnlinkFilename | hatspil/core/executor.py:274-297 | the deletion procedure leaves the disk and the error that `UnlinkStep` describes |
| Execution.OnlyHumanSkips | hatspil/core/executor.py:626-685 | with `only_human` and a unit (the transformed one under an input function) of a non-human organism, nothing runs and nothing is recorded, yet the deletion step runs on the pre-transform files: the step ends exactly as that deletion does; under an input function a missing or empty transformed unit fails its assertion instead |
| Execution.SaveOnlyLastRecordsOnce | hatspil/core/executor.py:669-683 | with `save_only_last` and successful commands, the output names are recorded once, after the last command |
| Execution.FakeRunSucceeds | hatspil/core/executor.py:308-318 | a fake run never fails a command |
| Execution.RunCommandsConsistent | hatspil/core/executor.py:669-683 | running a unit's commands keeps the output maps consistent with the bam maps |
| Execution.AnalyzedConsistent | hatspil/core/executor.py:615-685 | handling a unit keeps the output maps consistent with the bam maps |
| Execution.RunJobsConsistent | hatspil/core/executor.py:917-944 | handling all units keeps the output maps consistent with the bam maps |
| Execution.Executor.RunUnit | hatspil/core/executor.py:659-683 | computing and running a unit's commands leaves the output maps and the error that `UnitCommands` describes |
| Execution.Executor.HandleUnit | hatspil/core/executor.py:645-685 | one unit's run leaves the disk, the output maps and the error that `UnitOutcome` describes: a kit lookup that raises fails the unit before anything runs |
| Execution.Executor.HandleKit | hatspil/core/executor.py:654-685 | once the kit parameters are known, the run leaves the disk, the output maps and the error that `KitOutcome` describes: an organism the only_human gate refuses runs no command but still has its inputs deleted |
| Execution.Executor.HandleAnalysis | hatspil/core/executor.py:615-685 | `_handle_analysis` leaves the disk, output maps and error that `Analyzed` describes |
| Execution.Executor.HandleJobs | hatspil/core/executor.py:917-944 | the loop over organisms and units leaves the disk, output maps and error that `RunJobs` describes |
| Execution.Executor.Call | hatspil/core/executor.py:892-951 | a call stores the step, and leaves the analysis, the disk and the error that `Execution` describes |
| Execution.Executor.CommitOutputs | hatspil/core/executor.py:946-951 | the analysis afterwards is `Commit` of the one before: the outputs become the last operation's files, which later steps may delete, only when overriding, and the bam files are replaced only when writing bam files and some were produced |
| Execution.ExecutionCommits | hatspil/core/executor.py:946-951 | a failed step leaves the analysis unchanged; with `override_last_files` the last outputs become this step's output map and `can_unlink` true, otherwise both are untouched; `bamfiles` changes only with `write_bam_files`, and when it changes under `override_last_files` it holds, per organism, the `.bam` names of the new last outputs |
| Execution.CommitOfRun | hatspil/core/executor.py:917-951 | the step completes exactly when the input lookup succeeds and the loop over the units completes; then the last outputs hold, per organism, the loop's output lists (when overriding), and `bamfiles` becomes the loop's bam map, itself the `.bam` names of those outputs, when `write_bam_files` is set and some were produced, and stays otherwise |
| Execution.FromOutputsGet | hatspil/core/executor.py:946-947 | the committed last outputs hold, per organism, exactly the step's output list |
| Execution.OverrideSpec | hatspil/core/executor.py:953-997 | the override succeeds iff the last outputs hold exactly one name in a known form; then they hold the new name in the same form under the same organism; every failure is one of its own errors |
| Execution.Executor.OverrideLastOperationFilename | hatspil/core/executor.py:953-997 | the analysis' last outputs become `Overridden` of the old ones, or stay as they were on failure; `can_unlink` and `bamfiles` are untouched |
| Mapping.ReSplitTabbed | hatspil/mapping.py:137 | a record of tab-separated fields ended by a newline splits on whitespace into its fields and one empty piece |
| Mapping.ParseIntRoundTrip | hatspil/mapping.py:148 | reading back the decimal text of an integer gives the integer |
| Mapping.FirstMismatchTag | hatspil/mapping.py:145-149 | the value of the first `NM:i:` tag, or none exactly when no tag has that prefix |
| Mapping.FilterLinesSpec | hatspil/mapping.py:132-155 | the filter goes through iff no line raises; it writes only input lines whose verdict is keep, and when it goes through, every such line, header lines included |
| Mapping.FilterLinesAppend | hatspil/mapping.py:132-155 | filtering is line by line: the kept lines of a file are those of its first part followed by those of the rest, and the first error stops it |
| Mapping.ClippedDropped | hatspil/mapping.py:138-140 | a record whose CIGAR has N, H or P is dropped |
| Mapping.MismatchesDecide | hatspil/mapping.py:142-152 | an unclipped record without an `NM:i:` tag from field 12 on is dropped; with one, it is kept iff the count is at most a 25th of the read length |
| Mapping.Storage.CheckLine | hatspil/mapping.py:133-153 | the tag loop for one line computes `Verdict` |
| Mapping.Storage.FilterAlignment | hatspil/mapping.py:128-155 | a missing input raises; otherwise the kept lines replace the input and the temporary file is gone; on an error the partial temporary file is left and the input is untouched |
| Mapping.StatValue | hatspil/mapping.py:223 | a statistics value is a non-empty word |
| Mapping.Row | hatspil/mapping.py:233-238 | a histogram row is one to three cells starting with the line's second word |
| Mapping.ScanConsistent | hatspil/mapping.py:217-239 | the scan keeps one value per label, labels start with "Paired Reads", a closed section ends with "No Mapping Found", rows start with the "From" header and never hold "Mean" |
| Mapping.ScanStatLines | hatspil/mapping.py:217-225 | inside a statistics section, every line before "No Mapping Found" appends its label and the first word of its value, in order, and nothing else changes |
| Mapping.ScanTableLines | hatspil/mapping.py:230-236 | inside the insert-size table, every line with a second word other than "Mean" is written as `fields[1:4]`, in order, and nothing else changes |
| Mapping.ScanOtherLines | hatspil/mapping.py:226-239 | outside both sections, a line that opens neither changes nothing |
| Mapping.NovoalignReportContent | hatspil/mapping.py:217-241 | for every log made of other lines, a statistics section from "Paired Reads" to "No Mapping Found", other lines, and a table from its "From" header to a "Mean" line: the statistics file holds exactly the labels and first value words of the section's lines, the CSV file exactly the `fields[1:4]` of the header and the table lines, and nothing after "Mean" is read |
| Mapping.NovoalignReportSpec | hatspil/mapping.py:206-241 | the statistics file is written iff the scan goes through, with labels and values of equal length starting with "Paired Reads"; CSV rows have one to three cells from the "From" header on and never the "Mean" line |
| Mapping.ScanLineStops | hatspil/mapping.py:232-234 | inside the table a line whose second word is "Mean" ends the scan and nothing after it is read |
| Mapping.ScanLog | hatspil/mapping.py:206-241 | the scanning loop with its `break` computes `NovoalignReport` |
| Mapping.FilterNonHgSpec | hatspil/mapping.py:436-441 | a name that does not parse raises; otherwise the name is kept iff its organism is absent or starts with "hg" in either case, and is returned unchanged |
| Mapping.FormatOneSlot | hatspil/mapping.py:68-69 | a template with one `%d` and no other percent sign formats to the number written in its place |
| Mapping.CutadaptPair | hatspil/mapping.py:68-69 | the output function turns a `.R%d.fastq` name into its R1 and R2 names |
| Mapping.CutadaptOutputNames | hatspil/mapping.py:55-69 | the cutadapt step's output name for an organism is the list of the R1 and R2 files under the FASTQ directory |

## Left out

- Python's `eval` over `locals()`: the model looks names up in an explicit environment. An expression other than a name or `name[k]`, and the shadowing of a parameter by a local variable of the same name, are not modelled.
- Execution.UnitEnv: the arguments `output_filenames`, `output_bamfiles` and `analyses` of `_handle_analysis`, and `local_params`, are in `locals()` for the output and command templates (`executor.py:659-668`) but are not bound in the model, so a template naming one of them fails to evaluate there. No template in `hatspil/mapping.py` or `hatspil/variant_calling.py` names them.
- Outputs.OutputFilename: `re.sub` with the matched text as the pattern is modelled as a literal replace-all. The two differ for placeholders that hold regular-expression metacharacters, and also for values that hold backslashes, since `re.sub` reads escapes in the replacement (`\n` becomes a newline, `\1` or `\d` raise `re.error`).
- Commands.Failure: the failure strings go through the same `re.sub` inside a `try` (`executor.py:334-352`), so a regular-expression error in the pattern or the replacement yields "cannot replace parameter ..." there; that path is not modelled. A `{name[k]}` placeholder in an error string is not replaced by the source, because `[k]` reads as a character class, while the model replaces it.
- Commands.Failure: the failure-string environment holds the unit's locals that the model binds, but not `commands`, `command_index`, `current_command`, `output_filenames`, `output_bamfiles` and `analyses` (`executor.py:669-673`); a failure string naming one of them ends in "cannot replace parameter ..." in the model, where the source would insert the value.
- Execution.BindOutput: a single output name binds no `output_filename[k]`. In Python `output_filename[k]` would then index the string and give its k-th character; that is not modelled.
- Normals.FixNormals: the pairing used by Normals.FixNormals, Normals.FixNormalsAt, Normals.RemoveEach, Execution.PairedGroups, Execution.PairOrganisms, Execution.InputFilenames, Execution.Executor.GetInputFilenames and Execution.Executor.Call is the corrected loop of the Findings. As written, a sample unit [T, N1, N2] whose two controls are chosen becomes [T, N1, N2, N1, N2]; Normals.AsWrittenAgrees shows the two loops agree whenever no chosen control lies in the sample's own unit.
- Execution.QuotedText: `str()` of a list of output names writes each name between single quotes; the escaping Python's `repr` applies to a name holding a quote or a backslash is not modelled.
- The `kit` and `config` objects themselves are not bound in the environment. Only their attributes used by the parameter builders are.
- Process launch, logging and the side effects of callback commands: a shell command yields an exit status given by a parameter, and a callback yields 0.
- `utils.get_sample_filenames`, `BarcodedFilename`, `os.getcwd` and the genome, dbsnp, cosmic, kit and human-annotation lookups are parameters; their own behaviour is not part of this model.
- Mapping.Verdict: `math.floor(read_length * 0.04)` is read as the integer `read_length / 25`; floating-point rounding is not modelled.
- Mapping.IsSpace: `\s` and `str.split()` are modelled on ASCII whitespace only, not the Unicode whitespace Python also matches.
- Mapping.ParseInt: `int()` also accepts surrounding whitespace and digit-group underscores; these cannot occur in a field split on whitespace, except for underscores, which are not modelled.
- Mapping.Formatted: only the `%d`, `%i`, `%s` and `%%` directives are modelled; flags, widths and other conversions are refused.
- Mapping.Storage.FilterAlignment: the argument plumbing of `filter_alignment` (`kwargs['input_filename']`, its length check and the `raise` of a string at `mapping.py:126-127`) is not modelled; the filter takes the one file name directly.
- Mapping.ScanLog: the file handles and the `csv` quoting of the written rows are not modelled; the report is the rows as lists of cells.
- The command strings of the `mapping.py` stages, `hatspil/variant_calling.py` and `hatspil/db/db.py` are not part of this model.
- Negative list indexes in templates (`output_filename[-1]`) are not bound.

## Findings

| source | as written | input that shows it | evidently intended | confidence | as-written member | corrected member |
|---|---|---|---|---|---|---|
| hatspil/core/executor.py:456-461 | with several matching controls, `analyses[i]` is replaced by a new list, and the chosen controls are then removed from the units they were found in, which for the sample's own unit is the old list that is no longer in `analyses` | one unit `[T, N1, N2]`: tumour `T` with two normals `N1`, `N2` of the same identity and sequencing | controls are moved, never copied: the unit stays `[T, N1, N2]` | not executed; medium | Normals.AsWrittenDuplicatesControls | Normals.CorrectedMovesControls |

The executor model uses the corrected pairing (`Normals.Paired` with
`asWritten` false). `Normals.PairedKeepsFiles` proves that the corrected
pairing keeps every file's number of occurrences.
