# Experiment driver of cass2017_vis, modelled in Dafny

The `Run` class of `src/run.py` trains many small neural networks with random settings.
It records every checkpoint of every run as one tab-separated row of an experiment
directory's `index.txt`. It also writes a column description file `paramInfo.txt`, a plot
per row under `images/`, and a prediction dump per row under `runs/`.

This project models that class:

- **Run settings.** Drawing a run's settings: `randomize_training_params`, with the
  random draws given as inputs.
- **Columns.** The column tables `param_info` / `param_names` / `param_str` /
  `all_param_info`, and the row that joins them.
- **Rates.** The true and false positive rates `calc_tpr_fpr`.
- **Step schedule.** The epoch schedule that decides how many steps the trainer is asked
  for.
- **Prediction dump.** `save_current_run`.
- **Driver.** The driver `execute_runs`, with its mode dispatch, run loop and
  checkpoint loop.

The driver is a class `Driver.Run` over a file system modelled as a map from path to
file. A file is a list of lines, an opaque image, or an opaque dataset file.

Modules:

- `Text`: decimal text of integers, tab join and split, and their round trips.
- `Metrics`: `calc_tpr_fpr`, as a specification function and as the two-population loop.
- `Schedule`: the step targets at epochs 25, 50, 100, 200, 400 and the deltas the trainer
  gets.
- `Sampling`: the value ranges of the draws, the sampled settings, and `feature_ids.sort()`
  on the shuffled prefix.
- `NeuralNet`: the classifier as far as the driver sees it. It holds the settings, is
  built, and records every `train(num_steps)` call.
- `Layout`: the column tables, the index row, the header, `paramInfo.txt`, and the
  prediction dump.
- `Seqs`: generic facts about mapping over and appending to sequences, used by the
  driver's loop proofs.
- `Driver`: paths, file-system frames, the index contents as a function of the inputs,
  and the class `Run` with its methods.

Every run's random outcome is an input, as are the trainer's losses and timings and the
classifier's predictions. The inputs are:

- the draws;
- the dataset drawn for a `full`-mode run;
- the number of training samples;
- per checkpoint, the elapsed time, the two losses and the predicted labels.

Contracts then state what the driver writes for those inputs. The one exception is the time
columns, whose arithmetic is exact (see "## Left out").

## Model

| member | source | states |
|---|---|---|
| Text.NatToString | src/run.py:330 | `str(n)` of a non-negative integer: at least one character, all decimal digits (its inverse is ParseNatToString) |
| Text.IntToString | src/run.py:127-133 | `str(i)` of any integer: never contains a tab (its inverse is ParseIntToString) |
| Text.Join | src/run.py:283-287 | `sep.join(parts)`: the parts with one separator between neighbours (its inverse on tab-free parts is SplitJoin) |
| Text.Split | src/run.py:329-343 | `s.split(sep)`: always at least one piece, used to read index rows back |
| Text.ParseNatToString | src/run.py:330 | the decimal text `str(n)` of a row number reads back as that number |
| Text.ParseIntToString | src/run.py:127-133 | `str(i)` of any integer column is integer text that reads back as `i` |
| Text.NatToStringInjective | src/run.py:326-327 | different row numbers give different file names |
| Text.SplitJoin | src/run.py:329-344 | splitting a tab-joined line whose fields have no tab gives back the fields |
| Metrics.Count | src/run.py:213-214 | a label count is at most the slice length |
| Metrics.CountMatches | src/run.py:215-216 | true (false) positives are at most the positives (negatives), so no rate divides by zero |
| Metrics.Rate | src/run.py:219-220 | a rate is `hits / total` in [0, 1]; it is 0 exactly when there are no hits and 1 exactly when every case is a hit |
| Metrics.Drop | src/run.py:207-211 | the train slice followed by the test slice is the whole list, for any `num_training` (Python slices clamp) |
| Metrics.PopulationRates | src/run.py:213-220 | one population's `[tpr, fpr]`: two rates, each in [0, 1] |
| Metrics.TprFpr | src/run.py:205-224 | `calc_tpr_fpr()`: four rates, each in [0, 1] (order and slices in TprFprLayout) |
| Metrics.PopulationRatesMeaning | src/run.py:213-223 | a slice's two rates are TP/P and FP/N, each 0 when its count of hits is 0 and each in [0, 1] |
| Metrics.TprFprLayout | src/run.py:205-224 | four rates: train TPR, train FPR, test TPR, test FPR, from a split that partitions labels and predictions |
| Metrics.HalfAndHalfExample | src/run.py:213-220 | y = [1,1,0,0], yp = [1,0,0,1] gives TPR 0.5 and FPR 0.5 |
| Metrics.AllNegativeExample | src/run.py:219-220 | a slice with no positives and no hits has rates 0 and 0 |
| Metrics.CalcTprFpr | src/run.py:197-224 | the two-population loop returns the four rates `TprFpr` defines, each in [0, 1] |
| Schedule.StepTargets | src/run.py:306-307 | one cumulative `curr_step` per epoch of the schedule, each at most `epoch * n / batch_size` (the quotient rounded down) |
| Schedule.StepDeltas | src/run.py:304-311 | the `num_steps` of each `train` call, starting from `prev_step = 0`; its properties are in DeltasLength, DeltasNonNegative and StepDeltasAddUp |
| Schedule.StepTargetsNonDecreasing | src/run.py:306-307 | the cumulative step targets never decrease over the epochs |
| Schedule.DeltasAt | src/run.py:311 | the k-th `num_steps` is target k minus target k - 1, or minus 0 for the first |
| Schedule.DeltasTelescope | src/run.py:304-348 | the `num_steps` of a run add up to its last target minus the starting `prev_step` |
| Schedule.DeltasNonNegative | src/run.py:306-311 | no `num_steps` is negative when the targets do not decrease |
| Schedule.DeltasLength | src/run.py:306-311 | one `num_steps` per epoch |
| Schedule.StepDeltasAddUp | src/run.py:304-311 | five non-negative `num_steps` that add up to `400 * n / batch_size` |
| Schedule.ScheduleExample | src/run.py:306-307 | n = 200, batch 25 gives targets [200, 400, 800, 1600, 3200] and deltas [200, 200, 400, 800, 1600] |
| Sampling.SortFeatureIds | src/run.py:85-88 | `feature_ids.sort()` on the drawn prefix: strictly ascending, in range, and holding exactly the drawn ids in range (permutation in SortedIsPermutation) |
| Sampling.SampledParams | src/run.py:71-89 | the settings `randomize_training_params` assigns from the draws; their ranges are in SampledParamsWellShaped |
| Sampling.AscendingMembers | src/run.py:88 | the sorted feature ids are strictly ascending, in range, and are exactly the members of the prefix |
| Sampling.SortedIsPermutation | src/run.py:85-88 | sorting a duplicate-free prefix of ids is a permutation of it |
| Sampling.MembersDependOnMembership | src/run.py:88 | the sort result depends only on which ids are present |
| Sampling.RemoveLowest | src/run.py:88 | removing the lowest id keeps the rest distinct and in the narrower range, with multiset and membership accounted |
| Sampling.SampledParamsWellShaped | src/run.py:76-89 | percTrain in 10..90 step 10 and batch size in [1, 30]; rates are from their tables; 0 to 6 layers of 1 to 8 neurons; a non-empty, strictly ascending, in-range feature set |
| Sampling.SampledFeaturesPermutePrefix | src/run.py:85-89 | the feature ids are the drawn prefix of the shuffled ids, reordered, and as many |
| Layout.ParamInfos | src/run.py:96-109 | `param_info()`: 16 + F columns, the feature columns at 4 .. 4 + F named after the features |
| Layout.ParamNames | src/run.py:111-117 | `param_names()`: 16 + F names, the feature names at 4 .. 4 + F |
| Layout.ParamStr | src/run.py:119-137 | `param_str()`: 16 + F values, one per feature id of the table, the dataset name first |
| Layout.FeatureFlags | src/run.py:130 | one flag per feature id: "1" exactly when the id is selected, "0" exactly when not |
| Layout.HiddenSlots | src/run.py:133 | one slot per possible hidden layer, "0" for every slot past the layer count |
| Layout.ParamColumnsAlign | src/run.py:111-137 | `param_names()` and `param_str()` match one to one, with 10 + features + max_hidden columns, segment by segment |
| Layout.SampledParamColumns | src/run.py:124-133 | feature flags are "1" exactly at the selected ids; hidden slot i is "0" exactly past the layer count and holds that layer's neuron count before |
| Layout.PositiveTextIsNotZero | src/run.py:133 | a used hidden slot (at least one neuron) is never written as "0" |
| Layout.AllParamInfo | src/run.py:261-279 | `all_param_info`: 28 + F columns, starting with `ID` and `imagePath` |
| Layout.HeaderLine | src/run.py:287 | the header line, the tab-join of the `all_param_info` names; it splits back in HeaderColumns |
| Layout.InfoLines | src/run.py:282-284 | `paramInfo.txt`: its own header line, then one line per column |
| Layout.ShowRate | src/run.py:339-342 | `str()` of a rate: the integer default 0 prints as `0`, any other rate through the float text |
| Layout.IndexRowFields | src/run.py:329-343 | the fields of an index row: 12 + `len(param_str())`, the row number and image path first, then `param_str()` unchanged |
| Layout.IdNamesTabFree | src/run.py:262-263 | the id column names have no tab |
| Layout.DataNamesTabFree | src/run.py:98-101 | the data column names have no tab |
| Layout.CountNamesTabFree | src/run.py:103-104 | the layer-count column names have no tab |
| Layout.RateNamesTabFree | src/run.py:106-109 | the rate column names have no tab |
| Layout.ProgressNamesTabFree | src/run.py:265-270 | the progress column names have no tab |
| Layout.StatNamesTabFree | src/run.py:271-276 | the rate-output column names have no tab |
| Layout.OutputNamesTabFree | src/run.py:265-278 | no output column name has a tab |
| Layout.VariableNamesTabFree | src/run.py:102-105 | feature and hidden-layer column names have no tab |
| Layout.ParamNamesTabFree | src/run.py:96-117 | no `param_names()` entry has a tab |
| Layout.NamesTabFree | src/run.py:261-279 | no `all_param_info` name has a tab |
| Layout.ParamStrTabFree | src/run.py:119-137 | no `param_str()` value has a tab |
| Layout.RowMatchesHeader | src/run.py:329-343 | an index row splits back into its fields, as many as the header's, starting with the row number and the image path |
| Layout.HeaderColumns | src/run.py:287 | the header line splits into the `all_param_info` names, 22 + features + max_hidden of them |
| Layout.ParamInfoMatchesHeader | src/run.py:282-287 | `paramInfo.txt` has one line per index column after its own header, line i + 1 starting with header column i |
| Layout.DumpLines | src/run.py:187-195 | the dump file: the `label_pred` header, then one line per prediction (read back in DumpRoundTrip) |
| Layout.NegPos | src/run.py:189-190 | the remap turns each 0 into -1 and keeps every other label |
| Layout.DumpRoundTrip | src/run.py:187-195 | the dump has `len(yp) + 1` lines headed `label_pred`, each further line integer text, and reads back as the predictions |
| Layout.DumpLabelValues | src/run.py:189-195 | for 0/1 labels, line i + 1 is "1", or "-1" / "0" for a 0 with / without remapping |
| Layout.WriteDump | src/run.py:192-195 | the write loop produces the dump's lines |
| Driver.PsaDir | src/run.py:249-251 | the `psa_runs` directory `../output/<name>_25` |
| Driver.PsaDirInjective | src/run.py:249-251 | distinct dataset names give distinct `psa_runs` directories |
| Driver.NestedPsaDirExample | src/run.py:249-252 | the directory of `a_25/b` lies inside that of `a`, so emptying one can empty the other |
| Driver.Iterations | src/run.py:238-257 | the number of directories a mode writes: 1 for `full`, one per dataset for `psa_runs`, 0 otherwise |
| Driver.OutDirOf | src/run.py:240-251 | the `out_dir` of iteration g: `../output/full`, or the g-th dataset's `psa_runs` directory |
| Driver.Cleaned | src/run.py:174-185 | `create_dir(dir, clean=True)` on the file map: every path under `dir` removed, all else kept |
| Driver.RelativeImagePathOf | src/run.py:331 | the recorded image path is the image file name with `out_dir + '/'` cut off, and prefixing it gives the file name back |
| Driver.InnerPathsUnder | src/run.py:288-289 | plots lie in `images`, dumps in `runs`, never the other way, and `input.txt` lies in the directory |
| Driver.FixedPathsOutside | src/run.py:260-291 | `index.txt`, `paramInfo.txt` and `input.txt` are distinct and not inside `images` or `runs` |
| Driver.RowPathsDistinct | src/run.py:326-327 | plot and dump paths of different rows, and the index, never coincide |
| Driver.RelativeImagePathTabFree | src/run.py:331 | the recorded image path has no tab |
| Driver.GroupKeys | src/run.py:293-345 | a directory with `num_runs` runs has `5 * num_runs` rows |
| Driver.GroupKeysNumbered | src/run.py:293-345 | row r is checkpoint `r % 5` of run `r / 5`, on that run's dataset and settings |
| Driver.RowLine | src/run.py:326-343 | a row is the tab-join of id, image path, `param_str()`, epoch, step, total and mean time, losses and rates; its shape is in RowLineShape |
| Driver.RowLineShape | src/run.py:329-344 | each index row has the header's width and starts with its row number and `images/<row>.png` |
| Driver.GroupRowsShape | src/run.py:293-345 | a directory's rows number 0 .. 5 * num_runs - 1 in order, each shaped as the header |
| Driver.GroupStepsAddUp | src/run.py:304-311 | every run of a directory asks the trainer for five non-negative step counts adding up to `400 * 200 / batch_size` |
| Driver.RowLineIs | src/run.py:326-343 | bridges AppendIndexRow to RowLine: the line written from the loop's own step, total time and rates is RowLine of that checkpoint |
| Driver.GroupFilesStep | src/run.py:326-347 | after run j, every row up to `5 * (j + 1)` has its plot and its prediction dump |
| Driver.GroupStep | src/run.py:294-348 | after run j, the index holds the header and the rows of runs 0 .. j |
| Driver.OpenedFrame | src/run.py:260-291 | opening a directory writes the index header and `paramInfo.txt`, empties `images` and `runs`, and keeps every other file |
| Driver.GroupUpdateOf | src/run.py:259-348 | a directory's runs add only the index, `paramInfo.txt` and row files, and keep every other file |
| Driver.ExpectedGroups | src/run.py:238-257 | one finished directory per loop iteration that does not stop |
| Driver.GroupOfShape | src/run.py:259-348 | a finished directory's index is the header and `5 * num_runs` rows of its width, and its step counts add up |
| Driver.ExpectedGroupsShape | src/run.py:226-348 | every directory `execute_runs` writes is in `out_dir` for its mode and shaped as `GroupOfShape` says |
| Driver.WrittenUnderOutDir | src/run.py:254-291 | everything a directory's iteration writes lies inside `out_dir` |
| Driver.ExperimentFrame | src/run.py:243-254 | one iteration keeps files outside `out_dir`. `input.txt` is there exactly in `psa_runs` mode. Inside `out_dir` only the index, `paramInfo.txt`, `input.txt` and row files remain |
| Driver.OutDirsNext | src/run.py:243-251 | the directories of iterations 0 .. g + 1 are those of 0 .. g and then iteration g's |
| Driver.KeptOutsideStep | src/run.py:238-257 | files outside all directories written so far stay unchanged across iterations |
| NeuralNet.Classifier.constructor | src/run.py:76 | a new classifier is not built and has not been trained |
| NeuralNet.Classifier.Build | src/run.py:90 | the classifier is built |
| NeuralNet.Classifier.Train | src/run.py:311 | training continues by `num_steps`, recorded in order |
| Driver.Run.constructor | src/run.py:55-57 | no dataset and no classifier |
| Driver.Run.RandomizeData | src/run.py:59-69 | the dataset becomes the one built from the drawn name and noise |
| Driver.Run.RandomizeTrainingParams | src/run.py:71-90 | a fresh, built, untrained classifier whose settings are the sampled ones, in the sampler's ranges |
| Driver.Run.CleanDir | src/run.py:173-185 | everything inside the directory is removed, and nothing else |
| Driver.Run.SavePlot | src/run.py:139-171 | the plot file is written, nothing else changes |
| Driver.Run.SaveCurrentRun | src/run.py:187-195 | the dump file holds the prediction dump's lines, nothing else changes |
| Driver.Run.AppendIndexRow | src/run.py:329-344 | the index gains exactly the row of this checkpoint |
| Driver.Run.TrainEpoch | src/run.py:307-313 | `curr_step` is the epoch's target and `total_time` the sum so far; the trainer is asked for the delta; settings are unchanged |
| Driver.Run.WriteCheckpoint | src/run.py:326-347 | one checkpoint adds its index row, its plot and its prediction dump, and nothing else |
| Driver.Run.Epoch | src/run.py:306-348 | one pass of the checkpoint loop keeps the loop's invariants: index lines, step deltas, row files, files touched |
| Driver.Run.TrainCheckpoints | src/run.py:304-348 | a run adds its five rows in order, asks for exactly the schedule's deltas, and writes only its row files and the index |
| Driver.Run.OpenGroup | src/run.py:260-291 | the index holds just the header, `paramInfo.txt` the column table, and `images` and `runs` are empty |
| Driver.Run.PrepareRun | src/run.py:295-299 | the run's dataset (its own draw, or the shared one) and a fresh classifier with the sampled settings |
| Driver.Run.GroupRun | src/run.py:294-348 | run j takes rows `5j` .. `5j + 4`, and the index and row files then cover runs 0 .. j |
| Driver.Run.TrainGroup | src/run.py:293-348 | the run loop leaves the header plus all runs' rows in the index, and every row's files |
| Driver.Run.RunGroup | src/run.py:259-348 | a directory ends with its header and rows, its column table and its row files; other files outside `images` and `runs` are kept |
| Driver.Run.Experiment | src/run.py:239-257 | one iteration leaves its directory holding the expected index, `paramInfo.txt`, `input.txt` exactly in `psa_runs` mode, and every row's plot and dump. Nothing else is in it: stale files are gone. Files outside the directories written so far are kept |
| Driver.Run.ExecuteRuns | src/run.py:226-257 | `full` writes one directory and `psa_runs` one per dataset; any other mode changes nothing. The log of finished directories is the expected one, files elsewhere are kept, and the last directory holds exactly its index, `paramInfo.txt`, its `input.txt` in `psa_runs` mode, and every row's plot and dump |

## Left out

- Plot rendering (`save_plot`, src/run.py:139-171) is an opaque image written at its path.
- Directories themselves, `os.makedirs`, and a file left open (`f_runs` is never closed):
  the index is modelled as the list of lines written to it.
- Python's `random`: every draw is an input constrained to the values `random.choice` and
  `random.randint` can return. `random.shuffle` is an input permutation of the feature ids.
- `time.time()`: the measured duration of each checkpoint is an input.
- Driver.RowLine: `total_time` and `mean_time` are exact real arithmetic: the sum of the
  durations, and that sum divided by the epoch. The source accumulates floats
  (src/run.py:312-313), so its column can differ from the exact value by rounding.
- Float formatting (`str()` of a float) is an uninterpreted function `showFloat`, assumed to
  produce no tab.
- The internals of `DataSet` and `Classifier`:
  - predictions, losses and `num_training` are inputs;
  - a `psa_runs` dataset is an input whose name, noise and size are fixed;
  - `save_to_file` writes an opaque data file.
- `print` diagnostics and the trailing notes string.
- Driver.Run.constructor: the list `mode_psa_datasets` (src/run.py:237, fixed to
  `[DATA_SPIRAL]`) is a constructor argument, so any list is covered.
- Driver.Run.ExecuteRuns: only the last directory's files are stated at the end. Earlier
  directories appear only in the log of finished directories. Emptying a
  later `psa_runs` directory also empties an earlier one when the later equals it (the same
  dataset listed twice) or contains it (a name such as `a` after `a_25/b`, see
  Driver.NestedPsaDirExample). Distinct names never give the same directory
  (Driver.PsaDirInjective).
- Driver.Run.ExecuteRuns: `num_runs` is a natural number. Python's `range` also accepts a
  negative count and then runs nothing; the only call passes 1000 (src/run.py:353).
- Driver.Run.ExecuteRuns: `all_param_info` is built once, in the constructor, rather than
  once per directory; it depends only on the fixed tables.
- Schedule.StepDeltas: `int(epoch * n / batch_size)` is modelled as floor division on
  naturals, which is what the float quotient truncates to at these magnitudes.
- Metrics.Rate: `0 if num_tp == 0 else num_tp / num_p` returns the int 0 and otherwise a
  float. The row prints a zero rate as `0`, and other rates through `showFloat`.
- Metrics.PopulationRates: a rate is 0 only when its own numerator is 0 (src/run.py:219-220).
  With all labels 1 and all predictions 1, TPR is 1 and FPR is 0.
- `paramInfo.txt` ends without a trailing newline and the index with one. The model keeps
  lines, so the line terminators are not modelled.
