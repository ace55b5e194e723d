/** `Run.execute_runs` and the state it drives (src/run.py:55-90, 139-195, 226-348).
    The file system is a map from path to file; a text file is its list of lines. Every
    random draw, every timing, every loss and every prediction is an input: one
    `RunInputs` per run, one `Checkpoint` per epoch of the schedule. */
module Driver {
  import opened Text
  import opened Metrics
  import opened Schedule
  import opened Sampling
  import opened Layout
  import opened NeuralNet
  import opened Seqs

  const MODE_FULL: string := "full"
  const MODE_PSA_RUNS: string := "psa_runs"
  const PSA_NOISE: int := 25
  const FULL_DIR: string := "../output/full"

  datatype Option<T> = None | Some(value: T)

  /** What a path holds: lines of text, a rendered plot, or a saved dataset. */
  datatype File = TextFile(lines: seq<string>) | ImageFile | DataFile

  /** What one checkpoint observes: the milliseconds `train` took, the two losses it
      returned, and the classifier's prediction for every point of the dataset. */
  datatype Checkpoint = Checkpoint(elapsedMs: real, testLoss: real, trainLoss: real, predicted: seq<int>)

  /** What one run draws and observes: the dataset `randomize_data` would build, the
      training draws, the dataset's `num_training(perc_train)` for the drawn ratio, and one
      checkpoint per epoch. */
  datatype RunInputs = RunInputs(randomData: DataSet, draws: Draws, numTraining: nat, checkpoints: seq<Checkpoint>)

  /** One finished experiment directory: its `index.txt` and the steps each run's
      classifier was asked for. */
  datatype GroupRecord = GroupRecord(outDir: string, index: seq<string>, steps: seq<seq<int>>)

  function PsaDir(datasetName: string): string {
    "../output/" + datasetName + "_" + IntToString(PSA_NOISE)
  }

  function IndexPath(outDir: string): string { outDir + "/index.txt" }
  function ParamInfoPath(outDir: string): string { outDir + "/paramInfo.txt" }
  function InputPath(outDir: string): string { outDir + "/input.txt" }
  function ImagesDir(outDir: string): string { outDir + "/images" }
  function RunsDir(outDir: string): string { outDir + "/runs" }

  function ImagePath(outDir: string, row: nat): string {
    ImagesDir(outDir) + "/" + NatToString(row) + ".png"
  }

  function RunPath(outDir: string, row: nat): string {
    RunsDir(outDir) + "/" + NatToString(row) + ".txt"
  }

  /** The image path as the index row records it, relative to the experiment directory. */
  function RelativeImagePath(row: nat): string {
    "images/" + NatToString(row) + ".png"
  }

  /** `path` lies inside directory `dir`. */
  predicate Under(path: string, dir: string) {
    |dir| < |path| && path[..|dir| + 1] == dir + "/"
  }

  // ---------------------------------------------------------------------------------
  // Paths

  /** The image path with the experiment directory and the following '/' cut off is the
      relative path the index records, and joining them back gives the image path. */
  lemma RelativeImagePathOf(outDir: string, row: nat)
    ensures |outDir| + 1 <= |ImagePath(outDir, row)|
    ensures ImagePath(outDir, row)[|outDir| + 1..] == RelativeImagePath(row)
    ensures outDir + "/" + RelativeImagePath(row) == ImagePath(outDir, row)
  {
    assert ImagePath(outDir, row) == outDir + "/" + RelativeImagePath(row);
  }

  lemma NotUnderAt(path: string, dir: string, k: nat)
    requires k <= |dir| && k < |path| && path[k] != (dir + "/")[k]
    ensures !Under(path, dir)
  {
    if |dir| < |path| {
      assert path[..|dir| + 1][k] == path[k];
    }
  }

  lemma InnerPathsUnder(outDir: string, row: nat)
    ensures Under(ImagePath(outDir, row), ImagesDir(outDir))
    ensures Under(RunPath(outDir, row), RunsDir(outDir))
    ensures Under(InputPath(outDir), outDir)
    ensures !Under(ImagePath(outDir, row), RunsDir(outDir))
    ensures !Under(RunPath(outDir, row), ImagesDir(outDir))
  {
    var n := |outDir|;
    assert ImagePath(outDir, row)[..|ImagesDir(outDir)| + 1] == ImagesDir(outDir) + "/";
    assert RunPath(outDir, row)[..|RunsDir(outDir)| + 1] == RunsDir(outDir) + "/";
    assert InputPath(outDir)[..n + 1] == outDir + "/";
    assert ImagePath(outDir, row)[n + 1] == 'i';
    NotUnderAt(ImagePath(outDir, row), RunsDir(outDir), n + 1);
    assert RunPath(outDir, row)[n + 1] == 'r';
    NotUnderAt(RunPath(outDir, row), ImagesDir(outDir), n + 1);
  }

  /** The three fixed files of an experiment directory are not inside its `images` or
      `runs` sub-directories. */
  lemma FixedPathsOutside(outDir: string)
    ensures !Under(IndexPath(outDir), ImagesDir(outDir)) && !Under(IndexPath(outDir), RunsDir(outDir))
    ensures !Under(ParamInfoPath(outDir), ImagesDir(outDir)) && !Under(ParamInfoPath(outDir), RunsDir(outDir))
    ensures !Under(InputPath(outDir), ImagesDir(outDir)) && !Under(InputPath(outDir), RunsDir(outDir))
    ensures IndexPath(outDir) != ParamInfoPath(outDir) && IndexPath(outDir) != InputPath(outDir)
    ensures ParamInfoPath(outDir) != InputPath(outDir)
  {
    var n := |outDir|;
    assert IndexPath(outDir)[n + 2] == 'n' && (ImagesDir(outDir) + "/")[n + 2] == 'm';
    NotUnderAt(IndexPath(outDir), ImagesDir(outDir), n + 2);
    assert IndexPath(outDir)[n + 1] == 'i' && (RunsDir(outDir) + "/")[n + 1] == 'r';
    NotUnderAt(IndexPath(outDir), RunsDir(outDir), n + 1);
    assert ParamInfoPath(outDir)[n + 1] == 'p' && (ImagesDir(outDir) + "/")[n + 1] == 'i';
    NotUnderAt(ParamInfoPath(outDir), ImagesDir(outDir), n + 1);
    NotUnderAt(ParamInfoPath(outDir), RunsDir(outDir), n + 1);
    assert InputPath(outDir)[n + 2] == 'n';
    NotUnderAt(InputPath(outDir), ImagesDir(outDir), n + 2);
    assert InputPath(outDir)[n + 1] == 'i';
    NotUnderAt(InputPath(outDir), RunsDir(outDir), n + 1);
    assert IndexPath(outDir)[n + 3] == 'd' && InputPath(outDir)[n + 3] == 'p';
  }

  lemma MiddleInjective(prefix: string, a: string, b: string, suffix: string)
    requires prefix + a + suffix == prefix + b + suffix
    ensures a == b
  {
    var s := prefix + a + suffix;
    assert |a| == |b|;
    assert a == s[|prefix|..|prefix| + |a|];
    assert b == (prefix + b + suffix)[|prefix|..|prefix| + |b|];
  }

  /** Different rows never share an image or a prediction dump, an image is never a dump,
      and neither is ever `index.txt`. */
  lemma RowPathsDistinct(outDir: string, r: nat, s: nat)
    ensures ImagePath(outDir, r) != RunPath(outDir, s)
    ensures IndexPath(outDir) != ImagePath(outDir, r) && IndexPath(outDir) != RunPath(outDir, r)
    ensures r != s ==> ImagePath(outDir, r) != ImagePath(outDir, s) && RunPath(outDir, r) != RunPath(outDir, s)
  {
    InnerPathsUnder(outDir, r);
    InnerPathsUnder(outDir, s);
    FixedPathsOutside(outDir);
    if ImagePath(outDir, r) == ImagePath(outDir, s) {
      MiddleInjective(ImagesDir(outDir) + "/", NatToString(r), NatToString(s), ".png");
      NatToStringInjective(r, s);
    }
    if RunPath(outDir, r) == RunPath(outDir, s) {
      MiddleInjective(RunsDir(outDir) + "/", NatToString(r), NatToString(s), ".txt");
      NatToStringInjective(r, s);
    }
  }

  /** Distinct `psa_runs` dataset names give distinct experiment directories; only the same
      name listed twice makes an iteration reuse (and empty) an earlier directory. */
  lemma PsaDirInjective(a: string, b: string)
    requires PsaDir(a) == PsaDir(b)
    ensures a == b
  {
    var suffix := "_" + IntToString(PSA_NOISE);
    assert PsaDir(a) == "../output/" + a + suffix;
    assert PsaDir(b) == "../output/" + b + suffix;
    MiddleInjective("../output/", a, b, suffix);
  }

  /** A dataset name with a slash can put one `psa_runs` directory inside another: the
      directory of `a_25/b` lies inside that of `a`, so emptying the latter empties the former. */
  lemma NestedPsaDirExample()
    ensures PsaDir("a") == "../output/a_25"
    ensures Under(PsaDir("a_25/b"), PsaDir("a"))
  {
    assert IntToString(PSA_NOISE) == "25";
    assert PsaDir("a_25/b") == "../output/a_25/b_25";
  }

  lemma RelativeImagePathTabFree(row: nat)
    ensures TabFree(RelativeImagePath(row))
  {
    DigitsTabFree("images/", NatToString(row));
    var p := "images/" + NatToString(row);
    forall k | 0 <= k < |p + ".png"| ensures (p + ".png")[k] != TAB {
      if k >= |p| {
        assert (p + ".png")[k] == ".png"[k - |p|];
      }
    }
  }

  // ---------------------------------------------------------------------------------
  // What one run and one experiment directory write

  function DataOf(currData: Option<DataSet>, run: RunInputs): DataSet {
    if currData.Some? then currData.value else run.randomData
  }

  /** The inputs of a run the driver can take: draws Python's random module can make, one
      checkpoint per epoch, and, when every run draws its own dataset, a dataset
      `randomize_data` can build. */
  predicate ValidRun(run: RunInputs, currData: Option<DataSet>, cat: Catalog) {
    && ValidDraws(run.draws, cat)
    && |run.checkpoints| == |EPOCHS|
    && (currData.None? ==> RandomData(run.randomData, cat))
  }

  predicate ValidRuns(runs: seq<RunInputs>, currData: Option<DataSet>, cat: Catalog) {
    forall r :: 0 <= r < |runs| ==> ValidRun(runs[r], currData, cat)
  }

  /** `total_time` after checkpoint `|cps| - 1`: the sum of the measured durations. */
  function ElapsedSum(cps: seq<Checkpoint>): real {
    if |cps| == 0 then 0.0 else ElapsedSum(cps[..|cps| - 1]) + cps[|cps| - 1].elapsedMs
  }

  /** Which index row is written: row number `row`, at checkpoint `k` of a run on `data`
      with the settings `p` and checkpoints `cps`. */
  datatype RowKey = RowKey(row: nat, data: DataSet, p: TrainingParams, numTraining: nat,
                           cps: seq<Checkpoint>, k: nat)

  /** A key the checkpoint loop can produce: an epoch of the schedule, one checkpoint per
      epoch, and a positive batch size. */
  predicate KeyOk(key: RowKey) {
    key.k < |EPOCHS| && |key.cps| == |EPOCHS| && key.p.batchSize >= 1
  }

  predicate KeysOk(keys: seq<RowKey>) {
    forall i :: 0 <= i < |keys| ==> KeyOk(keys[i])
  }

  /** The index line of a row (src/run.py:329-343): row number, the plot's relative path,
      the run's parameters, the epoch, the cumulative step count, the total and mean
      times, the two losses and the four rates. */
  function RowLine(key: RowKey, cat: Catalog, showFloat: real -> string): string
    requires KeyOk(key)
  {
    var totalTime := ElapsedSum(key.cps[..key.k + 1]);
    var stats := TprFpr(key.data.labels, key.cps[key.k].predicted, key.numTraining);
    TprFprLayout(key.data.labels, key.cps[key.k].predicted, key.numTraining);
    Join(IndexRowFields(key.row, RelativeImagePath(key.row), ParamStr(key.data, key.p, cat, showFloat),
                        EPOCHS[key.k], StepTargets(|key.data.labels|, key.p.batchSize)[key.k], totalTime,
                        totalTime / EPOCHS[key.k] as real, key.cps[key.k].trainLoss, key.cps[key.k].testLoss,
                        stats, showFloat), TAB)
  }

  function LineOf(cat: Catalog, showFloat: real -> string): RowKey --> string {
    key requires KeyOk(key) => RowLine(key, cat, showFloat)
  }

  /** The lines of the rows `keys`, in order. */
  function Lines(keys: seq<RowKey>, cat: Catalog, showFloat: real -> string): (lines: seq<string>)
    requires KeysOk(keys)
    ensures |lines| == |keys|
  {
    Map(LineOf(cat, showFloat), keys)
  }

  /** The rows of one run whose first row is `firstRow`, one per epoch. */
  function RunKeys(firstRow: nat, data: DataSet, p: TrainingParams, numTraining: nat, cps: seq<Checkpoint>)
    : (keys: seq<RowKey>)
    ensures |keys| == |EPOCHS|
    ensures forall k :: 0 <= k < |EPOCHS| ==> keys[k] == RowKey(firstRow + k, data, p, numTraining, cps, k)
  {
    seq(|EPOCHS|, k requires 0 <= k < |EPOCHS| => RowKey(firstRow + k, data, p, numTraining, cps, k))
  }

  /** The rows after the header once `runs` have finished: each run's rows, numbered on
      from the run before. */
  function GroupKeys(currData: Option<DataSet>, runs: seq<RunInputs>, cat: Catalog): (keys: seq<RowKey>)
    requires ValidRuns(runs, currData, cat)
    ensures |keys| == |EPOCHS| * |runs| && KeysOk(keys)
    decreases |runs|
  {
    if |runs| == 0 then []
    else
      var last := runs[|runs| - 1];
      var init := GroupKeys(currData, runs[..|runs| - 1], cat);
      var added := RunKeys(|EPOCHS| * (|runs| - 1), DataOf(currData, last), SampledParams(last.draws, cat),
                           last.numTraining, last.checkpoints);
      assert KeysOk(added);
      assert forall i :: |init| <= i < |init + added| ==> (init + added)[i] == added[i - |init|];
      init + added
  }

  /** The index lines after the header once `runs` have finished. */
  function GroupRows(currData: Option<DataSet>, runs: seq<RunInputs>, cat: Catalog, showFloat: real -> string)
    : seq<string>
    requires ValidRuns(runs, currData, cat)
  {
    Lines(GroupKeys(currData, runs, cat), cat, showFloat)
  }

  /** The step counts each run's classifier is asked for. */
  function GroupSteps(currData: Option<DataSet>, runs: seq<RunInputs>, cat: Catalog): seq<seq<int>>
    requires ValidRuns(runs, currData, cat)
  {
    seq(|runs|, r requires 0 <= r < |runs| =>
      StepDeltas(|DataOf(currData, runs[r]).labels|, SampledParams(runs[r].draws, cat).batchSize))
  }

  /** An index line of row `row`: once split at the tabs, it has as many fields as the
      header has columns (see HeaderColumns), 22 + NUM_FEATURES + max_hidden, its row
      number first and its relative image path second. */
  predicate RowShaped(line: string, row: nat, cat: Catalog) {
    var fields := Split(line, TAB);
    && |fields| == 22 + cat.numFeatures + MAX_HIDDEN
    && fields[0] == NatToString(row)
    && fields[1] == RelativeImagePath(row)
  }

  /** A key whose names can be written into a row without breaking its columns. */
  predicate KeyTabFree(key: RowKey) {
    TabFree(key.data.datasetName) && TabFree(key.p.activation) && TabFree(key.p.regularizationType)
  }

  lemma RowLineShape(key: RowKey, cat: Catalog, showFloat: real -> string)
    requires KeyOk(key) && KeyTabFree(key)
    requires FeatureTablesAgree(cat) && CatalogTabFree(cat) && ShowsWithoutTabs(showFloat)
    ensures RowShaped(RowLine(key, cat, showFloat), key.row, cat)
  {
    var k := key.k;
    var totalTime := ElapsedSum(key.cps[..k + 1]);
    var stats := TprFpr(key.data.labels, key.cps[k].predicted, key.numTraining);
    TprFprLayout(key.data.labels, key.cps[k].predicted, key.numTraining);
    RelativeImagePathTabFree(key.row);
    var step := StepTargets(|key.data.labels|, key.p.batchSize)[k];
    var fields := IndexRowFields(key.row, RelativeImagePath(key.row), ParamStr(key.data, key.p, cat, showFloat),
                                 EPOCHS[k], step, totalTime, totalTime / EPOCHS[k] as real,
                                 key.cps[k].trainLoss, key.cps[k].testLoss, stats, showFloat);
    RowMatchesHeader(cat, fields, key.data, key.p, key.row, RelativeImagePath(key.row), EPOCHS[k], step,
                     totalTime, totalTime / EPOCHS[k] as real, key.cps[k].trainLoss, key.cps[k].testLoss,
                     stats, showFloat);
  }

  /** A dataset name the experiment can write into an index row. */
  predicate NameTabFree(currData: Option<DataSet>) {
    currData.Some? ==> TabFree(currData.value.datasetName)
  }

  /** Row `r` of an experiment directory is checkpoint `r % 5` of run `r / 5`, on that
      run's dataset and with the settings drawn for it. */
  lemma {:induction false} GroupKeysNumbered(currData: Option<DataSet>, runs: seq<RunInputs>, cat: Catalog)
    requires ValidRuns(runs, currData, cat)
    ensures var keys := GroupKeys(currData, runs, cat);
      forall r :: 0 <= r < |keys| ==>
        keys[r] == RowKey(r, DataOf(currData, runs[r / |EPOCHS|]), SampledParams(runs[r / |EPOCHS|].draws, cat),
                          runs[r / |EPOCHS|].numTraining, runs[r / |EPOCHS|].checkpoints, r % |EPOCHS|)
    decreases |runs|
  {
    if |runs| > 0 {
      var init := runs[..|runs| - 1];
      assert ValidRuns(init, currData, cat);
      GroupKeysNumbered(currData, init, cat);
      var keys := GroupKeys(currData, runs, cat);
      var before := GroupKeys(currData, init, cat);
      var j := |runs| - 1;
      forall r | 0 <= r < |keys|
        ensures keys[r] == RowKey(r, DataOf(currData, runs[r / |EPOCHS|]), SampledParams(runs[r / |EPOCHS|].draws, cat),
                                  runs[r / |EPOCHS|].numTraining, runs[r / |EPOCHS|].checkpoints, r % |EPOCHS|)
      {
        if r < |before| {
          assert keys[r] == before[r];
          assert r / |EPOCHS| < j;
          assert init[r / |EPOCHS|] == runs[r / |EPOCHS|];
        } else {
          assert r / |EPOCHS| == j && r % |EPOCHS| == r - |EPOCHS| * j;
        }
      }
    }
  }

  /** `index.txt` of an experiment directory: five rows per run, numbered 0, 1, 2, ...
      across runs, each naming its own image, and each with exactly the header's columns. */
  lemma GroupRowsShape(currData: Option<DataSet>, runs: seq<RunInputs>, cat: Catalog, showFloat: real -> string)
    requires ValidRuns(runs, currData, cat) && NameTabFree(currData)
    requires FeatureTablesAgree(cat) && CatalogTabFree(cat) && ShowsWithoutTabs(showFloat)
    ensures var rows := GroupRows(currData, runs, cat, showFloat);
      && |rows| == |EPOCHS| * |runs|
      && forall r :: 0 <= r < |rows| ==> RowShaped(rows[r], r, cat)
  {
    var keys := GroupKeys(currData, runs, cat);
    GroupKeysNumbered(currData, runs, cat);
    forall r | 0 <= r < |keys|
      ensures RowShaped(GroupRows(currData, runs, cat, showFloat)[r], r, cat)
    {
      var run := runs[r / |EPOCHS|];
      assert ValidRun(run, currData, cat);
      SampledParamsWellShaped(run.draws, cat);
      assert TabFree(DataOf(currData, run).datasetName);
      RowLineShape(keys[r], cat, showFloat);
    }
  }

  /** Every run's classifier is asked for one step count per epoch, none negative, adding
      up to the steps of 400 epochs over `num_samples` points. */
  lemma GroupStepsAddUp(currData: Option<DataSet>, runs: seq<RunInputs>, cat: Catalog)
    requires ValidRuns(runs, currData, cat)
    requires currData.Some? ==> |currData.value.labels| == NUM_SAMPLES
    ensures var steps := GroupSteps(currData, runs, cat);
      && |steps| == |runs|
      && forall r :: 0 <= r < |runs| ==>
           |steps[r]| == |EPOCHS|
           && (forall k :: 0 <= k < |EPOCHS| ==> steps[r][k] >= 0)
           && Sum(steps[r]) == 400 * NUM_SAMPLES / runs[r].draws.batchSize
  {
    forall r | 0 <= r < |runs| {
      StepDeltasAddUp(NUM_SAMPLES, runs[r].draws.batchSize);
    }
  }

  /** The line of row `key` is the tab-joined row built from the values the loop holds
      at that point. */
  lemma RowLineIs(key: RowKey, cat: Catalog, showFloat: real -> string,
                  imagePath: string, step: int, totalTime: real, stats: seq<real>)
    requires KeyOk(key)
    requires imagePath == RelativeImagePath(key.row)
    requires step == StepTargets(|key.data.labels|, key.p.batchSize)[key.k]
    requires totalTime == ElapsedSum(key.cps[..key.k + 1])
    requires stats == TprFpr(key.data.labels, key.cps[key.k].predicted, key.numTraining)
    ensures |stats| == 4
    ensures RowLine(key, cat, showFloat)
         == Join(IndexRowFields(key.row, imagePath, ParamStr(key.data, key.p, cat, showFloat), EPOCHS[key.k], step,
                                totalTime, totalTime / EPOCHS[key.k] as real, key.cps[key.k].trainLoss,
                                key.cps[key.k].testLoss, stats, showFloat), TAB)
  {
    TprFprLayout(key.data.labels, key.cps[key.k].predicted, key.numTraining);
  }

  /** Rows `firstRow` .. `upto - 1` each have their plot and their prediction dump. */
  predicate RowFilesWritten(fs: map<string, File>, outDir: string, firstRow: nat, upto: nat,
                            cps: seq<Checkpoint>, negPos: bool)
    requires upto <= firstRow + |cps|
  {
    forall r :: firstRow <= r < upto ==>
      && ImagePath(outDir, r) in fs && fs[ImagePath(outDir, r)] == ImageFile
      && RunPath(outDir, r) in fs && fs[RunPath(outDir, r)] == TextFile(DumpLines(cps[r - firstRow].predicted, negPos))
  }

  /** `p` is the plot or the prediction dump of one of the rows `lo` .. `hi - 1`. */
  predicate IsRowFile(p: string, outDir: string, lo: nat, hi: nat) {
    exists r :: lo <= r < hi && (p == ImagePath(outDir, r) || p == RunPath(outDir, r))
  }

  /** Going from `before` to `after`, no file disappeared, only `index.txt` and the files
      of rows `firstRow` .. `upto - 1` changed, and every new file is one of those. */
  predicate RowWritesOnly(before: map<string, File>, after: map<string, File>, outDir: string, firstRow: nat, upto: nat) {
    && before.Keys <= after.Keys
    && (forall p :: (p in before && p != IndexPath(outDir) && !IsRowFile(p, outDir, firstRow, upto))
          ==> after[p] == before[p])
    && (forall p :: p in after && p !in before ==> IsRowFile(p, outDir, firstRow, upto))
  }

  lemma RowFileWiden(p: string, outDir: string, lo: nat, hi: nat, lo': nat, hi': nat)
    requires IsRowFile(p, outDir, lo, hi) && lo' <= lo && hi <= hi'
    ensures IsRowFile(p, outDir, lo', hi')
  {
    var r :| lo <= r < hi && (p == ImagePath(outDir, r) || p == RunPath(outDir, r));
    assert lo' <= r < hi';
  }

  /** Row files lie in `images` or `runs`, so they are never `index.txt`, `paramInfo.txt`
      or `input.txt`. */
  lemma RowFileUnder(p: string, outDir: string, lo: nat, hi: nat)
    requires IsRowFile(p, outDir, lo, hi)
    ensures Under(p, ImagesDir(outDir)) || Under(p, RunsDir(outDir))
    ensures p != IndexPath(outDir) && p != ParamInfoPath(outDir) && p != InputPath(outDir)
  {
    var r :| lo <= r < hi && (p == ImagePath(outDir, r) || p == RunPath(outDir, r));
    InnerPathsUnder(outDir, r);
    FixedPathsOutside(outDir);
  }

  /** Row writes leave `paramInfo.txt` and `input.txt` as they were. */
  lemma FixedFilesKept(before: map<string, File>, after: map<string, File>, outDir: string, lo: nat, hi: nat)
    requires RowWritesOnly(before, after, outDir, lo, hi)
    ensures ParamInfoPath(outDir) in before ==>
              ParamInfoPath(outDir) in after && after[ParamInfoPath(outDir)] == before[ParamInfoPath(outDir)]
    ensures InputPath(outDir) in before ==>
              InputPath(outDir) in after && after[InputPath(outDir)] == before[InputPath(outDir)]
  {
    FixedPathsOutside(outDir);
    if IsRowFile(ParamInfoPath(outDir), outDir, lo, hi) {
      RowFileUnder(ParamInfoPath(outDir), outDir, lo, hi);
    }
    if IsRowFile(InputPath(outDir), outDir, lo, hi) {
      RowFileUnder(InputPath(outDir), outDir, lo, hi);
    }
  }

  /** The files of a row before `lo` are not among those of rows `lo` .. `hi - 1`. */
  lemma EarlierRowFiles(outDir: string, r: nat, lo: nat, hi: nat)
    requires r < lo
    ensures !IsRowFile(ImagePath(outDir, r), outDir, lo, hi) && !IsRowFile(RunPath(outDir, r), outDir, lo, hi)
    ensures ImagePath(outDir, r) != IndexPath(outDir) && RunPath(outDir, r) != IndexPath(outDir)
  {
    forall s | lo <= s < hi
      ensures ImagePath(outDir, r) != ImagePath(outDir, s) && ImagePath(outDir, r) != RunPath(outDir, s)
      ensures RunPath(outDir, r) != ImagePath(outDir, s) && RunPath(outDir, r) != RunPath(outDir, s)
    {
      RowPathsDistinct(outDir, r, s);
      RowPathsDistinct(outDir, s, r);
    }
    RowPathsDistinct(outDir, r, r);
  }

  /** Two stretches of row writes, rows `lo` .. `mid - 1` then `mid` .. `hi - 1`, are
      one stretch of rows `lo` .. `hi - 1`. */
  lemma RowWritesCompose(a: map<string, File>, b: map<string, File>, c: map<string, File>,
                         outDir: string, lo: nat, mid: nat, hi: nat)
    requires lo <= mid <= hi
    requires RowWritesOnly(a, b, outDir, lo, mid) && RowWritesOnly(b, c, outDir, mid, hi)
    ensures RowWritesOnly(a, c, outDir, lo, hi)
  {
    forall p | p in a && p != IndexPath(outDir) && !IsRowFile(p, outDir, lo, hi) ensures c[p] == a[p] {
      if IsRowFile(p, outDir, lo, mid) {
        RowFileWiden(p, outDir, lo, mid, lo, hi);
      }
      if IsRowFile(p, outDir, mid, hi) {
        RowFileWiden(p, outDir, mid, hi, lo, hi);
      }
    }
    forall p | p in c && p !in a ensures IsRowFile(p, outDir, lo, hi) {
      if p in b {
        RowFileWiden(p, outDir, lo, mid, lo, hi);
      } else {
        RowFileWiden(p, outDir, mid, hi, lo, hi);
      }
    }
  }

  /** The files of row `row` are distinct from those of every earlier row and from
      `index.txt`, and they lie in `images` and `runs`. */
  lemma NewRowPaths(outDir: string, firstRow: nat, row: nat)
    ensures forall r :: firstRow <= r < row ==>
              && ImagePath(outDir, r) != ImagePath(outDir, row) && ImagePath(outDir, r) != RunPath(outDir, row)
              && RunPath(outDir, r) != ImagePath(outDir, row) && RunPath(outDir, r) != RunPath(outDir, row)
    ensures forall r :: firstRow <= r <= row ==> ImagePath(outDir, r) != IndexPath(outDir) && RunPath(outDir, r) != IndexPath(outDir)
    ensures Under(ImagePath(outDir, row), ImagesDir(outDir)) && Under(RunPath(outDir, row), RunsDir(outDir))
    ensures ImagePath(outDir, row) != RunPath(outDir, row)
  {
    forall r | firstRow <= r <= row
      ensures r < row ==> ImagePath(outDir, r) != ImagePath(outDir, row) && ImagePath(outDir, r) != RunPath(outDir, row)
      ensures r < row ==> RunPath(outDir, r) != ImagePath(outDir, row) && RunPath(outDir, r) != RunPath(outDir, row)
      ensures ImagePath(outDir, r) != IndexPath(outDir) && RunPath(outDir, r) != IndexPath(outDir)
    {
      RowPathsDistinct(outDir, r, row);
      RowPathsDistinct(outDir, row, r);
    }
    InnerPathsUnder(outDir, row);
  }

  /** Writing row `row`'s plot and dump (and rewriting `index.txt`) adds that row's files
      and keeps the earlier rows' files. */
  lemma RowFilesStep(mid: map<string, File>, after: map<string, File>, outDir: string, firstRow: nat, row: nat,
                     cps: seq<Checkpoint>, negPos: bool, index: File)
    requires firstRow <= row < firstRow + |cps|
    requires RowFilesWritten(mid, outDir, firstRow, row, cps, negPos)
    requires after == mid[IndexPath(outDir) := index][ImagePath(outDir, row) := ImageFile]
                         [RunPath(outDir, row) := TextFile(DumpLines(cps[row - firstRow].predicted, negPos))]
    ensures RowFilesWritten(after, outDir, firstRow, row + 1, cps, negPos)
  {
    NewRowPaths(outDir, firstRow, row);
    forall r | firstRow <= r < row + 1
      ensures ImagePath(outDir, r) in after && after[ImagePath(outDir, r)] == ImageFile
      ensures RunPath(outDir, r) in after
      ensures after[RunPath(outDir, r)] == TextFile(DumpLines(cps[r - firstRow].predicted, negPos))
    {
      if r < row {
        assert ImagePath(outDir, r) in mid && RunPath(outDir, r) in mid;
      }
    }
  }

  /** The same writes change nothing outside `index.txt`, `images` and `runs`, and the
      only new files are that row's. */
  lemma RowWritesStep(before: map<string, File>, mid: map<string, File>, after: map<string, File>,
                      outDir: string, firstRow: nat, row: nat, image: File, dump: File, index: File)
    requires firstRow <= row
    requires RowWritesOnly(before, mid, outDir, firstRow, row)
    requires IndexPath(outDir) in before
    requires after == mid[IndexPath(outDir) := index][ImagePath(outDir, row) := image][RunPath(outDir, row) := dump]
    ensures RowWritesOnly(before, after, outDir, firstRow, row + 1)
    ensures IndexPath(outDir) in after && after[IndexPath(outDir)] == index
  {
    NewRowPaths(outDir, firstRow, row);
    assert IsRowFile(ImagePath(outDir, row), outDir, firstRow, row + 1);
    assert IsRowFile(RunPath(outDir, row), outDir, firstRow, row + 1);
    forall p | p in before && p != IndexPath(outDir) && !IsRowFile(p, outDir, firstRow, row + 1)
      ensures after[p] == before[p]
    {
      if IsRowFile(p, outDir, firstRow, row) {
        RowFileWiden(p, outDir, firstRow, row, firstRow, row + 1);
      }
    }
    forall p | p in after && p !in before ensures IsRowFile(p, outDir, firstRow, row + 1) {
      if p != ImagePath(outDir, row) && p != RunPath(outDir, row) {
        assert p in mid;
        RowFileWiden(p, outDir, firstRow, row, firstRow, row + 1);
      }
    }
  }

  lemma LinesAppend(a: seq<RowKey>, b: seq<RowKey>, cat: Catalog, showFloat: real -> string)
    requires KeysOk(a) && KeysOk(b)
    ensures KeysOk(a + b)
    ensures Lines(a + b, cat, showFloat) == Lines(a, cat, showFloat) + Lines(b, cat, showFloat)
  {
    MapAppend(LineOf(cat, showFloat), a, b);
  }

  /** Appending the line of the next key extends the lines written after `prefix`. */
  lemma LinesStep(prefix: seq<string>, keys: seq<RowKey>, i: nat, key: RowKey, cat: Catalog,
                  showFloat: real -> string)
    requires KeysOk(keys) && i < |keys| && key == keys[i]
    ensures KeysOk(keys[..i]) && KeysOk(keys[..i + 1])
    ensures prefix + Lines(keys[..i], cat, showFloat) + [RowLine(key, cat, showFloat)]
         == prefix + Lines(keys[..i + 1], cat, showFloat)
  {
    LinesNext(keys, i, cat, showFloat);
    AppendAssoc(prefix, Lines(keys[..i], cat, showFloat), [RowLine(key, cat, showFloat)]);
  }

  lemma LinesNext(keys: seq<RowKey>, i: nat, cat: Catalog, showFloat: real -> string)
    requires KeysOk(keys) && i < |keys|
    ensures KeysOk(keys[..i]) && KeysOk(keys[..i + 1])
    ensures Lines(keys[..i + 1], cat, showFloat) == Lines(keys[..i], cat, showFloat) + [RowLine(keys[i], cat, showFloat)]
  {
    assert keys[..i + 1] == keys[..i] + [keys[i]];
    LinesAppend(keys[..i], [keys[i]], cat, showFloat);
  }

  /** Every run has one checkpoint per epoch. */
  predicate Scheduled(runs: seq<RunInputs>) {
    forall g :: 0 <= g < |runs| ==> |runs[g].checkpoints| == |EPOCHS|
  }

  /** The first `upto` runs' rows all have their plot and their prediction dump: row `r`
      is checkpoint `r % 5` of run `r / 5`. */
  predicate GroupFilesWritten(fs: map<string, File>, outDir: string, runs: seq<RunInputs>, upto: nat, negPos: bool)
    requires upto <= |runs| && Scheduled(runs)
  {
    forall r :: 0 <= r < |EPOCHS| * upto ==>
      && ImagePath(outDir, r) in fs && fs[ImagePath(outDir, r)] == ImageFile
      && RunPath(outDir, r) in fs
      && fs[RunPath(outDir, r)] == TextFile(DumpLines(runs[r / |EPOCHS|].checkpoints[r % |EPOCHS|].predicted, negPos))
  }

  /** Run `j`'s checkpoints add its five rows' files and keep the earlier runs' files. */
  lemma GroupFilesStep(mid: map<string, File>, after: map<string, File>, outDir: string, runs: seq<RunInputs>,
                       j: nat, lo: nat, hi: nat, negPos: bool)
    requires j < |runs| && Scheduled(runs) && lo == |EPOCHS| * j && hi == lo + |EPOCHS|
    requires GroupFilesWritten(mid, outDir, runs, j, negPos)
    requires RowFilesWritten(after, outDir, lo, hi, runs[j].checkpoints, negPos)
    requires RowWritesOnly(mid, after, outDir, lo, hi)
    ensures GroupFilesWritten(after, outDir, runs, j + 1, negPos)
  {
    forall r | 0 <= r < |EPOCHS| * (j + 1)
      ensures ImagePath(outDir, r) in after && after[ImagePath(outDir, r)] == ImageFile
      ensures RunPath(outDir, r) in after
      ensures after[RunPath(outDir, r)]
           == TextFile(DumpLines(runs[r / |EPOCHS|].checkpoints[r % |EPOCHS|].predicted, negPos))
    {
      if r < lo {
        EarlierRowFiles(outDir, r, lo, lo + |EPOCHS|);
      } else {
        assert r / |EPOCHS| == j && r % |EPOCHS| == r - lo;
      }
    }
  }

  /** What an experiment directory's runs do to the file system, apart from the contents
      of `index.txt`, `paramInfo.txt` and the row files: new files are only those three
      kinds, everything outside `images` and `runs` other than the two text files is kept,
      and `images` and `runs` hold nothing but the rows' files. */
  predicate GroupUpdate(before: map<string, File>, after: map<string, File>, outDir: string, numRows: nat) {
    && (forall p :: p in after && p !in before ==>
          p == IndexPath(outDir) || p == ParamInfoPath(outDir) || IsRowFile(p, outDir, 0, numRows))
    && (forall p ::
          (p in before && p != IndexPath(outDir) && p != ParamInfoPath(outDir)
           && !Under(p, ImagesDir(outDir)) && !Under(p, RunsDir(outDir)))
          ==> p in after && after[p] == before[p])
    && (forall p :: p in after && (Under(p, ImagesDir(outDir)) || Under(p, RunsDir(outDir))) ==>
          IsRowFile(p, outDir, 0, numRows))
  }

  /** What opening an experiment directory does apart from the contents of `index.txt`
      and `paramInfo.txt`: `images` and `runs` are emptied, the two text files may be new,
      and every other file is kept. */
  predicate GroupOpened(before: map<string, File>, after: map<string, File>, outDir: string) {
    && (forall p :: p in after ==> !Under(p, ImagesDir(outDir)) && !Under(p, RunsDir(outDir)))
    && (forall p :: p in after && p !in before ==> p == IndexPath(outDir) || p == ParamInfoPath(outDir))
    && (forall p ::
          (p in before && p != IndexPath(outDir) && p != ParamInfoPath(outDir)
           && !Under(p, ImagesDir(outDir)) && !Under(p, RunsDir(outDir)))
          ==> p in after && after[p] == before[p])
  }

  /** The file system with everything inside `dir` removed. */
  function Cleaned(fs: map<string, File>, dir: string): (r: map<string, File>) {
    map p | p in fs && !Under(p, dir) :: fs[p]
  }

  /** Writing `index.txt` and `paramInfo.txt` and then emptying `images` and `runs` opens
      the directory; the two text files survive the emptying. */
  lemma OpenedFrame(before: map<string, File>, outDir: string, index: File, info: File, header: File)
    ensures var after := Cleaned(Cleaned(before[IndexPath(outDir) := index][ParamInfoPath(outDir) := info]
                                               [IndexPath(outDir) := header], ImagesDir(outDir)), RunsDir(outDir));
      && GroupOpened(before, after, outDir)
      && IndexPath(outDir) in after && after[IndexPath(outDir)] == header
      && ParamInfoPath(outDir) in after && after[ParamInfoPath(outDir)] == info
  {
    FixedPathsOutside(outDir);
  }

  /** Opening a directory and then writing rows `0` .. `numRows - 1` is a group update. */
  lemma GroupUpdateOf(before: map<string, File>, start: map<string, File>, after: map<string, File>,
                      outDir: string, numRows: nat)
    requires GroupOpened(before, start, outDir) && RowWritesOnly(start, after, outDir, 0, numRows)
    ensures GroupUpdate(before, after, outDir, numRows)
  {
    forall p | p in before && p != IndexPath(outDir) && p != ParamInfoPath(outDir)
               && !Under(p, ImagesDir(outDir)) && !Under(p, RunsDir(outDir))
      ensures p in after && after[p] == before[p]
    {
      if IsRowFile(p, outDir, 0, numRows) {
        RowFileUnder(p, outDir, 0, numRows);
      }
    }
  }

  /** Run `j` of an experiment directory appends its rows to the index and adds its row
      files, and together with the runs before it has written only rows `0` .. `5 * j + 4`. */
  lemma GroupStep(start: map<string, File>, mid: map<string, File>, after: map<string, File>, outDir: string,
                  currData: Option<DataSet>, runs: seq<RunInputs>, j: nat, lo: nat, hi: nat, cat: Catalog,
                  showFloat: real -> string, negPos: bool, header: string)
    requires j < |runs| && ValidRuns(runs, currData, cat) && lo == |EPOCHS| * j && hi == lo + |EPOCHS|
    requires IndexPath(outDir) in mid && mid[IndexPath(outDir)].TextFile?
    requires ValidRuns(runs[..j], currData, cat)
    requires mid[IndexPath(outDir)].lines == [header] + GroupRows(currData, runs[..j], cat, showFloat)
    requires IndexPath(outDir) in after
    requires var added := RunKeys(lo, DataOf(currData, runs[j]), SampledParams(runs[j].draws, cat),
                                  runs[j].numTraining, runs[j].checkpoints);
      KeysOk(added) && after[IndexPath(outDir)] == TextFile(mid[IndexPath(outDir)].lines + Lines(added, cat, showFloat))
    requires Scheduled(runs) && GroupFilesWritten(mid, outDir, runs, j, negPos)
    requires RowFilesWritten(after, outDir, lo, hi, runs[j].checkpoints, negPos)
    requires RowWritesOnly(start, mid, outDir, 0, lo)
    requires RowWritesOnly(mid, after, outDir, lo, hi)
    ensures ValidRuns(runs[..j + 1], currData, cat)
    ensures after[IndexPath(outDir)] == TextFile([header] + GroupRows(currData, runs[..j + 1], cat, showFloat))
    ensures GroupFilesWritten(after, outDir, runs, j + 1, negPos)
    ensures RowWritesOnly(start, after, outDir, 0, hi)
  {
    var before := GroupKeys(currData, runs[..j], cat);
    var added := RunKeys(lo, DataOf(currData, runs[j]), SampledParams(runs[j].draws, cat),
                         runs[j].numTraining, runs[j].checkpoints);
    GroupKeysNext(currData, runs, j, cat);
    LinesAppend(before, added, cat, showFloat);
    AppendAssoc([header], Lines(before, cat, showFloat), Lines(added, cat, showFloat));
    GroupFilesStep(mid, after, outDir, runs, j, lo, hi, negPos);
    RowWritesCompose(start, mid, after, outDir, 0, lo, hi);
  }

  lemma GroupKeysNext(currData: Option<DataSet>, runs: seq<RunInputs>, j: nat, cat: Catalog)
    requires j < |runs| && ValidRuns(runs, currData, cat)
    ensures ValidRuns(runs[..j], currData, cat) && ValidRuns(runs[..j + 1], currData, cat)
    ensures GroupKeys(currData, runs[..j + 1], cat)
         == GroupKeys(currData, runs[..j], cat)
            + RunKeys(|EPOCHS| * j, DataOf(currData, runs[j]), SampledParams(runs[j].draws, cat),
                      runs[j].numTraining, runs[j].checkpoints)
  {
    assert runs[..j + 1][..j] == runs[..j];
  }

  lemma GroupStepsNext(currData: Option<DataSet>, runs: seq<RunInputs>, j: nat, cat: Catalog)
    requires j < |runs| && ValidRuns(runs, currData, cat)
    ensures ValidRuns(runs[..j], currData, cat) && ValidRuns(runs[..j + 1], currData, cat)
    ensures GroupSteps(currData, runs[..j + 1], cat)
         == GroupSteps(currData, runs[..j], cat)
            + [StepDeltas(|DataOf(currData, runs[j]).labels|, SampledParams(runs[j].draws, cat).batchSize)]
  {
  }

  // ---------------------------------------------------------------------------------
  // The experiment driver

  /** The number of experiment directories a mode writes: one for `full`, one per
      dataset for `psa_runs`, none for any other mode. */
  function Iterations(mode: string, psaDatasets: seq<string>): nat {
    if mode == MODE_FULL then 1 else if mode == MODE_PSA_RUNS then |psaDatasets| else 0
  }

  function OutDirOf(mode: string, psaDatasets: seq<string>, g: nat): string
    requires g < Iterations(mode, psaDatasets)
  {
    if mode == MODE_FULL then FULL_DIR else PsaDir(psaDatasets[g])
  }

  /** `full` draws a fresh dataset for every run; `psa_runs` reuses one per directory. */
  function CurrDataOf(mode: string, psaDatasets: seq<string>, psaData: seq<DataSet>, g: nat): Option<DataSet>
    requires g < Iterations(mode, psaDatasets) && (mode == MODE_PSA_RUNS ==> |psaData| == |psaDatasets|)
  {
    if mode == MODE_FULL then None else Some(psaData[g])
  }

  /** The datasets `psa_runs` builds, one per name: `DataSet(name, num_samples=200, noise=25)`. */
  predicate PsaDataOk(psaData: seq<DataSet>, psaDatasets: seq<string>) {
    && |psaData| == |psaDatasets|
    && forall g :: 0 <= g < |psaData| ==>
         && psaData[g].datasetName == psaDatasets[g]
         && psaData[g].noise == PSA_NOISE
         && |psaData[g].labels| == NUM_SAMPLES
  }

  /** What `execute_runs(mode, num_runs)` is given in place of its random draws and its
      training outcomes: `num_runs` runs for every experiment directory the mode writes,
      and for `psa_runs` the dataset of each directory. */
  predicate ExperimentInputs(mode: string, psaDatasets: seq<string>, numRuns: nat, psaData: seq<DataSet>,
                             runs: seq<seq<RunInputs>>, cat: Catalog) {
    && |runs| == Iterations(mode, psaDatasets)
    && (mode == MODE_PSA_RUNS ==> PsaDataOk(psaData, psaDatasets))
    && forall g :: 0 <= g < |runs| ==>
         |runs[g]| == numRuns && ValidRuns(runs[g], CurrDataOf(mode, psaDatasets, psaData, g), cat)
  }

  /** The record of experiment directory `outDir` once its runs are done. */
  function GroupOf(outDir: string, currData: Option<DataSet>, runs: seq<RunInputs>, cat: Catalog,
                   allInfo: seq<ParamInfo>, showFloat: real -> string): GroupRecord
    requires ValidRuns(runs, currData, cat)
  {
    GroupRecord(outDir, [HeaderOf(allInfo)] + GroupRows(currData, runs, cat, showFloat), GroupSteps(currData, runs, cat))
  }

  /** The experiment directories `execute_runs` finishes, in order: directory `g` holds
      the header and the rows of its runs, and its classifiers are asked for the
      schedule's steps. */
  function ExpectedGroups(mode: string, psaDatasets: seq<string>, numRuns: nat, psaData: seq<DataSet>,
                          runs: seq<seq<RunInputs>>, cat: Catalog, allInfo: seq<ParamInfo>,
                          showFloat: real -> string): (groups: seq<GroupRecord>)
    requires ExperimentInputs(mode, psaDatasets, numRuns, psaData, runs, cat)
    ensures |groups| == |runs|
  {
    seq(|runs|, g requires 0 <= g < |runs| =>
      GroupOf(OutDirOf(mode, psaDatasets, g), CurrDataOf(mode, psaDatasets, psaData, g), runs[g], cat, allInfo, showFloat))
  }

  /** An experiment directory's record has the header line followed by `5` rows per run,
      of the header's width, row `r` numbered `r` and pointing at `images/r.png`; every
      classifier in it was asked for steps that add up to the last epoch's step count. */
  lemma GroupOfShape(outDir: string, currData: Option<DataSet>, runs: seq<RunInputs>, cat: Catalog,
                     showFloat: real -> string)
    requires ValidRuns(runs, currData, cat) && NameTabFree(currData)
    requires currData.Some? ==> |currData.value.labels| == NUM_SAMPLES
    requires FeatureTablesAgree(cat) && CatalogTabFree(cat) && ShowsWithoutTabs(showFloat)
    ensures var group := GroupOf(outDir, currData, runs, cat, AllParamInfo(cat), showFloat);
      && group.outDir == outDir
      && |group.index| == 1 + |EPOCHS| * |runs|
      && Split(group.index[0], TAB) == Names(AllParamInfo(cat))
      && (forall r :: 1 <= r <= |EPOCHS| * |runs| ==> RowShaped(group.index[r], r - 1, cat))
      && |group.steps| == |runs|
      && (forall i :: 0 <= i < |runs| ==> Sum(group.steps[i]) == 400 * NUM_SAMPLES / runs[i].draws.batchSize)
  {
    var rows := GroupRows(currData, runs, cat, showFloat);
    var index := GroupOf(outDir, currData, runs, cat, AllParamInfo(cat), showFloat).index;
    HeaderColumns(cat);
    GroupRowsShape(currData, runs, cat, showFloat);
    GroupStepsAddUp(currData, runs, cat);
    assert index == [HeaderLine(cat)] + rows;
    forall r | 1 <= r <= |EPOCHS| * |runs| ensures RowShaped(index[r], r - 1, cat) {
      assert index[r] == rows[r - 1];
    }
  }

  /** Every experiment directory `execute_runs` finishes is shaped as `GroupOfShape`
      says, with `num_runs` runs. */
  lemma ExpectedGroupsShape(mode: string, psaDatasets: seq<string>, numRuns: nat, psaData: seq<DataSet>,
                            runs: seq<seq<RunInputs>>, cat: Catalog, showFloat: real -> string)
    requires ExperimentInputs(mode, psaDatasets, numRuns, psaData, runs, cat)
    requires FeatureTablesAgree(cat) && CatalogTabFree(cat) && ShowsWithoutTabs(showFloat) && AllTabFree(psaDatasets)
    ensures var groups := ExpectedGroups(mode, psaDatasets, numRuns, psaData, runs, cat, AllParamInfo(cat), showFloat);
      forall g :: 0 <= g < |groups| ==>
        && groups[g].outDir == OutDirOf(mode, psaDatasets, g)
        && |groups[g].index| == 1 + |EPOCHS| * numRuns
        && Split(groups[g].index[0], TAB) == Names(AllParamInfo(cat))
        && (forall r :: 1 <= r <= |EPOCHS| * numRuns ==> RowShaped(groups[g].index[r], r - 1, cat))
        && |groups[g].steps| == numRuns
        && (forall i :: 0 <= i < numRuns ==> Sum(groups[g].steps[i]) == 400 * NUM_SAMPLES / runs[g][i].draws.batchSize)
  {
    var groups := ExpectedGroups(mode, psaDatasets, numRuns, psaData, runs, cat, AllParamInfo(cat), showFloat);
    forall g | 0 <= g < |groups|
      ensures groups[g].outDir == OutDirOf(mode, psaDatasets, g)
      ensures |groups[g].index| == 1 + |EPOCHS| * numRuns
      ensures Split(groups[g].index[0], TAB) == Names(AllParamInfo(cat))
      ensures forall r :: 1 <= r <= |EPOCHS| * numRuns ==> RowShaped(groups[g].index[r], r - 1, cat)
      ensures |groups[g].steps| == numRuns
      ensures forall i :: 0 <= i < numRuns ==> Sum(groups[g].steps[i]) == 400 * NUM_SAMPLES / runs[g][i].draws.batchSize
    {
      var currData := CurrDataOf(mode, psaDatasets, psaData, g);
      assert ValidRuns(runs[g], currData, cat) && |runs[g]| == numRuns;
      assert NameTabFree(currData) && (currData.Some? ==> |currData.value.labels| == NUM_SAMPLES) by {
        if mode == MODE_PSA_RUNS {
          assert currData.value == psaData[g];
        }
      }
      GroupOfShape(OutDirOf(mode, psaDatasets, g), currData, runs[g], cat, showFloat);
    }
  }

  /** Everything an experiment directory's run writes lies inside that directory. */
  lemma WrittenUnderOutDir(p: string, outDir: string)
    requires p == IndexPath(outDir) || p == ParamInfoPath(outDir) || p == InputPath(outDir)
             || Under(p, ImagesDir(outDir)) || Under(p, RunsDir(outDir))
    ensures Under(p, outDir)
  {
    var n := |outDir|;
    if Under(p, ImagesDir(outDir)) {
      assert p[..n + 1] == p[..|ImagesDir(outDir)| + 1][..n + 1];
      assert (ImagesDir(outDir) + "/")[..n + 1] == outDir + "/";
    } else if Under(p, RunsDir(outDir)) {
      assert p[..n + 1] == p[..|RunsDir(outDir)| + 1][..n + 1];
      assert (RunsDir(outDir) + "/")[..n + 1] == outDir + "/";
    } else if p == IndexPath(outDir) {
      assert p[..n + 1] == outDir + "/";
    } else if p == ParamInfoPath(outDir) {
      assert p[..n + 1] == outDir + "/";
    } else {
      assert p[..n + 1] == outDir + "/";
    }
  }

  /** One experiment directory, from before `create_dir(out_dir, clean=True)` to the end
      of its runs: files outside `outDir` are kept, and `input.txt` is there exactly when
      the mode saved a dataset to it. */
  lemma ExperimentFrame(before: map<string, File>, mid: map<string, File>, after: map<string, File>,
                        outDir: string, numRows: nat, savesInput: bool)
    requires mid == (if savesInput then Cleaned(before, outDir)[InputPath(outDir) := DataFile] else Cleaned(before, outDir))
    requires GroupUpdate(mid, after, outDir, numRows)
    ensures forall p :: p in before && !Under(p, outDir) ==> p in after && after[p] == before[p]
    ensures savesInput ==> InputPath(outDir) in after && after[InputPath(outDir)] == DataFile
    ensures !savesInput ==> InputPath(outDir) !in after
    ensures forall p :: p in after && Under(p, outDir) ==>
              p == IndexPath(outDir) || p == ParamInfoPath(outDir) || p == InputPath(outDir)
              || IsRowFile(p, outDir, 0, numRows)
  {
    FixedPathsOutside(outDir);
    forall p | p in before && !Under(p, outDir) ensures p in after && after[p] == before[p] {
      if p == IndexPath(outDir) || p == ParamInfoPath(outDir) || p == InputPath(outDir)
         || Under(p, ImagesDir(outDir)) || Under(p, RunsDir(outDir)) {
        WrittenUnderOutDir(p, outDir);
      }
    }
    WrittenUnderOutDir(InputPath(outDir), outDir);
    if !savesInput && InputPath(outDir) in after {
      assert InputPath(outDir) !in mid;
      RowFileUnder(InputPath(outDir), outDir, 0, numRows);
    }
  }

  /** The directories of the first `n` experiments. */
  function OutDirs(mode: string, psaDatasets: seq<string>, n: nat): (dirs: seq<string>)
    requires n <= Iterations(mode, psaDatasets)
    ensures |dirs| == n
  {
    seq(n, g requires 0 <= g < n => OutDirOf(mode, psaDatasets, g))
  }

  lemma OutDirsNext(mode: string, psaDatasets: seq<string>, g: nat)
    requires g < Iterations(mode, psaDatasets)
    ensures OutDirs(mode, psaDatasets, g + 1) == OutDirs(mode, psaDatasets, g) + [OutDirOf(mode, psaDatasets, g)]
  {
  }

  /** Every file of `before` outside all of `dirs` is still there, unchanged. */
  predicate KeptOutside(before: map<string, File>, after: map<string, File>, dirs: seq<string>) {
    forall p :: p in before && (forall d :: d in dirs ==> !Under(p, d)) ==> p in after && after[p] == before[p]
  }

  /** An experiment directory as its runs leave it: the index, the column descriptions,
      an `input.txt` exactly when the mode saved its dataset there, the plot and dump of
      every row, and nothing else (whatever was there before was emptied). */
  predicate ExperimentFiles(fs: map<string, File>, outDir: string, index: seq<string>, info: seq<string>,
                            savesInput: bool, runs: seq<RunInputs>, negPos: bool) {
    && IndexPath(outDir) in fs && fs[IndexPath(outDir)] == TextFile(index)
    && ParamInfoPath(outDir) in fs && fs[ParamInfoPath(outDir)] == TextFile(info)
    && (InputPath(outDir) in fs <==> savesInput)
    && Scheduled(runs) && GroupFilesWritten(fs, outDir, runs, |runs|, negPos)
    && (forall p :: p in fs && Under(p, outDir) ==>
          p == IndexPath(outDir) || p == ParamInfoPath(outDir) || p == InputPath(outDir)
          || IsRowFile(p, outDir, 0, |EPOCHS| * |runs|))
  }

  lemma KeptOutsideStep(start: map<string, File>, before: map<string, File>, after: map<string, File>,
                        dirs: seq<string>, outDir: string)
    requires KeptOutside(start, before, dirs)
    requires forall p :: p in before && !Under(p, outDir) ==> p in after && after[p] == before[p]
    ensures KeptOutside(start, after, dirs + [outDir])
  {
    forall p | p in start && (forall d :: d in dirs + [outDir] ==> !Under(p, d))
      ensures p in after && after[p] == start[p]
    {
      assert outDir in dirs + [outDir];
      forall d | d in dirs ensures !Under(p, d) {
        assert d in dirs + [outDir];
      }
    }
  }

  class Run {
    /** The names and feature lists of the dataset and network modules. */
    const catalog: Catalog
    /** `mode_psa_datasets`. */
    const psaDatasets: seq<string>
    /** `all_param_info`, the columns of every experiment directory's index. It depends
        on nothing but the catalog, so it is built once. */
    const allParamInfo: seq<ParamInfo>
    /** `Config.SAVE_LABELS_NEG_POS`. */
    const negPos: bool
    /** Python's `str()` of a float. */
    const showFloat: real -> string

    var data: Option<DataSet>
    var nn: Classifier?
    var fs: map<string, File>
    /** Every experiment directory finished so far, in order. */
    ghost var groupLog: seq<GroupRecord>

    /** `Run()`: no dataset and no classifier yet, on the given file system. */
    constructor (catalog: Catalog, psaDatasets: seq<string>, negPos: bool, showFloat: real -> string,
                 fs: map<string, File>)
      ensures this.catalog == catalog && this.psaDatasets == psaDatasets && this.negPos == negPos
      ensures this.showFloat == showFloat && allParamInfo == AllParamInfo(catalog)
      ensures data == None && nn == null && this.fs == fs && groupLog == []
    {
      this.catalog := catalog;
      this.psaDatasets := psaDatasets;
      this.negPos := negPos;
      this.showFloat := showFloat;
      allParamInfo := AllParamInfo(catalog);
      data := None;
      nn := null;
      this.fs := fs;
      groupLog := [];
    }

    /** `randomize_data()`: `drawn` is the dataset built from the drawn name and noise. */
    method RandomizeData(drawn: DataSet)
      requires RandomData(drawn, catalog)
      modifies this`data
      ensures data == Some(drawn)
    {
      data := Some(drawn);
    }

    /** `randomize_training_params()`: a new classifier, configured from the draws and
        built. Its configuration is in the sampler's domain. */
    method RandomizeTrainingParams(draws: Draws)
      requires ValidDraws(draws, catalog)
      modifies this`nn
      ensures nn != null && fresh(nn)
      ensures nn.built && nn.stepsTrained == []
      ensures nn.Params() == SampledParams(draws, catalog)
      ensures WellShaped(nn.Params(), catalog)
    {
      nn := new Classifier();
      nn.percTrain := PERC_TRAIN_VALUES[draws.percTrainIndex];
      nn.batchSize := draws.batchSize;
      nn.learningRate := LEARNING_RATES[draws.learningRateIndex];
      nn.neuronsPerLayer := draws.neurons;
      nn.activation := catalog.activationNames[draws.activationIndex];
      nn.regularizationType := catalog.regularizationNames[draws.regularizationIndex];
      nn.regularizationRate := REGULARIZATION_RATES[draws.regularizationRateIndex];
      var featureIds := draws.shuffledFeatures;
      featureIds := featureIds[..draws.prefixLength];
      featureIds := SortFeatureIds(featureIds, catalog.numFeatures);
      nn.featuresIds := featureIds;
      nn.Build();
      SampledParamsWellShaped(draws, catalog);
    }

    /** `create_dir(dirname, clean=True)`: everything inside `dir` is removed. Directories
        themselves are not part of the model. */
    method CleanDir(dir: string)
      modifies this`fs
      ensures fs == Cleaned(old(fs), dir)
    {
      fs := map p | p in fs && !Under(p, dir) :: fs[p];
    }

    /** `save_plot(filename)`: the image itself is not modelled. */
    method SavePlot(filename: string)
      modifies this`fs
      ensures fs == old(fs)[filename := ImageFile]
    {
      fs := fs[filename := ImageFile];
    }

    /** `save_current_run(filename)` for the classifier's predictions `predicted`. */
    method SaveCurrentRun(filename: string, predicted: seq<int>)
      modifies this`fs
      ensures fs == old(fs)[filename := TextFile(DumpLines(predicted, negPos))]
    {
      var lines := WriteDump(predicted, negPos);
      fs := fs[filename := TextFile(lines)];
    }

    /** Appends index row `rowIndex` for epoch `k` of the current run (src/run.py:329-343):
        the row number, the plot's path relative to `outDir`, the run's parameters, the
        progress columns and the rates on the current predictions. */
    method AppendIndexRow(outDir: string, numTraining: nat, cps: seq<Checkpoint>, k: nat, rowIndex: nat,
                          currStep: int, totalTime: real)
      requires data.Some? && nn != null && nn.batchSize >= 1
      requires k < |EPOCHS| && |cps| == |EPOCHS|
      requires currStep == StepTargets(|data.value.labels|, nn.batchSize)[k]
      requires totalTime == ElapsedSum(cps[..k + 1])
      requires IndexPath(outDir) in fs && fs[IndexPath(outDir)].TextFile?
      modifies this`fs
      ensures fs == old(fs)[IndexPath(outDir) := TextFile(old(fs[IndexPath(outDir)].lines)
                      + [RowLine(RowKey(rowIndex, data.value, nn.Params(), numTraining, cps, k), catalog, showFloat)])]
    {
      var d := data.value;
      var epoch := EPOCHS[k];
      var meanTime := totalTime / epoch as real;
      var stats := CalcTprFpr(d.labels, cps[k].predicted, numTraining);
      var imageFilename := ImagesDir(outDir) + "/" + NatToString(rowIndex) + ".png";
      RelativeImagePathOf(outDir, rowIndex);
      RowLineIs(RowKey(rowIndex, d, nn.Params(), numTraining, cps, k), catalog, showFloat,
                imageFilename[|outDir| + 1..], currStep, totalTime, stats);
      var line := Join(IndexRowFields(rowIndex, imageFilename[|outDir| + 1..], ParamStr(d, nn.Params(), catalog, showFloat),
                                      epoch, currStep, totalTime, meanTime, cps[k].trainLoss, cps[k].testLoss,
                                      stats, showFloat), TAB);
      fs := fs[IndexPath(outDir) := TextFile(fs[IndexPath(outDir)].lines + [line])];
    }

    /** The training half of an epoch (src/run.py:308-315): the trainer is asked for the
        steps from the previous checkpoint to this epoch's target, and the time it took is
        added to the run's total. */
    method TrainEpoch(cps: seq<Checkpoint>, k: nat, prevStep: int, totalTime: real)
      returns (currStep: int, newTotalTime: real)
      requires data.Some? && nn != null && nn.built && nn.batchSize >= 1
      requires k < |EPOCHS| && |cps| == |EPOCHS|
      requires prevStep == if k == 0 then 0 else StepTargets(|data.value.labels|, nn.batchSize)[k - 1]
      requires totalTime == ElapsedSum(cps[..k])
      modifies nn`stepsTrained
      ensures currStep == StepTargets(|data.value.labels|, nn.batchSize)[k]
      ensures newTotalTime == ElapsedSum(cps[..k + 1])
      ensures |StepDeltas(|data.value.labels|, nn.batchSize)| == |EPOCHS|
      ensures nn.stepsTrained == old(nn.stepsTrained) + [StepDeltas(|data.value.labels|, nn.batchSize)[k]]
      ensures nn.Params() == old(nn.Params())
    {
      var n := |data.value.labels|;
      currStep := EPOCHS[k] * n / nn.batchSize;
      DeltasAt(StepTargets(n, nn.batchSize), 0, k);
      nn.Train(currStep - prevStep);
      newTotalTime := totalTime + cps[k].elapsedMs;
      assert cps[..k + 1][..k] == cps[..k];
    }

    /** The writing half of an epoch (src/run.py:327-347): index row `rowIndex`, then the
        plot, then the prediction dump. */
    method WriteCheckpoint(outDir: string, numTraining: nat, cps: seq<Checkpoint>, k: nat, rowIndex: nat,
                           currStep: int, totalTime: real)
      requires data.Some? && nn != null && nn.batchSize >= 1
      requires k < |EPOCHS| && |cps| == |EPOCHS|
      requires currStep == StepTargets(|data.value.labels|, nn.batchSize)[k]
      requires totalTime == ElapsedSum(cps[..k + 1])
      requires IndexPath(outDir) in fs && fs[IndexPath(outDir)].TextFile?
      modifies this`fs
      ensures fs == old(fs)[IndexPath(outDir) := TextFile(old(fs[IndexPath(outDir)].lines)
                      + [RowLine(RowKey(rowIndex, data.value, nn.Params(), numTraining, cps, k), catalog, showFloat)])]
                    [ImagePath(outDir, rowIndex) := ImageFile]
                    [RunPath(outDir, rowIndex) := TextFile(DumpLines(cps[k].predicted, negPos))]
    {
      AppendIndexRow(outDir, numTraining, cps, k, rowIndex, currStep, totalTime);
      var imageFilename := ImagesDir(outDir) + "/" + NatToString(rowIndex) + ".png";
      var runFilename := RunsDir(outDir) + "/" + NatToString(rowIndex) + ".txt";
      SavePlot(imageFilename);
      SaveCurrentRun(runFilename, cps[k].predicted);
    }

    /** One epoch of the checkpoint loop (src/run.py:305-347): training up to the epoch's
        step count, then its index row, plot and prediction dump as row `rowIndex`. Stated
        as the loop's invariant carried from epoch `i` to epoch `i + 1`. */
    method Epoch(outDir: string, numTraining: nat, cps: seq<Checkpoint>, i: nat, firstRow: nat, rowIndex: nat,
                 prevStep: int, totalTime: real, ghost start: map<string, File>, ghost oldLines: seq<string>,
                 ghost stepsBefore: seq<int>, ghost keys: seq<RowKey>)
      returns (currStep: int, newTotalTime: real)
      requires data.Some? && nn != null && nn.built && nn.batchSize >= 1
      requires i < |EPOCHS| && |cps| == |EPOCHS| && rowIndex == firstRow + i
      requires keys == RunKeys(firstRow, data.value, nn.Params(), numTraining, cps) && KeysOk(keys)
      requires prevStep == if i == 0 then 0 else StepTargets(|data.value.labels|, nn.batchSize)[i - 1]
      requires totalTime == ElapsedSum(cps[..i])
      requires |StepDeltas(|data.value.labels|, nn.batchSize)| == |EPOCHS|
      requires nn.stepsTrained == stepsBefore + StepDeltas(|data.value.labels|, nn.batchSize)[..i]
      requires IndexPath(outDir) in fs && IndexPath(outDir) in start
      requires KeysOk(keys[..i]) && fs[IndexPath(outDir)] == TextFile(oldLines + Lines(keys[..i], catalog, showFloat))
      requires RowFilesWritten(fs, outDir, firstRow, rowIndex, cps, negPos)
      requires RowWritesOnly(start, fs, outDir, firstRow, rowIndex)
      modifies this`fs, nn`stepsTrained
      ensures nn.Params() == old(nn.Params())
      ensures currStep == StepTargets(|data.value.labels|, nn.batchSize)[i]
      ensures newTotalTime == ElapsedSum(cps[..i + 1])
      ensures nn.stepsTrained == stepsBefore + StepDeltas(|data.value.labels|, nn.batchSize)[..i + 1]
      ensures IndexPath(outDir) in fs
      ensures KeysOk(keys[..i + 1]) && fs[IndexPath(outDir)] == TextFile(oldLines + Lines(keys[..i + 1], catalog, showFloat))
      ensures RowFilesWritten(fs, outDir, firstRow, rowIndex + 1, cps, negPos)
      ensures RowWritesOnly(start, fs, outDir, firstRow, rowIndex + 1)
    {
      ghost var mid := fs;
      ghost var deltas := StepDeltas(|data.value.labels|, nn.batchSize);
      currStep, newTotalTime := TrainEpoch(cps, i, prevStep, totalTime);
      WriteCheckpoint(outDir, numTraining, cps, i, rowIndex, currStep, newTotalTime);
      AppendNext(stepsBefore, deltas, i, deltas[i]);
      ghost var key := RowKey(rowIndex, data.value, nn.Params(), numTraining, cps, i);
      ghost var index := TextFile(mid[IndexPath(outDir)].lines + [RowLine(key, catalog, showFloat)]);
      ghost var dump := TextFile(DumpLines(cps[i].predicted, negPos));
      RowFilesStep(mid, fs, outDir, firstRow, rowIndex, cps, negPos, index);
      RowWritesStep(start, mid, fs, outDir, firstRow, rowIndex, ImageFile, dump, index);
      LinesStep(oldLines, keys, i, key, catalog, showFloat);
    }

    /** The checkpoint loop of one run (src/run.py:304-348): at each epoch of the schedule
        it trains on to the epoch's step count, appends one index row, renders the plot and
        dumps the predictions, numbering rows on from `firstRow`. */
    method TrainCheckpoints(outDir: string, numTraining: nat, cps: seq<Checkpoint>, firstRow: nat,
                            ghost d: DataSet, ghost p: TrainingParams)
      returns (rowIndex: nat)
      requires data == Some(d) && nn != null && nn.built && nn.Params() == p && p.batchSize >= 1
      requires |cps| == |EPOCHS|
      requires IndexPath(outDir) in fs && fs[IndexPath(outDir)].TextFile?
      modifies this`fs, nn`stepsTrained
      ensures rowIndex == firstRow + |EPOCHS|
      ensures nn.stepsTrained == old(nn.stepsTrained) + StepDeltas(|d.labels|, p.batchSize)
      ensures IndexPath(outDir) in fs
      ensures var keys := RunKeys(firstRow, d, p, numTraining, cps);
        KeysOk(keys) && fs[IndexPath(outDir)] == TextFile(old(fs[IndexPath(outDir)].lines) + Lines(keys, catalog, showFloat))
      ensures RowFilesWritten(fs, outDir, firstRow, rowIndex, cps, negPos)
      ensures RowWritesOnly(old(fs), fs, outDir, firstRow, rowIndex)
    {
      ghost var oldLines := fs[IndexPath(outDir)].lines;
      ghost var keys := RunKeys(firstRow, d, p, numTraining, cps);
      assert KeysOk(keys);
      DeltasLength(StepTargets(|d.labels|, p.batchSize), 0);
      var prevStep := 0;
      var totalTime := 0.0;
      rowIndex := firstRow;
      for i := 0 to |EPOCHS|
        invariant rowIndex == firstRow + i
        invariant nn.Params() == old(nn.Params())
        invariant prevStep == if i == 0 then 0 else StepTargets(|data.value.labels|, nn.batchSize)[i - 1]
        invariant totalTime == ElapsedSum(cps[..i])
        invariant nn.stepsTrained == old(nn.stepsTrained) + StepDeltas(|data.value.labels|, nn.batchSize)[..i]
        invariant IndexPath(outDir) in fs
        invariant KeysOk(keys[..i]) && fs[IndexPath(outDir)] == TextFile(oldLines + Lines(keys[..i], catalog, showFloat))
        invariant RowFilesWritten(fs, outDir, firstRow, rowIndex, cps, negPos)
        invariant RowWritesOnly(old(fs), fs, outDir, firstRow, rowIndex)
      {
        prevStep, totalTime := Epoch(outDir, numTraining, cps, i, firstRow, rowIndex, prevStep, totalTime,
                                     old(fs), oldLines, old(nn.stepsTrained), keys);
        rowIndex := rowIndex + 1;
      }
      assert keys[..|EPOCHS|] == keys;
    }

    /** The start of an experiment directory (src/run.py:259-295): `index.txt` is created
        empty, `paramInfo.txt` written, the header row added to the index, and `images` and
        `runs` emptied. Nothing else changes. */
    method OpenGroup(outDir: string)
      modifies this`fs
      ensures IndexPath(outDir) in fs && fs[IndexPath(outDir)] == TextFile([HeaderOf(allParamInfo)])
      ensures ParamInfoPath(outDir) in fs && fs[ParamInfoPath(outDir)] == TextFile(InfoLines(allParamInfo))
      ensures GroupOpened(old(fs), fs, outDir)
    {
      ghost var before := fs;
      FixedPathsOutside(outDir);
      fs := fs[IndexPath(outDir) := TextFile([])];
      fs := fs[ParamInfoPath(outDir) := TextFile(InfoLines(allParamInfo))];
      fs := fs[IndexPath(outDir) := TextFile(fs[IndexPath(outDir)].lines + [HeaderOf(allParamInfo)])];
      AppendToEmpty(HeaderOf(allParamInfo));
      CleanDir(ImagesDir(outDir));
      CleanDir(RunsDir(outDir));
      OpenedFrame(before, outDir, TextFile([]), TextFile(InfoLines(allParamInfo)), TextFile([HeaderOf(allParamInfo)]));
    }

    /** The start of a run (src/run.py:298-303): its dataset is drawn, or the directory's
        dataset reused, and a new classifier is drawn and built. */
    method PrepareRun(currData: Option<DataSet>, run: RunInputs)
      requires ValidRun(run, currData, catalog)
      modifies this`data, this`nn
      ensures data == Some(DataOf(currData, run))
      ensures nn != null && fresh(nn) && nn.built && nn.stepsTrained == []
      ensures nn.Params() == SampledParams(run.draws, catalog)
    {
      if currData.None? {
        RandomizeData(run.randomData);
      } else {
        data := currData;
      }
      RandomizeTrainingParams(run.draws);
    }

    /** Run `j` of an experiment directory (src/run.py:297-348): its dataset, a freshly drawn
        classifier, then the checkpoints, as rows `5 * j` .. `5 * j + 4`. The index then
        holds the rows of runs `0` .. `j`, and since `start` only those runs' row files and
        the index have been written. */
    method GroupRun(outDir: string, currData: Option<DataSet>, runs: seq<RunInputs>, j: nat, rowIndex: nat,
                    ghost start: map<string, File>)
      returns (nextRow: nat)
      requires j < |runs| && ValidRuns(runs, currData, catalog) && rowIndex == |EPOCHS| * j
      requires ValidRuns(runs[..j], currData, catalog)
      requires IndexPath(outDir) in fs
      requires fs[IndexPath(outDir)] == TextFile([HeaderOf(allParamInfo)] + GroupRows(currData, runs[..j], catalog, showFloat))
      requires Scheduled(runs) && GroupFilesWritten(fs, outDir, runs, j, negPos)
      requires RowWritesOnly(start, fs, outDir, 0, rowIndex)
      modifies this`fs, this`data, this`nn
      ensures nextRow == |EPOCHS| * (j + 1)
      ensures data == Some(DataOf(currData, runs[j]))
      ensures nn != null && nn.Params() == SampledParams(runs[j].draws, catalog)
      ensures nn.stepsTrained == StepDeltas(|DataOf(currData, runs[j]).labels|, SampledParams(runs[j].draws, catalog).batchSize)
      ensures ValidRuns(runs[..j + 1], currData, catalog)
      ensures IndexPath(outDir) in fs
      ensures fs[IndexPath(outDir)] == TextFile([HeaderOf(allParamInfo)] + GroupRows(currData, runs[..j + 1], catalog, showFloat))
      ensures GroupFilesWritten(fs, outDir, runs, j + 1, negPos)
      ensures RowWritesOnly(start, fs, outDir, 0, nextRow)
    {
      assert ValidRun(runs[j], currData, catalog);
      PrepareRun(currData, runs[j]);
      ghost var mid := fs;
      nextRow := TrainCheckpoints(outDir, runs[j].numTraining, runs[j].checkpoints, rowIndex,
                                  DataOf(currData, runs[j]), SampledParams(runs[j].draws, catalog));
      GroupStep(start, mid, fs, outDir, currData, runs, j, rowIndex, nextRow, catalog, showFloat, negPos,
                HeaderOf(allParamInfo));
    }

    /** The loop over the runs of one experiment directory (src/run.py:289-348): run `j`
        adds rows `5j` to `5j + 4`, their plots and their prediction dumps. */
    method TrainGroup(outDir: string, currData: Option<DataSet>, runs: seq<RunInputs>) returns (ghost steps: seq<seq<int>>)
      requires ValidRuns(runs, currData, catalog)
      requires IndexPath(outDir) in fs && fs[IndexPath(outDir)] == TextFile([HeaderOf(allParamInfo)])
      modifies this`fs, this`data, this`nn
      ensures IndexPath(outDir) in fs
      ensures fs[IndexPath(outDir)] == TextFile([HeaderOf(allParamInfo)] + GroupRows(currData, runs, catalog, showFloat))
      ensures Scheduled(runs) && GroupFilesWritten(fs, outDir, runs, |runs|, negPos)
      ensures RowWritesOnly(old(fs), fs, outDir, 0, |EPOCHS| * |runs|)
      ensures steps == GroupSteps(currData, runs, catalog)
    {
      ghost var start := fs;
      assert Scheduled(runs);
      var rowIndex := 0;
      steps := [];
      for j := 0 to |runs|
        invariant rowIndex == |EPOCHS| * j
        invariant ValidRuns(runs[..j], currData, catalog)
        invariant IndexPath(outDir) in fs
        invariant fs[IndexPath(outDir)] == TextFile([HeaderOf(allParamInfo)] + GroupRows(currData, runs[..j], catalog, showFloat))
        invariant steps == GroupSteps(currData, runs[..j], catalog)
        invariant GroupFilesWritten(fs, outDir, runs, j, negPos)
        invariant RowWritesOnly(start, fs, outDir, 0, rowIndex)
      {
        rowIndex := GroupRun(outDir, currData, runs, j, rowIndex, start);
        steps := steps + [nn.stepsTrained];
        GroupStepsNext(currData, runs, j, catalog);
      }
      assert runs[..|runs|] == runs;
    }

    /** One experiment directory (src/run.py:259-348): it is opened, then every run takes
        its dataset (its own draw, or `currData` when there is one), draws a new classifier
        and goes through the checkpoints, its rows numbered on from the run before. */
    method RunGroup(outDir: string, currData: Option<DataSet>, runs: seq<RunInputs>)
      requires ValidRuns(runs, currData, catalog)
      modifies this`fs, this`data, this`nn, this`groupLog
      ensures IndexPath(outDir) in fs
      ensures fs[IndexPath(outDir)] == TextFile([HeaderOf(allParamInfo)] + GroupRows(currData, runs, catalog, showFloat))
      ensures ParamInfoPath(outDir) in fs && fs[ParamInfoPath(outDir)] == TextFile(InfoLines(allParamInfo))
      ensures Scheduled(runs) && GroupFilesWritten(fs, outDir, runs, |runs|, negPos)
      ensures GroupUpdate(old(fs), fs, outDir, |EPOCHS| * |runs|)
      ensures groupLog == old(groupLog) + [GroupOf(outDir, currData, runs, catalog, allParamInfo, showFloat)]
    {
      OpenGroup(outDir);
      ghost var start := fs;
      ghost var steps := TrainGroup(outDir, currData, runs);
      FixedFilesKept(start, fs, outDir, 0, |EPOCHS| * |runs|);
      GroupUpdateOf(old(fs), start, fs, outDir, |EPOCHS| * |runs|);
      groupLog := groupLog + [GroupRecord(outDir, fs[IndexPath(outDir)].lines, steps)];
    }

    /** One pass of `execute_runs`' loop that does not stop it (src/run.py:243-257 and
        259-348): experiment `g`'s directory is emptied, `psa_runs` saves the dataset to
        its `input.txt`, and the runs fill it. Files outside the directories written so
        far are kept. */
    method Experiment(mode: string, numRuns: nat, psaData: seq<DataSet>, runs: seq<seq<RunInputs>>, g: nat,
                      ghost groups: seq<GroupRecord>, ghost start: map<string, File>)
      requires ExperimentInputs(mode, psaDatasets, numRuns, psaData, runs, catalog) && g < |runs|
      requires groups == ExpectedGroups(mode, psaDatasets, numRuns, psaData, runs, catalog, allParamInfo, showFloat)
      requires KeptOutside(start, fs, OutDirs(mode, psaDatasets, g))
      modifies this`fs, this`data, this`nn, this`groupLog
      ensures groupLog == old(groupLog) + [groups[g]]
      ensures KeptOutside(start, fs, OutDirs(mode, psaDatasets, g + 1))
      ensures ExperimentFiles(fs, OutDirOf(mode, psaDatasets, g), groups[g].index, InfoLines(allParamInfo),
                              mode == MODE_PSA_RUNS, runs[g], negPos)
    {
      OutDirsNext(mode, psaDatasets, g);
      ghost var before := fs;
      var outDir: string;
      var currData: Option<DataSet>;
      if mode == MODE_FULL {
        outDir := FULL_DIR;
        CleanDir(outDir);
        currData := None;
      } else {
        outDir := PsaDir(psaDatasets[g]);
        CleanDir(outDir);
        currData := Some(psaData[g]);
        fs := fs[InputPath(outDir) := DataFile];
      }
      ghost var mid := fs;
      RunGroup(outDir, currData, runs[g]);
      ExperimentFrame(before, mid, fs, outDir, |EPOCHS| * |runs[g]|, mode == MODE_PSA_RUNS);
      KeptOutsideStep(start, before, fs, OutDirs(mode, psaDatasets, g), outDir);
    }

    /** `execute_runs(mode, num_runs)` (src/run.py:226-257): one experiment directory for
        `full`, one per dataset for `psa_runs`, each emptied first; `psa_runs` saves its
        dataset to the directory's `input.txt`. Any other mode changes nothing. */
    method ExecuteRuns(mode: string, numRuns: nat, psaData: seq<DataSet>, runs: seq<seq<RunInputs>>)
      requires ExperimentInputs(mode, psaDatasets, numRuns, psaData, runs, catalog)
      modifies this`fs, this`data, this`nn, this`groupLog
      ensures groupLog == old(groupLog) + ExpectedGroups(mode, psaDatasets, numRuns, psaData, runs, catalog,
                                                         allParamInfo, showFloat)
      ensures |runs| == 0 ==> fs == old(fs) && data == old(data) && nn == old(nn)
      ensures KeptOutside(old(fs), fs, OutDirs(mode, psaDatasets, |runs|))
      ensures |runs| > 0 ==>
                ExperimentFiles(fs, OutDirOf(mode, psaDatasets, |runs| - 1),
                                ExpectedGroups(mode, psaDatasets, numRuns, psaData, runs, catalog, allParamInfo,
                                               showFloat)[|runs| - 1].index,
                                InfoLines(allParamInfo), mode == MODE_PSA_RUNS, runs[|runs| - 1], negPos)
    {
      ghost var groups := ExpectedGroups(mode, psaDatasets, numRuns, psaData, runs, catalog, allParamInfo, showFloat);
      ghost var done: nat := 0;
      var iterIndex := -1;
      while true
        invariant done == iterIndex + 1 && done <= |runs|
        invariant groupLog == old(groupLog) + groups[..done]
        invariant done == 0 ==> fs == old(fs) && data == old(data) && nn == old(nn)
        invariant KeptOutside(old(fs), fs, OutDirs(mode, psaDatasets, done))
        invariant done > 0 ==>
                    ExperimentFiles(fs, OutDirOf(mode, psaDatasets, done - 1), groups[done - 1].index,
                                    InfoLines(allParamInfo), mode == MODE_PSA_RUNS, runs[done - 1], negPos)
        decreases |runs| - iterIndex
      {
        iterIndex := iterIndex + 1;
        if mode == MODE_FULL {
          if iterIndex == 1 {
            assert done == |runs|;
            break;
          }
        } else if mode == MODE_PSA_RUNS {
          if iterIndex >= |psaDatasets| {
            assert done == |runs|;
            break;
          }
        } else {
          assert done == |runs| == 0;
          assert OutDirs(mode, psaDatasets, done) == OutDirs(mode, psaDatasets, |runs|);
          return;
        }
        ghost var log := groupLog;
        Experiment(mode, numRuns, psaData, runs, iterIndex, groups, old(fs));
        AppendNext(old(groupLog), groups, done, groups[done]);
        done := done + 1;
      }
      TakeAll(groups, done);
      assert OutDirs(mode, psaDatasets, done) == OutDirs(mode, psaDatasets, |runs|);
    }
  }
}
