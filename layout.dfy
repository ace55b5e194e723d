/** The output layout of `Run`: the parameter schema (`param_info`, src/run.py:96-109),
    its names and the matching values (`param_names`, `param_str`, src/run.py:111-137),
    the columns of `index.txt` (src/run.py:261-287, 329-343) and the prediction dump
    (`save_current_run`, src/run.py:187-195). Files are sequences of lines. */
module Layout {
  import opened Text
  import opened Sampling
  import Schedule

  const PARAM_TYPE_INT: string := "int"
  const PARAM_TYPE_DOUBLE: string := "double"
  const PARAM_TYPE_STR: string := "string"
  const PARAM_TYPE_OUTPUT: string := "output"

  /** One line of `paramInfo.txt`: machine name, display label, type tag and description. */
  datatype ParamInfo = ParamInfo(name: string, title: string, kind: string, info: string) {
    function Fields(): seq<string> {
      [name, title, kind, info]
    }
  }

  function ParamInfoHeader(): seq<string> {
    ["label", "name", "type", "info"]
  }

  function HiddenInfo(i: nat): ParamInfo {
    var h := "H" + NatToString(i);
    ParamInfo(h, h, PARAM_TYPE_INT, h)
  }

  function DataInfos(): seq<ParamInfo> {
    [ParamInfo("data", "Data", PARAM_TYPE_STR, "Which dataset do you want to use?"),
     ParamInfo("noise", "Noise", PARAM_TYPE_INT, "Noise"),
     ParamInfo("training_ratio", "Training Ratio", PARAM_TYPE_INT, "Ratio of training to test data"),
     ParamInfo("batch_size", "Batch Size", PARAM_TYPE_INT, "Batch Size")]
  }

  /** One integer column per input feature, named after it. */
  function FeatureInfos(featureNames: seq<string>): seq<ParamInfo> {
    seq(|featureNames|, j requires 0 <= j < |featureNames| =>
      ParamInfo(featureNames[j], featureNames[j], PARAM_TYPE_INT, featureNames[j]))
  }

  function CountInfos(): seq<ParamInfo> {
    [ParamInfo("layer_count", "Layers Count", PARAM_TYPE_INT, "Number of hidden layers"),
     ParamInfo("neuron_count", "Neurons Count", PARAM_TYPE_INT, "Total number of neurons in all hidden layers")]
  }

  /** H1 .. H6, one column per possible hidden layer. */
  function HiddenInfos(): seq<ParamInfo> {
    seq(MAX_HIDDEN, i requires 0 <= i < MAX_HIDDEN => HiddenInfo(i + 1))
  }

  function RateInfos(): seq<ParamInfo> {
    [ParamInfo("learning_rate", "Learning rate", PARAM_TYPE_DOUBLE, "Learning rate"),
     ParamInfo("activation", "Activation", PARAM_TYPE_STR, "Activation"),
     ParamInfo("regularization", "Regularization", PARAM_TYPE_STR, "Regularization"),
     ParamInfo("regularization_rate", "Regularization rate", PARAM_TYPE_DOUBLE, "Regularization rate")]
  }

  /** `param_info()`: the configurable columns, in index order. */
  function ParamInfos(cat: Catalog): (infos: seq<ParamInfo>)
    ensures |infos| == 16 + |cat.featureNames|
    ensures forall j :: 0 <= j < |cat.featureNames| ==> infos[4 + j].name == cat.featureNames[j]
  {
    DataInfos() + FeatureInfos(cat.featureNames) + CountInfos() + HiddenInfos() + RateInfos()
  }

  function Names(infos: seq<ParamInfo>): seq<string> {
    seq(|infos|, i requires 0 <= i < |infos| => infos[i].name)
  }

  /** `param_names()`. */
  function ParamNames(cat: Catalog): (names: seq<string>)
    ensures |names| == 16 + |cat.featureNames|
    ensures forall j :: 0 <= j < |cat.featureNames| ==> names[4 + j] == cat.featureNames[j]
  {
    Names(ParamInfos(cat))
  }

  /** The names of the hidden-layer columns. */
  function HiddenNames(): seq<string> {
    seq(MAX_HIDDEN, i requires 0 <= i < MAX_HIDDEN => "H" + NatToString(i + 1))
  }

  /** `'1' if i in features_ids else '0' for i in DataSet.all_features`. */
  function FeatureFlags(featuresIds: seq<int>, allFeatures: seq<int>): (flags: seq<string>)
    ensures |flags| == |allFeatures|
    ensures forall j :: 0 <= j < |allFeatures| ==>
      (flags[j] == "1" <==> allFeatures[j] in featuresIds) && (flags[j] == "0" <==> allFeatures[j] !in featuresIds)
  {
    seq(|allFeatures|, j requires 0 <= j < |allFeatures| => if allFeatures[j] in featuresIds then "1" else "0")
  }

  /** `str(neurons_per_layer[i]) if i < layer_count else '0' for i in range(max_hidden)`. */
  function HiddenSlots(neurons: seq<int>): (slots: seq<string>)
    ensures |slots| == MAX_HIDDEN
    ensures forall i :: |neurons| <= i < MAX_HIDDEN ==> slots[i] == "0"
  {
    seq(MAX_HIDDEN, i requires 0 <= i < MAX_HIDDEN => if i < |neurons| then IntToString(neurons[i]) else "0")
  }

  /** `param_str()` for the current dataset and classifier; Python's float text is `showFloat`. */
  function ParamStr(data: DataSet, p: TrainingParams, cat: Catalog, showFloat: real -> string): (strs: seq<string>)
    ensures |strs| == 16 + |cat.allFeatures|
    ensures strs[0] == data.datasetName
  {
    [data.datasetName, IntToString(data.noise), IntToString(p.percTrain), IntToString(p.batchSize)]
    + FeatureFlags(p.featuresIds, cat.allFeatures)
    + [IntToString(|p.neuronsPerLayer|), IntToString(Schedule.Sum(p.neuronsPerLayer))]
    + HiddenSlots(p.neuronsPerLayer)
    + [showFloat(p.learningRate), p.activation, p.regularizationType, showFloat(p.regularizationRate)]
  }

  /** The feature table the dataset module provides has one name per feature id. */
  predicate FeatureTablesAgree(cat: Catalog) {
    |cat.featureNames| == cat.numFeatures && |cat.allFeatures| == cat.numFeatures
  }

  lemma NamesAppend(a: seq<ParamInfo>, b: seq<ParamInfo>)
    ensures Names(a + b) == Names(a) + Names(b)
  {
  }

  lemma SegmentsOf<T>(s: seq<T>, a: seq<T>, b: seq<T>, c: seq<T>, d: seq<T>, e: seq<T>)
    requires s == a + b + c + d + e
    ensures s[..|a|] == a
    ensures s[|a|..|a| + |b|] == b
    ensures s[|a| + |b|..|a| + |b| + |c|] == c
    ensures s[|a| + |b| + |c|..|a| + |b| + |c| + |d|] == d
    ensures s[|a| + |b| + |c| + |d|..] == e
  {
    assert s == (a + b + c + d) + e;
    assert (a + b + c + d)[..|a| + |b| + |c|] == a + b + c;
    assert (a + b + c)[..|a| + |b|] == a + b;
  }

  /** `param_names()` and `param_str()` match one to one: both have
      10 + NUM_FEATURES + max_hidden entries, and they split into the same five groups of
      columns: the dataset and training ratio, one 0/1 flag per feature under that
      feature's name, the layer and neuron counts, one slot per possible hidden layer under
      H1 .. H6, and the learning and regularization settings. */
  lemma ParamColumnsAlign(data: DataSet, p: TrainingParams, cat: Catalog, showFloat: real -> string)
    requires FeatureTablesAgree(cat)
    ensures var names, strs, f := ParamNames(cat), ParamStr(data, p, cat, showFloat), cat.numFeatures;
      && |names| == |strs| == 10 + f + MAX_HIDDEN
      && names[..4] == ["data", "noise", "training_ratio", "batch_size"]
      && strs[..4] == [data.datasetName, IntToString(data.noise), IntToString(p.percTrain), IntToString(p.batchSize)]
      && names[4..4 + f] == cat.featureNames
      && strs[4..4 + f] == FeatureFlags(p.featuresIds, cat.allFeatures)
      && names[4 + f..6 + f] == ["layer_count", "neuron_count"]
      && strs[4 + f..6 + f] == [IntToString(|p.neuronsPerLayer|), IntToString(Schedule.Sum(p.neuronsPerLayer))]
      && names[6 + f..6 + f + MAX_HIDDEN] == HiddenNames()
      && strs[6 + f..6 + f + MAX_HIDDEN] == HiddenSlots(p.neuronsPerLayer)
      && names[6 + f + MAX_HIDDEN..] == ["learning_rate", "activation", "regularization", "regularization_rate"]
      && strs[6 + f + MAX_HIDDEN..] ==
           [showFloat(p.learningRate), p.activation, p.regularizationType, showFloat(p.regularizationRate)]
  {
    NamesAppend(DataInfos() + FeatureInfos(cat.featureNames) + CountInfos() + HiddenInfos(), RateInfos());
    NamesAppend(DataInfos() + FeatureInfos(cat.featureNames) + CountInfos(), HiddenInfos());
    NamesAppend(DataInfos() + FeatureInfos(cat.featureNames), CountInfos());
    NamesAppend(DataInfos(), FeatureInfos(cat.featureNames));
    assert Names(DataInfos()) == ["data", "noise", "training_ratio", "batch_size"];
    assert Names(FeatureInfos(cat.featureNames)) == cat.featureNames;
    assert Names(CountInfos()) == ["layer_count", "neuron_count"];
    assert Names(HiddenInfos()) == HiddenNames();
    assert Names(RateInfos()) == ["learning_rate", "activation", "regularization", "regularization_rate"];
    SegmentsOf(ParamNames(cat), Names(DataInfos()), Names(FeatureInfos(cat.featureNames)), Names(CountInfos()),
               Names(HiddenInfos()), Names(RateInfos()));
    SegmentsOf(ParamStr(data, p, cat, showFloat),
               [data.datasetName, IntToString(data.noise), IntToString(p.percTrain), IntToString(p.batchSize)],
               FeatureFlags(p.featuresIds, cat.allFeatures),
               [IntToString(|p.neuronsPerLayer|), IntToString(Schedule.Sum(p.neuronsPerLayer))],
               HiddenSlots(p.neuronsPerLayer),
               [showFloat(p.learningRate), p.activation, p.regularizationType, showFloat(p.regularizationRate)]);
  }

  lemma PositiveTextIsNotZero(n: int)
    requires n >= 1
    ensures IntToString(n) != "0"
  {
    if NatToString(n) == "0" {
      assert NatToString(0) == "0";
      NatToStringInjective(n, 0);
    }
  }

  /** For a sampled configuration (feature ids 0 .. NUM_FEATURES-1) the flags mark exactly
      the selected features, and the hidden-layer slots decode back to the drawn layers:
      the layer count is the number of slots that are not '0', and each of those slots
      reads back as its layer's neuron count. */
  lemma SampledParamColumns(d: Draws, cat: Catalog)
    requires FeatureTablesAgree(cat) && ValidDraws(d, cat)
    requires forall j :: 0 <= j < |cat.allFeatures| ==> cat.allFeatures[j] == j
    ensures var p := SampledParams(d, cat);
      var flags, slots := FeatureFlags(p.featuresIds, cat.allFeatures), HiddenSlots(p.neuronsPerLayer);
      && |flags| == cat.numFeatures
      && (forall j :: 0 <= j < |flags| ==> (flags[j] == "1" <==> j in p.featuresIds))
      && (forall j :: 0 <= j < |flags| ==> (flags[j] == "0" <==> j !in p.featuresIds))
      && (forall x :: x in p.featuresIds ==> 0 <= x < |flags| && flags[x] == "1")
      && (forall i :: 0 <= i < MAX_HIDDEN ==> (slots[i] == "0" <==> i >= |p.neuronsPerLayer|))
      && (forall i :: 0 <= i < |p.neuronsPerLayer| ==>
            IsIntText(slots[i]) && ParseInt(slots[i]) == p.neuronsPerLayer[i])
  {
    var p := SampledParams(d, cat);
    SampledParamsWellShaped(d, cat);
    var slots := HiddenSlots(p.neuronsPerLayer);
    forall x | x in p.featuresIds ensures 0 <= x < cat.numFeatures {
      var k :| 0 <= k < |p.featuresIds| && p.featuresIds[k] == x;
    }
    forall i | 0 <= i < |p.neuronsPerLayer|
      ensures slots[i] != "0" && IsIntText(slots[i]) && ParseInt(slots[i]) == p.neuronsPerLayer[i]
    {
      PositiveTextIsNotZero(p.neuronsPerLayer[i]);
      ParseIntToString(p.neuronsPerLayer[i]);
    }
  }

  /** `all_param_info`: the identifier and image path, the configurable columns, and the
      checkpoint outputs. */
  function AllParamInfo(cat: Catalog): (info: seq<ParamInfo>)
    ensures |info| == 28 + |cat.featureNames|
    ensures info[0].name == "ID" && info[1].name == "imagePath"
  {
    IdInfos() + ParamInfos(cat) + OutputInfos()
  }

  function IdInfos(): seq<ParamInfo> {
    [ParamInfo("ID", "ID", PARAM_TYPE_OUTPUT, "ID"),
     ParamInfo("imagePath", "Image path", PARAM_TYPE_OUTPUT, "Output image path")]
  }

  /** The checkpoint columns: epoch, step, timing and losses, then the four rates. */
  function OutputInfos(): seq<ParamInfo> {
    ProgressInfos() + StatInfos()
  }

  function ProgressInfos(): seq<ParamInfo> {
    [ParamInfo("epoch", "Epoch", PARAM_TYPE_INT, "Number of Epochs (of processing all training data)"),
     ParamInfo("iteration", "Iterations", PARAM_TYPE_INT, "Number of Iterations (of processing a batch)"),
     ParamInfo("total_time", "Total time (ms)", PARAM_TYPE_OUTPUT, "Total time at this epoch"),
     ParamInfo("mean_time", "Mean time (ms)", PARAM_TYPE_OUTPUT, "Mean time per epoch"),
     ParamInfo("train_loss", "Training loss", PARAM_TYPE_OUTPUT, "Training loss at epoch"),
     ParamInfo("test_loss", "Test loss", PARAM_TYPE_OUTPUT, "Test loss at epoch")]
  }

  function StatInfos(): seq<ParamInfo> {
    [ParamInfo("train_TPR", "TPR for train", PARAM_TYPE_OUTPUT, "True positive rate for training data"),
     ParamInfo("train_FPR", "FPR for train", PARAM_TYPE_OUTPUT, "False positive rate for training data"),
     ParamInfo("test_TPR", "TPR for test", PARAM_TYPE_OUTPUT, "True positive rate for test data"),
     ParamInfo("test_FPR", "FPR for test", PARAM_TYPE_OUTPUT, "False positive rate for test data")]
  }

  /** The header line of `index.txt` for the columns `info`: their names. */
  function HeaderOf(info: seq<ParamInfo>): string {
    Join(Names(info), TAB)
  }

  /** The lines of `paramInfo.txt` for the columns `info`: its own header, then one line
      per column. */
  function InfoLines(info: seq<ParamInfo>): (lines: seq<string>)
    ensures |lines| == |info| + 1
  {
    [Join(ParamInfoHeader(), TAB)] + seq(|info|, i requires 0 <= i < |info| => Join(info[i].Fields(), TAB))
  }

  function HeaderLine(cat: Catalog): string {
    HeaderOf(AllParamInfo(cat))
  }

  function ParamInfoLines(cat: Catalog): seq<string> {
    InfoLines(AllParamInfo(cat))
  }

  /** `str()` of a rate: the zero default is the integer 0, any other rate a float. */
  function ShowRate(r: real, showFloat: real -> string): string {
    if r == 0.0 then "0" else showFloat(r)
  }

  /** The fields of one index row (src/run.py:329-343). */
  function IndexRowFields(rowIndex: nat, imagePath: string, paramStr: seq<string>, epoch: nat, step: int,
                          totalTime: real, meanTime: real, trainLoss: real, testLoss: real,
                          stats: seq<real>, showFloat: real -> string): (fields: seq<string>)
    requires |stats| == 4
    ensures |fields| == 12 + |paramStr|
    ensures fields[0] == NatToString(rowIndex) && fields[1] == imagePath
    ensures fields[2..2 + |paramStr|] == paramStr
  {
    [NatToString(rowIndex), imagePath] + paramStr
    + [NatToString(epoch), IntToString(step), showFloat(totalTime), showFloat(meanTime),
       showFloat(trainLoss), showFloat(testLoss),
       ShowRate(stats[0], showFloat), ShowRate(stats[1], showFloat),
       ShowRate(stats[2], showFloat), ShowRate(stats[3], showFloat)]
  }

  predicate AllTabFree(fields: seq<string>) {
    forall i :: 0 <= i < |fields| ==> TabFree(fields[i])
  }

  ghost predicate ShowsWithoutTabs(showFloat: real -> string) {
    forall r :: TabFree(showFloat(r))
  }

  /** Every name in the feature table and every name that can reach a row is tab-free. */
  predicate CatalogTabFree(cat: Catalog) {
    && AllTabFree(cat.featureNames)
    && AllTabFree(cat.dataNames)
    && AllTabFree(cat.activationNames)
    && AllTabFree(cat.regularizationNames)
  }

  lemma AllTabFreeAppend(a: seq<string>, b: seq<string>)
    requires AllTabFree(a) && AllTabFree(b)
    ensures AllTabFree(a + b)
  {
    forall i | 0 <= i < |a + b| ensures TabFree((a + b)[i]) {
      if i >= |a| {
        assert (a + b)[i] == b[i - |a|];
      }
    }
  }

  lemma DigitsTabFree(lead: string, digits: string)
    requires TabFree(lead) && AllDigits(digits)
    ensures TabFree(lead + digits)
  {
    forall k | 0 <= k < |lead + digits| ensures (lead + digits)[k] != TAB {
      if k >= |lead| {
        assert (lead + digits)[k] == digits[k - |lead|];
      }
    }
  }

  lemma IdNamesTabFree()
    ensures AllTabFree(Names(IdInfos()))
  {
    assert Names(IdInfos()) == ["ID", "imagePath"];
  }

  lemma DataNamesTabFree()
    ensures AllTabFree(Names(DataInfos()))
  {
    var infos := DataInfos();
    forall i | 0 <= i < |infos| ensures TabFree(infos[i].name) {
      if i == 0 { assert TabFree("data"); }
      else if i == 1 { assert TabFree("noise"); }
      else if i == 2 { assert TabFree("training_ratio"); }
      else { assert TabFree("batch_size"); }
    }
  }

  lemma CountNamesTabFree()
    ensures AllTabFree(Names(CountInfos()))
  {
    var infos := CountInfos();
    forall i | 0 <= i < |infos| ensures TabFree(infos[i].name) {
      if i == 0 { assert TabFree("layer_count"); }
      else { assert TabFree("neuron_count"); }
    }
  }

  lemma RateNamesTabFree()
    ensures AllTabFree(Names(RateInfos()))
  {
    var infos := RateInfos();
    forall i | 0 <= i < |infos| ensures TabFree(infos[i].name) {
      if i == 0 { assert TabFree("learning_rate"); }
      else if i == 1 { assert TabFree("activation"); }
      else if i == 2 { assert TabFree("regularization"); }
      else { assert TabFree("regularization_rate"); }
    }
  }

  lemma ProgressNamesTabFree()
    ensures AllTabFree(Names(ProgressInfos()))
  {
    var infos := ProgressInfos();
    forall i | 0 <= i < |infos| ensures TabFree(infos[i].name) {
      if i == 0 { assert TabFree("epoch"); }
      else if i == 1 { assert TabFree("iteration"); }
      else if i == 2 { assert TabFree("total_time"); }
      else if i == 3 { assert TabFree("mean_time"); }
      else if i == 4 { assert TabFree("train_loss"); }
      else { assert TabFree("test_loss"); }
    }
  }

  lemma StatNamesTabFree()
    ensures AllTabFree(Names(StatInfos()))
  {
    var infos := StatInfos();
    forall i | 0 <= i < |infos| ensures TabFree(infos[i].name) {
      if i == 0 { assert TabFree("train_TPR"); }
      else if i == 1 { assert TabFree("train_FPR"); }
      else if i == 2 { assert TabFree("test_TPR"); }
      else { assert TabFree("test_FPR"); }
    }
  }

  lemma OutputNamesTabFree()
    ensures AllTabFree(Names(OutputInfos()))
  {
    ProgressNamesTabFree();
    StatNamesTabFree();
    NamesAppend(ProgressInfos(), StatInfos());
    AllTabFreeAppend(Names(ProgressInfos()), Names(StatInfos()));
  }

  lemma VariableNamesTabFree(cat: Catalog)
    requires CatalogTabFree(cat)
    ensures AllTabFree(Names(FeatureInfos(cat.featureNames))) && AllTabFree(Names(HiddenInfos()))
  {
    assert Names(FeatureInfos(cat.featureNames)) == cat.featureNames;
    assert Names(HiddenInfos()) == HiddenNames();
    forall i | 0 <= i < MAX_HIDDEN ensures TabFree(HiddenNames()[i]) {
      DigitsTabFree("H", NatToString(i + 1));
    }
  }

  lemma ParamNamesTabFree(cat: Catalog)
    requires CatalogTabFree(cat)
    ensures AllTabFree(ParamNames(cat))
  {
    var data, features, counts := DataInfos(), FeatureInfos(cat.featureNames), CountInfos();
    var hidden, rates := HiddenInfos(), RateInfos();
    DataNamesTabFree();
    CountNamesTabFree();
    RateNamesTabFree();
    VariableNamesTabFree(cat);
    NamesAppend(data, features);
    AllTabFreeAppend(Names(data), Names(features));
    NamesAppend(data + features, counts);
    AllTabFreeAppend(Names(data + features), Names(counts));
    NamesAppend(data + features + counts, hidden);
    AllTabFreeAppend(Names(data + features + counts), Names(hidden));
    NamesAppend(data + features + counts + hidden, rates);
    AllTabFreeAppend(Names(data + features + counts + hidden), Names(rates));
  }

  lemma NamesTabFree(cat: Catalog)
    requires CatalogTabFree(cat)
    ensures AllTabFree(Names(AllParamInfo(cat)))
  {
    IdNamesTabFree();
    OutputNamesTabFree();
    ParamNamesTabFree(cat);
    NamesAppend(IdInfos(), ParamInfos(cat));
    AllTabFreeAppend(Names(IdInfos()), Names(ParamInfos(cat)));
    NamesAppend(IdInfos() + ParamInfos(cat), OutputInfos());
    AllTabFreeAppend(Names(IdInfos() + ParamInfos(cat)), Names(OutputInfos()));
  }

  lemma ParamStrTabFree(data: DataSet, p: TrainingParams, cat: Catalog, showFloat: real -> string)
    requires TabFree(data.datasetName) && TabFree(p.activation) && TabFree(p.regularizationType)
    requires ShowsWithoutTabs(showFloat)
    ensures AllTabFree(ParamStr(data, p, cat, showFloat))
  {
    var head := [data.datasetName, IntToString(data.noise), IntToString(p.percTrain), IntToString(p.batchSize)];
    var flags := FeatureFlags(p.featuresIds, cat.allFeatures);
    var counts := [IntToString(|p.neuronsPerLayer|), IntToString(Schedule.Sum(p.neuronsPerLayer))];
    var slots := HiddenSlots(p.neuronsPerLayer);
    var rates := [showFloat(p.learningRate), p.activation, p.regularizationType, showFloat(p.regularizationRate)];
    AllTabFreeAppend(head, flags);
    AllTabFreeAppend(head + flags, counts);
    AllTabFreeAppend(head + flags + counts, slots);
    AllTabFreeAppend(head + flags + counts + slots, rates);
  }

  /** Every index row has exactly the columns of the header: as many fields, and, once
      written tab-separated, as many tab-separated fields as the header line. The first
      two fields read back as the row number and the image path. */
  lemma RowMatchesHeader(cat: Catalog, fields: seq<string>, data: DataSet, p: TrainingParams,
                         rowIndex: nat, imagePath: string, epoch: nat, step: int,
                         totalTime: real, meanTime: real, trainLoss: real, testLoss: real,
                         stats: seq<real>, showFloat: real -> string)
    requires FeatureTablesAgree(cat) && CatalogTabFree(cat) && ShowsWithoutTabs(showFloat)
    requires TabFree(data.datasetName) && TabFree(p.activation) && TabFree(p.regularizationType)
    requires TabFree(imagePath) && |stats| == 4
    requires fields == IndexRowFields(rowIndex, imagePath, ParamStr(data, p, cat, showFloat), epoch, step,
                                      totalTime, meanTime, trainLoss, testLoss, stats, showFloat)
    ensures |fields| == |Names(AllParamInfo(cat))| == 22 + cat.numFeatures + MAX_HIDDEN
    ensures Split(Join(fields, TAB), TAB) == fields
    ensures |Split(Join(fields, TAB), TAB)| == |Split(HeaderLine(cat), TAB)|
    ensures Split(Join(fields, TAB), TAB)[0] == NatToString(rowIndex)
    ensures Split(Join(fields, TAB), TAB)[1] == imagePath
  {
    var paramStr := ParamStr(data, p, cat, showFloat);
    ParamColumnsAlign(data, p, cat, showFloat);
    NamesAppend(IdInfos() + ParamInfos(cat), OutputInfos());
    NamesAppend(IdInfos(), ParamInfos(cat));
    ParamStrTabFree(data, p, cat, showFloat);
    var ids := [NatToString(rowIndex), imagePath];
    var outputs := fields[2 + |paramStr|..];
    assert fields == ids + paramStr + outputs;
    assert AllTabFree(outputs);
    AllTabFreeAppend(ids, paramStr);
    AllTabFreeAppend(ids + paramStr, outputs);
    NamesTabFree(cat);
    SplitJoin(fields, TAB);
    SplitJoin(Names(AllParamInfo(cat)), TAB);
  }

  /** Split at the tabs, the header line gives back the column names: 22 + NUM_FEATURES +
      max_hidden of them. */
  lemma HeaderColumns(cat: Catalog)
    requires FeatureTablesAgree(cat) && CatalogTabFree(cat)
    ensures Split(HeaderLine(cat), TAB) == Names(AllParamInfo(cat))
    ensures |Split(HeaderLine(cat), TAB)| == 22 + cat.numFeatures + MAX_HIDDEN
  {
    ParamColumnsAlign(DataSet([], 0, []), TrainingParams(0, 0, 0.0, [], [], [], 0.0, []), cat, r => []);
    NamesAppend(IdInfos() + ParamInfos(cat), OutputInfos());
    NamesAppend(IdInfos(), ParamInfos(cat));
    NamesTabFree(cat);
    SplitJoin(Names(AllParamInfo(cat)), TAB);
  }

  /** The header written to `paramInfo.txt` names the columns of `index.txt`, in order:
      line i + 1 of `paramInfo.txt` starts with field i of the index header. */
  lemma {:induction false} ParamInfoMatchesHeader(cat: Catalog)
    requires CatalogTabFree(cat)
    ensures |ParamInfoLines(cat)| == |Split(HeaderLine(cat), TAB)| + 1
    ensures forall i :: 0 <= i < |Split(HeaderLine(cat), TAB)| ==>
              Split(ParamInfoLines(cat)[i + 1], TAB)[0] == Split(HeaderLine(cat), TAB)[i]
  {
    var all := AllParamInfo(cat);
    var names := Names(all);
    NamesTabFree(cat);
    SplitJoin(names, TAB);
    forall i | 0 <= i < |names|
      ensures Split(ParamInfoLines(cat)[i + 1], TAB)[0] == names[i]
    {
      var line := ParamInfoLines(cat)[i + 1];
      assert line == Join(all[i].Fields(), TAB);
      assert TabFree(names[i]);
      SplitAfterField(names[i], Join(all[i].Fields()[1..], TAB), TAB);
    }
  }

  const PRED_HEADER: string := "label_pred"

  /** `[-1 if label == 0 else label for label in yp]`. */
  function NegPos(yp: seq<int>): (r: seq<int>)
    ensures |r| == |yp|
    ensures forall i :: 0 <= i < |yp| ==> r[i] == (if yp[i] == 0 then -1 else yp[i])
  {
    if |yp| == 0 then [] else [if yp[0] == 0 then -1 else yp[0]] + NegPos(yp[1..])
  }

  /** The lines of a prediction dump: the header, then `str(v)` of each written value. */
  function DumpLines(yp: seq<int>, negPos: bool): (lines: seq<string>)
    ensures |lines| == |yp| + 1 && lines[0] == PRED_HEADER
  {
    var values := if negPos then NegPos(yp) else yp;
    [PRED_HEADER] + seq(|values|, i requires 0 <= i < |values| => IntToString(values[i]))
  }

  /** Reading a dump back: `int()` of every line after the header, -1 read as 0 when the
      labels were written as -1/1. */
  function ReadDump(lines: seq<string>, negPos: bool): seq<int>
    requires |lines| >= 1 && forall i :: 1 <= i < |lines| ==> IsIntText(lines[i])
  {
    seq(|lines| - 1, i requires 0 <= i < |lines| - 1 =>
      var v := ParseInt(lines[i + 1]); if negPos && v == -1 then 0 else v)
  }

  /** The dump has one line per prediction after the `label_pred` header, and reads back
      as the predictions: with the -1/1 convention a 0 is written as -1, which is why a
      prediction of -1 is excluded there. */
  lemma DumpRoundTrip(yp: seq<int>, negPos: bool)
    requires negPos ==> forall i :: 0 <= i < |yp| ==> yp[i] != -1
    ensures |DumpLines(yp, negPos)| == |yp| + 1 && DumpLines(yp, negPos)[0] == PRED_HEADER
    ensures forall i :: 1 <= i < |DumpLines(yp, negPos)| ==> IsIntText(DumpLines(yp, negPos)[i])
    ensures ReadDump(DumpLines(yp, negPos), negPos) == yp
  {
    var lines := DumpLines(yp, negPos);
    var values := if negPos then NegPos(yp) else yp;
    forall i | 0 <= i < |values| ensures IsIntText(lines[i + 1]) && ParseInt(lines[i + 1]) == values[i] {
      ParseIntToString(values[i]);
    }
  }

  /** With the -1/1 convention, 0/1 labels are written as -1/1; otherwise as they are. */
  lemma DumpLabelValues(yp: seq<int>, negPos: bool)
    requires forall i :: 0 <= i < |yp| ==> yp[i] == 0 || yp[i] == 1
    ensures forall i :: 0 <= i < |yp| ==>
      DumpLines(yp, negPos)[i + 1] == (if yp[i] == 1 then "1" else if negPos then "-1" else "0")
  {
    assert NatToString(1) == "1" && NatToString(0) == "0";
    assert IntToString(1) == "1" && IntToString(0) == "0" && IntToString(-1) == "-1";
  }

  /** The write loop of `save_current_run`: the header, then one line per value. */
  method WriteDump(predicted: seq<int>, negPos: bool) returns (lines: seq<string>)
    ensures lines == DumpLines(predicted, negPos)
  {
    var yp := predicted;
    if negPos {
      yp := NegPos(yp);
    }
    lines := [PRED_HEADER];
    for i := 0 to |yp|
      invariant |lines| == i + 1 && lines[0] == PRED_HEADER
      invariant forall k :: 0 <= k < i ==> lines[k + 1] == IntToString(yp[k])
    {
      lines := lines + [IntToString(yp[i])];
    }
  }
}
