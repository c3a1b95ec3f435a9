/** The WinBench driver (WinBench/win_bench.py): fourteen option lists. The
    generator writes `configs.txt`, while the executor reads `configs.csv`;
    `main` only stages files and generates, since execution and evaluation are
    commented out. File staging and timing are not part of this model. */
module WinBench {
  import opened Wrappers
  import opened Sweep

  const GENERATED_FILE := "configs.txt"
  const EXECUTED_FILE := "configs.csv"

  const LOSS_FN_OPTIONS: Axis := ["RelativeL2"]
  const OPTIMIZER_OPTIONS: Axis := ["Adam"]
  const LEARNING_RATE_OPTIONS: Axis := ["0.01", "0.001"]
  const EMA_DECAY_OPTIONS: Axis := ["0.0", "0.9", "0.99"]
  const POS_ENCODING_OPTIONS: Axis := ["0", "2"]
  const DIR_ENCODING_OPTIONS: Axis := ["0"]
  const NN_WIDTH_OPTIONS: Axis := ["64", "128"]
  const NN_DEPTH_OPTIONS: Axis := ["3", "4", "6", "8"]
  const LOG2_BATCH_SIZE_OPTIONS: Axis := ["15", "16"]
  const SCENE_OPTIONS: Axis := ["1"]
  const TRAIN_SAMPLE_RATIO_OPTIONS: Axis := ["0.025", "0.05"]
  const TRAIN_RING_BUF_SIZE_OPTIONS: Axis := ["0.0", "1.0"]
  const TRAIN_SPP_OPTIONS: Axis := ["1", "2"]
  const PRIMARY_RAY_LEN_OPTIONS: Axis := ["2", "3", "4"]

  /** The option lists in the order they are handed to `itertools.product`.
      (Written as a concatenation so that the verifier does not evaluate the
      whole product eagerly.) */
  function Axes(): (axes: seq<Axis>)
    ensures |axes| == 14
  {
    [LOSS_FN_OPTIONS] + [OPTIMIZER_OPTIONS, LEARNING_RATE_OPTIONS, EMA_DECAY_OPTIONS,
     POS_ENCODING_OPTIONS, DIR_ENCODING_OPTIONS, NN_WIDTH_OPTIONS, NN_DEPTH_OPTIONS,
     LOG2_BATCH_SIZE_OPTIONS, SCENE_OPTIONS, TRAIN_SAMPLE_RATIO_OPTIONS,
     TRAIN_RING_BUF_SIZE_OPTIONS, TRAIN_SPP_OPTIONS, PRIMARY_RAY_LEN_OPTIONS]
  }

  /** The sweep has 1·1·2·3·2·1·2·4·2·1·2·2·2·3 = 4608 configurations. */
  lemma ConfigCount()
    ensures LengthProduct(Axes()) == 4608
  {
    var a := Axes();
    assert LengthProduct(a[14..]) == 1;
    LengthProductStep(a, 13, 1);
    LengthProductStep(a, 12, 3);
    LengthProductStep(a, 11, 6);
    LengthProductStep(a, 10, 12);
    LengthProductStep(a, 9, 24);
    LengthProductStep(a, 8, 24);
    LengthProductStep(a, 7, 48);
    LengthProductStep(a, 6, 192);
    LengthProductStep(a, 5, 384);
    LengthProductStep(a, 4, 384);
    LengthProductStep(a, 3, 768);
    LengthProductStep(a, 2, 2304);
    LengthProductStep(a, 1, 4608);
    LengthProductStep(a, 0, 4608);
    assert a[0..] == a;
  }

  /** Every option value is one word without Python whitespace. */
  lemma OptionsAreWords()
    ensures forall i :: 0 <= i < |Axes()| ==> AllWords(Axes()[i])
  {
  }

  /** `generate_stage1_configs`: reports the number of configurations and
      writes `configs.txt` afresh, one serialised tuple per line. */
  method GenerateStage1Configs(files: Files) returns (count: nat, files': Files)
    ensures count == 4608
    ensures files' == files[GENERATED_FILE := ConfigFile(SerializedAll(Product(Axes())))]
  {
    var content;
    count, content := WriteConfigs(Axes());
    ConfigCount();
    files' := files[GENERATED_FILE := content];
  }

  /** `main` as written: stage the files, then generate; nothing is executed.
      The file `configs.csv` the executor would read is left as it was. */
  method StageAndGenerate(files: Files) returns (files': Files, runs: seq<Run>)
    ensures runs == []
    ensures GENERATED_FILE in files' && files'[GENERATED_FILE] == ConfigFile(SerializedAll(Product(Axes())))
    ensures forall name :: name != GENERATED_FILE ==> (name in files' <==> name in files)
    ensures EXECUTED_FILE in files ==> EXECUTED_FILE in files' && files'[EXECUTED_FILE] == files[EXECUTED_FILE]
  {
    var count;
    count, files' := GenerateStage1Configs(files);
    FileNamesDiffer();
    OtherEntryKept(files, GENERATED_FILE, EXECUTED_FILE, ConfigFile(SerializedAll(Product(Axes()))));
    runs := [];
  }

  /** The generator and the executor name different files. */
  lemma FileNamesDiffer()
    ensures EXECUTED_FILE != GENERATED_FILE
  {
    assert EXECUTED_FILE[|EXECUTED_FILE| - 1] != GENERATED_FILE[|GENERATED_FILE| - 1];
  }

  /** Generation followed by `execute_configs`, as the commented-out lines of
      `main` would do it: the executor never sees the generated file. With no
      `configs.csv` present the script aborts; with one present, it runs that
      file's stale lines, whatever was just generated. */
  method GenerateThenExecute(files: Files) returns (r: Outcome<seq<Run>>)
    ensures EXECUTED_FILE !in files <==> r.Err?
    ensures r.Ok? ==> r.value == RunsOf(ReadLines(files[EXECUTED_FILE]))
  {
    var count, files' := GenerateStage1Configs(files);
    FileNamesDiffer();
    OtherEntryKept(files, GENERATED_FILE, EXECUTED_FILE, ConfigFile(SerializedAll(Product(Axes()))));
    r := ExecuteConfigs(files', EXECUTED_FILE);
    if r.Ok? {
      RunsAreRunsOf(r.value, ReadLines(files[EXECUTED_FILE]));
    }
  }

  /** Starting from a directory without `configs.csv`, generate-then-execute
      fails although 4608 configurations were just written. */
  lemma RoundTripBroken(files: Files)
    requires EXECUTED_FILE !in files
    ensures EXECUTED_FILE !in files[GENERATED_FILE := ConfigFile(SerializedAll(Product(Axes())))]
    ensures |ReadLines(ConfigFile(SerializedAll(Product(Axes()))))| == 4608
  {
    ConfigCount();
    OptionsAreWords();
    GeneratedLineCount(Axes());
    FileNamesDiffer();
    OtherEntryKept(files, GENERATED_FILE, EXECUTED_FILE, ConfigFile(SerializedAll(Product(Axes()))));
  }

  /** The intended pipeline: execute the file that was generated. Every one of
      the 4608 configurations then runs once, in product order, with its
      fourteen values as arguments. */
  method GenerateThenExecuteGenerated(files: Files) returns (runs: seq<Run>)
    ensures |runs| == |Product(Axes())| == 4608
    ensures forall k :: 0 <= k < |runs| ==>
      |Product(Axes())[k]| == 14 && AllWords(Product(Axes())[k])
      && runs[k] == Run(k, Command(Joined(Product(Axes())[k])))
  {
    var count, files' := GenerateStage1Configs(files);
    ghost var content := ConfigFile(SerializedAll(Product(Axes())));
    assert files'[GENERATED_FILE] == content;
    var r := ExecuteConfigs(files', GENERATED_FILE);
    runs := r.value;
    RunsAreRunsOf(runs, ReadLines(content));
    OptionsAreWords();
    ConfigCount();
    RoundTrip(Axes());
  }
}
