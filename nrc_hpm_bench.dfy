/** The NRC-Hpm-Bench driver (NRC-Hpm-Bench/NRC_Hpm_Bench.py): twelve option
    lists, one config file `configs.csv`, generated and then executed line by
    line. Staging of the executable and data directory, the timing and the
    empty evaluation step are not part of this model. */
module NrcHpmBench {
  import opened Wrappers
  import opened Sweep

  const CONFIG_FILE := "configs.csv"

  const LOSS_FN_OPTIONS: Axis := ["RelativeL2"]
  const OPTIMIZER_OPTIONS: Axis := ["Adam"]
  const LEARNING_RATE_OPTIONS: Axis := ["0.01", "0.001", "0.0001", "0.00001"]
  const ENCODING_OPTIONS: Axis := ["0"]
  const NN_WIDTH_OPTIONS: Axis := ["64", "128"]
  const NN_DEPTH_OPTIONS: Axis := ["2", "6", "10"]
  const LOG2_BATCH_SIZE_OPTIONS: Axis := ["12", "14", "16"]
  const SCENE_OPTIONS: Axis := ["0"]
  const RENDER_WIDTH_OPTIONS: Axis := ["1920"]
  const RENDER_HEIGHT_OPTIONS: Axis := ["1080"]
  const TRAIN_SAMPLE_RATIO_OPTIONS: Axis := ["0.01", "0.02", "0.05", "0.1"]
  const TRAIN_SPP_OPTIONS: Axis := ["1", "2", "4"]

  /** The option lists in the order they are handed to `itertools.product`.
      (Written as a concatenation so that the verifier does not evaluate the
      whole 864-element product eagerly.) */
  function Axes(): (axes: seq<Axis>)
    ensures |axes| == 12
  {
    [LOSS_FN_OPTIONS] + [OPTIMIZER_OPTIONS, LEARNING_RATE_OPTIONS, ENCODING_OPTIONS,
     NN_WIDTH_OPTIONS, NN_DEPTH_OPTIONS, LOG2_BATCH_SIZE_OPTIONS, SCENE_OPTIONS,
     RENDER_WIDTH_OPTIONS, RENDER_HEIGHT_OPTIONS, TRAIN_SAMPLE_RATIO_OPTIONS,
     TRAIN_SPP_OPTIONS]
  }

  /** The sweep has 1·1·4·1·2·3·3·1·1·1·4·3 = 864 configurations. */
  lemma ConfigCount()
    ensures LengthProduct(Axes()) == 864
  {
    var a := Axes();
    BlockCount();
    LengthProductStep(a, 2, 216);
    LengthProductStep(a, 1, 864);
    LengthProductStep(a, 0, 864);
    assert a[0..] == a;
  }

  /** The lists after the learning rate span 216 configurations. */
  lemma BlockCount()
    ensures LengthProduct(Axes()[3..]) == 216
  {
    var a := Axes();
    assert LengthProduct(a[12..]) == 1;
    LengthProductStep(a, 11, 1);
    LengthProductStep(a, 10, 3);
    LengthProductStep(a, 9, 12);
    LengthProductStep(a, 8, 12);
    LengthProductStep(a, 7, 12);
    LengthProductStep(a, 6, 12);
    LengthProductStep(a, 5, 36);
    LengthProductStep(a, 4, 108);
    LengthProductStep(a, 3, 216);
  }

  /** Every option value is one word without Python whitespace. */
  lemma OptionsAreWords()
    ensures forall i :: 0 <= i < |Axes()| ==> AllWords(Axes()[i])
  {
  }

  /** `generate_configs`: reports the number of configurations and writes
      `configs.csv` afresh, one serialised tuple per line. */
  method GenerateConfigs(files: Files) returns (count: nat, files': Files)
    ensures count == 864
    ensures files' == files[CONFIG_FILE := ConfigFile(SerializedAll(Product(Axes())))]
  {
    var content;
    count, content := WriteConfigs(Axes());
    ConfigCount();
    files' := files[CONFIG_FILE := content];
  }

  /** `main` without the file staging and the empty evaluation: generate, then
      execute. Every generated configuration runs exactly once, in product
      order, and its command is the renderer followed by the twelve values. */
  method GenerateAndExecute(files: Files) returns (files': Files, runs: seq<Run>)
    ensures CONFIG_FILE in files'
    ensures |runs| == |Product(Axes())| == 864
    ensures forall k :: 0 <= k < |runs| ==>
      |Product(Axes())[k]| == 12 && AllWords(Product(Axes())[k])
      && runs[k] == Run(k, Command(Joined(Product(Axes())[k])))
  {
    var count;
    count, files' := GenerateConfigs(files);
    ghost var content := ConfigFile(SerializedAll(Product(Axes())));
    assert files'[CONFIG_FILE] == content;
    var r := ExecuteConfigs(files', CONFIG_FILE);
    runs := r.value;
    RunsAreRunsOf(runs, ReadLines(content));
    OptionsAreWords();
    ConfigCount();
    RoundTrip(Axes());
  }

  /** Odometer order: the loss function varies slowest; the learning rate,
      the third list, changes only once every 864 / 4 = 216 configurations. */
  lemma LearningRateBlock(c: seq<nat>)
    requires IsChoice(Axes(), c) && c[2] + 1 < |LEARNING_RATE_OPTIONS|
    ensures IsChoice(Axes(), c[2 := c[2] + 1])
    ensures OdometerIndex(Axes(), c[2 := c[2] + 1]) == OdometerIndex(Axes(), c) + 216
  {
    LearningRateIsThird();
    BlockCount();
    AxisStepBy(Axes(), c, 2, 216);
  }

  lemma LearningRateIsThird()
    ensures Axes()[2] == LEARNING_RATE_OPTIONS
  {
  }

}
