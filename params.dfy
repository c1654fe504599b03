/**
 * Layer types and the network parameter container (brio/blocks/aux.py; the
 * same LayerType table is repeated in src/blocks/layer.py and is defined once
 * here).
 */
module Params {

  /** The three kinds of layer; each carries three fixed scalars. */
  datatype LayerType = Unconstrained | Excitatory | Inhibitory
  {
    /** Multiplies the network's baseline firing rate into a layer's target rate. */
    function FiringRateMultiplier(): int
    {
      match this
      case Unconstrained => 1
      case Excitatory => 1
      case Inhibitory => 2
    }

    /** Sign applied to every weight of a connection leaving a layer of this type. */
    function WeightMultiplier(): int
    {
      match this
      case Unconstrained => 1
      case Excitatory => 1
      case Inhibitory => -1
    }

    /** Whether connections leaving a layer of this type keep their weights non-negative. */
    predicate ConstrainWeights()
    {
      match this
      case Unconstrained => false
      case Excitatory => true
      case Inhibitory => true
    }
  }

  /** The three LayerType members as (firing_rate_multiplier, weight_multiplier, constrain_weights). */
  lemma LayerTypeTable()
    ensures (Unconstrained.FiringRateMultiplier(), Unconstrained.WeightMultiplier(), Unconstrained.ConstrainWeights()) == (1, 1, false)
    ensures (Excitatory.FiringRateMultiplier(), Excitatory.WeightMultiplier(), Excitatory.ConstrainWeights()) == (1, 1, true)
    ensures (Inhibitory.FiringRateMultiplier(), Inhibitory.WeightMultiplier(), Inhibitory.ConstrainWeights()) == (2, -1, true)
  {
  }

  /** Only the unconstrained type leaves weights free, and only the inhibitory type flips their sign. */
  lemma LayerTypeDistinctions(t: LayerType)
    ensures !t.ConstrainWeights() <==> t == Unconstrained
    ensures t.WeightMultiplier() < 0 <==> t == Inhibitory
    ensures t.WeightMultiplier() == 1 || t.WeightMultiplier() == -1
    ensures t.FiringRateMultiplier() >= 1
  {
  }

  /** Number of stimuli rolled into one epoch; fixed whatever the constructor is given. */
  const StimuliPerEpoch: nat := 100

  /** Global network parameters, immutable after construction. */
  datatype NetworkParams = NetworkParams(
    presentations: nat,
    stimuliPerEpoch: nat,
    updateBatchSize: nat,
    baselineFiringRate: real,
    biasLearningRate: real,
    baselineLrate: real,
    layerHistoryLength: nat,
    keepExtraHistory: bool,
    asyncUpdate: bool,
    display: bool,
    printProgress: bool,
    updateCap: int,
    timestep: real,
    stepsPerRcTime: real,
    stepsPerFrTime: nat,
    lfrCharTime: nat)

  /** NetworkParams.__init__: stores the arguments and derives the remaining fields. */
  function NewNetworkParams(baselineFiringRate: real, biasLearningRate: real, baselineLrate: real,
                            presentations: nat, asyncUpdate: bool, display: bool, updateCap: int)
    : (p: NetworkParams)
    ensures p.presentations == presentations && p.baselineFiringRate == baselineFiringRate
    ensures p.biasLearningRate == biasLearningRate && p.baselineLrate == baselineLrate
    ensures p.asyncUpdate == asyncUpdate && p.display == display && p.updateCap == updateCap
    ensures p.stimuliPerEpoch == 100
    ensures p.updateBatchSize == p.presentations * p.stimuliPerEpoch
    ensures p.layerHistoryLength == p.updateBatchSize
    ensures p.keepExtraHistory && p.printProgress
    ensures p.timestep == 0.1 && p.stepsPerRcTime == 1.0 / p.timestep == 10.0
    ensures p.stepsPerFrTime == 10 && p.lfrCharTime == 1
  {
    var timestep := 0.1;
    NetworkParams(
      presentations := presentations,
      stimuliPerEpoch := StimuliPerEpoch,
      updateBatchSize := presentations * StimuliPerEpoch,
      baselineFiringRate := baselineFiringRate,
      biasLearningRate := biasLearningRate,
      baselineLrate := baselineLrate,
      layerHistoryLength := presentations * StimuliPerEpoch,
      keepExtraHistory := true,
      asyncUpdate := asyncUpdate,
      display := display,
      printProgress := true,
      updateCap := updateCap,
      timestep := timestep,
      stepsPerRcTime := 1.0 / timestep,
      stepsPerFrTime := 10,
      lfrCharTime := 1)
  }

  /** The constructor's default arguments. */
  function DefaultNetworkParams(): (p: NetworkParams)
    ensures p.presentations == 50 && p.updateBatchSize == 5000
    ensures p.baselineFiringRate == 0.02 && p.biasLearningRate == 0.1 && p.baselineLrate == 0.1
    ensures !p.asyncUpdate && !p.display && p.updateCap == 1
  {
    NewNetworkParams(0.02, 0.1, 0.1, 50, false, false, 1)
  }

  /**
   * The batch size that triggers a weight update is at least one exactly when
   * every stimulus is presented at least once.
   */
  lemma BatchSizePositive(baselineFiringRate: real, biasLearningRate: real, baselineLrate: real,
                          presentations: nat, asyncUpdate: bool, display: bool, updateCap: int)
    ensures var p := NewNetworkParams(baselineFiringRate, biasLearningRate, baselineLrate,
                                      presentations, asyncUpdate, display, updateCap);
            p.updateBatchSize >= 1 <==> presentations >= 1
    ensures var p := NewNetworkParams(baselineFiringRate, biasLearningRate, baselineLrate,
                                      presentations, asyncUpdate, display, updateCap);
            p.updateBatchSize % p.stimuliPerEpoch == 0
  {
  }
}
