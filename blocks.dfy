/**
 * Layers and connections (src/blocks/layer.py and src/blocks/connection.py).
 * A layer lists the connections that feed it and leave it, and a connection
 * refers back to both of its layers, so the two classes share one module.
 * The Python subclasses become kind tags; Python exceptions become a Status.
 */
module Blocks {

  import opened Wrappers
  import opened Params
  import opened Rules
  import opened History

  /** The outcome of an operation: Ok, or the exception the Python code raises. */
  datatype Status = Ok | NotImplementedError | AttributeError | AssertionError | IndexError | FloatingPointError

  /** Layer, PerceptronLayer or InputLayer (BoltzmannMachineLayer is not part of this model). */
  datatype LayerKind = BaseLayer | PerceptronLayer | InputLayer

  /** Connection and its four subclasses. */
  datatype ConnectionKind =
    | BaseConnection | OjaConnection | FoldiakConnection | CMConnection | ConstantConnection
  {
    predicate Learns()
    {
      OjaConnection? || FoldiakConnection? || CMConnection?
    }

    function LearningRule(): Rule
      requires Learns()
    {
      match this
      case OjaConnection => OjaRule
      case FoldiakConnection => FoldiakRule
      case CMConnection => CMRule
    }
  }

  /** `learning_rate or fallback`: None and 0.0 are falsy in Python. */
  function RateOr(lr: Option<real>, fallback: real): (r: real)
    ensures lr.Some? && lr.value != 0.0 ==> r == lr.value
    ensures lr.None? || lr.value == 0.0 ==> r == fallback
  {
    if lr.Some? && lr.value != 0.0 then lr.value else fallback
  }

  class Layer {
    const nDims: nat
    const kind: LayerKind
    const ltype: LayerType
    const maxHistoryLength: nat
    const targetFiringRate: real
    var state: seq<real>
    var bias: seq<real>
    var inputs: seq<Connection>
    var outputs: seq<Connection>
    /** Past states, newest first, kept as value snapshots. */
    var history: seq<seq<real>>

    /** Vectors have nDims entries and the history stays within its capacity. */
    ghost predicate Valid()
      reads this
    {
      && maxHistoryLength == MaxHistoryLength
      && |state| == nDims
      && |bias| == nDims
      && |history| <= HistoryCapacity
      && forall k :: 0 <= k < |history| ==> |history[k]| == nDims
    }

    /** Every listed connection ends (inputs) or starts (outputs) at this layer. */
    ghost predicate Wired()
      reads this
    {
      && (forall c :: c in inputs ==> c.post == this && c.Shaped())
      && (forall c :: c in outputs ==> c.pre == this && c.Shaped())
    }

    /** The presynaptic layers of the inputs hold full state vectors. */
    ghost predicate InputsReady()
      reads this, set c | c in inputs :: c.pre
    {
      forall c :: c in inputs ==> |c.pre.state| == c.pre.nDims
    }

    /**
     * Layer.__init__; `initialBias` stands for the random bias vector. Python's
     * defaults are ltype = Unconstrained and baselineFiringRate = 0.02.
     */
    constructor (nDims: nat, kind: LayerKind, ltype: LayerType, baselineFiringRate: real, initialBias: seq<real>)
      requires |initialBias| == nDims
      ensures Valid() && Wired()
      ensures this.nDims == nDims && this.kind == kind && this.ltype == ltype
      ensures state == seq(nDims, _ => 1.0) && bias == initialBias
      ensures inputs == [] && outputs == [] && history == []
      ensures maxHistoryLength == 500
      ensures targetFiringRate == (ltype.FiringRateMultiplier() as real) * baselineFiringRate
    {
      this.nDims := nDims;
      this.kind := kind;
      this.ltype := ltype;
      maxHistoryLength := MaxHistoryLength;
      targetFiringRate := (ltype.FiringRateMultiplier() as real) * baselineFiringRate;
      state := seq(nDims, _ => 1.0);
      bias := initialBias;
      inputs := [];
      outputs := [];
      history := [];
    }

    /** add_input: appends one connection to the inputs, outputs untouched. */
    method AddInput(c: Connection)
      modifies this`inputs
      ensures inputs == old(inputs) + [c]
    {
      inputs := inputs + [c];
    }

    /** add_output: appends one connection to the outputs, inputs untouched. */
    method AddOutput(c: Connection)
      modifies this`outputs
      ensures outputs == old(outputs) + [c]
    {
      outputs := outputs + [c];
    }

    /** input_energy: the feed-forward energies of the inputs, summed in list order. */
    method InputEnergy(idx: nat) returns (energy: real)
      requires Wired() && InputsReady() && idx < nDims
      ensures energy == InputEnergyOf(inputs, idx)
    {
      energy := 0.0;
      var i := 0;
      while i < |inputs|
        invariant 0 <= i <= |inputs|
        invariant energy == InputEnergyOf(inputs[..i], idx)
      {
        assert inputs[..i + 1][..i] == inputs[..i];
        energy := energy + inputs[i].FeedforwardEnergy(idx);
        i := i + 1;
      }
      assert inputs[..i] == inputs;
    }

    /**
     * update(idx). A PerceptronLayer thresholds bias plus input energy into
     * state[idx] and changes nothing else; the base Layer and InputLayer raise
     * NotImplementedError.
     */
    method Update(idx: nat) returns (status: Status)
      requires Valid() && Wired() && InputsReady() && idx < nDims
      modifies this`state
      ensures Valid()
      ensures kind != PerceptronLayer ==> status == NotImplementedError && state == old(state)
      ensures kind == PerceptronLayer ==>
        status == Ok && state == old(state)[idx := Activation(bias[idx] + old(InputEnergyOf(inputs, idx)))]
    {
      if kind != PerceptronLayer {
        return NotImplementedError;
      }
      var energy := InputEnergy(idx);
      state := state[idx := Activation(bias[idx] + energy)];
      status := Ok;
    }

    /** update_history: push a snapshot of the state, truncating when too long. */
    method UpdateHistory()
      requires Valid()
      modifies this`history
      ensures Valid()
      ensures history == Pushed(old(history), state)
    {
      history := [state] + history;
      if |history| > 2 * maxHistoryLength {
        history := history[..maxHistoryLength];
      }
    }

    /**
     * InputLayer.set_state: the new vector must have the state's shape. Only
     * InputLayer defines it, so on any other layer the call is an
     * AttributeError.
     */
    method SetState(s: seq<real>) returns (status: Status)
      requires Valid()
      modifies this`state
      ensures Valid()
      ensures kind != InputLayer ==> status == AttributeError && state == old(state)
      ensures kind == InputLayer && |s| != |old(state)| ==> status == AssertionError && state == old(state)
      ensures kind == InputLayer && |s| == |old(state)| ==> status == Ok && state == s
    {
      if kind != InputLayer {
        return AttributeError;
      }
      if |s| != |state| {
        return AssertionError;
      }
      state := s;
      status := Ok;
    }
  }

  /** The sum of the feed-forward energies of `cs` into unit idx, first to last. */
  function InputEnergyOf(cs: seq<Connection>, idx: nat): real
    reads set c | c in cs :: c.pre, set c | c in cs :: c.weights
    requires forall c :: c in cs ==> c.Shaped() && |c.pre.state| == c.pre.nDims && idx < c.post.nDims
  {
    if cs == [] then 0.0
    else InputEnergyOf(cs[..|cs| - 1], idx) + cs[|cs| - 1].FeedforwardEnergy(idx)
  }

  class Connection {
    const pre: Layer
    const post: Layer
    const kind: ConnectionKind
    /** pre.nDims rows by post.nDims columns. */
    const weights: array2<real>
    /** The presynaptic layer type's weight multiplier, read once at construction. */
    const weightMultiplier: real
    /** weight_updates: delta matrices waiting for the next batched apply. */
    var pending: seq<Matrix>
    var learningRate: Option<real>
    var params: Option<NetworkParams>

    predicate Shaped()
    {
      weights.Length0 == pre.nDims && weights.Length1 == post.nDims
    }

    /** Pending deltas have the weights' shape; a ConstantConnection never has any. */
    ghost predicate Valid()
      reads this
    {
      && Shaped()
      && AllShaped(pending, pre.nDims, post.nDims)
      && (kind == ConstantConnection ==> pending == [])
    }

    /** The weights as a value. */
    function WeightMatrix(): (m: Matrix)
      reads weights
      ensures IsMatrix(m, weights.Length0, weights.Length1)
      ensures forall i, j :: 0 <= i < weights.Length0 && 0 <= j < weights.Length1 ==> m[i][j] == weights[i, j]
    {
      seq(weights.Length0, i reads weights requires 0 <= i < weights.Length0 =>
        seq(weights.Length1, j reads weights requires 0 <= j < weights.Length1 => weights[i, j]))
    }

    /**
     * Connection.__init__: the weights start from `init` (standing for the
     * random matrix) and are clamped to be non-negative whatever the layer
     * type; the connection registers itself with both layers.
     */
    constructor (pre: Layer, post: Layer, kind: ConnectionKind, init: Matrix, learningRate: Option<real>)
      requires IsMatrix(init, pre.nDims, post.nDims)
      requires pre.Wired() && post.Wired()
      modifies pre`outputs, post`inputs
      ensures Valid() && fresh(weights)
      ensures this.pre == pre && this.post == post && this.kind == kind
      ensures forall i, j :: 0 <= i < pre.nDims && 0 <= j < post.nDims ==> weights[i, j] == Clamp(init[i][j])
      ensures weightMultiplier == pre.ltype.WeightMultiplier() as real
      ensures pending == [] && this.learningRate == learningRate && params == None
      ensures post.inputs == old(post.inputs) + [this]
      ensures pre.outputs == old(pre.outputs) + [this]
      ensures pre == post || post.outputs == old(post.outputs)
      ensures pre == post || pre.inputs == old(pre.inputs)
      ensures pre.Wired() && post.Wired()
    {
      this.pre := pre;
      this.post := post;
      this.kind := kind;
      weights := new real[pre.nDims, post.nDims]((i, j) requires 0 <= i < pre.nDims && 0 <= j < post.nDims => init[i][j]);
      weightMultiplier := pre.ltype.WeightMultiplier() as real;
      pending := [];
      this.learningRate := learningRate;
      params := None;
      new;
      post.AddInput(this);
      pre.AddOutput(this);
      ImposeConstraint();
    }

    /** __impose_constraint: every negative weight becomes 0, the rest stay. */
    method ImposeConstraint()
      modifies weights
      ensures forall i, j :: 0 <= i < weights.Length0 && 0 <= j < weights.Length1 ==>
                weights[i, j] == Clamp(old(weights[i, j]))
    {
      var i := 0;
      while i < weights.Length0
        invariant 0 <= i <= weights.Length0
        invariant forall r, j :: 0 <= r < i && 0 <= j < weights.Length1 ==> weights[r, j] == Clamp(old(weights[r, j]))
        invariant forall r, j :: i <= r < weights.Length0 && 0 <= j < weights.Length1 ==> weights[r, j] == old(weights[r, j])
      {
        var j := 0;
        while j < weights.Length1
          invariant 0 <= j <= weights.Length1
          invariant forall r, k :: 0 <= r < i && 0 <= k < weights.Length1 ==> weights[r, k] == Clamp(old(weights[r, k]))
          invariant forall k :: 0 <= k < j ==> weights[i, k] == Clamp(old(weights[i, k]))
          invariant forall k :: j <= k < weights.Length1 ==> weights[i, k] == old(weights[i, k])
          invariant forall r, k :: i < r < weights.Length0 && 0 <= k < weights.Length1 ==> weights[r, k] == old(weights[r, k])
        {
          if weights[i, j] < 0.0 {
            weights[i, j] := 0.0;
          }
          j := j + 1;
        }
        i := i + 1;
      }
    }

    /** `weights += x`: the same scalar is added to every weight. */
    method AddToAll(x: real)
      modifies weights
      ensures forall i, j :: 0 <= i < weights.Length0 && 0 <= j < weights.Length1 ==>
                weights[i, j] == old(weights[i, j]) + x
    {
      var i := 0;
      while i < weights.Length0
        invariant 0 <= i <= weights.Length0
        invariant forall r, j :: 0 <= r < i && 0 <= j < weights.Length1 ==> weights[r, j] == old(weights[r, j]) + x
        invariant forall r, j :: i <= r < weights.Length0 && 0 <= j < weights.Length1 ==> weights[r, j] == old(weights[r, j])
      {
        var j := 0;
        while j < weights.Length1
          invariant 0 <= j <= weights.Length1
          invariant forall r, k :: 0 <= r < i && 0 <= k < weights.Length1 ==> weights[r, k] == old(weights[r, k]) + x
          invariant forall k :: 0 <= k < j ==> weights[i, k] == old(weights[i, k]) + x
          invariant forall k :: j <= k < weights.Length1 ==> weights[i, k] == old(weights[i, k])
          invariant forall r, k :: i < r < weights.Length0 && 0 <= k < weights.Length1 ==> weights[r, k] == old(weights[r, k])
        {
          weights[i, j] := weights[i, j] + x;
          j := j + 1;
        }
        i := i + 1;
      }
    }

    /** The ConstantConnection step that replaces the weights by the identity. */
    method SetIdentity()
      requires weights.Length0 == weights.Length1
      modifies weights
      ensures forall i, j :: 0 <= i < weights.Length0 && 0 <= j < weights.Length1 ==>
                weights[i, j] == (if i == j then 1.0 else 0.0)
    {
      var i := 0;
      while i < weights.Length0
        invariant 0 <= i <= weights.Length0
        invariant forall r, j :: 0 <= r < i && 0 <= j < weights.Length1 ==> weights[r, j] == (if r == j then 1.0 else 0.0)
      {
        var j := 0;
        while j < weights.Length1
          invariant 0 <= j <= weights.Length1
          invariant forall r, k :: 0 <= r < i && 0 <= k < weights.Length1 ==> weights[r, k] == (if r == k then 1.0 else 0.0)
          invariant forall k :: 0 <= k < j ==> weights[i, k] == (if i == k then 1.0 else 0.0)
        {
          weights[i, j] := if i == j then 1.0 else 0.0;
          j := j + 1;
        }
        i := i + 1;
      }
    }

    /** Partial sum of feedforward_energy over the first k presynaptic units. */
    function FeedforwardSum(idx: nat, k: nat): real
      reads pre, weights
      requires Shaped() && |pre.state| == pre.nDims && idx < post.nDims && k <= pre.nDims
    {
      if k == 0 then 0.0
      else FeedforwardSum(idx, k - 1) + weightMultiplier * weights[k - 1, idx] * pre.state[k - 1]
    }

    /** feedforward_energy(idx): sum over j of multiplier * weights[j, idx] * pre.state[j]. */
    function FeedforwardEnergy(idx: nat): real
      reads pre, weights
      requires Shaped() && |pre.state| == pre.nDims && idx < post.nDims
    {
      FeedforwardSum(idx, pre.nDims)
    }

    /**
     * The energy fed into unit idx is the multiplier times the dot product of
     * weight column idx with the presynaptic state.
     */
    lemma FeedforwardIsDot(idx: nat)
      requires Shaped() && |pre.state| == pre.nDims && idx < post.nDims
      ensures FeedforwardEnergy(idx) == weightMultiplier * Dot(Column(WeightMatrix(), idx), pre.state)
    {
      FeedforwardDot(idx, pre.nDims);
    }

    lemma {:induction false} FeedforwardDot(idx: nat, k: nat)
      requires Shaped() && |pre.state| == pre.nDims && idx < post.nDims && k <= pre.nDims
      ensures FeedforwardSum(idx, k) == weightMultiplier * DotPrefix(Column(WeightMatrix(), idx), pre.state, k)
    {
      if k > 0 {
        FeedforwardDot(idx, k - 1);
        var col := Column(WeightMatrix(), idx);
        assert col[k - 1] == weights[k - 1, idx];
        Distribute(weightMultiplier, DotPrefix(col, pre.state, k - 1), weights[k - 1, idx], pre.state[k - 1]);
      }
    }

    /** Partial sum of energy_shadow over the first k postsynaptic units. */
    function ShadowSum(i: nat, k: nat): real
      reads post, weights
      requires Shaped() && |post.state| == post.nDims && i < pre.nDims && k <= post.nDims
    {
      if k == 0 then 0.0
      else ShadowSum(i, k - 1) + weightMultiplier * weights[i, k - 1] * post.state[k - 1]
    }

    /** energy_shadow(i): sum over k of multiplier * weights[i, k] * post.state[k]. */
    function EnergyShadow(i: nat): real
      reads post, weights
      requires Shaped() && |post.state| == post.nDims && i < pre.nDims
    {
      ShadowSum(i, post.nDims)
    }

    /**
     * The shadow of presynaptic unit i is the multiplier times the dot product
     * of weight row i with the postsynaptic state.
     */
    lemma ShadowIsDot(i: nat)
      requires Shaped() && |post.state| == post.nDims && i < pre.nDims
      ensures EnergyShadow(i) == weightMultiplier * Dot(WeightMatrix()[i], post.state)
    {
      ShadowDot(i, post.nDims);
    }

    lemma {:induction false} ShadowDot(i: nat, k: nat)
      requires Shaped() && |post.state| == post.nDims && i < pre.nDims && k <= post.nDims
      ensures ShadowSum(i, k) == weightMultiplier * DotPrefix(WeightMatrix()[i], post.state, k)
    {
      if k > 0 {
        ShadowDot(i, k - 1);
        var row := WeightMatrix()[i];
        assert row[k - 1] == weights[i, k - 1];
        Distribute(weightMultiplier, DotPrefix(row, post.state, k - 1), weights[i, k - 1], post.state[k - 1]);
      }
    }

    /** Identity weights: weights[i, j] is 1 on the diagonal and 0 elsewhere. */
    ghost predicate IsIdentity()
      reads weights
    {
      && weights.Length0 == weights.Length1
      && forall i, j :: 0 <= i < weights.Length0 && 0 <= j < weights.Length1 ==>
           weights[i, j] == (if i == j then 1.0 else 0.0)
    }

    /** Identity weights, read as a value, are the identity matrix of their size. */
    lemma IdentityMatrix()
      requires IsIdentity()
      ensures WeightMatrix() == Identity(weights.Length0)
    {
      var m, e := WeightMatrix(), Identity(weights.Length0);
      forall i | 0 <= i < weights.Length0
        ensures m[i] == e[i]
      {
      }
    }

    /** Through identity weights, unit idx receives exactly its presynaptic twin's state. */
    lemma IdentityFeedforward(idx: nat)
      requires Shaped() && |pre.state| == pre.nDims && idx < post.nDims && IsIdentity()
      ensures FeedforwardEnergy(idx) == weightMultiplier * pre.state[idx]
    {
      IdentityFeedforwardSum(idx, pre.nDims);
    }

    lemma {:induction false} IdentityFeedforwardSum(idx: nat, k: nat)
      requires Shaped() && |pre.state| == pre.nDims && idx < post.nDims && k <= pre.nDims && IsIdentity()
      ensures FeedforwardSum(idx, k) == if idx < k then weightMultiplier * pre.state[idx] else 0.0
    {
      if k > 0 {
        IdentityFeedforwardSum(idx, k - 1);
      }
    }

    /** Through identity weights, the shadow of unit i is its postsynaptic twin's state. */
    lemma IdentityShadow(i: nat)
      requires Shaped() && |post.state| == post.nDims && i < pre.nDims && IsIdentity()
      ensures EnergyShadow(i) == weightMultiplier * post.state[i]
    {
      IdentityShadowSum(i, post.nDims);
    }

    lemma {:induction false} IdentityShadowSum(i: nat, k: nat)
      requires Shaped() && |post.state| == post.nDims && i < pre.nDims && k <= post.nDims && IsIdentity()
      ensures ShadowSum(i, k) == if i < k then weightMultiplier * post.state[i] else 0.0
    {
      if k > 0 {
        IdentityShadowSum(i, k - 1);
      }
    }

    /**
     * With non-negative weights and a non-negative presynaptic state, the
     * energy fed forward has the sign of the weight multiplier: excitatory
     * inputs never lower a unit's energy, inhibitory ones never raise it.
     */
    lemma FeedforwardSign(idx: nat)
      requires Shaped() && |pre.state| == pre.nDims && idx < post.nDims
      requires forall j :: 0 <= j < pre.nDims ==> weights[j, idx] >= 0.0 && pre.state[j] >= 0.0
      ensures weightMultiplier >= 0.0 ==> FeedforwardEnergy(idx) >= 0.0
      ensures weightMultiplier <= 0.0 ==> FeedforwardEnergy(idx) <= 0.0
    {
      FeedforwardSumSign(idx, pre.nDims);
    }

    lemma {:induction false} FeedforwardSumSign(idx: nat, k: nat)
      requires Shaped() && |pre.state| == pre.nDims && idx < post.nDims && k <= pre.nDims
      requires forall j :: 0 <= j < pre.nDims ==> weights[j, idx] >= 0.0 && pre.state[j] >= 0.0
      ensures weightMultiplier >= 0.0 ==> FeedforwardSum(idx, k) >= 0.0
      ensures weightMultiplier <= 0.0 ==> FeedforwardSum(idx, k) <= 0.0
    {
      if k > 0 {
        FeedforwardSumSign(idx, k - 1);
        var p := weights[k - 1, idx] * pre.state[k - 1];
        assert p >= 0.0 by { NonNegProduct(weights[k - 1, idx], pre.state[k - 1]); }
        if weightMultiplier >= 0.0 {
          NonNegProduct(weightMultiplier, p);
        } else {
          NonNegProduct(-weightMultiplier, p);
        }
        assert weightMultiplier * weights[k - 1, idx] * pre.state[k - 1] == weightMultiplier * p;
      }
    }

    /** unpack_network_params: keep a truthy learning rate, else take the network's. */
    method UnpackNetworkParams(p: NetworkParams, networkRate: real)
      modifies this`learningRate, this`params
      ensures params == Some(p)
      ensures learningRate == Some(RateOr(old(learningRate), networkRate))
    {
      learningRate := Some(RateOr(learningRate, networkRate));
      params := Some(p);
    }

    /**
     * What accumulate_weight_update does: the learning rules append
     * lr * delta computed from the newest history entries (and the firing
     * rates), ConstantConnection appends nothing, the base class raises
     * NotImplementedError, and an empty history makes `history[0]` an
     * IndexError.
     */
    function Accumulated(preRates: seq<real>, postRates: seq<real>): (r: (Status, seq<Matrix>))
      reads this, pre, post, weights
      requires Valid() && pre.Valid() && post.Valid() && learningRate.Some?
      requires |preRates| == pre.nDims && |postRates| == post.nDims
      ensures r.0 != Ok ==> r.1 == pending
      ensures r.0 == Ok && kind.Learns() ==> |r.1| == |pending| + 1 && r.1[..|pending|] == pending
      ensures AllShaped(r.1, pre.nDims, post.nDims)
      ensures kind == BaseConnection ==> r == (NotImplementedError, pending)
      ensures kind == ConstantConnection ==> r == (Ok, pending)
      ensures kind.Learns() && (pre.history == [] || post.history == []) ==> r == (IndexError, pending)
      ensures kind.Learns() && pre.history != [] && post.history != [] ==>
                r == (Ok, pending + [Delta(kind.LearningRule(), learningRate.value, pre.history[0], post.history[0],
                                           preRates, postRates, WeightMatrix())])
    {
      match kind
      case BaseConnection => (NotImplementedError, pending)
      case ConstantConnection => (Ok, pending)
      case _ =>
        if pre.history == [] || post.history == [] then (IndexError, pending)
        else
          var d := Delta(kind.LearningRule(), learningRate.value, pre.history[0], post.history[0],
                         preRates, postRates, WeightMatrix());
          (Ok, pending + [d])
    }

    /** accumulate_weight_update, with the two layers' firing rates as inputs. */
    method AccumulateWeightUpdate(preRates: seq<real>, postRates: seq<real>) returns (status: Status)
      requires Valid() && pre.Valid() && post.Valid() && learningRate.Some?
      requires |preRates| == pre.nDims && |postRates| == post.nDims
      modifies this`pending
      ensures Valid()
      ensures (status, pending) == old(Accumulated(preRates, postRates))
    {
      var r := Accumulated(preRates, postRates);
      status, pending := r.0, r.1;
    }

    /**
     * weight_update: accumulate one delta; once the buffer holds
     * update_batch_size of them, add the mean of ALL their entries (one
     * scalar) to every weight, empty the buffer and, when the presynaptic
     * layer type asks for it, clamp the weights. np.mean of no entries is a
     * floating-point error.
     */
    method WeightUpdate(preRates: seq<real>, postRates: seq<real>) returns (status: Status)
      requires Valid() && pre.Valid() && post.Valid() && learningRate.Some? && params.Some?
      requires |preRates| == pre.nDims && |postRates| == post.nDims
      modifies this`pending, weights
      ensures Valid()
      ensures var (s, buffer) := old(Accumulated(preRates, postRates));
              var batch := params.value.updateBatchSize;
              if s != Ok then
                status == s && pending == old(pending) && unchanged(weights)
              else if |buffer| < batch then
                status == Ok && pending == buffer && unchanged(weights)
              else if |buffer| * pre.nDims * post.nDims == 0 then
                status == FloatingPointError && pending == buffer && unchanged(weights)
              else
                status == Ok && pending == [] &&
                BufferCount(buffer) > 0 &&
                forall i, j :: 0 <= i < pre.nDims && 0 <= j < post.nDims ==>
                  weights[i, j] == (if pre.ltype.ConstrainWeights()
                                    then Clamp(old(weights[i, j]) + BufferMean(buffer))
                                    else old(weights[i, j]) + BufferMean(buffer))
      ensures params.value.updateBatchSize >= 1 && |old(pending)| < params.value.updateBatchSize &&
              pre.nDims >= 1 && post.nDims >= 1 ==>
                |pending| < params.value.updateBatchSize
      ensures kind == ConstantConnection && params.value.updateBatchSize >= 1 ==>
                status == Ok && unchanged(weights)
    {
      status := AccumulateWeightUpdate(preRates, postRates);
      if status != Ok {
        return;
      }
      if |pending| >= params.value.updateBatchSize {
        BufferCountShaped(pending, pre.nDims, post.nDims);
        if BufferCount(pending) == 0 {
          assert |pending| * pre.nDims * post.nDims == 0;
          return FloatingPointError;
        }
        var mean := BufferMean(pending);
        AddToAll(mean);
        pending := [];
        if pre.ltype.ConstrainWeights() {
          ImposeConstraint();
        }
      }
    }
  }

  lemma Distribute(m: real, a: real, w: real, x: real)
    ensures m * a + m * w * x == m * (a + w * x)
  {
  }

  lemma NonNegProduct(a: real, b: real)
    requires a >= 0.0 && b >= 0.0
    ensures a * b >= 0.0
  {
  }

  /**
   * ConstantConnection.__init__: the base constructor runs first (so the
   * connection is registered even when the assertion then fails); with equal
   * dimensions the weights become the identity matrix.
   */
  method NewConstantConnection(pre: Layer, post: Layer, init: Matrix) returns (c: Connection, status: Status)
    requires IsMatrix(init, pre.nDims, post.nDims)
    requires pre.Wired() && post.Wired()
    modifies pre`outputs, post`inputs
    ensures c.Valid() && fresh(c) && fresh(c.weights)
    ensures c.pre == pre && c.post == post && c.kind == ConstantConnection
    ensures c.pending == [] && c.learningRate == None && c.params == None
    ensures post.inputs == old(post.inputs) + [c] && pre.outputs == old(pre.outputs) + [c]
    ensures pre.Wired() && post.Wired()
    ensures status == Ok <==> pre.nDims == post.nDims
    ensures status != Ok ==> status == AssertionError
    ensures status == Ok ==> c.IsIdentity() && c.WeightMatrix() == Identity(pre.nDims)
    ensures status != Ok ==> forall i, j :: 0 <= i < pre.nDims && 0 <= j < post.nDims ==>
              c.weights[i, j] == Clamp(init[i][j])
  {
    c := new Connection(pre, post, ConstantConnection, init, None);
    if pre.nDims != post.nDims {
      return c, AssertionError;
    }
    c.SetIdentity();
    c.IdentityMatrix();
    status := Ok;
  }
}
