# Brio blocks in Dafny

A model of the building blocks of Brio, a small Python 2 toolkit for
biologically inspired neural networks, together with proofs about it.

- **Layers** (`Blocks.Layer`) hold a state vector, a bias vector, the
  connections that feed them and leave them, and a bounded history of past
  states. A perceptron layer thresholds its bias plus input energy. An input
  layer loads a stimulus.
- **Connections** (`Blocks.Connection`) hold a weight matrix (an
  `array2<real>`) and register themselves with both of their layers. They
  feed energy forward and compute energy shadows. They also accumulate
  learning-rule deltas (Oja, Foldiak, correlation measuring) in a pending
  buffer, which they apply in batches. A constant connection carries the
  identity matrix and never learns.
- **The network driver** (`Network.Network`) finds every connection reachable
  from its layers and keys it by its label. It hands the connections the
  network parameters, builds the global unit index of an asynchronous
  network, runs the presentation loop and the training iteration, and counts
  stimuli in `train`.
- **Parameters** (`Params`): the three layer types and the network parameter
  container with its derived fields.
- **`factor`** (`Factor`): the most even factor pair of an integer.

Weights, states, biases and rates are exact reals. Python exceptions become a
`Status` value (`NotImplementedError`, `AttributeError`, `AssertionError`,
`IndexError`, `FloatingPointError`). The Layer, PerceptronLayer and
InputLayer classes become a kind tag on one `Layer` class. Connection and its
four subclasses become a kind tag on one `Connection` class.

Some layer methods the driver calls are not defined in the layer file:
`reset`, `sync_update`, `update_lifetime_mean`, `bias_update` and `set_up`.
The network records in a call log, `calls`, every call it makes to a layer and
every `weight_update` call on a connection. The lemmas then count and order
those calls. Loading the stimulus into the input layer is both logged and
executed. Setting up the connections runs for real and is not logged.

Where the code and its documentation differ, the model follows the code:

- `weight_update` applies `np.mean` of the pending buffer with no axis. That
  is one scalar, the mean of every entry of every pending matrix, and it is
  added to every weight. It is not an element-wise mean of the pending
  deltas (`Rules.MeanIsOneScalar` shows the difference).
- The non-negativity clamp runs at construction whatever the presynaptic
  layer type is.

## Model

| member | source | states |
|---|---|---|
| Params.LayerTypeTable | brio/blocks/aux.py:23-30 | unconstrained is (1, 1, False), excitatory is (1, 1, True), inhibitory is (2, -1, True) |
| Params.LayerTypeDistinctions | brio/blocks/aux.py:23-30 | only unconstrained leaves weights unconstrained; only inhibitory has a negative weight multiplier; the multiplier is ±1 and the firing-rate multiplier is at least 1 |
| Params.NewNetworkParams | brio/blocks/aux.py:44-75 | the arguments are stored unchanged; stimuli_per_epoch is 100 whatever the arguments; update_batch_size = presentations * stimuli_per_epoch; layer_history_length = update_batch_size; timestep 0.1, steps_per_rc_time 10, steps_per_fr_time 10, lfr_char_time 1 |
| Params.DefaultNetworkParams | brio/blocks/aux.py:44-46 | the default arguments give 50 presentations, a batch of 5000, rates 0.02/0.1/0.1, synchronous, no display, update_cap 1 |
| Params.BatchSizePositive | brio/blocks/aux.py:49-51 | the batch size is at least 1 exactly when presentations is at least 1, and it is always a multiple of stimuli_per_epoch |
| Factor.ISqrt | brio/misc/sta.py:186 | the integer square root s satisfies s*s <= n < (s+1)*(s+1) |
| Factor.ISqrtUnique | brio/misc/sta.py:186 | any s with s*s <= n < (s+1)*(s+1) is the integer square root |
| Factor.BelowISqrt | brio/misc/sta.py:186 | every a with a*a <= n is at most the integer square root |
| Factor.SearchDown | brio/misc/sta.py:187-189 | the downward search returns a divisor between 1 and its start, and no larger divisor lies between the result and the start |
| Factor.Factor | brio/misc/sta.py:175-189 | fails exactly for negative r; otherwise returns (q, r / q) with 1 <= q <= int(sqrt(r)) + 1, q dividing r, q * (r / q) == r, and no divisor of r between q and int(sqrt(r)) + 1 |
| Factor.FactorMostEven | brio/misc/sta.py:175-189 | every divisor a of r with a*a <= r is at most the first component: the pair is as even as possible |
| Factor.FactorPerfectSquare | brio/misc/sta.py:186-189 | factor(k*k) == (k, k) for k >= 1 |
| Factor.FactorTwo | brio/misc/sta.py:186-189 | factor(2) == (2, 1): the first component is not always the smaller one |
| Factor.FactorZero | brio/misc/sta.py:186-189 | factor(0) == (1, 0) |
| Rules.Activation | src/blocks/layer.py:204-208 | the result is 1 exactly when the energy is positive and -1 exactly when it is not, so energy 0 gives -1 |
| Rules.Clamp | src/blocks/connection.py:77-82 | the result is non-negative; a negative weight becomes exactly 0 and a non-negative one is kept |
| Rules.Delta | src/blocks/connection.py:102-142 | the delta has the weights' shape, and entry (i, j) is the learning rate times the rule's entry for presynaptic unit i and postsynaptic unit j |
| Rules.DeltaFormulas | src/blocks/connection.py:102-142 | Oja: lr*(pre[i]*post[j] - post[j]^2*w[i][j]); Foldiak: lr*(pre[i]*post[j] - rpre[i]*rpost[j]); CM: lr*(pre[i]*post[j] - rpre[i]*rpost[j]*(1+w[i][j])) |
| Rules.OjaBinaryPost | src/blocks/connection.py:106 | with a ±1 postsynaptic state, Oja's delta is lr*(pre*post - w) and, for a non-zero rate, vanishes exactly at w == pre*post |
| Rules.FoldiakAtRates | src/blocks/connection.py:122-123 | when every state equals its firing rate, Foldiak's delta is the zero matrix |
| Rules.CMExtendsFoldiak | src/blocks/connection.py:140-141 | the CM delta is Foldiak's delta minus lr*rpre*rpost*w, so the two agree at weight 0 |
| Rules.CMFixedPoint | src/blocks/connection.py:140-141 | for non-zero rate and rate product, the CM delta vanishes exactly at w == pre*post/(rpre*rpost) - 1 |
| Rules.BufferCountShaped | src/blocks/connection.py:37 | k pending matrices of shape rows x cols hold k*rows*cols entries |
| Rules.BufferMean | src/blocks/connection.py:37 | np.mean with no axis over the pending buffer: one scalar which, counted once for every entry of every pending matrix, adds up to the sum of all those entries |
| Rules.BufferMeanBounds | src/blocks/connection.py:37 | the mean lies between any lower and upper bound of the entries it averages |
| Rules.BufferMeanOfConstant | src/blocks/connection.py:37 | a buffer whose entries all equal c has mean c |
| Rules.MeanIsOneScalar | src/blocks/connection.py:37 | the mean runs over all entries together: one pending delta [[1, 0], [0, 0]] has mean 1/4 |
| History.Pushed | src/blocks/layer.py:153-162 | the newest state is first and the older entries follow in their old order (a prefix of the old history); below 1000 entries nothing is dropped; from 1000 entries the result is exactly the newest 500; the length stays within 1000 |
| History.HistoryLength | src/blocks/layer.py:160-162 | after n insertions into an empty history the length follows the sawtooth (n up to 1000, then from 500 up to 1000 with period 501) and never exceeds 1000 |
| History.HistoryNewestFirst | src/blocks/layer.py:160-162 | whatever truncations happened, entry k of the history is the k-th newest state pushed |
| Blocks.RateOr | src/blocks/connection.py:74 | Python `or` on the learning rate: a set, non-zero rate is kept; None or 0.0 gives the fallback |
| Blocks.Layer.constructor | src/blocks/layer.py:46-56 | state is all ones of length n_dims; the bias is the given vector; inputs, outputs and history are empty; max_history_length is 500; target_firing_rate = firing_rate_multiplier * baseline_firing_rate |
| Blocks.Layer.AddInput | src/blocks/layer.py:96-105 | appends exactly one connection at the end of inputs; outputs are not in its frame |
| Blocks.Layer.AddOutput | src/blocks/layer.py:107-116 | appends exactly one connection at the end of outputs; inputs are not in its frame |
| Blocks.Layer.InputEnergy | src/blocks/layer.py:118-126 | the energy is the sum of feedforward_energy(idx) over the inputs, in list order; it is 0 with no inputs |
| Blocks.Layer.Update | src/blocks/layer.py:210-213 | a perceptron layer sets state[idx] to activation(bias[idx] + input_energy(idx)) and changes no other entry and not the bias; other layer kinds raise NotImplementedError and change nothing |
| Blocks.Layer.UpdateHistory | src/blocks/layer.py:153-162 | the new history is the old one with the current state pushed as History.Pushed describes; the layer stays valid (history within 1000) |
| Blocks.Layer.SetState | src/blocks/layer.py:220-226 | only an input layer has set_state (AttributeError otherwise); a vector of another length is an AssertionError that leaves the state alone; otherwise the state becomes the given vector |
| Blocks.Connection.constructor | src/blocks/connection.py:15-24 | the weights are a fresh pre.n_dims x post.n_dims matrix, each entry the clamped initial value (so non-negative); the connection is appended once to post.inputs and once to pre.outputs; the presynaptic weight multiplier is captured; the buffer is empty and the learning rate is stored |
| Blocks.Connection.ImposeConstraint | src/blocks/connection.py:77-82 | every weight becomes Clamp of its old value: negatives become 0, the rest are unchanged |
| Blocks.Connection.AddToAll | src/blocks/connection.py:37 | `weights += x` for a scalar x: each weight grows by exactly x |
| Blocks.Connection.SetIdentity | src/blocks/connection.py:153 | the square weight matrix becomes the identity |
| Blocks.Connection.IdentityFeedforward | src/blocks/connection.py:52-56 | through identity weights, feedforward_energy(idx) is the multiplier times the presynaptic state at idx |
| Blocks.Connection.IdentityShadow | src/blocks/connection.py:58-64 | through identity weights, energy_shadow(i) is the multiplier times the postsynaptic state at i |
| Blocks.Connection.FeedforwardIsDot | src/blocks/connection.py:52-56 | feedforward_energy(idx), np.sum(multiplier * weights[:, idx] * pre.state), is the multiplier times the dot product of weight column idx with the presynaptic state |
| Blocks.Connection.ShadowIsDot | src/blocks/connection.py:58-64 | energy_shadow(i), np.sum(multiplier * weights[i, :] * post.state), is the multiplier times the dot product of weight row i with the postsynaptic state |
| Blocks.Connection.FeedforwardSign | src/blocks/connection.py:52-56 | with non-negative weights and presynaptic state, the energy fed forward has the sign of the weight multiplier |
| Blocks.Connection.UnpackNetworkParams | src/blocks/connection.py:66-75 | params become the network's; the learning rate becomes `learning_rate or network_rate` |
| Blocks.Connection.Accumulated | src/blocks/connection.py:43-157 | the base class raises NotImplementedError and Constant appends nothing, both leaving the buffer as it is; Oja, Foldiak and CM raise IndexError when either layer's history is empty, and otherwise append exactly Rules.Delta of their rule, built from history[0] of both layers, the given rates and the current weights, after the old buffer; every buffered delta has the weights' shape |
| Blocks.Connection.AccumulateWeightUpdate | src/blocks/connection.py:43-157 | the dispatch to the subclass's accumulate_weight_update: the status and the new buffer are exactly those of the Accumulated case table (base NotImplementedError, Constant nothing, an empty history IndexError, otherwise one Rules.Delta appended), and the connection stays valid |
| Blocks.Connection.WeightUpdate | src/blocks/connection.py:27-40 | below the batch size the buffer grows by one delta and the weights are unchanged; at the batch size the buffer is emptied and every weight grows by the one scalar mean of all pending entries, then is clamped when the presynaptic type constrains weights; with no entries the mean is a FloatingPointError; with batch size >= 1 the buffer stays below the batch size, and a constant connection's weights never change |
| Blocks.NewConstantConnection | src/blocks/connection.py:150-153 | the base constructor registers the connection first; equal dimensions give status Ok and weights equal to Rules.Identity(n_dims) (np.diag(np.ones(n))); different ones give an AssertionError and leave the clamped initial weights of the still-registered connection |
| Rules.Identity | src/blocks/connection.py:153 | np.diag(np.ones(n)): an n x n matrix with 1.0 at (i, i) and 0.0 at every other entry |
| Blocks.Connection.IdentityMatrix | src/blocks/connection.py:153 | identity weights, read as a matrix value, are Rules.Identity of their size |
| Network.LabelOf | src/blocks/connection.py:84-92 | the label is the class and the two layers of the connection |
| Network.SweepEntries | brio/blocks/network.py:94-95 | a sweep visits layers lo, lo+1, ..., hi-1 in order |
| Network.SweepCount | brio/blocks/network.py:94-95 | a sweep calls each layer in range exactly once and nothing else |
| Network.PresentationOrder | brio/blocks/network.py:107-111 | within a presentation, sync_update on layers 1..n-1 in order comes first, then update_history on layers 0..n-1 in order |
| Network.UpdateNetworkCount | brio/blocks/network.py:94-111 | one synchronous update_network resets every layer once, loads the input once, appends to every layer's history (the input layer's included) `presentations` times, and updates only layers[1:], `presentations` times each |
| Network.WeightUpdatesCount | brio/blocks/network.py:125-126 | weight_update is called once per visited connection |
| Network.TrainingIterationCount | brio/blocks/network.py:123-128 | one training iteration calls weight_update once per connection, update_lifetime_mean once per layer, and bias_update once per layer except layers[0] |
| Network.Reachable | brio/blocks/network.py:153-155 | every connection listed in a layer's inputs or outputs is reachable |
| Network.ReachableListed | brio/blocks/network.py:153-155 | every reachable connection is listed by one of the layers |
| Network.FindConnections | brio/blocks/network.py:144-157 | every reachable connection's label is a key, and each key holds a reachable connection with that label |
| Network.GatherConnections | brio/blocks/network.py:152-155 | the gathered set is exactly the reachable connections, each object once |
| Network.KeyByLabel | brio/blocks/network.py:156-157 | keying by str(connection): every gathered connection's label is a key, each holding a gathered connection with that label |
| Network.KeptAreFound | brio/blocks/network.py:156-157 | the dictionary holds only gathered connections |
| Network.DistinctLabelsKeepAll | brio/blocks/network.py:156-157 | when no two connections share a label, the dictionary holds every gathered connection |
| Network.LabelCollisionDropsOne | brio/blocks/network.py:156-157 | two distinct connections with the same label collapse: at most one of them is kept |
| Network.Updated | brio/blocks/network.py:138 | layers[1:], empty when there are no layers |
| Network.BlockShape | brio/blocks/network.py:139-140 | one layer's block holds keys start .. start+n-1, key k naming unit k - start of that layer |
| Network.LayerDictShape | brio/blocks/network.py:136-142 | after i layers the keys are exactly 0 .. N-1 (N their units); unit x of layer j sits at its global index; every local index is within its layer |
| Network.LayerDictKeys | brio/blocks/network.py:136-142 | after i layers the keys are exactly 0 .. N-1 |
| Network.LayerDictPlaces | brio/blocks/network.py:136-142 | unit x of layer j maps from start_j + x to (layer j, x), in contiguous blocks in layer order |
| Network.LayerDictLocal | brio/blocks/network.py:136-142 | every entry's local index is below its layer's n_dims |
| Network.LayerDictSize | brio/blocks/network.py:141 | len(unit_dict) after i layers is their number of units, so the next start index follows the last block |
| Network.LayerDictIsLayerDict | brio/blocks/network.py:136-142 | the finished dictionary over layers[1:] has keys 0 .. N-1 and maps each global index to its (layer, local index) |
| Network.BuildLayerDict | brio/blocks/network.py:130-142 | the loop builds exactly the layer dictionary over layers[1:] |
| Network.AddBlock | brio/blocks/network.py:139-140 | the inner loop adds exactly the block of one layer |
| Network.SetUpConnections | brio/blocks/network.py:169-170 | every connection takes the network's params and `learning_rate or network_rate`; pending buffers are untouched |
| Network.Arange | brio/blocks/network.py:33 | np.arange(n): entry k is k |
| Network.Network.constructor | brio/blocks/network.py:16-34 | the connections dictionary indexes the reachable connections by label; every kept connection is set up; connections lost to a label collision are untouched; set_up is called on every layer in order; t_counter starts at 0; an asynchronous network gets the node index 0 .. N-1 and the unit dictionary over layers[1:] |
| Network.Network.UpdateNetwork | brio/blocks/network.py:88-111 | resets every layer, then loads the stimulus into layers[0] (IndexError with no layers, AttributeError or AssertionError from set_state); an asynchronous network then raises NotImplementedError before any unit update; a synchronous one logs exactly UpdateNetworkCalls; the status is UpdateStatus of the stimulus, and a failure logs exactly the resets and the load attempt; every layer stays valid, and no layer's bias or connection lists change |
| Network.Network.UpdateStatus | brio/blocks/network.py:94-98 | update_network succeeds exactly for a synchronous network whose first layer is an input layer of the stimulus' length; otherwise it raises IndexError, AttributeError, AssertionError or NotImplementedError |
| Network.Network.LogSweep | brio/blocks/network.py:94-95 | a per-layer loop logs exactly one sweep |
| Network.Network.TrainingIteration | brio/blocks/network.py:115-128 | logs update_lifetime_mean on every layer, then weight_update once per dictionary entry in some order that visits each key once, then bias_update on layers[1:]; every layer stays valid, no layer's connection lists change and the input layer's bias does not change |
| Network.Network.LogWeightUpdates | brio/blocks/network.py:125-126 | the visiting order lists each dictionary key exactly once, and weight_update is logged in that order |
| Network.Network.Train | brio/blocks/network.py:67-85 | t_counter grows by exactly stimuli_per_epoch per batch consumed (100 for parameters built by NewNetworkParams); every consumed batch passed update_network and its training iteration visited each connection once; training runs to the end exactly when no batch fails, and otherwise stops at batches[consumed] with that batch's exception; the call log grows by update_network then training_iteration per consumed batch, then the failed batch's resets and load attempt; no layer's connection lists change and the input layer's bias does not change |
| Network.Network.TrainBatch | brio/blocks/network.py:82-84 | one pass of the loop: on an update_network exception only the resets and the load attempt are logged and the counter is unchanged; otherwise the counter grows by stimuli_per_epoch and update_network then training_iteration are logged |
| Network.TrainCallsCount | brio/blocks/network.py:81-128 | over m completed batches, whatever order each training iteration visited the connections in: every layer is reset m times, the input is loaded m times, every layer appends to its history m * presentations times, layers[1:] are updated m * presentations times, and every connection key receives exactly m weight_update calls (a label that is not a key receives none) |
| Network.Network.Load | brio/blocks/network.py:96 | set_state on layers[0], logged: AttributeError or AssertionError leave the input layer unchanged, a match loads the stimulus; no layer's bias or connection lists change |
| Network.Network.LogPresentations | brio/blocks/network.py:107-111 | the synchronous presentation loop logs exactly `presentations` presentations, one after the other |

## Left out

- BoltzmannMachineLayer and Layer.output_energy: they need random numbers and `exp`, and output_energy has no return value.
- Layer.set_parentage and Layer.firing_rates: they need `exp` and `sqrt(pi)`. The firing-rate vectors the Foldiak and CM rules read are parameters of the model.
- Layer.update_biases has an empty body; the base Layer.activation is reached only through the base update, which raises NotImplementedError first.
- NetworkParams.ema_lfr and NetworkParams.ema_curr need `exp`.
- Random initialisation of biases and weights: the initial vector and matrix are parameters.
- `np.seterr('raise')` and floating-point rounding: reals are exact. The only trap modelled is the mean of an empty buffer.
- History aliasing: the Python history stores a reference to the state array, which later in-place updates change. The model keeps value snapshots.
- Printing and plotting: describe_progress, show_rfs and the ParamPlot display.
- `roll_itr` is not part of this model: `train` takes already-batched stimuli (the `rolled=True` path).
- The rest of brio/misc/sta.py: array slicing, random stimuli and Gaussian blobs.
- Layer methods that are not in the layer file (reset, sync_update, update_lifetime_mean, bias_update, set_up): they are logged calls with no effect.
- Network.Network.TrainingIteration: the weight_update calls are logged, not executed, because the firing rates they need are not modelled; Blocks.Connection.WeightUpdate models one call in full.
- Network.Network.UpdateNetwork: reset, sync_update and update_history are logged, not executed, because reset and sync_update are not in the layer file and the states update_history would push depend on them. Every layer is in the method's frame, and the model promises nothing about any layer's state (beyond the loaded input) or history (Python resets every history and inserts into it `presentations` times); Blocks.Layer.UpdateHistory models a single call in full. The same holds for Network.Network.Train and Network.Network.TrainBatch, which call it.
- Network.Network.TrainingIteration: update_lifetime_mean and bias_update are logged, not executed, because they are not in the layer file. Every layer is in the method's frame; the model promises only that the connection lists and the input layer's bias are unchanged, and nothing about the biases of layers[1:].
- Network.Network.UpdateNetwork: a rolled batch is an array of shape (n_dims, stimuli_per_epoch) in Python, and set_state compares whole shapes. The model takes each batch as one vector of n_dims entries and compares lengths. Whether the Python assertion passes depends on what the layer's reset (not in the layer file) does to the state's shape.
- Network.Network.Train, Network.Network.TrainBatch: exceptions from training_iteration are not modelled, because its weight_update calls are logged, not executed. In Python, weight_update can raise NotImplementedError, IndexError or FloatingPointError, which would stop training after t_counter has already advanced for that batch.
- The network learning rate: NetworkParams has no weight_learning_rate, so it is a parameter of the constructor.
- Connection.set_up is not in the connection file; the network's set-up of a connection is modelled as unpack_network_params.
- Network.Network.constructor: the node index and unit dictionary of a synchronous network are left empty, where Python leaves the attributes undefined.
- Blocks.NewConstantConnection: np.diag builds a new identity array; the model overwrites the existing square array in place.
- Factor.Factor: int(np.sqrt(r) + 1) is taken as the exact integer square root plus one; float rounding of sqrt for very large r is not modelled.
- Blocks.Connection.WeightUpdate: the bound "the buffer stays below the batch size" is stated for layers with at least one unit, since with an empty layer the mean is taken over no entries and raises.
- The asynchronous update loop after its NotImplementedError is unreachable and not modelled.
