/**
 * The Network driver (brio/blocks/network.py). Several layer methods it calls
 * (reset, sync_update, update_lifetime_mean, bias_update, set_up) are not part
 * of this model; the network records every per-layer call, with the layer's
 * position in `layers`, and every weight_update call in a call log, so the
 * order and number of calls can be stated. Loading the stimulus into the input
 * layer is both logged (SetStateCall) and executed; connection set-up runs for
 * real and is not logged.
 */
module Network {

  import opened Wrappers
  import opened Params
  import opened Blocks

  /** The per-layer operations the driver invokes. */
  datatype LayerOp = Reset | SyncUpdate | UpdateHistory | UpdateLifetimeMean | BiasUpdate | SetUp

  /**
   * str(connection): the class name and the two layers. Layers print as
   * distinct object addresses, so the label is the kind and the two endpoints.
   */
  datatype Label = Label(kind: ConnectionKind, pre: Layer, post: Layer)

  /** One entry of the call log. */
  datatype Call = LayerCall(op: LayerOp, layer: nat) | SetStateCall | WeightUpdateCall(target: Label)

  function LabelOf(c: Connection): (l: Label)
    ensures l.kind == c.kind && l.pre == c.pre && l.post == c.post
  {
    Label(c.kind, c.pre, c.post)
  }

  // ---------------------------------------------------------------------------
  // The call sequences the driver produces
  // ---------------------------------------------------------------------------

  /** `for layer in layers[lo:hi]: layer.op()`, as log entries. */
  function Sweep(op: LayerOp, lo: nat, hi: nat): (s: seq<Call>)
    ensures |s| == if lo <= hi then hi - lo else 0
    decreases hi
  {
    if hi <= lo then [] else Sweep(op, lo, hi - 1) + [LayerCall(op, hi - 1)]
  }

  /** A sweep visits the layers lo, lo + 1, ..., hi - 1 in that order. */
  lemma {:induction false} SweepEntries(op: LayerOp, lo: nat, hi: nat)
    ensures forall k :: 0 <= k < |Sweep(op, lo, hi)| ==> Sweep(op, lo, hi)[k] == LayerCall(op, lo + k)
    decreases hi
  {
    if lo < hi {
      SweepEntries(op, lo, hi - 1);
    }
  }

  /** Every layer in [lo, hi) appears exactly once in a sweep, and nothing else does. */
  lemma {:induction false} SweepCount(op: LayerOp, lo: nat, hi: nat, c: Call)
    ensures multiset(Sweep(op, lo, hi))[c] ==
              if c.LayerCall? && c.op == op && lo <= c.layer < hi then 1 else 0
    decreases hi
  {
    if lo < hi {
      var s := Sweep(op, lo, hi - 1);
      SweepCount(op, lo, hi - 1, c);
      assert multiset(Sweep(op, lo, hi)) == multiset(s) + multiset{LayerCall(op, hi - 1)};
    }
  }

  /**
   * One synchronous presentation over n layers: sync_update on layers[1:] in
   * order, then update_history on every layer in order.
   */
  function Presentation(n: nat): seq<Call>
  {
    Sweep(SyncUpdate, 1, n) + Sweep(UpdateHistory, 0, n)
  }

  /**
   * Within a presentation every sync_update (layers 1 .. n - 1, in order)
   * comes before every update_history (layers 0 .. n - 1, in order).
   */
  lemma PresentationOrder(n: nat)
    requires n >= 1
    ensures |Presentation(n)| == 2 * n - 1
    ensures forall k :: 0 <= k < n - 1 ==> Presentation(n)[k] == LayerCall(SyncUpdate, k + 1)
    ensures forall k :: n - 1 <= k < 2 * n - 1 ==> Presentation(n)[k] == LayerCall(UpdateHistory, k - (n - 1))
  {
    SweepEntries(SyncUpdate, 1, n);
    SweepEntries(UpdateHistory, 0, n);
  }

  /** p copies of a call sequence, one after the other. */
  function RepeatCalls(s: seq<Call>, p: nat): seq<Call>
  {
    if p == 0 then [] else RepeatCalls(s, p - 1) + s
  }

  /** `presentations` presentations, one after the other. */
  function Presentations(n: nat, p: nat): seq<Call>
  {
    RepeatCalls(Presentation(n), p)
  }

  /** What one successful synchronous update_network logs. */
  function UpdateNetworkCalls(n: nat, p: nat): seq<Call>
  {
    Sweep(Reset, 0, n) + [SetStateCall] + Presentations(n, p)
  }

  /** The weight_update calls, one per visited connection, in visiting order. */
  function WeightUpdates(order: seq<Label>): seq<Call>
  {
    if order == [] then []
    else WeightUpdates(order[..|order| - 1]) + [WeightUpdateCall(order[|order| - 1])]
  }

  /** What one training_iteration logs, given the order the connections are visited in. */
  function TrainingIterationCalls(n: nat, order: seq<Label>): seq<Call>
  {
    Sweep(UpdateLifetimeMean, 0, n) + WeightUpdates(order) + Sweep(BiasUpdate, 1, n)
  }

  /** What a failing update_network logs before its exception: the resets and the load attempt. */
  function FailedUpdateCalls(n: nat): seq<Call>
  {
    if n == 0 then [] else Sweep(Reset, 0, n) + [SetStateCall]
  }

  /** An order of visiting the keys: each key exactly once, nothing else. */
  predicate VisitsEach(order: seq<Label>, keys: set<Label>)
  {
    Distinct(order) && (forall l :: l in order ==> l in keys) && (forall l :: l in keys ==> l in order)
  }

  /**
   * What train logs for the batches it completes: update_network then
   * training_iteration per batch, orders[k] being the connection order of batch k.
   */
  function TrainCalls(n: nat, p: nat, orders: seq<seq<Label>>): seq<Call>
  {
    if orders == [] then []
    else TrainCalls(n, p, orders[..|orders| - 1]) + BatchCalls(n, p, orders[|orders| - 1])
  }

  /** One completed batch: update_network, then training_iteration in the given connection order. */
  function BatchCalls(n: nat, p: nat, order: seq<Label>): seq<Call>
  {
    UpdateNetworkCalls(n, p) + TrainingIterationCalls(n, order)
  }

  /** s added up c times: the counter after c batches, kept free of multiplication for the solver. */
  function Times(s: nat, c: nat): nat
  {
    if c == 0 then 0 else Times(s, c - 1) + s
  }

  lemma {:induction false} TimesIsProduct(s: nat, c: nat)
    ensures Times(s, c) == s * c
  {
    if c > 0 {
      TimesIsProduct(s, c - 1);
      MulStep(c, s);
      assert s * c == c * s;
      assert s * (c - 1) == (c - 1) * s;
    }
  }

  /** One more completed batch appends its update_network and training_iteration calls. */
  lemma TrainCallsStep(n: nat, p: nat, orders: seq<seq<Label>>, order: seq<Label>)
    ensures TrainCalls(n, p, orders + [order]) == TrainCalls(n, p, orders) + BatchCalls(n, p, order)
  {
    assert (orders + [order])[..|orders|] == orders;
  }

  /**
   * How often call c occurs in one completed batch whose training iteration
   * visits exactly the keys: the resets and the load once, the presentation
   * calls p times, then one update_lifetime_mean and bias_update per layer
   * (bias_update skipping the input layer) and one weight_update per key.
   */
  function BatchCount(n: nat, p: nat, keys: set<Label>, c: Call): nat
  {
    (if c.LayerCall? && c.op == Reset && c.layer < n then 1 else 0) +
    (if c == SetStateCall then 1 else 0) +
    (if c.LayerCall? && c.op == SyncUpdate && 1 <= c.layer < n then p else 0) +
    (if c.LayerCall? && c.op == UpdateHistory && c.layer < n then p else 0) +
    (if c.LayerCall? && c.op == UpdateLifetimeMean && c.layer < n then 1 else 0) +
    (if c.WeightUpdateCall? && c.target in keys then 1 else 0) +
    (if c.LayerCall? && c.op == BiasUpdate && 1 <= c.layer < n then 1 else 0)
  }

  lemma BatchCallsCount(n: nat, p: nat, order: seq<Label>, keys: set<Label>, c: Call)
    requires VisitsEach(order, keys)
    ensures multiset(BatchCalls(n, p, order))[c] == BatchCount(n, p, keys, c)
  {
    UpdateNetworkCountOf(n, p, c);
    TrainingIterationCountOf(n, order, c);
  }

  /** The parts, one after the other. */
  function Flatten(parts: seq<seq<Call>>): seq<Call>
  {
    if parts == [] then [] else Flatten(parts[..|parts| - 1]) + parts[|parts| - 1]
  }

  /** The log of each completed batch, batch by batch. */
  function Batches(n: nat, p: nat, orders: seq<seq<Label>>): seq<seq<Call>>
  {
    seq(|orders|, k requires 0 <= k < |orders| => BatchCalls(n, p, orders[k]))
  }

  lemma {:induction false} TrainCallsFlatten(n: nat, p: nat, orders: seq<seq<Label>>)
    ensures TrainCalls(n, p, orders) == Flatten(Batches(n, p, orders))
  {
    if orders != [] {
      var init := orders[..|orders| - 1];
      TrainCallsFlatten(n, p, init);
      assert Batches(n, p, orders)[..|orders| - 1] == Batches(n, p, init);
    }
  }

  /** A call that occurs b times in every part occurs b times per part in the whole. */
  lemma {:induction false} FlattenCount(parts: seq<seq<Call>>, c: Call, b: nat)
    requires forall k :: 0 <= k < |parts| ==> multiset(parts[k])[c] == b
    ensures multiset(Flatten(parts))[c] == Times(b, |parts|)
  {
    if parts != [] {
      var init := parts[..|parts| - 1];
      assert forall k :: 0 <= k < |init| ==> init[k] == parts[k];
      FlattenCount(init, c, b);
      ConcatCount(Flatten(init), parts[|parts| - 1], c);
    }
  }

  lemma ConcatCount(a: seq<Call>, b: seq<Call>, c: Call)
    ensures multiset(a + b)[c] == multiset(a)[c] + multiset(b)[c]
  {
  }

  /**
   * The log of m completed batches, whatever order each training iteration
   * visited the connections in: every layer is reset and the input loaded m
   * times, every layer appends to its history m * p times, and every
   * connection key receives exactly m weight_update calls.
   */
  lemma TrainCallsCount(n: nat, p: nat, orders: seq<seq<Label>>, keys: set<Label>, l: Label, i: nat)
    requires forall k :: 0 <= k < |orders| ==> VisitsEach(orders[k], keys)
    ensures multiset(TrainCalls(n, p, orders))[SetStateCall] == |orders|
    ensures multiset(TrainCalls(n, p, orders))[LayerCall(Reset, i)] == if i < n then |orders| else 0
    ensures multiset(TrainCalls(n, p, orders))[LayerCall(UpdateHistory, i)] == if i < n then |orders| * p else 0
    ensures multiset(TrainCalls(n, p, orders))[LayerCall(SyncUpdate, i)] == if 1 <= i < n then |orders| * p else 0
    ensures multiset(TrainCalls(n, p, orders))[WeightUpdateCall(l)] == if l in keys then |orders| else 0
  {
    BatchCountOf(n, p, keys, l, i);
    CountOf(n, p, orders, keys, SetStateCall, 1);
    CountOf(n, p, orders, keys, LayerCall(Reset, i), if i < n then 1 else 0);
    CountOf(n, p, orders, keys, LayerCall(UpdateHistory, i), if i < n then p else 0);
    CountOf(n, p, orders, keys, LayerCall(SyncUpdate, i), if 1 <= i < n then p else 0);
    CountOf(n, p, orders, keys, WeightUpdateCall(l), if l in keys then 1 else 0);
  }

  lemma BatchCountOf(n: nat, p: nat, keys: set<Label>, l: Label, i: nat)
    ensures BatchCount(n, p, keys, SetStateCall) == 1
    ensures BatchCount(n, p, keys, LayerCall(Reset, i)) == if i < n then 1 else 0
    ensures BatchCount(n, p, keys, LayerCall(UpdateHistory, i)) == if i < n then p else 0
    ensures BatchCount(n, p, keys, LayerCall(SyncUpdate, i)) == if 1 <= i < n then p else 0
    ensures BatchCount(n, p, keys, WeightUpdateCall(l)) == if l in keys then 1 else 0
  {
  }

  /** A call that occurs b times in every completed batch occurs |orders| * b times in the log. */
  lemma CountOf(n: nat, p: nat, orders: seq<seq<Label>>, keys: set<Label>, c: Call, b: nat)
    requires forall k :: 0 <= k < |orders| ==> VisitsEach(orders[k], keys)
    requires BatchCount(n, p, keys, c) == b
    ensures multiset(TrainCalls(n, p, orders))[c] == |orders| * b
  {
    var parts := Batches(n, p, orders);
    forall k | 0 <= k < |parts|
      ensures multiset(parts[k])[c] == b
    {
      BatchCallsCount(n, p, orders[k], keys, c);
    }
    TrainCallsFlatten(n, p, orders);
    FlattenCount(parts, c, b);
    TimesIsProduct(b, |orders|);
  }

  predicate Distinct<T(==)>(s: seq<T>)
  {
    forall i, j :: 0 <= i < j < |s| ==> s[i] != s[j]
  }

  lemma {:induction false} RepeatCallsCount(s: seq<Call>, p: nat, c: Call)
    ensures multiset(RepeatCalls(s, p))[c] == p * multiset(s)[c]
  {
    if p > 0 {
      var m := multiset(s)[c];
      var prev := RepeatCalls(s, p - 1);
      RepeatCallsCount(s, p - 1, c);
      assert multiset(prev + s)[c] == multiset(prev)[c] + m;
      MulStep(p, m);
    }
  }

  lemma MulStep(p: nat, m: nat)
    requires p >= 1
    ensures (p - 1) * m + m == p * m
  {
  }

  /**
   * In one update_network call over n layers with p presentations: every
   * layer is reset once, the input is loaded once, every layer (the input
   * layer included) appends to its history p times, and only layers[1:] are
   * updated, p times each.
   */
  lemma UpdateNetworkCount(n: nat, p: nat, i: nat)
    ensures multiset(UpdateNetworkCalls(n, p))[LayerCall(Reset, i)] == if i < n then 1 else 0
    ensures multiset(UpdateNetworkCalls(n, p))[SetStateCall] == 1
    ensures multiset(UpdateNetworkCalls(n, p))[LayerCall(UpdateHistory, i)] == if i < n then p else 0
    ensures multiset(UpdateNetworkCalls(n, p))[LayerCall(SyncUpdate, i)] == if 1 <= i < n then p else 0
  {
    UpdateNetworkCountOf(n, p, LayerCall(Reset, i));
    UpdateNetworkCountOf(n, p, SetStateCall);
    UpdateNetworkCountOf(n, p, LayerCall(UpdateHistory, i));
    UpdateNetworkCountOf(n, p, LayerCall(SyncUpdate, i));
  }

  lemma UpdateNetworkCountOf(n: nat, p: nat, c: Call)
    ensures multiset(UpdateNetworkCalls(n, p))[c] ==
              (if c.LayerCall? && c.op == Reset && c.layer < n then 1 else 0) +
              (if c == SetStateCall then 1 else 0) +
              p * ((if c.LayerCall? && c.op == SyncUpdate && 1 <= c.layer < n then 1 else 0) +
                   (if c.LayerCall? && c.op == UpdateHistory && c.layer < n then 1 else 0))
  {
    RepeatCallsCount(Presentation(n), p, c);
    SweepCount(Reset, 0, n, c);
    SweepCount(SyncUpdate, 1, n, c);
    SweepCount(UpdateHistory, 0, n, c);
  }

  lemma {:induction false} WeightUpdatesCount(order: seq<Label>, c: Call)
    requires Distinct(order)
    ensures multiset(WeightUpdates(order))[c] == if c.WeightUpdateCall? && c.target in order then 1 else 0
  {
    if order != [] {
      var prefix := order[..|order| - 1];
      var last := order[|order| - 1];
      assert Distinct(prefix);
      WeightUpdatesCount(prefix, c);
      assert multiset(WeightUpdates(order)) == multiset(WeightUpdates(prefix)) + multiset{WeightUpdateCall(last)};
      assert order == prefix + [last];
      assert last !in prefix;
    }
  }

  /**
   * One training_iteration over n layers visiting every connection once:
   * weight_update runs once per connection, update_lifetime_mean once per
   * layer, and bias_update once per layer except the input layer.
   */
  lemma TrainingIterationCount(n: nat, order: seq<Label>, l: Label, i: nat)
    requires Distinct(order)
    ensures multiset(TrainingIterationCalls(n, order))[WeightUpdateCall(l)] == if l in order then 1 else 0
    ensures multiset(TrainingIterationCalls(n, order))[LayerCall(UpdateLifetimeMean, i)] == if i < n then 1 else 0
    ensures multiset(TrainingIterationCalls(n, order))[LayerCall(BiasUpdate, i)] == if 1 <= i < n then 1 else 0
  {
    TrainingIterationCountOf(n, order, WeightUpdateCall(l));
    TrainingIterationCountOf(n, order, LayerCall(UpdateLifetimeMean, i));
    TrainingIterationCountOf(n, order, LayerCall(BiasUpdate, i));
  }

  lemma TrainingIterationCountOf(n: nat, order: seq<Label>, c: Call)
    requires Distinct(order)
    ensures multiset(TrainingIterationCalls(n, order))[c] ==
              (if c.LayerCall? && c.op == UpdateLifetimeMean && c.layer < n then 1 else 0) +
              (if c.WeightUpdateCall? && c.target in order then 1 else 0) +
              (if c.LayerCall? && c.op == BiasUpdate && 1 <= c.layer < n then 1 else 0)
  {
    WeightUpdatesCount(order, c);
    SweepCount(UpdateLifetimeMean, 0, n, c);
    SweepCount(BiasUpdate, 1, n, c);
  }

  // ---------------------------------------------------------------------------
  // Connection discovery
  // ---------------------------------------------------------------------------

  /** The connections a layer lists in its inputs or outputs. */
  ghost function ListedBy(l: Layer): set<Connection>
    reads l
  {
    set c | c in l.inputs + l.outputs
  }

  /** Every connection listed by any of the layers. */
  ghost function Reachable(layers: seq<Layer>): (r: set<Connection>)
    reads set l | l in layers
    ensures forall l :: l in layers ==> ListedBy(l) <= r
  {
    if layers == [] then {}
    else Reachable(layers[..|layers| - 1]) + ListedBy(layers[|layers| - 1])
  }

  /** Nothing else is reachable: each connection found is listed by one of the layers. */
  lemma {:induction false} ReachableListed(layers: seq<Layer>, c: Connection)
    requires c in Reachable(layers)
    ensures exists l :: l in layers && c in ListedBy(l)
  {
    var n := |layers|;
    if c in ListedBy(layers[n - 1]) {
      assert layers[n - 1] in layers;
    } else {
      ReachableListed(layers[..n - 1], c);
      var l :| l in layers[..n - 1] && c in ListedBy(l);
      assert l in layers;
    }
  }

  /**
   * The connections dictionary: every found connection's label is a key, and
   * each key holds a found connection carrying that label.
   */
  ghost predicate IndexedByLabel(conns: map<Label, Connection>, found: set<Connection>)
  {
    && (forall c :: c in found ==> LabelOf(c) in conns)
    && (forall k :: k in conns ==> conns[k] in found && LabelOf(conns[k]) == k)
  }

  /**
   * __find_connections: gather the connections of every layer into a set,
   * then key each one by its label (a later one overwrites an earlier one
   * with the same label; set order is arbitrary).
   */
  method FindConnections(layers: seq<Layer>) returns (conns: map<Label, Connection>)
    ensures IndexedByLabel(conns, Reachable(layers))
  {
    var found := GatherConnections(layers);
    conns := KeyByLabel(found);
  }

  /** The first loop of __find_connections: the set of every listed connection. */
  method GatherConnections(layers: seq<Layer>) returns (found: set<Connection>)
    ensures found == Reachable(layers)
  {
    found := {};
    for i := 0 to |layers|
      invariant found == Reachable(layers[..i])
    {
      var cs := layers[i].inputs + layers[i].outputs;
      for j := 0 to |cs|
        invariant found == Reachable(layers[..i]) + set c | c in cs[..j]
      {
        assert cs[..j + 1] == cs[..j] + [cs[j]];
        found := found + {cs[j]};
      }
      assert cs[..|cs|] == cs;
      assert layers[..i + 1][..i] == layers[..i];
    }
    assert layers[..|layers|] == layers;
  }

  /** The second loop of __find_connections: `connections[str(c)] = c` for each c. */
  method KeyByLabel(found: set<Connection>) returns (conns: map<Label, Connection>)
    ensures IndexedByLabel(conns, found)
  {
    conns := map[];
    var rest := found;
    while rest != {}
      invariant rest <= found
      invariant forall c :: c in found - rest ==> LabelOf(c) in conns
      invariant forall k :: k in conns ==> conns[k] in found - rest && LabelOf(conns[k]) == k
      decreases |rest|
    {
      var c :| c in rest;
      conns := conns[LabelOf(c) := c];
      rest := rest - {c};
    }
  }

  /** Only found connections are kept. */
  lemma KeptAreFound(conns: map<Label, Connection>, found: set<Connection>)
    requires IndexedByLabel(conns, found)
    ensures conns.Values <= found
  {
    forall c | c in conns.Values
      ensures c in found
    {
      var k :| k in conns && conns[k] == c;
    }
  }

  /** With no two connections sharing a label, every connection found is kept. */
  lemma DistinctLabelsKeepAll(conns: map<Label, Connection>, found: set<Connection>)
    requires IndexedByLabel(conns, found)
    requires forall c1, c2 :: c1 in found && c2 in found && LabelOf(c1) == LabelOf(c2) ==> c1 == c2
    ensures conns.Values == found
  {
    forall c | c in found
      ensures c in conns.Values
    {
      var k := LabelOf(c);
      assert k in conns;
    }
  }

  /**
   * Two distinct connections with the same label (same kind, same two
   * layers) collapse into one entry: at most one of them is kept.
   */
  lemma LabelCollisionDropsOne(conns: map<Label, Connection>, found: set<Connection>, c1: Connection, c2: Connection)
    requires IndexedByLabel(conns, found)
    requires c1 in found && c2 in found && c1 != c2 && LabelOf(c1) == LabelOf(c2)
    ensures c1 !in conns.Values || c2 !in conns.Values
  {
  }

  // ---------------------------------------------------------------------------
  // Global unit index
  // ---------------------------------------------------------------------------

  /** layers[1:], empty when there are no layers. */
  function Updated(layers: seq<Layer>): (ls: seq<Layer>)
    ensures |layers| >= 1 ==> ls == layers[1..]
    ensures |layers| == 0 ==> ls == []
  {
    if |layers| == 0 then [] else layers[1..]
  }

  /** The number of units in ls[..i]. */
  function UnitsBefore(ls: seq<Layer>, i: nat): nat
    requires i <= |ls|
  {
    if i == 0 then 0 else UnitsBefore(ls, i - 1) + ls[i - 1].nDims
  }

  /** The number of units in a list of layers. */
  function Units(ls: seq<Layer>): nat
  {
    UnitsBefore(ls, |ls|)
  }

  /** The global index of unit idx of ls[i]: the units of ls[..i] come first. */
  function GlobalIndex(ls: seq<Layer>, i: nat, idx: nat): nat
    requires i <= |ls|
  {
    UnitsBefore(ls, i) + idx
  }

  /** The indices 0 .. n - 1. */
  function Range(n: nat): (r: set<nat>)
    ensures |r| == n
    ensures forall k: nat :: k in r <==> k < n
  {
    if n == 0 then {} else Range(n - 1) + {n - 1}
  }

  /**
   * The unit dictionary over `ls`: keys 0 .. Units(ls) - 1; layer i's units
   * form one contiguous block starting after the units of the layers before it.
   */
  ghost predicate IsLayerDict(d: map<nat, (Layer, nat)>, ls: seq<Layer>)
  {
    && d.Keys == Range(Units(ls))
    && (forall i: nat, idx: nat :: i < |ls| && idx < ls[i].nDims ==>
          GlobalIndex(ls, i, idx) in d && d[GlobalIndex(ls, i, idx)] == (ls[i], idx))
    && (forall k :: k in d ==> d[k].1 < d[k].0.nDims)
  }

  /** The entries for the first n units of a layer whose units start at global index `start`. */
  function Block(start: nat, layer: Layer, n: nat): map<nat, (Layer, nat)>
  {
    if n == 0 then map[] else Block(start, layer, n - 1)[start + n - 1 := (layer, n - 1)]
  }

  /** A block holds keys start .. start + n - 1, key k naming unit k - start of the layer. */
  lemma {:induction false} BlockShape(start: nat, layer: Layer, n: nat)
    ensures forall k: nat :: k in Block(start, layer, n) <==> start <= k < start + n
    ensures forall k :: k in Block(start, layer, n) ==> Block(start, layer, n)[k] == (layer, k - start)
  {
    if n > 0 {
      BlockShape(start, layer, n - 1);
    }
  }

  /** The dictionary after the first i layers of ls. */
  function LayerDict(ls: seq<Layer>, i: nat): map<nat, (Layer, nat)>
    requires i <= |ls|
  {
    if i == 0 then map[] else LayerDict(ls, i - 1) + Block(UnitsBefore(ls, i - 1), ls[i - 1], ls[i - 1].nDims)
  }

  /**
   * After i layers the keys are exactly 0 .. UnitsBefore(ls, i) - 1, unit x
   * of layer j < i sits at its global index, and every local index is in range.
   */
  lemma LayerDictShape(ls: seq<Layer>, i: nat)
    requires i <= |ls|
    ensures forall k: nat :: k in LayerDict(ls, i) <==> k < UnitsBefore(ls, i)
    ensures forall j: nat, x: nat :: j < i && x < ls[j].nDims ==>
              GlobalIndex(ls, j, x) in LayerDict(ls, i) && LayerDict(ls, i)[GlobalIndex(ls, j, x)] == (ls[j], x)
    ensures forall k :: k in LayerDict(ls, i) ==> LayerDict(ls, i)[k].1 < LayerDict(ls, i)[k].0.nDims
  {
    LayerDictKeys(ls, i);
    LayerDictPlaces(ls, i);
    LayerDictLocal(ls, i);
  }

  lemma {:induction false} LayerDictKeys(ls: seq<Layer>, i: nat)
    requires i <= |ls|
    ensures forall k: nat :: k in LayerDict(ls, i) <==> k < UnitsBefore(ls, i)
  {
    if i > 0 {
      LayerDictKeys(ls, i - 1);
      BlockShape(UnitsBefore(ls, i - 1), ls[i - 1], ls[i - 1].nDims);
    }
  }

  lemma {:induction false} LayerDictPlaces(ls: seq<Layer>, i: nat)
    requires i <= |ls|
    ensures forall j: nat, x: nat :: j < i && x < ls[j].nDims ==>
              GlobalIndex(ls, j, x) in LayerDict(ls, i) && LayerDict(ls, i)[GlobalIndex(ls, j, x)] == (ls[j], x)
  {
    if i > 0 {
      LayerDictPlaces(ls, i - 1);
      var start := UnitsBefore(ls, i - 1);
      var block := Block(start, ls[i - 1], ls[i - 1].nDims);
      BlockShape(start, ls[i - 1], ls[i - 1].nDims);
      forall j: nat, x: nat | j < i && x < ls[j].nDims
        ensures GlobalIndex(ls, j, x) in LayerDict(ls, i) && LayerDict(ls, i)[GlobalIndex(ls, j, x)] == (ls[j], x)
      {
        var g := GlobalIndex(ls, j, x);
        if j < i - 1 {
          UnitsBeforeMonotone(ls, j + 1, i - 1);
          assert g !in block;
        } else {
          assert g in block;
        }
      }
    }
  }

  lemma {:induction false} LayerDictLocal(ls: seq<Layer>, i: nat)
    requires i <= |ls|
    ensures forall k :: k in LayerDict(ls, i) ==> LayerDict(ls, i)[k].1 < LayerDict(ls, i)[k].0.nDims
  {
    if i > 0 {
      LayerDictLocal(ls, i - 1);
      BlockShape(UnitsBefore(ls, i - 1), ls[i - 1], ls[i - 1].nDims);
    }
  }

  lemma {:induction false} UnitsBeforeMonotone(ls: seq<Layer>, i: nat, j: nat)
    requires i <= j <= |ls|
    ensures UnitsBefore(ls, i) <= UnitsBefore(ls, j)
    decreases j
  {
    if i < j {
      UnitsBeforeMonotone(ls, i, j - 1);
    }
  }

  /**
   * __build_layer_dict: walk layers[1:], mapping start + idx to (layer, idx),
   * where start is the number of keys so far.
   */
  method BuildLayerDict(layers: seq<Layer>) returns (d: map<nat, (Layer, nat)>)
    ensures d == LayerDict(Updated(layers), |Updated(layers)|)
  {
    var ls := Updated(layers);
    d := map[];
    var start: nat := 0;
    for i := 0 to |ls|
      invariant d == LayerDict(ls, i)
      invariant start == UnitsBefore(ls, i)
    {
      d := AddBlock(d, start, ls[i]);
      LayerDictSize(ls, i + 1);
      start := |d|;
    }
  }

  /** len(unit_dict) after i layers is the number of their units. */
  lemma LayerDictSize(ls: seq<Layer>, i: nat)
    requires i <= |ls|
    ensures LayerDict(ls, i).Keys == Range(UnitsBefore(ls, i))
    ensures |LayerDict(ls, i)| == UnitsBefore(ls, i)
  {
    LayerDictShape(ls, i);
  }

  /** The finished dictionary has the shape the asynchronous update relies on. */
  lemma LayerDictIsLayerDict(ls: seq<Layer>)
    ensures IsLayerDict(LayerDict(ls, |ls|), ls)
  {
    LayerDictSize(ls, |ls|);
    LayerDictShape(ls, |ls|);
  }

  /** The inner loop of __build_layer_dict: one key per unit of `layer`, from `start` on. */
  method AddBlock(d: map<nat, (Layer, nat)>, start: nat, layer: Layer) returns (d': map<nat, (Layer, nat)>)
    ensures d' == d + Block(start, layer, layer.nDims)
  {
    d' := d;
    for idx := 0 to layer.nDims
      invariant d' == d + Block(start, layer, idx)
    {
      d' := d'[start + idx := (layer, idx)];
    }
  }

  /**
   * The connection half of __set_up_children: every connection of the
   * dictionary takes the network's parameters (unpack_network_params).
   */
  method SetUpConnections(cs: set<Connection>, p: NetworkParams, networkRate: real)
    modifies cs
    ensures forall c :: c in cs ==>
              c.params == Some(p) && c.learningRate == Some(RateOr(old(c.learningRate), networkRate))
    ensures forall c :: c in cs ==> c.pending == old(c.pending)
  {
    var rest := cs;
    while rest != {}
      invariant rest <= cs
      invariant forall c :: c in cs - rest ==>
                  c.params == Some(p) && c.learningRate == Some(RateOr(old(c.learningRate), networkRate))
      invariant forall c :: c in rest ==> c.learningRate == old(c.learningRate)
      invariant forall c :: c in cs ==> c.pending == old(c.pending)
      decreases |rest|
    {
      var c :| c in rest;
      c.UnpackNetworkParams(p, networkRate);
      rest := rest - {c};
    }
  }

  // ---------------------------------------------------------------------------
  // The network
  // ---------------------------------------------------------------------------

  /** np.arange(n): 0, 1, ..., n - 1. */
  function Arange(n: nat): (s: seq<nat>)
    ensures |s| == n && forall k :: 0 <= k < n ==> s[k] == k
  {
    seq(n, k => k)
  }

  /** Every layer keeps its invariant. */
  ghost predicate AllValid(layers: seq<Layer>)
    reads layers
  {
    forall l :: l in layers ==> l.Valid()
  }

  /**
   * Every layer keeps its invariant, the wiring is w and the input layer's
   * bias is inputBias.
   */
  ghost predicate Kept(layers: seq<Layer>, w: seq<(seq<Connection>, seq<Connection>)>, inputBias: seq<real>)
    reads layers
  {
    AllValid(layers) && Wiring(layers) == w && (|layers| >= 1 ==> layers[0].bias == inputBias)
  }

  /** Each layer's connection lists, in layer order: the wiring of the network. */
  function Wiring(layers: seq<Layer>): (w: seq<(seq<Connection>, seq<Connection>)>)
    reads layers
    ensures |w| == |layers| && forall i :: 0 <= i < |layers| ==> w[i] == (layers[i].inputs, layers[i].outputs)
  {
    seq(|layers|, i requires 0 <= i < |layers| reads layers => (layers[i].inputs, layers[i].outputs))
  }

  /** Each layer's bias, in layer order. */
  function Biases(layers: seq<Layer>): (b: seq<seq<real>>)
    reads layers
    ensures |b| == |layers| && forall i :: 0 <= i < |layers| ==> b[i] == layers[i].bias
  {
    seq(|layers|, i requires 0 <= i < |layers| reads layers => layers[i].bias)
  }

  class Network {
    const layers: seq<Layer>
    const params: NetworkParams
    var connections: map<Label, Connection>
    var tCounter: int
    var nodeIdx: seq<nat>
    var idxToLayer: map<nat, (Layer, nat)>
    /** Every per-layer call made so far, in order. */
    var calls: seq<Call>

    /**
     * Network.__init__: find the connections, set up the layers (logged) and
     * the connections (unpack_network_params with the network's learning
     * rate), start the counter at 0 and, for an asynchronous network, build
     * the unit index.
     */
    constructor (layers: seq<Layer>, params: NetworkParams, networkRate: real)
      modifies Reachable(layers)
      ensures this.layers == layers && this.params == params
      ensures IndexedByLabel(connections, old(Reachable(layers)))
      ensures tCounter == 0
      ensures calls == Sweep(SetUp, 0, |layers|)
      ensures forall c :: c in connections.Values && old(allocated(c)) ==>
                c.params == Some(params) && c.learningRate == Some(RateOr(old(c.learningRate), networkRate))
      ensures forall c :: c in old(Reachable(layers)) && c !in connections.Values && old(allocated(c)) ==> unchanged(c)
      ensures params.asyncUpdate ==>
                nodeIdx == Arange(Units(Updated(layers))) &&
                idxToLayer == LayerDict(Updated(layers), |Updated(layers)|)
      ensures !params.asyncUpdate ==> nodeIdx == [] && idxToLayer == map[]
    {
      this.layers := layers;
      this.params := params;
      ghost var found := Reachable(layers);
      var conns := FindConnections(layers);
      KeptAreFound(conns, found);
      SetUpConnections(conns.Values, params, networkRate);
      connections := conns;
      calls := Sweep(SetUp, 0, |layers|);
      tCounter := 0;
      if params.asyncUpdate {
        nodeIdx := Arange(Units(Updated(layers)));
        var d := BuildLayerDict(layers);
        idxToLayer := d;
      } else {
        nodeIdx := [];
        idxToLayer := map[];
      }
    }

    /**
     * The outcome of update_network(stimulus), which depends only on the
     * input layer and the parameters: Ok exactly for a synchronous network
     * whose first layer is an input layer of the stimulus' length.
     */
    function UpdateStatus(stimulus: seq<real>): (s: Status)
      ensures s == Ok <==>
                |layers| >= 1 && layers[0].kind == InputLayer && |stimulus| == layers[0].nDims && !params.asyncUpdate
      ensures s != Ok ==> s in {IndexError, AttributeError, AssertionError, NotImplementedError}
    {
      if |layers| == 0 then IndexError
      else if layers[0].kind != InputLayer then AttributeError
      else if |stimulus| != layers[0].nDims then AssertionError
      else if params.asyncUpdate then NotImplementedError
      else Ok
    }

    /**
     * update_network(stimulus): reset every layer, load the stimulus into
     * layers[0], then (synchronous networks only) run `presentations`
     * presentations. An empty layer list fails at layers[0] with IndexError;
     * an asynchronous network raises NotImplementedError after loading.
     */
    method UpdateNetwork(stimulus: seq<real>) returns (status: Status)
      requires AllValid(layers)
      modifies this`calls, layers
      ensures AllValid(layers)
      ensures Wiring(layers) == old(Wiring(layers)) && Biases(layers) == old(Biases(layers))
      ensures |layers| == 0 ==> status == IndexError && calls == old(calls)
      ensures |layers| >= 1 && layers[0].kind != InputLayer ==>
                status == AttributeError && unchanged(layers[0]) &&
                calls == old(calls) + Sweep(Reset, 0, |layers|) + [SetStateCall]
      ensures |layers| >= 1 && layers[0].kind == InputLayer && |stimulus| != layers[0].nDims ==>
                status == AssertionError && unchanged(layers[0]) &&
                calls == old(calls) + Sweep(Reset, 0, |layers|) + [SetStateCall]
      ensures |layers| >= 1 && layers[0].kind == InputLayer && |stimulus| == layers[0].nDims ==>
                layers[0].state == stimulus &&
                (params.asyncUpdate ==>
                   status == NotImplementedError &&
                   calls == old(calls) + Sweep(Reset, 0, |layers|) + [SetStateCall]) &&
                (!params.asyncUpdate ==>
                   status == Ok && calls == old(calls) + UpdateNetworkCalls(|layers|, params.presentations))
      ensures status == UpdateStatus(stimulus)
      ensures status != Ok ==> calls == old(calls) + FailedUpdateCalls(|layers|)
    {
      var n := |layers|;
      LogSweep(Reset, 0, n);
      if n == 0 {
        return IndexError;
      }
      status := Load(stimulus);
      if status != Ok {
        return;
      }
      if params.asyncUpdate {
        return NotImplementedError;
      }
      LogPresentations(n, params.presentations);
    }

    /** layers[0].set_state(stimulus), logged: only the input layer's state may change. */
    method Load(stimulus: seq<real>) returns (status: Status)
      requires |layers| >= 1 && AllValid(layers)
      modifies this`calls, layers[0]
      ensures AllValid(layers)
      ensures Wiring(layers) == old(Wiring(layers)) && Biases(layers) == old(Biases(layers))
      ensures calls == old(calls) + [SetStateCall]
      ensures layers[0].kind != InputLayer ==> status == AttributeError && unchanged(layers[0])
      ensures layers[0].kind == InputLayer && |stimulus| != layers[0].nDims ==>
                status == AssertionError && unchanged(layers[0])
      ensures layers[0].kind == InputLayer && |stimulus| == layers[0].nDims ==> status == Ok && layers[0].state == stimulus
    {
      calls := calls + [SetStateCall];
      status := layers[0].SetState(stimulus);
    }

    /** The presentation loop of a synchronous update_network over n layers. */
    method LogPresentations(n: nat, presentations: nat)
      modifies this`calls
      ensures calls == old(calls) + Presentations(n, presentations)
    {
      for p := 0 to presentations
        invariant calls == old(calls) + Presentations(n, p)
      {
        LogSweep(SyncUpdate, 1, n);
        LogSweep(UpdateHistory, 0, n);
      }
    }

    /** `for layer in layers[lo:hi]: layer.op()`: one log entry per layer, in order. */
    method LogSweep(op: LayerOp, lo: nat, hi: nat)
      modifies this`calls
      ensures calls == old(calls) + Sweep(op, lo, hi)
    {
      if lo < hi {
        for i := lo to hi
          invariant calls == old(calls) + Sweep(op, lo, i)
        {
          calls := calls + [LayerCall(op, i)];
        }
      }
    }

    /**
     * training_iteration: update_lifetime_mean on every layer, weight_update
     * on every connection of the dictionary (dictionary order is arbitrary;
     * `order` reports the one taken), then bias_update on layers[1:].
     */
    method TrainingIteration() returns (order: seq<Label>)
      requires AllValid(layers)
      modifies this`calls, layers
      ensures AllValid(layers)
      ensures Wiring(layers) == old(Wiring(layers))
      ensures |layers| >= 1 ==> layers[0].bias == old(layers[0].bias)
      ensures VisitsEach(order, connections.Keys)
      ensures calls == old(calls) + TrainingIterationCalls(|layers|, order)
    {
      var n := |layers|;
      LogSweep(UpdateLifetimeMean, 0, n);
      order := LogWeightUpdates();
      LogSweep(BiasUpdate, 1, n);
    }

    /** The connection loop of training_iteration: weight_update once per dictionary entry. */
    method LogWeightUpdates() returns (order: seq<Label>)
      modifies this`calls
      ensures VisitsEach(order, connections.Keys)
      ensures calls == old(calls) + WeightUpdates(order)
    {
      order := [];
      var rest := connections.Keys;
      while rest != {}
        invariant rest <= connections.Keys
        invariant Distinct(order)
        invariant forall l :: l in order ==> l in connections && l !in rest
        invariant forall l :: l in connections ==> l in rest || l in order
        invariant calls == old(calls) + WeightUpdates(order)
        decreases |rest|
      {
        var l :| l in rest;
        calls := calls + [WeightUpdateCall(l)];
        assert (order + [l])[..|order|] == order;
        order := order + [l];
        rest := rest - {l};
      }
    }

    /**
     * train on already-batched stimuli (the `rolled` path): each batch is
     * presented, the counter advances by stimuli_per_epoch and a training
     * iteration runs. An exception from update_network stops training with
     * the counter untouched for that batch; `consumed` counts the batches
     * fully processed and orders[k] is the connection order batch k took.
     */
    method Train(batches: seq<seq<real>>) returns (status: Status, consumed: nat, orders: seq<seq<Label>>)
      requires AllValid(layers)
      modifies this`calls, this`tCounter, layers
      ensures AllValid(layers)
      ensures Wiring(layers) == old(Wiring(layers))
      ensures |layers| >= 1 ==> layers[0].bias == old(layers[0].bias)
      ensures consumed <= |batches| && |orders| == consumed
      ensures tCounter == old(tCounter) + params.stimuliPerEpoch * consumed
      ensures status == Ok <==> consumed == |batches|
      ensures forall k :: 0 <= k < consumed ==>
                UpdateStatus(batches[k]) == Ok && VisitsEach(orders[k], connections.Keys)
      ensures status != Ok ==> status == UpdateStatus(batches[consumed])
      ensures calls == old(calls) + TrainCalls(|layers|, params.presentations, orders) +
                       (if status == Ok then [] else FailedUpdateCalls(|layers|))
    {
      consumed := 0;
      status := Ok;
      orders := [];
      ghost var t0, c0 := tCounter, calls;
      ghost var w0, b0 := Wiring(layers), if |layers| >= 1 then layers[0].bias else [];
      while consumed < |batches|
        invariant |orders| == consumed && status == Ok
        invariant Progress(batches, orders, t0, w0, b0)
        invariant calls == c0 + TrainCalls(|layers|, params.presentations, orders)
      {
        status, orders := TrainStep(batches, orders, t0, c0, w0, b0);
        if status != Ok {
          TimesIsProduct(params.stimuliPerEpoch, consumed);
          return;
        }
        consumed := consumed + 1;
      }
      TimesIsProduct(params.stimuliPerEpoch, consumed);
    }

    /**
     * What train has done after completing the batches of `orders`, starting
     * from counter t0, wiring w0 and input bias b0.
     */
    ghost predicate Progress(batches: seq<seq<real>>, orders: seq<seq<Label>>, t0: int,
                             w0: seq<(seq<Connection>, seq<Connection>)>, b0: seq<real>)
      reads this, layers
    {
      && |orders| <= |batches|
      && tCounter == t0 + Times(params.stimuliPerEpoch, |orders|)
      && Trained(batches, orders, connections.Keys)
      && Kept(layers, w0, b0)
    }

    /** One iteration of train's loop, on batch |orders|. */
    method TrainStep(batches: seq<seq<real>>, orders: seq<seq<Label>>, ghost t0: int, ghost c0: seq<Call>,
                     ghost w0: seq<(seq<Connection>, seq<Connection>)>, ghost b0: seq<real>)
      returns (status: Status, orders': seq<seq<Label>>)
      requires |orders| < |batches| && Progress(batches, orders, t0, w0, b0)
      requires calls == c0 + TrainCalls(|layers|, params.presentations, orders)
      modifies this`calls, this`tCounter, layers
      ensures status == UpdateStatus(batches[|orders|])
      ensures status == Ok ==>
                |orders'| == |orders| + 1 && Progress(batches, orders', t0, w0, b0) &&
                calls == c0 + TrainCalls(|layers|, params.presentations, orders')
      ensures status != Ok ==>
                orders' == orders && Progress(batches, orders, t0, w0, b0) &&
                calls == c0 + TrainCalls(|layers|, params.presentations, orders) + FailedUpdateCalls(|layers|)
    {
      var order;
      orders' := orders;
      status, order := TrainBatch(batches[|orders|]);
      if status == Ok {
        TrainCallsStep(|layers|, params.presentations, orders, order);
        ExtendTrained(batches, orders, order, connections.Keys);
        orders' := orders + [order];
      }
    }

    /** Every batch of `orders` was accepted and trained with a visiting order of the keys. */
    ghost predicate Trained(batches: seq<seq<real>>, orders: seq<seq<Label>>, keys: set<Label>)
    {
      forall k :: 0 <= k < |orders| && k < |batches| ==> UpdateStatus(batches[k]) == Ok && VisitsEach(orders[k], keys)
    }

    /** One more batch accepted and trained with a visiting order of the keys. */
    lemma ExtendTrained(batches: seq<seq<real>>, orders: seq<seq<Label>>, order: seq<Label>, keys: set<Label>)
      requires |orders| < |batches|
      requires Trained(batches, orders, keys)
      requires UpdateStatus(batches[|orders|]) == Ok && VisitsEach(order, keys)
      ensures Trained(batches, orders + [order], keys)
    {
    }

    /**
     * One pass of train's loop: update_network on the batch, then (when it
     * succeeds) the counter advance and a training iteration.
     */
    method TrainBatch(stimulus: seq<real>) returns (status: Status, order: seq<Label>)
      requires AllValid(layers)
      modifies this`calls, this`tCounter, layers
      ensures AllValid(layers)
      ensures Wiring(layers) == old(Wiring(layers))
      ensures |layers| >= 1 ==> layers[0].bias == old(layers[0].bias)
      ensures status == UpdateStatus(stimulus)
      ensures status != Ok ==> calls == old(calls) + FailedUpdateCalls(|layers|) && tCounter == old(tCounter)
      ensures status == Ok ==>
                calls == old(calls) + BatchCalls(|layers|, params.presentations, order) &&
                tCounter == old(tCounter) + params.stimuliPerEpoch &&
                VisitsEach(order, connections.Keys)
    {
      order := [];
      status := UpdateNetwork(stimulus);
      if status != Ok {
        return;
      }
      tCounter := tCounter + params.stimuliPerEpoch;
      order := TrainingIteration();
    }
  }
}
