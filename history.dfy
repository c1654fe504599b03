/**
 * The bounded history of Layer.update_history (src/blocks/layer.py): the
 * newest state goes to the front, and once the list holds more than
 * 2 * max_history_length entries it is cut back to the newest
 * max_history_length.
 */
module History {

  /** Layer.max_history_length. */
  const MaxHistoryLength: nat := 500

  /** The largest history length a layer ever shows. */
  const HistoryCapacity: nat := 2 * MaxHistoryLength

  /** One update_history step on values: insert at the front, then truncate. */
  function Pushed(history: seq<seq<real>>, state: seq<real>): (h: seq<seq<real>>)
    ensures |h| >= 1 && h[0] == state
    ensures h[1..] <= history
    ensures |history| < HistoryCapacity ==> h == [state] + history
    ensures |history| >= HistoryCapacity ==> |h| == MaxHistoryLength
    ensures |history| <= HistoryCapacity ==> |h| <= HistoryCapacity
  {
    var h := [state] + history;
    if |h| > HistoryCapacity then h[..MaxHistoryLength] else h
  }

  /** The history left by pushing `states` in order, starting from `history`. */
  function PushedAll(history: seq<seq<real>>, states: seq<seq<real>>): seq<seq<real>>
  {
    if states == [] then history
    else Pushed(PushedAll(history, states[..|states| - 1]), states[|states| - 1])
  }

  /**
   * The sawtooth: after n insertions into an empty history the length is n up
   * to 1000, then it drops to 500 and climbs again with period 501.
   */
  function SawtoothLength(n: nat): nat
  {
    if n <= HistoryCapacity then n
    else MaxHistoryLength + (n - HistoryCapacity - 1) % (MaxHistoryLength + 1)
  }

  lemma {:induction false} HistoryLength(states: seq<seq<real>>)
    ensures |PushedAll([], states)| == SawtoothLength(|states|)
    ensures |PushedAll([], states)| <= HistoryCapacity
  {
    var n := |states|;
    if n > 0 {
      var prev := states[..n - 1];
      HistoryLength(prev);
      var l := SawtoothLength(n - 1);
      if n - 1 > HistoryCapacity {
        var m := (n - 1 - HistoryCapacity - 1) % (MaxHistoryLength + 1);
        if m == MaxHistoryLength {
          assert (n - HistoryCapacity - 1) % (MaxHistoryLength + 1) == 0;
        } else {
          assert (n - HistoryCapacity - 1) % (MaxHistoryLength + 1) == m + 1;
        }
      }
    }
  }

  /**
   * Whatever the truncations, the history lists the most recent states,
   * newest first: entry k is the k-th newest state pushed.
   */
  lemma {:induction false} HistoryNewestFirst(states: seq<seq<real>>, k: nat)
    requires k < |PushedAll([], states)|
    ensures k < |states| && PushedAll([], states)[k] == states[|states| - 1 - k]
  {
    var n := |states|;
    if n == 0 {
      assert false;
    }
    var prev := states[..n - 1];
    var h := PushedAll([], prev);
    HistoryLength(prev);
    if k > 0 {
      assert PushedAll([], states)[k] == h[k - 1];
      HistoryNewestFirst(prev, k - 1);
    }
  }
}
