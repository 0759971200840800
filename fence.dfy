// The GPU fence the sample applications synchronise with: a counter the
// command queue raises by signalling values and the CPU waits on. The model
// records the signals and waits in order; what the GPU executes between
// them is not modelled.
module Fences {

  datatype FenceEvent =
    | QueueSignal(value: nat)   // the queue sets the fence to `value` once prior work completes
    | CpuWait(value: nat)       // the CPU blocks until the fence reaches `value`

  /** The value last signalled, or the fence's initial value before any
      signal. */
  function LastSignalled(initialValue: nat, events: seq<FenceEvent>): nat
    decreases |events|
  {
    if events == [] then initialValue
    else if events[|events| - 1].QueueSignal? then events[|events| - 1].value
    else LastSignalled(initialValue, events[..|events| - 1])
  }

  /** The discipline the applications keep: each signal raises the fence by
      exactly one, and each wait is for a value already signalled (so it
      cannot block forever). */
  ghost predicate WellOrdered(initialValue: nat, events: seq<FenceEvent>)
    decreases |events|
  {
    if events == [] then true
    else
      var prev := events[..|events| - 1];
      WellOrdered(initialValue, prev) &&
      match events[|events| - 1]
      case QueueSignal(v) => v == LastSignalled(initialValue, prev) + 1
      case CpuWait(v) => v <= LastSignalled(initialValue, prev)
  }

  function NumSignals(events: seq<FenceEvent>): nat
    decreases |events|
  {
    if events == [] then 0
    else NumSignals(events[..|events| - 1]) + (if events[|events| - 1].QueueSignal? then 1 else 0)
  }

  /** Under the discipline the fence's value counts the signals. */
  lemma {:induction false} LastSignalledCountsSignals(initialValue: nat, events: seq<FenceEvent>)
    requires WellOrdered(initialValue, events)
    ensures LastSignalled(initialValue, events) == initialValue + NumSignals(events)
    decreases |events|
  {
    if events != [] {
      LastSignalledCountsSignals(initialValue, events[..|events| - 1]);
    }
  }

  /** A prefix of a well-ordered history is well-ordered. */
  lemma {:induction false} WellOrderedPrefix(initialValue: nat, events: seq<FenceEvent>, n: nat)
    requires WellOrdered(initialValue, events) && n <= |events|
    ensures WellOrdered(initialValue, events[..n])
    decreases |events|
  {
    if n < |events| {
      assert events[..|events| - 1][..n] == events[..n];
      WellOrderedPrefix(initialValue, events[..|events| - 1], n);
    } else {
      assert events[..n] == events;
    }
  }

  /** The fence only rises. */
  lemma {:induction false} LastSignalledMonotone(initialValue: nat, events: seq<FenceEvent>, n: nat)
    requires WellOrdered(initialValue, events) && n <= |events|
    ensures LastSignalled(initialValue, events[..n]) <= LastSignalled(initialValue, events)
    decreases |events|
  {
    if n < |events| {
      var prev := events[..|events| - 1];
      assert prev[..n] == events[..n];
      LastSignalledMonotone(initialValue, prev, n);
    } else {
      assert events[..n] == events;
    }
  }

  /** Signalled values strictly increase along the history. */
  lemma SignalsIncrease(initialValue: nat, events: seq<FenceEvent>, i: nat, j: nat)
    requires WellOrdered(initialValue, events)
    requires i < j < |events| && events[i].QueueSignal? && events[j].QueueSignal?
    ensures events[i].value < events[j].value
  {
    var upToJ := events[..j + 1];
    WellOrderedPrefix(initialValue, events, j + 1);
    assert upToJ[..j] == events[..j];
    assert events[..j][..i + 1] == events[..i + 1];
    LastSignalledMonotone(initialValue, events[..j], i + 1);
    assert LastSignalled(initialValue, events[..i + 1]) == events[i].value;
  }

  /** Every wait is for a value the fence has reached by the end. */
  lemma WaitsReached(initialValue: nat, events: seq<FenceEvent>, j: nat)
    requires WellOrdered(initialValue, events)
    requires j < |events| && events[j].CpuWait?
    ensures events[j].value <= LastSignalled(initialValue, events)
  {
    WellOrderedPrefix(initialValue, events, j + 1);
    assert events[..j + 1][..j] == events[..j];
    LastSignalledMonotone(initialValue, events, j);
  }

  /** How the applications pace their back buffers against the fence: the
      current back buffer's value is the next one to signal, and every other
      back buffer's value has already been signalled (so waiting for it
      cannot block forever). */
  ghost predicate Paced(values: seq<nat>, current: nat, signalled: nat)
  {
    current < |values| && values[current] == signalled + 1 &&
    forall k :: 0 <= k < |values| && k != current ==> values[k] <= signalled
  }

  class Fence {
    const initialValue: nat
    var events: seq<FenceEvent>

    constructor(initialValue: nat)
      ensures this.initialValue == initialValue && events == []
    {
      this.initialValue := initialValue;
      events := [];
    }

    /** The value last signalled: the most the GPU can have completed. */
    function Signalled(): nat
      reads this
    {
      LastSignalled(initialValue, events)
    }

    method Signal(value: nat)
      modifies this`events
      ensures events == old(events) + [QueueSignal(value)]
      ensures Signalled() == value
    {
      events := events + [QueueSignal(value)];
    }

    /** Blocks until the fence reaches `value`; returns at once when it has
        already been reached. */
    method Wait(value: nat)
      modifies this`events
      ensures events == old(events) + [CpuWait(value)]
      ensures Signalled() == old(Signalled())
    {
      events := events + [CpuWait(value)];
    }
  }
}
