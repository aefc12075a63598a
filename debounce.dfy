/**
 * `useDebounce` (components/TranslationInterface.tsx:9-16) as a discrete-event
 * machine. Each new value cancels the pending timer and starts another; the
 * timer, once `Delay` time units have passed without a new value, sets the
 * debounced value to the value it was started with.
 */
module Debounce {
  import opened Optional

  /** The delay the session passes to `useDebounce`. */
  const Delay: nat := 600

  /** A started timer: after `remaining` more time units it sets the debounced value to `value`. */
  datatype Timer = Timer(value: string, remaining: nat)

  /** The debounced value and the one pending timer, if any. */
  datatype DebounceState = DebounceState(current: string, pending: Option<Timer>)

  /** A pending timer never has more than `Delay` to go, nor zero. */
  predicate Valid(d: DebounceState) {
    d.pending.Some? ==> 0 < d.pending.value.remaining <= Delay
  }

  /** On mount the debounced value is the initial value, and the effect has started a timer for it. */
  function Init(v: string): (d: DebounceState)
    ensures Valid(d)
  {
    DebounceState(v, Some(Timer(v, Delay)))
  }

  /** A new value: the effect's clean-up clears the pending timer and a new one starts. */
  function Change(d: DebounceState, v: string): (r: DebounceState)
    ensures Valid(r)
  {
    d.(pending := Some(Timer(v, Delay)))
  }

  /** `dt` time units pass: the pending timer fires once its remaining time has run out. */
  function Elapse(d: DebounceState, dt: nat): (r: DebounceState)
    requires Valid(d)
    ensures Valid(r)
  {
    match d.pending
    case None => d
    case Some(t) =>
      if dt >= t.remaining then DebounceState(t.value, None)
      else d.(pending := Some(Timer(t.value, t.remaining - dt)))
  }

  /** The value a timer delivers when `dt` time units pass, if it fires. */
  function Fired(d: DebounceState, dt: nat): Option<string> {
    if d.pending.Some? && dt >= d.pending.value.remaining then Some(d.pending.value.value) else None
  }

  /** What the debouncer observes: a new value, or time passing. */
  datatype Event = NewValue(value: string) | Wait(dt: nat)

  /** Where a run of events leaves the debouncer, and every value its timers delivered, in order. */
  datatype Trace = Trace(state: DebounceState, updates: seq<string>)

  function Step(d: DebounceState, e: Event): (r: DebounceState)
    requires Valid(d)
    ensures Valid(r)
  {
    match e
    case NewValue(v) => Change(d, v)
    case Wait(dt) => Elapse(d, dt)
  }

  function Delivered(d: DebounceState, e: Event): seq<string> {
    match e
    case NewValue(_) => []
    case Wait(dt) => if Fired(d, dt).Some? then [Fired(d, dt).value] else []
  }

  /** Runs `events` from `d`; each event delivers at most one value. */
  function Run(d: DebounceState, events: seq<Event>): (t: Trace)
    requires Valid(d)
    ensures Valid(t.state)
    ensures |t.updates| <= |events|
    decreases |events|
  {
    if events == [] then Trace(d, [])
    else
      var rest := Run(Step(d, events[0]), events[1..]);
      Trace(rest.state, Delivered(d, events[0]) + rest.updates)
  }

  /** Total time of a run of waits. */
  function Total(dts: seq<nat>): nat {
    if dts == [] then 0 else dts[0] + Total(dts[1..])
  }

  /** The waits `dts`, in order, as events. */
  function Waits(dts: seq<nat>): (events: seq<Event>)
    ensures |events| == |dts|
    ensures forall i :: 0 <= i < |dts| ==> events[i] == Wait(dts[i])
  {
    if dts == [] then [] else [Wait(dts[0])] + Waits(dts[1..])
  }

  /**
   * While a timer is pending, waiting changes nothing until its remaining
   * time has run out; then it delivers its value once and nothing more happens.
   */
  lemma {:induction false} WaitsOnPending(current: string, t: Timer, dts: seq<nat>)
    requires Valid(DebounceState(current, Some(t)))
    ensures var tr := Run(DebounceState(current, Some(t)), Waits(dts));
      if Total(dts) >= t.remaining then tr == Trace(DebounceState(t.value, None), [t.value])
      else tr == Trace(DebounceState(current, Some(Timer(t.value, t.remaining - Total(dts)))), [])
    decreases |dts|
  {
    if dts != [] {
      var d := DebounceState(current, Some(t));
      var events := Waits(dts);
      assert events[0] == Wait(dts[0]) && events[1..] == Waits(dts[1..]);
      if dts[0] >= t.remaining {
        WaitsOnSettled(t.value, dts[1..]);
      } else {
        WaitsOnPending(current, Timer(t.value, t.remaining - dts[0]), dts[1..]);
      }
    }
  }

  /** With no timer pending, waiting changes nothing. */
  lemma {:induction false} WaitsOnSettled(current: string, dts: seq<nat>)
    ensures Run(DebounceState(current, None), Waits(dts)) == Trace(DebounceState(current, None), [])
  {
    if dts != [] {
      var events := Waits(dts);
      assert events[0] == Wait(dts[0]) && events[1..] == Waits(dts[1..]);
      WaitsOnSettled(current, dts[1..]);
    }
  }

  /**
   * After a new value, the debounced value stays as it was for as long as
   * less than `Delay` has passed, and becomes the new value, delivered
   * exactly once, when `Delay` has passed with no further value.
   */
  lemma SettlesAfterQuietDelay(d: DebounceState, v: string, dts: seq<nat>)
    requires Valid(d)
    ensures var tr := Run(d, [NewValue(v)] + Waits(dts));
      (Total(dts) < Delay ==> tr.state.current == d.current && tr.updates == []) &&
      (Total(dts) >= Delay ==> tr == Trace(DebounceState(v, None), [v]))
  {
    var events := [NewValue(v)] + Waits(dts);
    assert events[0] == NewValue(v) && events[1..] == Waits(dts);
    WaitsOnPending(d.current, Timer(v, Delay), dts);
  }

  /**
   * Whatever the debouncer is heading for, pending or already settled, it
   * has settled on once `Delay` has passed.
   */
  lemma SettlesOnTarget(d: DebounceState, v: string, dt: nat)
    requires Valid(d) && dt >= Delay
    requires if d.pending.Some? then d.pending.value.value == v else d.current == v
    ensures Elapse(d, dt) == DebounceState(v, None)
  {
  }

  /** A burst: the values typed one after the other, with the pauses between them. */
  function Burst(vs: seq<string>, gaps: seq<nat>): seq<Event>
    requires |vs| == |gaps| + 1
    decreases |gaps|
  {
    if gaps == [] then [NewValue(vs[0])]
    else [NewValue(vs[0]), Wait(gaps[0])] + Burst(vs[1..], gaps[1..])
  }

  /**
   * A burst of values, each following the previous by less than `Delay`,
   * and then a pause of at least `Delay`: the debounced value is updated
   * exactly once, to the last value of the burst.
   */
  lemma {:induction false} BurstSettlesOnLast(d: DebounceState, vs: seq<string>, gaps: seq<nat>, pause: nat)
    requires Valid(d)
    requires |vs| == |gaps| + 1
    requires forall i :: 0 <= i < |gaps| ==> gaps[i] < Delay
    requires pause >= Delay
    ensures Run(d, Burst(vs, gaps) + [Wait(pause)]) == Trace(DebounceState(vs[|vs| - 1], None), [vs[|vs| - 1]])
    decreases |gaps|
  {
    var events := Burst(vs, gaps) + [Wait(pause)];
    var d1 := Change(d, vs[0]);
    if gaps == [] {
      assert events == [NewValue(vs[0]), Wait(pause)];
      assert events[1..] == [Wait(pause)];
      assert events[1..][1..] == [];
      var d2 := Elapse(d1, pause);
      assert Run(d2, []) == Trace(d2, []);
      assert Run(d1, events[1..]) == Trace(d2, [vs[0]]);
    } else {
      var rest := Burst(vs[1..], gaps[1..]) + [Wait(pause)];
      assert events == [NewValue(vs[0]), Wait(gaps[0])] + rest;
      assert events[1..] == [Wait(gaps[0])] + rest;
      assert events[1..][1..] == rest;
      var d2 := Elapse(d1, gaps[0]);
      assert Fired(d1, gaps[0]) == None;
      BurstSettlesOnLast(d2, vs[1..], gaps[1..], pause);
      assert vs[1..][|vs[1..]| - 1] == vs[|vs| - 1];
      assert Run(d1, events[1..]) == Run(d2, rest);
    }
  }

  /** The debounced value as the session keeps it: the state of `useDebounce` and its pending timer handle. */
  class Debouncer {
    var current: string
    var pending: Option<Timer>

    ghost function State(): DebounceState
      reads this
    {
      DebounceState(current, pending)
    }

    constructor (v: string)
      ensures State() == Init(v)
    {
      current := v;
      pending := Some(Timer(v, Delay));
    }

    /** The value changed: cancel the pending timer and start a new one. */
    method Restart(v: string)
      modifies this
      ensures State() == Change(old(State()), v)
      ensures current == old(current)
    {
      pending := Some(Timer(v, Delay));
    }

    /** `dt` time units pass; `fired` is the value a firing timer delivered. */
    method Advance(dt: nat) returns (fired: Option<string>)
      requires Valid(State())
      modifies this
      ensures State() == Elapse(old(State()), dt)
      ensures fired == Fired(old(State()), dt)
      ensures fired.Some? ==> current == fired.value && pending == None
      ensures fired.None? ==> current == old(current)
    {
      fired := None;
      if pending.Some? {
        var t := pending.value;
        if dt >= t.remaining {
          fired := Some(t.value);
          current := t.value;
          pending := None;
        } else {
          pending := Some(Timer(t.value, t.remaining - dt));
        }
      }
    }
  }
}
