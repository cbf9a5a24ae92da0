/**
 * The QPU abstraction: a finite-state machine whose transition table is the
 * sole authority on whether a change of state is legal.
 */
module Fsm {
  import opened Common
  import opened Errors
  import opened State

  /** The ten events that can trigger a transition. */
  datatype QPUEvent =
    | Connect
    | Disconnect
    | DeviceOk
    | DeviceFail
    | TuneSuccess
    | TuneFail
    | TaskStarted
    | TaskFinished
    | FidelityDegraded
    | Reset

  /** The string value of each event (the enum is a `str` enum). */
  function EventValue(e: QPUEvent): string
  {
    match e
    case Connect => "connect"
    case Disconnect => "disconnect"
    case DeviceOk => "device_ok"
    case DeviceFail => "device_fail"
    case TuneSuccess => "tune_success"
    case TuneFail => "tune_fail"
    case TaskStarted => "task_started"
    case TaskFinished => "task_finished"
    case FidelityDegraded => "fidelity_degraded"
    case Reset => "reset"
  }

  /**
   * The transition table: the next state, or `None` when the pair is not listed.
   * No pair leads back to its own state; `NextStateMatchesTable` ties it to `Table`.
   */
  function NextState(s: QPUState, e: QPUEvent): (r: Option<QPUState>)
    ensures r.Some? ==> r.value != s
  {
    match (s, e)
    case (Inaccessible, Connect) => Some(Accessible)
    case (Accessible, DeviceOk) => Some(Responsive)
    case (Accessible, DeviceFail) => Some(Unresponsive)
    case (Responsive, TuneSuccess) => Some(Tuned)
    case (Responsive, TuneFail) => Some(Mistuned)
    case (Tuned, FidelityDegraded) => Some(Mistuned)
    case (Mistuned, TuneSuccess) => Some(Tuned)
    case (Tuned, Reset) => Some(Idle)
    case (Idle, TaskStarted) => Some(Busy)
    case (Busy, TaskFinished) => Some(Idle)
    case (Unresponsive, Disconnect) => Some(Inaccessible)
    case _ => None
  }

  /** The error an unlisted event raises; its message names the event. */
  function InvalidTransition(e: QPUEvent): (f: Failure)
    ensures f.UnknownQPUState? && f.detail == EventValue(e)
    ensures Contains(UnknownQPUStateMessage(f.detail), EventValue(e))
  {
    UnknownQPUState(EventValue(e))
  }

  /** The audit record of the last successful transition, `prev --(event)--> next`. */
  datatype TransitionRecord = TransitionRecord(prev: QPUState, event: QPUEvent, next: QPUState)

  /** The table written out as data: eleven (from, event, to) triples. */
  const Table: seq<(QPUState, QPUEvent, QPUState)> := [
    (Inaccessible, Connect, Accessible),
    (Accessible, DeviceOk, Responsive),
    (Accessible, DeviceFail, Unresponsive),
    (Responsive, TuneSuccess, Tuned),
    (Responsive, TuneFail, Mistuned),
    (Tuned, FidelityDegraded, Mistuned),
    (Mistuned, TuneSuccess, Tuned),
    (Tuned, Reset, Idle),
    (Idle, TaskStarted, Busy),
    (Busy, TaskFinished, Idle),
    (Unresponsive, Disconnect, Inaccessible)
  ]

  /** The states passed through when `events` are applied in order from `s`; `None` once one is unlisted. */
  function Trace(s: QPUState, events: seq<QPUEvent>): Option<seq<QPUState>>
    decreases |events|
  {
    if events == [] then Some([])
    else
      var next := NextState(s, events[0]);
      if next.None? then None
      else
        var rest := Trace(next.value, events[1..]);
        if rest.None? then None else Some([next.value] + rest.value)
  }

  /**
   * `NextState` defines a successor for exactly the eleven pairs of `Table`,
   * no pair is listed twice, and every other pair has none.
   */
  lemma NextStateMatchesTable(s: QPUState, e: QPUEvent)
    ensures |Table| == 11
    ensures forall i, j :: 0 <= i < j < |Table| ==> (Table[i].0, Table[i].1) != (Table[j].0, Table[j].1)
    ensures forall t :: NextState(s, e) == Some(t) <==> (s, e, t) in Table
    ensures NextState(s, e).None? <==> forall i :: 0 <= i < |Table| ==> (Table[i].0, Table[i].1) != (s, e)
  {
    TableKeysDistinct();
    forall t
      ensures NextState(s, e) == Some(t) <==> (s, e, t) in Table
    {
      NextStateListed(s, e, t);
    }
    NextStateUnlisted(s, e);
  }

  /** A successor is defined exactly for the triples of `Table`. */
  lemma NextStateListed(s: QPUState, e: QPUEvent, t: QPUState)
    ensures NextState(s, e) == Some(t) <==> (s, e, t) in Table
  {
  }

  /** No successor is defined for a pair that `Table` does not list. */
  lemma NextStateUnlisted(s: QPUState, e: QPUEvent)
    ensures NextState(s, e).None? <==> forall i :: 0 <= i < |Table| ==> (Table[i].0, Table[i].1) != (s, e)
  {
    if NextState(s, e).Some? {
      NextStateListed(s, e, NextState(s, e).value);
      var i :| 0 <= i < |Table| && Table[i] == (s, e, NextState(s, e).value);
    } else {
      forall i | 0 <= i < |Table|
        ensures (Table[i].0, Table[i].1) != (s, e)
      {
        NextStateListed(s, e, Table[i].2);
      }
    }
  }

  /** No (state, event) pair is listed twice. */
  lemma TableKeysDistinct()
    ensures |Table| == 11
    ensures forall i, j :: 0 <= i < j < |Table| ==> (Table[i].0, Table[i].1) != (Table[j].0, Table[j].1)
  {
  }

  /** BUSY is entered only from IDLE on TASK_STARTED; its one exit is TASK_FINISHED back to IDLE. */
  lemma BusyOnlyAroundTask(s: QPUState, e: QPUEvent)
    ensures NextState(s, e) == Some(Busy) <==> s == Idle && e == TaskStarted
    ensures NextState(Busy, e).Some? <==> e == TaskFinished
    ensures NextState(Busy, TaskFinished) == Some(Idle)
  {
  }

  /** IDLE is entered only from TUNED on RESET or from BUSY on TASK_FINISHED. */
  lemma IdleEntries(s: QPUState, e: QPUEvent)
    ensures NextState(s, e) == Some(Idle) <==> (s == Tuned && e == Reset) || (s == Busy && e == TaskFinished)
  {
  }

  /** Once IDLE or BUSY, no event leads anywhere but IDLE or BUSY. */
  lemma WorkingStatesClosed(s: QPUState, e: QPUEvent)
    requires s == Idle || s == Busy
    requires NextState(s, e).Some?
    ensures NextState(s, e).value == Idle || NextState(s, e).value == Busy
  {
  }

  /** The commands a control task issues are all unlisted from IDLE. */
  lemma ControlEventsRejectedWhenIdle()
    ensures NextState(Idle, Reset).None?
    ensures NextState(Idle, TuneSuccess).None?
    ensures NextState(Idle, TuneFail).None?
  {
  }

  /** No state is a dead end: each has an event with a defined successor. */
  lemma NoDeadEnd(s: QPUState)
    ensures exists e :: NextState(s, e).Some?
  {
    match s
    case Inaccessible => assert NextState(s, Connect).Some?;
    case Accessible => assert NextState(s, DeviceOk).Some?;
    case Responsive => assert NextState(s, TuneSuccess).Some?;
    case Unresponsive => assert NextState(s, Disconnect).Some?;
    case Tuned => assert NextState(s, Reset).Some?;
    case Mistuned => assert NextState(s, TuneSuccess).Some?;
    case Idle => assert NextState(s, TaskStarted).Some?;
    case Busy => assert NextState(s, TaskFinished).Some?;
  }

  /** The start-up sequence walks the evidence chain from INACCESSIBLE to a finished task. */
  lemma StartupSequence()
    ensures Trace(Inaccessible, [Connect, DeviceOk, TuneSuccess, Reset, TaskStarted, TaskFinished])
         == Some([Accessible, Responsive, Tuned, Idle, Busy, Idle])
  {
    var e3 := [Reset, TaskStarted, TaskFinished];
    StartupTail();
    var e2 := [TuneSuccess] + e3;
    assert e2[1..] == e3 && [Idle] + [Busy, Idle] == [Idle, Busy, Idle];
    TraceStep(Responsive, e2, Tuned, [Idle, Busy, Idle]);
    var e1 := [DeviceOk] + e2;
    assert e1[1..] == e2 && [Tuned] + [Idle, Busy, Idle] == [Tuned, Idle, Busy, Idle];
    TraceStep(Accessible, e1, Responsive, [Tuned, Idle, Busy, Idle]);
    var e0 := [Connect] + e1;
    assert e0[1..] == e1 && [Responsive] + [Tuned, Idle, Busy, Idle] == [Responsive, Tuned, Idle, Busy, Idle];
    TraceStep(Inaccessible, e0, Accessible, [Responsive, Tuned, Idle, Busy, Idle]);
    assert e0 == [Connect, DeviceOk, TuneSuccess, Reset, TaskStarted, TaskFinished];
    assert [Accessible] + [Responsive, Tuned, Idle, Busy, Idle] == [Accessible, Responsive, Tuned, Idle, Busy, Idle];
  }

  /** The last three steps of the startup sequence: a reset from TUNED, then one task. */
  lemma StartupTail()
    ensures Trace(Tuned, [Reset, TaskStarted, TaskFinished]) == Some([Idle, Busy, Idle])
  {
    var e5 := [TaskFinished];
    TraceStep(Busy, e5, Idle, []);
    var e4 := [TaskStarted] + e5;
    assert e4[1..] == e5 && [Idle] + [] == [Idle];
    TraceStep(Idle, e4, Busy, [Idle]);
    var e3 := [Reset] + e4;
    assert e3[1..] == e4 && [Busy] + [Idle] == [Busy, Idle];
    TraceStep(Tuned, e3, Idle, [Busy, Idle]);
    assert e3 == [Reset, TaskStarted, TaskFinished];
    assert [Idle] + [Busy, Idle] == [Idle, Busy, Idle];
  }

  /** A listed first transition extends the trace of the remaining events by its target state. */
  lemma TraceStep(s: QPUState, events: seq<QPUEvent>, t: QPUState, states: seq<QPUState>)
    requires events != [] && NextState(s, events[0]) == Some(t) && Trace(t, events[1..]) == Some(states)
    ensures Trace(s, events) == Some([t] + states)
  {
  }

  /** The machine itself: the current state and the audit record of the last transition. */
  class QPUAbstraction {
    var state: QPUState
    var lastTransition: Option<TransitionRecord>

    /** A fresh machine assumes the worst: INACCESSIBLE, with nothing recorded yet. */
    constructor ()
      ensures state == Inaccessible && lastTransition == None
    {
      state := Inaccessible;
      lastTransition := None;
    }

    /**
     * Apply `event`. A listed pair moves to its successor and overwrites the
     * audit record; an unlisted pair raises `UnknownQPUState` naming the event
     * and changes nothing.
     */
    method Transition(event: QPUEvent) returns (r: Outcome<()>)
      modifies this
      ensures NextState(old(state), event).Some? ==>
        r == Returned(()) && state == NextState(old(state), event).value &&
        lastTransition == Some(TransitionRecord(old(state), event, state))
      ensures NextState(old(state), event).None? ==>
        r == Raised(InvalidTransition(event)) && state == old(state) && lastTransition == old(lastTransition)
    {
      var prev := state;
      var next := NextState(state, event);
      if next.None? {
        r := Raised(InvalidTransition(event));
      } else {
        state := next.value;
        lastTransition := Some(TransitionRecord(prev, event, next.value));
        r := Returned(());
      }
    }
  }
}
