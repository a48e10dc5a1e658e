/**
 The events of a turn, what is wanted of them, and a monitor that accepts only what is wanted.
 */
module TurnEvents {
  import opened Wrappers

  datatype Status = Success | Failed(code: Code) | Interrupted

  datatype Code =
    | VisionUnavailable | ContextBudgetExceeded | ProviderFailed | ToolLimitReached
    | ImageInspectFailed | IterationLimitReached | RuntimeFailed | Cancellation

  /** What a turn reports.  `Exhausted` is not delivered to the client: it records where the tool
      budget was marked as used up. */
  datatype Event =
    | Delta(request: nat, attempt: nat, text: string)
    | Started(id: string)
    | Done(id: string)
    | Finished(status: Status)
    | Exhausted
    | Report

  // ---- what is wanted of the events ------------------------------------------------------

  function StartCount(events: seq<Event>): (n: nat)
    ensures n <= |events|
  {
    if events == [] then 0
    else StartCount(events[..|events| - 1]) + if events[|events| - 1].Started? then 1 else 0
  }

  /** Nothing follows a terminal event. */
  ghost predicate TerminalLast(events: seq<Event>) {
    forall i :: 0 <= i < |events| - 1 ==> !events[i].Finished?
  }

  ghost predicate Terminated(events: seq<Event>) {
    events != [] && events[|events| - 1].Finished?
  }


  /** Each start is directly followed by its finish, under the same id if the tools `echo` ids;
      cancelling the asyncio task may cut off the last call. */
  ghost predicate Paired(events: seq<Event>, cut: bool, echo: bool) {
    && (forall i, j :: 0 <= i < j < |events| && j == i + 1 && events[i].Started? ==>
          Ends(events[i], events[j], cut, echo))
    && (cut || events == [] || !events[|events| - 1].Started?)
  }

  predicate Ends(start: Event, e: Event, cut: bool, echo: bool)
    requires start.Started?
  {
    (e.Done? && (echo ==> e.id == start.id)) || (cut && e.Finished?)
  }

  predicate SameRequest(a: Event, b: Event) {
    a.Delta? && b.Delta? && a.request == b.request
  }

  /** No model request delivers output from two attempts. */
  ghost predicate OneAttempt(events: seq<Event>) {
    forall i, j :: 0 <= i < |events| && 0 <= j < |events| && SameRequest(events[i], events[j]) ==>
      events[i].attempt == events[j].attempt
  }

  ghost predicate NoStartAfterExhausted(events: seq<Event>) {
    forall i, j :: 0 <= i < j < |events| && events[i].Exhausted? ==> !events[j].Started?
  }

  ghost predicate SafeEvents(events: seq<Event>, cut: bool, echo: bool, max: nat) {
    && TerminalLast(events) && Paired(events, cut, echo) && OneAttempt(events) && NoStartAfterExhausted(events)
    && StartCount(events) <= max
  }

  // ---- a monitor -------------------------------------------------------------------------

  /** A monitor that follows the events one by one and gives up at the first bad one. */
  datatype Monitor = Monitor(starts: nat, calling: bool, id: string, echoed: bool, ended: bool, marked: bool,
                             request: nat, attempt: nat)
  {
    ghost function Observe(e: Event, max: nat): Option<Monitor> {
      if ended || (calling && !e.Done? && !e.Finished?) then None
      else
        match e
        case Started(x) => if starts < max && !marked then Some(this.(starts := starts + 1, calling := true,
            id := x)) else None
        case Done(x) => if calling then Some(this.(calling := false, echoed := echoed && x == id)) else None
        case Finished(_) => Some(this.(ended := true))
        case Exhausted => Some(this.(marked := true))
        case Delta(r, a, _) =>
          if r > request then Some(this.(request := r, attempt := a))
          else if r == request && a == attempt then Some(this) else None
        case Report => Some(this)
    }
  }

  /** The events of a turn, in the order in which they are reported. */
  datatype Log = Empty | Then(before: Log, event: Event)
  {
    function Events(): seq<Event> {
      match this
      case Empty => []
      case Then(before, event) => before.Events() + [event]
    }
  }

  predicate Completed(log: Log) {
    log.Then? && log.event.Finished? && log.event.status.Success?
  }

  /** The ids of the calls that were started. */
  function StartsOf(log: Log): seq<string> {
    match log
    case Empty => []
    case Then(before, event) => if event.Started? then StartsOf(before) + [event.id] else StartsOf(before)
  }

  ghost function Watch(log: Log, max: nat): Option<Monitor> {
    match log
    case Empty => Some(Monitor(0, false, "", true, false, false, 0, 0))
    case Then(before, event) =>
      var m := Watch(before, max);
      if m.None? then None else m.value.Observe(event, max)
  }

  /** What the monitor's state says about the events it has accepted: the end, the calls, the
      budget mark and the model requests. */
  ghost predicate Means(m: Monitor, events: seq<Event>, max: nat) {
    EndMeans(m, events) && CallsMean(m, events, max) && MarkMeans(m, events) && RequestsMean(m, events)
  }

  ghost predicate EndMeans(m: Monitor, events: seq<Event>) {
    TerminalLast(events) && (m.ended <==> Terminated(events))
  }

  ghost predicate CallsMean(m: Monitor, events: seq<Event>, max: nat) {
    && Paired(events, m.calling, m.echoed) && m.starts == StartCount(events) <= max
    && (events != [] && events[|events| - 1].Started? ==> m.calling)
    && (m.calling ==> m.ended || (events != [] && events[|events| - 1] == Started(m.id)))
  }

  ghost predicate MarkMeans(m: Monitor, events: seq<Event>) {
    NoStartAfterExhausted(events) && forall i :: 0 <= i < |events| && events[i].Exhausted? ==> m.marked
  }

  ghost predicate RequestsMean(m: Monitor, events: seq<Event>) {
    && OneAttempt(events)
    && forall i :: 0 <= i < |events| && events[i].Delta? ==>
         events[i].request <= m.request && (events[i].request == m.request ==> events[i].attempt == m.attempt)
  }

  lemma EndNext(m: Monitor, events: seq<Event>, e: Event, max: nat)
    requires EndMeans(m, events) && m.Observe(e, max).Some?
    ensures EndMeans(m.Observe(e, max).value, events + [e])
  {
  }

  lemma CallsNext(m: Monitor, events: seq<Event>, e: Event, max: nat)
    requires CallsMean(m, events, max) && EndMeans(m, events) && m.Observe(e, max).Some?
    ensures CallsMean(m.Observe(e, max).value, events + [e], max)
  {
    var out, after := events + [e], m.Observe(e, max).value;
    assert out[..|events|] == events;
    forall i, j | 0 <= i < j < |out| && j == i + 1 && out[i].Started?
      ensures Ends(out[i], out[j], after.calling, after.echoed)
    {
      if j < |events| {
        assert out[i] == events[i] && out[j] == events[j];
      }
    }
  }

  lemma MarkNext(m: Monitor, events: seq<Event>, e: Event, max: nat)
    requires MarkMeans(m, events) && m.Observe(e, max).Some?
    ensures MarkMeans(m.Observe(e, max).value, events + [e])
  {
  }

  lemma RequestsNext(m: Monitor, events: seq<Event>, e: Event, max: nat)
    requires RequestsMean(m, events) && m.Observe(e, max).Some?
    ensures RequestsMean(m.Observe(e, max).value, events + [e])
  {
  }

  /** Every log the monitor accepts is safe. */
  lemma {:induction false} MonitorSound(log: Log, max: nat)
    requires Watch(log, max).Some?
    ensures Means(Watch(log, max).value, log.Events(), max)
  {
    if log.Then? {
      MonitorSound(log.before, max);
      var m, events := Watch(log.before, max).value, log.before.Events();
      EndNext(m, events, log.event, max);
      CallsNext(m, events, log.event, max);
      MarkNext(m, events, log.event, max);
      RequestsNext(m, events, log.event, max);
    }
  }

  lemma AcceptedSafe(log: Log, cut: bool, echo: bool, max: nat)
    requires Watch(log, max).Some? && (Watch(log, max).value.calling ==> cut) && (echo ==> Watch(log, max).value.echoed)
    ensures SafeEvents(log.Events(), cut, echo, max)
    ensures Watch(log, max).value.ended <==> Terminated(log.Events())
  {
    MonitorSound(log, max);
  }
}
