/** One turn of a conversation (backend/services/conversation/chat.py, `generate`, `_generate`,
    `_complete`, `_fail`): what is saved, billed and published when any operation on the way may fail.
    The task is not cancelled; a failed operation has had no effect. */
module ChatTurn {
  import opened Gateway
  import Tokens

  /** What becomes of one operation that can fail. */
  datatype Fault = Fine | FromProvider(retryable: bool) | Other

  datatype Event =
    | Meta
    | Chunk(text: string)
    | UsageEvent(usage: Usage)
    | ToolEvent(name: string)
    | Citations
    | DoneEvent(reason: string)
    | ErrorEvent(code: string, retryable: bool)

  datatype Status = Streaming | Completed | Interrupted | Failed

  datatype Row = Row(status: Status, content: string, usage: Option<Usage>, model: string)

  /** What a turn does to the world, one entry an effect. */
  datatype Effect = Out(event: Event) | RowSaved | UsageRecorded | TokensSettled | SlotReturned

  /** `clock` counts the fallible operations, `trace` is the history of their effects; `raised` is the
      exception in flight. */
  datatype Turn = Turn(clock: nat, events: seq<Event>, row: Row, persists: nat, settled: seq<Option<Usage>>,
                       billed: seq<Usage>, slots: nat, trace: seq<Effect>, raised: Fault)

  /** The world around a turn: the fate of each operation, when a stop is looked for (by delta) and found,
      whether the turn retrieved context, and the cost of its prompt. */
  datatype Env = Env(faults: nat -> Fault, polls: nat -> bool, stops: nat -> bool, retrieved: bool, promptTokens: nat,
                     model: string)

  /** What the loop has gathered. */
  datatype Work = Work(text: string, usage: Option<Usage>, model: string, prepared: bool)

  function Try(env: Env, t: Turn): Turn {
    if t.raised != Fine then t else t.(clock := t.clock + 1, raised := env.faults(t.clock))
  }

  function Append(env: Env, t: Turn, e: Event): Turn {
    var u := Try(env, t);
    if u.raised == Fine then u.(events := u.events + [e], trace := u.trace + [Out(e)]) else u
  }

  function Save(env: Env, t: Turn, row: Row): Turn {
    var u := Try(env, t);
    if u.raised == Fine then u.(row := row, persists := u.persists + 1, trace := u.trace + [RowSaved]) else u
  }

  function Bill(env: Env, t: Turn, usage: Option<Usage>): Turn {
    if usage.None? then t
    else
      var u := Try(env, t);
      if u.raised == Fine then u.(billed := u.billed + [usage.value], trace := u.trace + [UsageRecorded]) else u
  }

  function Settle(env: Env, t: Turn, usage: Option<Usage>): Turn {
    var u := Try(env, t);
    if u.raised == Fine then u.(settled := u.settled + [usage], trace := u.trace + [TokensSettled]) else u
  }

  /** What follows a saved row; whatever fails in it is swallowed. */
  function Finish(env: Env, t: Turn, usage: Option<Usage>, bill: bool, cited: bool, last: Event): Turn {
    var a := if bill then Bill(env, t, usage) else t;
    var b := Settle(env, a, usage);
    var c := if cited then Append(env, b, Citations) else b;
    var d := Append(env, c, last);
    Try(env, d).(raised := Fine)
  }

  /** `_complete` and `_fail`: citations and trace, the row, then the rest. */
  function Close(env: Env, t: Turn, row: Row, bill: bool, cited: bool, last: Event): Turn {
    var saved := Save(env, Try(env, t), row);
    if saved.raised == Fine then Finish(env, saved, row.usage, bill, cited, last) else saved
  }

  function Complete(env: Env, t: Turn, w: Work, status: Status, usage: Option<Usage>, reason: string): Turn {
    Close(env, t, Row(status, w.text, usage, w.model), true, w.prepared && env.retrieved, DoneEvent(reason))
  }

  function Fail(env: Env, t: Turn, w: Work, status: Status, code: string, retryable: bool): Turn {
    Close(env, t, Row(status, w.text, w.usage, w.model), false, w.prepared && env.retrieved, ErrorEvent(code, retryable))
  }

  /** A stop comes before the provider's usage, so it is estimated, unless nothing was produced. */
  function StopUsage(env: Env, w: Work): Option<Usage> {
    if w.usage.Some? then w.usage
    else if w.text == "" then None
    else Some(Usage(env.promptTokens, Tokens.EstimateTokens(w.text), w.model, true))
  }

  function Gather(w: Work, d: Delta): Work {
    match d
    case Text(text) => w.(text := w.text + text)
    case Used(usage) => w.(usage := Some(usage), model := if usage.model != "" then usage.model else w.model)
    case _ => w
  }

  function EventOf(d: Delta): Event
    requires !Terminal(d)
  {
    match d
    case Text(text) => Chunk(text)
    case Used(usage) => UsageEvent(usage)
    case Tool(name) => ToolEvent(name)
  }

  /** Leaving the block around the stream closes what is still open of it; a failure to do so takes the
      place of the exception in flight. Where nothing is open the operation is one that does not fail. */
  function Leave(env: Env, t: Turn): Turn {
    var u := Try(env, t.(raised := Fine));
    if u.raised == Fine then u.(raised := t.raised) else u
  }

  /** Looking for a stop before the i-th delta. */
  function Poll(env: Env, t: Turn, i: nat): Turn {
    if env.polls(i) then Try(env, t) else t
  }

  predicate Stopped(env: Env, i: nat) {
    env.polls(i) && env.stops(i)
  }

  /** The delta is read and passed on, and the loop goes on. */
  predicate Relays(env: Env, t: Turn, d: Delta, i: nat) {
    var polled := Poll(env, t, i);
    polled.raised == Fine && !Stopped(env, i) && !Terminal(d) && Append(env, polled, EventOf(d)).raised == Fine
  }

  /** A stop closes the stream before it closes the turn. */
  function Stop(env: Env, t: Turn, w: Work): Turn {
    var closed := Try(env, t);
    if closed.raised != Fine then closed else Complete(env, closed, w, Status.Interrupted, StopUsage(env, w), "stopped")
  }

  /** How the loop is left at a delta it does not pass on; behind an error delta nothing is open. */
  function LeaveAt(env: Env, t: Turn, w: Work, d: Delta, i: nat): (Turn, Work) {
    var polled := Poll(env, t, i);
    if polled.raised != Fine then (Leave(env, polled), w)
    else if Stopped(env, i) then (Stop(env, polled, w), w)
    else if d.Error? then (Fail(env, polled, w, Status.Interrupted, "STREAM_INTERRUPTED", true), w)
    else if d.Done? then (Leave(env, Complete(env, polled, w, Completed, w.usage, d.reason)), w)
    else (Leave(env, Append(env, polled, EventOf(d))), Gather(w, d))
  }

  /** The loop over the gateway's deltas, from the i-th on. */
  function Loop(env: Env, t: Turn, w: Work, deltas: seq<Delta>, i: nat): (Turn, Work)
    requires i <= |deltas|
    decreases |deltas| - i
  {
    if i == |deltas| then (t, w)
    else if Relays(env, t, deltas[i], i) then
      Loop(env, Append(env, Poll(env, t, i), EventOf(deltas[i])), Gather(w, deltas[i]), deltas, i + 1)
    else LeaveAt(env, t, w, deltas[i], i)
  }

  function Begin(env: Env, t: Turn): Turn {
    Try(env, Append(env, t, Meta))
  }

  /** The body of the `try` in `_generate`: the request, the opening event, the gateway, which is built on
      first use, and the loop. */
  function Body(env: Env, t: Turn, stream: Result): (Turn, Work) {
    var w := Work("", None, env.model, false);
    var composed := Try(env, t);
    if composed.raised != Fine then (composed, w)
    else
      var w1 := w.(prepared := true);
      var begun := Begin(env, composed);
      if begun.raised != Fine then (begun, w1)
      else if stream.Raised? then (begun.(raised := FromProvider(stream.error.retryable)), w1)
      else Loop(env, begun, w1, stream.out, 0)
  }

  /** `_generate` with its `except` clauses. */
  function Produce(env: Env, t: Turn, stream: Result): Turn {
    var (u, w) := Body(env, t, stream);
    match u.raised
    case Fine => u
    case FromProvider(retryable) => Fail(env, u.(raised := Fine), w, Status.Failed, "PROVIDER_ERROR", retryable)
    case Other => Fail(env, u.(raised := Fine), w, Status.Failed, "INTERNAL_ERROR", true)
  }

  /** The `finally` of `generate`: an exception of its own takes the place of the one in flight. */
  function Release(env: Env, t: Turn): Turn {
    var u := Try(env, t.(raised := Fine));
    if u.raised == Fine then u.(slots := u.slots + 1, trace := u.trace + [SlotReturned], raised := t.raised) else u
  }

  /** `generate`. */
  function Generate(env: Env, t: Turn, stream: Result): Turn {
    Release(env, Produce(env, t, stream))
  }

  // ---- Once only ----

  predicate Ends(e: Event) {
    e.DoneEvent? || e.ErrorEvent?
  }

  predicate Calm(events: seq<Event>) {
    forall e :: e in events ==> !Ends(e) && e != Citations
  }

  /** At most one terminal event, at the end; at most one citations event, in front of it or at the end. */
  predicate Tidy(events: seq<Event>) {
    var n := |events|;
    if n > 0 && Ends(events[n - 1]) then
      Calm(if n > 1 && events[n - 2] == Citations then events[..n - 2] else events[..n - 1])
    else if n > 0 && events[n - 1] == Citations then Calm(events[..n - 1])
    else Calm(events)
  }

  /** The place of an effect in a turn. */
  function Place(e: Effect): nat {
    match e
    case Out(event) => if Ends(event) then 5 else if event == Citations then 4 else 0
    case RowSaved => 1
    case UsageRecorded => 2
    case TokensSettled => 3
    case SlotReturned => 6
  }

  predicate Precedes(a: Effect, b: Effect) {
    Place(a) < Place(b) || Place(a) == 0 == Place(b)
  }

  /** The answer's own events; then the row, its bill, its settlement, its citations and its terminal event,
      each once at most and none without the row; then the slot. */
  predicate InOrder(trace: seq<Effect>) {
    && (forall i, j :: 0 <= i < j < |trace| ==> Precedes(trace[i], trace[j]))
    && (forall e :: e in trace && 1 < Place(e) < 6 ==> RowSaved in trace)
  }

  predicate UpTo(trace: seq<Effect>, n: nat) {
    forall e :: e in trace ==> Place(e) <= n
  }

  function Outs(trace: seq<Effect>): seq<Event> {
    if trace == [] then []
    else
      var e := trace[|trace| - 1];
      Outs(trace[..|trace| - 1]) + (if e.Out? then [e.event] else [])
  }

  predicate Tells(trace: seq<Effect>, events: seq<Event>, saved: bool, billed: bool, settled: bool) {
    && Outs(trace) == events && (RowSaved in trace <==> saved)
    && (UsageRecorded in trace <==> billed) && (TokensSettled in trace <==> settled)
  }

  /** The history is the history of this turn, and in order. */
  predicate Ordered(t: Turn) {
    InOrder(t.trace) && Tells(t.trace, t.events, t.persists > 0, t.billed != [], t.settled != [])
  }

  /** Nothing saved, settled, billed or announced as over. */
  predicate Open(t: Turn) {
    && t.persists == 0 && t.settled == [] && t.billed == [] && t.row.status == Streaming && Calm(t.events)
    && Ordered(t)
  }

  /** Saved once; then, as far as nothing failed, billed, settled and published, in that order. */
  predicate Closed(t: Turn) {
    && t.persists == 1 && t.row.status != Streaming
    && (t.billed == [] || (t.row.usage.Some? && t.billed == [t.row.usage.value]))
    && (t.settled == [] || t.settled == [t.row.usage])
    && Tidy(t.events) && (t.settled == [] ==> Calm(t.events))
    && Ordered(t)
  }

  /** Before the close. */
  predicate Going(t: Turn) {
    Open(t) && UpTo(t.trace, 0)
  }

  predicate AtStart(t: Turn) {
    Open(t) && t.trace == [] && t.raised == Fine
  }

  lemma NextInOrder(trace: seq<Effect>, n: nat, e: Effect)
    requires InOrder(trace) && UpTo(trace, n) && (n < Place(e) || n == 0 == Place(e))
    requires 1 < Place(e) < 6 ==> RowSaved in trace
    ensures InOrder(trace + [e]) && UpTo(trace + [e], Place(e))
  {
    var after := trace + [e];
    forall i, j | 0 <= i < j < |after| ensures Precedes(after[i], after[j]) {
      assert i < |trace| && after[i] == trace[i] && trace[i] in trace;
    }
  }

  lemma NextTells(trace: seq<Effect>, e: Effect, events: seq<Event>, saved: bool, billed: bool, settled: bool)
    requires Tells(trace, events, saved, billed, settled)
    ensures Tells(trace + [e], if e.Out? then events + [e.event] else events, saved || e == RowSaved,
                  billed || e == UsageRecorded, settled || e == TokensSettled)
  {
    assert (trace + [e])[..|trace + [e]| - 1] == trace;
    assert forall x :: x in trace + [e] <==> x in trace || x == e;
  }

  /** One more effect, in its place. */
  lemma Next(t: Turn, n: nat, e: Effect)
    requires Ordered(t) && UpTo(t.trace, n) && (n < Place(e) || n == 0 == Place(e))
    requires 1 < Place(e) < 6 ==> t.persists > 0
    ensures var after := t.trace + [e];
            && InOrder(after) && UpTo(after, Place(e)) && UpTo(t.trace, Place(e))
            && Tells(after, if e.Out? then t.events + [e.event] else t.events, t.persists > 0 || e == RowSaved,
                     t.billed != [] || e == UsageRecorded, t.settled != [] || e == TokensSettled)
  {
    NextInOrder(t.trace, n, e);
    NextTells(t.trace, e, t.events, t.persists > 0, t.billed != [], t.settled != []);
  }

  lemma NextEvent(env: Env, t: Turn, e: Event, n: nat)
    requires Ordered(t) && UpTo(t.trace, n) && (n < Place(Out(e)) || n == 0 == Place(Out(e)))
    requires Place(Out(e)) > 0 ==> t.persists > 0
    ensures Ordered(Append(env, t, e)) && UpTo(Append(env, t, e).trace, Place(Out(e)))
  {
    var u := Append(env, t, e);
    if Try(env, t).raised == Fine {
      Next(t, n, Out(e));
      assert u.trace == t.trace + [Out(e)] && u.events == t.events + [e];
    } else {
      assert u.trace == t.trace && u.events == t.events;
      assert forall x :: x in t.trace ==> Place(x) <= Place(Out(e));
    }
  }

  lemma NextIsRow(env: Env, t: Turn, row: Row)
    requires Ordered(t) && UpTo(t.trace, 0)
    ensures Ordered(Save(env, t, row)) && UpTo(Save(env, t, row).trace, 1)
  {
    Next(t, 0, RowSaved);
  }

  lemma NextIsBill(env: Env, t: Turn, usage: Option<Usage>)
    requires Ordered(t) && UpTo(t.trace, 1) && t.persists > 0
    ensures Ordered(Bill(env, t, usage)) && UpTo(Bill(env, t, usage).trace, 2)
  {
    Next(t, 1, UsageRecorded);
  }

  lemma NextIsSettlement(env: Env, t: Turn, usage: Option<Usage>)
    requires Ordered(t) && UpTo(t.trace, 2) && t.persists > 0
    ensures Ordered(Settle(env, t, usage)) && UpTo(Settle(env, t, usage).trace, 3)
  {
    Next(t, 2, TokensSettled);
  }

  lemma NextIsSlot(env: Env, t: Turn)
    requires Ordered(t) && UpTo(t.trace, 5)
    ensures Ordered(Release(env, t))
  {
    Next(t, 5, SlotReturned);
  }

  function Delivered(events: seq<Event>): string {
    if events == [] then ""
    else Delivered(events[..|events| - 1]) + (if events[|events| - 1].Chunk? then events[|events| - 1].text else "")
  }

  lemma DeliveredSnoc(events: seq<Event>, e: Event)
    ensures Delivered(events + [e]) == Delivered(events) + (if e.Chunk? then e.text else "")
  {
    assert (events + [e])[..|events + [e]| - 1] == events;
  }

  function FullText(deltas: seq<Delta>, i: nat): string
    requires i <= |deltas|
  {
    if i == 0 then "" else FullText(deltas, i - 1) + (if deltas[i - 1].Text? then deltas[i - 1].text else "")
  }

  predicate Added(before: seq<Event>, events: seq<Event>, last: Event) {
    events == before || events == before + [Citations] || events == before + [last] || events == before + [Citations] + [last]
  }

  lemma AddedIsTidy(before: seq<Event>, events: seq<Event>, last: Event)
    requires Calm(before) && Ends(last) && Added(before, events, last)
    ensures Tidy(events) && Delivered(events) == Delivered(before)
    ensures events != [] && Ends(events[|events| - 1]) ==> events[|events| - 1] == last
  {
    if events == before {
      assert before != [] ==> before[|before| - 1] in before;
    } else if events == before + [Citations] {
      DeliveredSnoc(before, Citations);
      assert events[..|events| - 1] == before;
    } else if events == before + [last] {
      DeliveredSnoc(before, last);
      assert events[..|events| - 1] == before;
      assert before != [] ==> before[|before| - 1] in before;
    } else {
      DeliveredSnoc(before, Citations);
      DeliveredSnoc(before + [Citations], last);
      assert events[..|events| - 2] == before;
    }
  }

  lemma FinishMoney(env: Env, t: Turn, usage: Option<Usage>, bill: bool, b: Turn)
    requires t.raised == Fine && t.settled == [] && t.billed == []
    requires b == Settle(env, if bill then Bill(env, t, usage) else t, usage)
    requires Ordered(t) && UpTo(t.trace, 1) && t.persists > 0
    ensures b == t.(clock := b.clock, raised := b.raised, settled := b.settled, billed := b.billed, trace := b.trace)
    ensures b.settled == if b.raised == Fine then [usage] else []
    ensures b.billed == [] || (bill && usage.Some? && b.billed == [usage.value])
    ensures Ordered(b) && UpTo(b.trace, 3)
  {
    NextIsBill(env, t, usage);
    NextIsSettlement(env, if bill then Bill(env, t, usage) else t, usage);
  }

  lemma FinishEvents(env: Env, b: Turn, cited: bool, last: Event, u: Turn)
    requires u == Try(env, Append(env, if cited then Append(env, b, Citations) else b, last)).(raised := Fine)
    ensures u == b.(clock := u.clock, raised := Fine, events := u.events, trace := u.trace)
    ensures Added(b.events, u.events, last) && (b.raised != Fine ==> u.events == b.events)
  {}

  lemma FinishOrder(env: Env, b: Turn, cited: bool, last: Event, u: Turn)
    requires u == Try(env, Append(env, if cited then Append(env, b, Citations) else b, last)).(raised := Fine)
    requires Ordered(b) && UpTo(b.trace, 3) && b.persists > 0 && Ends(last)
    ensures Ordered(u) && UpTo(u.trace, 5)
  {
    if cited {
      NextEvent(env, b, Citations, 3);
      NextEvent(env, Append(env, b, Citations), last, 4);
    } else {
      NextEvent(env, b, last, 3);
    }
  }

  /** Closing either changes nothing but the clock and raises, or saves the row it was given. */
  lemma CloseMeaning(env: Env, t: Turn, row: Row, bill: bool, cited: bool, last: Event)
    requires Going(t) && t.raised == Fine && row.status != Streaming && Ends(last)
    ensures var u := Close(env, t, row, bill, cited, last);
            && u.slots == t.slots && Delivered(u.events) == Delivered(t.events) && UpTo(u.trace, 5)
            && (!bill ==> u.billed == [])
            && (if u.raised == Fine then Closed(u) && u.row == row
                else u == t.(clock := u.clock, raised := u.raised))
            && (u.raised == Fine && u.events != [] && Ends(u.events[|u.events| - 1]) ==> u.events[|u.events| - 1] == last)
  {
    var saved := Save(env, Try(env, t), row);
    NextIsRow(env, Try(env, t), row);
    if saved.raised == Fine {
      var b := Settle(env, if bill then Bill(env, saved, row.usage) else saved, row.usage);
      FinishMoney(env, saved, row.usage, bill, b);
      var u := Finish(env, saved, row.usage, bill, cited, last);
      FinishEvents(env, b, cited, last, u);
      FinishOrder(env, b, cited, last, u);
      AddedIsTidy(t.events, u.events, last);
    }
  }

  /** The next n operations succeed. */
  predicate Works(env: Env, clock: nat, n: nat) {
    n == 0 || (Works(env, clock, n - 1) && env.faults(clock + n - 1) == Fine)
  }

  lemma SaveExactly(env: Env, t: Turn, row: Row)
    requires t.raised == Fine
    ensures var u := Save(env, Try(env, t), row);
            if Works(env, t.clock, 2) then u == t.(clock := t.clock + 2, row := row, persists := t.persists + 1, trace := t.trace + [RowSaved])
            else u.raised != Fine && u == t.(clock := u.clock, raised := u.raised)
  {
    assert Works(env, t.clock, 0);
    assert Works(env, t.clock, 1) <==> env.faults(t.clock) == Fine;
  }

  /** Everything up to the n-th operation behind the clock c has succeeded, and nothing behind it was tried. */
  predicate Through(env: Env, c: nat, n: nat, u: Turn) {
    if Works(env, c, n) then u.raised == Fine && u.clock == c + n else u.raised != Fine
  }

  lemma MoneyExactly(env: Env, c: nat, n: nat, t: Turn, usage: Option<Usage>, bill: bool)
    requires Through(env, c, n, t)
    ensures var u := Settle(env, if bill then Bill(env, t, usage) else t, usage);
            var m := if bill && usage.Some? then n + 2 else n + 1;
            && Through(env, c, m, u) && u.events == t.events && u.row == t.row && u.persists == t.persists
            && u.billed == (if bill && usage.Some? && Works(env, c, n + 1) then t.billed + [usage.value] else t.billed)
            && u.settled == (if Works(env, c, m) then t.settled + [usage] else t.settled)
  {
    if !Works(env, c, n) {
      NoMore(env, c, n, n + 1);
      NoMore(env, c, n, n + 2);
    } else if !Works(env, c, n + 1) {
      NoMore(env, c, n + 1, n + 2);
    }
  }

  lemma EventExactly(env: Env, c: nat, n: nat, t: Turn, e: Event)
    requires Through(env, c, n, t)
    ensures var u := Append(env, t, e);
            && Through(env, c, n + 1, u) && u.events == (if Works(env, c, n + 1) then t.events + [e] else t.events)
            && u.row == t.row && u.persists == t.persists && u.billed == t.billed && u.settled == t.settled
  {}

  /** A close, operation by operation: the trace, the save, the bill of a reported usage, the settlement, the
      citations, the terminal event. Each has its effect exactly when it and all before it succeed; the close
      raises exactly when one of the first two fails. */
  lemma CloseExactly(env: Env, t: Turn, row: Row, bill: bool, cited: bool, last: Event)
    requires t.raised == Fine
    ensures var u, c := Close(env, t, row, bill, cited, last), t.clock;
            var settling := if bill && row.usage.Some? then 4 else 3;
            var ending := if cited then settling + 2 else settling + 1;
            && (u.raised == Fine <==> Works(env, c, 2))
            && u.row == (if Works(env, c, 2) then row else t.row) && u.persists == t.persists + (if Works(env, c, 2) then 1 else 0)
            && u.billed == (if bill && row.usage.Some? && Works(env, c, 3) then t.billed + [row.usage.value] else t.billed)
            && u.settled == (if Works(env, c, settling) then t.settled + [row.usage] else t.settled)
            && u.events == t.events + (if cited && Works(env, c, settling + 1) then [Citations] else [])
                                    + (if Works(env, c, ending) then [last] else [])
  {
    var saved, c := Save(env, Try(env, t), row), t.clock;
    var settling := if bill && row.usage.Some? then 4 else 3;
    SaveExactly(env, t, row);
    if Works(env, c, 2) {
      MoneyExactly(env, c, 2, saved, row.usage, bill);
      var b := Settle(env, if bill then Bill(env, saved, row.usage) else saved, row.usage);
      if cited {
        EventExactly(env, c, settling, b, Citations);
        EventExactly(env, c, settling + 1, Append(env, b, Citations), last);
      } else {
        EventExactly(env, c, settling, b, last);
      }
    } else {
      NoMore(env, c, 2, 3);
      NoMore(env, c, 2, settling);
      NoMore(env, c, 2, settling + 1);
      NoMore(env, c, 2, settling + 2);
    }
  }

  lemma {:induction false} NoMore(env: Env, c: nat, n: nat, m: nat)
    requires n <= m && !Works(env, c, n)
    ensures !Works(env, c, m)
  {
    if n < m {
      NoMore(env, c, n, m - 1);
    }
  }

  /** Where the loop stands: what was published is a prefix of what was gathered, itself the text of the
      deltas read so far. */
  predicate Along(t: Turn, w: Work, deltas: seq<Delta>, i: nat) {
    && i <= |deltas| && Going(t)
    && Delivered(t.events) <= w.text == FullText(deltas, i)
  }

  /** The terminal event that goes with a saved status. */
  predicate Announces(status: Status, e: Event, deltas: seq<Delta>) {
    match status
    case Completed => deltas != [] && deltas[|deltas| - 1].Done? && e == DoneEvent(deltas[|deltas| - 1].reason)
    case Interrupted => e == DoneEvent("stopped") || e == ErrorEvent("STREAM_INTERRUPTED", true)
    case Failed => e.ErrorEvent?
    case Streaming => false
  }

  /** How a turn that saved its row relates to the stream. */
  predicate Faithful(t: Turn, deltas: seq<Delta>) {
    && Delivered(t.events) <= t.row.content
    && (exists n: nat :: n <= |deltas| && t.row.content == FullText(deltas, n))
    && (t.events != [] && Ends(t.events[|t.events| - 1]) ==> Announces(t.row.status, t.events[|t.events| - 1], deltas))
    && (t.row.status == Completed ==>
          deltas != [] && deltas[|deltas| - 1].Done? &&
          Delivered(t.events) == t.row.content == FullText(deltas, |deltas|))
  }

  /** Saved, as it should be, with the slot still out. */
  predicate Finished(t: Turn, deltas: seq<Delta>) {
    Closed(t) && Faithful(t, deltas) && UpTo(t.trace, 5)
  }

  ghost predicate Interrupts(t: Turn, w: Work, deltas: seq<Delta>) {
    exists n: nat :: Along(t, w, deltas, n)
  }

  lemma GatherText(w: Work, deltas: seq<Delta>, i: nat)
    requires i < |deltas| && w.text == FullText(deltas, i)
    ensures Gather(w, deltas[i]).text == FullText(deltas, i + 1)
  {}

  /** Closing from inside the loop. */
  lemma EndHere(env: Env, t: Turn, w: Work, deltas: seq<Delta>, i: nat, row: Row, bill: bool, last: Event)
    requires i < |deltas| && Along(t, w, deltas, i) && Delivered(t.events) == w.text && t.raised == Fine
    requires row.content == w.text && row.status != Streaming && Ends(last)
    requires Announces(row.status, last, deltas) && (row.status == Completed ==> i == |deltas| - 1)
    ensures var u := Close(env, t, row, bill, w.prepared && env.retrieved, last);
            u.slots == t.slots && if u.raised == Fine then Finished(u, deltas) else Interrupts(u, w, deltas)
  {
    CloseMeaning(env, t, row, bill, w.prepared && env.retrieved, last);
    var u := Close(env, t, row, bill, w.prepared && env.retrieved, last);
    if u.raised == Fine {
      SavedFaithfully(u, deltas, i, last);
    } else {
      assert Along(u, w, deltas, i);
    }
  }

  lemma SavedFaithfully(u: Turn, deltas: seq<Delta>, i: nat, last: Event)
    requires i < |deltas| && u.row.content == FullText(deltas, i) && Delivered(u.events) == u.row.content
    requires Announces(u.row.status, last, deltas) && (u.row.status == Completed ==> i == |deltas| - 1)
    requires u.events != [] && Ends(u.events[|u.events| - 1]) ==> u.events[|u.events| - 1] == last
    ensures Faithful(u, deltas)
  {
    if u.row.status == Completed {
      assert FullText(deltas, i + 1) == FullText(deltas, i);
    }
  }

  /** The delta is a done, its close saves the row, and closing the stream then fails. */
  predicate LostHere(env: Env, t: Turn, w: Work, d: Delta, i: nat) {
    var polled := Poll(env, t, i);
    && polled.raised == Fine && !Stopped(env, i) && d.Done?
    && env.faults(polled.clock) == Fine && env.faults(polled.clock + 1) == Fine
    && env.faults(Complete(env, polled, w, Completed, w.usage, d.reason).clock) != Fine
  }

  /** The loop comes to such a done. */
  predicate LostAt(env: Env, t: Turn, w: Work, deltas: seq<Delta>, i: nat)
    requires i <= |deltas|
    decreases |deltas| - i
  {
    && i < |deltas|
    && if Relays(env, t, deltas[i], i) then
         LostAt(env, Append(env, Poll(env, t, i), EventOf(deltas[i])), Gather(w, deltas[i]), deltas, i + 1)
       else LostHere(env, t, w, deltas[i], i)
  }

  /** How the loop is left: closed, or with an exception and nothing saved; when the stream's close is
      lost, with an exception although all is saved. */
  ghost predicate LeftAs(u: Turn, w: Work, deltas: seq<Delta>, lost: bool) {
    if lost then u.raised != Fine && Finished(u, deltas) && u.row == Row(Completed, w.text, w.usage, w.model)
    else if u.raised == Fine then Finished(u, deltas)
    else Interrupts(u, w, deltas)
  }

  lemma LeaveInterrupts(env: Env, u: Turn, w: Work, deltas: seq<Delta>)
    requires u.raised != Fine && Interrupts(u, w, deltas)
    ensures LeftAs(Leave(env, u), w, deltas, false) && Leave(env, u).slots == u.slots
  {
    var n: nat :| Along(u, w, deltas, n);
    assert Along(Leave(env, u), w, deltas, n);
  }

  lemma LeaveFinished(env: Env, u: Turn, w: Work, deltas: seq<Delta>)
    requires u.raised == Fine && Finished(u, deltas) && u.row == Row(Completed, w.text, w.usage, w.model)
    ensures LeftAs(Leave(env, u), w, deltas, env.faults(u.clock) != Fine) && Leave(env, u).slots == u.slots
  {
    assert Leave(env, u) == u.(clock := u.clock + 1, raised := env.faults(u.clock));
  }

  lemma DoneHere(env: Env, t: Turn, w: Work, deltas: seq<Delta>, i: nat)
    requires WellEnded(deltas) && i < |deltas| && deltas[i].Done? && Along(t, w, deltas, i) && Delivered(t.events) == w.text && t.raised == Fine
    ensures var closed := Complete(env, t, w, Completed, w.usage, deltas[i].reason);
            var lost := env.faults(t.clock) == Fine && env.faults(t.clock + 1) == Fine && env.faults(closed.clock) != Fine;
            LeftAs(Leave(env, closed), w, deltas, lost) && Leave(env, closed).slots == t.slots
  {
    var closed := Complete(env, t, w, Completed, w.usage, deltas[i].reason);
    EndHere(env, t, w, deltas, i, Row(Completed, w.text, w.usage, w.model), true, DoneEvent(deltas[i].reason));
    CloseRaises(env, t, Row(Completed, w.text, w.usage, w.model), true, w.prepared && env.retrieved, DoneEvent(deltas[i].reason));
    if closed.raised == Fine {
      LeaveFinished(env, closed, w, deltas);
    } else {
      LeaveInterrupts(env, closed, w, deltas);
    }
  }

  lemma CloseRaises(env: Env, t: Turn, row: Row, bill: bool, cited: bool, last: Event)
    requires t.raised == Fine
    ensures var u := Close(env, t, row, bill, cited, last);
            && (u.raised == Fine <==> env.faults(t.clock) == Fine && env.faults(t.clock + 1) == Fine)
            && (u.raised == Fine ==> u.row == row)
  {}

  lemma StopHere(env: Env, t: Turn, w: Work, deltas: seq<Delta>, i: nat)
    requires i < |deltas| && Along(t, w, deltas, i) && Delivered(t.events) == w.text && t.raised == Fine
    ensures Stop(env, t, w).slots == t.slots && LeftAs(Stop(env, t, w), w, deltas, false)
  {
    var closed := Try(env, t);
    assert Along(closed, w, deltas, i);
    if closed.raised == Fine {
      EndHere(env, closed, w, deltas, i, Row(Status.Interrupted, w.text, StopUsage(env, w), w.model), true, DoneEvent("stopped"));
    }
  }

  lemma LeaveHere(env: Env, t: Turn, w: Work, deltas: seq<Delta>, i: nat)
    requires WellEnded(deltas) && i < |deltas| && Along(t, w, deltas, i) && t.raised == Fine
    requires Delivered(t.events) == w.text && !Relays(env, t, deltas[i], i)
    ensures var (u, w1) := LeaveAt(env, t, w, deltas[i], i);
            u.slots == t.slots && LeftAs(u, w1, deltas, LostHere(env, t, w, deltas[i], i))
  {
    var polled := Poll(env, t, i);
    assert Along(polled, w, deltas, i);
    if polled.raised != Fine {
      LeaveInterrupts(env, polled, w, deltas);
    } else if Stopped(env, i) {
      StopHere(env, polled, w, deltas, i);
    } else if deltas[i].Error? {
      EndHere(env, polled, w, deltas, i, Row(Status.Interrupted, w.text, w.usage, w.model), false, ErrorEvent("STREAM_INTERRUPTED", true));
    } else if deltas[i].Done? {
      DoneHere(env, polled, w, deltas, i);
    } else {
      RelayHere(env, polled, w, deltas, i);
      LeaveInterrupts(env, Append(env, polled, EventOf(deltas[i])), Gather(w, deltas[i]), deltas);
    }
  }

  /** In front of the i-th delta, with all that was read before passed on. */
  predicate AtDelta(t: Turn, w: Work, deltas: seq<Delta>, i: nat) {
    Along(t, w, deltas, i) && t.raised == Fine && Delivered(t.events) == w.text
  }

  lemma RelaysAlong(env: Env, t: Turn, w: Work, deltas: seq<Delta>, i: nat)
    requires i < |deltas| && AtDelta(t, w, deltas, i) && Relays(env, t, deltas[i], i)
    ensures var next := Append(env, Poll(env, t, i), EventOf(deltas[i]));
            AtDelta(next, Gather(w, deltas[i]), deltas, i + 1) && next.slots == t.slots
  {
    var polled := Poll(env, t, i);
    assert Along(polled, w, deltas, i);
    RelayHere(env, polled, w, deltas, i);
  }

  /** The loop gets to a delta it does not pass on, with all it has gathered before. */
  lemma {:induction false} LoopReaches(env: Env, t: Turn, w: Work, deltas: seq<Delta>, i: nat) returns (t1: Turn, w1: Work, n: nat)
    requires WellEnded(deltas) && i < |deltas| && AtDelta(t, w, deltas, i)
    ensures n < |deltas| && AtDelta(t1, w1, deltas, n) && t1.slots == t.slots
    ensures !Relays(env, t1, deltas[n], n) && Loop(env, t, w, deltas, i) == LeaveAt(env, t1, w1, deltas[n], n)
    ensures LostAt(env, t, w, deltas, i) == LostHere(env, t1, w1, deltas[n], n)
    decreases |deltas| - i
  {
    if !Relays(env, t, deltas[i], i) {
      return t, w, i;
    }
    RelaysAlong(env, t, w, deltas, i);
    t1, w1, n := LoopReaches(env, Append(env, Poll(env, t, i), EventOf(deltas[i])), Gather(w, deltas[i]), deltas, i + 1);
  }

  lemma LoopMeaning(env: Env, t: Turn, w: Work, deltas: seq<Delta>, i: nat)
    requires WellEnded(deltas) && i < |deltas| && Along(t, w, deltas, i) && t.raised == Fine
    requires Delivered(t.events) == w.text
    ensures var (u, w1) := Loop(env, t, w, deltas, i);
            u.slots == t.slots && LeftAs(u, w1, deltas, LostAt(env, t, w, deltas, i))
  {
    var t1, w1, n := LoopReaches(env, t, w, deltas, i);
    LeaveHere(env, t1, w1, deltas, n);
  }

  lemma RelayHere(env: Env, t: Turn, w: Work, deltas: seq<Delta>, i: nat)
    requires i < |deltas| && !Terminal(deltas[i]) && Along(t, w, deltas, i) && t.raised == Fine && Delivered(t.events) == w.text
    ensures var u := Append(env, t, EventOf(deltas[i]));
            && Along(u, Gather(w, deltas[i]), deltas, i + 1) && u.slots == t.slots
            && (u.raised == Fine ==> Delivered(u.events) == Gather(w, deltas[i]).text)
  {
    GatherText(w, deltas, i);
    DeliveredSnoc(t.events, EventOf(deltas[i]));
    NextEvent(env, t, EventOf(deltas[i]), 0);
  }

  function Deltas(stream: Result): seq<Delta> {
    if stream.Yielded? then stream.out else []
  }

  /** A turn that has not read a delta yet. */
  lemma NothingRead(t: Turn, w: Work, deltas: seq<Delta>)
    requires Going(t) && Delivered(t.events) == "" && w.text == ""
    ensures Along(t, w, deltas, 0) && Interrupts(t, w, deltas)
  {
    assert Along(t, w, deltas, 0);
  }

  /** The close of the stream is lost in this turn. */
  predicate CloseLost(env: Env, t: Turn, stream: Result) {
    var begun := Begin(env, Try(env, t));
    begun.raised == Fine && stream.Yielded? && LostAt(env, begun, Work("", None, env.model, true), stream.out, 0)
  }

  lemma BeginMeaning(env: Env, t: Turn)
    requires Going(t) && t.events == []
    ensures var u := Begin(env, t); u.slots == t.slots && Going(u) && Delivered(u.events) == ""
  {
    DeliveredSnoc(t.events, Meta);
    NextEvent(env, t, Meta, 0);
  }

  lemma BodyMeaning(env: Env, t: Turn, stream: Result)
    requires AtStart(t) && (stream.Yielded? ==> WellEnded(stream.out))
    ensures var (u, w) := Body(env, t, stream);
            u.slots == t.slots && LeftAs(u, w, Deltas(stream), CloseLost(env, t, stream))
  {
    var w := Work("", None, env.model, false);
    var w1 := w.(prepared := true);
    var composed := Try(env, t);
    var begun := Begin(env, composed);
    BeginMeaning(env, composed);
    NothingRead(composed, w, Deltas(stream));
    NothingRead(begun, w1, Deltas(stream));
    if composed.raised == Fine && begun.raised == Fine {
      if stream.Raised? {
        NothingRead(begun.(raised := FromProvider(stream.error.retryable)), w1, []);
      } else {
        LoopMeaning(env, begun, w1, stream.out, 0);
      }
    }
  }

  /** The last resort, from wherever the body was left. */
  lemma FailHere(env: Env, t: Turn, w: Work, deltas: seq<Delta>, code: string, retryable: bool)
    requires Interrupts(t, w, deltas)
    ensures var u := Fail(env, t.(raised := Fine), w, Status.Failed, code, retryable);
            u.slots == t.slots && if u.raised == Fine then Finished(u, deltas) else Going(u)
  {
    var n: nat :| Along(t, w, deltas, n);
    CloseMeaning(env, t.(raised := Fine), Row(Status.Failed, w.text, w.usage, w.model), false,
                 w.prepared && env.retrieved, ErrorEvent(code, retryable));
    var u := Fail(env, t.(raised := Fine), w, Status.Failed, code, retryable);
    if u.raised == Fine {
      assert u.row.content == FullText(deltas, n);
    }
  }

  // ---- A second close ----

  /** The same turn with nothing done yet. */
  function Blank(t: Turn): Turn {
    t.(events := [], row := Row(Streaming, "", None, ""), persists := 0, settled := [], billed := [], trace := [], raised := Fine)
  }

  /** The effects of `v` behind those of `t`. */
  function Follow(t: Turn, v: Turn): Turn {
    v.(events := t.events + v.events, row := if v.persists > 0 then v.row else t.row, persists := t.persists + v.persists,
       settled := t.settled + v.settled, billed := t.billed + v.billed, trace := t.trace + v.trace)
  }

  lemma FollowBlank(t: Turn)
    ensures Follow(t, Blank(t)) == t.(raised := Fine)
  {}

  lemma FollowTry(env: Env, t: Turn, v: Turn)
    ensures Try(env, Follow(t, v)) == Follow(t, Try(env, v))
  {}

  lemma FollowAppend(env: Env, t: Turn, v: Turn, e: Event)
    ensures Append(env, Follow(t, v), e) == Follow(t, Append(env, v, e))
  {
    assert t.events + v.events + [e] == t.events + (v.events + [e]);
    assert t.trace + v.trace + [Out(e)] == t.trace + (v.trace + [Out(e)]);
  }

  lemma FollowSave(env: Env, t: Turn, v: Turn, row: Row)
    ensures Save(env, Follow(t, v), row) == Follow(t, Save(env, v, row))
  {
    assert t.trace + v.trace + [RowSaved] == t.trace + (v.trace + [RowSaved]);
  }

  lemma FollowSettle(env: Env, t: Turn, v: Turn, usage: Option<Usage>)
    ensures Settle(env, Follow(t, v), usage) == Follow(t, Settle(env, v, usage))
  {
    assert t.settled + v.settled + [usage] == t.settled + (v.settled + [usage]);
    assert t.trace + v.trace + [TokensSettled] == t.trace + (v.trace + [TokensSettled]);
  }

  lemma FollowRelease(env: Env, t: Turn, v: Turn)
    ensures Release(env, Follow(t, v)) == Follow(t, Release(env, v))
  {
    assert t.trace + v.trace + [SlotReturned] == t.trace + (v.trace + [SlotReturned]);
  }

  lemma FollowFinish(env: Env, t: Turn, v: Turn, usage: Option<Usage>, cited: bool, last: Event)
    ensures Finish(env, Follow(t, v), usage, false, cited, last) == Follow(t, Finish(env, v, usage, false, cited, last))
  {
    var b := Settle(env, v, usage);
    FollowSettle(env, t, v, usage);
    FollowAppend(env, t, b, Citations);
    FollowAppend(env, t, if cited then Append(env, b, Citations) else b, last);
  }

  /** What a failed row's close does does not depend on what was done before. */
  lemma FollowClose(env: Env, t: Turn, v: Turn, row: Row, cited: bool, last: Event)
    ensures Close(env, Follow(t, v), row, false, cited, last) == Follow(t, Close(env, v, row, false, cited, last))
  {
    var saved := Save(env, Try(env, v), row);
    FollowTry(env, t, v);
    FollowSave(env, t, Try(env, v), row);
    if saved.raised == Fine {
      FollowFinish(env, t, saved, row.usage, cited, last);
    }
  }

  /** A close of its own that turns a completed row into a failed one. */
  predicate FailsAgain(first: Turn, v: Turn) {
    && Closed(v) && v.row == first.row.(status := Status.Failed) && v.billed == [] && Delivered(v.events) == ""
    && (v.events != [] && Ends(v.events[|v.events| - 1]) ==> v.events[|v.events| - 1].ErrorEvent?)
  }

  /** The turn was completed, in order and faithfully, and then closed a second time as failed. */
  ghost predicate EndedTwice(t: Turn, deltas: seq<Delta>) {
    exists first, v ::
      Closed(first) && Faithful(first, deltas) && first.row.status == Completed && FailsAgain(first, v) && t == Follow(first, v)
  }

  /** What the handler does with a row that is saved already: nothing but raise, or a second close. */
  lemma FailAgain(env: Env, u: Turn, w: Work, code: string, retryable: bool)
    requires u.row == Row(Completed, w.text, w.usage, w.model)
    ensures var v := Fail(env, Blank(u), w, Status.Failed, code, retryable);
            && Fail(env, u.(raised := Fine), w, Status.Failed, code, retryable) == Follow(u, v) && v.slots == u.slots && UpTo(v.trace, 5)
            && (if v.raised == Fine then FailsAgain(u, v) else v == Blank(u).(clock := v.clock, raised := v.raised))
  {
    var row, cited, last := Row(Status.Failed, w.text, w.usage, w.model), w.prepared && env.retrieved, ErrorEvent(code, retryable);
    FollowBlank(u);
    FollowClose(env, u, Blank(u), row, cited, last);
    CloseMeaning(env, Blank(u), row, false, cited, last);
  }

  // ---- The turn ----

  /** The body leaves with an exception, and the two operations that end in the failed row, the trace and
      the save, do not both succeed. */
  predicate SaveLost(env: Env, t: Turn, stream: Result) {
    var u := Body(env, t, stream).0;
    u.raised != Fine && (env.faults(u.clock) != Fine || env.faults(u.clock + 1) != Fine)
  }

  /** The operation that returns the slot fails. */
  predicate SlotLost(env: Env, t: Turn, stream: Result) {
    env.faults(Produce(env, t, stream).clock) != Fine
  }

  /** Closing the stream behind a saved done fails, and the operations that save the row as failed succeed. */
  predicate SavedTwice(env: Env, t: Turn, stream: Result) {
    CloseLost(env, t, stream) && !SaveLost(env, t, stream)
  }

  /** Saved once and ended in order, or nothing saved at all. */
  ghost predicate EndedOnce(t: Turn, deltas: seq<Delta>) {
    if t.persists > 0 then Closed(t) && Faithful(t, deltas) else Open(t)
  }

  lemma HandledOnce(env: Env, t: Turn, stream: Result)
    requires AtStart(t) && (stream.Yielded? ==> WellEnded(stream.out)) && !CloseLost(env, t, stream)
    ensures var p := Produce(env, t, stream);
            p.slots == t.slots && if p.raised == Fine then Finished(p, Deltas(stream)) else Going(p)
  {
    BodyMeaning(env, t, stream);
    var (u, w) := Body(env, t, stream);
    match u.raised
    case Fine =>
    case FromProvider(retryable) => FailHere(env, u, w, Deltas(stream), "PROVIDER_ERROR", retryable);
    case Other => FailHere(env, u, w, Deltas(stream), "INTERNAL_ERROR", true);
  }

  lemma HandledAgain(env: Env, t: Turn, stream: Result) returns (first: Turn, v: Turn)
    requires AtStart(t) && (stream.Yielded? ==> WellEnded(stream.out)) && CloseLost(env, t, stream)
    ensures Finished(first, Deltas(stream)) && first.row.status == Completed && first.raised != Fine && v.slots == t.slots && UpTo(v.trace, 5)
    ensures Produce(env, t, stream) == Follow(first, v)
    ensures if v.raised == Fine then FailsAgain(first, v) else v == Blank(first).(clock := v.clock, raised := v.raised)
  {
    BodyMeaning(env, t, stream);
    var (u, w) := Body(env, t, stream);
    first := u;
    var code := if u.raised.FromProvider? then "PROVIDER_ERROR" else "INTERNAL_ERROR";
    var retryable := if u.raised.FromProvider? then u.raised.retryable else true;
    FailAgain(env, u, w, code, retryable);
    v := Fail(env, Blank(u), w, Status.Failed, code, retryable);
  }

  lemma LostExactly(env: Env, t: Turn, stream: Result)
    ensures Produce(env, t, stream).raised != Fine <==> SaveLost(env, t, stream)
  {}

  lemma ReleaseRaises(env: Env, t: Turn)
    ensures var u := Release(env, t);
            && u.slots == t.slots + (if env.faults(t.clock) == Fine then 1 else 0)
            && (u.raised == Fine <==> t.raised == Fine && env.faults(t.clock) == Fine)
            && u == t.(clock := u.clock, slots := u.slots, trace := u.trace, raised := u.raised)
            && u.trace == if u.slots > t.slots then t.trace + [SlotReturned] else t.trace
  {}

  lemma ReleaseOnce(env: Env, t: Turn, deltas: seq<Delta>)
    requires Finished(t, deltas) || (Going(t) && t.raised != Fine)
    ensures var u := Release(env, t);
            EndedOnce(u, deltas) && u.persists == t.persists == (if Finished(t, deltas) then 1 else 0)
  {
    NextIsSlot(env, t);
    ReleaseRaises(env, t);
  }

  lemma ReleaseTwice(env: Env, first: Turn, v: Turn, deltas: seq<Delta>)
    requires Finished(first, deltas) && first.row.status == Completed && FailsAgain(first, v) && UpTo(v.trace, 5)
    ensures EndedTwice(Release(env, Follow(first, v)), deltas) && Release(env, Follow(first, v)).persists == 2
    ensures Release(env, Follow(first, v)).row.status == Status.Failed
  {
    FollowRelease(env, first, v);
    NextIsSlot(env, v);
    ReleaseRaises(env, v);
    var v1 := Release(env, v);
    assert Closed(v1) && FailsAgain(first, v1);
  }

  /** Whatever fails, and wherever. In all turns but those that are saved twice the row is saved at most
      once, settled and billed at most once, with at most one terminal event, all in their order; what
      readers saw is a prefix of what was saved, and what was saved a prefix of what the gateway produced,
      all of it when the row says completed. A turn is saved twice exactly when closing the stream behind a
      saved done fails and the failed row can be saved: it then was completed, and is closed again as failed.
      The row is left unsaved exactly when the body raises with nothing saved and the operations that save
      it as failed do not succeed, the slot is returned exactly when that operation succeeds, and the turn
      raises exactly when either is lost. */
  lemma TurnEndsOnce(env: Env, t: Turn, stream: Result)
    requires AtStart(t) && (stream.Yielded? ==> WellEnded(stream.out))
    ensures var u, lost, twice := Generate(env, t, stream), SaveLost(env, t, stream), SavedTwice(env, t, stream);
            && (if twice then EndedTwice(u, Deltas(stream)) else EndedOnce(u, Deltas(stream)))
            && u.persists == (if twice then 2 else if lost && !CloseLost(env, t, stream) then 0 else 1)
            && (u.row.status == Streaming <==> u.persists == 0)
            && u.slots == t.slots + (if SlotLost(env, t, stream) then 0 else 1)
            && (u.raised != Fine <==> lost || SlotLost(env, t, stream))
  {
    var p := Produce(env, t, stream);
    LostExactly(env, t, stream);
    ReleaseRaises(env, p);
    if CloseLost(env, t, stream) {
      LostTurn(env, t, stream);
    } else {
      HandledOnce(env, t, stream);
      ReleaseOnce(env, p, Deltas(stream));
    }
  }

  lemma ReleaseCompleted(env: Env, first: Turn, v: Turn, deltas: seq<Delta>)
    requires Finished(first, deltas) && first.row.status == Completed && v == Blank(first).(clock := v.clock, raised := v.raised)
    ensures var u := Release(env, Follow(first, v)); EndedOnce(u, deltas) && u.persists == 1 && u.row.status == Completed
  {
    var p := Follow(first, v);
    assert p == first.(clock := v.clock, raised := v.raised);
    ReleaseOnce(env, p, deltas);
    ReleaseRaises(env, p);
  }

  lemma LostTurn(env: Env, t: Turn, stream: Result)
    requires AtStart(t) && (stream.Yielded? ==> WellEnded(stream.out)) && CloseLost(env, t, stream)
    ensures Produce(env, t, stream).slots == t.slots
    ensures var u := Generate(env, t, stream);
            && u.row.status in {Completed, Status.Failed}
            && (if SaveLost(env, t, stream) then EndedOnce(u, Deltas(stream)) && u.persists == 1
                else EndedTwice(u, Deltas(stream)) && u.persists == 2)
  {
    var first, v := HandledAgain(env, t, stream);
    LostExactly(env, t, stream);
    if v.raised == Fine {
      ReleaseTwice(env, first, v, Deltas(stream));
    } else {
      ReleaseCompleted(env, first, v, Deltas(stream));
    }
  }

  /** Gateway and turn together: for every provider and every failure, the gateway's stream is one the
      turn can end on. */
  lemma EveryTurnEndsOnce(env: Env, t: Turn, cfg: Config, provider: Provider)
    requires AtStart(t) && cfg.models != []
    ensures var stream := StreamChat(cfg, provider);
            var u := Generate(env, t, stream);
            && (if SavedTwice(env, t, stream) then EndedTwice(u, Deltas(stream)) else EndedOnce(u, Deltas(stream)))
            && (u.persists == 0 <==> SaveLost(env, t, stream) && !CloseLost(env, t, stream))
            && (u.raised != Fine <==> SaveLost(env, t, stream) || SlotLost(env, t, stream))
  {
    StreamsEndWell(cfg, provider);
    TurnEndsOnce(env, t, StreamChat(cfg, provider));
  }

  // ---- How much has to fail ----

  /** An exception in flight comes from an operation that failed. */
  lemma {:induction false} LoopFailed(env: Env, t: Turn, w: Work, deltas: seq<Delta>, i: nat) returns (m: nat)
    requires t.raised == Fine && i <= |deltas|
    ensures var u := Loop(env, t, w, deltas, i).0; u.raised != Fine ==> m < u.clock && env.faults(m) != Fine
    decreases |deltas| - i
  {
    m := 0;
    if i < |deltas| {
      if Relays(env, t, deltas[i], i) {
        m := LoopFailed(env, Append(env, Poll(env, t, i), EventOf(deltas[i])), Gather(w, deltas[i]), deltas, i + 1);
      } else {
        m := LeftFailed(env, t, w, deltas[i], i);
      }
    }
  }

  lemma LeftFailed(env: Env, t: Turn, w: Work, d: Delta, i: nat) returns (m: nat)
    requires t.raised == Fine
    ensures var u := LeaveAt(env, t, w, d, i).0; u.raised != Fine ==> m < u.clock && env.faults(m) != Fine
  {
    var polled := Poll(env, t, i);
    if polled.raised != Fine {
      m := LeaveFailed(env, polled);
    } else if Stopped(env, i) {
      m := CloseFailed(env, Try(env, polled), Row(Status.Interrupted, w.text, StopUsage(env, w), w.model), true,
                       w.prepared && env.retrieved, DoneEvent("stopped"));
    } else if d.Error? {
      m := CloseFailed(env, polled, Row(Status.Interrupted, w.text, w.usage, w.model), false, w.prepared && env.retrieved,
                       ErrorEvent("STREAM_INTERRUPTED", true));
    } else if d.Done? {
      m := DoneFailed(env, polled, w, d.reason);
    } else {
      m := LeaveFailed(env, Append(env, polled, EventOf(d)));
    }
  }

  lemma LeaveFailed(env: Env, t: Turn) returns (m: nat)
    requires t.raised != Fine ==> t.clock > 0 && env.faults(t.clock - 1) == t.raised
    ensures var u := Leave(env, t); u.raised != Fine ==> m < u.clock && env.faults(m) != Fine
  {
    m := if env.faults(t.clock) != Fine || t.clock == 0 then t.clock else t.clock - 1;
  }

  lemma CloseFailed(env: Env, t: Turn, row: Row, bill: bool, cited: bool, last: Event) returns (m: nat)
    requires t.raised != Fine ==> t.clock > 0 && env.faults(t.clock - 1) == t.raised
    ensures var u := if t.raised != Fine then t else Close(env, t, row, bill, cited, last);
            u.raised != Fine ==> m == u.clock - 1 && env.faults(m) == u.raised
  {
    var u := if t.raised != Fine then t else Close(env, t, row, bill, cited, last);
    m := if u.clock > 0 then u.clock - 1 else 0;
  }

  lemma DoneFailed(env: Env, t: Turn, w: Work, reason: string) returns (m: nat)
    requires t.raised == Fine
    ensures var u := Leave(env, Complete(env, t, w, Completed, w.usage, reason)); u.raised != Fine ==> m < u.clock && env.faults(m) != Fine
  {
    m := CloseFailed(env, t, Row(Completed, w.text, w.usage, w.model), true, w.prepared && env.retrieved, DoneEvent(reason));
    m := LeaveFailed(env, Complete(env, t, w, Completed, w.usage, reason));
  }

  /** One failing operation at most, a gateway that raises counting as one. */
  ghost predicate OneFailure(env: Env, stream: Result) {
    && (forall m: nat, n: nat :: env.faults(m) != Fine && env.faults(n) != Fine ==> m == n)
    && (stream.Raised? ==> forall n: nat :: env.faults(n) == Fine)
  }

  /** One failure never costs the row and leaves the turn only as the failure to return the slot. It is
      absorbed, except when it is the close of a stream that is done: that alone is enough to save a
      completed turn a second time, as failed. */
  lemma OneFailureIsAbsorbed(env: Env, t: Turn, stream: Result)
    requires AtStart(t) && (stream.Yielded? ==> WellEnded(stream.out)) && OneFailure(env, stream)
    ensures var u := Generate(env, t, stream);
            && (if CloseLost(env, t, stream) then EndedTwice(u, Deltas(stream)) && u.persists == 2
                else EndedOnce(u, Deltas(stream)) && u.persists == 1)
            && (u.raised != Fine <==> SlotLost(env, t, stream))
  {
    OneFailureIsSaved(env, t, stream);
    TurnEndsOnce(env, t, stream);
  }

  /** When composing the request is what fails, the turn is saved as failed and says so, with no text, no bill
      and no citations, for none were retrieved. */
  lemma ComposeFails(env: Env, t: Turn, stream: Result)
    requires AtStart(t) && env.faults(t.clock) != Fine && forall n: nat :: n != t.clock ==> env.faults(n) == Fine
    ensures var u, fault := Generate(env, t, stream), env.faults(t.clock);
            && u.raised == Fine && u.row == Row(Status.Failed, "", None, env.model) && u.persists == 1 && u.slots == t.slots + 1
            && u.billed == [] && u.settled == [None]
            && u.events == [if fault.FromProvider? then ErrorEvent("PROVIDER_ERROR", fault.retryable) else ErrorEvent("INTERNAL_ERROR", true)]
  {
    var failed := Try(env, t).(raised := Fine);
    var fault := env.faults(t.clock);
    var last := if fault.FromProvider? then ErrorEvent("PROVIDER_ERROR", fault.retryable) else ErrorEvent("INTERNAL_ERROR", true);
    var closed := Close(env, failed, Row(Status.Failed, "", None, env.model), false, false, last);
    assert Produce(env, t, stream) == closed;
    assert t.events == [];
    assert Works(env, failed.clock, 1) && Works(env, failed.clock, 2) && Works(env, failed.clock, 3) && Works(env, failed.clock, 4);
    CloseExactly(env, failed, Row(Status.Failed, "", None, env.model), false, false, last);
    ReleaseRaises(env, closed);
    CloseClock(env, failed, Row(Status.Failed, "", None, env.model), false, false, last);
  }

  lemma CloseClock(env: Env, t: Turn, row: Row, bill: bool, cited: bool, last: Event)
    requires t.raised == Fine
    ensures Close(env, t, row, bill, cited, last).clock > t.clock
    ensures Close(env, t, row, bill, cited, last).slots == t.slots
  {}

  lemma OneFailureIsSaved(env: Env, t: Turn, stream: Result)
    requires t.raised == Fine && OneFailure(env, stream)
    ensures !SaveLost(env, t, stream)
  {
    if stream.Yielded? {
      var m := BodyFailed(env, t, stream);
      var u := Body(env, t, stream).0;
      assert u.raised != Fine ==> env.faults(u.clock) == Fine && env.faults(u.clock + 1) == Fine;
    }
  }

  lemma BodyFailed(env: Env, t: Turn, stream: Result) returns (m: nat)
    requires t.raised == Fine && stream.Yielded?
    ensures var u := Body(env, t, stream).0; u.raised != Fine ==> m < u.clock && env.faults(m) != Fine
  {
    var begun := Begin(env, Try(env, t));
    if begun.raised == Fine {
      m := LoopFailed(env, begun, Work("", None, env.model, true), stream.out, 0);
    } else {
      m := begun.clock - 1;
    }
  }

  /** Two failures are enough: with the composing of the request and the save both failing the exception
      leaves and the row stays as it was. */
  lemma TwoFailuresRaise(env: Env, t: Turn, stream: Result)
    requires AtStart(t) && env.faults(t.clock) != Fine && env.faults(t.clock + 1) == Fine && env.faults(t.clock + 2) != Fine
    ensures SaveLost(env, t, stream) && Generate(env, t, stream).raised != Fine && Generate(env, t, stream).row == t.row
  {
    LostExactly(env, t, stream);
  }

  // ---- When nothing fails ----

  ghost predicate Smooth(env: Env) {
    forall n: nat :: env.faults(n) == Fine
  }

  /** The events of the first n deltas. */
  function Shown(deltas: seq<Delta>, n: nat): seq<Event>
    requires n <= |deltas|
  {
    if n == 0 then []
    else
      Shown(deltas, n - 1) +
      (match deltas[n - 1]
       case Text(text) => [Chunk(text)]
       case Used(usage) => [UsageEvent(usage)]
       case Tool(name) => [ToolEvent(name)]
       case _ => [])
  }

  /** The usage reported last among the first n deltas. */
  function LastUsage(deltas: seq<Delta>, n: nat): Option<Usage>
    requires n <= |deltas|
  {
    if n == 0 then None else if deltas[n - 1].Used? then Some(deltas[n - 1].usage) else LastUsage(deltas, n - 1)
  }

  /** The model named last among the first n deltas. */
  function LastModel(deltas: seq<Delta>, n: nat, asked: string): string
    requires n <= |deltas|
  {
    if n == 0 then asked
    else if deltas[n - 1].Used? && deltas[n - 1].usage.model != "" then deltas[n - 1].usage.model
    else LastModel(deltas, n - 1, asked)
  }

  function Ending(cited: bool, last: Event): seq<Event> {
    (if cited then [Citations] else []) + [last]
  }

  /** All of a closing: saved, billed if it is to be, settled, published. */
  predicate ClosedFully(t: Turn, u: Turn, row: Row, bill: bool, cited: bool, last: Event) {
    && u.raised == Fine && u.row == row && u.persists == t.persists + 1 && u.slots == t.slots
    && u.settled == t.settled + [row.usage]
    && u.billed == t.billed + (if bill && row.usage.Some? then [row.usage.value] else [])
    && u.events == t.events + Ending(cited, last)
  }

  lemma CloseSmooth(env: Env, t: Turn, row: Row, bill: bool, cited: bool, last: Event)
    requires Smooth(env) && t.raised == Fine
    ensures ClosedFully(t, Close(env, t, row, bill, cited, last), row, bill, cited, last)
  {
    assert t.events + [Citations] + [last] == t.events + ([Citations] + [last]);
    assert t.billed + [] == t.billed;
    assert [] + [last] == [last];
  }

  lemma LoopGoesOn(env: Env, t: Turn, w: Work, deltas: seq<Delta>, i: nat)
    requires t.raised == Fine && i < |deltas| && !Terminal(deltas[i]) && !env.polls(i) && env.faults(t.clock) == Fine
    ensures var next := Append(env, t, EventOf(deltas[i]));
            && next == t.(clock := t.clock + 1, events := t.events + [EventOf(deltas[i])], trace := t.trace + [Out(EventOf(deltas[i]))])
            && Loop(env, t, w, deltas, i) == Loop(env, next, Gather(w, deltas[i]), deltas, i + 1)
            && LostAt(env, t, w, deltas, i) == LostAt(env, next, Gather(w, deltas[i]), deltas, i + 1)
  {
    assert Relays(env, t, deltas[i], i);
  }

  /** After n deltas passed on: all of them are shown, and text, usage and model are those of the deltas. */
  predicate PassedOn(t: Turn, t1: Turn, w1: Work, deltas: seq<Delta>, n: nat, asked: string)
    requires n <= |deltas|
  {
    && t1 == t.(clock := t1.clock, events := t.events + Shown(deltas, n), trace := t1.trace)
    && w1 == Work(FullText(deltas, n), LastUsage(deltas, n), LastModel(deltas, n, asked), true)
  }

  lemma PassesOn(env: Env, t: Turn, t1: Turn, w1: Work, deltas: seq<Delta>, n: nat, asked: string)
    requires Smooth(env) && t.raised == Fine && n < |deltas| && !Stopped(env, n) && !Terminal(deltas[n])
    requires PassedOn(t, t1, w1, deltas, n, asked)
    ensures Relays(env, t1, deltas[n], n)
    ensures PassedOn(t, Append(env, Poll(env, t1, n), EventOf(deltas[n])), Gather(w1, deltas[n]), deltas, n + 1, asked)
  {
    assert t.events + Shown(deltas, n) + [EventOf(deltas[n])] == t.events + (Shown(deltas, n) + [EventOf(deltas[n])]);
  }

  lemma LoopRelays(env: Env, t: Turn, w: Work, deltas: seq<Delta>, i: nat)
    requires i < |deltas| && Relays(env, t, deltas[i], i)
    ensures Loop(env, t, w, deltas, i) ==
            Loop(env, Append(env, Poll(env, t, i), EventOf(deltas[i])), Gather(w, deltas[i]), deltas, i + 1)
  {}

  /** The turn and the work in front of the n-th delta, when all before are passed on. */
  function PassTo(env: Env, t: Turn, w: Work, deltas: seq<Delta>, n: nat): (Turn, Work)
    requires n <= |deltas| && forall i :: 0 <= i < n ==> !Terminal(deltas[i])
  {
    if n == 0 then (t, w)
    else
      var (t0, w0) := PassTo(env, t, w, deltas, n - 1);
      (Append(env, Poll(env, t0, n - 1), EventOf(deltas[n - 1])), Gather(w0, deltas[n - 1]))
  }

  lemma {:induction false} AllPassedOn(env: Env, t: Turn, deltas: seq<Delta>, n: nat, asked: string)
    requires Smooth(env) && t.raised == Fine && n <= |deltas| && forall i :: 0 <= i < n ==> !Stopped(env, i) && !Terminal(deltas[i])
    ensures var (t1, w1) := PassTo(env, t, Work("", None, asked, true), deltas, n); PassedOn(t, t1, w1, deltas, n, asked)
  {
    if n == 0 {
      assert t.events + [] == t.events;
    } else {
      AllPassedOn(env, t, deltas, n - 1, asked);
      var (t0, w0) := PassTo(env, t, Work("", None, asked, true), deltas, n - 1);
      PassesOn(env, t, t0, w0, deltas, n - 1, asked);
    }
  }

  lemma RelaysAll(env: Env, t: Turn, deltas: seq<Delta>, i: nat, asked: string)
    requires Smooth(env) && t.raised == Fine && i < |deltas| && forall k :: 0 <= k <= i ==> !Stopped(env, k) && !Terminal(deltas[k])
    ensures Relays(env, PassTo(env, t, Work("", None, asked, true), deltas, i).0, deltas[i], i)
  {
    AllPassedOn(env, t, deltas, i, asked);
    var (t0, w0) := PassTo(env, t, Work("", None, asked, true), deltas, i);
    PassesOn(env, t, t0, w0, deltas, i, asked);
  }

  /** The loop passes on what comes before the first stop or end. */
  lemma {:induction false} LoopPasses(env: Env, t: Turn, deltas: seq<Delta>, n: nat, asked: string)
    requires Smooth(env) && t.raised == Fine && n < |deltas| && forall i :: 0 <= i < n ==> !Stopped(env, i) && !Terminal(deltas[i])
    ensures var (t1, w1) := PassTo(env, t, Work("", None, asked, true), deltas, n);
            Loop(env, t, Work("", None, asked, true), deltas, 0) == Loop(env, t1, w1, deltas, n)
  {
    if n > 0 {
      LoopPasses(env, t, deltas, n - 1, asked);
      RelaysAll(env, t, deltas, n - 1, asked);
      var (t0, w0) := PassTo(env, t, Work("", None, asked, true), deltas, n - 1);
      LoopRelays(env, t0, w0, deltas, n - 1);
    }
  }

  lemma LoopSmooth(env: Env, t: Turn, deltas: seq<Delta>, n: nat, asked: string) returns (t1: Turn, w1: Work)
    requires Smooth(env) && t.raised == Fine && n < |deltas|
    requires forall i :: 0 <= i < n ==> !Stopped(env, i) && !Terminal(deltas[i])
    ensures PassedOn(t, t1, w1, deltas, n, asked)
    ensures Loop(env, t, Work("", None, asked, true), deltas, 0) == Loop(env, t1, w1, deltas, n)
  {
    AllPassedOn(env, t, deltas, n, asked);
    LoopPasses(env, t, deltas, n, asked);
    var (t2, w2) := PassTo(env, t, Work("", None, asked, true), deltas, n);
    return t2, w2;
  }

  /** All of a turn but its trace: begun, the first n deltas shown, and closed. */
  predicate TurnClosed(env: Env, t: Turn, u: Turn, deltas: seq<Delta>, n: nat, row: Row, bill: bool, last: Event)
    requires n <= |deltas|
  {
    ClosedFully(t.(events := [Meta] + Shown(deltas, n), slots := t.slots + 1), u, row, bill, env.retrieved, last)
  }

  lemma BodySmooth(env: Env, t: Turn, stream: Result, n: nat) returns (t1: Turn, w1: Work)
    requires Smooth(env) && AtStart(t) && stream.Yielded? && n < |stream.out|
    requires forall i :: 0 <= i < n ==> !Stopped(env, i) && !Terminal(stream.out[i])
    ensures PassedOn(t.(events := [Meta]), t1, w1, stream.out, n, env.model) && t1.raised == Fine
    ensures Body(env, t, stream) == Loop(env, t1, w1, stream.out, n)
  {
    var begun := Begin(env, Try(env, t));
    assert begun.raised == Fine && begun.events == [Meta];
    t1, w1 := LoopSmooth(env, begun, stream.out, n, env.model);
  }

  lemma ReleaseSmooth(env: Env, t: Turn, u: Turn, row: Row, bill: bool, cited: bool, last: Event)
    requires Smooth(env) && ClosedFully(t, u, row, bill, cited, last)
    ensures ClosedFully(t.(slots := t.slots + 1), Release(env, u), row, bill, cited, last)
  {}

  /** With nothing failing and no stop found, a turn shows every delta in order between the opening event and
      the closing ones. A stream that is done is saved as completed, one that breaks off as interrupted, with
      all its text and the usage and model it named last; that usage is settled, and billed when the stream
      is done. A stream that never began is saved, settled and announced as failed. */
  lemma UndisturbedTurn(env: Env, t: Turn, stream: Result)
    requires Smooth(env) && AtStart(t) && (stream.Yielded? ==> WellEnded(stream.out)) && forall i :: !Stopped(env, i)
    ensures var u := Generate(env, t, stream);
            if stream.Yielded? then
              var n := |stream.out| - 1;
              var text, usage, model := FullText(stream.out, n), LastUsage(stream.out, n), LastModel(stream.out, n, env.model);
              if stream.out[n].Done? then
                TurnClosed(env, t, u, stream.out, n, Row(Completed, text, usage, model), true, DoneEvent(stream.out[n].reason))
              else
                TurnClosed(env, t, u, stream.out, n, Row(Status.Interrupted, text, usage, model), false, ErrorEvent("STREAM_INTERRUPTED", true))
            else
              TurnClosed(env, t, u, [], 0, Row(Status.Failed, "", None, env.model), false, ErrorEvent("PROVIDER_ERROR", stream.error.retryable))
  {
    if stream.Yielded? {
      EndsSmoothly(env, t, stream);
    } else {
      NeverBegan(env, t, stream);
    }
  }

  lemma NeverBegan(env: Env, t: Turn, stream: Result)
    requires Smooth(env) && AtStart(t) && stream.Raised?
    ensures TurnClosed(env, t, Generate(env, t, stream), [], 0, Row(Status.Failed, "", None, env.model), false,
                       ErrorEvent("PROVIDER_ERROR", stream.error.retryable))
  {
    var begun := Begin(env, Try(env, t));
    assert begun.raised == Fine && begun.events == [Meta];
    var row, last := Row(Status.Failed, "", None, env.model), ErrorEvent("PROVIDER_ERROR", stream.error.retryable);
    CloseSmooth(env, begun, row, false, env.retrieved, last);
    ReleaseSmooth(env, begun, Produce(env, t, stream), row, false, env.retrieved, last);
  }

  lemma EndsSmoothly(env: Env, t: Turn, stream: Result)
    requires Smooth(env) && AtStart(t) && stream.Yielded? && WellEnded(stream.out) && forall i :: !Stopped(env, i)
    ensures var u, n := Generate(env, t, stream), |stream.out| - 1;
            var text, usage, model := FullText(stream.out, n), LastUsage(stream.out, n), LastModel(stream.out, n, env.model);
            if stream.out[n].Done? then
              TurnClosed(env, t, u, stream.out, n, Row(Completed, text, usage, model), true, DoneEvent(stream.out[n].reason))
            else
              TurnClosed(env, t, u, stream.out, n, Row(Status.Interrupted, text, usage, model), false, ErrorEvent("STREAM_INTERRUPTED", true))
  {
    var n := |stream.out| - 1;
    var t1, w1 := BodySmooth(env, t, stream, n);
    var polled := Poll(env, t1, n);
    var d := stream.out[n];
    var row := Row(if d.Done? then Completed else Status.Interrupted, w1.text, w1.usage, w1.model);
    var last := if d.Done? then DoneEvent(d.reason) else ErrorEvent("STREAM_INTERRUPTED", true);
    assert polled.raised == Fine && !Relays(env, t1, d, n);
    CloseSmooth(env, polled, row, d.Done?, env.retrieved, last);
    ReleaseSmooth(env, polled, Produce(env, t, stream), row, d.Done?, env.retrieved, last);
  }

  /** With nothing failing and a stop found before the n-th delta, what came before is shown, saved as
      interrupted, settled and billed. Its usage is the reported one when there was one, nothing when no text
      had been read, and otherwise an estimate: the prompt's tokens and those of the text read. */
  lemma StoppedTurn(env: Env, t: Turn, stream: Result, n: nat)
    requires Smooth(env) && AtStart(t) && stream.Yielded? && n < |stream.out| && Stopped(env, n)
    requires forall i :: 0 <= i < n ==> !Stopped(env, i) && !Terminal(stream.out[i])
    ensures var text, reported := FullText(stream.out, n), LastUsage(stream.out, n);
            var usage := if reported.Some? then reported
                         else if text == "" then None
                         else Some(Usage(env.promptTokens, Tokens.EstimateTokens(text), env.model, true));
            TurnClosed(env, t, Generate(env, t, stream), stream.out, n,
                       Row(Status.Interrupted, text, usage, LastModel(stream.out, n, env.model)), true, DoneEvent("stopped"))
  {
    var t1, w1 := BodySmooth(env, t, stream, n);
    var closed := Try(env, Poll(env, t1, n));
    NoUsageNoModel(stream.out, n, env.model);
    var row := Row(Status.Interrupted, w1.text, StopUsage(env, w1), w1.model);
    assert closed.raised == Fine && !Relays(env, t1, stream.out[n], n);
    CloseSmooth(env, closed, row, true, env.retrieved, DoneEvent("stopped"));
    ReleaseSmooth(env, closed, Produce(env, t, stream), row, true, env.retrieved, DoneEvent("stopped"));
  }

  lemma {:induction false} NoUsageNoModel(deltas: seq<Delta>, n: nat, asked: string)
    requires n <= |deltas|
    ensures LastUsage(deltas, n) == None ==> LastModel(deltas, n, asked) == asked
  {
    if n > 0 {
      NoUsageNoModel(deltas, n - 1, asked);
    }
  }

  // ---- When only the close of a finished stream fails ----

  ghost predicate FailsOnlyAt(env: Env, c: nat) {
    forall n: nat :: !env.polls(n) && env.faults(n) == if n == c then Other else Fine
  }

  /** A close of which nothing fails. */
  lemma CloseFine(env: Env, t: Turn, row: Row, bill: bool, last: Event, c: nat)
    requires FailsOnlyAt(env, c) && t.raised == Fine && row.usage.Some? && (c < t.clock || c >= t.clock + 6)
    ensures var u := Close(env, t, row, bill, false, last);
            ClosedFully(t, u, row, bill, false, last) && u.clock == t.clock + (if bill then 6 else 5)
  {
    var n := t.clock;
    assert env.faults(n) == env.faults(n + 1) == env.faults(n + 2) == Fine;
    assert env.faults(n + 3) == env.faults(n + 4) == env.faults(n + 5) == Fine;
    assert t.billed + [] == t.billed && [] + [last] == [last];
  }

  lemma DoneIsLost(env: Env, t: Turn, w: Work, deltas: seq<Delta>, i: nat)
    requires t.raised == Fine && FailsOnlyAt(env, t.clock + 6) && !env.retrieved && i < |deltas| && deltas[i].Done? && w.usage.Some?
    ensures var (left, w1) := Loop(env, t, w, deltas, i);
            && LostAt(env, t, w, deltas, i) && left.raised == Other && left.clock == t.clock + 7 && w1 == w
            && ClosedFully(t, left.(raised := Fine), Row(Completed, w.text, w.usage, w.model), true, false, DoneEvent(deltas[i].reason))
  {
    CloseFine(env, t, Row(Completed, w.text, w.usage, w.model), true, DoneEvent(deltas[i].reason), t.clock + 6);
    assert !env.polls(i) && env.faults(t.clock) == env.faults(t.clock + 1) == Fine;
    assert !Relays(env, t, deltas[i], i);
  }

  /** The loop delivers an answer, its usage and its end, saves the row, and loses the close of the stream. */
  lemma AnswerThenLost(env: Env, t: Turn, w: Work, text: string, u: Usage, reason: string)
    requires t.raised == Fine && FailsOnlyAt(env, t.clock + 8) && !env.retrieved && w.text == "" && u.model == w.model
    ensures var deltas := [Text(text), Used(u), Done(reason)];
            var (left, w1) := Loop(env, t, w, deltas, 0);
            && LostAt(env, t, w, deltas, 0) && left.raised == Other && left.clock == t.clock + 9
            && w1 == w.(text := text, usage := Some(u))
            && ClosedFully(t.(events := t.events + [Chunk(text), UsageEvent(u)]), left.(raised := Fine),
                           Row(Completed, text, Some(u), w.model), true, false, DoneEvent(reason))
  {
    var deltas: seq<Delta> := [Text(text), Used(u), Done(reason)];
    LoopGoesOn(env, t, w, deltas, 0);
    var t1, w1 := Append(env, t, Chunk(text)), Gather(w, deltas[0]);
    LoopGoesOn(env, t1, w1, deltas, 1);
    var t2, w2 := Append(env, t1, UsageEvent(u)), Gather(w1, deltas[1]);
    assert "" + text == text;
    DoneIsLost(env, t2, w2, deltas, 2);
    assert t2.events == t.events + [Chunk(text), UsageEvent(u)];
  }

  /** The handler behind such a loop, with everything else fine. */
  lemma ThenFails(env: Env, left: Turn, w: Work)
    requires left.clock > 0 && FailsOnlyAt(env, left.clock - 1) && !env.retrieved && w.usage.Some? && left.raised == Other
    ensures var p := Fail(env, left.(raised := Fine), w, Status.Failed, "INTERNAL_ERROR", true);
            && env.faults(left.clock) == env.faults(left.clock + 1) == env.faults(p.clock) == Fine
            && ClosedFully(left, p, Row(Status.Failed, w.text, w.usage, w.model), false, false, ErrorEvent("INTERNAL_ERROR", true))
  {
    CloseFine(env, left.(raised := Fine), Row(Status.Failed, w.text, w.usage, w.model), false, ErrorEvent("INTERNAL_ERROR", true), left.clock - 1);
  }

  lemma BodyLoses(env: Env, t: Turn, text: string, u: Usage, reason: string, m: nat, a: nat)
    requires AtStart(t) && FailsOnlyAt(env, t.clock + 11) && !env.retrieved && u.model == env.model
    ensures var stream := Yielded([Text(text), Used(u), Done(reason)], m, a);
            var (left, w) := Body(env, t, stream);
            && CloseLost(env, t, stream) && left.raised == Other && left.clock == t.clock + 12
            && w == Work(text, Some(u), env.model, true)
            && ClosedFully(t.(events := [Meta, Chunk(text), UsageEvent(u)]), left.(raised := Fine),
                           Row(Completed, text, Some(u), env.model), true, false, DoneEvent(reason))
  {
    var c := t.clock;
    assert env.faults(c) == env.faults(c + 1) == env.faults(c + 2) == Fine;
    AnswerThenLost(env, Begin(env, Try(env, t)), Work("", None, env.model, true), text, u, reason);
  }

  /** A complete answer becomes a failed one. Of all operations only the close of the stream fails, behind
      the done and with everything saved: the row is saved again as failed, the tokens are settled again,
      and an error event follows the done. */
  lemma DoneThenFailed(env: Env, t: Turn, text: string, u: Usage, reason: string, m: nat, a: nat)
    requires AtStart(t) && FailsOnlyAt(env, t.clock + 11) && !env.retrieved && u.model == env.model
    ensures var stream := Yielded([Text(text), Used(u), Done(reason)], m, a);
            var g := Generate(env, t, stream);
            && WellEnded(stream.out) && SavedTwice(env, t, stream)
            && g.row == Row(Status.Failed, text, Some(u), env.model) && g.persists == 2 && g.raised == Fine && g.slots == t.slots + 1
            && g.settled == [Some(u), Some(u)] && g.billed == [u]
            && g.events == [Meta, Chunk(text), UsageEvent(u), DoneEvent(reason), ErrorEvent("INTERNAL_ERROR", true)]
  {
    var stream := Yielded([Text(text), Used(u), Done(reason)], m, a);
    assert stream.out[1].Used?;
    BodyLoses(env, t, text, u, reason, m, a);
    var (left, w) := Body(env, t, stream);
    ThenFails(env, left, w);
    ReleaseRaises(env, Produce(env, t, stream));
  }

  // ---- The methods ----

  lemma FinishAfter(env: Env, t: Turn, usage: Option<Usage>, bill: bool, cited: bool, last: Event, b: Turn)
    requires b == Settle(env, if bill then Bill(env, t, usage) else t, usage)
    ensures Finish(env, t, usage, bill, cited, last) ==
            if b.raised != Fine then b.(raised := Fine)
            else Try(env, Append(env, if cited then Append(env, b, Citations) else b, last)).(raised := Fine)
  {}

  class Service {
    const env: Env
    var clock: nat
    var events: seq<Event>
    var row: Row
    var persists: nat
    var settled: seq<Option<Usage>>
    var billed: seq<Usage>
    var slots: nat
    ghost var trace: seq<Effect>

    constructor (env: Env)
      ensures this.env == env && AtStart(State(Fine))
    {
      this.env := env;
      clock, events, row, persists, settled, billed, slots, trace := 0, [], Row(Streaming, "", None, ""), 0, [], [], 0, [];
    }

    ghost function State(raised: Fault): Turn
      reads this
    {
      Turn(clock, events, row, persists, settled, billed, slots, trace, raised)
    }

    method Attempt() returns (fault: Fault)
      modifies this`clock
      ensures State(fault) == Try(env, old(State(Fine)))
    {
      fault := env.faults(clock);
      clock := clock + 1;
    }

    /** The end of the block around the stream. */
    method LeaveStream(inFlight: Fault) returns (fault: Fault)
      modifies this`clock
      ensures State(fault) == Leave(env, old(State(inFlight)))
    {
      fault := Attempt();
      if fault == Fine {
        fault := inFlight;
      }
    }

    method Publish(e: Event) returns (fault: Fault)
      modifies this`clock, this`events, this`trace
      ensures State(fault) == Append(env, old(State(Fine)), e)
    {
      fault := Attempt();
      if fault == Fine {
        events := events + [e];
        trace := trace + [Out(e)];
      }
    }

    method Persist(r: Row) returns (fault: Fault)
      modifies this`clock, this`row, this`persists, this`trace
      ensures State(fault) == Save(env, old(State(Fine)), r)
    {
      fault := Attempt();
      if fault == Fine {
        row := r;
        persists := persists + 1;
        trace := trace + [RowSaved];
      }
    }

    method SettleTokens(usage: Option<Usage>) returns (fault: Fault)
      modifies this`clock, this`settled, this`trace
      ensures State(fault) == Settle(env, old(State(Fine)), usage)
    {
      fault := Attempt();
      if fault == Fine {
        settled := settled + [usage];
        trace := trace + [TokensSettled];
      }
    }

    method RecordUsage(usage: Option<Usage>) returns (fault: Fault)
      modifies this`clock, this`billed, this`trace
      ensures State(fault) == Bill(env, old(State(Fine)), usage)
    {
      fault := Fine;
      if usage.Some? {
        fault := Attempt();
        if fault == Fine {
          billed := billed + [usage.value];
          trace := trace + [UsageRecorded];
        }
      }
    }

    /** The block after the row is saved: each failure ends it, none leaves it. */
    method Wind(usage: Option<Usage>, bill: bool, cited: bool, last: Event)
      modifies this`clock, this`billed, this`settled, this`events, this`trace
      ensures State(Fine) == Finish(env, old(State(Fine)), usage, bill, cited, last)
    {
      ghost var t := State(Fine);
      var fault := Account(usage, bill);
      FinishAfter(env, t, usage, bill, cited, last, State(fault));
      if fault == Fine {
        Announce(cited, last);
      }
    }

    method Announce(cited: bool, last: Event)
      modifies this`clock, this`events, this`trace
      ensures State(Fine) ==
              Try(env, Append(env, if cited then Append(env, old(State(Fine)), Citations) else old(State(Fine)), last)).(raised := Fine)
    {
      var fault := Fine;
      if cited {
        fault := Publish(Citations);
      }
      if fault == Fine {
        fault := Publish(last);
      }
      if fault == Fine {
        fault := Attempt();
      }
    }

    method Account(usage: Option<Usage>, bill: bool) returns (fault: Fault)
      modifies this`clock, this`billed, this`settled, this`trace
      ensures State(fault) == Settle(env, if bill then Bill(env, old(State(Fine)), usage) else old(State(Fine)), usage)
    {
      fault := Fine;
      if bill {
        fault := RecordUsage(usage);
      }
      if fault == Fine {
        fault := SettleTokens(usage);
      }
    }

    method End(r: Row, bill: bool, cited: bool, last: Event) returns (fault: Fault)
      modifies this
      ensures State(fault) == Close(env, old(State(Fine)), r, bill, cited, last)
    {
      fault := Attempt();
      if fault != Fine {
        return;
      }
      fault := Persist(r);
      if fault != Fine {
        return;
      }
      Wind(r.usage, bill, cited, last);
    }

    /** The loop of `_generate`; `w` is what it has gathered when it ends. */
    method Consume(deltas: seq<Delta>, w0: Work) returns (fault: Fault, w: Work)
      modifies this
      ensures (State(fault), w) == Loop(env, old(State(Fine)), w0, deltas, 0)
    {
      fault, w := Fine, w0;
      ghost var t := State(Fine);
      var i: nat := 0;
      while i < |deltas|
        invariant i <= |deltas| && fault == Fine
        invariant Loop(env, t, w0, deltas, 0) == Loop(env, State(Fine), w, deltas, i)
      {
        if env.polls(i) {
          fault := Attempt();
          if fault != Fine {
            fault := LeaveStream(fault);
            return;
          }
          if env.stops(i) {
            fault := Attempt();
            if fault == Fine {
              fault := End(Row(Status.Interrupted, w.text, StopUsage(env, w), w.model), true, w.prepared && env.retrieved, DoneEvent("stopped"));
            }
            return;
          }
        }
        var d := deltas[i];
        if d.Error? {
          fault := End(Row(Status.Interrupted, w.text, w.usage, w.model), false, w.prepared && env.retrieved, ErrorEvent("STREAM_INTERRUPTED", true));
          return;
        }
        if d.Done? {
          fault := End(Row(Completed, w.text, w.usage, w.model), true, w.prepared && env.retrieved, DoneEvent(d.reason));
          fault := LeaveStream(fault);
          return;
        }
        fault := Publish(EventOf(d));
        w := Gather(w, d);
        if fault != Fine {
          fault := LeaveStream(fault);
          return;
        }
        i := i + 1;
      }
    }

    /** The `try` of `_generate`. */
    method Answer(stream: Result) returns (fault: Fault, w: Work)
      modifies this
      ensures (State(fault), w) == Body(env, old(State(Fine)), stream)
    {
      w := Work("", None, env.model, false);
      fault := Attempt();
      if fault != Fine {
        return;
      }
      w := w.(prepared := true);
      fault := Publish(Meta);
      if fault == Fine {
        fault := Attempt();
      }
      if fault == Fine {
        match stream
        case Raised(error, _, _) => fault := FromProvider(error.retryable);
        case Yielded(out, _, _) => fault, w := Consume(out, w);
      }
    }

    /** Its handlers. */
    method Generation(stream: Result) returns (fault: Fault)
      modifies this
      ensures State(fault) == Produce(env, old(State(Fine)), stream)
    {
      var w;
      fault, w := Answer(stream);
      match fault
      case Fine =>
      case FromProvider(retryable) =>
        fault := End(Row(Status.Failed, w.text, w.usage, w.model), false, w.prepared && env.retrieved, ErrorEvent("PROVIDER_ERROR", retryable));
      case Other =>
        fault := End(Row(Status.Failed, w.text, w.usage, w.model), false, w.prepared && env.retrieved, ErrorEvent("INTERNAL_ERROR", true));
    }

    method Run(stream: Result) returns (fault: Fault)
      modifies this
      ensures State(fault) == Generate(env, old(State(Fine)), stream)
    {
      var inFlight := Generation(stream);
      fault := Attempt();
      if fault == Fine {
        slots := slots + 1;
        trace := trace + [SlotReturned];
        fault := inFlight;
      }
    }
  }
}
