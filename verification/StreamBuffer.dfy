/** The event buffer of one message and what a reader is sent from it (backend/core/streams.py,
    backend/api/v1/conversations.py `_sse`, backend/api/sse.py). */
module StreamBuffer {

  /** `data` is the payload as one line of JSON. */
  datatype Event = Event(seqNo: nat, kind: string, data: string)

  const TERMINAL: set<string> := {"done", "error"}
  const MISSES_BEFORE_GIVING_UP := 2

  predicate Ends(e: Event) {
    e.kind in TERMINAL
  }

  /** Numbers rise, and start behind 0; an append that failed leaves a hole. */
  ghost predicate Numbered(log: seq<Event>) {
    && (forall i, j :: 0 <= i < j < |log| ==> log[i].seqNo < log[j].seqNo)
    && (forall i :: 0 <= i < |log| ==> 0 < log[i].seqNo)
  }

  /** Every event with a greater number, in order. */
  function Above(log: seq<Event>, last: nat): seq<Event> {
    if log == [] then []
    else Above(log[..|log| - 1], last) + (if log[|log| - 1].seqNo > last then [log[|log| - 1]] else [])
  }

  /** Where the events above a number begin. */
  function Start(log: seq<Event>, last: nat): (i: nat)
    ensures i <= |log|
  {
    if log == [] || log[|log| - 1].seqNo <= last then |log| else Start(log[..|log| - 1], last)
  }

  ghost predicate At(log: seq<Event>, i: nat, last: nat) {
    && i <= |log|
    && (forall j :: 0 <= j < i ==> log[j].seqNo <= last)
    && (forall j :: i <= j < |log| ==> log[j].seqNo > last)
  }

  lemma {:induction false} StartMeaning(log: seq<Event>, last: nat)
    requires Numbered(log)
    ensures At(log, Start(log, last), last)
    decreases |log|
  {
    if log != [] && log[|log| - 1].seqNo > last {
      StartMeaning(log[..|log| - 1], last);
    }
  }

  lemma StartUnique(log: seq<Event>, i: nat, last: nat)
    requires Numbered(log) && At(log, i, last)
    ensures Start(log, last) == i
  {
    StartMeaning(log, last);
    var k := Start(log, last);
    assert k < |log| ==> log[k].seqNo > last;
    assert i < |log| ==> log[i].seqNo > last;
  }

  /** What is above a number is an end of the log. */
  lemma {:induction false} AboveIsSuffix(log: seq<Event>, i: nat, last: nat)
    requires At(log, i, last)
    ensures Above(log, last) == log[i..]
    decreases |log|
  {
    if log != [] {
      var front := log[..|log| - 1];
      AboveIsSuffix(front, if i == |log| then i - 1 else i, last);
      if i < |log| {
        assert log[i..] == front[i..] + [log[|log| - 1]];
      }
    }
  }

  class Buffer {
    var seqNo: nat
    var log: seq<Event>

    ghost predicate Valid()
      reads this
    {
      Numbered(log) && forall i :: 0 <= i < |log| ==> log[i].seqNo <= seqNo
    }

    constructor ()
      ensures Valid() && log == [] && seqNo == 0
    {
      seqNo, log := 0, [];
    }

    /** The number is taken before the event is stored, so it is used up when storing fails. */
    method Append(kind: string, data: string, stored: bool) returns (e: Event)
      requires Valid()
      modifies this`seqNo, this`log
      ensures Valid() && e == Event(old(seqNo) + 1, kind, data) && seqNo == old(seqNo) + 1
      ensures log == if stored then old(log) + [e] else old(log)
    {
      seqNo := seqNo + 1;
      e := Event(seqNo, kind, data);
      if stored {
        log := log + [e];
      }
    }

    /** `history` and one round of `follow`: everything numbered above `after`. */
    method Read(after: nat) returns (events: seq<Event>)
      requires Valid()
      ensures events == Above(log, after)
    {
      var i := |log|;
      while i > 0 && log[i - 1].seqNo > after
        invariant 0 <= i <= |log|
        invariant forall j :: i <= j < |log| ==> log[j].seqNo > after
      {
        i := i - 1;
      }
      events := log[i..];
      AboveIsSuffix(log, i, after);
    }
  }

  // ---- The reader ----

  datatype Item = Sent(event: Event) | Heartbeat

  /** What one wait brought: the next events, and whether the buffer was there. */
  datatype Poll = Poll(events: seq<Event>, there: bool)

  function UntilEnd(events: seq<Event>): seq<Event> {
    if events == [] then [] else if Ends(events[0]) then [events[0]] else [events[0]] + UntilEnd(events[1..])
  }

  function Items(events: seq<Event>): seq<Item> {
    seq(|events|, i requires 0 <= i < |events| => Sent(events[i]))
  }

  predicate HasEnd(events: seq<Event>) {
    exists i :: 0 <= i < |events| && Ends(events[i])
  }

  /** The event that stands in for a buffer that is gone; it keeps the last real number. */
  function Interrupted(last: nat): Event {
    Event(last, "error", "STREAM_INTERRUPTED")
  }

  /** What one wait leads to. */
  datatype Round = Round(items: seq<Item>, last: nat, misses: nat, ended: bool)

  function Wait(last: nat, misses: nat, poll: Poll): Round {
    if poll.events == [] then
      var missed := if poll.there then 0 else misses + 1;
      if missed >= MISSES_BEFORE_GIVING_UP then Round([Sent(Interrupted(last))], last, missed, true)
      else Round([Heartbeat], last, missed, false)
    else
      var sent := UntilEnd(poll.events);
      Round(Items(sent), if sent == [] then last else sent[|sent| - 1].seqNo, 0, HasEnd(poll.events))
  }

  /** `_sse` over the waits of one connection. */
  function Serve(last: nat, misses: nat, polls: seq<Poll>): seq<Item>
    decreases |polls|
  {
    if polls == [] then []
    else
      var r := Wait(last, misses, polls[0]);
      if r.ended then r.items else r.items + Serve(r.last, r.misses, polls[1..])
  }

  lemma {:induction false} UntilEndMeaning(events: seq<Event>) returns (n: nat)
    ensures n <= |events| && UntilEnd(events) == events[..n]
    ensures forall i :: 0 <= i < n - 1 ==> !Ends(events[i])
    ensures if HasEnd(events) then n > 0 && Ends(events[n - 1]) else n == |events|
  {
    if events == [] {
      n := 0;
    } else if Ends(events[0]) {
      n := 1;
    } else {
      var m := UntilEndMeaning(events[1..]);
      n := m + 1;
      assert events[..n] == [events[0]] + events[1..][..m];
      if HasEnd(events) {
        var i :| 0 <= i < |events| && Ends(events[i]);
        assert Ends(events[1..][i - 1]);
      }
    }
  }

  method Sse(after: nat, polls: seq<Poll>) returns (out: seq<Item>)
    ensures out == Serve(after, 0, polls)
  {
    out := [];
    var last, misses: nat := after, 0;
    var k := 0;
    assert polls[0..] == polls;
    while k < |polls|
      invariant 0 <= k <= |polls|
      invariant Serve(after, 0, polls) == out + Serve(last, misses, polls[k..])
    {
      ServeStep(out, last, misses, polls, k);
      var r := WaitOnce(last, misses, polls[k]);
      out, last, misses := out + r.items, r.last, r.misses;
      k := k + 1;
      if r.ended {
        return;
      }
    }
  }

  lemma ServeStep(sent: seq<Item>, last: nat, misses: nat, polls: seq<Poll>, k: nat)
    requires k < |polls|
    ensures var r := Wait(last, misses, polls[k]);
            sent + Serve(last, misses, polls[k..]) ==
              if r.ended then sent + r.items else sent + r.items + Serve(r.last, r.misses, polls[k + 1..])
  {
    var r := Wait(last, misses, polls[k]);
    var rest := Serve(r.last, r.misses, polls[k + 1..]);
    assert polls[k..][1..] == polls[k + 1..];
    assert sent + (r.items + rest) == sent + r.items + rest;
  }

  /** The body of the loop of `_sse`. */
  method WaitOnce(last: nat, misses: nat, poll: Poll) returns (r: Round)
    ensures r == Wait(last, misses, poll)
  {
    if poll.events == [] {
      var missed := if poll.there then 0 else misses + 1;
      if missed >= MISSES_BEFORE_GIVING_UP {
        r := Round([Sent(Interrupted(last))], last, missed, true);
      } else {
        r := Round([Heartbeat], last, missed, false);
      }
    } else {
      var out, latest, ended := SendAll([], last, poll.events);
      r := Round(out, latest, 0, ended);
    }
  }

  /** The inner loop of `_sse`. */
  method SendAll(sent: seq<Item>, from: nat, events: seq<Event>) returns (out: seq<Item>, last: nat, ended: bool)
    ensures ended == HasEnd(events)
    ensures out == sent + Items(UntilEnd(events))
    ensures last == (var u := UntilEnd(events); if u == [] then from else u[|u| - 1].seqNo)
  {
    out, last, ended := sent, from, false;
    var i := 0;
    ghost var stop := UntilEndMeaning(events);
    while i < |events|
      invariant 0 <= i <= |events| && i <= stop
      invariant out == sent + Items(events[..i])
      invariant last == if i == 0 then from else events[i - 1].seqNo
      invariant forall j :: 0 <= j < i ==> !Ends(events[j])
    {
      last := events[i].seqNo;
      out := out + [Sent(events[i])];
      assert Items(events[..i + 1]) == Items(events[..i]) + [Sent(events[i])];
      i := i + 1;
      if Ends(events[i - 1]) {
        ended := true;
        return;
      }
    }
  }

  // ---- A live buffer ----

  predicate Within(log: seq<Event>, sizes: seq<nat>) {
    forall k :: 0 <= k < |sizes| ==> sizes[k] <= |log|
  }

  /** The waits of a connection on a buffer that grows to `log`; `sizes` is how much of it each wait finds.
      The key exists once there is an event. */
  function Waits(log: seq<Event>, last: nat, misses: nat, sizes: seq<nat>): seq<Poll>
    requires Within(log, sizes)
    decreases |sizes|
  {
    if sizes == [] then []
    else
      var poll := Poll(Above(log[..sizes[0]], last), sizes[0] > 0);
      var r := Wait(last, misses, poll);
      [poll] + Waits(log, r.last, r.misses, sizes[1..])
  }

  /** The buffer only grows, and its first event comes before the second wait that finds nothing. */
  ghost predicate Steady(log: seq<Event>, floor: nat, misses: nat, sizes: seq<nat>)
    decreases |sizes|
  {
    sizes != [] ==>
      && floor <= sizes[0] <= |log| && (sizes[0] == 0 ==> misses == 0)
      && Steady(log, sizes[0], if sizes[0] == 0 then misses + 1 else 0, sizes[1..])
  }

  lemma {:induction false} SteadySizes(log: seq<Event>, floor: nat, misses: nat, sizes: seq<nat>)
    requires Steady(log, floor, misses, sizes) && floor <= |log|
    ensures Within(log, sizes) && floor <= Latest(floor, sizes) <= |log|
    decreases |sizes|
  {
    if sizes != [] {
      SteadySizes(log, sizes[0], if sizes[0] == 0 then misses + 1 else 0, sizes[1..]);
      assert forall k :: 0 < k < |sizes| ==> sizes[k] == sizes[1..][k - 1];
    }
  }

  function Latest(floor: nat, sizes: seq<nat>): nat {
    if sizes == [] then floor else sizes[|sizes| - 1]
  }

  /** Just behind the first terminal event from `from` on, or at `to`. */
  function Stop(log: seq<Event>, from: nat, to: nat): (k: nat)
    requires to <= |log|
    ensures from <= to ==> from <= k <= to
    decreases if from < to then to - from else 0
  {
    if from >= to then from else if Ends(log[from]) then from + 1 else Stop(log, from + 1, to)
  }

  lemma {:induction false} StopMeaning(log: seq<Event>, from: nat, to: nat)
    requires from <= to <= |log|
    ensures var k := Stop(log, from, to);
            && (forall i :: from <= i < k - 1 ==> !Ends(log[i]))
            && (if HasEnd(log[from..to]) then k > from && Ends(log[k - 1]) else k == to)
    decreases |log| - from
  {
    if from < to {
      if Ends(log[from]) {
        assert Ends(log[from..to][0]);
      } else {
        StopMeaning(log, from + 1, to);
        if HasEnd(log[from..to]) {
          var i :| 0 <= i < to - from && Ends(log[from..to][i]);
          assert Ends(log[from + 1..to][i - 1]);
        }
        if HasEnd(log[from + 1..to]) {
          var i :| 0 <= i < to - from - 1 && Ends(log[from + 1..to][i]);
          assert Ends(log[from..to][i + 1]);
        }
      }
    }
  }

  lemma {:induction false} StopSplit(log: seq<Event>, from: nat, mid: nat, to: nat)
    requires from <= mid <= to <= |log|
    ensures Stop(log, from, to) == if HasEnd(log[from..mid]) then Stop(log, from, mid) else Stop(log, mid, to)
    decreases mid - from
  {
    if from < mid {
      if Ends(log[from]) {
        assert Ends(log[from..mid][0]);
      } else {
        StopSplit(log, from + 1, mid, to);
        assert log[from..mid] == [log[from]] + log[from + 1..mid];
        if HasEnd(log[from + 1..mid]) {
          var i :| 0 <= i < mid - from - 1 && Ends(log[from + 1..mid][i]);
          assert Ends(log[from..mid][i + 1]);
        }
        if HasEnd(log[from..mid]) {
          var i :| 0 <= i < mid - from && Ends(log[from..mid][i]);
          assert Ends(log[from + 1..mid][i - 1]);
        }
      }
    }
  }

  lemma {:induction false} UntilEndIsStop(log: seq<Event>, from: nat, to: nat)
    requires from <= to <= |log|
    ensures UntilEnd(log[from..to]) == log[from..Stop(log, from, to)]
    decreases |log| - from
  {
    if from < to {
      assert log[from..to][1..] == log[from + 1..to];
      if !Ends(log[from]) {
        UntilEndIsStop(log, from + 1, to);
        assert log[from..Stop(log, from, to)] == [log[from]] + log[from + 1..Stop(log, from, to)];
      }
    }
  }

  function Events(items: seq<Item>): seq<Event> {
    if items == [] then []
    else if items[0].Sent? then [items[0].event] + Events(items[1..])
    else Events(items[1..])
  }

  lemma {:induction false} EventsConcat(a: seq<Item>, b: seq<Item>)
    ensures Events(a + b) == Events(a) + Events(b)
  {
    if a == [] {
      assert a + b == b;
    } else {
      EventsConcat(a[1..], b);
      assert (a + b)[1..] == a[1..] + b;
      assert Events(a + b) == if a[0].Sent? then [a[0].event] + Events(a[1..] + b) else Events(a[1..] + b);
    }
  }

  lemma {:induction false} EventsOfItems(events: seq<Event>)
    ensures Events(Items(events)) == events
  {
    if events != [] {
      assert Items(events)[1..] == Items(events[1..]);
      EventsOfItems(events[1..]);
    }
  }

  /** What a wait finds: the part of the log between the reader's place and what is there. */
  lemma FindsSlice(log: seq<Event>, last: nat, n: nat)
    requires Numbered(log) && n <= |log|
    ensures var i := Start(log, last); Above(log[..n], last) == if i <= n then log[i..n] else []
  {
    var i := Start(log, last);
    StartMeaning(log, last);
    AboveIsSuffix(log[..n], if i <= n then i else n, last);
  }

  lemma WaitOnNothing(last: nat, misses: nat, n: nat)
    requires n == 0 ==> misses == 0
    ensures var r := Wait(last, misses, Poll([], n > 0));
            r.misses == (if n == 0 then 1 else 0) && r.last == last && !r.ended && Events(r.items) == []
  {
    EventsConcat([Heartbeat], []);
  }

  lemma WaitOnEvents(log: seq<Event>, last: nat, misses: nat, i: nat, n: nat)
    requires Numbered(log) && i < n <= |log|
    ensures var r := Wait(last, misses, Poll(log[i..n], true));
            var k := Stop(log, i, n);
            && r.misses == 0 && i < k <= n && r.last == log[k - 1].seqNo && Events(r.items) == log[i..k] && r.ended == HasEnd(log[i..n])
  {
    var k := Stop(log, i, n);
    UntilEndIsStop(log, i, n);
    StopMoves(log, i, n);
    assert log[i..k][k - i - 1] == log[k - 1];
    EventsOfItems(log[i..k]);
  }

  /** One wait sends what one read gives up to the first terminal event, and the next goes on behind that. */
  ghost predicate Sends(log: seq<Event>, last: nat, misses: nat, n: nat, r: Round)
    requires n <= |log|
  {
    var i := Start(log, last);
    && r.misses == (if n == 0 then misses + 1 else 0) && Events(r.items) == Due(log, last, n)
    && (if n < i then r.last == last && !r.ended else Start(log, r.last) == Stop(log, i, n) && r.ended == HasEnd(log[i..n]))
  }

  lemma WaitAhead(log: seq<Event>, last: nat, misses: nat, n: nat)
    requires Numbered(log) && Start(log, last) < n <= |log|
    ensures Sends(log, last, misses, n, Wait(last, misses, Poll(log[Start(log, last)..n], true)))
  {
    var i := Start(log, last);
    DueIsSlice(log, last, n);
    WaitOnEvents(log, last, misses, i, n);
    NextStart(log, last, Stop(log, i, n));
  }

  lemma WaitBehind(log: seq<Event>, last: nat, misses: nat, n: nat)
    requires Numbered(log) && n <= Start(log, last) && (n == 0 ==> misses == 0)
    ensures Sends(log, last, misses, n, Wait(last, misses, Poll([], n > 0)))
  {
    DueIsSlice(log, last, n);
    WaitOnNothing(last, misses, n);
  }

  lemma WaitIsSlice(log: seq<Event>, last: nat, misses: nat, n: nat)
    requires Numbered(log) && n <= |log| && (n == 0 ==> misses == 0)
    ensures Sends(log, last, misses, n, Wait(last, misses, Poll(Above(log[..n], last), n > 0)))
  {
    FindsSlice(log, last, n);
    if Start(log, last) < n {
      WaitAhead(log, last, misses, n);
    } else {
      assert Above(log[..n], last) == [];
      WaitBehind(log, last, misses, n);
    }
  }

  lemma NextStart(log: seq<Event>, last: nat, k: nat)
    requires Numbered(log) && 0 < k <= |log|
    ensures Start(log, log[k - 1].seqNo) == k
  {
    StartUnique(log, k, log[k - 1].seqNo);
  }

  lemma StopMoves(log: seq<Event>, from: nat, to: nat)
    requires from < to <= |log|
    ensures from < Stop(log, from, to) <= to
  {}

  lemma ServeWaits(log: seq<Event>, last: nat, misses: nat, sizes: seq<nat>)
    requires Within(log, sizes) && sizes != []
    ensures var r := Wait(last, misses, Poll(Above(log[..sizes[0]], last), sizes[0] > 0));
            var rest := Serve(r.last, r.misses, Waits(log, r.last, r.misses, sizes[1..]));
            Events(Serve(last, misses, Waits(log, last, misses, sizes))) == if r.ended then Events(r.items) else Events(r.items) + Events(rest)
  {
    var polls := Waits(log, last, misses, sizes);
    var r := Wait(last, misses, polls[0]);
    assert polls[1..] == Waits(log, r.last, r.misses, sizes[1..]);
    EventsConcat(r.items, Serve(r.last, r.misses, polls[1..]));
  }

  /** What one read of the first n events gives, up to the first terminal event. */
  function Due(log: seq<Event>, last: nat, n: nat): seq<Event>
    requires n <= |log|
  {
    UntilEnd(Above(log[..n], last))
  }

  lemma DueIsSlice(log: seq<Event>, last: nat, n: nat)
    requires Numbered(log) && n <= |log|
    ensures var i := Start(log, last); Due(log, last, n) == if i <= n then log[i..Stop(log, i, n)] else []
  {
    var i := Start(log, last);
    FindsSlice(log, last, n);
    if i <= n {
      UntilEndIsStop(log, i, n);
    }
  }

  predicate DoneOrError(e: Event) {
    e.kind == "done" || e.kind == "error"
  }

  /** What is due is the stretch of the log from the first number above the reader's on, as far as the first
      `done` or `error` in it, or all that is there. */
  lemma DueExactly(log: seq<Event>, last: nat, n: nat) returns (i: nat, k: nat)
    requires Numbered(log) && n <= |log|
    ensures i <= k <= |log| && Due(log, last, n) == log[i..k]
    ensures forall j :: 0 <= j < |log| ==> (log[j].seqNo > last <==> j >= i)
    ensures forall j :: i <= j < k - 1 ==> !DoneOrError(log[j])
    ensures (i < k <= n && DoneOrError(log[k - 1])) || k == if n > i then n else i
  {
    i := Start(log, last);
    k := End(log, i, n);
    StartMeaning(log, last);
    EndIsDue(log, last, n);
    ClearBefore(log, i, n);
    if i <= n {
      StopMeaning(log, i, n);
    }
  }

  lemma StopOpen(log: seq<Event>, i: nat, n: nat, m: nat)
    requires i <= n <= m <= |log| && !HasEnd(log[i..n])
    ensures Stop(log, i, n) == n && Stop(log, i, m) == Stop(log, n, m)
  {
    StopMeaning(log, i, n);
    StopSplit(log, i, n, m);
  }

  lemma SlicesMeet(log: seq<Event>, i: nat, n: nat, k: nat)
    requires i <= n <= k <= |log|
    ensures log[i..k] == log[i..n] + log[n..k]
  {}

  /** A later wait goes on where the one before stopped. */
  lemma DueGoesOn(log: seq<Event>, last: nat, next: nat, n: nat, m: nat)
    requires Numbered(log) && n <= m <= |log|
    requires var i := Start(log, last); if n < i then next == last else Start(log, next) == Stop(log, i, n)
    requires n < Start(log, last) || !HasEnd(log[Start(log, last)..n])
    ensures Due(log, last, m) == Due(log, last, n) + Due(log, next, m)
  {
    var i := Start(log, last);
    DueIsSlice(log, last, n);
    if n < i {
      assert [] + Due(log, next, m) == Due(log, next, m);
    } else {
      DueIsSlice(log, last, m);
      DueIsSlice(log, next, m);
      StopOpen(log, i, n, m);
      SlicesMeet(log, i, n, Stop(log, n, m));
    }
  }

  lemma ServeEnded(log: seq<Event>, last: nat, n: nat, m: nat, misses: nat, r: Round)
    requires Numbered(log) && n <= m <= |log| && Sends(log, last, misses, n, r) && r.ended
    ensures Due(log, last, m) == Events(r.items)
  {
    DueIsSlice(log, last, n);
    DueIsSlice(log, last, m);
    StopSplit(log, Start(log, last), n, m);
  }

  /** Over any waits, a connection that is not cut sends exactly what one read at its last wait would have
      given, up to the first terminal event. */
  lemma {:induction false} ServeIsSlice(log: seq<Event>, last: nat, floor: nat, misses: nat, sizes: seq<nat>)
    requires Numbered(log) && Steady(log, floor, misses, sizes) && floor <= |log| && sizes != []
    requires Within(log, sizes)
    ensures Events(Serve(last, misses, Waits(log, last, misses, sizes))) == Due(log, last, sizes[|sizes| - 1])
    decreases |sizes|
  {
    var n, m := sizes[0], sizes[|sizes| - 1];
    var r := Wait(last, misses, Poll(Above(log[..n], last), n > 0));
    WaitIsSlice(log, last, misses, n);
    ServeWaits(log, last, misses, sizes);
    if |sizes| > 1 {
      SteadySizes(log, n, r.misses, sizes[1..]);
      if r.ended {
        ServeEnded(log, last, n, m, misses, r);
      } else {
        ServeIsSlice(log, r.last, n, r.misses, sizes[1..]);
        DueGoesOn(log, last, r.last, n, m);
      }
    } else {
      assert Waits(log, r.last, r.misses, sizes[1..]) == [];
    }
  }

  // ---- Places in the log ----

  ghost predicate Clear(log: seq<Event>, from: nat, to: int) {
    to <= |log| && forall i :: from <= i < to ==> !Ends(log[i])
  }

  /** The end of what is due to a reader at `from` when n events are there. */
  function End(log: seq<Event>, from: nat, n: nat): (k: nat)
    requires from <= |log| && n <= |log|
    ensures from <= k <= |log| && (k > from ==> k <= n)
  {
    if from <= n then Stop(log, from, n) else from
  }

  lemma EndIsDue(log: seq<Event>, last: nat, n: nat)
    requires Numbered(log) && n <= |log|
    ensures Due(log, last, n) == log[Start(log, last)..End(log, Start(log, last), n)]
  {
    DueIsSlice(log, last, n);
  }

  lemma ClearBefore(log: seq<Event>, from: nat, n: nat)
    requires from <= |log| && n <= |log|
    ensures Clear(log, from, End(log, from, n) - 1)
  {
    if from <= n {
      StopMeaning(log, from, n);
    }
  }

  /** A reader that has passed no terminal event is due the rest. */
  lemma {:induction false} EndGoesOn(log: seq<Event>, from: nat, to: nat, n: nat)
    requires from <= to <= |log| && n <= |log| && (from < to ==> to <= n) && Clear(log, from, to)
    ensures End(log, from, n) == End(log, to, n)
    decreases |log| - from
  {
    if from < to {
      EndGoesOn(log, from + 1, to, n);
    }
  }

  /** A reader that has just passed the first one is due nothing more. */
  lemma {:induction false} EndReached(log: seq<Event>, from: nat, to: nat, n: nat)
    requires from < to <= n <= |log| && Clear(log, from, to - 1) && Ends(log[to - 1])
    ensures End(log, from, n) == to
    decreases |log| - from
  {
    if from < to - 1 {
      EndReached(log, from + 1, to, n);
    }
  }

  // ---- Any buffer ----

  /** At most one terminal event, and nothing behind it. */
  ghost predicate EndsOnce(items: seq<Item>) {
    forall i :: 0 <= i < |items| - 1 && items[i].Sent? ==> !DoneOrError(items[i].event)
  }

  lemma WaitEndsOnce(last: nat, misses: nat, poll: Poll)
    ensures var r := Wait(last, misses, poll);
            forall i :: 0 <= i < |r.items| - (if r.ended then 1 else 0) && r.items[i].Sent? ==> !Ends(r.items[i].event)
  {
    var n := UntilEndMeaning(poll.events);
    assert !HasEnd(poll.events) ==> forall i :: 0 <= i < |poll.events| ==> !Ends(poll.events[i]);
  }

  /** Whatever the buffer does, a connection sends at most one terminal event, and nothing after it. */
  lemma {:induction false} ServeEndsOnce(last: nat, misses: nat, polls: seq<Poll>)
    ensures EndsOnce(Serve(last, misses, polls))
    decreases |polls|
  {
    if polls != [] {
      var r := Wait(last, misses, polls[0]);
      WaitEndsOnce(last, misses, polls[0]);
      if !r.ended {
        var rest := Serve(r.last, r.misses, polls[1..]);
        ServeEndsOnce(r.last, r.misses, polls[1..]);
        forall i | 0 <= i < |r.items + rest| - 1 && (r.items + rest)[i].Sent? ensures !Ends((r.items + rest)[i].event) {
          if i >= |r.items| {
            var j := i - |r.items|;
            assert (r.items + rest)[i] == rest[j];
            assert !Ends(rest[j].event);
          } else {
            assert (r.items + rest)[i] == r.items[i];
            assert !Ends(r.items[i].event);
          }
        }
      }
    }
  }

  /** A buffer that is gone ends the connection at the second wait that finds nothing, with a terminal
      event under the last number sent. */
  lemma GoneBufferEnds(last: nat, polls: seq<Poll>)
    requires |polls| >= 2 && polls[0] == Poll([], false) && polls[1] == Poll([], false)
    ensures Serve(last, 0, polls) == [Heartbeat, Sent(Event(last, "error", "STREAM_INTERRUPTED"))]
  {
    assert polls[1..][0] == polls[1];
    assert Serve(last, 1, polls[1..]) == [Sent(Event(last, "error", "STREAM_INTERRUPTED"))];
  }
}
