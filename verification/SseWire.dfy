/** The text of the event stream (backend/api/sse.py) read back by the parser of section 9.2 of the
    WHATWG HTML standard, and resumption by Last-Event-ID (backend/api/v1/conversations.py,
    `_parse_last_event_id`; frontend/src/api/sse.ts keeps the id of the last event it was given). */
module SseWire {
  import opened B = StreamBuffer

  // ---- Numbers ----

  function Digit(d: nat): char
    requires d < 10
  {
    '0' + d as char
  }

  function Dec(n: nat): string {
    if n < 10 then [Digit(n)] else Dec(n / 10) + [Digit(n % 10)]
  }

  predicate IsAsciiDigit(c: char) {
    '0' <= c <= '9'
  }

  function Value(s: string): nat
    requires forall c :: c in s ==> IsAsciiDigit(c)
  {
    if s == "" then 0
    else
      var c := s[|s| - 1];
      assert IsAsciiDigit(c);
      10 * Value(s[..|s| - 1]) + (c as int - '0' as int)
  }

  lemma {:induction false} DecRoundTrip(n: nat)
    ensures Dec(n) != "" && (forall c :: c in Dec(n) ==> IsAsciiDigit(c)) && Value(Dec(n)) == n
  {
    if n < 10 {
      assert Dec(n)[..0] == "";
      assert Value("") == 0;
    } else {
      DecRoundTrip(n / 10);
      assert Dec(n)[..|Dec(n)| - 1] == Dec(n / 10);
    }
  }

  /** `str.isdigit` on the characters a header can carry (ISO 8859-1): also the superscripts. */
  predicate IsDigit(c: char) {
    IsAsciiDigit(c) || c == '\U{00B2}' || c == '\U{00B3}' || c == '\U{00B9}'
  }

  datatype Option<T> = None | Some(value: T)

  /** `Number`, the 422 answer, or the `ValueError` of `int` that nothing catches. */
  datatype Parsed = Number(n: nat) | Unprocessable | Crash

  function ParseLastEventId(raw: Option<string>): Parsed {
    if raw.None? then Number(0)
    else if raw.value == "" || !(forall c :: c in raw.value ==> IsDigit(c)) then Unprocessable
    else if forall c :: c in raw.value ==> IsAsciiDigit(c) then Number(Value(raw.value))
    else Crash
  }

  /** The header is read exactly when it is absent or a non-empty run of ASCII digits; it is refused with
      422 exactly when it is empty or some character is no digit at all; a superscript digit passes the
      check and then breaks the conversion. */
  lemma HeaderExactly(raw: Option<string>, n: nat)
    ensures ParseLastEventId(raw).Number? <==>
              raw.None? || (raw.value != "" && forall c :: c in raw.value ==> IsAsciiDigit(c))
    ensures ParseLastEventId(raw).Unprocessable? <==>
              raw.Some? && (raw.value == "" || exists c :: c in raw.value && !IsDigit(c))
    ensures ParseLastEventId(raw).Crash? <==>
              raw.Some? && (forall c :: c in raw.value ==> IsDigit(c)) && exists c :: c in raw.value && !IsAsciiDigit(c)
    ensures ParseLastEventId(Some(Dec(n))) == Number(n)
    ensures ParseLastEventId(Some("\U{00B2}")) == Crash
  {
    DecRoundTrip(n);
    assert "\U{00B2}"[0] in "\U{00B2}";
    if raw.Some? && raw.value != "" && forall c :: c in raw.value ==> IsAsciiDigit(c) {
      assert forall c :: c in raw.value ==> IsDigit(c);
    }
  }

  // ---- The producer of text ----

  function FieldLine(name: string, value: string): string {
    name + ": " + value + "\n"
  }

  function FormatEvent(e: Event): string {
    FieldLine("id", Dec(e.seqNo)) + FieldLine("event", e.kind) + FieldLine("data", e.data) + "\n"
  }

  function FormatHeartbeat(): string {
    ": heartbeat\n" + "\n"
  }

  function Render(items: seq<Item>): string {
    if items == [] then ""
    else (if items[0].Sent? then FormatEvent(items[0].event) else FormatHeartbeat()) + Render(items[1..])
  }

  /** One line of JSON and a name: no line break inside. */
  predicate OneLine(s: string) {
    forall i :: 0 <= i < |s| ==> s[i] != '\n' && s[i] != '\r'
  }

  predicate Sendable(e: Event) {
    e.kind != "" && OneLine(e.kind) && OneLine(e.data)
  }

  // ---- The standard's parser ----

  datatype Message = Message(kind: string, data: string, id: string)

  /** The line being read, whether it follows a carriage return, and the three buffers. */
  datatype Parser = Parser(line: string, cr: bool, data: string, kind: string, id: string, out: seq<Message>)

  function Fresh(id: string, out: seq<Message>): Parser {
    Parser("", false, "", "", id, out)
  }

  function ColonAt(line: string): nat
    ensures ColonAt(line) <= |line|
  {
    if line == "" || line[0] == ':' then 0 else 1 + ColonAt(line[1..])
  }

  function FieldValue(line: string): string {
    var k := ColonAt(line);
    if k == |line| then "" else
      var v := line[k + 1..];
      if v != "" && v[0] == ' ' then v[1..] else v
  }

  function FieldName(line: string): string {
    line[..ColonAt(line)]
  }

  function Field(p: Parser, name: string, value: string): Parser {
    if name == "event" then p.(kind := value)
    else if name == "data" then p.(data := p.data + value + "\n")
    else if name == "id" then (if '\0' in value then p else p.(id := value))
    else p
  }

  function Dispatch(p: Parser): Parser {
    if p.data == "" then p.(kind := "")
    else
      var data := if p.data[|p.data| - 1] == '\n' then p.data[..|p.data| - 1] else p.data;
      p.(data := "", kind := "", out := p.out + [Message(if p.kind == "" then "message" else p.kind, data, p.id)])
  }

  function EndLine(p: Parser): Parser {
    var q := p.(line := "");
    if p.line == "" then Dispatch(q)
    else if p.line[0] == ':' then q
    else Field(q, FieldName(p.line), FieldValue(p.line))
  }

  function Feed(p: Parser, c: char): Parser {
    if c == '\n' && p.cr then p.(cr := false)
    else if c == '\n' then EndLine(p).(cr := false)
    else if c == '\r' then EndLine(p).(cr := true)
    else p.(line := p.line + [c], cr := false)
  }

  function Run(p: Parser, text: string): Parser {
    if text == "" then p else Feed(Run(p, text[..|text| - 1]), text[|text| - 1])
  }

  /** What a client has been given by a text, of which the end may be missing. */
  function Parse(text: string): seq<Message> {
    Run(Fresh("", []), text).out
  }

  // ---- Reading back ----

  lemma {:induction false} RunConcat(p: Parser, a: string, b: string)
    ensures Run(p, a + b) == Run(Run(p, a), b)
  {
    if b == "" {
      assert a + b == a;
    } else {
      assert (a + b)[..|a + b| - 1] == a + b[..|b| - 1];
      RunConcat(p, a, b[..|b| - 1]);
    }
  }

  lemma FeedGrows(p: Parser, c: char)
    ensures p.out <= Feed(p, c).out
  {}

  /** More text never takes a message back. */
  lemma {:induction false} RunGrows(p: Parser, text: string, n: nat)
    requires n <= |text|
    ensures Run(p, text[..n]).out <= Run(p, text).out
  {
    if n == |text| {
      assert text[..n] == text;
    } else {
      var init := text[..|text| - 1];
      assert init[..n] == text[..n];
      RunGrows(p, init, n);
      FeedGrows(Run(p, init), text[|text| - 1]);
    }
  }

  /** One more character of the text, and of a line. */
  lemma RunSnoc(p: Parser, text: string, c: char)
    ensures Run(p, text + [c]) == Feed(Run(p, text), c)
  {
    assert (text + [c])[..|text + [c]| - 1] == text;
  }

  lemma FeedPlain(p: Parser, line: string, c: char)
    requires c != '\n' && c != '\r' && !p.cr
    ensures Feed(p.(line := line), c) == p.(line := line + [c])
  {}

  lemma {:induction false} RunLine(p: Parser, s: string)
    requires OneLine(s) && p.line == "" && !p.cr
    ensures Run(p, s) == p.(line := s)
    decreases |s|
  {
    if s != "" {
      var init, c := s[..|s| - 1], s[|s| - 1];
      RunLine(p, init);
      RunSnoc(p, init, c);
      FeedPlain(p, init, c);
      assert s == init + [c];
    }
  }

  lemma RunFullLine(p: Parser, s: string)
    requires OneLine(s) && p.line == "" && !p.cr
    ensures Run(p, s + "\n") == EndLine(p.(line := s)).(cr := false)
  {
    RunConcat(p, s, "\n");
    RunLine(p, s);
    assert "\n"[..0] == "";
    assert Run(p.(line := s), "\n") == Feed(Run(p.(line := s), ""), '\n');
  }

  predicate NoColon(s: string) {
    forall i :: 0 <= i < |s| ==> s[i] != ':'
  }

  lemma {:induction false} ColonFirst(name: string, rest: string)
    requires NoColon(name)
    ensures ColonAt(name + ":" + rest) == |name|
  {
    var line := name + ":" + rest;
    if name != "" {
      assert line[0] == name[0];
      assert line[1..] == name[1..] + ":" + rest;
      ColonFirst(name[1..], rest);
    }
  }

  lemma FieldParts(name: string, value: string)
    requires name != "" && NoColon(name)
    ensures var line := name + ": " + value;
            line != "" && line[0] != ':' && FieldName(line) == name && FieldValue(line) == value
  {
    var line := name + ": " + value;
    assert line == name + ":" + (" " + value);
    ColonFirst(name, " " + value);
    assert line[..|name|] == name;
    assert line[|name| + 1..] == " " + value;
    assert line[|name| + 1..][1..] == value;
    assert line[0] == name[0];
  }

  lemma RunField(p: Parser, name: string, value: string)
    requires OneLine(name) && OneLine(value) && name != "" && NoColon(name)
    requires p.line == "" && !p.cr
    ensures Run(p, FieldLine(name, value)) == Field(p, name, value)
  {
    var line := name + ": " + value;
    FieldParts(name, value);
    RunFullLine(p, line);
    assert p.(line := line).(line := "") == p;
  }

  lemma {:induction false} DigitsAreSafe(n: nat)
    ensures OneLine(Dec(n)) && '\0' !in Dec(n)
  {
    if n >= 10 {
      DigitsAreSafe(n / 10);
    }
  }

  lemma RunId(p: Parser, n: nat)
    requires p.line == "" && !p.cr
    ensures Run(p, FieldLine("id", Dec(n))) == p.(id := Dec(n))
  {
    DigitsAreSafe(n);
    RunField(p, "id", Dec(n));
  }

  lemma RunKind(p: Parser, kind: string)
    requires p.line == "" && !p.cr && OneLine(kind)
    ensures Run(p, FieldLine("event", kind)) == p.(kind := kind)
  {
    RunField(p, "event", kind);
  }

  lemma RunData(p: Parser, data: string)
    requires p.line == "" && !p.cr && OneLine(data) && p.data == ""
    ensures Run(p, FieldLine("data", data)) == p.(data := data + "\n")
  {
    RunField(p, "data", data);
    assert "" + data == data;
  }

  lemma RunBlank(p: Parser)
    requires p.line == "" && !p.cr
    ensures Run(p, "\n") == Dispatch(p).(cr := false)
  {
    RunFullLine(p, "");
    assert "" + "\n" == "\n";
  }

  lemma RunFour(p: Parser, a: string, b: string, c: string, d: string)
    ensures Run(p, a + b + c + d) == Run(Run(Run(Run(p, a), b), c), d)
  {
    RunConcat(p, a, b);
    RunConcat(p, a + b, c);
    RunConcat(p, a + b + c, d);
  }

  function MessageOf(e: Event): Message {
    Message(e.kind, e.data, Dec(e.seqNo))
  }

  lemma RunEvent(id: string, out: seq<Message>, e: Event)
    requires Sendable(e)
    ensures Run(Fresh(id, out), FormatEvent(e)) == Fresh(Dec(e.seqNo), out + [MessageOf(e)])
  {
    var p0 := Fresh(id, out);
    var p1 := p0.(id := Dec(e.seqNo));
    var p2 := p1.(kind := e.kind);
    var p3 := p2.(data := e.data + "\n");
    RunId(p0, e.seqNo);
    RunKind(p1, e.kind);
    RunData(p2, e.data);
    RunBlank(p3);
    RunFour(p0, FieldLine("id", Dec(e.seqNo)), FieldLine("event", e.kind), FieldLine("data", e.data), "\n");
    assert p3.data[..|p3.data| - 1] == e.data;
  }

  lemma RunHeartbeat(id: string, out: seq<Message>)
    ensures Run(Fresh(id, out), FormatHeartbeat()) == Fresh(id, out)
  {
    var p := Fresh(id, out);
    RunFullLine(p, ": heartbeat");
    RunBlank(p);
    assert ": heartbeat" + "\n" == ": heartbeat\n";
    RunConcat(p, ": heartbeat\n", "\n");
  }

  function Messages(events: seq<Event>): seq<Message> {
    seq(|events|, i requires 0 <= i < |events| => MessageOf(events[i]))
  }

  lemma MessagesConcat(a: seq<Event>, b: seq<Event>)
    ensures Messages(a + b) == Messages(a) + Messages(b)
  {}

  ghost predicate AllSendable(items: seq<Item>) {
    items != [] ==> (items[0].Sent? ==> Sendable(items[0].event)) && AllSendable(items[1..])
  }

  lemma {:induction false} SentAreSendable(items: seq<Item>)
    requires forall e :: e in Events(items) ==> Sendable(e)
    ensures AllSendable(items)
  {
    if items != [] {
      assert items[0].Sent? ==> Events(items)[0] == items[0].event;
      assert forall e :: e in Events(items[1..]) ==> e in Events(items);
      SentAreSendable(items[1..]);
    }
  }

  /** What a reader between two events is given by the text of some items. */
  function Given(id: string, out: seq<Message>, items: seq<Item>): seq<Message> {
    Run(Fresh(id, out), Render(items)).out
  }

  lemma GivenStep(id: string, out: seq<Message>, items: seq<Item>)
    requires items != [] && AllSendable(items)
    ensures Given(id, out, items) ==
              if items[0].Sent? then Given(Dec(items[0].event.seqNo), out + [MessageOf(items[0].event)], items[1..])
              else Given(id, out, items[1..])
  {
    if items[0].Sent? {
      RunEvent(id, out, items[0].event);
      RunConcat(Fresh(id, out), FormatEvent(items[0].event), Render(items[1..]));
    } else {
      RunHeartbeat(id, out);
      RunConcat(Fresh(id, out), FormatHeartbeat(), Render(items[1..]));
    }
  }

  lemma MessagesCons(out: seq<Message>, e: Event, rest: seq<Event>)
    ensures out + [MessageOf(e)] + Messages(rest) == out + Messages([e] + rest)
  {
    MessagesConcat([e], rest);
    assert Messages([e]) == [MessageOf(e)];
  }

  lemma {:induction false} GivenAll(id: string, out: seq<Message>, items: seq<Item>)
    requires AllSendable(items)
    ensures Given(id, out, items) == out + Messages(Events(items))
    decreases |items|
  {
    if items == [] {
      assert Messages(Events(items)) == [];
    } else {
      GivenStep(id, out, items);
      var rest := items[1..];
      if items[0].Sent? {
        GivenAll(Dec(items[0].event.seqNo), out + [MessageOf(items[0].event)], rest);
        MessagesCons(out, items[0].event, Events(rest));
      } else {
        GivenAll(id, out, rest);
        assert Events(items) == Events(rest);
      }
    }
  }

  /** The text of a connection, read to the end, gives its events and nothing else; cut anywhere, it
      gives a prefix of them. */
  lemma WireRoundTrip(items: seq<Item>, cut: nat)
    requires (forall e :: e in Events(items) ==> Sendable(e)) && cut <= |Render(items)|
    ensures Parse(Render(items)) == Messages(Events(items))
    ensures Parse(Render(items)[..cut]) <= Messages(Events(items))
  {
    SentAreSendable(items);
    GivenAll("", [], items);
    assert [] + Messages(Events(items)) == Messages(Events(items));
    RunGrows(Fresh("", []), Render(items), cut);
  }

  // ---- Resumption ----

  /** One connection of the client: how much of the log each wait of the server finds, and after how many
      characters the text is cut, if it is. */
  datatype Session = Session(sizes: seq<nat>, cut: Option<nat>)

  function ArrivedText(log: seq<Event>, last: nat, s: Session): string
    requires Within(log, s.sizes)
  {
    var text := Render(Serve(last, 0, Waits(log, last, 0, s.sizes)));
    if s.cut.Some? && s.cut.value <= |text| then text[..s.cut.value] else text
  }

  function Arrived(log: seq<Event>, last: nat, s: Session): seq<Message>
    requires Within(log, s.sizes)
  {
    Parse(ArrivedText(log, last, s))
  }

  predicate Over(got: seq<Message>) {
    got != [] && got[|got| - 1].kind in TERMINAL
  }

  /** The number the next connection starts behind: the id of the last event that arrived, sent back as
      the header and read by the server. */
  function NextPosition(last: nat, got: seq<Message>): nat {
    if got == [] then last
    else
      match ParseLastEventId(Some(got[|got| - 1].id))
      case Number(n) => n
      case _ => last
  }

  /** What one connection comes to: what the client was given, the number it asks for next, and whether it
      is through. */
  datatype Leg = Leg(got: seq<Message>, next: nat, over: bool)

  /** All a client is given over the connections k to n, when the k-th one, opened with a number, comes to
      `legs` of both. */
  function Collected(legs: (nat, nat) -> Leg, last: nat, k: nat, n: nat): seq<Message>
    requires k <= n
    decreases n - k
  {
    if k == n then []
    else
      var leg := legs(last, k);
      if leg.over then leg.got else leg.got + Collected(legs, leg.next, k + 1, n)
  }

  predicate AllWithin(log: seq<Event>, sessions: seq<Session>) {
    forall k :: 0 <= k < |sessions| ==> Within(log, sessions[k].sizes)
  }

  function LegOf(log: seq<Event>, last: nat, s: Session): Leg
    requires Within(log, s.sizes)
  {
    var got := Arrived(log, last, s);
    Leg(got, NextPosition(last, got), Over(got))
  }

  function Legs(log: seq<Event>, sessions: seq<Session>): (nat, nat) -> Leg
    requires AllWithin(log, sessions)
  {
    (last: nat, k: nat) => if k < |sessions| then LegOf(log, last, sessions[k]) else Leg([], last, true)
  }

  function Received(log: seq<Event>, last: nat, sessions: seq<Session>): seq<Message>
    requires AllWithin(log, sessions)
  {
    Collected(Legs(log, sessions), last, 0, |sessions|)
  }

  /** How much of the log the connections before the k-th have found. */
  function Found(floor: nat, sessions: seq<Session>, k: nat): nat
    requires k <= |sessions|
  {
    if k == 0 then floor else Latest(Found(floor, sessions, k - 1), sessions[k - 1].sizes)
  }

  ghost predicate SteadyAt(log: seq<Event>, floor: nat, sessions: seq<Session>, k: nat)
    requires k < |sessions|
  {
    Steady(log, Found(floor, sessions, k), 0, sessions[k].sizes)
  }

  /** Every connection meets a buffer that is still there, and no smaller than the one before did. */
  ghost predicate AllSteady(log: seq<Event>, floor: nat, sessions: seq<Session>) {
    forall k: nat {:trigger SteadyAt(log, floor, sessions, k)} :: k < |sessions| ==> SteadyAt(log, floor, sessions, k)
  }

  lemma MessagesPrefix(events: seq<Event>, got: seq<Message>)
    requires got <= Messages(events)
    ensures |got| <= |events| && got == Messages(events[..|got|])
  {}

  /** Part of a text that reads as some events reads as the first of them. */
  lemma CutReadsPrefix(events: seq<Event>, items: seq<Item>, text: string)
    requires (forall e :: e in events ==> Sendable(e)) && Events(items) == events && text <= Render(items)
    ensures |Parse(text)| <= |events| && Parse(text) == Messages(events[..|Parse(text)|])
  {
    WireRoundTrip(items, |text|);
    assert Render(items)[..|text|] == text;
    MessagesPrefix(events, Parse(text));
  }

  lemma DueInLog(log: seq<Event>, last: nat, n: nat)
    requires Numbered(log) && n <= |log|
    ensures forall e :: e in Due(log, last, n) ==> e in log
  {
    DueIsSlice(log, last, n);
  }

  /** What arrives over one connection is a part of what is due, all of it when the text is not cut. */
  lemma ArrivedIsDue(log: seq<Event>, last: nat, floor: nat, s: Session)
    requires Numbered(log) && (forall e :: e in log ==> Sendable(e)) && floor <= |log|
    requires Within(log, s.sizes) && s.sizes != [] && Steady(log, floor, 0, s.sizes)
    ensures var got, due := Arrived(log, last, s), Due(log, last, s.sizes[|s.sizes| - 1]);
            && |got| <= |due| && got == Messages(due[..|got|]) && (s.cut.None? ==> got == Messages(due))
  {
    var m := s.sizes[|s.sizes| - 1];
    var items := Serve(last, 0, Waits(log, last, 0, s.sizes));
    ServeIsSlice(log, last, floor, 0, s.sizes);
    DueInLog(log, last, m);
    CutReadsPrefix(Due(log, last, m), items, ArrivedText(log, last, s));
    WireRoundTrip(items, 0);
  }

  /** The messages are those of the log from i on. */
  predicate Reads(log: seq<Event>, i: nat, got: seq<Message>)
    decreases |got|
  {
    got == [] || (i < |log| && got[0] == MessageOf(log[i]) && Reads(log, i + 1, got[1..]))
  }

  lemma {:induction false} ReadsExactly(log: seq<Event>, i: nat, got: seq<Message>)
    requires i <= |log|
    ensures Reads(log, i, got) <==> i + |got| <= |log| && got == Messages(log[i..i + |got|])
    decreases |got|
  {
    if got != [] && i < |log| {
      ReadsExactly(log, i + 1, got[1..]);
      if i + |got| <= |log| {
        assert log[i..i + |got|] == [log[i]] + log[i + 1..i + |got|];
        MessagesConcat([log[i]], log[i + 1..i + |got|]);
        assert Messages([log[i]]) == [MessageOf(log[i])];
        assert got == [got[0]] + got[1..];
      }
    }
  }

  lemma {:induction false} ReadsConcat(log: seq<Event>, i: nat, got: seq<Message>, more: seq<Message>)
    requires Reads(log, i, got) && Reads(log, i + |got|, more)
    ensures Reads(log, i, got + more)
    decreases |got|
  {
    if got == [] {
      assert [] + more == more;
    } else {
      ReadsConcat(log, i + 1, got[1..], more);
      assert (got + more)[1..] == got[1..] + more;
    }
  }

  lemma ReadsLast(log: seq<Event>, i: nat, got: seq<Message>)
    requires i <= |log| && Reads(log, i, got) && got != []
    ensures i + |got| <= |log| && got[|got| - 1] == MessageOf(log[i + |got| - 1])
  {
    ReadsExactly(log, i, got);
    assert log[i..i + |got|][|got| - 1] == log[i + |got| - 1];
  }

  predicate EndsAt(log: seq<Event>, i: nat, to: nat)
    requires to <= |log|
  {
    to > i && Ends(log[to - 1])
  }

  /** What the client may be given over a connection that finds at most m events: a run of the log from
      its place on, no further than what is due, and that far when the text is not cut. */
  ghost predicate Gives(log: seq<Event>, i: nat, m: nat, cut: bool, got: seq<Message>) {
    && m <= |log| && i + |got| <= |log| && i + |got| <= End(log, i, m)
    && Reads(log, i, got) && (!cut ==> i + |got| == End(log, i, m))
  }

  lemma ArrivedIsGiven(log: seq<Event>, last: nat, floor: nat, s: Session)
    requires Numbered(log) && (forall e :: e in log ==> Sendable(e)) && floor <= |log|
    requires Within(log, s.sizes) && Steady(log, floor, 0, s.sizes)
    ensures floor <= Latest(floor, s.sizes) <= |log|
    ensures Gives(log, Start(log, last), Latest(floor, s.sizes), IsCut(s), Arrived(log, last, s))
  {
    SteadySizes(log, floor, 0, s.sizes);
    if s.sizes == [] {
      WireRoundTrip([], 0);
      assert Arrived(log, last, s) == [];
    } else {
      ArrivedIsDue(log, last, floor, s);
      PartIsGiven(log, last, Latest(floor, s.sizes), s.cut.Some?, Arrived(log, last, s));
    }
  }

  lemma PartIsGiven(log: seq<Event>, last: nat, m: nat, cut: bool, got: seq<Message>)
    requires Numbered(log) && m <= |log| && |got| <= |Due(log, last, m)|
    requires got == Messages(Due(log, last, m)[..|got|]) && (!cut ==> got == Messages(Due(log, last, m)))
    ensures Gives(log, Start(log, last), m, cut, got)
  {
    var i := Start(log, last);
    EndIsDue(log, last, m);
    assert log[i..End(log, i, m)][..|got|] == log[i..i + |got|];
    ReadsExactly(log, i, got);
  }

  /** The number of the last event given leads the next connection to the place behind it. */
  lemma NextPlace(log: seq<Event>, last: nat, m: nat, cut: bool, got: seq<Message>)
    requires Numbered(log) && Gives(log, Start(log, last), m, cut, got)
    ensures Start(log, NextPosition(last, got)) == Start(log, last) + |got|
    ensures Over(got) <==> EndsAt(log, Start(log, last), Start(log, last) + |got|)
  {
    if got != [] {
      var to := Start(log, last) + |got|;
      ReadsLast(log, Start(log, last), got);
      HeaderExactly(None, log[to - 1].seqNo);
      NextStart(log, last, to);
    }
  }

  /** A connection that is over gave all that is ever due; after any other the rest is due at the new place. */
  lemma AfterGiven(log: seq<Event>, i: nat, m: nat, cut: bool, got: seq<Message>, n: nat)
    requires i <= |log| && Gives(log, i, m, cut, got) && m <= n <= |log|
    ensures var to := i + |got|;
            && Clear(log, i, to - 1)
            && (if EndsAt(log, i, to) then End(log, i, n) == to else Clear(log, i, to) && End(log, i, n) == End(log, to, n))
  {
    var to := i + |got|;
    ClearBefore(log, i, m);
    if EndsAt(log, i, to) {
      EndReached(log, i, to, n);
    } else {
      EndGoesOn(log, i, to, n);
    }
  }

  lemma {:induction false} FoundGrows(log: seq<Event>, floor: nat, sessions: seq<Session>, k: nat, n: nat)
    requires floor <= |log| && AllSteady(log, floor, sessions) && k <= n <= |sessions|
    ensures Found(floor, sessions, k) <= Found(floor, sessions, n) <= |log|
  {
    if n > 0 {
      FoundGrows(log, floor, sessions, if k < n then k else n - 1, n - 1);
      assert SteadyAt(log, floor, sessions, n - 1);
      SteadySizes(log, Found(floor, sessions, n - 1), 0, sessions[n - 1].sizes);
    }
  }

  /** The text of the connection did not arrive as a whole, or the server never looked at the buffer. */
  predicate IsCut(s: Session) {
    s.cut.Some? || s.sizes == []
  }

  /** A client that was given the log from i up to `to`, and, unless it was cut off in the end, all that is
      due of n events. */
  ghost predicate Holds(log: seq<Event>, i: nat, n: nat, cut: bool, to: nat, got: seq<Message>) {
    && i <= to <= |log| && n <= |log| && |got| == to - i && Reads(log, i, got) && Clear(log, i, to - 1)
    && (!cut ==> to == End(log, i, n))
  }

  /** A connection opened at i that finds m events comes to what it should. */
  ghost predicate Leads(log: seq<Event>, i: nat, m: nat, cut: bool, leg: Leg) {
    Gives(log, i, m, cut, leg.got) && Start(log, leg.next) == i + |leg.got| && (leg.over <==> EndsAt(log, i, i + |leg.got|))
  }

  lemma HoldsHere(log: seq<Event>, i: nat, m: nat, cut: bool, leg: Leg, n: nat, cutLater: bool)
    requires i <= |log| && Leads(log, i, m, cut, leg) && m <= n <= |log| && (leg.over || (cut == cutLater && m == n))
    ensures Holds(log, i, n, cutLater, i + |leg.got|, leg.got)
  {
    AfterGiven(log, i, m, cut, leg.got, n);
  }

  lemma HoldsNext(log: seq<Event>, i: nat, m: nat, cut: bool, leg: Leg, n: nat, cutLater: bool, to: nat, more: seq<Message>)
    requires i <= |log| && Leads(log, i, m, cut, leg) && m <= n <= |log| && !leg.over
    requires Holds(log, Start(log, leg.next), n, cutLater, to, more)
    ensures Holds(log, i, n, cutLater, to, leg.got + more)
  {
    AfterGiven(log, i, m, cut, leg.got, n);
    ReadsConcat(log, i, leg.got, more);
  }

  /** So does every connection, wherever it is opened: the k-th finds `found[k]` events. */
  ghost predicate AllLead(log: seq<Event>, found: seq<nat>, cut: seq<bool>, legs: (nat, nat) -> Leg) {
    && |found| == |cut| && (forall j, k :: 0 <= j < k < |found| ==> found[j] <= found[k]) && (forall k :: 0 <= k < |found| ==> found[k] <= |log|)
    && (forall last: nat, k: nat {:trigger legs(last, k)} :: k < |found| ==> Leads(log, Start(log, last), found[k], cut[k], legs(last, k)))
  }

  function AllFound(floor: nat, sessions: seq<Session>): seq<nat> {
    seq(|sessions|, k requires 0 <= k < |sessions| => Found(floor, sessions, k + 1))
  }

  function AllCut(sessions: seq<Session>): seq<bool> {
    seq(|sessions|, k requires 0 <= k < |sessions| => IsCut(sessions[k]))
  }

  lemma OneLeads(log: seq<Event>, last: nat, floor: nat, s: Session)
    requires Numbered(log) && (forall e :: e in log ==> Sendable(e)) && floor <= |log|
    requires Within(log, s.sizes) && Steady(log, floor, 0, s.sizes)
    ensures Leads(log, Start(log, last), Latest(floor, s.sizes), IsCut(s), LegOf(log, last, s))
  {
    ArrivedIsGiven(log, last, floor, s);
    NextPlace(log, last, Latest(floor, s.sizes), IsCut(s), Arrived(log, last, s));
  }

  lemma EachLeads(log: seq<Event>, last: nat, floor: nat, sessions: seq<Session>, k: nat)
    requires Numbered(log) && (forall e :: e in log ==> Sendable(e)) && floor <= |log| && k < |sessions|
    requires AllWithin(log, sessions) && AllSteady(log, floor, sessions)
    ensures Leads(log, Start(log, last), AllFound(floor, sessions)[k], AllCut(sessions)[k], Legs(log, sessions)(last, k))
  {
    assert SteadyAt(log, floor, sessions, k);
    FoundGrows(log, floor, sessions, k, k);
    OneLeads(log, last, Found(floor, sessions, k), sessions[k]);
  }

  lemma FoundsGrow(log: seq<Event>, floor: nat, sessions: seq<Session>)
    requires floor <= |log| && AllSteady(log, floor, sessions)
    ensures var found := AllFound(floor, sessions);
            (forall j, k :: 0 <= j < k < |found| ==> found[j] <= found[k]) && (forall k :: 0 <= k < |found| ==> found[k] <= |log|)
  {
    forall j, k | 0 <= j <= k < |sessions| ensures AllFound(floor, sessions)[j] <= AllFound(floor, sessions)[k] <= |log| {
      FoundGrows(log, floor, sessions, j + 1, k + 1);
    }
  }

  lemma LegsLead(log: seq<Event>, floor: nat, sessions: seq<Session>)
    requires Numbered(log) && (forall e :: e in log ==> Sendable(e)) && floor <= |log|
    requires AllWithin(log, sessions) && AllSteady(log, floor, sessions)
    ensures AllLead(log, AllFound(floor, sessions), AllCut(sessions), Legs(log, sessions))
  {
    FoundsGrow(log, floor, sessions);
    var found, cut, legs := AllFound(floor, sessions), AllCut(sessions), Legs(log, sessions);
    forall last: nat, k: nat | k < |found| ensures Leads(log, Start(log, last), found[k], cut[k], legs(last, k)) {
      EachLeads(log, last, floor, sessions, k);
    }
  }

  /** The connections one after the other. */
  lemma {:induction false} ResumeHolds(log: seq<Event>, last: nat, found: seq<nat>, cut: seq<bool>, legs: (nat, nat) -> Leg, k: nat)
    returns (to: nat)
    requires AllLead(log, found, cut, legs) && k < |found|
    ensures Holds(log, Start(log, last), found[|found| - 1], cut[|cut| - 1], to, Collected(legs, last, k, |found|))
    decreases |found| - k
  {
    var i, n, cutLater, leg := Start(log, last), found[|found| - 1], cut[|cut| - 1], legs(last, k);
    assert Leads(log, i, found[k], cut[k], leg);
    if leg.over || k + 1 == |found| {
      to := i + |leg.got|;
      HoldsHere(log, i, found[k], cut[k], leg, n, cutLater);
      assert leg.got + [] == leg.got;
    } else {
      to := ResumeHolds(log, leg.next, found, cut, legs, k + 1);
      HoldsNext(log, i, found[k], cut[k], leg, n, cutLater, to, Collected(legs, leg.next, k + 1, |found|));
    }
  }

  lemma HoldsMeaning(log: seq<Event>, last: nat, n: nat, cut: bool, to: nat, got: seq<Message>)
    requires Numbered(log) && Holds(log, Start(log, last), n, cut, to, got)
    ensures got == Messages(log[Start(log, last)..to]) && (!cut ==> got == Messages(Due(log, last, n)))
  {
    ReadsExactly(log, Start(log, last), got);
    EndIsDue(log, last, n);
  }

  lemma SessionsHold(log: seq<Event>, last: nat, floor: nat, sessions: seq<Session>) returns (to: nat)
    requires Numbered(log) && (forall e :: e in log ==> Sendable(e)) && floor <= |log|
    requires AllWithin(log, sessions) && AllSteady(log, floor, sessions) && sessions != []
    ensures Found(floor, sessions, |sessions|) <= |log|
    ensures Holds(log, Start(log, last), Found(floor, sessions, |sessions|), IsCut(sessions[|sessions| - 1]), to, Received(log, last, sessions))
  {
    FoundGrows(log, floor, sessions, 0, |sessions|);
    LegsLead(log, floor, sessions);
    to := ResumeHolds(log, last, AllFound(floor, sessions), AllCut(sessions), Legs(log, sessions), 0);
  }

  /** Nothing is given twice, out of order, left out or given behind a terminal event: over any number of
      connections, each cut anywhere, the client is given a run of the log from its number on. */
  lemma ResumeIsExact(log: seq<Event>, last: nat, floor: nat, sessions: seq<Session>) returns (to: nat)
    requires Numbered(log) && (forall e :: e in log ==> Sendable(e)) && floor <= |log|
    requires AllWithin(log, sessions) && AllSteady(log, floor, sessions)
    ensures Start(log, last) <= to <= |log| && Received(log, last, sessions) == Messages(log[Start(log, last)..to])
    ensures forall j :: Start(log, last) <= j < to - 1 ==> !Ends(log[j])
  {
    to := Start(log, last);
    if sessions != [] {
      to := SessionsHold(log, last, floor, sessions);
      HoldsMeaning(log, last, Found(floor, sessions, |sessions|), IsCut(sessions[|sessions| - 1]), to, Received(log, last, sessions));
    }
  }

  /** Nothing is lost either: when the last connection is not cut, the client has in the end what one read
      at its last wait would have given, up to the first terminal event. */
  lemma ResumeIsComplete(log: seq<Event>, last: nat, floor: nat, sessions: seq<Session>)
    requires Numbered(log) && (forall e :: e in log ==> Sendable(e)) && floor <= |log|
    requires AllWithin(log, sessions) && AllSteady(log, floor, sessions)
    requires sessions != [] && !IsCut(sessions[|sessions| - 1])
    ensures var n := Found(floor, sessions, |sessions|); n <= |log| && Received(log, last, sessions) == Messages(Due(log, last, n))
  {
    var to := SessionsHold(log, last, floor, sessions);
    HoldsMeaning(log, last, Found(floor, sessions, |sessions|), false, to, Received(log, last, sessions));
  }
}
