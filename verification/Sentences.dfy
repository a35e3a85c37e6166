/** Sentence and hard splitting of backend/etl/chunk.py: `_SENTENCE_BOUNDARY`, `_sentences`
    and `_hard_split`. */
module Sentences {
  import opened Text
  import opened Tokens

  // The three alternatives of the boundary pattern look at the character before a position
  // and at the white space or line feeds that start there.
  predicate IsTerminator(c: char) {
    c in {'\U{3002}', '\U{FF01}', '\U{FF1F}', '\U{FF1B}', '!', '?', ';'}
  }

  /** Only white space from `a` up to `b`. */
  predicate BlankIn(s: string, a: nat, b: nat)
    requires a <= b <= |s|
  {
    forall i :: a <= i < b ==> IsSpace(s[i])
  }

  function SpaceEnd(s: string, p: nat): (e: nat)
    requires p <= |s|
    ensures p <= e <= |s| && BlankIn(s, p, e)
    ensures e < |s| ==> !IsSpace(s[e])
    decreases |s| - p
  {
    if p < |s| && IsSpace(s[p]) then SpaceEnd(s, p + 1) else p
  }

  function NewlineEnd(s: string, p: nat): (e: nat)
    requires p <= |s|
    ensures p <= e <= |s| && BlankIn(s, p, e)
    ensures p < e ==> s[p] == '\n'
    decreases |s| - p
  {
    if p < |s| && s[p] == '\n' then NewlineEnd(s, p + 1) else p
  }

  datatype Match = NoMatch | Match(end: nat)

  /** The pattern tried at position `p`; `advance` forbids an empty match. */
  function MatchAt(s: string, p: nat, advance: bool): (m: Match)
    requires p <= |s|
    ensures m.Match? ==> p <= m.end <= |s| && BlankIn(s, p, m.end) && (advance ==> p < m.end)
    ensures m.Match? ==> (p > 0 && (IsTerminator(s[p - 1]) || s[p - 1] == '.')) || (p < |s| && s[p] == '\n')
  {
    if p > 0 && IsTerminator(s[p - 1]) && (advance ==> SpaceEnd(s, p) > p) then Match(SpaceEnd(s, p))
    else if p > 0 && s[p - 1] in {'.', '!', '?'} && SpaceEnd(s, p) > p then Match(SpaceEnd(s, p))
    else if NewlineEnd(s, p) > p then Match(NewlineEnd(s, p))
    else NoMatch
  }

  /** `re.split` with a capturing pattern: text and separator pieces alternate. The search goes
      on at the end of the last match, and an empty match may not be followed by another empty
      one at the same place. */
  function SplitFrom(s: string, last: nat, p: nat, emptyBefore: bool): seq<string>
    requires last <= p <= |s|
    decreases |s| - p, !(emptyBefore && p == last)
  {
    match MatchAt(s, p, emptyBefore && p == last)
    case Match(e) =>
      [s[last..p], s[p..e]] + SplitFrom(s, e, e, e == p)
    case NoMatch =>
      if p == |s| then [s[last..]] else SplitFrom(s, last, p + 1, emptyBefore)
  }

  datatype Grouping = Grouping(parts: seq<string>, pending: string)

  /** One round of the loop of `_sentences`: a blank piece sticks to the sentence before it, or
      waits for the first one. */
  function GroupStep(piece: string, g: Grouping): Grouping {
    if piece == "" then g
    else if !Blank(piece) then Grouping(g.parts + [g.pending + piece], "")
    else if g.parts != [] then g.(parts := AppendLast(g.parts, piece))
    else g.(pending := g.pending + piece)
  }

  function AppendLast(parts: seq<string>, t: string): seq<string>
    requires parts != []
  {
    parts[|parts| - 1 := parts[|parts| - 1] + t]
  }

  function GroupAll(pieces: seq<string>, g: Grouping): Grouping {
    if pieces == [] then g else GroupAll(pieces[1..], GroupStep(pieces[0], g))
  }

  function Close(g: Grouping): seq<string> {
    if g.pending != "" && g.parts != [] then AppendLast(g.parts, g.pending)
    else if g.pending != "" then g.parts + [g.pending]
    else g.parts
  }

  function SentencesOf(text: string): seq<string> {
    var parts := Close(GroupAll(SplitFrom(text, 0, 0, false), Grouping([], "")));
    if parts == [] then [text] else parts
  }

  method SplitSentences(text: string) returns (sentences: seq<string>)
    ensures sentences == SentencesOf(text)
  {
    var pieces := SplitFrom(text, 0, 0, false);
    var parts: seq<string> := [];
    var pending := "";
    var i := 0;
    while i < |pieces|
      invariant 0 <= i <= |pieces|
      invariant GroupAll(pieces[i..], Grouping(parts, pending)) == GroupAll(pieces, Grouping([], ""))
    {
      var piece := pieces[i];
      assert pieces[i..][1..] == pieces[i + 1..];
      StripEmpty(piece);
      if piece != "" {
        if Strip(piece) != "" {
          parts := parts + [pending + piece];
          pending := "";
        } else if parts != [] {
          parts := parts[|parts| - 1 := parts[|parts| - 1] + piece];
        } else {
          pending := pending + piece;
        }
      }
      i := i + 1;
    }
    if pending != "" && parts != [] {
      parts := parts[|parts| - 1 := parts[|parts| - 1] + pending];
    } else if pending != "" {
      parts := parts + [pending];
    }
    sentences := if parts == [] then [text] else parts;
  }

  // ---- Nothing is lost, and cuts fall on boundaries ----

  lemma FlattenPair(a: string, b: string, rest: seq<string>)
    ensures Flatten([a, b] + rest) == a + (b + Flatten(rest))
  {
    assert ([a, b] + rest)[1..] == [b] + rest;
    assert ([b] + rest)[1..] == rest;
  }

  lemma FlattenRest(s: string, last: nat, p: nat, e: nat, rest: seq<string>)
    requires last <= p <= e <= |s| && Flatten(rest) == s[e..]
    ensures Flatten([s[last..p], s[p..e]] + rest) == s[last..]
  {
    FlattenPair(s[last..p], s[p..e], rest);
    assert s[last..] == s[last..p] + (s[p..e] + s[e..]);
  }

  lemma {:induction false} SplitConcat(s: string, last: nat, p: nat, emptyBefore: bool)
    requires last <= p <= |s|
    ensures Flatten(SplitFrom(s, last, p, emptyBefore)) == s[last..]
    decreases |s| - p, !(emptyBefore && p == last)
  {
    match MatchAt(s, p, emptyBefore && p == last)
    case Match(e) =>
      SplitConcat(s, e, e, e == p);
      FlattenRest(s, last, p, e, SplitFrom(s, e, e, e == p));
    case NoMatch =>
      if p < |s| {
        SplitConcat(s, last, p + 1, emptyBefore);
      } else {
        FlattenOne(s[last..]);
      }
  }

  lemma FlattenAppendLast(parts: seq<string>, t: string)
    requires parts != []
    ensures Flatten(AppendLast(parts, t)) == Flatten(parts) + t
  {
    var init, last := parts[..|parts| - 1], parts[|parts| - 1];
    assert AppendLast(parts, t) == init + [last + t];
    assert parts == init + [last];
    FlattenSnoc(init, last);
    FlattenSnoc(init, last + t);
  }

  function Written(g: Grouping): string {
    Flatten(g.parts) + g.pending
  }

  predicate Tidy(g: Grouping) {
    g.pending == "" || g.parts == []
  }

  lemma GroupStepWrites(piece: string, g: Grouping)
    requires Tidy(g)
    ensures Tidy(GroupStep(piece, g))
    ensures Written(GroupStep(piece, g)) == Written(g) + piece
  {
    FlattenSnoc(g.parts, g.pending + piece);
    if g.parts != [] {
      FlattenAppendLast(g.parts, piece);
    }
  }

  lemma {:induction false} GroupAllWrites(pieces: seq<string>, g: Grouping)
    requires Tidy(g)
    ensures Tidy(GroupAll(pieces, g))
    ensures Written(GroupAll(pieces, g)) == Written(g) + Flatten(pieces)
  {
    if pieces != [] {
      GroupStepWrites(pieces[0], g);
      GroupAllWrites(pieces[1..], GroupStep(pieces[0], g));
    }
  }

  /** The sentences of any text concatenate back to it. */
  lemma SentencesConcat(text: string)
    ensures Flatten(SentencesOf(text)) == text
  {
    var pieces := SplitFrom(text, 0, 0, false);
    var g := GroupAll(pieces, Grouping([], ""));
    SplitConcat(text, 0, 0, false);
    GroupAllWrites(pieces, Grouping([], ""));
    assert Written(g) == text;
    FlattenSnoc(g.parts, g.pending);
    FlattenOne(text);
  }

  /** The marks that end a sentence whatever follows: the ideographic full stop, exclamation and question marks
      and semicolons, full-width or not. */
  predicate FullMark(c: char) {
    || c == '\U{3002}' || c == '!' || c == '?' || c == ';' || c == '\U{FF01}' || c == '\U{FF1F}' || c == '\U{FF1B}'
  }

  /** A cut may be made before `c` only where white space (or nothing) follows a sentence mark
      or a line feed begins. */
  ghost predicate IsBoundary(s: string, c: nat) {
    exists p: nat :: p <= c <= |s| && BoundaryFrom(s, p, c)
  }

  ghost predicate BoundaryFrom(s: string, p: nat, c: nat)
    requires p <= c <= |s|
  {
    BlankIn(s, p, c) && ((p > 0 && (FullMark(s[p - 1]) || s[p - 1] == '.')) || (p < |s| && s[p] == '\n'))
  }

  /** A sentence ends here: behind a mark of its own, behind a full stop before white space, before a line feed. */
  predicate EndsHere(s: string, q: nat)
    requires q <= |s|
  {
    (q > 0 && FullMark(s[q - 1])) || (q > 0 && s[q - 1] == '.' && q < |s| && IsSpace(s[q])) || (q < |s| && s[q] == '\n')
  }

  /** A place inside `s[a..b]` where a sentence ends has only white space on one side. */
  ghost predicate Unbroken(s: string, a: nat, b: nat) {
    a <= b <= |s| &&
    forall q :: a <= q <= b && EndsHere(s, q) ==> BlankIn(s, a, q) || BlankIn(s, q, b)
  }

  /** Sentences that cover `s[..end]` begin at boundaries and none runs over one. */
  ghost predicate CutsTo(s: string, parts: seq<string>, end: nat) {
    if parts == [] then end == 0
    else
      var init, last := parts[..|parts| - 1], parts[|parts| - 1];
      |last| <= end && CutsTo(s, init, end - |last|) && Unbroken(s, end - |last|, end) &&
      (init != [] ==> IsBoundary(s, end - |last|))
  }

  ghost predicate CutsOk(s: string, parts: seq<string>) {
    CutsTo(s, parts, |s|)
  }

  lemma CutsSnoc(s: string, parts: seq<string>, end: nat, t: string)
    requires CutsTo(s, parts, end) && (parts != [] ==> IsBoundary(s, end))
    requires Unbroken(s, end, end + |t|)
    ensures CutsTo(s, parts + [t], end + |t|)
  {
    assert (parts + [t])[..|parts|] == parts;
  }

  lemma BlankSlice(s: string, a: nat, b: nat)
    requires a <= b <= |s|
    ensures Blank(s[a..b]) <==> BlankIn(s, a, b)
  {
    if Blank(s[a..b]) {
      forall i | a <= i < b ensures IsSpace(s[i]) {
        assert s[i] == s[a..b][i - a];
      }
    }
  }

  lemma UnbrokenMore(s: string, a: nat, b: nat, c: nat)
    requires Unbroken(s, a, b) && b <= c <= |s| && BlankIn(s, b, c)
    ensures Unbroken(s, a, c)
  {}

  lemma CutsAppendLast(s: string, parts: seq<string>, end: nat, t: string)
    requires parts != [] && CutsTo(s, parts, end) && end + |t| <= |s| && BlankIn(s, end, end + |t|)
    ensures CutsTo(s, AppendLast(parts, t), end + |t|)
  {
    var init, last := parts[..|parts| - 1], parts[|parts| - 1];
    UnbrokenMore(s, end - |last|, end, end + |t|);
    CutsSnoc(s, init, end - |last|, last + t);
    assert AppendLast(parts, t) == init + [last + t];
  }

  /** The grouping has taken `s[..at]`: sentences up to some place, white space waiting from there on. */
  ghost predicate Grouped(s: string, g: Grouping, at: nat) {
    && |g.pending| <= at <= |s| && Tidy(g) && CutsTo(s, g.parts, at - |g.pending|)
    && g.pending == s[at - |g.pending|..at] && BlankIn(s, at - |g.pending|, at)
  }

  /** And a sentence may begin here. */
  ghost predicate At(s: string, g: Grouping, at: nat) {
    Grouped(s, g, at) && (g.parts != [] ==> IsBoundary(s, at))
  }

  ghost predicate NoMarkInside(s: string, last: nat, p: nat) {
    last <= p <= |s| && forall q :: last < q < p ==> !EndsHere(s, q)
  }

  lemma UnbrokenNew(s: string, a: nat, last: nat, p: nat)
    requires a <= last && NoMarkInside(s, last, p) && BlankIn(s, a, last)
    ensures Unbroken(s, a, p)
  {}

  lemma NewSentence(s: string, last: nat, p: nat, g: Grouping)
    requires NoMarkInside(s, last, p) && At(s, g, last) && !Blank(s[last..p])
    ensures Grouped(s, GroupStep(s[last..p], g), p)
  {
    var a := last - |g.pending|;
    UnbrokenNew(s, a, last, p);
    CutsSnoc(s, g.parts, a, g.pending + s[last..p]);
  }

  lemma BlankPiece(s: string, p: nat, e: nat, g: Grouping)
    requires p <= e <= |s| && Grouped(s, g, p) && BlankIn(s, p, e)
    ensures Grouped(s, GroupStep(s[p..e], g), e)
  {
    var piece := s[p..e];
    BlankSlice(s, p, e);
    if piece != "" && g.parts != [] {
      CutsAppendLast(s, g.parts, p, piece);
    } else if piece != "" {
      assert s[p - |g.pending|..p] + piece == s[p - |g.pending|..e];
    }
  }

  lemma GroupTextPiece(s: string, last: nat, p: nat, g: Grouping)
    requires NoMarkInside(s, last, p) && At(s, g, last)
    ensures Grouped(s, GroupStep(s[last..p], g), p)
  {
    BlankSlice(s, last, p);
    if Blank(s[last..p]) {
      BlankPiece(s, last, p, g);
    } else {
      NewSentence(s, last, p, g);
    }
  }

  lemma GroupBlankPiece(s: string, p: nat, e: nat, g: Grouping)
    requires p <= e <= |s| && BoundaryFrom(s, p, e) && Grouped(s, g, p)
    ensures At(s, GroupStep(s[p..e], g), e)
  {
    BlankPiece(s, p, e, g);
  }

  lemma GroupTwoPieces(s: string, last: nat, p: nat, e: nat, g: Grouping)
    requires NoMarkInside(s, last, p) && At(s, g, last)
    requires p <= e <= |s| && BoundaryFrom(s, p, e)
    ensures At(s, GroupStep(s[p..e], GroupStep(s[last..p], g)), e)
  {
    GroupTextPiece(s, last, p, g);
    GroupBlankPiece(s, p, e, GroupStep(s[last..p], g));
  }

  lemma GroupPair(a: string, b: string, rest: seq<string>, g: Grouping)
    ensures GroupAll([a, b] + rest, g) == GroupAll(rest, GroupStep(b, GroupStep(a, g)))
  {
    assert ([a, b] + rest)[1..] == [b] + rest;
    assert ([b] + rest)[1..] == rest;
  }

  /** From a match on: both pieces, then the rest. */
  lemma GroupMatch(s: string, last: nat, p: nat, e: nat, g: Grouping, rest: seq<string>)
    requires NoMarkInside(s, last, p) && At(s, g, last) && p <= e <= |s| && BoundaryFrom(s, p, e)
    ensures var g1 := GroupStep(s[p..e], GroupStep(s[last..p], g));
            At(s, g1, e) && GroupAll([s[last..p], s[p..e]] + rest, g) == GroupAll(rest, g1)
  {
    GroupPair(s[last..p], s[p..e], rest, g);
    GroupTwoPieces(s, last, p, e, g);
  }

  lemma SplitAtMatch(s: string, last: nat, p: nat, emptyBefore: bool, e: nat, g: Grouping)
    requires last <= p <= |s| && MatchAt(s, p, emptyBefore && p == last) == Match(e)
    requires NoMarkInside(s, last, p) && At(s, g, last)
    ensures p <= e <= |s| && BoundaryFrom(s, p, e)
    ensures var g1 := GroupStep(s[p..e], GroupStep(s[last..p], g));
            At(s, g1, e) && GroupAll(SplitFrom(s, last, p, emptyBefore), g) == GroupAll(SplitFrom(s, e, e, e == p), g1)
  {
    GroupMatch(s, last, p, e, g, SplitFrom(s, e, e, e == p));
  }

  lemma SplitAtEnd(s: string, last: nat, emptyBefore: bool, g: Grouping)
    requires NoMarkInside(s, last, |s|) && At(s, g, last) && MatchAt(s, |s|, emptyBefore && |s| == last).NoMatch?
    ensures Grouped(s, GroupAll(SplitFrom(s, last, |s|, emptyBefore), g), |s|)
  {
    GroupTextPiece(s, last, |s|, g);
    GroupLast(s[last..], g);
    assert s[last..] == s[last..|s|];
  }

  lemma SplitOn(s: string, last: nat, p: nat, emptyBefore: bool)
    requires NoMarkInside(s, last, p) && p < |s| && MatchAt(s, p, emptyBefore && p == last).NoMatch?
    ensures NoMarkInside(s, last, p + 1) && SplitFrom(s, last, p, emptyBefore) == SplitFrom(s, last, p + 1, emptyBefore)
  {}

  lemma {:induction false} GroupCuts(s: string, last: nat, p: nat, emptyBefore: bool, g: Grouping)
    requires NoMarkInside(s, last, p) && At(s, g, last)
    ensures Grouped(s, GroupAll(SplitFrom(s, last, p, emptyBefore), g), |s|)
    decreases |s| - p, !(emptyBefore && p == last)
  {
    var m := MatchAt(s, p, emptyBefore && p == last);
    if m.Match? {
      SplitAtMatch(s, last, p, emptyBefore, m.end, g);
      GroupCuts(s, m.end, m.end, m.end == p, GroupStep(s[p..m.end], GroupStep(s[last..p], g)));
    } else if p < |s| {
      SplitOn(s, last, p, emptyBefore);
      GroupCuts(s, last, p + 1, emptyBefore, g);
    } else {
      SplitAtEnd(s, last, emptyBefore, g);
    }
  }

  lemma GroupLast(piece: string, g: Grouping)
    ensures GroupAll([piece], g) == GroupStep(piece, g)
  {
    assert [piece][1..] == [];
  }

  /** Every cut between two sentences is a boundary of the text, and no sentence has text on
      both sides of a boundary. */
  lemma SentencesCutAtBoundaries(text: string)
    ensures CutsOk(text, SentencesOf(text))
  {
    var g := GroupAll(SplitFrom(text, 0, 0, false), Grouping([], ""));
    GroupCuts(text, 0, 0, false, Grouping([], ""));
    if g.parts == [] {
      assert g.pending == text[0..] == text;
      CutsSnoc(text, [], 0, text);
      assert [text] == [] + [text];
      SentencesConcat(text);
    }
  }

  // ---- Hard splitting ----

  function Slices(text: string, step: nat): (r: seq<string>)
    requires step > 0
    ensures forall i :: 0 <= i < |r| ==> 0 < |r[i]| <= step
  {
    if text == "" then []
    else if |text| <= step then [text]
    else [text[..step]] + Slices(text[step..], step)
  }

  /** The step of `_hard_split`: the budget turned into characters by the ratio of tokens to
      length, taken as an exact floor. */
  function HardStep(text: string, budget: nat, count: Counter): (step: nat)
    ensures step > 0
  {
    var tokens := if count(text) > 1 then count(text) else 1;
    var step := budget * |text| / tokens;
    if step > 1 then step else 1
  }

  function HardSplit(text: string, budget: nat, count: Counter): seq<string> {
    if text == "" then [] else Slices(text, HardStep(text, budget, count))
  }

  lemma {:induction false} SlicesConcat(text: string, step: nat)
    requires step > 0
    ensures Flatten(Slices(text, step)) == text
  {
    if |text| > step {
      SlicesConcat(text[step..], step);
    } else if text != "" {
      FlattenOne(text);
    }
  }

  lemma {:induction false} SlicesEven(text: string, step: nat)
    requires step > 0
    ensures forall i :: 0 <= i < |Slices(text, step)| - 1 ==> |Slices(text, step)[i]| == step
  {
    if |text| > step {
      SlicesEven(text[step..], step);
    }
  }

  lemma DivIsFloor(n: nat, d: nat)
    requires d > 0
    ensures (n / d) * d <= n < (n / d + 1) * d
  {}

  /** The slices are of one length, the last at most as long: the greatest length whose share of the text's cost
      stays within the budget, or a single character. */
  lemma HardSplitIsEven(text: string, budget: nat, count: Counter) returns (step: nat)
    requires text != ""
    ensures step > 0 && var tokens := if count(text) > 0 then count(text) else 1;
            (step * tokens <= budget * |text| || step == 1) && budget * |text| < (step + 1) * tokens
    ensures var pieces := HardSplit(text, budget, count);
            && Flatten(pieces) == text && pieces != []
            && (forall i :: 0 <= i < |pieces| ==> 0 < |pieces[i]| <= step)
            && forall i :: 0 <= i < |pieces| - 1 ==> |pieces[i]| == step
  {
    step := HardStep(text, budget, count);
    var tokens := if count(text) > 0 then count(text) else 1;
    DivIsFloor(budget * |text|, tokens);
    SlicesConcat(text, step);
    SlicesEven(text, step);
  }

  lemma {:induction false} SlicesWithin(text: string, step: nat, i: nat) returns (a: nat)
    requires step > 0 && i < |Slices(text, step)|
    ensures a + |Slices(text, step)[i]| <= |text|
    ensures Slices(text, step)[i] == text[a..a + |Slices(text, step)[i]|]
  {
    if |text| <= step || i == 0 {
      a := 0;
    } else {
      var b := SlicesWithin(text[step..], step, i - 1);
      a := step + b;
    }
  }

  lemma HardStepBound(text: string, budget: nat)
    requires text != "" && budget > 0
    ensures HardStep(text, budget, EstimateTokens) <= 4 * budget
  {
    var c := EstimateTokens(text);
    EstimateRange(text);
    assert budget * |text| <= budget * (4 * c);
    assert budget * (4 * c) == (4 * budget) * c;
    DivBound(budget * |text|, c, 4 * budget);
  }

  lemma MulCancel(a: nat, b: nat, d: nat)
    requires d > 0 && a * d <= b * d
    ensures a <= b
  {
    assert (b - a) * d >= 0;
  }

  lemma DivBound(n: nat, d: nat, q: nat)
    requires d > 0 && n <= q * d
    ensures n / d <= q
  {
    MulCancel(n / d, q, d);
  }

  predicate AllCjk(s: string) {
    forall i :: 0 <= i < |s| ==> IsCjk(s[i])
  }

  predicate NoneCjk(s: string) {
    forall i :: 0 <= i < |s| ==> !IsCjk(s[i])
  }

  lemma UniformSlice(text: string, budget: nat, i: nat)
    requires text != "" && budget > 0
    requires AllCjk(text) || NoneCjk(text)
    requires i < |HardSplit(text, budget, EstimateTokens)|
    ensures EstimateTokens(HardSplit(text, budget, EstimateTokens)[i]) <= budget
  {
    var step := HardStep(text, budget, EstimateTokens);
    HardStepBound(text, budget);
    CjkCountExtremes(text);
    var a := SlicesWithin(text, step, i);
    var piece := Slices(text, step)[i];
    assert forall j :: 0 <= j < |piece| ==> piece[j] == text[a + j];
    CjkCountExtremes(piece);
    if AllCjk(text) {
      DivBound(budget * |text|, |text|, budget);
    }
  }

  /** Hard slices concatenate back to the text, and under the token estimate each costs at most
      four times the budget, or the budget itself when the text is all of one kind. */
  lemma HardSplitBound(text: string, budget: nat)
    requires budget > 0
    ensures Flatten(HardSplit(text, budget, EstimateTokens)) == text
    ensures forall i :: 0 <= i < |HardSplit(text, budget, EstimateTokens)| ==>
                          EstimateTokens(HardSplit(text, budget, EstimateTokens)[i]) <=
                          if AllCjk(text) || NoneCjk(text) then budget else 4 * budget
  {
    if text != "" {
      var step := HardStep(text, budget, EstimateTokens);
      var pieces := Slices(text, step);
      SlicesConcat(text, step);
      HardStepBound(text, budget);
      forall i | 0 <= i < |pieces|
        ensures EstimateTokens(pieces[i]) <= if AllCjk(text) || NoneCjk(text) then budget else 4 * budget
      {
        EstimateRange(pieces[i]);
        if AllCjk(text) || NoneCjk(text) {
          UniformSlice(text, budget, i);
        }
      }
    }
  }
}
