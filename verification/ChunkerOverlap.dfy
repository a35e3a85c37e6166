/** When the token budget of `_budget_for_body` keeps every chunk within the target. The carry is
    replaced after the budget was taken and joined with a separator that was never counted, so the
    answer depends on the overlap. */
module ChunkerOverlap {
  import opened Text
  import opened Tokens
  import opened Sentences
  import opened Chunker
  import opened ChunkerBounds

  /** A document without headings in which no sentence has to be cut. */
  ghost predicate Plain(cfg: Config, blocks: seq<Block>) {
    forall i :: 0 <= i < |blocks| ==> PlainBlock(cfg, blocks[i])
  }

  ghost predicate PlainBlock(cfg: Config, b: Block) {
    && !b.kind.Heading?
    && (!IsAtomic(b) ==> Short(cfg, SentencesOf(BlockToMarkdown(b))))
  }

  ghost predicate Short(cfg: Config, sentences: seq<string>) {
    forall j :: 0 <= j < |sentences| ==> EstimateTokens(sentences[j]) <= cfg.target
  }

  /** Every text chunk of every such document is within the target. */
  ghost predicate KeepsTarget(cfg: Config) {
    forall blocks :: Plain(cfg, blocks) ==> WithinTarget(cfg, ChunkDocument(cfg, EstimateTokens, blocks))
  }

  ghost predicate WithinTarget(cfg: Config, st: State) {
    && |st.chunks| == |st.trail.emissions|
    && forall i :: 0 <= i < |st.chunks| && !st.trail.emissions[i].atomic ==> st.chunks[i].tokenCount <= cfg.target
  }

  // ---- Without overlap ----

  ghost predicate NoCarry(cfg: Config, count: Counter, st: State) {
    && st.heading == "" && st.carry == ""
    && count(Join(SEPARATOR, st.parts)) <= cfg.target
    && WithinTarget(cfg, st)
  }

  lemma JoinedBare(parts: seq<string>)
    ensures Joined("", "", parts) == Join(SEPARATOR, parts)
  {
    assert Optional("") + Optional("") + parts == parts;
  }

  lemma FlushNoCarry(cfg: Config, count: Counter, st: State)
    requires NoCarry(cfg, count, st) && cfg.overlap <= 0 && count("") <= cfg.target
    requires count(Strip(Join(SEPARATOR, st.parts))) <= cfg.target
    ensures NoCarry(cfg, count, Flush(cfg, count, st))
    ensures Flush(cfg, count, st).parts == []
  {
    JoinedBare(st.parts);
  }

  lemma AppendNoCarry(cfg: Config, count: Counter, st: State, text: string, fitted: bool, hard: bool)
    requires NoCarry(cfg, count, st)
    requires count(Join(SEPARATOR, st.parts + [text])) <= cfg.target
    ensures NoCarry(cfg, count, AppendPart(st, text, fitted, hard))
  {}

  lemma PageNoCarry(cfg: Config, count: Counter, st: State, page: Page)
    requires NoCarry(cfg, count, st)
    ensures NoCarry(cfg, count, st.(page := page))
  {}

  lemma AddPieceNoCarry(cfg: Config, count: Counter, st: State, page: Page, piece: Piece)
    requires NoCarry(cfg, count, st) && cfg.overlap <= 0 && count("") <= cfg.target
    requires count(Strip(Join(SEPARATOR, st.parts))) <= cfg.target
    requires count(piece.text) <= cfg.target
    ensures NoCarry(cfg, count, AddPiece(cfg, count, st, page, piece))
  {
    var st1 := TakePage(st, page);
    PageNoCarry(cfg, count, st, page);
    FlushNoCarry(cfg, count, st1);
    JoinedBare(st1.parts + [piece.text]);
    if Fits(cfg, count, Joined(st1.heading, st1.carry, st1.parts + [piece.text])) {
      AppendNoCarry(cfg, count, st1, piece.text, true, piece.hard);
    } else {
      var st2 := Flush(cfg, count, st1).(page := page);
      PageNoCarry(cfg, count, Flush(cfg, count, st1), page);
      assert st2.parts + [piece.text] == [piece.text];
      AppendNoCarry(cfg, count, st2, piece.text, false, piece.hard);
    }
  }

  lemma {:induction false} AddPiecesNoCarry(cfg: Config, st: State, page: Page, pieces: seq<Piece>)
    requires NoCarry(cfg, EstimateTokens, st) && cfg.overlap <= 0 && cfg.target >= 1
    requires AllWithin(cfg, pieces)
    ensures NoCarry(cfg, EstimateTokens, AddPieces(cfg, EstimateTokens, st, page, pieces))
    decreases |pieces|
  {
    if pieces != [] {
      EstimateStrip(Join(SEPARATOR, st.parts));
      AddPieceNoCarry(cfg, EstimateTokens, st, page, pieces[0]);
      AddPiecesNoCarry(cfg, AddPiece(cfg, EstimateTokens, st, page, pieces[0]), page, pieces[1..]);
    }
  }

  ghost predicate AllWithin(cfg: Config, pieces: seq<Piece>) {
    forall i :: 0 <= i < |pieces| ==> EstimateTokens(pieces[i].text) <= cfg.target
  }

  lemma {:induction false} SplitShort(cfg: Config, budget: nat, sentences: seq<string>, sp: Splitting)
    requires budget == cfg.target && Short(cfg, sentences)
    requires AllWithin(cfg, sp.pieces) && EstimateTokens(sp.buffer) <= budget
    ensures AllWithin(cfg, SplitLoop(EstimateTokens, budget, sentences, sp).pieces)
    ensures EstimateTokens(SplitLoop(EstimateTokens, budget, sentences, sp).buffer) <= budget
    decreases |sentences|
  {
    if sentences != [] {
      assert EstimateTokens(sentences[0]) <= cfg.target;
      SplitShort(cfg, budget, sentences[1..], SplitStep(EstimateTokens, budget, sentences[0], sp));
    }
  }

  lemma {:induction false} KeepTextWithin(cfg: Config, pieces: seq<Piece>)
    requires AllWithin(cfg, pieces)
    ensures AllWithin(cfg, KeepText(pieces))
  {
    if pieces != [] {
      KeepTextWithin(cfg, pieces[1..]);
      EstimateRStrip(pieces[0].text);
    }
  }

  lemma SplitToFitWithin(cfg: Config, st: State, text: string)
    requires cfg.target >= 1 && st.heading == "" && st.carry == "" && Short(cfg, SentencesOf(text))
    ensures AllWithin(cfg, SplitToFit(cfg, EstimateTokens, st, text))
  {
    SplitShort(cfg, cfg.target, SentencesOf(text), Splitting([], ""));
    var sp := SplitLoop(EstimateTokens, cfg.target, SentencesOf(text), Splitting([], ""));
    KeepTextWithin(cfg, sp.pieces + Soft(sp.buffer));
  }

  lemma AddTextNoCarry(cfg: Config, st: State, b: Block)
    requires NoCarry(cfg, EstimateTokens, st) && cfg.overlap <= 0 && cfg.target >= 1
    requires Short(cfg, SentencesOf(BlockToMarkdown(b)))
    ensures NoCarry(cfg, EstimateTokens, AddText(cfg, EstimateTokens, st, b))
  {
    var text := BlockToMarkdown(b);
    if !Blank(text) {
      var st1 := TakePage(st, b.page);
      PageNoCarry(cfg, EstimateTokens, st, b.page);
      JoinedBare(st1.parts + [text]);
      if Fits(cfg, EstimateTokens, Joined(st1.heading, st1.carry, st1.parts + [text])) {
        AppendNoCarry(cfg, EstimateTokens, st1, text, true, false);
      } else {
        EstimateStrip(Join(SEPARATOR, st.parts));
        FlushNoCarry(cfg, EstimateTokens, st1);
        var st2 := Flush(cfg, EstimateTokens, st1);
        SplitToFitWithin(cfg, st2, text);
        AddPiecesNoCarry(cfg, st2, b.page, SplitToFit(cfg, EstimateTokens, st2, text));
      }
    }
  }

  lemma AtomicNoCarry(cfg: Config, count: Counter, st: State, b: Block)
    requires NoCarry(cfg, count, Flush(cfg, count, st)) && Flush(cfg, count, st).parts == []
    ensures NoCarry(cfg, count, AddAtomic(cfg, count, st, b))
  {}

  lemma {:induction false} AddBlocksNoCarry(cfg: Config, st: State, blocks: seq<Block>)
    requires NoCarry(cfg, EstimateTokens, st) && cfg.overlap <= 0 && cfg.target >= 1
    requires Plain(cfg, blocks)
    ensures NoCarry(cfg, EstimateTokens, AddBlocks(cfg, EstimateTokens, st, blocks))
    decreases |blocks|
  {
    if blocks != [] {
      var b := blocks[0];
      assert PlainBlock(cfg, b);
      if IsAtomic(b) {
        EstimateStrip(Join(SEPARATOR, st.parts));
        FlushNoCarry(cfg, EstimateTokens, st);
        AtomicNoCarry(cfg, EstimateTokens, st, b);
      } else {
        AddTextNoCarry(cfg, st, b);
      }
      AddBlocksNoCarry(cfg, AddBlock(cfg, EstimateTokens, st, b), blocks[1..]);
    }
  }

  lemma NoOverlapKeepsTarget(cfg: Config, blocks: seq<Block>)
    requires cfg.overlap <= 0 && cfg.target >= 1 && Plain(cfg, blocks)
    ensures WithinTarget(cfg, ChunkDocument(cfg, EstimateTokens, blocks))
  {
    AddBlocksNoCarry(cfg, INITIAL, blocks);
    var st := AddBlocks(cfg, EstimateTokens, INITIAL, blocks);
    EstimateStrip(Join(SEPARATOR, st.parts));
    FlushNoCarry(cfg, EstimateTokens, st);
  }

  // ---- With overlap ----

  /** A text that is one sentence with nothing to strip. */
  ghost predicate Solid(s: string) {
    s != "" && !Blank(s) && Strip(s) == s && RStrip(s) == s && SentencesOf(s) == [s]
  }

  // An ideograph costs one token, and no boundary of the pattern touches it.
  const IDEOGRAPH := '\U{4E2D}'

  ghost predicate Ideographs(s: string) {
    s != "" && forall i :: 0 <= i < |s| ==> s[i] == IDEOGRAPH
  }

  lemma {:induction false} IdeographSplit(s: string, p: nat)
    requires Ideographs(s) && p <= |s|
    ensures SplitFrom(s, 0, p, false) == [s]
    decreases |s| - p
  {
    assert MatchAt(s, p, false).NoMatch?;
    if p < |s| {
      IdeographSplit(s, p + 1);
    }
  }

  lemma GroupOne(s: string)
    requires !Blank(s)
    ensures GroupAll([s], Grouping([], "")) == Grouping([s], "")
  {
    assert [s][1..] == [];
    assert "" + s == s && [] + [s] == [s];
    assert GroupAll([s], Grouping([], "")) == GroupAll([], Grouping([s], ""));
  }

  lemma IdeographsSolid(s: string)
    requires Ideographs(s)
    ensures Solid(s) && EstimateTokens(s) == |s|
  {
    assert !IsSpace(s[0]) && !IsSpace(s[|s| - 1]);
    assert LStrip(s) == s;
    IdeographSplit(s, 0);
    GroupOne(s);
    CjkCountExtremes(s);
  }

  function Rest(cfg: Config): nat
    requires cfg.target >= 1
  {
    if cfg.target > 1 then cfg.target - 1 else 1
  }

  function Pair(a: string, r: string): string {
    a + SEPARATOR + r
  }

  lemma PairShape(a: string, r: string)
    requires a != ""
    ensures Joined("", a, [r]) == Pair(a, r)
    ensures Joined("", "", [a] + [r]) == Pair(a, r)
    ensures Joined("", a, []) == a && Joined("", "", [a]) == a && Join(SEPARATOR, [a]) == a
  {
    JoinConcat(SEPARATOR, [a], [r]);
    assert Optional("") + Optional(a) + [r] == [a] + [r];
    assert Optional("") + Optional("") + ([a] + [r]) == [a] + [r];
    assert Optional("") + Optional(a) + [] == [a];
    assert Optional("") + Optional("") + [a] == [a];
  }

  /** Two paragraphs `a` and `r`, and the token counts that decide what becomes of them. */
  ghost predicate Overflowing(cfg: Config, count: Counter, a: string, r: string) {
    && cfg.target >= 1 && cfg.overlap >= 1 && Solid(a) && Solid(r)
    && count("") == 0 && count(a) == 1 && count(r) == Rest(cfg) && count(Pair(a, r)) == Rest(cfg) + 2
  }

  function PlainText(text: string): Block {
    Block(Paragraph, text, [], NoPage)
  }

  // The builder holding one part, and the builder that has just put it out.
  function OnePart(a: string): State {
    AppendPart(INITIAL, a, true, false)
  }

  function OneChunk(a: string): State {
    State([TextChunk(0, a, 1, NoPage, [])], "", [], [], NoPage, a, Trail([Emission(false, "", "", [a], true, false)], true, false))
  }

  lemma NoPageTaken(st: State)
    requires st.page == NoPage
    ensures TakePage(st, NoPage) == st
  {}

  lemma RenderedText(cfg: Config, count: Counter, st: State, text: string)
    requires !Blank(text) && st.page == NoPage
    ensures AddText(cfg, count, st, PlainText(text)) == AddRendered(cfg, count, st, NoPage, text)
  {
    NoPageTaken(st);
  }

  lemma FirstBlock(cfg: Config, count: Counter, st: State, a: string, r: string)
    requires Overflowing(cfg, count, a, r) && st == INITIAL
    ensures AddText(cfg, count, st, PlainText(a)) == OnePart(a)
  {
    PairShape(a, r);
    assert st.parts + [a] == [a];
    RenderedText(cfg, count, st, a);
  }

  lemma FirstTail(cfg: Config, count: Counter, a: string)
    requires cfg.overlap >= 1 && Solid(a) && count(a) == 1
    ensures Tail(cfg, count, a) == a
  {
    var ss := SentencesOf(a);
    assert ss[|ss| - 1] + "" == a && ss[..|ss| - 1] == [];
    assert TailFrom(count, cfg.overlap, ss, "") == TailFrom(count, cfg.overlap, [], a);
  }

  /** A builder without heading or carry puts out its one part and carries its tail. */
  lemma FlushSingle(cfg: Config, count: Counter, st: State, a: string)
    requires a != "" && st.parts == [a] && st.heading == "" && st.carry == "" && st.page == NoPage
    requires Tail(cfg, count, a) == a
    ensures Flush(cfg, count, st) == Emit(count, st.(carry := a, parts := []), a, NoPage, PendingEmission(st))
  {
    PairShape(a, a);
  }

  lemma EmitSolid(count: Counter, st: State, a: string, e: Emission)
    requires Strip(a) == a != "" && st.chunks == [] && st.trail.emissions == [] && st.headingPath == [] && count(a) == 1
    ensures Emit(count, st, a, NoPage, e) == st.(chunks := [TextChunk(0, a, 1, NoPage, [])], trail := st.trail.(emissions := [e]))
  {
    assert [] + [e] == [e];
  }

  lemma FirstFlush(cfg: Config, count: Counter, a: string, r: string)
    requires Overflowing(cfg, count, a, r)
    ensures Flush(cfg, count, OnePart(a)) == OneChunk(a)
  {
    var st := OnePart(a);
    assert st.parts == [a];
    FirstTail(cfg, count, a);
    FlushSingle(cfg, count, st, a);
    EmitSolid(count, st.(carry := a, parts := []), a, PendingEmission(st));
  }

  lemma SplitLoopOne(count: Counter, budget: nat, s: string)
    requires count(s) <= budget
    ensures SplitLoop(count, budget, [s], Splitting([], "")) == Splitting([], s)
  {
    assert "" + s == s;
    assert [s][1..] == [];
    assert SplitLoop(count, budget, [s], Splitting([], "")) == SplitLoop(count, budget, [], Splitting([], s));
  }

  lemma KeepTextOne(s: string)
    requires Solid(s)
    ensures KeepText([] + Soft(s)) == [Piece(s, false)]
  {
    var p := Piece(s, false);
    assert [] + Soft(s) == [p];
    assert [p][1..] == [];
    assert KeepText([p]) == [p] + KeepText([]);
  }

  lemma SecondSplit(cfg: Config, count: Counter, a: string, r: string)
    requires Overflowing(cfg, count, a, r)
    ensures SplitToFit(cfg, count, OneChunk(a), r) == [Piece(r, false)]
  {
    PairShape(a, r);
    assert BudgetForBody(cfg, count, OneChunk(a)) == Rest(cfg);
    SplitLoopOne(count, Rest(cfg), r);
    KeepTextOne(r);
  }

  lemma SecondPiece(cfg: Config, count: Counter, a: string, r: string)
    requires count(Joined("", a, [r])) > cfg.target
    ensures AddPieces(cfg, count, OneChunk(a), NoPage, [Piece(r, false)]) == AppendPart(OneChunk(a), r, false, false)
  {
    var piece, st := Piece(r, false), OneChunk(a);
    assert [piece][1..] == [];
    assert st.parts + [r] == [r];
    assert AddPieces(cfg, count, st, NoPage, [piece]) == AddPieces(cfg, count, AddPiece(cfg, count, st, NoPage, piece), NoPage, []);
  }

  lemma SecondBlock(cfg: Config, count: Counter, st: State, a: string, r: string)
    requires Overflowing(cfg, count, a, r) && st == OnePart(a)
    ensures AddText(cfg, count, st, PlainText(r)) == AppendPart(OneChunk(a), r, false, false)
  {
    PairShape(a, r);
    assert st.parts == [a];
    RenderedText(cfg, count, st, r);
    FirstFlush(cfg, count, a, r);
    SecondSplit(cfg, count, a, r);
    SecondPiece(cfg, count, a, r);
  }

  lemma PairStrip(a: string, r: string)
    requires a != "" && r != "" && !IsSpace(a[0]) && !IsSpace(r[|r| - 1])
    ensures Strip(Pair(a, r)) == Pair(a, r) && Pair(a, r) != ""
  {
    var body := Pair(a, r);
    assert !IsSpace(body[0]) && !IsSpace(body[|body| - 1]);
  }

  lemma EmitOver(cfg: Config, count: Counter, st: State, body: string)
    requires st.parts != [] && Joined(st.heading, st.carry, st.parts) == body
    requires Strip(body) == body && body != "" && count(body) > cfg.target
    requires |st.chunks| == |st.trail.emissions|
    ensures !WithinTarget(cfg, Flush(cfg, count, st))
  {
    var out := Flush(cfg, count, st);
    var i := |st.chunks|;
    assert |out.chunks| == i + 1 && out.chunks[i].tokenCount == count(body) && !out.trail.emissions[i].atomic;
  }

  lemma LastFlush(cfg: Config, count: Counter, a: string, r: string)
    requires Overflowing(cfg, count, a, r) && !IsSpace(a[0]) && !IsSpace(r[|r| - 1])
    ensures !WithinTarget(cfg, Flush(cfg, count, AppendPart(OneChunk(a), r, false, false)))
  {
    var st := AppendPart(OneChunk(a), r, false, false);
    PairShape(a, r);
    PairStrip(a, r);
    assert st.parts == [r];
    EmitOver(cfg, count, st, Pair(a, r));
  }

  lemma AddTwo(cfg: Config, count: Counter, st: State, a: string, r: string)
    ensures AddBlocks(cfg, count, st, [PlainText(a), PlainText(r)]) ==
            AddText(cfg, count, AddText(cfg, count, st, PlainText(a)), PlainText(r))
  {
    var b, c := PlainText(a), PlainText(r);
    assert [b, c][1..] == [c];
    assert [c][1..] == [];
    var st1 := AddBlock(cfg, count, st, b);
    assert AddBlocks(cfg, count, st1, [c]) == AddBlocks(cfg, count, AddBlock(cfg, count, st1, c), []);
  }

  lemma OverflowsWith(cfg: Config, count: Counter, st: State, a: string, r: string)
    requires Overflowing(cfg, count, a, r) && !IsSpace(a[0]) && !IsSpace(r[|r| - 1]) && st == INITIAL
    ensures !WithinTarget(cfg, Flush(cfg, count, AddBlocks(cfg, count, st, [PlainText(a), PlainText(r)])))
  {
    FirstBlock(cfg, count, st, a, r);
    SecondBlock(cfg, count, OnePart(a), a, r);
    LastFlush(cfg, count, a, r);
    AddTwo(cfg, count, st, a, r);
  }

  lemma PairCost(a: string, r: string)
    requires Ideographs(a) && Ideographs(r)
    ensures EstimateTokens(Pair(a, r)) == |a| + |r| + 1
  {
    CjkCountConcat(a + SEPARATOR, r);
    CjkCountConcat(a, SEPARATOR);
    CjkCountExtremes(a);
    CjkCountExtremes(SEPARATOR);
    CjkCountExtremes(r);
  }

  lemma PlainSentence(cfg: Config, text: string)
    requires Solid(text) && EstimateTokens(text) <= cfg.target
    ensures PlainBlock(cfg, PlainText(text))
  {}

  /** A paragraph of one ideograph and one that fills the body budget: the second chunk carries
      the first ideograph and ends above the target. */
  lemma OverlapOverflows(cfg: Config) returns (blocks: seq<Block>)
    requires cfg.target >= 1 && cfg.overlap >= 1
    ensures Plain(cfg, blocks)
    ensures !WithinTarget(cfg, ChunkDocument(cfg, EstimateTokens, blocks))
  {
    var a: string := seq(1, i => IDEOGRAPH);
    var r: string := seq(Rest(cfg), i => IDEOGRAPH);
    IdeographsSolid(a);
    IdeographsSolid(r);
    PairCost(a, r);
    PlainSentence(cfg, a);
    PlainSentence(cfg, r);
    OverflowsWith(cfg, EstimateTokens, INITIAL, a, r);
    blocks := [PlainText(a), PlainText(r)];
  }

  /** For a document without headings and without overlong sentences, the chunks stay within the
      target exactly when there is no overlap. */
  lemma TargetKeptIffNoOverlap(cfg: Config)
    requires cfg.target >= 1
    ensures KeepsTarget(cfg) <==> cfg.overlap <= 0
  {
    if cfg.overlap <= 0 {
      forall blocks | Plain(cfg, blocks)
        ensures WithinTarget(cfg, ChunkDocument(cfg, EstimateTokens, blocks))
      {
        NoOverlapKeepsTarget(cfg, blocks);
      }
    } else {
      var blocks := OverlapOverflows(cfg);
    }
  }
}
