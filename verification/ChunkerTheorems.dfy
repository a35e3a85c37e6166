/** What the chunker keeps: nothing is lost or reordered, the overlap is the tail of the chunk
    before it, and how large a chunk can become. */
module ChunkerTheorems {
  import opened Text
  import opened Tokens
  import opened Sentences
  import opened Chunker

  // ---- Nothing is lost ----

  /** The letters of a block: code inside fences, a caption inside asterisks, the rest as it is. */
  function Marked(b: Block): string {
    match b.kind
    case Heading => ""
    case Code => "```" + b.text + "```"
    case Caption => "*" + b.text + "*"
    case Table => b.text
    case Paragraph => b.text
  }

  /** The text to be chunked: every block but the headings, in order. */
  function Source(blocks: seq<Block>): string {
    if blocks == [] then "" else Marked(blocks[0]) + Source(blocks[1..])
  }

  function NewText(emissions: seq<Emission>): string {
    if emissions == [] then ""
    else NewText(emissions[..|emissions| - 1]) + Flatten(emissions[|emissions| - 1].parts)
  }

  /** All new text the builder has taken: the chunks already out and the parts still waiting. */
  function Collected(st: State): string {
    NewText(st.trail.emissions) + Flatten(st.parts)
  }

  ghost predicate Same(a: string, b: string) {
    NonSpace(a) == NonSpace(b)
  }

  lemma SameConcat(a: string, b: string, c: string, d: string)
    requires Same(a, b) && Same(c, d)
    ensures Same(a + c, b + d)
  {
    NonSpaceConcat(a, c);
    NonSpaceConcat(b, d);
  }

  lemma NewTextSnoc(es: seq<Emission>, e: Emission)
    ensures NewText(es + [e]) == NewText(es) + Flatten(e.parts)
  {
    assert (es + [e])[..|es|] == es;
  }

  lemma JoinedKeeps(heading: string, carry: string, parts: seq<string>)
    ensures Same(Joined(heading, carry, parts), heading + carry + Flatten(parts))
  {
    var all := Optional(heading) + Optional(carry) + parts;
    NonSpaceJoin(SEPARATOR, all);
    FlattenConcat(Optional(heading) + Optional(carry), parts);
    FlattenConcat(Optional(heading), Optional(carry));
    FlattenOne(heading);
    FlattenOne(carry);
  }

  lemma EmitCollects(count: Counter, st: State, text: string, page: Page, e: Emission)
    requires st.parts == []
    requires Blank(text) ==> Blank(Flatten(e.parts))
    ensures Same(Collected(Emit(count, st, text, page, e)), Collected(st) + Flatten(e.parts))
  {
    StripEmpty(text);
    NewTextSnoc(st.trail.emissions, e);
    NonSpaceBlank(Flatten(e.parts));
    NonSpaceConcat(Collected(st), Flatten(e.parts));
    var st1 := Emit(count, st, text, page, e);
    assert Collected(st) == NewText(st.trail.emissions);
    assert Collected(st1) == NewText(st1.trail.emissions);
  }

  lemma BlankBody(heading: string, carry: string, parts: seq<string>)
    requires Blank(Joined(heading, carry, parts))
    ensures Blank(Flatten(parts))
  {
    JoinedKeeps(heading, carry, parts);
    NonSpaceBlank(Joined(heading, carry, parts));
    NonSpaceConcat(heading + carry, Flatten(parts));
    NonSpaceBlank(Flatten(parts));
  }

  lemma FlushCollects(cfg: Config, count: Counter, st: State)
    ensures Same(Collected(Flush(cfg, count, st)), Collected(st))
    ensures Flush(cfg, count, st).parts == []
  {
    if st.parts != [] {
      var body := Joined(st.heading, st.carry, st.parts);
      var st1 := st.(carry := Tail(cfg, count, Join(SEPARATOR, st.parts)), parts := []);
      if Blank(body) {
        BlankBody(st.heading, st.carry, st.parts);
      }
      EmitCollects(count, st1, body, st.page, PendingEmission(st));
      assert Collected(st1) == NewText(st.trail.emissions);
      assert Collected(Flush(cfg, count, st)) == Collected(Emit(count, st1, body, st.page, PendingEmission(st)));
    }
  }

  function PieceText(pieces: seq<Piece>): string {
    if pieces == [] then "" else pieces[0].text + PieceText(pieces[1..])
  }

  lemma {:induction false} PieceTextConcat(a: seq<Piece>, b: seq<Piece>)
    ensures PieceText(a + b) == PieceText(a) + PieceText(b)
  {
    if a == [] {
      assert a + b == b;
    } else {
      assert (a + b)[1..] == a[1..] + b;
      PieceTextConcat(a[1..], b);
    }
  }

  lemma {:induction false} HardPiecesText(texts: seq<string>)
    ensures PieceText(HardPieces(texts)) == Flatten(texts)
  {
    if texts != [] {
      assert HardPieces(texts)[1..] == HardPieces(texts[1..]);
      HardPiecesText(texts[1..]);
    }
  }

  lemma SoftText(buffer: string)
    ensures PieceText(Soft(buffer)) == buffer
  {
    if buffer != "" {
      assert Soft(buffer)[1..] == [];
    }
  }

  function SplitText(sp: Splitting): string {
    PieceText(sp.pieces) + sp.buffer
  }

  lemma HardSplitText(s: string, budget: nat, count: Counter)
    ensures PieceText(HardPieces(HardSplit(s, budget, count))) == s
  {
    HardPiecesText(HardSplit(s, budget, count));
    if s != "" {
      SlicesConcat(s, HardStep(s, budget, count));
    }
  }

  lemma SplitStepText(count: Counter, budget: nat, s: string, sp: Splitting)
    ensures SplitText(SplitStep(count, budget, s, sp)) == SplitText(sp) + s
  {
    if count(sp.buffer + s) <= budget {
      Assoc(PieceText(sp.pieces), sp.buffer, s);
    } else {
      var pieces := sp.pieces + Soft(sp.buffer);
      PieceTextConcat(sp.pieces, Soft(sp.buffer));
      SoftText(sp.buffer);
      if count(s) > budget {
        var hard := HardPieces(HardSplit(s, budget, count));
        PieceTextConcat(pieces, hard);
        HardSplitText(s, budget, count);
        assert SplitText(SplitStep(count, budget, s, sp)) == PieceText(pieces + hard);
      }
    }
  }

  lemma {:induction false} SplitLoopText(count: Counter, budget: nat, sentences: seq<string>, sp: Splitting)
    ensures SplitText(SplitLoop(count, budget, sentences, sp)) == SplitText(sp) + Flatten(sentences)
    decreases |sentences|
  {
    if sentences != [] {
      SplitStepText(count, budget, sentences[0], sp);
      SplitLoopText(count, budget, sentences[1..], SplitStep(count, budget, sentences[0], sp));
      Assoc(SplitText(sp), sentences[0], Flatten(sentences[1..]));
    }
  }

  lemma Assoc(a: string, b: string, c: string)
    ensures a + b + c == a + (b + c)
  {}

  lemma {:induction false} KeepTextSame(pieces: seq<Piece>)
    ensures Same(PieceText(KeepText(pieces)), PieceText(pieces))
  {
    if pieces != [] {
      KeepTextSame(pieces[1..]);
      var t := pieces[0].text;
      NonSpaceBlank(t);
      NonSpaceRStrip(t);
      if Blank(t) {
        NonSpaceConcat(t, PieceText(pieces[1..]));
      } else {
        SameConcat(RStrip(t), t, PieceText(KeepText(pieces[1..])), PieceText(pieces[1..]));
      }
    }
  }

  lemma SplitToFitText(cfg: Config, count: Counter, st: State, text: string)
    ensures Same(PieceText(SplitToFit(cfg, count, st, text)), text)
  {
    var sp := SplitLoop(count, BudgetForBody(cfg, count, st), SentencesOf(text), Splitting([], ""));
    SentencesConcat(text);
    SplitLoopText(count, BudgetForBody(cfg, count, st), SentencesOf(text), Splitting([], ""));
    SoftText(sp.buffer);
    PieceTextConcat(sp.pieces, Soft(sp.buffer));
    assert PieceText(sp.pieces + Soft(sp.buffer)) == text;
    KeepTextSame(sp.pieces + Soft(sp.buffer));
  }

  lemma AppendCollects(st: State, text: string, fitted: bool, hard: bool)
    ensures Collected(AppendPart(st, text, fitted, hard)) == Collected(st) + text
  {
    FlattenSnoc(st.parts, text);
  }

  lemma AddPieceCollects(cfg: Config, count: Counter, st: State, page: Page, piece: Piece)
    ensures Same(Collected(AddPiece(cfg, count, st, page, piece)), Collected(st) + piece.text)
  {
    var st1 := TakePage(st, page);
    var st2 := Flush(cfg, count, st1).(page := page);
    FlushCollects(cfg, count, st1);
    AppendCollects(st1, piece.text, true, piece.hard);
    AppendCollects(st2, piece.text, false, piece.hard);
    SameConcat(Collected(st2), Collected(st), piece.text, piece.text);
  }

  lemma {:induction false} AddPiecesCollects(cfg: Config, count: Counter, st: State, page: Page, pieces: seq<Piece>)
    ensures Same(Collected(AddPieces(cfg, count, st, page, pieces)), Collected(st) + PieceText(pieces))
    decreases |pieces|
  {
    if pieces != [] {
      var st1 := AddPiece(cfg, count, st, page, pieces[0]);
      AddPieceCollects(cfg, count, st, page, pieces[0]);
      AddPiecesCollects(cfg, count, st1, page, pieces[1..]);
      SameConcat(Collected(st1), Collected(st) + pieces[0].text, PieceText(pieces[1..]), PieceText(pieces[1..]));
      Assoc(Collected(st), pieces[0].text, PieceText(pieces[1..]));
    } else {
      assert Collected(st) + "" == Collected(st);
    }
  }

  lemma AddTextCollects(cfg: Config, count: Counter, st: State, b: Block)
    ensures Same(Collected(AddText(cfg, count, st, b)), Collected(st) + BlockToMarkdown(b))
  {
    var text := BlockToMarkdown(b);
    if Blank(text) {
      NonSpaceBlank(text);
      NonSpaceConcat(Collected(st), text);
    } else {
      var st1 := TakePage(st, b.page);
      var st2 := Flush(cfg, count, st1);
      AppendCollects(st1, text, true, false);
      FlushCollects(cfg, count, st1);
      SplitToFitText(cfg, count, st2, text);
      AddPiecesCollects(cfg, count, st2, b.page, SplitToFit(cfg, count, st2, text));
      SameConcat(Collected(st2), Collected(st), PieceText(SplitToFit(cfg, count, st2, text)), text);
    }
  }

  lemma RenderedAs(b: Block)
    requires !b.kind.Heading?
    ensures Same(BlockToMarkdown(b), Marked(b))
  {
    if b.kind.Code? {
      NonSpaceConcat("```\n" + b.text, "\n```");
      NonSpaceConcat("```\n", b.text);
      NonSpaceConcat("```" + b.text, "```");
      NonSpaceConcat("```", b.text);
      NonSpaceConcat("```", "\n");
      NonSpaceConcat("\n", "```");
      assert "```\n" == "```" + "\n" && "\n```" == "\n" + "```";
      assert BlockToMarkdown(b) == ("```\n" + b.text) + "\n```";
    }
  }

  lemma AddBlockCollects(cfg: Config, count: Counter, st: State, b: Block)
    ensures Same(Collected(AddBlock(cfg, count, st, b)), Collected(st) + Source([b]))
  {
    assert Source([b]) == Marked(b) by {
      assert [b][1..] == [] && Marked(b) + "" == Marked(b);
    }
    FlushCollects(cfg, count, st);
    if b.kind.Heading? {
      assert Collected(st) + "" == Collected(st);
    } else if IsAtomic(b) {
      var st1 := Flush(cfg, count, st).(carry := "");
      var text := BlockToMarkdown(b);
      FlattenOne(text);
      EmitCollects(count, st1, text, b.page, Emission(true, "", "", [text], false, false));
      RenderedAs(b);
      SameConcat(Collected(st1), Collected(st), text, Marked(b));
    } else {
      AddTextCollects(cfg, count, st, b);
      RenderedAs(b);
      SameConcat(Collected(st), Collected(st), BlockToMarkdown(b), Marked(b));
    }
  }

  lemma SourceCons(blocks: seq<Block>)
    requires blocks != []
    ensures Source(blocks) == Source([blocks[0]]) + Source(blocks[1..])
  {
    assert [blocks[0]][1..] == [];
  }

  lemma {:induction false} AddBlocksCollects(cfg: Config, count: Counter, st: State, blocks: seq<Block>)
    ensures Same(Collected(AddBlocks(cfg, count, st, blocks)), Collected(st) + Source(blocks))
    decreases |blocks|
  {
    if blocks != [] {
      var st1 := AddBlock(cfg, count, st, blocks[0]);
      AddBlockCollects(cfg, count, st, blocks[0]);
      AddBlocksCollects(cfg, count, st1, blocks[1..]);
      SourceCons(blocks);
      SameConcat(Collected(st1), Collected(st) + Source([blocks[0]]), Source(blocks[1..]), Source(blocks[1..]));
      Assoc(Collected(st), Source([blocks[0]]), Source(blocks[1..]));
    } else {
      assert Collected(st) + "" == Collected(st);
    }
  }

  lemma NothingLostFrom(cfg: Config, count: Counter, st: State, blocks: seq<Block>)
    requires Collected(st) == ""
    ensures Same(NewText(Flush(cfg, count, AddBlocks(cfg, count, st, blocks)).trail.emissions), Source(blocks))
  {
    var st1 := AddBlocks(cfg, count, st, blocks);
    AddBlocksCollects(cfg, count, st, blocks);
    FlushCollects(cfg, count, st1);
    assert Collected(st) + Source(blocks) == Source(blocks);
    var es := Flush(cfg, count, st1).trail.emissions;
    assert NewText(es) + "" == NewText(es);
  }

  /** Over the chunks in order, the new text is the rendered non-heading blocks in order, white
      space aside: for every document, configuration and token counter. */
  lemma ChunkingLosesNothing(cfg: Config, count: Counter, blocks: seq<Block>)
    ensures NonSpace(NewText(ChunkDocument(cfg, count, blocks).trail.emissions)) == NonSpace(Source(blocks))
  {
    assert Collected(INITIAL) == "";
    NothingLostFrom(cfg, count, INITIAL, blocks);
  }
}
