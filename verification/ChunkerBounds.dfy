/** What each chunk consists of, where its overlap comes from, and how many tokens it can hold. */
module ChunkerBounds {
  import opened Text
  import opened Tokens
  import opened Sentences
  import opened Chunker
  import ChunkerTheorems

  // ---- The record of each chunk ----

  ghost predicate ChunkOk(count: Counter, c: TextChunk, e: Emission, i: nat) {
    && c.seqNo == i && c.text != "" && c.text == Strip(Joined(e.heading, e.carry, e.parts)) && c.tokenCount == count(c.text)
    && (e.atomic ==> e.heading == "" && e.carry == "")
  }

  /** `carry` is the tail of chunk `j`, a text chunk of the section `heading`, `path`. */
  ghost predicate CarriedFrom(cfg: Config, count: Counter, st: State, j: int, carry: string, heading: string, path: seq<string>) {
    && 0 <= j < |st.chunks| && j < |st.trail.emissions|
    && var e := st.trail.emissions[j];
    && !e.atomic && e.heading == heading && st.chunks[j].headingPath == path
    && carry == Tail(cfg, count, Join(SEPARATOR, e.parts))
  }

  ghost predicate EntryOk(cfg: Config, count: Counter, st: State, i: nat)
    requires i < |st.chunks| && |st.chunks| == |st.trail.emissions|
  {
    var c, e := st.chunks[i], st.trail.emissions[i];
    && ChunkOk(count, c, e, i)
    && (e.carry != "" ==> CarriedFrom(cfg, count, st, i - 1, e.carry, e.heading, c.headingPath))
  }

  ghost predicate RecordOk(cfg: Config, count: Counter, st: State) {
    && |st.chunks| == |st.trail.emissions|
    && forall i :: 0 <= i < |st.chunks| ==> EntryOk(cfg, count, st, i)
  }

  ghost predicate BuilderOk(cfg: Config, count: Counter, st: State) {
    && RecordOk(cfg, count, st)
    && (forall i :: 0 <= i < |st.parts| ==> !Blank(st.parts[i]))
    && (st.carry != "" ==> CarriedFrom(cfg, count, st, |st.chunks| - 1, st.carry, st.heading, st.headingPath))
  }

  lemma EmitRecord(cfg: Config, count: Counter, st: State, text: string, page: Page, e: Emission)
    requires RecordOk(cfg, count, st)
    requires text == Joined(e.heading, e.carry, e.parts)
    requires e.atomic ==> e.heading == "" && e.carry == ""
    requires e.carry != "" ==> CarriedFrom(cfg, count, st, |st.chunks| - 1, e.carry, e.heading, st.headingPath)
    ensures RecordOk(cfg, count, Emit(count, st, text, page, e))
  {
    var st1 := Emit(count, st, text, page, e);
    forall i | 0 <= i < |st1.chunks| ensures EntryOk(cfg, count, st1, i) {
      if i < |st.chunks| {
        assert EntryOk(cfg, count, st, i);
      }
    }
  }

  lemma PartsNotBlank(heading: string, carry: string, parts: seq<string>)
    requires parts != [] && !Blank(parts[0])
    ensures Strip(Joined(heading, carry, parts)) != ""
  {
    if Blank(Joined(heading, carry, parts)) {
      ChunkerTheorems.BlankBody(heading, carry, parts);
      NonSpaceBlank(Flatten(parts));
      NonSpaceConcat(parts[0], Flatten(parts[1..]));
      NonSpaceBlank(parts[0]);
    }
    StripEmpty(Joined(heading, carry, parts));
  }

  lemma FlushKeeps(cfg: Config, count: Counter, st: State)
    requires BuilderOk(cfg, count, st)
    ensures BuilderOk(cfg, count, Flush(cfg, count, st))
  {
    if st.parts != [] {
      var body := Joined(st.heading, st.carry, st.parts);
      var st1 := st.(carry := Tail(cfg, count, Join(SEPARATOR, st.parts)), parts := []);
      PartsNotBlank(st.heading, st.carry, st.parts);
      RecordFrame(cfg, count, st, st1);
      EmitRecord(cfg, count, st1, body, st.page, PendingEmission(st));
      RecordFrame(cfg, count, Emit(count, st1, body, st.page, PendingEmission(st)), Flush(cfg, count, st));
    }
  }

  lemma RecordFrame(cfg: Config, count: Counter, st: State, st1: State)
    requires RecordOk(cfg, count, st)
    requires st1.chunks == st.chunks && st1.trail.emissions == st.trail.emissions
    ensures RecordOk(cfg, count, st1)
  {
    forall i | 0 <= i < |st1.chunks| ensures EntryOk(cfg, count, st1, i) {
      assert EntryOk(cfg, count, st, i);
    }
  }

  lemma AppendKeeps(cfg: Config, count: Counter, st: State, text: string, fitted: bool, hard: bool)
    requires BuilderOk(cfg, count, st) && !Blank(text)
    ensures BuilderOk(cfg, count, AppendPart(st, text, fitted, hard))
  {
    RecordFrame(cfg, count, st, AppendPart(st, text, fitted, hard));
  }

  lemma PageKeeps(cfg: Config, count: Counter, st: State, page: Page)
    requires BuilderOk(cfg, count, st)
    ensures BuilderOk(cfg, count, st.(page := page))
  {
    RecordFrame(cfg, count, st, st.(page := page));
  }

  lemma AddPieceKeeps(cfg: Config, count: Counter, st: State, page: Page, piece: Piece)
    requires BuilderOk(cfg, count, st) && !Blank(piece.text)
    ensures BuilderOk(cfg, count, AddPiece(cfg, count, st, page, piece))
  {
    var st1 := TakePage(st, page);
    PageKeeps(cfg, count, st, page);
    FlushKeeps(cfg, count, st1);
    PageKeeps(cfg, count, Flush(cfg, count, st1), page);
    AppendKeeps(cfg, count, st1, piece.text, true, piece.hard);
    AppendKeeps(cfg, count, Flush(cfg, count, st1).(page := page), piece.text, false, piece.hard);
  }

  lemma {:induction false} AddPiecesKeep(cfg: Config, count: Counter, st: State, page: Page, pieces: seq<Piece>)
    requires BuilderOk(cfg, count, st)
    requires forall i :: 0 <= i < |pieces| ==> !Blank(pieces[i].text)
    ensures BuilderOk(cfg, count, AddPieces(cfg, count, st, page, pieces))
    decreases |pieces|
  {
    if pieces != [] {
      AddPieceKeeps(cfg, count, st, page, pieces[0]);
      AddPiecesKeep(cfg, count, AddPiece(cfg, count, st, page, pieces[0]), page, pieces[1..]);
    }
  }

  lemma AddTextKeeps(cfg: Config, count: Counter, st: State, b: Block)
    requires BuilderOk(cfg, count, st)
    ensures BuilderOk(cfg, count, AddText(cfg, count, st, b))
  {
    var text := BlockToMarkdown(b);
    if !Blank(text) {
      var st1 := TakePage(st, b.page);
      PageKeeps(cfg, count, st, b.page);
      AppendKeeps(cfg, count, st1, text, true, false);
      FlushKeeps(cfg, count, st1);
      var st2 := Flush(cfg, count, st1);
      AddPiecesKeep(cfg, count, st2, b.page, SplitToFit(cfg, count, st2, text));
    }
  }

  lemma AddBlockKeeps(cfg: Config, count: Counter, st: State, b: Block)
    requires BuilderOk(cfg, count, st)
    ensures BuilderOk(cfg, count, AddBlock(cfg, count, st, b))
  {
    var text := BlockToMarkdown(b);
    FlushKeeps(cfg, count, st);
    if b.kind.Heading? {
      RecordFrame(cfg, count, Flush(cfg, count, st), StartSection(cfg, count, st, b));
    } else if IsAtomic(b) {
      var st1 := Flush(cfg, count, st).(carry := "");
      RecordFrame(cfg, count, Flush(cfg, count, st), st1);
      EmitRecord(cfg, count, st1, text, b.page, Emission(true, "", "", [text], false, false));
    } else {
      AddTextKeeps(cfg, count, st, b);
    }
  }

  lemma {:induction false} AddBlocksKeep(cfg: Config, count: Counter, st: State, blocks: seq<Block>)
    requires BuilderOk(cfg, count, st)
    ensures BuilderOk(cfg, count, AddBlocks(cfg, count, st, blocks))
    decreases |blocks|
  {
    if blocks != [] {
      AddBlockKeeps(cfg, count, st, blocks[0]);
      AddBlocksKeep(cfg, count, AddBlock(cfg, count, st, blocks[0]), blocks[1..]);
    }
  }

  /** Chunk `i` is number `i`, counts its own tokens, and reads: heading, carry, new text; the
      carry, if any, is the tail of the chunk before it, in the same section. */
  lemma ChunkRecord(cfg: Config, count: Counter, blocks: seq<Block>, i: nat)
    requires i < |ChunkDocument(cfg, count, blocks).chunks|
    ensures var st := ChunkDocument(cfg, count, blocks);
            |st.chunks| == |st.trail.emissions| && EntryOk(cfg, count, st, i)
  {
    AddBlocksKeep(cfg, count, INITIAL, blocks);
    FlushKeeps(cfg, count, AddBlocks(cfg, count, INITIAL, blocks));
  }

  lemma {:induction false} TailFromSuffix(count: Counter, budget: int, sentences: seq<string>, picked: string)
    ensures var t := TailFrom(count, budget, sentences, picked);
            exists a: nat :: a <= |Flatten(sentences)| && t == Flatten(sentences)[a..] + picked
    ensures count(picked) <= budget ==> count(TailFrom(count, budget, sentences, picked)) <= budget
    decreases |sentences|
  {
    var whole := Flatten(sentences);
    if sentences == [] || count(sentences[|sentences| - 1] + picked) > budget {
      assert whole[|whole|..] + picked == picked;
    } else {
      var init, last := sentences[..|sentences| - 1], sentences[|sentences| - 1];
      TailFromSuffix(count, budget, init, last + picked);
      FlattenSnocBack(sentences);
      var a: nat :| a <= |Flatten(init)| && TailFrom(count, budget, init, last + picked) == Flatten(init)[a..] + (last + picked);
      assert whole[a..] + picked == Flatten(init)[a..] + (last + picked);
    }
  }

  /** The carry is the end of the text it was taken from, stripped, and within the overlap. */
  lemma TailIsSuffix(cfg: Config, text: string) returns (a: nat)
    ensures a <= |text| && Tail(cfg, EstimateTokens, text) == Strip(text[a..])
    ensures EstimateTokens(Tail(cfg, EstimateTokens, text)) <= if cfg.overlap > 0 then cfg.overlap else 0
  {
    if cfg.overlap <= 0 {
      a := |text|;
      assert text[a..] == "";
    } else {
      var t := TailFrom(EstimateTokens, cfg.overlap, SentencesOf(text), "");
      SentencesConcat(text);
      TailFromSuffix(EstimateTokens, cfg.overlap, SentencesOf(text), "");
      var b: nat :| b <= |text| && t == text[b..] + "";
      a := b;
      assert text[a..] + "" == text[a..];
      EstimateStrip(t);
    }
  }

  lemma OneMoreBehind(sentences: seq<string>, m: nat)
    requires 0 < m <= |sentences|
    ensures Flatten(sentences[m - 1..]) == sentences[m - 1] + Flatten(sentences[m..])
  {
    assert sentences[m - 1..][1..] == sentences[m..];
  }

  /** The sentences from the i-th on stay within the budget. */
  predicate RunFits(count: Counter, budget: int, sentences: seq<string>, i: nat)
    requires i <= |sentences|
  {
    count(Flatten(sentences[i..])) <= budget
  }

  lemma TailFromUnfolds(count: Counter, budget: int, sentences: seq<string>, m: nat, picked: string)
    requires 0 < m <= |sentences|
    ensures TailFrom(count, budget, sentences[..m], picked) ==
              if count(sentences[m - 1] + picked) > budget then picked
              else TailFrom(count, budget, sentences[..m - 1], sentences[m - 1] + picked)
  {
    assert sentences[..m][..m - 1] == sentences[..m - 1];
  }

  lemma {:induction false} TailFromIsLongest(count: Counter, budget: int, sentences: seq<string>, m: nat, picked: string) returns (k: nat)
    requires m <= |sentences| && picked == Flatten(sentences[m..])
    ensures k <= m && TailFrom(count, budget, sentences[..m], picked) == Flatten(sentences[k..])
    ensures forall i {:trigger RunFits(count, budget, sentences, i)} :: k <= i < m ==> RunFits(count, budget, sentences, i)
    ensures k > 0 ==> !RunFits(count, budget, sentences, k - 1)
  {
    if m == 0 {
      return 0;
    }
    OneMoreBehind(sentences, m);
    TailFromUnfolds(count, budget, sentences, m, picked);
    if count(sentences[m - 1] + picked) > budget {
      return m;
    }
    k := TailFromIsLongest(count, budget, sentences, m - 1, sentences[m - 1] + picked);
  }

  /** The overlap is the longest run of whole last sentences of the chunk before that stays within it: every
      shorter run does, and one sentence more does not. */
  lemma TailIsLongest(cfg: Config, count: Counter, text: string) returns (k: nat)
    requires cfg.overlap > 0
    ensures k <= |SentencesOf(text)| && Tail(cfg, count, text) == Strip(Flatten(SentencesOf(text)[k..]))
    ensures forall i {:trigger RunFits(count, cfg.overlap, SentencesOf(text), i)} ::
              k <= i < |SentencesOf(text)| ==> RunFits(count, cfg.overlap, SentencesOf(text), i)
    ensures k > 0 ==> !RunFits(count, cfg.overlap, SentencesOf(text), k - 1)
  {
    var all := SentencesOf(text);
    assert all[..|all|] == all && all[|all|..] == [];
    k := TailFromIsLongest(count, cfg.overlap, all, |all|, "");
  }

  // ---- Packing ----

  /** A sentence that begins `rest` did not fit behind the piece. */
  ghost predicate ClosedBy(count: Counter, budget: nat, piece: string, s: string, rest: string) {
    s <= rest && count(piece + s) > budget
  }

  /** A hard piece is cut from a sentence that fits nowhere; a soft one was closed because the whole next
      sentence did not fit behind it. */
  ghost predicate PieceIsFull(count: Counter, budget: nat, sentences: seq<string>, piece: Piece, rest: string) {
    exists s :: s in sentences &&
      if piece.hard then count(s) > budget && piece.text in HardSplit(s, budget, count) else ClosedBy(count, budget, piece.text, s, rest)
  }

  function Behind(sp: Splitting, i: nat): string
    requires i < |sp.pieces|
  {
    ChunkerTheorems.PieceText(sp.pieces[i + 1..]) + sp.buffer
  }

  ghost predicate Packed(count: Counter, budget: nat, sentences: seq<string>, sp: Splitting) {
    forall i :: 0 <= i < |sp.pieces| ==> PieceIsFull(count, budget, sentences, sp.pieces[i], Behind(sp, i))
  }

  lemma MoreBehind(count: Counter, budget: nat, sentences: seq<string>, piece: Piece, rest: string, s: string)
    requires PieceIsFull(count, budget, sentences, piece, rest)
    ensures PieceIsFull(count, budget, sentences, piece, rest + s)
  {
    var t :| t in sentences &&
      if piece.hard then count(t) > budget && piece.text in HardSplit(t, budget, count) else ClosedBy(count, budget, piece.text, t, rest);
    assert !piece.hard ==> t <= rest + s;
  }

  /** What one round adds: the buffer when the sentence did not fit behind it, and slices of the sentence when
      it fits nowhere. */
  ghost predicate Adds(count: Counter, budget: nat, s: string, buffer: string, more: seq<Piece>) {
    forall j :: 0 <= j < |more| ==>
      if j == 0 && buffer != "" then more[0] == Piece(buffer, false) && count(buffer + s) > budget
      else more[j].hard && count(s) > budget && more[j].text in HardSplit(s, budget, count)
  }

  lemma CutAdds(count: Counter, budget: nat, s: string, buffer: string) returns (more: seq<Piece>)
    requires count(buffer + s) > budget && count(s) > budget
    ensures more == Soft(buffer) + HardPieces(HardSplit(s, budget, count)) && Adds(count, budget, s, buffer, more)
    ensures ChunkerTheorems.PieceText(more) == buffer + s
    ensures buffer != "" ==> ChunkerTheorems.PieceText(more[1..]) == s
  {
    var hard := HardPieces(HardSplit(s, budget, count));
    more := Soft(buffer) + hard;
    ChunkerTheorems.SoftText(buffer);
    ChunkerTheorems.HardSplitText(s, budget, count);
    ChunkerTheorems.PieceTextConcat(Soft(buffer), hard);
    assert buffer != "" ==> more[1..] == hard;
  }

  lemma ClosingAdds(count: Counter, budget: nat, s: string, buffer: string)
    requires count(buffer + s) > budget
    ensures Adds(count, budget, s, buffer, Soft(buffer)) && ChunkerTheorems.PieceText(Soft(buffer)) == buffer
    ensures buffer != "" ==> ChunkerTheorems.PieceText(Soft(buffer)[1..]) == ""
  {
    ChunkerTheorems.SoftText(buffer);
    assert buffer != "" ==> Soft(buffer)[1..] == [];
  }

  lemma NothingBefore(a: string)
    ensures "" + a == a
  {}

  lemma StepAdds(count: Counter, budget: nat, s: string, sp: Splitting) returns (more: seq<Piece>)
    ensures var sp1 := SplitStep(count, budget, s, sp);
            sp1.pieces == sp.pieces + more && ChunkerTheorems.PieceText(more) + sp1.buffer == sp.buffer + s
    ensures Adds(count, budget, s, sp.buffer, more)
    ensures |more| > 0 && sp.buffer != "" ==> ChunkerTheorems.PieceText(more[1..]) + SplitStep(count, budget, s, sp).buffer == s
  {
    var sp1 := SplitStep(count, budget, s, sp);
    if count(sp.buffer + s) <= budget {
      assert sp1 == sp.(buffer := sp.buffer + s) && sp1.pieces == sp.pieces + [];
      NothingBefore(sp1.buffer);
      more := [];
    } else if count(s) <= budget {
      ClosingAdds(count, budget, s, sp.buffer);
      more := Soft(sp.buffer);
      assert sp1 == Splitting(sp.pieces + more, s);
      NothingBefore(s);
    } else {
      more := CutAdds(count, budget, s, sp.buffer);
      var soft, hard := Soft(sp.buffer), HardPieces(HardSplit(s, budget, count));
      assert sp.pieces + soft + hard == sp.pieces + (soft + hard);
      assert sp1 == Splitting(sp.pieces + more, "");
      assert ChunkerTheorems.PieceText(more) + "" == ChunkerTheorems.PieceText(more);
      assert sp.buffer != "" ==> ChunkerTheorems.PieceText(more[1..]) + "" == s;
    }
  }

  lemma StepPacks(count: Counter, budget: nat, sentences: seq<string>, s: string, sp: Splitting)
    requires Packed(count, budget, sentences, sp) && s in sentences
    ensures Packed(count, budget, sentences, SplitStep(count, budget, s, sp))
  {
    var sp1 := SplitStep(count, budget, s, sp);
    var more := StepAdds(count, budget, s, sp);
    forall i | 0 <= i < |sp1.pieces| ensures PieceIsFull(count, budget, sentences, sp1.pieces[i], Behind(sp1, i)) {
      if i < |sp.pieces| {
        StepBehind(sp, sp1, more, s, i);
        MoreBehind(count, budget, sentences, sp.pieces[i], Behind(sp, i), s);
      } else {
        var j := i - |sp.pieces|;
        assert sp1.pieces[i] == more[j] && sp1.pieces[i + 1..] == more[j + 1..];
      }
    }
  }

  lemma StepBehind(sp: Splitting, sp1: Splitting, more: seq<Piece>, s: string, i: nat)
    requires sp1.pieces == sp.pieces + more && ChunkerTheorems.PieceText(more) + sp1.buffer == sp.buffer + s && i < |sp.pieces|
    ensures Behind(sp1, i) == Behind(sp, i) + s
  {
    var text := ChunkerTheorems.PieceText(sp.pieces[i + 1..]);
    assert sp1.pieces[i + 1..] == sp.pieces[i + 1..] + more;
    ChunkerTheorems.PieceTextConcat(sp.pieces[i + 1..], more);
    ChunkerTheorems.Assoc(text, ChunkerTheorems.PieceText(more), sp1.buffer);
    ChunkerTheorems.Assoc(text, sp.buffer, s);
  }

  lemma {:induction false} LoopPacks(count: Counter, budget: nat, all: seq<string>, sentences: seq<string>, sp: Splitting)
    requires Packed(count, budget, all, sp) && forall s :: s in sentences ==> s in all
    ensures Packed(count, budget, all, SplitLoop(count, budget, sentences, sp))
    decreases |sentences|
  {
    if sentences != [] {
      StepPacks(count, budget, all, sentences[0], sp);
      LoopPacks(count, budget, all, sentences[1..], SplitStep(count, budget, sentences[0], sp));
    }
  }

  /** A text that does not fit is cut into as few pieces as its sentences allow, first come: each piece but the
      last was closed by a sentence that did not fit behind it, and only a sentence that fits nowhere is cut. */
  lemma PiecesArePacked(cfg: Config, count: Counter, st: State, text: string)
    ensures var budget := BudgetForBody(cfg, count, st);
            Packed(count, budget, SentencesOf(text), SplitLoop(count, budget, SentencesOf(text), Splitting([], "")))
  {
    LoopPacks(count, BudgetForBody(cfg, count, st), SentencesOf(text), SentencesOf(text), Splitting([], ""));
  }

  // ---- Sizes ----

  lemma EstimateStrip(s: string)
    ensures EstimateTokens(Strip(s)) <= EstimateTokens(s)
  {
    var l := LStrip(s);
    LStripSlice(s);
    RStripSlice(l);
    EstimateSlice(s, |s| - |l|, |s|);
    assert s[|s| - |l|..|s|] == l;
    EstimateSlice(l, 0, |RStrip(l)|);
    assert l[0..|RStrip(l)|] == RStrip(l);
  }

  lemma EstimateRStrip(s: string)
    ensures EstimateTokens(RStrip(s)) <= EstimateTokens(s)
  {
    RStripSlice(s);
    EstimateSlice(s, 0, |RStrip(s)|);
    assert s[0..|RStrip(s)|] == RStrip(s);
  }

  function Max(a: int, b: int): int {
    if a >= b then a else b
  }

  /** Tokens left for a body part once the heading is counted. */
  function BodyBound(cfg: Config, count: Counter, heading: string): nat {
    Max(cfg.target - count(heading), 1)
  }

  /** What a piece from `_split_to_fit` may cost. */
  ghost predicate PieceFits(cfg: Config, count: Counter, heading: string, piece: Piece) {
    count(piece.text) <= if piece.hard then 4 * BodyBound(cfg, count, heading) else BodyBound(cfg, count, heading)
  }

  ghost predicate EmissionFits(cfg: Config, count: Counter, e: Emission, tokens: nat) {
    !e.atomic ==>
      var room := Max(cfg.target, count(e.heading) + 1);
      && (e.fitted ==> tokens <= cfg.target)
      && (!e.hard ==> tokens <= room + Max(cfg.overlap, 0) + 1)
      && tokens <= 4 * room + Max(cfg.overlap, 0) + 1
  }

  ghost predicate EmittedFit(cfg: Config, count: Counter, st: State) {
    && |st.chunks| == |st.trail.emissions|
    && forall i :: 0 <= i < |st.chunks| ==> EmissionFits(cfg, count, st.trail.emissions[i], st.chunks[i].tokenCount)
  }

  ghost predicate PendingFits(cfg: Config, count: Counter, st: State) {
    && count(st.carry) <= Max(cfg.overlap, 0)
    && (st.parts != [] ==>
          if st.trail.fitted then count(Joined(st.heading, st.carry, st.parts)) <= cfg.target
          else |st.parts| == 1 && PieceFits(cfg, count, st.heading, Piece(st.parts[0], st.trail.hard)))
  }

  ghost predicate SizesOk(cfg: Config, count: Counter, st: State) {
    EmittedFit(cfg, count, st) && PendingFits(cfg, count, st)
  }

  lemma CjkCountJoined(heading: string, carry: string, part: string)
    ensures CjkCount(Joined(heading, carry, [part])) == CjkCount(heading) + CjkCount(carry) + CjkCount(part)
    ensures |Joined(heading, carry, [part])| <= |heading| + |carry| + |part| + 4
  {
    CjkCountConcat(heading + SEPARATOR, Joined("", carry, [part]));
    CjkCountConcat(heading, SEPARATOR);
    CjkCountConcat(carry + SEPARATOR, part);
    CjkCountConcat(carry, SEPARATOR);
    CjkCountExtremes(SEPARATOR);
    if carry != "" {
      JoinConcat(SEPARATOR, [carry], [part]);
      assert Optional("") + Optional(carry) + [part] == [carry] + [part];
    } else {
      assert Optional("") + Optional(carry) + [part] == [part];
    }
    assert Optional("") + Optional(carry) + [part] == Optional(carry) + [part];
    if heading != "" {
      JoinConcat(SEPARATOR, [heading], Optional(carry) + [part]);
      assert Optional(heading) + Optional(carry) + [part] == [heading] + (Optional(carry) + [part]);
    } else {
      assert Optional(heading) + Optional(carry) + [part] == Optional(carry) + [part];
    }
  }

  /** The two separators cost one token at most. */
  lemma EstimateJoined(heading: string, carry: string, part: string)
    ensures EstimateTokens(Joined(heading, carry, [part])) <=
            EstimateTokens(heading) + EstimateTokens(carry) + EstimateTokens(part) + 1
  {
    CjkCountJoined(heading, carry, part);
  }

  lemma BudgetWithinBound(cfg: Config, st: State)
    ensures BudgetForBody(cfg, EstimateTokens, st) <= BodyBound(cfg, EstimateTokens, st.heading)
  {
    if st.heading != "" {
      var all := Optional(st.heading) + Optional(st.carry) + [];
      assert all[0] == st.heading;
      if |all| > 1 {
        EstimateConcat(st.heading, SEPARATOR + Join(SEPARATOR, all[1..]));
        assert Join(SEPARATOR, all) == st.heading + (SEPARATOR + Join(SEPARATOR, all[1..]));
      }
    }
  }

  ghost predicate PiecesFit(cfg: Config, count: Counter, heading: string, pieces: seq<Piece>) {
    forall i :: 0 <= i < |pieces| ==> PieceFits(cfg, count, heading, pieces[i])
  }

  lemma SplitStepFits(cfg: Config, heading: string, budget: nat, s: string, sp: Splitting)
    requires 0 < budget <= BodyBound(cfg, EstimateTokens, heading)
    requires PiecesFit(cfg, EstimateTokens, heading, sp.pieces) && EstimateTokens(sp.buffer) <= budget
    ensures var sp1 := SplitStep(EstimateTokens, budget, s, sp);
            PiecesFit(cfg, EstimateTokens, heading, sp1.pieces) && EstimateTokens(sp1.buffer) <= budget
  {
    HardSplitBound(s, budget);
    var hard := HardPieces(HardSplit(s, budget, EstimateTokens));
    forall i | 0 <= i < |hard| ensures PieceFits(cfg, EstimateTokens, heading, hard[i]) {
      assert EstimateTokens(HardSplit(s, budget, EstimateTokens)[i]) <= 4 * budget;
    }
  }

  lemma {:induction false} SplitLoopFits(cfg: Config, heading: string, budget: nat, sentences: seq<string>, sp: Splitting)
    requires 0 < budget <= BodyBound(cfg, EstimateTokens, heading)
    requires PiecesFit(cfg, EstimateTokens, heading, sp.pieces) && EstimateTokens(sp.buffer) <= budget
    ensures var sp1 := SplitLoop(EstimateTokens, budget, sentences, sp);
            PiecesFit(cfg, EstimateTokens, heading, sp1.pieces) && EstimateTokens(sp1.buffer) <= budget
    decreases |sentences|
  {
    if sentences != [] {
      SplitStepFits(cfg, heading, budget, sentences[0], sp);
      SplitLoopFits(cfg, heading, budget, sentences[1..], SplitStep(EstimateTokens, budget, sentences[0], sp));
    }
  }

  lemma {:induction false} KeepTextFits(cfg: Config, heading: string, pieces: seq<Piece>)
    requires PiecesFit(cfg, EstimateTokens, heading, pieces)
    ensures PiecesFit(cfg, EstimateTokens, heading, KeepText(pieces))
  {
    if pieces != [] {
      KeepTextFits(cfg, heading, pieces[1..]);
      assert PieceFits(cfg, EstimateTokens, heading, pieces[0]);
      EstimateRStrip(pieces[0].text);
    }
  }

  lemma SplitToFitFits(cfg: Config, st: State, text: string)
    ensures PiecesFit(cfg, EstimateTokens, st.heading, SplitToFit(cfg, EstimateTokens, st, text))
  {
    var budget := BudgetForBody(cfg, EstimateTokens, st);
    BudgetWithinBound(cfg, st);
    SplitLoopFits(cfg, st.heading, budget, SentencesOf(text), Splitting([], ""));
    var sp := SplitLoop(EstimateTokens, budget, SentencesOf(text), Splitting([], ""));
    KeepTextFits(cfg, st.heading, sp.pieces + Soft(sp.buffer));
  }

  lemma EmissionWithin(cfg: Config, st: State)
    requires PendingFits(cfg, EstimateTokens, st) && st.parts != []
    ensures EmissionFits(cfg, EstimateTokens, PendingEmission(st), EstimateTokens(Strip(Joined(st.heading, st.carry, st.parts))))
  {
    EstimateStrip(Joined(st.heading, st.carry, st.parts));
    if !st.trail.fitted {
      assert st.parts == [st.parts[0]];
      EstimateJoined(st.heading, st.carry, st.parts[0]);
    }
  }

  lemma EmitSizes(cfg: Config, count: Counter, st: State, text: string, page: Page, e: Emission)
    requires EmittedFit(cfg, count, st) && EmissionFits(cfg, count, e, count(Strip(text)))
    ensures EmittedFit(cfg, count, Emit(count, st, text, page, e))
  {}

  lemma FlushSizes(cfg: Config, st: State)
    requires SizesOk(cfg, EstimateTokens, st)
    ensures SizesOk(cfg, EstimateTokens, Flush(cfg, EstimateTokens, st))
  {
    if st.parts != [] {
      EmissionWithin(cfg, st);
      var a := TailIsSuffix(cfg, Join(SEPARATOR, st.parts));
      FlushSizesOf(cfg, EstimateTokens, st);
    }
  }

  lemma FlushSizesOf(cfg: Config, count: Counter, st: State)
    requires SizesOk(cfg, count, st) && st.parts != []
    requires EmissionFits(cfg, count, PendingEmission(st), count(Strip(Joined(st.heading, st.carry, st.parts))))
    requires count(Tail(cfg, count, Join(SEPARATOR, st.parts))) <= Max(cfg.overlap, 0)
    ensures SizesOk(cfg, count, Flush(cfg, count, st))
  {
    var st1 := st.(carry := Tail(cfg, count, Join(SEPARATOR, st.parts)), parts := []);
    EmitSizes(cfg, count, st1, Joined(st.heading, st.carry, st.parts), st.page, PendingEmission(st));
  }

  lemma AppendSizes(cfg: Config, count: Counter, st: State, text: string, hard: bool)
    requires SizesOk(cfg, count, st)
    ensures count(Joined(st.heading, st.carry, st.parts + [text])) <= cfg.target ==>
              SizesOk(cfg, count, AppendPart(st, text, true, hard))
    ensures st.parts == [] && PieceFits(cfg, count, st.heading, Piece(text, hard)) ==>
              SizesOk(cfg, count, AppendPart(st, text, false, hard))
  {}

  lemma FlushShape(cfg: Config, count: Counter, st: State)
    ensures Flush(cfg, count, st).parts == [] && Flush(cfg, count, st).heading == st.heading
  {}

  lemma PageSizes(cfg: Config, count: Counter, st: State, page: Page)
    requires SizesOk(cfg, count, st)
    ensures SizesOk(cfg, count, st.(page := page))
  {}

  lemma AddPieceSizesOf(cfg: Config, count: Counter, st: State, page: Page, piece: Piece)
    requires var st1 := TakePage(st, page);
             SizesOk(cfg, count, st1) && SizesOk(cfg, count, Flush(cfg, count, st1))
    requires PieceFits(cfg, count, st.heading, piece)
    ensures SizesOk(cfg, count, AddPiece(cfg, count, st, page, piece))
    ensures AddPiece(cfg, count, st, page, piece).heading == st.heading
  {
    var st1 := TakePage(st, page);
    FlushShape(cfg, count, st1);
    AppendSizes(cfg, count, st1, piece.text, piece.hard);
    PageSizes(cfg, count, Flush(cfg, count, st1), page);
    AppendSizes(cfg, count, Flush(cfg, count, st1).(page := page), piece.text, piece.hard);
  }

  lemma {:induction false} AddPiecesSizes(cfg: Config, st: State, page: Page, pieces: seq<Piece>)
    requires SizesOk(cfg, EstimateTokens, st) && PiecesFit(cfg, EstimateTokens, st.heading, pieces)
    ensures SizesOk(cfg, EstimateTokens, AddPieces(cfg, EstimateTokens, st, page, pieces))
    decreases |pieces|
  {
    if pieces != [] {
      assert PieceFits(cfg, EstimateTokens, st.heading, pieces[0]);
      var st1 := TakePage(st, page);
      PageSizes(cfg, EstimateTokens, st, page);
      FlushSizes(cfg, st1);
      AddPieceSizesOf(cfg, EstimateTokens, st, page, pieces[0]);
      AddPiecesSizes(cfg, AddPiece(cfg, EstimateTokens, st, page, pieces[0]), page, pieces[1..]);
    }
  }

  lemma AddTextSizes(cfg: Config, st: State, b: Block)
    requires SizesOk(cfg, EstimateTokens, st)
    ensures SizesOk(cfg, EstimateTokens, AddText(cfg, EstimateTokens, st, b))
  {
    var text := BlockToMarkdown(b);
    var st1 := TakePage(st, b.page);
    PageSizes(cfg, EstimateTokens, st, b.page);
    AppendSizes(cfg, EstimateTokens, st1, text, false);
    FlushSizes(cfg, st1);
    var st2 := Flush(cfg, EstimateTokens, st1);
    SplitToFitFits(cfg, st2, text);
    AddPiecesSizes(cfg, st2, b.page, SplitToFit(cfg, EstimateTokens, st2, text));
  }

  lemma BoundarySizes(cfg: Config, count: Counter, st: State, b: Block)
    requires SizesOk(cfg, count, Flush(cfg, count, st)) && count("") == 0
    ensures SizesOk(cfg, count, StartSection(cfg, count, st, b))
    ensures SizesOk(cfg, count, AddAtomic(cfg, count, st, b))
  {
    FlushShape(cfg, count, st);
    var text := BlockToMarkdown(b);
    EmitSizes(cfg, count, Flush(cfg, count, st).(carry := ""), text, b.page, Emission(true, "", "", [text], false, false));
  }

  lemma {:induction false} AddBlocksSizes(cfg: Config, st: State, blocks: seq<Block>)
    requires SizesOk(cfg, EstimateTokens, st)
    ensures SizesOk(cfg, EstimateTokens, AddBlocks(cfg, EstimateTokens, st, blocks))
    decreases |blocks|
  {
    if blocks != [] {
      FlushSizes(cfg, st);
      AddTextSizes(cfg, st, blocks[0]);
      BoundarySizes(cfg, EstimateTokens, st, blocks[0]);
      AddBlocksSizes(cfg, AddBlock(cfg, EstimateTokens, st, blocks[0]), blocks[1..]);
    }
  }

  /** Under the token estimate a text chunk stays within the target when its last part was accepted
      by `_fits`, exceeds the target (or the heading) by at most the overlap and one token when it
      holds no hard slice, and by a factor of four otherwise. */
  lemma ChunkSizes(cfg: Config, blocks: seq<Block>, i: nat)
    requires i < |ChunkDocument(cfg, EstimateTokens, blocks).chunks|
    ensures var st := ChunkDocument(cfg, EstimateTokens, blocks);
            |st.chunks| == |st.trail.emissions| &&
            EmissionFits(cfg, EstimateTokens, st.trail.emissions[i], st.chunks[i].tokenCount)
  {
    var st := AddBlocks(cfg, EstimateTokens, INITIAL, blocks);
    assert SizesOk(cfg, EstimateTokens, INITIAL);
    AddBlocksSizes(cfg, INITIAL, blocks);
    FlushSizes(cfg, st);
    SizesAt(cfg, EstimateTokens, Flush(cfg, EstimateTokens, st), i);
  }

  lemma SizesAt(cfg: Config, count: Counter, st: State, i: nat)
    requires SizesOk(cfg, count, st) && i < |st.chunks|
    ensures |st.chunks| == |st.trail.emissions|
    ensures EmissionFits(cfg, count, st.trail.emissions[i], st.chunks[i].tokenCount)
  {}
}
