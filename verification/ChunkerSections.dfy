/** What a chunk says about its place: the heading in front of it, its heading path, its page and its
    overlap, all read off the blocks of the document. */
module ChunkerSections {
  import opened Text
  import opened Tokens
  import opened Sentences
  import opened Chunker
  import ChunkerTheorems
  import ChunkerBounds

  /** A stretch of blocks without headings, the heading before it if there is one, and what was put out
      before. */
  datatype Section = Section(
    heading: string, path: seq<string>, page: Page, body: seq<Block>, chunks: seq<TextChunk>, emissions: seq<Emission>)

  predicate NoHeading(blocks: seq<Block>) {
    forall b :: b in blocks ==> !b.kind.Heading?
  }

  /** Tables and code stay whole. */
  predicate Whole(b: Block) {
    b.kind.Table? || b.kind.Code?
  }

  /** No table and no code is blank, so each of them becomes a chunk. */
  predicate Solid(blocks: seq<Block>) {
    forall b :: b in blocks && Whole(b) ==> !Blank(BlockToMarkdown(b))
  }

  function FirstPage(blocks: seq<Block>): Page {
    if blocks == [] then NoPage
    else
      var page := FirstPage(blocks[..|blocks| - 1]);
      if page != NoPage then page else blocks[|blocks| - 1].page
  }

  lemma FirstPageSnoc(blocks: seq<Block>, b: Block)
    ensures FirstPage(blocks + [b]) == if FirstPage(blocks) != NoPage then FirstPage(blocks) else b.page
  {
    assert (blocks + [b])[..|blocks + [b]| - 1] == blocks;
  }

  // ---- What is said of a chunk, looking at those put out earlier ----

  /** The letters of a part are a stretch of those of the block. */
  ghost predicate PartOf(part: string, b: Block) {
    exists p, q :: NonSpace(BlockToMarkdown(b)) == p + NonSpace(part) + q
  }

  ghost predicate PartFrom(sec: Section, part: string, b: Block) {
    b in sec.body && !Whole(b) && !Blank(part) && PartOf(part, b)
  }

  ghost predicate TakenFrom(sec: Section, parts: seq<string>, from: seq<Block>) {
    |from| == |parts| && forall j :: 0 <= j < |parts| ==> PartFrom(sec, parts[j], from[j])
  }

  predicate TextSince(sec: Section, earlier: seq<Emission>) {
    exists k :: |sec.chunks| <= k < |earlier| && !earlier[k].atomic
  }

  /** The page of the heading counts for the first text chunk behind it. */
  function Lead(sec: Section, earlier: seq<Emission>): Page {
    if TextSince(sec, earlier) then NoPage else sec.page
  }

  /** The page of a chunk made of these parts: the heading's, unless the first part had to be put in although
      it did not fit, or that of the first block that has one. */
  function PageOf(cfg: Config, count: Counter, lead: Page, heading: string, carry: string, parts: seq<string>, from: seq<Block>): Page {
    if lead != NoPage && (parts == [] || Fits(cfg, count, Joined(heading, carry, [parts[0]]))) then lead else FirstPage(from)
  }

  /** A text chunk of the section came right before. */
  predicate Follows(sec: Section, earlier: seq<Emission>) {
    |sec.chunks| < |earlier| && !earlier[|earlier| - 1].atomic
  }

  /** The overlap is the tail of that text chunk. */
  function CarryInto(cfg: Config, count: Counter, sec: Section, earlier: seq<Emission>): string {
    if Follows(sec, earlier) then Tail(cfg, count, Join(SEPARATOR, earlier[|earlier| - 1].parts)) else ""
  }

  predicate NoRoom(cfg: Config, count: Counter, e: Emission, text: string) {
    !Fits(cfg, count, Joined(e.heading, e.carry, e.parts + [text]))
  }

  /** The chunk before was closed because this part, or the block it was cut from, did not fit into it. */
  predicate Overflows(cfg: Config, count: Counter, sec: Section, earlier: seq<Emission>, part: string, b: Block) {
    Follows(sec, earlier) ==> NoRoom(cfg, count, earlier[|earlier| - 1], part) || NoRoom(cfg, count, earlier[|earlier| - 1], BlockToMarkdown(b))
  }

  ghost predicate TextOk(cfg: Config, count: Counter, sec: Section, c: TextChunk, earlier: seq<Emission>, e: Emission, from: seq<Block>) {
    && e.heading == sec.heading && e.parts != [] && TakenFrom(sec, e.parts, from)
    && (var page := PageOf(cfg, count, Lead(sec, earlier), e.heading, e.carry, e.parts, from);
        c.page == page || (page == NoPage && exists b :: b in sec.body && c.page == b.page))
    && (|e.parts| > 1 ==> Fits(cfg, count, Joined(e.heading, e.carry, e.parts)))
    && (Solid(sec.body) ==> e.carry == CarryInto(cfg, count, sec, earlier) && Overflows(cfg, count, sec, earlier, e.parts[0], from[0]))
  }

  ghost predicate WholeOk(sec: Section, c: TextChunk, e: Emission, from: seq<Block>) {
    && |from| == 1 && from[0] in sec.body && Whole(from[0]) && c.page == from[0].page
    && e.parts == [if from[0].kind.Code? then "```\n" + from[0].text + "\n```" else from[0].text]
  }

  ghost predicate Placed(cfg: Config, count: Counter, sec: Section, c: TextChunk, earlier: seq<Emission>, e: Emission, from: seq<Block>) {
    c.headingPath == sec.path && if e.atomic then WholeOk(sec, c, e, from) else TextOk(cfg, count, sec, c, earlier, e, from)
  }

  /** All chunks behind those put out before the section, each with what came before it; `froms` are the
      blocks their parts were taken from. */
  ghost predicate AllPlaced(cfg: Config, count: Counter, sec: Section, chunks: seq<TextChunk>, emissions: seq<Emission>, froms: seq<seq<Block>>)
    decreases |froms|
  {
    var n := |sec.chunks| + |froms|;
    && |sec.emissions| == |sec.chunks| && |chunks| == |emissions| == n
    && if froms == [] then chunks == sec.chunks && emissions == sec.emissions
       else
         && Placed(cfg, count, sec, chunks[n - 1], emissions[..n - 1], emissions[n - 1], froms[|froms| - 1])
         && AllPlaced(cfg, count, sec, chunks[..n - 1], emissions[..n - 1], froms[..|froms| - 1])
  }

  // ---- The builder inside the section ----

  function PageNow(cfg: Config, count: Counter, sec: Section, st: State, pending: seq<Block>): Page {
    PageOf(cfg, count, Lead(sec, st.trail.emissions), st.heading, st.carry, st.parts, pending)
  }

  /** What the waiting parts will need as a chunk; `extra` is a page taken from the block in hand. */
  ghost predicate Waiting(cfg: Config, count: Counter, sec: Section, st: State, pending: seq<Block>, extra: Page) {
    && st.heading == sec.heading && st.headingPath == sec.path && TakenFrom(sec, st.parts, pending)
    && (var page := PageNow(cfg, count, sec, st, pending); st.page == page || (page == NoPage && st.page == extra))
    && (|st.parts| > 1 ==> Fits(cfg, count, Joined(st.heading, st.carry, st.parts)))
    && (Solid(sec.body) ==>
          && st.carry == CarryInto(cfg, count, sec, st.trail.emissions)
          && (st.parts != [] ==> Overflows(cfg, count, sec, st.trail.emissions, st.parts[0], pending[0])))
  }

  ghost predicate Inside(cfg: Config, count: Counter, sec: Section, st: State, froms: seq<seq<Block>>, pending: seq<Block>, extra: Page) {
    AllPlaced(cfg, count, sec, st.chunks, st.trail.emissions, froms) && Waiting(cfg, count, sec, st, pending, extra)
  }

  /** Between two blocks, a text chunk was put out last only if parts are waiting again. */
  predicate Between(sec: Section, st: State) {
    Solid(sec.body) && st.parts == [] ==> !Follows(sec, st.trail.emissions)
  }

  /** A part may start a chunk here. */
  predicate MayStart(cfg: Config, count: Counter, sec: Section, st: State, part: string, b: Block) {
    Solid(sec.body) && st.parts == [] ==> Overflows(cfg, count, sec, st.trail.emissions, part, b)
  }

  predicate FromBody(sec: Section, page: Page) {
    page == NoPage || exists b :: b in sec.body && b.page == page
  }

  lemma OneMorePlaced(cfg: Config, count: Counter, sec: Section, chunks: seq<TextChunk>, emissions: seq<Emission>, froms: seq<seq<Block>>,
                      c: TextChunk, e: Emission, from: seq<Block>)
    requires AllPlaced(cfg, count, sec, chunks, emissions, froms) && Placed(cfg, count, sec, c, emissions, e, from)
    ensures AllPlaced(cfg, count, sec, chunks + [c], emissions + [e], froms + [from])
  {
    assert (chunks + [c])[..|chunks|] == chunks && (emissions + [e])[..|chunks|] == emissions && (froms + [from])[..|froms|] == froms;
  }

  function WaitingChunk(count: Counter, st: State): TextChunk {
    var body := Strip(Joined(st.heading, st.carry, st.parts));
    TextChunk(|st.chunks|, body, count(body), st.page, st.headingPath)
  }

  /** The chunk the waiting parts become. */
  lemma WaitingPlaced(cfg: Config, count: Counter, sec: Section, st: State, pending: seq<Block>, extra: Page)
    requires Waiting(cfg, count, sec, st, pending, extra) && FromBody(sec, extra) && st.parts != []
    ensures Placed(cfg, count, sec, WaitingChunk(count, st), st.trail.emissions, PendingEmission(st), pending)
  {}

  lemma TextPutOut(cfg: Config, count: Counter, sec: Section, emissions: seq<Emission>, e: Emission)
    requires |sec.chunks| <= |emissions| && !e.atomic
    ensures Lead(sec, emissions + [e]) == NoPage && Follows(sec, emissions + [e])
    ensures CarryInto(cfg, count, sec, emissions + [e]) == Tail(cfg, count, Join(SEPARATOR, e.parts))
  {
    assert (emissions + [e])[|emissions|] == e;
  }

  lemma FlushShows(cfg: Config, count: Counter, st: State)
    requires st.parts != [] && !Blank(st.parts[0])
    ensures Flush(cfg, count, st).chunks == st.chunks + [WaitingChunk(count, st)]
    ensures Flush(cfg, count, st).trail.emissions == st.trail.emissions + [PendingEmission(st)]
  {
    ChunkerBounds.PartsNotBlank(st.heading, st.carry, st.parts);
  }

  lemma FlushPlaces(cfg: Config, count: Counter, sec: Section, st: State, froms: seq<seq<Block>>, pending: seq<Block>, extra: Page)
    returns (froms1: seq<seq<Block>>)
    requires Inside(cfg, count, sec, st, froms, pending, extra) && FromBody(sec, extra)
    ensures Inside(cfg, count, sec, Flush(cfg, count, st), froms1, [], if st.parts == [] then extra else NoPage)
    ensures st.parts != [] ==> Lead(sec, Flush(cfg, count, st).trail.emissions) == NoPage
  {
    if st.parts == [] {
      return froms;
    }
    WaitingPlaced(cfg, count, sec, st, pending, extra);
    FlushShows(cfg, count, st);
    TextPutOut(cfg, count, sec, st.trail.emissions, PendingEmission(st));
    OneMorePlaced(cfg, count, sec, st.chunks, st.trail.emissions, froms, WaitingChunk(count, st), PendingEmission(st), pending);
    return froms + [pending];
  }

  /** After a flush because `text` did not fit. */
  lemma FlushOverflows(cfg: Config, count: Counter, sec: Section, st: State, text: string, part: string, b: Block)
    requires !Fits(cfg, count, Joined(st.heading, st.carry, st.parts + [text])) && (text == part || text == BlockToMarkdown(b))
    requires MayStart(cfg, count, sec, st, part, b) && (st.parts != [] ==> !Blank(st.parts[0]))
    ensures MayStart(cfg, count, sec, Flush(cfg, count, st), part, b)
  {
    if st.parts != [] {
      FlushShows(cfg, count, st);
    }
  }

  lemma TakenSnoc(sec: Section, parts: seq<string>, from: seq<Block>, text: string, b: Block)
    requires TakenFrom(sec, parts, from) && PartFrom(sec, text, b)
    ensures TakenFrom(sec, parts + [text], from + [b])
  {}

  lemma PageSnoc(cfg: Config, count: Counter, lead: Page, heading: string, carry: string, parts: seq<string>, from: seq<Block>, text: string, b: Block)
    requires |parts| == |from| && (parts == [] ==> lead == NoPage || Fits(cfg, count, Joined(heading, carry, [text])))
    ensures var page := PageOf(cfg, count, lead, heading, carry, parts, from);
            PageOf(cfg, count, lead, heading, carry, parts + [text], from + [b]) == if page != NoPage then page else b.page
  {
    FirstPageSnoc(from, b);
    if parts != [] {
      assert (parts + [text])[0] == parts[0];
    }
  }

  /** A part that fits. */
  lemma AppendPlaces(cfg: Config, count: Counter, sec: Section, st: State, froms: seq<seq<Block>>, pending: seq<Block>, b: Block, text: string, hard: bool)
    requires Inside(cfg, count, sec, st, froms, pending, b.page) && PartFrom(sec, text, b) && MayStart(cfg, count, sec, st, text, b)
    requires st.page == if PageNow(cfg, count, sec, st, pending) != NoPage then PageNow(cfg, count, sec, st, pending) else b.page
    requires Fits(cfg, count, Joined(st.heading, st.carry, st.parts + [text]))
    ensures Inside(cfg, count, sec, AppendPart(st, text, true, hard), froms, pending + [b], NoPage)
  {
    TakenSnoc(sec, st.parts, pending, text, b);
    if st.parts == [] {
      assert st.parts + [text] == [text] && pending + [b] == [b];
    } else {
      assert (st.parts + [text])[0] == st.parts[0] && (pending + [b])[0] == pending[0];
    }
    PageSnoc(cfg, count, Lead(sec, st.trail.emissions), st.heading, st.carry, st.parts, pending, text, b);
  }

  lemma TakePlaces(cfg: Config, count: Counter, sec: Section, st: State, froms: seq<seq<Block>>, pending: seq<Block>, b: Block)
    requires Inside(cfg, count, sec, st, froms, pending, b.page)
    ensures var st1 := TakePage(st, b.page);
            && Inside(cfg, count, sec, st1, froms, pending, b.page)
            && st1.page == if PageNow(cfg, count, sec, st1, pending) != NoPage then PageNow(cfg, count, sec, st1, pending) else b.page
  {}

  /** A part put in although it did not fit starts a chunk of its own, under its own page. */
  lemma ForcePlaces(cfg: Config, count: Counter, sec: Section, st: State, froms: seq<seq<Block>>, b: Block, piece: Piece)
    requires Inside(cfg, count, sec, st, froms, [], b.page) && PartFrom(sec, piece.text, b) && MayStart(cfg, count, sec, st, piece.text, b)
    requires !Fits(cfg, count, Joined(st.heading, st.carry, [piece.text])) || Lead(sec, st.trail.emissions) == NoPage
    ensures Inside(cfg, count, sec, AppendPart(st.(page := b.page), piece.text, false, piece.hard), froms, [b], NoPage)
  {
    TakenSnoc(sec, [], [], piece.text, b);
    FirstPageSnoc([], b);
    assert [] + [b] == [b] && [] + [piece.text] == [piece.text] == st.parts + [piece.text];
  }

  lemma AddPiecePlaces(cfg: Config, count: Counter, sec: Section, st: State, froms: seq<seq<Block>>, pending: seq<Block>, b: Block, piece: Piece)
    returns (froms1: seq<seq<Block>>, pending1: seq<Block>)
    requires Inside(cfg, count, sec, st, froms, pending, b.page) && PartFrom(sec, piece.text, b) && MayStart(cfg, count, sec, st, piece.text, b)
    ensures Inside(cfg, count, sec, AddPiece(cfg, count, st, b.page, piece), froms1, pending1, NoPage)
    ensures AddPiece(cfg, count, st, b.page, piece).parts != []
  {
    var st1 := TakePage(st, b.page);
    TakePlaces(cfg, count, sec, st, froms, pending, b);
    if Fits(cfg, count, Joined(st1.heading, st1.carry, st1.parts + [piece.text])) {
      AppendPlaces(cfg, count, sec, st1, froms, pending, b, piece.text, piece.hard);
      return froms, pending + [b];
    }
    froms1 := FlushPlaces(cfg, count, sec, st1, froms, pending, b.page);
    FlushOverflows(cfg, count, sec, st1, piece.text, piece.text, b);
    assert st1.parts == [] ==> st1.parts + [piece.text] == [piece.text];
    ForcePlaces(cfg, count, sec, Flush(cfg, count, st1), froms1, b, piece);
    pending1 := [b];
  }

  lemma {:induction false} AddPiecesPlaces(cfg: Config, count: Counter, sec: Section, st: State, froms: seq<seq<Block>>, pending: seq<Block>, b: Block, pieces: seq<Piece>)
    returns (froms1: seq<seq<Block>>, pending1: seq<Block>)
    requires Inside(cfg, count, sec, st, froms, pending, b.page) && pieces != [] && MayStart(cfg, count, sec, st, pieces[0].text, b)
    requires forall i :: 0 <= i < |pieces| ==> PartFrom(sec, pieces[i].text, b)
    ensures Inside(cfg, count, sec, AddPieces(cfg, count, st, b.page, pieces), froms1, pending1, NoPage)
    ensures AddPieces(cfg, count, st, b.page, pieces).parts != []
    decreases |pieces|
  {
    froms1, pending1 := AddPiecePlaces(cfg, count, sec, st, froms, pending, b, pieces[0]);
    var st1 := AddPiece(cfg, count, st, b.page, pieces[0]);
    if |pieces| > 1 {
      froms1, pending1 := AddPiecesPlaces(cfg, count, sec, st1, froms1, pending1, b, pieces[1..]);
    } else {
      assert AddPieces(cfg, count, st1, b.page, pieces[1..]) == st1;
    }
  }

  lemma StretchNext(whole: string, first: string, rest: string, p: string, m: string, q: string)
    requires whole == first + rest && rest == p + m + q
    ensures whole == (first + p) + m + q
  {}

  lemma StretchFirst(whole: string, first: string, rest: string)
    requires whole == first + rest
    ensures whole == "" + first + rest
  {}

  lemma {:induction false} PieceInside(pieces: seq<Piece>, i: nat) returns (p: string, q: string)
    requires i < |pieces|
    ensures NonSpace(ChunkerTheorems.PieceText(pieces)) == p + NonSpace(pieces[i].text) + q
    decreases i
  {
    var whole := NonSpace(ChunkerTheorems.PieceText(pieces));
    var first, rest := NonSpace(pieces[0].text), NonSpace(ChunkerTheorems.PieceText(pieces[1..]));
    NonSpaceConcat(pieces[0].text, ChunkerTheorems.PieceText(pieces[1..]));
    assert whole == first + rest;
    if i == 0 {
      StretchFirst(whole, first, rest);
      return "", rest;
    }
    p, q := PieceInside(pieces[1..], i - 1);
    StretchNext(whole, first, rest, p, NonSpace(pieces[i].text), q);
    return first + p, q;
  }

  lemma PiecesOf(cfg: Config, count: Counter, sec: Section, st: State, b: Block)
    requires !Blank(BlockToMarkdown(b)) && b in sec.body && !Whole(b)
    ensures var pieces := SplitToFit(cfg, count, st, BlockToMarkdown(b));
            pieces != [] && forall i :: 0 <= i < |pieces| ==> PartFrom(sec, pieces[i].text, b)
  {
    var text := BlockToMarkdown(b);
    var pieces := SplitToFit(cfg, count, st, text);
    ChunkerTheorems.SplitToFitText(cfg, count, st, text);
    NonSpaceBlank(text);
    forall i | 0 <= i < |pieces| ensures PartFrom(sec, pieces[i].text, b) {
      var p, q := PieceInside(pieces, i);
    }
  }

  lemma AddTextPlaces(cfg: Config, count: Counter, sec: Section, st: State, froms: seq<seq<Block>>, pending: seq<Block>, b: Block)
    returns (froms1: seq<seq<Block>>, pending1: seq<Block>)
    requires Inside(cfg, count, sec, st, froms, pending, NoPage) && Between(sec, st) && b in sec.body && !Whole(b)
    ensures Inside(cfg, count, sec, AddText(cfg, count, st, b), froms1, pending1, NoPage) && Between(sec, AddText(cfg, count, st, b))
  {
    var text := BlockToMarkdown(b);
    if Blank(text) {
      return froms, pending;
    }
    var st1 := TakePage(st, b.page);
    TakePlaces(cfg, count, sec, st, froms, pending, b);
    if Fits(cfg, count, Joined(st1.heading, st1.carry, st1.parts + [text])) {
      assert NonSpace(text) == "" + NonSpace(text) + "";
      AppendPlaces(cfg, count, sec, st1, froms, pending, b, text, false);
      return froms, pending + [b];
    }
    froms1 := FlushPlaces(cfg, count, sec, st1, froms, pending, b.page);
    var st2 := Flush(cfg, count, st1);
    var pieces := SplitToFit(cfg, count, st2, text);
    PiecesOf(cfg, count, sec, st2, b);
    FlushOverflows(cfg, count, sec, st1, text, pieces[0].text, b);
    froms1, pending1 := AddPiecesPlaces(cfg, count, sec, st2, froms1, [], b, pieces);
  }

  lemma AtomicLead(sec: Section, emissions: seq<Emission>, e: Emission)
    requires |sec.chunks| <= |emissions| && e.atomic
    ensures Lead(sec, emissions + [e]) == Lead(sec, emissions) && !Follows(sec, emissions + [e])
  {
    assert forall k :: |sec.chunks| <= k < |emissions| ==> (emissions + [e])[k] == emissions[k];
  }

  lemma AddAtomicPlaces(cfg: Config, count: Counter, sec: Section, st: State, froms: seq<seq<Block>>, pending: seq<Block>, b: Block)
    returns (froms1: seq<seq<Block>>)
    requires Inside(cfg, count, sec, st, froms, pending, NoPage) && b in sec.body && Whole(b)
    ensures Inside(cfg, count, sec, AddAtomic(cfg, count, st, b), froms1, [], NoPage) && Between(sec, AddAtomic(cfg, count, st, b))
  {
    froms1 := FlushPlaces(cfg, count, sec, st, froms, pending, NoPage);
    var flushed := Flush(cfg, count, st);
    var text := BlockToMarkdown(b);
    var body := Strip(text);
    StripEmpty(text);
    if body != "" {
      var e := Emission(true, "", "", [text], false, false);
      var c := TextChunk(|flushed.chunks|, body, count(body), b.page, flushed.headingPath);
      OneMorePlaced(cfg, count, sec, flushed.chunks, flushed.trail.emissions, froms1, c, e, [b]);
      AtomicLead(sec, flushed.trail.emissions, e);
      froms1 := froms1 + [[b]];
    }
  }

  lemma {:induction false} AddBlocksPlaces(cfg: Config, count: Counter, sec: Section, st: State, froms: seq<seq<Block>>, pending: seq<Block>, blocks: seq<Block>)
    returns (froms1: seq<seq<Block>>, pending1: seq<Block>)
    requires Inside(cfg, count, sec, st, froms, pending, NoPage) && Between(sec, st)
    requires NoHeading(blocks) && forall b :: b in blocks ==> b in sec.body
    ensures Inside(cfg, count, sec, AddBlocks(cfg, count, st, blocks), froms1, pending1, NoPage)
    decreases |blocks|
  {
    froms1, pending1 := froms, pending;
    if blocks != [] {
      var b := blocks[0];
      assert b in blocks;
      if Whole(b) {
        froms1 := AddAtomicPlaces(cfg, count, sec, st, froms, pending, b);
        pending1 := [];
      } else {
        froms1, pending1 := AddTextPlaces(cfg, count, sec, st, froms, pending, b);
      }
      froms1, pending1 := AddBlocksPlaces(cfg, count, sec, AddBlock(cfg, count, st, b), froms1, pending1, blocks[1..]);
    }
  }

  lemma {:induction false} AddBlocksConcat(cfg: Config, count: Counter, st: State, a: seq<Block>, b: seq<Block>)
    ensures AddBlocks(cfg, count, st, a + b) == AddBlocks(cfg, count, AddBlocks(cfg, count, st, a), b)
    decreases |a|
  {
    if a == [] {
      assert a + b == b;
    } else {
      assert (a + b)[1..] == a[1..] + b;
      AddBlocksConcat(cfg, count, AddBlock(cfg, count, st, a[0]), a[1..], b);
    }
  }

  /** The builder at the start of a section. */
  lemma Enters(cfg: Config, count: Counter, sec: Section, st: State)
    requires st.chunks == sec.chunks && st.trail.emissions == sec.emissions && |sec.chunks| == |sec.emissions|
    requires st.heading == sec.heading && st.headingPath == sec.path && st.parts == [] && st.carry == "" && st.page == sec.page
    ensures Inside(cfg, count, sec, st, [], [], NoPage) && Between(sec, st)
  {}

  /** What the document adds in a section, from the builder that enters it. */
  lemma SectionFrom(cfg: Config, count: Counter, sec: Section, st: State) returns (froms: seq<seq<Block>>)
    requires Inside(cfg, count, sec, st, [], [], NoPage) && Between(sec, st) && NoHeading(sec.body)
    ensures var out := Flush(cfg, count, AddBlocks(cfg, count, st, sec.body));
            AllPlaced(cfg, count, sec, out.chunks, out.trail.emissions, froms)
  {
    var pending;
    froms, pending := AddBlocksPlaces(cfg, count, sec, st, [], [], sec.body);
    froms := FlushPlaces(cfg, count, sec, AddBlocks(cfg, count, st, sec.body), froms, pending, NoPage);
  }

  /** Chunks in front of the first heading carry none. */
  lemma HeadlessChunks(cfg: Config, count: Counter, body: seq<Block>) returns (froms: seq<seq<Block>>)
    requires NoHeading(body)
    ensures var out := ChunkDocument(cfg, count, body);
            AllPlaced(cfg, count, Section("", [], NoPage, body, [], []), out.chunks, out.trail.emissions, froms)
  {
    var sec := Section("", [], NoPage, body, [], []);
    Enters(cfg, count, sec, INITIAL);
    froms := SectionFrom(cfg, count, sec, INITIAL);
  }

  lemma {:induction false} HashesCount(n: nat)
    ensures Hashes(n) == seq(n, _ => '#')
  {
    if n > 0 {
      HashesCount(n - 1);
    }
  }

  /** Every chunk of a section reads that section's heading in front of its text, bears the heading's path
      with the heading itself, the page of the heading or of the blocks its text is from, and the overlap of
      the text chunk right before it; what was put out before the heading stays as it was. */
  lemma SectionChunks(cfg: Config, count: Counter, before: seq<Block>, h: Block, body: seq<Block>) returns (froms: seq<seq<Block>>)
    requires h.kind.Heading? && NoHeading(body)
    ensures var first, out := ChunkDocument(cfg, count, before), ChunkDocument(cfg, count, before + [h] + body);
            var depth := if |h.headingPath| >= 5 then 6 else |h.headingPath| + 1;
            AllPlaced(cfg, count, Section(seq(depth, _ => '#') + " " + h.text, h.headingPath + [h.text], h.page, body, first.chunks, first.trail.emissions),
                      out.chunks, out.trail.emissions, froms)
  {
    var st := AddBlocks(cfg, count, INITIAL, before);
    var entered := StartSection(cfg, count, st, h);
    HashesCount(if |h.headingPath| >= 5 then 6 else |h.headingPath| + 1);
    AddBlocksConcat(cfg, count, INITIAL, before + [h], body);
    AddBlocksConcat(cfg, count, INITIAL, before, [h]);
    assert [h][1..] == [] && AddBlocks(cfg, count, st, [h]) == AddBlocks(cfg, count, entered, []);
    var first := ChunkDocument(cfg, count, before);
    var sec := Section(BlockToMarkdown(h), h.headingPath + [h.text], h.page, body, first.chunks, first.trail.emissions);
    ChunkerBounds.AddBlocksKeep(cfg, count, INITIAL, before);
    ChunkerBounds.FlushKeeps(cfg, count, st);
    ChunkerTheorems.FlushCollects(cfg, count, st);
    Enters(cfg, count, sec, entered);
    froms := SectionFrom(cfg, count, sec, entered);
  }
}
