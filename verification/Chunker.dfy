/** The recursive chunker of backend/etl/chunk.py as functions on an explicit state. `ChunkBuilder`
    holds the class that updates this state in place. */
module Chunker {
  import opened Text
  import opened Tokens
  import opened Sentences

  const SEPARATOR := "\n\n"
  const MAX_HEADING_DEPTH := 6

  datatype BlockType = Heading | Table | Code | Caption | Paragraph

  datatype Page = NoPage | OnPage(number: int)

  datatype Block = Block(kind: BlockType, text: string, headingPath: seq<string>, page: Page)

  datatype Config = Config(target: int, overlap: int)

  datatype TextChunk = TextChunk(seqNo: nat, text: string, tokenCount: nat, page: Page, headingPath: seq<string>)

  function Hashes(n: nat): string {
    if n == 0 then "" else "#" + Hashes(n - 1)
  }

  function BlockToMarkdown(b: Block): string {
    match b.kind
    case Heading =>
      var depth := if |b.headingPath| + 1 < MAX_HEADING_DEPTH then |b.headingPath| + 1 else MAX_HEADING_DEPTH;
      Hashes(depth) + " " + b.text
    case Code => "```\n" + b.text + "\n```"
    case Caption => "*" + b.text + "*"
    case _ => b.text
  }

  predicate IsAtomic(b: Block) {
    b.kind.Table? || b.kind.Code?
  }

  /** A piece of text on its way into a chunk; `hard` when `_hard_split` cut it. */
  datatype Piece = Piece(text: string, hard: bool)

  function Texts(pieces: seq<Piece>): seq<string> {
    seq(|pieces|, i requires 0 <= i < |pieces| => pieces[i].text)
  }

  lemma TextsConcat(a: seq<Piece>, b: seq<Piece>)
    ensures Texts(a + b) == Texts(a) + Texts(b)
  {}

  /** What went into one emitted chunk: the heading and carry in front, then the new text. `fitted`
      says that the last part was accepted by `_fits`. */
  datatype Emission = Emission(atomic: bool, heading: string, carry: string, parts: seq<string>, fitted: bool, hard: bool)

  /** Bookkeeping that the builder does not need but its properties speak of. */
  datatype Trail = Trail(emissions: seq<Emission>, fitted: bool, hard: bool)

  // An absent heading and an absent carry are both the empty string: the code tests truth only.
  datatype State = State(
    chunks: seq<TextChunk>, heading: string, headingPath: seq<string>, parts: seq<string>, page: Page, carry: string,
    trail: Trail)

  const INITIAL := State([], "", [], [], NoPage, "", Trail([], false, false))

  function Optional(s: string): seq<string> {
    if s == "" then [] else [s]
  }

  function Joined(heading: string, carry: string, parts: seq<string>): string {
    Join(SEPARATOR, Optional(heading) + Optional(carry) + parts)
  }

  predicate Fits(cfg: Config, count: Counter, text: string) {
    count(text) <= cfg.target
  }

  /** The loop of `_tail`: sentences from the back while they stay within the overlap. */
  function TailFrom(count: Counter, budget: int, sentences: seq<string>, picked: string): string
    decreases |sentences|
  {
    if sentences == [] then picked
    else
      var candidate := sentences[|sentences| - 1] + picked;
      if count(candidate) > budget then picked
      else TailFrom(count, budget, sentences[..|sentences| - 1], candidate)
  }

  function Tail(cfg: Config, count: Counter, text: string): string {
    if cfg.overlap <= 0 then "" else Strip(TailFrom(count, cfg.overlap, SentencesOf(text), ""))
  }

  /** `_emit`, together with a note of what the text was made of. */
  function Emit(count: Counter, st: State, text: string, page: Page, e: Emission): State {
    var body := Strip(text);
    if body == "" then st
    else
      st.(chunks := st.chunks + [TextChunk(|st.chunks|, body, count(body), page, st.headingPath)],
          trail := st.trail.(emissions := st.trail.emissions + [e]))
  }

  function PendingEmission(st: State): Emission {
    Emission(false, st.heading, st.carry, st.parts, st.trail.fitted, st.trail.hard)
  }

  function Flush(cfg: Config, count: Counter, st: State): State {
    if st.parts == [] then st
    else
      var body := Joined(st.heading, st.carry, st.parts);
      var st1 := st.(carry := Tail(cfg, count, Join(SEPARATOR, st.parts)), parts := []);
      Emit(count, st1, body, st.page, PendingEmission(st)).(page := NoPage)
  }

  function StartSection(cfg: Config, count: Counter, st: State, b: Block): State {
    Flush(cfg, count, st).(carry := "", heading := BlockToMarkdown(b), headingPath := b.headingPath + [b.text], page := b.page)
  }

  function AddAtomic(cfg: Config, count: Counter, st: State, b: Block): State {
    var text := BlockToMarkdown(b);
    Emit(count, Flush(cfg, count, st).(carry := ""), text, b.page, Emission(true, "", "", [text], false, false))
  }

  function AppendPart(st: State, text: string, fitted: bool, hard: bool): State {
    st.(parts := st.parts + [text], trail := st.trail.(fitted := fitted, hard := hard))
  }

  function BudgetForBody(cfg: Config, count: Counter, st: State): (budget: nat)
    ensures budget > 0
  {
    var overhead := if st.heading != "" || st.carry != "" then count(Joined(st.heading, st.carry, [])) else 0;
    if cfg.target - overhead > 1 then cfg.target - overhead else 1
  }

  function Soft(buffer: string): seq<Piece> {
    if buffer == "" then [] else [Piece(buffer, false)]
  }

  function HardPieces(texts: seq<string>): seq<Piece> {
    seq(|texts|, i requires 0 <= i < |texts| => Piece(texts[i], true))
  }

  datatype Splitting = Splitting(pieces: seq<Piece>, buffer: string)

  /** One round of the loop of `_split_to_fit`: whole sentences while they fit, hard slices for a
      sentence that is too long by itself. */
  function SplitStep(count: Counter, budget: nat, s: string, sp: Splitting): Splitting {
    if count(sp.buffer + s) <= budget then sp.(buffer := sp.buffer + s)
    else
      var pieces := sp.pieces + Soft(sp.buffer);
      if count(s) <= budget then Splitting(pieces, s)
      else Splitting(pieces + HardPieces(HardSplit(s, budget, count)), "")
  }

  function SplitLoop(count: Counter, budget: nat, sentences: seq<string>, sp: Splitting): Splitting
    decreases |sentences|
  {
    if sentences == [] then sp else SplitLoop(count, budget, sentences[1..], SplitStep(count, budget, sentences[0], sp))
  }

  function KeepText(pieces: seq<Piece>): (kept: seq<Piece>)
    ensures forall i :: 0 <= i < |kept| ==> !Blank(kept[i].text)
  {
    if pieces == [] then []
    else if Blank(pieces[0].text) then KeepText(pieces[1..])
    else
      NonSpaceBlank(pieces[0].text);
      NonSpaceRStrip(pieces[0].text);
      NonSpaceBlank(RStrip(pieces[0].text));
      [pieces[0].(text := RStrip(pieces[0].text))] + KeepText(pieces[1..])
  }

  function SplitToFit(cfg: Config, count: Counter, st: State, text: string): seq<Piece> {
    var sp := SplitLoop(count, BudgetForBody(cfg, count, st), SentencesOf(text), Splitting([], ""));
    KeepText(sp.pieces + Soft(sp.buffer))
  }

  function TakePage(st: State, page: Page): State {
    if st.page == NoPage then st.(page := page) else st
  }

  /** One round of the loop over the pieces of a block that did not fit. */
  function AddPiece(cfg: Config, count: Counter, st: State, page: Page, piece: Piece): State {
    var st1 := TakePage(st, page);
    if Fits(cfg, count, Joined(st1.heading, st1.carry, st1.parts + [piece.text])) then
      AppendPart(st1, piece.text, true, piece.hard)
    else
      AppendPart(Flush(cfg, count, st1).(page := page), piece.text, false, piece.hard)
  }

  function AddPieces(cfg: Config, count: Counter, st: State, page: Page, pieces: seq<Piece>): State
    decreases |pieces|
  {
    if pieces == [] then st
    else AddPieces(cfg, count, AddPiece(cfg, count, st, page, pieces[0]), page, pieces[1..])
  }

  function AddRendered(cfg: Config, count: Counter, st: State, page: Page, text: string): State {
    if Fits(cfg, count, Joined(st.heading, st.carry, st.parts + [text])) then AppendPart(st, text, true, false)
    else
      var st1 := Flush(cfg, count, st);
      AddPieces(cfg, count, st1, page, SplitToFit(cfg, count, st1, text))
  }

  function AddText(cfg: Config, count: Counter, st: State, b: Block): State {
    var text := BlockToMarkdown(b);
    if Blank(text) then st else AddRendered(cfg, count, TakePage(st, b.page), b.page, text)
  }

  function AddBlock(cfg: Config, count: Counter, st: State, b: Block): State {
    if b.kind.Heading? then StartSection(cfg, count, st, b)
    else if IsAtomic(b) then AddAtomic(cfg, count, st, b)
    else AddText(cfg, count, st, b)
  }

  function AddBlocks(cfg: Config, count: Counter, st: State, blocks: seq<Block>): State
    decreases |blocks|
  {
    if blocks == [] then st else AddBlocks(cfg, count, AddBlock(cfg, count, st, blocks[0]), blocks[1..])
  }

  function ChunkDocument(cfg: Config, count: Counter, blocks: seq<Block>): State {
    Flush(cfg, count, AddBlocks(cfg, count, INITIAL, blocks))
  }
}
