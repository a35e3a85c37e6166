/** `_Builder` of backend/etl/chunk.py: the chunker as an object that updates its fields. Every method
    is proved against the function of the same name in `Chunker`. */
module ChunkBuilder {
  import opened Text
  import opened Tokens
  import opened Sentences
  import C = Chunker

  type Config = C.Config
  type Page = C.Page
  type Block = C.Block

  class Builder {
    const config: Config
    const count: Counter
    var chunks: seq<C.TextChunk>
    var headingMarkdown: string
    var headingPath: seq<string>
    var parts: seq<string>
    var page: Page
    var carry: string
    ghost var trail: C.Trail

    ghost function View(): C.State
      reads this
    {
      C.State(chunks, headingMarkdown, headingPath, parts, page, carry, trail)
    }

    constructor (config: Config, count: Counter)
      ensures View() == C.INITIAL && this.config == config && this.count == count
    {
      this.config, this.count := config, count;
      chunks, headingMarkdown, headingPath, parts, page, carry := [], "", [], [], C.NoPage, "";
      trail := C.Trail([], false, false);
    }

    method StartSection(block: Block)
      modifies this
      ensures View() == C.StartSection(config, count, old(View()), block)
    {
      Flush();
      carry := "";
      headingMarkdown := C.BlockToMarkdown(block);
      headingPath := block.headingPath + [block.text];
      page := block.page;
    }

    method AddAtomic(block: Block)
      modifies this
      ensures View() == C.AddAtomic(config, count, old(View()), block)
    {
      Flush();
      carry := "";
      Emit(C.BlockToMarkdown(block), block.page, C.Emission(true, "", "", [C.BlockToMarkdown(block)], false, false));
    }

    method AddText(block: Block)
      modifies this
      ensures View() == C.AddText(config, count, old(View()), block)
    {
      var text := C.BlockToMarkdown(block);
      StripEmpty(text);
      if Strip(text) == "" {
        return;
      }
      if page == C.NoPage {
        page := block.page;
      }
      if Fits(Joined(parts + [text])) {
        parts := parts + [text];
        trail := trail.(fitted := true, hard := false);
        return;
      }
      Flush();
      AddPieces(block, text);
    }

    /** The loop over the pieces of a text that did not fit. */
    method AddPieces(block: Block, text: string)
      modifies this
      ensures View() == C.AddPieces(config, count, old(View()), block.page, C.SplitToFit(config, count, old(View()), text))
    {
      ghost var all := C.SplitToFit(config, count, View(), text);
      var pieces := SplitToFit(text);
      var i := 0;
      while i < |pieces|
        invariant 0 <= i <= |pieces| && pieces == C.Texts(all)
        invariant C.AddPieces(config, count, View(), block.page, all[i..]) ==
                  C.AddPieces(config, count, old(View()), block.page, all)
      {
        assert all[i..][0] == all[i] && all[i..][1..] == all[i + 1..];
        AddPiece(block.page, pieces[i], all[i].hard);
        i := i + 1;
      }
    }

    method AddPiece(blockPage: Page, piece: string, ghost hard: bool)
      modifies this
      ensures View() == C.AddPiece(config, count, old(View()), blockPage, C.Piece(piece, hard))
    {
      if page == C.NoPage {
        page := blockPage;
      }
      if Fits(Joined(parts + [piece])) {
        parts := parts + [piece];
        trail := trail.(fitted := true, hard := hard);
      } else {
        Flush();
        page := blockPage;
        parts := parts + [piece];
        trail := trail.(fitted := false, hard := hard);
      }
    }

    method Finish() returns (result: seq<C.TextChunk>)
      modifies this
      ensures View() == C.Flush(config, count, old(View())) && result == View().chunks
    {
      Flush();
      result := chunks;
    }

    function Joined(ps: seq<string>): string
      reads this
    {
      C.Joined(headingMarkdown, carry, ps)
    }

    predicate Fits(text: string)
      reads this
    {
      count(text) <= config.target
    }

    method Flush()
      modifies this
      ensures View() == C.Flush(config, count, old(View()))
    {
      if parts == [] {
        return;
      }
      var body := Joined(parts);
      ghost var e := C.PendingEmission(View());
      carry := Tail(Join(C.SEPARATOR, parts));
      parts := [];
      Emit(body, page, e);
      page := C.NoPage;
    }

    method Emit(text: string, onPage: Page, ghost e: C.Emission)
      modifies this`chunks, this`trail
      ensures View() == C.Emit(count, old(View()), text, onPage, e)
    {
      var body := Strip(text);
      if body == "" {
        return;
      }
      chunks := chunks + [C.TextChunk(|chunks|, body, count(body), onPage, headingPath)];
      trail := trail.(emissions := trail.emissions + [e]);
    }

    /** The sentences at the end of `text` that fit the overlap. */
    method Tail(text: string) returns (tail: string)
      ensures tail == C.Tail(config, count, text)
    {
      var budget := config.overlap;
      if budget <= 0 {
        return "";
      }
      var sentences := SplitSentences(text);
      var picked: seq<string> := [];
      var i := |sentences|;
      assert sentences[..i] == sentences;
      while i > 0
        invariant 0 <= i <= |sentences|
        invariant C.TailFrom(count, budget, sentences[..i], Flatten(picked)) == C.TailFrom(count, budget, sentences, "")
      {
        var candidate := [sentences[i - 1]] + picked;
        assert candidate[1..] == picked;
        assert sentences[..i][..i - 1] == sentences[..i - 1];
        if count(Flatten(candidate)) > budget {
          break;
        }
        picked := candidate;
        i := i - 1;
      }
      tail := Strip(Flatten(picked));
    }

    /** Sentence by sentence into pieces of the body budget, hard slices where a sentence is too long. */
    method SplitToFit(text: string) returns (pieces: seq<string>)
      ensures pieces == C.Texts(C.SplitToFit(config, count, View(), text))
    {
      var budget := BudgetForBody();
      var sentences := SplitSentences(text);
      var raw: seq<string> := [];
      var buffer := "";
      ghost var marked: seq<C.Piece> := [];
      var i := 0;
      while i < |sentences|
        invariant 0 <= i <= |sentences| && raw == C.Texts(marked)
        invariant C.SplitLoop(count, budget, sentences[i..], C.Splitting(marked, buffer)) ==
                  C.SplitLoop(count, budget, sentences, C.Splitting([], ""))
      {
        assert sentences[i..][1..] == sentences[i + 1..];
        ghost var next := C.SplitStep(count, budget, sentences[i], C.Splitting(marked, buffer));
        raw, buffer := SplitSentence(budget, sentences[i], raw, buffer, marked);
        marked := next.pieces;
        i := i + 1;
      }
      if buffer != "" {
        raw := raw + [buffer];
      }
      C.TextsConcat(marked, C.Soft(buffer));
      marked := marked + C.Soft(buffer);
      pieces := KeepNonBlank(raw, marked);
    }

    /** The body of the loop over the sentences. */
    method SplitSentence(budget: nat, sentence: string, raw: seq<string>, buffer: string, ghost marked: seq<C.Piece>)
      returns (raw1: seq<string>, buffer1: string)
      requires raw == C.Texts(marked)
      ensures var next := C.SplitStep(count, budget, sentence, C.Splitting(marked, buffer));
              raw1 == C.Texts(next.pieces) && buffer1 == next.buffer
    {
      raw1, buffer1 := raw, buffer;
      if count(buffer + sentence) <= budget {
        buffer1 := buffer + sentence;
      } else {
        C.TextsConcat(marked, C.Soft(buffer));
        if buffer != "" {
          raw1 := raw1 + [buffer];
          buffer1 := "";
        }
        if count(sentence) <= budget {
          buffer1 := sentence;
        } else {
          C.TextsConcat(marked + C.Soft(buffer), C.HardPieces(HardSplit(sentence, budget, count)));
          raw1 := raw1 + HardSplit(sentence, budget, count);
        }
      }
    }

    /** What the target leaves for the body once heading and carry are counted. */
    function BudgetForBody(): (budget: nat)
      reads this
      ensures budget == C.BudgetForBody(config, count, View())
    {
      var overhead := if headingMarkdown != "" || carry != "" then count(Joined([])) else 0;
      if config.target - overhead > 1 then config.target - overhead else 1
    }

    /** `[piece.rstrip() for piece in pieces if piece.strip()]` */
    method KeepNonBlank(raw: seq<string>, ghost marked: seq<C.Piece>) returns (pieces: seq<string>)
      requires raw == C.Texts(marked)
      ensures pieces == C.Texts(C.KeepText(marked))
    {
      pieces := [];
      var i := 0;
      while i < |raw|
        invariant 0 <= i <= |raw|
        invariant pieces + C.Texts(C.KeepText(marked[i..])) == C.Texts(C.KeepText(marked))
      {
        StripEmpty(raw[i]);
        assert marked[i..][1..] == marked[i + 1..];
        if Strip(raw[i]) != "" {
          ghost var kept := C.KeepText(marked[i..]);
          assert C.Texts(kept) == [RStrip(raw[i])] + C.Texts(C.KeepText(marked[i + 1..]));
          pieces := pieces + [RStrip(raw[i])];
        }
        i := i + 1;
      }
    }
  }

  /** The chunks of a document, block by block. */
  method ChunkDocument(blocks: seq<Block>, config: Config, count: Counter) returns (chunks: seq<C.TextChunk>)
    ensures chunks == C.ChunkDocument(config, count, blocks).chunks
  {
    var builder := new Builder(config, count);
    var i := 0;
    while i < |blocks|
      invariant 0 <= i <= |blocks| && builder.config == config && builder.count == count && fresh(builder)
      invariant C.AddBlocks(config, count, builder.View(), blocks[i..]) == C.AddBlocks(config, count, C.INITIAL, blocks)
    {
      var block := blocks[i];
      assert blocks[i..][1..] == blocks[i + 1..];
      if block.kind.Heading? {
        builder.StartSection(block);
      } else if C.IsAtomic(block) {
        builder.AddAtomic(block);
      } else {
        builder.AddText(block);
      }
      i := i + 1;
    }
    chunks := builder.Finish();
  }
}
