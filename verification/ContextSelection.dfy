/** What happens to the candidates before and after fusion: the relative threshold of one route and the
    selection for the prompt (backend/rag/pipeline.py, `gate_by_score`, `select_context`). */
module ContextSelection {
  import opened RankFusion
  import Tokens

  function Floored(hits: seq<Hit>, floor: real): seq<Hit> {
    if hits == [] then [] else (if hits[0].score >= floor then [hits[0]] else []) + Floored(hits[1..], floor)
  }

  function GateByScore(hits: seq<Hit>, ratio: real): seq<Hit> {
    if hits == [] || ratio <= 0.0 || hits[0].score <= 0.0 then hits
    else [hits[0]] + Floored(hits[1..], hits[0].score * ratio)
  }

  ghost predicate Descending(hits: seq<Hit>) {
    forall i, j :: 0 <= i < j < |hits| ==> hits[i].score >= hits[j].score
  }

  lemma {:induction false} FlooredIsPrefix(hits: seq<Hit>, floor: real) returns (n: nat)
    requires Descending(hits)
    ensures n <= |hits| && Floored(hits, floor) == hits[..n]
    ensures forall i :: 0 <= i < |hits| ==> (i < n <==> hits[i].score >= floor)
  {
    if hits == [] {
      n := 0;
    } else if hits[0].score >= floor {
      n := FlooredIsPrefix(hits[1..], floor);
      n := n + 1;
      assert hits[..n] == [hits[0]] + hits[1..][..n - 1];
      assert forall i :: 0 < i < |hits| ==> hits[i] == hits[1..][i - 1];
    } else {
      n := FlooredIsPrefix(hits[1..], floor);
      assert |hits| > 1 ==> hits[1..][0].score < floor;
      assert forall i :: 0 < i < |hits| ==> hits[i] == hits[1..][i - 1];
    }
  }

  /** On a route that comes best first the threshold only cuts the tail, never the first candidate, so the
      ranks that fusion adds up are those of the uncut route. */
  lemma GateKeepsRanks(hits: seq<Hit>, ratio: real, id: Id) returns (n: nat)
    requires Descending(hits)
    ensures n <= |hits| && GateByScore(hits, ratio) == hits[..n] && (hits != [] ==> n > 0)
    ensures hits != [] && ratio > 0.0 && hits[0].score > 0.0 ==>
              forall i :: 0 < i < |hits| ==> (i < n <==> hits[i].score >= hits[0].score * ratio)
    ensures var route := Chunks(hits);
            Rank(Chunks(GateByScore(hits, ratio)), id) == if Rank(route, id) <= n then Rank(route, id) else 0
  {
    if hits == [] || ratio <= 0.0 || hits[0].score <= 0.0 {
      n := |hits|;
      assert hits[..n] == hits;
    } else {
      n := FlooredIsPrefix(hits[1..], hits[0].score * ratio);
      n := n + 1;
      assert hits[..n] == [hits[0]] + hits[1..][..n - 1];
      assert forall i :: 0 < i < |hits| ==> hits[i] == hits[1..][i - 1];
    }
    assert Chunks(hits[..n]) == Chunks(hits)[..n];
    RankOfPrefix(Chunks(hits), n, id);
  }

  function Chunks(hits: seq<Hit>): Route {
    seq(|hits|, i requires 0 <= i < |hits| => hits[i].chunk)
  }

  lemma {:induction false} RankOfPrefix(route: Route, n: nat, id: Id)
    requires n <= |route|
    ensures Rank(route[..n], id) == if Rank(route, id) <= n then Rank(route, id) else 0
  {
    if n == |route| {
      assert route[..n] == route;
    } else {
      var init := route[..|route| - 1];
      RankOfPrefix(init, n, id);
      assert init[..n] == route[..n];
    }
  }

  function Cost(hits: seq<Hit>): nat {
    if hits == [] then 0 else Cost(hits[..|hits| - 1]) + Tokens.EstimateTokens(hits[|hits| - 1].chunk.content)
  }

  /** The selected hits are a prefix: at least one when there is any, within the budget unless it is that
      one, and as long as budget and limit allow. */
  method SelectContext(hits: seq<Hit>, maxChunks: nat, budget: nat) returns (selected: seq<Hit>)
    ensures selected <= hits && |selected| <= maxChunks
    ensures |selected| > 1 ==> Cost(selected) <= budget
    ensures hits != [] && maxChunks > 0 ==> selected != []
    ensures |selected| < |hits| && |selected| < maxChunks ==> Cost(hits[..|selected| + 1]) > budget
  {
    selected := [];
    var used := 0;
    var i := 0;
    while i < |hits| && i < maxChunks
      invariant 0 <= i <= |hits| && i <= maxChunks
      invariant selected == hits[..i] && used == Cost(selected)
      invariant i > 1 ==> used <= budget
    {
      var cost := Tokens.EstimateTokens(hits[i].chunk.content);
      assert hits[..i + 1][..i] == hits[..i];
      if selected != [] && used + cost > budget {
        return;
      }
      selected := selected + [hits[i]];
      used := used + cost;
      i := i + 1;
      assert selected == hits[..i];
    }
  }
}
