/** Merging the candidate lists of several retrieval routes by reciprocal rank, and choosing what goes into
    the prompt (backend/rag/pipeline.py). Scores are exact rationals. */
module RankFusion {
  import opened Ranking

  /** Chunk ids in the order of their text. */
  type Id = nat

  datatype Chunk = Chunk(id: Id, content: string)

  datatype Hit = Hit(chunk: Chunk, score: real)

  type Route = seq<Chunk>

  // ---- What the merged list is ----

  /** The rank of an id in a route, counted from 1; 0 when it is not there. Repeats do not count. */
  function Rank(route: Route, id: Id): (r: nat)
    ensures r <= |route|
  {
    if route == [] then 0
    else
      var n := |route|;
      var before := Rank(route[..n - 1], id);
      if before != 0 then before else if route[n - 1].id == id then n else 0
  }

  function Share(route: Route, k: nat, id: Id): real
    requires k > 0
  {
    var r := Rank(route, id);
    if r == 0 then 0.0 else 1.0 / (k + r) as real
  }

  /** The fused score: the sum over the routes of 1 / (k + rank). */
  function Score(routes: seq<Route>, k: nat, id: Id): real
    requires k > 0
  {
    if routes == [] then 0.0
    else Score(routes[..|routes| - 1], k, id) + Share(routes[|routes| - 1], k, id)
  }

  datatype Place = Nowhere | At(rank: nat, route: nat)

  predicate PlaceBefore(a: Place, b: Place) {
    if a.Nowhere? then false
    else if b.Nowhere? then true
    else a.rank < b.rank || (a.rank == b.rank && a.route < b.route)
  }

  /** The best rank of an id and the first route that gives it. */
  function Best(routes: seq<Route>, id: Id): Place {
    if routes == [] then Nowhere
    else
      var n := |routes| - 1;
      var before := Best(routes[..n], id);
      var r := Rank(routes[n], id);
      if r != 0 && PlaceBefore(At(r, n), before) then At(r, n) else before
  }

  /** The chunk under which an id is first seen. */
  function FirstSeen(routes: seq<Route>, id: Id): seq<Chunk> {
    if routes == [] then []
    else
      var n := |routes| - 1;
      var before := FirstSeen(routes[..n], id);
      if before != [] then before
      else
        var r := Rank(routes[n], id);
        if r == 0 then [] else [routes[n][r - 1]]
  }

  function RouteIds(route: Route): set<Id> {
    set c | c in route :: c.id
  }

  function Ids(routes: seq<Route>): set<Id> {
    if routes == [] then {} else Ids(routes[..|routes| - 1]) + RouteIds(routes[|routes| - 1])
  }

  /** Where an id stands after some routes. */
  datatype Standing = Standing(score: real, best: Place)

  function StandingOf(routes: seq<Route>, k: nat, id: Id): Standing
    requires k > 0
  {
    Standing(Score(routes, k, id), Best(routes, id))
  }

  /** Higher score first; then the better best rank; then the earlier route; then the id. */
  predicate Ahead(a: Standing, x: Id, b: Standing, y: Id) {
    || a.score > b.score
    || (a.score == b.score && (PlaceBefore(a.best, b.best) || (a.best == b.best && x < y)))
  }

  function Ordering(standings: map<Id, Standing>): Order<Id> {
    (a, b) =>
      if a in standings && b in standings then Ahead(standings[a], a, standings[b], b)
      else if a in standings then true else if b in standings then false else a < b
  }

  function Standings(routes: seq<Route>, k: nat): map<Id, Standing>
    requires k > 0
  {
    map id | id in Ids(routes) :: StandingOf(routes, k, id)
  }

  ghost predicate HitOk(routes: seq<Route>, k: nat, hit: Hit)
    requires k > 0
  {
    hit.score == Score(routes, k, hit.chunk.id) && FirstSeen(routes, hit.chunk.id) == [hit.chunk]
  }

  function IdsOf(hits: seq<Hit>): seq<Id> {
    seq(|hits|, i requires 0 <= i < |hits| => hits[i].chunk.id)
  }

  /** The merged list: the `limit` first ids in that order, each with its chunk and fused score. */
  ghost predicate IsFused(routes: seq<Route>, k: nat, limit: nat, hits: seq<Hit>)
    requires k > 0
  {
    && TopOf(Ordering(Standings(routes, k)), Ids(routes), limit, IdsOf(hits))
    && forall i :: 0 <= i < |hits| ==> HitOk(routes, k, hits[i])
  }

  // ---- Ranks ----

  lemma {:induction false} RankIsFirst(route: Route, id: Id)
    ensures var r := Rank(route, id);
            && (r == 0 <==> id !in RouteIds(route))
            && (r > 0 ==> route[r - 1].id == id && forall i :: 0 <= i < r - 1 ==> route[i].id != id)
  {
    if route != [] {
      var init := route[..|route| - 1];
      RankIsFirst(init, id);
      assert route == init + [route[|route| - 1]];
      assert RouteIds(route) == RouteIds(init) + {route[|route| - 1].id} by {
        assert forall c :: c in route <==> c in init || c == route[|route| - 1];
      }
    }
  }

  /** `Best` is the least place over all routes. */
  lemma {:induction false} BestIsLeast(routes: seq<Route>, id: Id)
    ensures Best(routes, id).Nowhere? <==> id !in Ids(routes)
    ensures Best(routes, id).At? ==>
              Best(routes, id).route < |routes| && Rank(routes[Best(routes, id).route], id) == Best(routes, id).rank > 0
    ensures forall i :: 0 <= i < |routes| && Rank(routes[i], id) > 0 ==> !PlaceBefore(At(Rank(routes[i], id), i), Best(routes, id))
  {
    if routes != [] {
      BestIsLeast(routes[..|routes| - 1], id);
      RankIsFirst(routes[|routes| - 1], id);
    }
  }

  lemma {:induction false} SeenExactly(routes: seq<Route>, id: Id)
    ensures |FirstSeen(routes, id)| == (if id in Ids(routes) then 1 else 0)
    ensures id in Ids(routes) ==> FirstSeen(routes, id)[0].id == id
  {
    if routes != [] {
      SeenExactly(routes[..|routes| - 1], id);
      RankIsFirst(routes[|routes| - 1], id);
    }
  }

  lemma OrderIsTotal(standings: map<Id, Standing>)
    ensures StrictTotal(Ordering(standings))
  {}

  // ---- The loops ----

  ghost predicate Kept(seen: seq<Route>, k: nat, scores: map<Id, real>, chunks: map<Id, Chunk>, best: map<Id, Place>, id: Id)
    requires k > 0
  {
    && (id in scores <==> id in Ids(seen)) && (id in chunks <==> id in Ids(seen)) && (id in best <==> id in Ids(seen))
    && (id in Ids(seen) ==>
          scores[id] == Score(seen, k, id) && FirstSeen(seen, id) == [chunks[id]] && best[id] == Best(seen, id))
  }

  /** What the three dictionaries hold after some routes and a part of the next. */
  ghost predicate Tallied(seen: seq<Route>, k: nat, scores: map<Id, real>, chunks: map<Id, Chunk>, best: map<Id, Place>)
    requires k > 0
  {
    forall id :: Kept(seen, k, scores, chunks, best, id)
  }

  lemma RankSnoc(route: Route, c: Chunk, id: Id)
    ensures Rank(route + [c], id) == if Rank(route, id) != 0 then Rank(route, id) else if c.id == id then |route| + 1 else 0
  {
    assert (route + [c])[..|route + [c]| - 1] == route;
  }

  lemma RouteIdsSnoc(route: Route, c: Chunk)
    ensures RouteIds(route + [c]) == RouteIds(route) + {c.id}
  {
    assert forall x :: x in route + [c] <==> x in route || x == c;
  }

  lemma LastRoute(done: seq<Route>, route: Route)
    ensures (done + [route])[..|done + [route]| - 1] == done && (done + [route])[|done + [route]| - 1] == route
  {}

  predicate Counts(route: Route, c: Chunk, id: Id) {
    c.id == id && id !in RouteIds(route)
  }

  lemma OneMoreRank(done: seq<Route>, route: Route, c: Chunk, k: nat, id: Id)
    requires k > 0
    ensures Rank(route + [c], id) == if Counts(route, c, id) then |route| + 1 else Rank(route, id)
    ensures Counts(route, c, id) ==> Rank(route, id) == 0
    ensures Rank(route, id) > 0 ==> (route + [c])[Rank(route, id) - 1] == route[Rank(route, id) - 1]
  {
    RankSnoc(route, c, id);
    RankIsFirst(route, id);
  }

  lemma Unfold(done: seq<Route>, route: Route, k: nat, id: Id)
    requires k > 0
    ensures Score(done + [route], k, id) == Score(done, k, id) + Share(route, k, id)
    ensures Ids(done + [route]) == Ids(done) + RouteIds(route)
    ensures var r := Rank(route, id);
            && Best(done + [route], id) ==
                 (if r != 0 && PlaceBefore(At(r, |done|), Best(done, id)) then At(r, |done|) else Best(done, id))
            && FirstSeen(done + [route], id) ==
                 (if FirstSeen(done, id) != [] then FirstSeen(done, id) else if r == 0 then [] else [route[r - 1]])
  {
    LastRoute(done, route);
  }

  lemma IdsStay(done: seq<Route>, route: Route, c: Chunk, k: nat, id: Id)
    requires k > 0 && !Counts(route, c, id)
    ensures id in Ids(done + [route + [c]]) <==> id in Ids(done + [route])
  {
    Unfold(done, route, k, id);
    Unfold(done, route + [c], k, id);
    RouteIdsSnoc(route, c);
  }

  lemma ShareStays(done: seq<Route>, route: Route, c: Chunk, k: nat, id: Id)
    requires k > 0 && !Counts(route, c, id)
    ensures Score(done + [route + [c]], k, id) == Score(done + [route], k, id)
  {
    OneMoreRank(done, route, c, k, id);
    Unfold(done, route, k, id);
    Unfold(done, route + [c], k, id);
  }

  /** A chunk that does not count for an id leaves all about it as it was. */
  lemma OthersStay(done: seq<Route>, route: Route, c: Chunk, k: nat, id: Id)
    requires k > 0 && !Counts(route, c, id)
    ensures Score(done + [route + [c]], k, id) == Score(done + [route], k, id)
    ensures Best(done + [route + [c]], id) == Best(done + [route], id)
    ensures FirstSeen(done + [route + [c]], id) == FirstSeen(done + [route], id)
    ensures id in Ids(done + [route + [c]]) <==> id in Ids(done + [route])
  {
    IdsStay(done, route, c, k, id);
    ShareStays(done, route, c, k, id);
    OneMoreRank(done, route, c, k, id);
    Unfold(done, route, k, id);
    Unfold(done, route + [c], k, id);
  }

  /** A chunk that counts adds its share and may better the best place. */
  lemma OneCounts(done: seq<Route>, route: Route, c: Chunk, k: nat)
    requires k > 0 && c.id !in RouteIds(route)
    ensures var place := At(|route| + 1, |done|);
            var before := done + [route];
            var after := done + [route + [c]];
            && c.id in Ids(after)
            && Score(after, k, c.id) == Score(before, k, c.id) + 1.0 / (k + |route| + 1) as real
            && Best(after, c.id) == (if PlaceBefore(place, Best(before, c.id)) then place else Best(before, c.id))
            && FirstSeen(after, c.id) == (if FirstSeen(before, c.id) == [] then [c] else FirstSeen(before, c.id))
  {
    OneMoreRank(done, route, c, k, c.id);
    Unfold(done, route, k, c.id);
    Unfold(done, route + [c], k, c.id);
    RouteIdsSnoc(route, c);
  }

  lemma {:induction false} AbsentIsZero(routes: seq<Route>, k: nat, id: Id)
    requires k > 0
    ensures id !in Ids(routes) ==> Score(routes, k, id) == 0.0 && Best(routes, id) == Nowhere && FirstSeen(routes, id) == []
    ensures id in Ids(routes) ==> FirstSeen(routes, id) != []
  {
    if routes != [] {
      AbsentIsZero(routes[..|routes| - 1], k, id);
      RankIsFirst(routes[|routes| - 1], id);
    }
  }

  function AddShare(scores: map<Id, real>, id: Id, share: real): map<Id, real> {
    scores[id := (if id in scores then scores[id] else 0.0) + share]
  }

  function SetDefault(chunks: map<Id, Chunk>, c: Chunk): map<Id, Chunk> {
    if c.id in chunks then chunks else chunks[c.id := c]
  }

  function Better(best: map<Id, Place>, id: Id, place: Place): map<Id, Place> {
    best[id := if id in best && !PlaceBefore(place, best[id]) then best[id] else place]
  }

  lemma TallyOther(done: seq<Route>, route: Route, c: Chunk, k: nat, scores: map<Id, real>, chunks: map<Id, Chunk>, best: map<Id, Place>)
    requires k > 0 && Tallied(done + [route], k, scores, chunks, best) && c.id in RouteIds(route)
    ensures Tallied(done + [route + [c]], k, scores, chunks, best)
  {
    forall id ensures Kept(done + [route + [c]], k, scores, chunks, best, id) {
      assert Kept(done + [route], k, scores, chunks, best, id);
      OthersStay(done, route, c, k, id);
    }
  }

  lemma TallyNew(done: seq<Route>, route: Route, c: Chunk, k: nat, scores: map<Id, real>, chunks: map<Id, Chunk>, best: map<Id, Place>)
    requires k > 0 && Tallied(done + [route], k, scores, chunks, best) && c.id !in RouteIds(route)
    ensures Tallied(done + [route + [c]], k, AddShare(scores, c.id, 1.0 / (k + |route| + 1) as real), SetDefault(chunks, c),
                    Better(best, c.id, At(|route| + 1, |done|)))
  {
    var scores1 := AddShare(scores, c.id, 1.0 / (k + |route| + 1) as real);
    var best1 := Better(best, c.id, At(|route| + 1, |done|));
    forall id ensures Kept(done + [route + [c]], k, scores1, SetDefault(chunks, c), best1, id) {
      assert Kept(done + [route], k, scores, chunks, best, id);
      if id == c.id {
        OneCounts(done, route, c, k);
        AbsentIsZero(done + [route], k, id);
      } else {
        OthersStay(done, route, c, k, id);
      }
    }
  }

  lemma EmptyRoute(done: seq<Route>, k: nat, scores: map<Id, real>, chunks: map<Id, Chunk>, best: map<Id, Place>)
    requires k > 0 && Tallied(done, k, scores, chunks, best)
    ensures Tallied(done + [[]], k, scores, chunks, best)
  {
    forall id ensures Kept(done + [[]], k, scores, chunks, best, id) {
      assert Kept(done, k, scores, chunks, best, id);
      Unfold(done, [], k, id);
    }
  }

  /** The inner loop: one route. */
  method Tally(done: seq<Route>, route: Route, k: nat, scores0: map<Id, real>, chunks0: map<Id, Chunk>, best0: map<Id, Place>)
    returns (scores: map<Id, real>, chunks: map<Id, Chunk>, best: map<Id, Place>)
    requires k > 0 && Tallied(done, k, scores0, chunks0, best0)
    ensures Tallied(done + [route], k, scores, chunks, best)
  {
    scores, chunks, best := scores0, chunks0, best0;
    var seen: set<Id> := {};
    var rank := 0;
    EmptyRoute(done, k, scores, chunks, best);
    assert route[..0] == [];
    while rank < |route|
      invariant 0 <= rank <= |route| && seen == RouteIds(route[..rank])
      invariant Tallied(done + [route[..rank]], k, scores, chunks, best)
    {
      var chunk := route[rank];
      ghost var before := route[..rank];
      assert route[..rank + 1] == before + [chunk];
      RouteIdsSnoc(before, chunk);
      rank := rank + 1;
      if chunk.id !in seen {
        TallyNew(done, before, chunk, k, scores, chunks, best);
        seen := seen + {chunk.id};
        scores := AddShare(scores, chunk.id, 1.0 / (k + rank) as real);
        chunks := SetDefault(chunks, chunk);
        best := Better(best, chunk.id, At(rank, |done|));
      } else {
        TallyOther(done, before, chunk, k, scores, chunks, best);
      }
    }
    assert route[..|route|] == route;
  }

  method FuseCandidates(routes: seq<Route>, k: nat, limit: nat) returns (hits: seq<Hit>)
    requires k > 0
    ensures IsFused(routes, k, limit, hits)
  {
    var scores: map<Id, real> := map[];
    var chunks: map<Id, Chunk> := map[];
    var best: map<Id, Place> := map[];
    var index := 0;
    assert routes[..0] == [];
    assert forall id :: Kept([], k, scores, chunks, best, id);
    while index < |routes|
      invariant 0 <= index <= |routes|
      invariant Tallied(routes[..index], k, scores, chunks, best)
    {
      scores, chunks, best := Tally(routes[..index], routes[index], k, scores, chunks, best);
      assert routes[..index + 1] == routes[..index] + [routes[index]];
      index := index + 1;
    }
    assert routes[..|routes|] == routes;
    hits := Cut(routes, k, limit, scores, chunks, best);
  }

  lemma StandingsMatch(routes: seq<Route>, k: nat, scores: map<Id, real>, chunks: map<Id, Chunk>, best: map<Id, Place>)
    requires k > 0 && Tallied(routes, k, scores, chunks, best)
    ensures scores.Keys == Ids(routes)
    ensures (map id | id in scores && id in best :: Standing(scores[id], best[id])) == Standings(routes, k)
  {
    var standings := map id | id in scores && id in best :: Standing(scores[id], best[id]);
    forall id: Id
      ensures id in scores <==> id in Ids(routes)
      ensures id in standings <==> id in Standings(routes, k)
      ensures id in standings ==> standings[id] == Standings(routes, k)[id]
    {
      assert Kept(routes, k, scores, chunks, best, id);
    }
  }

  /** `sorted` with the key of the source, and the slice. */
  method Cut(routes: seq<Route>, k: nat, limit: nat, scores: map<Id, real>, chunks: map<Id, Chunk>, best: map<Id, Place>)
    returns (hits: seq<Hit>)
    requires k > 0 && Tallied(routes, k, scores, chunks, best)
    ensures IsFused(routes, k, limit, hits)
  {
    var standings := map id | id in scores && id in best :: Standing(scores[id], best[id]);
    StandingsMatch(routes, k, scores, chunks, best);
    hits := Arrange(routes, k, limit, standings, scores, chunks, best);
  }

  method Arrange(routes: seq<Route>, k: nat, limit: nat, standings: map<Id, Standing>, scores: map<Id, real>,
                 chunks: map<Id, Chunk>, ghost best: map<Id, Place>)
    returns (hits: seq<Hit>)
    requires k > 0 && Tallied(routes, k, scores, chunks, best) && scores.Keys == Ids(routes) && standings == Standings(routes, k)
    ensures IsFused(routes, k, limit, hits)
  {
    var less := Ordering(standings);
    OrderIsTotal(standings);
    var ordered := Sort(less, scores.Keys);
    CutIsTop(less, Ids(routes), limit, ordered);
    hits := Take(routes, k, ordered[..Least(limit, |ordered|)], scores, chunks, best);
  }

  method Take(routes: seq<Route>, k: nat, ids: seq<Id>, scores: map<Id, real>, chunks: map<Id, Chunk>, ghost best: map<Id, Place>)
    returns (hits: seq<Hit>)
    requires k > 0 && Tallied(routes, k, scores, chunks, best) && forall id :: id in ids ==> id in scores
    ensures IdsOf(hits) == ids && forall i :: 0 <= i < |hits| ==> HitOk(routes, k, hits[i])
  {
    hits := [];
    while |hits| < |ids|
      invariant |hits| <= |ids| && IdsOf(hits) == ids[..|hits|]
      invariant forall i :: 0 <= i < |hits| ==> HitOk(routes, k, hits[i])
    {
      var id := ids[|hits|];
      assert Kept(routes, k, scores, chunks, best, id);
      SeenExactly(routes, id);
      hits := hits + [Hit(chunks[id], scores[id])];
    }
  }

  // ---- What follows from it ----

  /** The merged list is determined by the routes, and as long as the limit and the distinct ids allow. */
  lemma FusedIsUnique(routes: seq<Route>, k: nat, limit: nat, a: seq<Hit>, b: seq<Hit>)
    requires k > 0 && IsFused(routes, k, limit, a) && IsFused(routes, k, limit, b)
    ensures a == b && |a| == if limit < |Ids(routes)| then limit else |Ids(routes)|
  {
    var less := Ordering(Standings(routes, k));
    OrderIsTotal(Standings(routes, k));
    TopIsUnique(less, Ids(routes), limit, IdsOf(a), IdsOf(b), |a|);
    assert IdsOf(a)[..|a|] == IdsOf(a) && IdsOf(b)[..|a|] == IdsOf(b);
    forall i | 0 <= i < |a| ensures a[i] == b[i] {
      assert IdsOf(a)[i] == IdsOf(b)[i];
      assert HitOk(routes, k, a[i]) && HitOk(routes, k, b[i]);
    }
  }

  /** The best rank a chunk has in any route, and the first route that gives it. */
  ghost predicate BestPlace(routes: seq<Route>, id: Id, rank: nat, route: nat) {
    && route < |routes| && 0 < rank == Rank(routes[route], id)
    && forall t :: 0 <= t < |routes| && Rank(routes[t], id) > 0 ==> Rank(routes[t], id) > rank || (Rank(routes[t], id) == rank && t >= route)
  }

  lemma BestIsBestPlace(routes: seq<Route>, id: Id)
    requires id in Ids(routes)
    ensures Best(routes, id).At? && BestPlace(routes, id, Best(routes, id).rank, Best(routes, id).route)
  {
    BestIsLeast(routes, id);
  }

  lemma AheadMeans(routes: seq<Route>, k: nat, a: Id, b: Id)
    requires k > 0 && a in Ids(routes) && b in Ids(routes) && a != b && Ordering(Standings(routes, k))(a, b)
    ensures Score(routes, k, a) >= Score(routes, k, b) && Best(routes, a).At? && Best(routes, b).At?
    ensures Score(routes, k, a) == Score(routes, k, b) ==>
              var p, q := Best(routes, a), Best(routes, b); p.rank < q.rank || (p.rank == q.rank && p.route < q.route)
  {
    BestIsLeast(routes, a);
    BestIsLeast(routes, b);
    RankIsFirst(routes[Best(routes, a).route], a);
    RankIsFirst(routes[Best(routes, b).route], b);
  }

  /** A chunk of the merged list comes before any other that is later or left out: its score is higher, or
      equal and its best rank better, or that is equal too and its route earlier. Ids never have to decide. */
  lemma FusedOrder(routes: seq<Route>, k: nat, limit: nat, hits: seq<Hit>, i: nat, b: Id)
    returns (rank: nat, route: nat, rankB: nat, routeB: nat)
    requires k > 0 && IsFused(routes, k, limit, hits) && i < |hits|
    requires b in Ids(routes) && forall j :: 0 <= j <= i ==> hits[j].chunk.id != b
    ensures BestPlace(routes, hits[i].chunk.id, rank, route) && BestPlace(routes, b, rankB, routeB)
    ensures hits[i].score >= Score(routes, k, b)
    ensures hits[i].score == Score(routes, k, b) ==> rank < rankB || (rank == rankB && route < routeB)
  {
    var a := hits[i].chunk.id;
    var standings := Standings(routes, k);
    assert IdsOf(hits)[i] == a && a in IdsOf(hits);
    BestIsBestPlace(routes, a);
    BestIsBestPlace(routes, b);
    rank, route := Best(routes, a).rank, Best(routes, a).route;
    rankB, routeB := Best(routes, b).rank, Best(routes, b).route;
    if b in IdsOf(hits) {
      var j :| 0 <= j < |hits| && IdsOf(hits)[j] == b;
      assert hits[j].chunk.id == b;
    }
    assert Ordering(standings)(a, b) && HitOk(routes, k, hits[i]);
    AheadMeans(routes, k, a, b);
  }

  lemma {:induction false} SeenWhere(routes: seq<Route>, id: Id) returns (t: nat)
    requires id in Ids(routes)
    ensures t < |routes| && Rank(routes[t], id) > 0 && FirstSeen(routes, id) == [routes[t][Rank(routes[t], id) - 1]]
    ensures forall u :: 0 <= u < t ==> Rank(routes[u], id) == 0
  {
    var n := |routes| - 1;
    SeenExactly(routes[..n], id);
    RankIsFirst(routes[n], id);
    if id in Ids(routes[..n]) {
      t := SeenWhere(routes[..n], id);
    } else {
      t := n;
      forall u | 0 <= u < n ensures Rank(routes[u], id) == 0 {
        NotRanked(routes[..n], id, u);
      }
    }
  }

  lemma {:induction false} NotRanked(routes: seq<Route>, id: Id, u: nat)
    requires id !in Ids(routes) && u < |routes|
    ensures Rank(routes[u], id) == 0
  {
    RankIsFirst(routes[u], id);
    if u < |routes| - 1 {
      NotRanked(routes[..|routes| - 1], id, u);
    }
  }

  /** No earlier place in the routes holds the id. */
  ghost predicate FirstPlace(routes: seq<Route>, id: Id, t: nat, r: nat) {
    forall u, j :: 0 <= u < |routes| && 0 <= j < |routes[u]| && (u < t || (u == t && j < r)) ==> routes[u][j].id != id
  }

  lemma RankedFirst(routes: seq<Route>, id: Id, t: nat)
    requires t < |routes| && Rank(routes[t], id) > 0 && forall u :: 0 <= u < t ==> Rank(routes[u], id) == 0
    ensures FirstPlace(routes, id, t, Rank(routes[t], id) - 1)
  {
    RankIsFirst(routes[t], id);
    forall u, j | 0 <= u < t && 0 <= j < |routes[u]| ensures routes[u][j].id != id {
      RankIsFirst(routes[u], id);
      assert routes[u][j] in routes[u] && id !in RouteIds(routes[u]);
    }
  }

  /** A hit is the chunk as the first route that has its id gives it. */
  lemma HitIsFirstSeen(routes: seq<Route>, k: nat, limit: nat, hits: seq<Hit>, i: nat) returns (t: nat, r: nat)
    requires k > 0 && IsFused(routes, k, limit, hits) && i < |hits|
    ensures t < |routes| && r < |routes[t]| && hits[i].chunk == routes[t][r] && FirstPlace(routes, hits[i].chunk.id, t, r)
  {
    var id := hits[i].chunk.id;
    assert IdsOf(hits)[i] == id && id in IdsOf(hits) && HitOk(routes, k, hits[i]);
    t := SeenWhere(routes, id);
    r := Rank(routes[t], id) - 1;
    RankedFirst(routes, id, t);
  }

  /** One chunk is ranked before another in every route that has the other. */
  predicate BetterEverywhere(routes: seq<Route>, a: Id, b: Id) {
    forall i :: 0 <= i < |routes| && Rank(routes[i], b) > 0 ==> 0 < Rank(routes[i], a) < Rank(routes[i], b)
  }

  lemma {:induction false} BetterIsThere(routes: seq<Route>, a: Id, b: Id)
    requires BetterEverywhere(routes, a, b) && b in Ids(routes)
    ensures a in Ids(routes)
  {
    var n := |routes| - 1;
    if b in Ids(routes[..n]) {
      BetterIsThere(routes[..n], a, b);
    } else {
      RankIsFirst(routes[n], b);
      RankIsFirst(routes[n], a);
    }
  }

  /** Wherever a chunk comes in the merged list, one ranked before it in every route that has it is in the
      list and comes earlier. */
  lemma BetterEverywhereWins(routes: seq<Route>, k: nat, limit: nat, hits: seq<Hit>, j: nat, a: Id)
    requires k > 0 && IsFused(routes, k, limit, hits) && j < |hits| && BetterEverywhere(routes, a, hits[j].chunk.id)
    ensures exists i :: 0 <= i < j && hits[i].chunk.id == a
  {
    var b, standings := hits[j].chunk.id, Standings(routes, k);
    assert IdsOf(hits)[j] == b && b in IdsOf(hits);
    BetterIsThere(routes, a, b);
    ScoreDominates(routes, k, a, b);
    HigherScoreFirst(standings, a, b);
    OrderIsTotal(standings);
    var i := Earlier(Ordering(standings), Ids(routes), limit, IdsOf(hits), a, j);
  }

  lemma HigherScoreFirst(standings: map<Id, Standing>, a: Id, b: Id)
    requires a in standings && b in standings && standings[a].score > standings[b].score
    ensures Ordering(standings)(a, b)
  {}

  lemma {:induction false} ScoreDominates(routes: seq<Route>, k: nat, a: Id, b: Id)
    requires k > 0
    requires forall i :: 0 <= i < |routes| && Rank(routes[i], b) > 0 ==> 0 < Rank(routes[i], a) < Rank(routes[i], b)
    ensures Score(routes, k, a) >= Score(routes, k, b)
    ensures b in Ids(routes) ==> Score(routes, k, a) > Score(routes, k, b)
  {
    if routes != [] {
      var n := |routes| - 1;
      ScoreDominates(routes[..n], k, a, b);
      RankIsFirst(routes[n], b);
      ShareDominates(routes[n], k, a, b);
    }
  }

  lemma ShareDominates(route: Route, k: nat, a: Id, b: Id)
    requires k > 0 && (Rank(route, b) > 0 ==> 0 < Rank(route, a) < Rank(route, b))
    ensures Share(route, k, a) >= Share(route, k, b) && (Rank(route, b) > 0 ==> Share(route, k, a) > Share(route, k, b))
  {
    var x, y := Rank(route, a), Rank(route, b);
    if y > 0 {
      Reciprocals(k + x, k + y);
    } else if x > 0 {
      Positive(k + x);
    }
  }

  lemma Positive(x: nat)
    requires x > 0
    ensures 1.0 / x as real > 0.0
  {}

  lemma Grows(a: real, b: real, c: real)
    requires a <= b && c > 0.0
    ensures a * c <= b * c
  {}

  lemma Reciprocals(x: nat, y: nat)
    requires 0 < x < y
    ensures 1.0 / x as real > 1.0 / y as real
  {
    var p, q := x as real, y as real;
    var u, v := 1.0 / p, 1.0 / q;
    assert u * p == 1.0 && v * q == 1.0;
    if u <= v {
      Grows(u, v, q);
    }
  }

  ghost predicate DistinctIds(route: Route) {
    forall i, j :: 0 <= i < j < |route| ==> route[i].id != route[j].id
  }

  lemma StandingIn(routes: seq<Route>, k: nat, id: Id)
    requires k > 0 && id in Ids(routes)
    ensures id in Standings(routes, k) && Standings(routes, k)[id].score == Score(routes, k, id)
  {}

  lemma OneRouteStanding(route: Route, k: nat, i: nat)
    requires k > 0 && i < |route| && DistinctIds(route)
    ensures route[i].id in RouteIds(route) && FirstSeen([route], route[i].id) == [route[i]]
    ensures Score([route], k, route[i].id) == 1.0 / (k + i + 1) as real
  {
    assert route[i] in route;
    RankIsFirst(route, route[i].id);
    Unfold([], route, k, route[i].id);
    assert [] + [route] == [route];
  }

  function RouteOrder(route: Route): seq<Id> {
    seq(|route|, i requires 0 <= i < |route| => route[i].id)
  }

  lemma OneRouteSorted(route: Route, k: nat)
    requires k > 0 && DistinctIds(route)
    ensures Sorted(Ordering(Standings([route], k)), RouteOrder(route))
  {
    OneRouteIds(route, k);
    var less, ids := Ordering(Standings([route], k)), RouteOrder(route);
    forall i, j | 0 <= i < j < |route| ensures less(ids[i], ids[j]) {
      OneRoutePair(route, k, i, j);
    }
  }

  lemma OneRoutePair(route: Route, k: nat, i: nat, j: nat)
    requires k > 0 && i < j < |route| && DistinctIds(route)
    ensures Ordering(Standings([route], k))(route[i].id, route[j].id)
  {
    OneRouteScore(route, k, i);
    OneRouteScore(route, k, j);
    Reciprocals(k + i + 1, k + j + 1);
    HigherScoreFirst(Standings([route], k), route[i].id, route[j].id);
  }

  lemma OneRouteScore(route: Route, k: nat, i: nat)
    requires k > 0 && i < |route| && DistinctIds(route)
    ensures var standings := Standings([route], k);
            route[i].id in standings && standings[route[i].id].score == 1.0 / (k + i + 1) as real
  {
    OneRouteStanding(route, k, i);
    Unfold([], route, k, 0);
    assert [] + [route] == [route];
    StandingIn([route], k, route[i].id);
  }

  lemma RouteOrderMembers(route: Route)
    ensures forall x :: x in RouteOrder(route) <==> x in RouteIds(route)
  {
    var ids := RouteOrder(route);
    forall x | x in RouteIds(route) ensures x in ids {
      var c :| c in route && c.id == x;
      var i :| 0 <= i < |route| && route[i] == c;
      assert ids[i] == x;
    }
    forall x | x in ids ensures x in RouteIds(route) {
      var i :| 0 <= i < |ids| && ids[i] == x;
      assert route[i] in route;
    }
  }

  lemma OneRouteIds(route: Route, k: nat)
    requires k > 0 && DistinctIds(route)
    ensures Ids([route]) == RouteIds(route) && |Ids([route])| == |route|
    ensures forall x :: x in RouteOrder(route) <==> x in Ids([route])
  {
    Unfold([], route, k, 0);
    assert [] + [route] == [route];
    DistinctSize(route);
    RouteOrderMembers(route);
  }

  /** A single route without repeats keeps its order. */
  lemma OneRouteKeepsItsOrder(route: Route, k: nat, limit: nat, hits: seq<Hit>)
    requires k > 0 && IsFused([route], k, limit, hits)
    requires DistinctIds(route)
    ensures |hits| == if limit < |route| then limit else |route|
    ensures forall i :: 0 <= i < |hits| ==> hits[i] == Hit(route[i], 1.0 / (k + i + 1) as real)
  {
    var less, ids := Ordering(Standings([route], k)), RouteOrder(route);
    OneRouteIds(route, k);
    OneRouteSorted(route, k);
    CutIsTop(less, Ids([route]), limit, ids);
    OrderIsTotal(Standings([route], k));
    var n := Least(limit, |route|);
    TopIsUnique(less, Ids([route]), limit, IdsOf(hits), ids[..n], n);
    SameIds(route, hits, n);
    forall i | 0 <= i < n ensures hits[i] == Hit(route[i], 1.0 / (k + i + 1) as real) {
      OneRouteStanding(route, k, i);
      assert HitOk([route], k, hits[i]);
    }
  }

  lemma SameIds(route: Route, hits: seq<Hit>, n: nat)
    requires |hits| == n <= |route| && IdsOf(hits)[..n] == RouteOrder(route)[..n][..n]
    ensures forall i :: 0 <= i < n ==> hits[i].chunk.id == route[i].id
  {
    forall i | 0 <= i < n ensures hits[i].chunk.id == route[i].id {
      assert IdsOf(hits)[..n][i] == RouteOrder(route)[..n][..n][i];
    }
  }

  lemma LastIsNew(init: Route, last: Chunk)
    requires DistinctIds(init + [last])
    ensures DistinctIds(init) && last.id !in RouteIds(init)
  {
    var route := init + [last];
    forall i, j | 0 <= i < j < |init| ensures init[i].id != init[j].id {
      assert route[i] == init[i] && route[j] == init[j];
    }
    forall c | c in init ensures c.id != last.id {
      var i :| 0 <= i < |init| && init[i] == c;
      assert route[i] == c && route[|init|] == last;
    }
  }

  lemma {:induction false} DistinctSize(route: Route)
    requires DistinctIds(route)
    ensures |RouteIds(route)| == |route|
  {
    if route != [] {
      var init, last := route[..|route| - 1], route[|route| - 1];
      assert route == init + [last];
      LastIsNew(init, last);
      DistinctSize(init);
      RouteIdsSnoc(init, last);
    }
  }
}
