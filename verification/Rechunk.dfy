/** The re-chunking stage of a rebuild (backend/services/knowledge/reindex.py, `_advance_rechunk`) as
    steps that uploads, deletions, re-ingests by users, ETL workers and crashes interleave with. */
module Rechunk {
  import opened T = KnowledgeTables
  import opened P = ReindexPlan

  const BATCH_SIZE := 50

  /** Where a round stands: what it has still to send, and what it has sent. A stopped round met a
      document that is being processed. */
  datatype Round = Idle | Looping(rest: seq<DocId>, sent: seq<DocId>) | Stopped(sent: seq<DocId>)

  /** The documents of the knowledge base, the stored job and the round in memory. */
  datatype Core = Core(docs: map<DocId, Document>, status: JobStatus, cursor: Option<DocId>, rechunked: nat, round: Round)

  predicate Shown(docs: map<DocId, Document>, d: DocId) {
    d in docs && !docs[d].deleted
  }

  predicate After(d: DocId, cursor: Option<DocId>) {
    cursor.Some? ==> d > cursor.value
  }

  predicate Ascending(s: seq<DocId>) {
    forall i, j :: 0 <= i < j < |s| ==> s[i] < s[j]
  }

  /** `for_kb_after`: the first `limit` visible documents behind the cursor, by id. */
  predicate IsPage(docs: map<DocId, Document>, cursor: Option<DocId>, limit: nat, listing: seq<DocId>) {
    && Ascending(listing) && |listing| <= limit
    && (forall d :: d in listing ==> Shown(docs, d) && After(d, cursor))
    && (forall d :: d in docs && Shown(docs, d) && After(d, cursor) && d !in listing ==>
          |listing| == limit && (listing != [] ==> d > listing[|listing| - 1]))
  }

  predicate StillProcessing(docs: map<DocId, Document>) {
    exists d :: d in docs && Shown(docs, d) && docs[d].status in STILL_PROCESSING
  }

  predicate Busy(doc: Document, stale: bool) {
    doc.status in IN_PROGRESS && !stale
  }

  /** `reingest` for a document that is there and not busy: the next version starts over. */
  function Restart(docs: map<DocId, Document>, d: DocId): map<DocId, Document>
    requires d in docs
  {
    docs[d := Document(docs[d].version + 1, Uploaded, false)]
  }

  function ReadBatch(c: Core, listing: seq<DocId>): Core {
    c.(round := Looping(listing, []))
  }

  /** One turn of the loop: a vanished document fails the job, a busy one ends the round. */
  function Send(c: Core, stale: bool): Core
    requires c.round.Looping? && c.round.rest != []
  {
    var d := c.round.rest[0];
    if !Shown(c.docs, d) then c.(status := P.Failed, round := Idle)
    else if Busy(c.docs[d], stale) then c.(round := Stopped(c.round.sent))
    else c.(docs := Restart(c.docs, d), round := Looping(c.round.rest[1..], c.round.sent + [d]))
  }

  predicate CanCommit(round: Round) {
    round.Stopped? || (round.Looping? && round.rest == [])
  }

  /** The end of a round: the cursor moves behind what was sent; an empty list means all were sent, and
      then the job moves on once no document is being processed. */
  function Commit(c: Core): Core
    requires CanCommit(c.round)
  {
    var sent := c.round.sent;
    if sent != [] then c.(cursor := Some(sent[|sent| - 1]), rechunked := c.rechunked + |sent|, round := Idle)
    else if c.round.Looping? && !StillProcessing(c.docs) then c.(status := P.Embedding, round := Idle)
    else c.(round := Idle)
  }

  /** The job with history: the documents there when it began, how often it has re-ingested each, and how
      often its worker died. */
  datatype World = World(core: Core, start: set<DocId>, times: map<DocId, nat>, crashes: nat)

  datatype Step =
    | Read(listing: seq<DocId>)
    | SendNext(stale: bool)
    | EndRound
    | Crash
    | Upload(d: DocId)
    | Delete(d: DocId)
    | Etl(d: DocId, status: Status)
    | UserReingest(d: DocId)

  predicate Enabled(w: World, step: Step) {
    var c := w.core;
    match step
    case Read(listing) => c.status == Rechunking && c.round.Idle? && IsPage(c.docs, c.cursor, BATCH_SIZE, listing)
    case SendNext(_) => c.status == Rechunking && c.round.Looping? && c.round.rest != []
    case EndRound => c.status == Rechunking && CanCommit(c.round)
    case Crash => true
    case Upload(d) => d !in c.docs
    case Delete(d) => Shown(c.docs, d)
    case Etl(d, _) => Shown(c.docs, d)
    case UserReingest(d) => Shown(c.docs, d)
  }

  function Times(w: World, d: DocId): nat {
    if d in w.times then w.times[d] else 0
  }

  function Apply(w: World, step: Step): World
    requires Enabled(w, step)
  {
    var c := w.core;
    match step
    case Read(listing) => w.(core := ReadBatch(c, listing))
    case SendNext(stale) =>
      var d := c.round.rest[0];
      w.(core := Send(c, stale),
         times := if Shown(c.docs, d) && !Busy(c.docs[d], stale) then w.times[d := Times(w, d) + 1] else w.times)
    case EndRound => w.(core := Commit(c))
    case Crash => w.(core := c.(round := Idle), crashes := w.crashes + 1)
    case Upload(d) => w.(core := c.(docs := c.docs[d := Document(1, Uploaded, false)]))
    case Delete(d) => w.(core := c.(docs := c.docs[d := c.docs[d].(deleted := true)]))
    case Etl(d, status) => w.(core := c.(docs := c.docs[d := c.docs[d].(status := status)]))
    case UserReingest(d) => w.(core := c.(docs := Restart(c.docs, d)))
  }

  // ---- The invariant ----

  /** How far the round has come: the last document sent, or the stored cursor. */
  function Position(c: Core): Option<DocId> {
    if !c.round.Idle? && c.round.sent != [] then Some(c.round.sent[|c.round.sent| - 1]) else c.cursor
  }

  ghost predicate Remaining(w: World, d: DocId) {
    d in w.start && Shown(w.core.docs, d)
  }

  ghost predicate Between(w: World, d: DocId, last: DocId) {
    Remaining(w, d) && After(d, Position(w.core)) && d <= last
  }

  /** Nothing that was there at the start lies between the position and the end of the list without being
      on it, and nothing at all behind an empty list. */
  ghost predicate RoundOk(w: World) {
    var c := w.core;
    c.round.Looping? ==>
      && Ascending(c.round.rest)
      && (forall d :: d in c.round.rest ==> After(d, Position(c)))
      && (c.round.rest != [] ==> forall d :: Between(w, d, c.round.rest[|c.round.rest| - 1]) ==> d in c.round.rest)
      && (c.round.rest == [] && c.round.sent == [] ==> forall d :: Remaining(w, d) ==> !After(d, c.cursor))
  }

  ghost predicate DocOk(w: World, d: DocId) {
    var behind := After(d, Position(w.core));
    && (Remaining(w, d) && !behind ==> Times(w, d) >= 1)
    && Times(w, d) <= w.crashes + 1
    && (behind ==> After(d, w.core.cursor))
    && (behind && w.core.status != P.Failed ==> Times(w, d) <= w.crashes)
    && (w.core.status == P.Embedding && Remaining(w, d) ==> Times(w, d) >= 1)
  }

  ghost predicate Inv(w: World) {
    w.start <= w.core.docs.Keys && RoundOk(w) && forall d :: DocOk(w, d)
  }

  lemma SendRound(w: World, stale: bool)
    requires Inv(w) && Enabled(w, SendNext(stale))
    ensures RoundOk(Apply(w, SendNext(stale)))
  {
    var c, w1 := w.core, Apply(w, SendNext(stale));
    if w1.core.round.Looping? {
      var d, rest := c.round.rest[0], c.round.rest[1..];
      assert Position(w1.core) == Some(d) && c.round.rest == [d] + rest;
      if rest != [] {
        assert rest[|rest| - 1] == c.round.rest[|c.round.rest| - 1];
        forall e | Between(w1, e, rest[|rest| - 1]) ensures e in rest {
          assert d in c.round.rest && After(d, Position(c));
          assert Between(w, e, c.round.rest[|c.round.rest| - 1]);
          assert e in [d] + rest;
        }
      }
    }
  }

  lemma SendDoc(w: World, stale: bool, d: DocId)
    requires Inv(w) && Enabled(w, SendNext(stale))
    ensures DocOk(Apply(w, SendNext(stale)), d)
  {
    var c, w1 := w.core, Apply(w, SendNext(stale));
    var first := c.round.rest[0];
    assert DocOk(w, d) && DocOk(w, first) && first in c.round.rest;
    if w1.core.round.Looping? {
      assert Position(w1.core) == Some(first);
      assert d in c.round.rest ==> first <= d;
      var last := c.round.rest[|c.round.rest| - 1];
      assert Remaining(w, d) && After(d, Position(c)) && d < first ==> Between(w, d, last);
    } else {
      assert DocOk(w, d);
    }
  }

  lemma EndDoc(w: World, d: DocId)
    requires Inv(w) && Enabled(w, EndRound)
    ensures DocOk(Apply(w, EndRound), d)
  {
    assert DocOk(w, d);
    assert Remaining(Apply(w, EndRound), d) == Remaining(w, d);
  }

  /** Other actors add documents and take some away; they never bring one back. */
  lemma OtherDoc(w: World, step: Step, d: DocId)
    requires Inv(w) && Enabled(w, step)
    requires !step.SendNext? && !step.EndRound?
    ensures DocOk(Apply(w, step), d)
    ensures Remaining(Apply(w, step), d) ==> Remaining(w, d)
  {
    assert DocOk(w, d);
  }

  lemma OtherRound(w: World, step: Step)
    requires Inv(w) && Enabled(w, step)
    requires step.Upload? || step.Delete? || step.Etl? || step.UserReingest?
    ensures RoundOk(Apply(w, step))
  {
    var w1 := Apply(w, step);
    forall d | Remaining(w1, d) ensures Remaining(w, d) {
      OtherDoc(w, step, d);
    }
    if w.core.round.Looping? && w.core.round.rest != [] {
      var last := w.core.round.rest[|w.core.round.rest| - 1];
      assert forall d :: Between(w1, d, last) ==> Between(w, d, last);
    }
  }

  /** Every step of the job and of everyone else keeps the invariant. */
  lemma StepKeeps(w: World, step: Step)
    requires Inv(w) && Enabled(w, step)
    ensures Inv(Apply(w, step))
  {
    var w1 := Apply(w, step);
    match step {
      case SendNext(stale) => SendRound(w, stale);
      case Upload(_) => OtherRound(w, step);
      case Delete(_) => OtherRound(w, step);
      case Etl(_, _) => OtherRound(w, step);
      case UserReingest(_) => OtherRound(w, step);
      case _ =>
    }
    forall d ensures DocOk(w1, d) {
      match step {
        case SendNext(stale) => SendDoc(w, stale, d);
        case EndRound => EndDoc(w, d);
        case _ => OtherDoc(w, step, d);
      }
    }
  }

  // ---- Whole runs ----

  ghost predicate Begins(w: World) {
    && w.core.status == Rechunking && w.core.cursor == None && w.core.round.Idle? && w.times == map[] && w.crashes == 0
    && forall d :: d in w.start <==> Shown(w.core.docs, d)
  }

  ghost predicate IsRun(worlds: seq<World>, steps: seq<Step>) {
    && |worlds| == |steps| + 1 && Begins(worlds[0])
    && forall i {:trigger steps[i]} :: 0 <= i < |steps| ==> Enabled(worlds[i], steps[i]) && worlds[i + 1] == Apply(worlds[i], steps[i])
  }

  lemma {:induction false} RunKeeps(worlds: seq<World>, steps: seq<Step>, n: nat)
    requires IsRun(worlds, steps) && n < |worlds|
    ensures Inv(worlds[n])
    ensures worlds[n].start == worlds[0].start
  {
    if n > 0 {
      RunKeeps(worlds, steps, n - 1);
      StepKeeps(worlds[n - 1], steps[n - 1]);
    }
  }

  /** What a turn of the loop does to the next document of the list: re-ingested it is the next version,
      uploaded again, unless it is being worked on and fresh; every other document stays. */
  lemma SendMeaning(w: World, stale: bool)
    requires Enabled(w, SendNext(stale))
    ensures var c, c1 := w.core, Apply(w, SendNext(stale)).core;
            var d := c.round.rest[0];
            if d !in c.docs || c.docs[d].deleted then c1.docs == c.docs && c1.status == P.Failed
            else if c.docs[d].status in {Parsing, Cleaned, T.Embedding} && !stale then
              c1.docs == c.docs && c1.status == Rechunking && c1.round == Stopped(c.round.sent)
            else
              && d in c1.docs && c1.docs - {d} == c.docs - {d}
              && c1.docs[d].version == c.docs[d].version + 1 && c1.docs[d].status == Uploaded && !c1.docs[d].deleted
              && c1.status == Rechunking && c1.round == Looping(c.round.rest[1..], c.round.sent + [d])
  {}

  /** A user's re-ingest is the same restart; nothing else raises a version. */
  lemma StepVersion(w: World, step: Step, d: DocId)
    requires Enabled(w, step) && d in w.core.docs
    ensures d in Apply(w, step).core.docs
    ensures Apply(w, step).core.docs[d].version ==
              w.core.docs[d].version + (Times(Apply(w, step), d) - Times(w, d)) + (if step == UserReingest(d) then 1 else 0)
  {}

  lemma {:induction false} EachTimeAVersion(worlds: seq<World>, steps: seq<Step>, n: nat, d: DocId)
    requires IsRun(worlds, steps) && n < |worlds| && d in worlds[0].core.docs
    ensures d in worlds[n].core.docs && worlds[n].core.docs[d].version >= worlds[0].core.docs[d].version + Times(worlds[n], d)
  {
    if n > 0 {
      EachTimeAVersion(worlds, steps, n - 1, d);
      StepVersion(worlds[n - 1], steps[n - 1], d);
    }
  }

  /** Once the job computes vectors, every document that was there when it began and has not been deleted
      was re-ingested by it: once, and at most once more for every crash. At the turn to the vectors no
      document is still being processed. Each time has opened another version of the document. */
  lemma RechunkSkipsNothing(worlds: seq<World>, steps: seq<Step>, n: nat, d: DocId)
    requires IsRun(worlds, steps) && n < |worlds|
    ensures Times(worlds[n], d) <= worlds[n].crashes + 1
    ensures worlds[n].core.status == P.Embedding && Shown(worlds[0].core.docs, d) && Shown(worlds[n].core.docs, d) ==>
              Times(worlds[n], d) >= 1
    ensures n > 0 && worlds[n].core.status == P.Embedding && worlds[n - 1].core.status != P.Embedding && Shown(worlds[n].core.docs, d) ==>
              worlds[n].core.docs[d].status in {Ready, T.Failed}
    ensures d in worlds[0].core.docs ==>
              d in worlds[n].core.docs && worlds[n].core.docs[d].version >= worlds[0].core.docs[d].version + Times(worlds[n], d)
  {
    RunKeeps(worlds, steps, n);
    assert DocOk(worlds[n], d);
    if d in worlds[0].core.docs {
      EachTimeAVersion(worlds, steps, n, d);
    }
    if n > 0 && worlds[n].core.status == P.Embedding && worlds[n - 1].core.status != P.Embedding {
      assert Enabled(worlds[n - 1], steps[n - 1]);
      NothingInFlightAtTheTurn(worlds[n - 1], steps[n - 1], d);
    }
  }

  /** The step that enters the embedding stage finds no document in a processing state and changes none. */
  lemma NothingInFlightAtTheTurn(w: World, step: Step, d: DocId)
    requires Enabled(w, step)
    requires w.core.status != P.Embedding && Apply(w, step).core.status == P.Embedding
    ensures step == EndRound && Apply(w, step).core.docs == w.core.docs
    ensures Shown(w.core.docs, d) ==> w.core.docs[d].status in {Ready, T.Failed}
  {
    if Shown(w.core.docs, d) {
      assert w.core.docs[d].status in STILL_PROCESSING ==> StillProcessing(w.core.docs);
      assert w.core.docs[d].status.Ready? || w.core.docs[d].status.Failed?;
    }
  }

  /** A deletion between the listing and its turn is the one way a document fails the whole job. */
  lemma OnlyAVanishedDocumentFails(w: World, step: Step)
    requires Enabled(w, step) && w.core.status == Rechunking
    ensures Apply(w, step).core.status == P.Failed <==>
              step.SendNext? && !Shown(w.core.docs, w.core.round.rest[0])
  {}

  // ---- One round, undisturbed ----

  function SendAll(c: Core, stale: DocId -> bool): Core
    requires c.round.Looping?
    decreases |c.round.rest|
  {
    if c.round.rest == [] then c
    else
      var next := Send(c, stale(c.round.rest[0]));
      if next.round.Looping? then SendAll(next, stale) else next
  }

  /** A round as the steps above when nothing else runs. */
  function WholeRound(c: Core, listing: seq<DocId>, stale: DocId -> bool): Core {
    var sent := SendAll(ReadBatch(c, listing), stale);
    if CanCommit(sent.round) then Commit(sent) else sent
  }

  /** Being worked on by a task that is not taken for dead. */
  predicate Held(doc: Document, stale: bool) {
    !stale && (doc.status == Parsing || doc.status == Cleaned || doc.status == T.Embedding)
  }

  ghost predicate AllShown(docs: map<DocId, Document>, listing: seq<DocId>) {
    forall i :: 0 <= i < |listing| ==> Shown(docs, listing[i])
  }

  /** The first n of the list are free and the next, if there is one, is held. */
  ghost predicate FreeUpTo(docs: map<DocId, Document>, listing: seq<DocId>, stale: DocId -> bool, n: nat) {
    && n <= |listing| && Ascending(listing) && AllShown(docs, listing)
    && (forall i :: 0 <= i < n ==> !Held(docs[listing[i]], stale(listing[i])))
    && (n < |listing| ==> Held(docs[listing[n]], stale(listing[n])))
  }

  /** Some documents are re-ingested and the others are as they were. */
  ghost predicate Reingested(docs: map<DocId, Document>, docs1: map<DocId, Document>, sent: seq<DocId>) {
    && docs1.Keys == docs.Keys
    && forall d :: d in docs ==> docs1[d] == if d in sent then Document(docs[d].version + 1, Uploaded, false) else docs[d]
  }

  lemma NextFree(docs: map<DocId, Document>, listing: seq<DocId>, stale: DocId -> bool, n: nat)
    requires FreeUpTo(docs, listing, stale, n) && n > 0
    ensures FreeUpTo(Restart(docs, listing[0]), listing[1..], stale, n - 1) && listing[0] !in listing[1..]
  {
    var rest, docs1 := listing[1..], Restart(docs, listing[0]);
    forall i | 0 <= i < |rest| ensures rest[i] == listing[i + 1] && rest[i] != listing[0] && docs1[rest[i]] == docs[listing[i + 1]] {
      assert Shown(docs, listing[i + 1]);
    }
  }

  lemma ReingestedOn(docs: map<DocId, Document>, docs2: map<DocId, Document>, d: DocId, sent: seq<DocId>)
    requires d in docs && d !in sent && Reingested(Restart(docs, d), docs2, sent)
    ensures Reingested(docs, docs2, [d] + sent)
  {
    assert Restart(docs, d).Keys == docs.Keys;
    assert forall e :: e in [d] + sent <==> e == d || e in sent;
  }

  /** What the loop makes of the round when the first n of the list are free. */
  ghost predicate SentUpTo(c: Core, n: nat, c1: Core)
    requires c.round.Looping? && n <= |c.round.rest|
  {
    && Reingested(c.docs, c1.docs, c.round.rest[..n]) && c1 == c.(docs := c1.docs, round := c1.round)
    && c1.round == if n < |c.round.rest| then Stopped(c.round.sent + c.round.rest[..n]) else Looping([], c.round.sent + c.round.rest)
  }

  lemma OneMoreSent(c: Core, n: nat, c1: Core)
    requires c.round.Looping? && 0 < n <= |c.round.rest| && c.round.rest[0] in c.docs && c.round.rest[0] !in c.round.rest[1..]
    requires SentUpTo(c.(docs := Restart(c.docs, c.round.rest[0]), round := Looping(c.round.rest[1..], c.round.sent + [c.round.rest[0]])), n - 1, c1)
    ensures SentUpTo(c, n, c1)
  {
    var d, more, sent := c.round.rest[0], c.round.rest[1..], c.round.sent;
    assert c.round.rest[..n] == [d] + more[..n - 1] && c.round.rest == [d] + more;
    assert sent + [d] + more[..n - 1] == sent + c.round.rest[..n] && sent + [d] + more == sent + c.round.rest;
    ReingestedOn(c.docs, c1.docs, d, more[..n - 1]);
  }

  lemma SendFree(c: Core, stale: DocId -> bool)
    requires c.round.Looping? && c.round.rest != [] && Shown(c.docs, c.round.rest[0])
    ensures if Held(c.docs[c.round.rest[0]], stale(c.round.rest[0])) then SendAll(c, stale) == c.(round := Stopped(c.round.sent))
            else SendAll(c, stale) ==
                 SendAll(c.(docs := Restart(c.docs, c.round.rest[0]), round := Looping(c.round.rest[1..], c.round.sent + [c.round.rest[0]])), stale)
  {}

  lemma NoneSent(c: Core, c1: Core)
    requires c.round.Looping? && c1 == if c.round.rest == [] then c else c.(round := Stopped(c.round.sent))
    ensures SentUpTo(c, 0, c1)
  {
    assert c.round.sent + c.round.rest[..0] == c.round.sent;
    assert c.round.rest == [] ==> c.round.sent + c.round.rest == c.round.sent;
  }

  lemma {:induction false} SendAllMeaning(c: Core, stale: DocId -> bool, n: nat)
    requires c.round.Looping? && FreeUpTo(c.docs, c.round.rest, stale, n)
    ensures SentUpTo(c, n, SendAll(c, stale))
    decreases |c.round.rest|
  {
    var rest := c.round.rest;
    if rest != [] {
      assert Shown(c.docs, rest[0]);
      SendFree(c, stale);
    }
    if n == 0 {
      NoneSent(c, SendAll(c, stale));
    } else {
      NextFree(c.docs, rest, stale, n);
      var c1 := c.(docs := Restart(c.docs, rest[0]), round := Looping(rest[1..], c.round.sent + [rest[0]]));
      SendAllMeaning(c1, stale, n - 1);
      OneMoreSent(c, n, SendAll(c1, stale));
    }
  }

  lemma PageShown(docs: map<DocId, Document>, cursor: Option<DocId>, limit: nat, listing: seq<DocId>)
    requires IsPage(docs, cursor, limit, listing)
    ensures AllShown(docs, listing) && Ascending(listing) && |listing| <= limit
    ensures |listing| < limit ==> forall d :: Shown(docs, d) && After(d, cursor) ==> d in listing
  {
    assert forall i :: 0 <= i < |listing| ==> listing[i] in listing;
  }

  lemma NoneInProcess(docs: map<DocId, Document>)
    ensures !StillProcessing(docs) <==> forall d :: Shown(docs, d) ==> docs[d].status in {Ready, T.Failed}
  {
    forall d | Shown(docs, d) ensures docs[d].status in STILL_PROCESSING <==> docs[d].status !in {Ready, T.Failed} {
      assert docs[d].status.Ready? || docs[d].status.Failed? || docs[d].status in STILL_PROCESSING;
    }
  }

  /** A round that nothing interferes with re-ingests the listed documents up to the first that is held, once
      each, counts them and moves the cursor behind them; it turns to the vectors exactly when the list is
      empty and every visible document is ready or failed. The list holds the next fifty documents, or all. */
  lemma RoundMeaning(c: Core, listing: seq<DocId>, stale: DocId -> bool, n: nat)
    requires c.status == Rechunking && IsPage(c.docs, c.cursor, BATCH_SIZE, listing) && FreeUpTo(c.docs, listing, stale, n)
    ensures |listing| <= 50 && (|listing| < 50 ==> forall d :: Shown(c.docs, d) && After(d, c.cursor) ==> d in listing)
    ensures var c1 := WholeRound(c, listing, stale);
            && Reingested(c.docs, c1.docs, listing[..n])
            && c1.rechunked == c.rechunked + n && c1.cursor == (if n == 0 then c.cursor else Some(listing[n - 1])) && c1.round == Idle
            && c1.status == if listing == [] && (forall d :: Shown(c.docs, d) ==> c.docs[d].status in {Ready, T.Failed}) then P.Embedding
                            else Rechunking
  {
    PageShown(c.docs, c.cursor, BATCH_SIZE, listing);
    var sent := SendAll(ReadBatch(c, listing), stale);
    SendAllMeaning(ReadBatch(c, listing), stale, n);
    RoundEnds(c, listing, sent, n);
  }

  lemma RoundEnds(c: Core, listing: seq<DocId>, sent: Core, n: nat)
    requires c.status == Rechunking && n <= |listing| && SentUpTo(ReadBatch(c, listing), n, sent)
    ensures CanCommit(sent.round)
    ensures var c1 := Commit(sent);
            && Reingested(c.docs, c1.docs, listing[..n])
            && c1.rechunked == c.rechunked + n && c1.cursor == (if n == 0 then c.cursor else Some(listing[n - 1])) && c1.round == Idle
            && c1.status == if listing == [] && (forall d :: Shown(c.docs, d) ==> c.docs[d].status in {Ready, T.Failed}) then P.Embedding
                            else Rechunking
  {
    assert [] + listing[..n] == listing[..n] && (n == |listing| ==> [] + listing == listing[..n]);
    if listing == [] {
      assert sent.docs == c.docs;
      NoneInProcess(c.docs);
    }
  }

  ghost predicate Leads(w: World, steps: seq<Step>, w1: World)
    decreases |steps|
  {
    if steps == [] then w1 == w else Enabled(w, steps[0]) && Leads(Apply(w, steps[0]), steps[1..], w1)
  }

  lemma LeadsOn(w: World, step: Step, more: seq<Step>, w1: World)
    requires Enabled(w, step) && Leads(Apply(w, step), more, w1)
    ensures Leads(w, [step] + more, w1)
  {
    assert ([step] + more)[1..] == more;
  }

  lemma {:induction false} SendsAreSteps(w: World, stale: DocId -> bool) returns (steps: seq<Step>, w1: World)
    requires w.core.status == Rechunking && w.core.round.Looping?
    ensures w1.core == (if CanCommit(SendAll(w.core, stale).round) then Commit(SendAll(w.core, stale)) else SendAll(w.core, stale))
    ensures Leads(w, steps, w1) && w1.crashes == w.crashes
    decreases |w.core.round.rest|
  {
    if w.core.round.rest == [] {
      w1 := Apply(w, EndRound);
      LeadsOn(w, EndRound, [], w1);
      return [EndRound] + [], w1;
    }
    var step := SendNext(stale(w.core.round.rest[0]));
    var next := Apply(w, step);
    if next.core.round.Looping? {
      steps, w1 := SendsAreSteps(next, stale);
    } else if next.core.round.Stopped? {
      w1 := Apply(next, EndRound);
      LeadsOn(next, EndRound, [], w1);
      steps := [EndRound] + [];
    } else {
      steps, w1 := [], next;
    }
    LeadsOn(w, step, steps, w1);
    steps := [step] + steps;
  }

  /** A round nothing interferes with is the steps of the protocol: a look at the list, a turn for each
      document, and the end of the round. */
  lemma RoundIsSteps(w: World, listing: seq<DocId>, stale: DocId -> bool) returns (steps: seq<Step>, w1: World)
    requires Enabled(w, Read(listing))
    ensures Leads(w, [Read(listing)] + steps, w1) && w1.core == WholeRound(w.core, listing, stale) && w1.crashes == w.crashes
  {
    steps, w1 := SendsAreSteps(Apply(w, Read(listing)), stale);
    LeadsOn(w, Read(listing), steps, w1);
  }

  /** What goes on meanwhile is not restricted: documents come as version 1, a visible one may be deleted,
      written any status or re-ingested at any time, and a worker may die, which costs only its round. */
  lemma OthersAreFree(w: World, d: DocId, status: Status)
    ensures d !in w.core.docs ==>
              Enabled(w, Upload(d)) && Apply(w, Upload(d)).core == w.core.(docs := w.core.docs[d := Document(1, Uploaded, false)])
    ensures Shown(w.core.docs, d) ==>
              var doc := w.core.docs[d];
              && Enabled(w, Delete(d)) && Apply(w, Delete(d)).core.docs == w.core.docs[d := Document(doc.version, doc.status, true)]
              && Enabled(w, Etl(d, status)) && Apply(w, Etl(d, status)).core.docs == w.core.docs[d := Document(doc.version, status, false)]
              && Enabled(w, UserReingest(d)) && Apply(w, UserReingest(d)).core.docs == w.core.docs[d := Document(doc.version + 1, Uploaded, false)]
    ensures Enabled(w, Crash) && Apply(w, Crash) == w.(core := w.core.(round := Idle), crashes := w.crashes + 1)
  {}

  class Job {
    var docs: map<DocId, Document>
    var status: JobStatus
    var cursor: Option<DocId>
    var rechunked: nat

    constructor (docs: map<DocId, Document>)
      ensures State() == Core(docs, Rechunking, None, 0, Idle)
    {
      this.docs, status, cursor, rechunked := docs, Rechunking, None, 0;
    }

    function State(): Core
      reads this
    {
      Core(docs, status, cursor, rechunked, Idle)
    }

    method ForKbAfter(limit: nat) returns (listing: seq<DocId>)
      ensures IsPage(docs, cursor, limit, listing)
    {
      var rest := set d | d in docs && Shown(docs, d) && After(d, cursor);
      listing := [];
      while rest != {} && |listing| < limit
        invariant Ascending(listing) && |listing| <= limit
        invariant forall d :: d in rest ==> Shown(docs, d) && After(d, cursor)
        invariant forall d :: d in listing ==> Shown(docs, d) && After(d, cursor)
        invariant forall d :: d in docs && Shown(docs, d) && After(d, cursor) && d !in listing ==> d in rest
        invariant listing != [] ==> forall d :: d in rest ==> d > listing[|listing| - 1]
        decreases rest
      {
        var d := Least(rest);
        rest := rest - {d};
        listing := listing + [d];
      }
    }

    /** The loop: it stops at a busy document and fails the job at a vanished one. */
    method SendBatch(batch: seq<DocId>, stale: DocId -> bool) returns (sent: seq<DocId>)
      requires status == Rechunking
      modifies this`docs, this`status
      ensures SendAll(ReadBatch(old(State()), batch), stale)
              == State().(round := if status == P.Failed then Idle
                                   else if |sent| == |batch| then Looping([], sent) else Stopped(sent))
      ensures status in {Rechunking, P.Failed} && |sent| <= |batch|
    {
      sent := [];
      var i: nat := 0;
      assert batch[0..] == batch;
      while i < |batch|
        invariant i <= |batch| && |sent| == i && status == Rechunking
        invariant SendAll(ReadBatch(old(State()), batch), stale) == SendAll(State().(round := Looping(batch[i..], sent)), stale)
      {
        var d := batch[i];
        if d !in docs || docs[d].deleted {
          status := P.Failed;
          return;
        }
        if docs[d].status in IN_PROGRESS && !stale(d) {
          return;
        }
        docs := docs[d := Document(docs[d].version + 1, Uploaded, false)];
        sent := sent + [d];
        assert batch[i..][1..] == batch[i + 1..];
        i := i + 1;
      }
    }

    /** `_advance_rechunk`: one round with nobody else at work. */
    method AdvanceRechunk(stale: DocId -> bool) returns (ghost listing: seq<DocId>)
      requires status == Rechunking
      modifies this
      ensures IsPage(old(docs), old(cursor), BATCH_SIZE, listing)
      ensures State() == WholeRound(old(State()), listing, stale)
    {
      var batch := ForKbAfter(BATCH_SIZE);
      listing := batch;
      var sent := SendBatch(batch, stale);
      if status == P.Failed {
        return;
      }
      if sent != [] {
        cursor := Some(sent[|sent| - 1]);
        rechunked := rechunked + |sent|;
      } else if batch == [] && !StillProcessing(docs) {
        status := P.Embedding;
      }
    }
  }

  method Least(s: set<DocId>) returns (least: DocId)
    requires s != {}
    ensures least in s && forall d :: d in s ==> least <= d
  {
    least :| least in s;
    var rest := s - {least};
    while rest != {}
      invariant least in s && rest <= s
      invariant forall d :: d in s && d !in rest ==> least <= d
      decreases rest
    {
      var d :| d in rest;
      if d < least {
        least := d;
      }
      rest := rest - {d};
    }
  }
}
