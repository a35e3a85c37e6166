/** Computing a whole knowledge base anew under a target pair and switching to it
    (backend/services/knowledge/reindex.py, `_advance_embedding`, `_embed_missing`, `_switch`). */
module Reindex {
  import opened T = KnowledgeTables
  import opened P = ReindexPlan
  import L = DocumentLifecycle

  datatype Job = Job(status: JobStatus, model: string, generation: nat, knowledge: nat, rechunk: bool,
                     total: nat, embedded: nat)

  datatype State = State(db: Tables, kb: Kb, job: Job)

  /** What the provider does with one call: it names the model it used (or no name), or fails. */
  datatype Reply = Named(model: string) | Down

  type Provider = (nat, string) -> Reply

  datatype Run = Run(db: Tables, model: string, raised: bool)

  function Used(name: string, requested: string): string {
    if name != "" then name else requested
  }

  /** `_embed_missing` on the list it has read: 64 texts a call, the requested name following the reply. */
  function EmbedAll(db: Tables, model: string, generation: nat, pending: seq<ChunkId>, provider: Provider, call: nat): Run
    decreases |pending|
  {
    if pending == [] then Run(db, model, false)
    else
      match provider(call, model)
      case Down => Run(db, model, true)
      case Named(name) =>
        var batch := L.BatchOf(pending);
        EmbedAll(db.(vectors := db.vectors + VectorsFor(L.Elements(batch), Used(name, model), generation)),
                 Used(name, model), generation, pending[|batch|..], provider, call + 1)
  }

  predicate GatePasses(db: Tables, model: string, generation: nat) {
    ReadyToSwitch(P.Embedding, |ActiveChunks(db)|, CountForVersion(db, model, generation))
  }

  /** One UPDATE of the three columns. */
  function Switch(kb: Kb, job: Job, model: string): Kb {
    kb.(model := model, generation := job.generation, indexed := job.knowledge)
  }

  /** The list `_embed_missing` works on: the active chunks without a target vector, in some order. */
  predicate IsPending(s: State, pending: seq<ChunkId>) {
    L.Lists(pending, WithoutVector(s.db, ActiveChunks(s.db), s.job.model, s.job.generation))
  }

  /** The transaction that ends an advance: it counts under the name the advance was called with. */
  function Settle(s: State, asked: string): State {
    var total := |ActiveChunks(s.db)|;
    var done := CountForVersion(s.db, asked, s.job.generation);
    var job := s.job.(total := total, embedded := if done < total then done else total);
    if ReadyToSwitch(P.Embedding, total, done) then State(s.db, Switch(s.kb, job, asked), job.(status := Completed))
    else State(s.db, s.kb, job)
  }

  /** `_advance_embedding` with the tables at rest. */
  function AdvanceEmbedding(s: State, pending: seq<ChunkId>, provider: Provider): State {
    var run := EmbedAll(s.db, s.job.model, s.job.generation, pending, provider, 0);
    var s1 := s.(db := run.db, job := s.job.(model := run.model));
    if run.raised then s1.(job := s1.job.(status := P.Failed)) else Settle(s1, s.job.model)
  }

  /** `purge_switched` on this knowledge base: everything but the serving pair goes. */
  function PurgeSwitched(s: State): State {
    s.(db := PurgeOtherVersions(s.db, s.kb.model, s.kb.generation))
  }

  /** The active chunks with a vector of a pair. */
  function Candidates(db: Tables, model: string, generation: nat): set<ChunkId> {
    set c | c in ActiveChunks(db) && Vector(c, model, generation) in db.vectors
  }

  /** The name a search runs under: it embeds the query with the model of the knowledge base and looks for
      vectors of the model the provider then reports. */
  function SearchName(kb: Kb, fallback: string, report: string -> string): string {
    report(ModelFor(kb, fallback))
  }

  /** What a search ranks. */
  function Searched(s: State, fallback: string, report: string -> string): set<ChunkId> {
    Candidates(s.db, SearchName(s.kb, fallback, report), s.kb.generation)
  }

  function SupersededWith(db: Tables, model: string, generation: nat): set<ChunkId> {
    set c | c in db.chunks && db.chunks[c].superseded && Vector(c, model, generation) in db.vectors
  }

  // ---- The gate ----

  lemma {:induction false} VectorsForSize(cs: set<ChunkId>, model: string, generation: nat)
    ensures |VectorsFor(cs, model, generation)| == |cs|
  {
    if cs != {} {
      var c :| c in cs;
      VectorsForSize(cs - {c}, model, generation);
      assert VectorsFor(cs, model, generation) == VectorsFor(cs - {c}, model, generation) + {Vector(c, model, generation)};
    }
  }

  /** The count behind the gate adds the superseded chunks to the ones that matter. */
  lemma CountSplits(db: Tables, model: string, generation: nat)
    requires ForeignKeys(db)
    ensures CountForVersion(db, model, generation) == |Candidates(db, model, generation)| + |SupersededWith(db, model, generation)|
    ensures |ActiveChunks(db)| == |Candidates(db, model, generation)| + |WithoutVector(db, ActiveChunks(db), model, generation)|
  {
    var cs := Candidates(db, model, generation) + SupersededWith(db, model, generation);
    VectorsForSize(cs, model, generation);
    assert (set v | v in db.vectors && v.model == model && v.generation == generation) == VectorsFor(cs, model, generation) by {
      forall v | v in db.vectors && v.model == model && v.generation == generation ensures v in VectorsFor(cs, model, generation) {
        assert v == Vector(v.chunk, model, generation) && v.chunk in db.chunks;
        assert v.chunk in cs;
      }
    }
    assert ActiveChunks(db) == Candidates(db, model, generation) + WithoutVector(db, ActiveChunks(db), model, generation);
  }

  /** Exactly when the gate opens: superseded chunks holding a target vector make up for active chunks
      that have none. */
  lemma GateExact(db: Tables, model: string, generation: nat)
    requires ForeignKeys(db)
    ensures GatePasses(db, model, generation) <==>
              |SupersededWith(db, model, generation)| >= |WithoutVector(db, ActiveChunks(db), model, generation)|
  {
    CountSplits(db, model, generation);
  }

  /** With no such superseded chunk the gate means what it says. */
  lemma GateSound(db: Tables, model: string, generation: nat)
    requires ForeignKeys(db) && SupersededWith(db, model, generation) == {}
    ensures GatePasses(db, model, generation) <==> Candidates(db, model, generation) == ActiveChunks(db)
  {
    GateExact(db, model, generation);
    if Candidates(db, model, generation) == ActiveChunks(db) {
      assert WithoutVector(db, ActiveChunks(db), model, generation) == {};
    } else {
      var c :| c in ActiveChunks(db) && c !in Candidates(db, model, generation);
      assert c in WithoutVector(db, ActiveChunks(db), model, generation);
    }
  }

  // ---- One advance ----

  lemma {:induction false} EmbedAllFrame(db: Tables, model: string, generation: nat, pending: seq<ChunkId>, provider: Provider, call: nat)
    ensures var run := EmbedAll(db, model, generation, pending, provider, call);
            && run.db.chunks == db.chunks && run.db.docs == db.docs && db.vectors <= run.db.vectors
            && (forall v :: v in run.db.vectors && v !in db.vectors ==> v.generation == generation && v.chunk in pending)
    ensures model != "" ==> EmbedAll(db, model, generation, pending, provider, call).model != ""
    decreases |pending|
  {
    if pending != [] && provider(call, model).Named? {
      var batch := L.BatchOf(pending);
      var name := Used(provider(call, model).model, model);
      var db1 := db.(vectors := db.vectors + VectorsFor(L.Elements(batch), name, generation));
      EmbedAllFrame(db1, name, generation, pending[|batch|..], provider, call + 1);
      assert pending == batch + pending[|batch|..];
    }
  }

  /** A failed call keeps what earlier calls have stored, and a completed run has stored a vector of the
      target generation, under some name, for every chunk of the list. */
  lemma {:induction false} EmbedAllReaches(db: Tables, model: string, generation: nat, pending: seq<ChunkId>, provider: Provider, call: nat, c: ChunkId)
    requires c in pending
    ensures var run := EmbedAll(db, model, generation, pending, provider, call);
            !run.raised ==> exists name :: Vector(c, name, generation) in run.db.vectors
    decreases |pending|
  {
    if provider(call, model).Named? {
      var batch := L.BatchOf(pending);
      var name := Used(provider(call, model).model, model);
      var db1 := db.(vectors := db.vectors + VectorsFor(L.Elements(batch), name, generation));
      assert pending == batch + pending[|batch|..];
      if c in batch {
        EmbedAllFrame(db1, name, generation, pending[|batch|..], provider, call + 1);
        assert Vector(c, name, generation) in db1.vectors;
      } else {
        EmbedAllReaches(db1, name, generation, pending[|batch|..], provider, call + 1, c);
      }
    }
  }

  ghost predicate Resolves(provider: Provider, res: string -> string) {
    forall call, m :: provider(call, m) == Named(res(m))
  }

  lemma {:induction false} RaisedWhenDown(db: Tables, model: string, generation: nat, pending: seq<ChunkId>, provider: Provider, call: nat)
    ensures var run := EmbedAll(db, model, generation, pending, provider, call);
            (run.raised ==> exists k :: call <= k && provider(k, run.model).Down?)
    ensures pending != [] && provider(call, model).Down? ==> EmbedAll(db, model, generation, pending, provider, call) == Run(db, model, true)
    decreases |pending|
  {
    if pending != [] && provider(call, model).Named? {
      var batch := L.BatchOf(pending);
      var name := Used(provider(call, model).model, model);
      RaisedWhenDown(db.(vectors := db.vectors + VectorsFor(L.Elements(batch), name, generation)), name, generation, pending[|batch|..], provider, call + 1);
    }
  }

  /** An advance fails its job exactly when a call fails: the knowledge base stays, and so does what the calls
      before it have stored, under the name the last of them reported. */
  lemma AdvanceFailsExactly(s: State, pending: seq<ChunkId>, provider: Provider)
    requires s.job.status == P.Embedding
    ensures var run, s1 := EmbedAll(s.db, s.job.model, s.job.generation, pending, provider, 0), AdvanceEmbedding(s, pending, provider);
            && (s1.job.status == P.Failed <==> run.raised)
            && (run.raised ==>
                  && s1 == State(run.db, s.kb, s.job.(status := P.Failed, model := run.model)) && s.db.vectors <= run.db.vectors
                  && exists k: nat :: provider(k, run.model).Down?)
  {
    RaisedWhenDown(s.db, s.job.model, s.job.generation, pending, provider, 0);
    EmbedAllFrame(s.db, s.job.model, s.job.generation, pending, provider, 0);
  }

  /** A provider that resolves a name once and for all files the whole list under the resolved name. */
  lemma {:induction false} EmbedAllResolved(db: Tables, model: string, generation: nat, pending: seq<ChunkId>, provider: Provider, call: nat, res: string -> string)
    requires Resolves(provider, res)
    requires Used(res(Used(res(model), model)), Used(res(model), model)) == Used(res(model), model)
    ensures var run := EmbedAll(db, model, generation, pending, provider, call);
            && !run.raised && run.model == (if pending == [] then model else Used(res(model), model))
            && run.db == db.(vectors := db.vectors + VectorsFor(L.Elements(pending), Used(res(model), model), generation))
    decreases |pending|
  {
    var name := Used(res(model), model);
    if pending == [] {
      assert VectorsFor(L.Elements(pending), name, generation) == {};
    } else {
      var batch := L.BatchOf(pending);
      var rest := pending[|batch|..];
      var db1 := db.(vectors := db.vectors + VectorsFor(L.Elements(batch), name, generation));
      assert provider(call, model) == Named(res(model));
      EmbedAllResolved(db1, name, generation, rest, provider, call + 1, res);
      assert pending == batch + rest;
      assert VectorsFor(L.Elements(pending), name, generation) ==
             VectorsFor(L.Elements(batch), name, generation) + VectorsFor(L.Elements(rest), name, generation);
    }
  }

  lemma FrameKeepsKeys(s: State, pending: seq<ChunkId>, provider: Provider)
    requires ForeignKeys(s.db) && IsPending(s, pending)
    ensures ForeignKeys(AdvanceEmbedding(s, pending, provider).db)
    ensures ActiveChunks(AdvanceEmbedding(s, pending, provider).db) == ActiveChunks(s.db)
    ensures s.db.vectors <= AdvanceEmbedding(s, pending, provider).db.vectors
  {
    EmbedAllFrame(s.db, s.job.model, s.job.generation, pending, provider, 0);
  }

  /** Whatever has happened to the tables since its calls, a job switches exactly when every active chunk
      is filed under the name it asked for; until then the knowledge base is untouched. Search then ranks
      every active chunk exactly when the provider reports that name for it, or every active chunk is also
      filed under the name it does report. */
  lemma SwitchIsComplete(s: State, asked: string, fallback: string, report: string -> string)
    requires ForeignKeys(s.db) && s.job.status == P.Embedding && asked != ""
    requires SupersededWith(s.db, asked, s.job.generation) == {}
    ensures var s1 := Settle(s, asked);
            && s1.db == s.db
            && (s1.job.status == Completed <==> Candidates(s.db, asked, s.job.generation) == ActiveChunks(s.db))
            && (s1.job.status == Completed ==>
                  (Searched(s1, fallback, report) == ActiveChunks(s.db) <==>
                     report(asked) == asked || Covered(s.db, ActiveChunks(s.db), report(asked), s.job.generation)))
            && (s1.job.status != Completed ==> s1.kb == s.kb && s1.job.status == P.Embedding && s1.job.embedded < s1.job.total)
  {
    GateSound(s.db, asked, s.job.generation);
    CandidatesCovered(s.db, report(asked), s.job.generation);
  }

  lemma CandidatesCovered(db: Tables, model: string, generation: nat)
    ensures Candidates(db, model, generation) == ActiveChunks(db) <==> Covered(db, ActiveChunks(db), model, generation)
  {
    if Candidates(db, model, generation) == ActiveChunks(db) {
      forall c | c in ActiveChunks(db) ensures Vector(c, model, generation) in db.vectors {
        assert c in Candidates(db, model, generation);
      }
    }
  }

  /** Until it switches, an advance leaves the knowledge base as it was and what search ranks no smaller,
      whatever name the provider reports. */
  lemma AdvanceKeepsServing(s: State, pending: seq<ChunkId>, provider: Provider, fallback: string, report: string -> string)
    requires ForeignKeys(s.db) && IsPending(s, pending) && s.job.status == P.Embedding
    ensures var s1 := AdvanceEmbedding(s, pending, provider);
            s1.job.status != Completed ==> s1.kb == s.kb && Searched(s, fallback, report) <= Searched(s1, fallback, report)
  {
    FrameKeepsKeys(s, pending, provider);
  }

  /** When the provider keeps the name the job asks for, one advance completes it, whatever superseded
      chunks carry. */
  lemma SettledNameCompletes(s: State, pending: seq<ChunkId>, provider: Provider, res: string -> string, fallback: string)
    requires ForeignKeys(s.db) && IsPending(s, pending) && s.job.status == P.Embedding
    requires Resolves(provider, res) && Used(res(s.job.model), s.job.model) == s.job.model
    ensures var s1 := AdvanceEmbedding(s, pending, provider);
            && s1.job.status == Completed && s1.kb == Switch(s.kb, s.job, s.job.model)
            && Candidates(s1.db, s1.kb.model, s1.kb.generation) == ActiveChunks(s1.db)
            && (s.job.model != "" && res(s.job.model) == s.job.model ==> Searched(s1, fallback, res) == ActiveChunks(s1.db))
  {
    EmbedAllResolved(s.db, s.job.model, s.job.generation, pending, provider, 0, res);
    FrameKeepsKeys(s, pending, provider);
    var db := EmbedAll(s.db, s.job.model, s.job.generation, pending, provider, 0).db;
    forall c | c in ActiveChunks(db) ensures Vector(c, s.job.model, s.job.generation) in db.vectors {
      if c !in WithoutVector(s.db, ActiveChunks(s.db), s.job.model, s.job.generation) {
        assert Vector(c, s.job.model, s.job.generation) in s.db.vectors;
      } else {
        assert c in L.Elements(pending);
      }
    }
    assert WithoutVector(db, ActiveChunks(db), s.job.model, s.job.generation) == {};
    GateExact(db, s.job.model, s.job.generation);
  }

  /** A job that completes in its first advance although the provider reports another name: search then
      misses exactly the active chunks that had a vector under the requested name and none under the
      reported one. */
  lemma AliasSwitch(s: State, pending: seq<ChunkId>, provider: Provider, res: string -> string, fallback: string)
    requires ForeignKeys(s.db) && IsPending(s, pending) && s.job.status == P.Embedding && s.job.model != ""
    requires Resolves(provider, res) && res(s.job.model) != "" && res(res(s.job.model)) == res(s.job.model)
    ensures var s1 := AdvanceEmbedding(s, pending, provider);
            var m, name, g := s.job.model, res(s.job.model), s.job.generation;
            s1.job.status == Completed ==>
              && s1.kb.model == m
              && (Searched(s1, fallback, res) == ActiveChunks(s1.db) <==>
                    forall c :: c in Candidates(s.db, m, g) ==> c in Candidates(s.db, name, g))
              && ActiveChunks(s1.db) - Searched(s1, fallback, res) == if m == name then {} else Candidates(s.db, m, g) - Candidates(s.db, name, g)
  {
    var m, name, g := s.job.model, res(s.job.model), s.job.generation;
    EmbedAllResolved(s.db, m, g, pending, provider, 0, res);
    FrameKeepsKeys(s, pending, provider);
    var s1 := AdvanceEmbedding(s, pending, provider);
    if s1.job.status == Completed {
      forall c | c in ActiveChunks(s.db)
        ensures c in Candidates(s1.db, name, g) <==> c !in Candidates(s.db, m, g) || c in Candidates(s.db, name, g) || m == name
      {
        assert c in L.Elements(pending) <==> c !in Candidates(s.db, m, g);
        assert Vector(c, name, g) in VectorsFor(L.Elements(pending), name, g) <==> c in L.Elements(pending);
      }
    }
  }

  /** The clean-up of old vectors keeps what search ranks exactly when the provider reports the stored name
      for the model of the knowledge base, or search ranked nothing. */
  lemma PurgeKeepsSearch(s: State, fallback: string, report: string -> string)
    requires ForeignKeys(s.db)
    ensures ForeignKeys(PurgeSwitched(s).db) && ActiveChunks(PurgeSwitched(s).db) == ActiveChunks(s.db)
    ensures Candidates(PurgeSwitched(s).db, s.kb.model, s.kb.generation) == Candidates(s.db, s.kb.model, s.kb.generation)
    ensures Searched(PurgeSwitched(s), fallback, report) == Searched(s, fallback, report) <==>
              SearchName(s.kb, fallback, report) == s.kb.model || Searched(s, fallback, report) == {}
    ensures SearchName(s.kb, fallback, report) != s.kb.model ==> Searched(PurgeSwitched(s), fallback, report) == {}
  {
    var s1 := PurgeSwitched(s);
    if SearchName(s.kb, fallback, report) != s.kb.model {
      assert Searched(s1, fallback, report) == {};
    } else {
      assert Searched(s1, fallback, report) == Searched(s, fallback, report);
    }
  }

  /** With name resolution idempotent and the chunks at rest, a job completes within two advances, even
      when the clean-up of old vectors runs in between and takes what the first one stored; when it takes
      two, search then ranks every active chunk. */
  lemma TwoAdvancesComplete(s: State, pending: seq<ChunkId>, provider: Provider, purge: bool, pending2: seq<ChunkId>, res: string -> string,
                            fallback: string)
    requires ForeignKeys(s.db) && IsPending(s, pending) && s.job.status == P.Embedding
    requires Resolves(provider, res) && forall m :: Used(res(Used(res(m), m)), Used(res(m), m)) == Used(res(m), m)
    ensures var s1 := AdvanceEmbedding(s, pending, provider);
            s1.job.status != Completed ==>
              var s2 := if purge then PurgeSwitched(s1) else s1;
              IsPending(s2, pending2) ==>
                var s3 := AdvanceEmbedding(s2, pending2, provider);
                var name := Used(res(s.job.model), s.job.model);
                && s3.job.status == Completed && s3.kb == Switch(s.kb, s.job, name)
                && Candidates(s3.db, s3.kb.model, s3.kb.generation) == ActiveChunks(s3.db)
                && (name != "" && res(name) == name ==> Searched(s3, fallback, res) == ActiveChunks(s3.db))
  {
    var m := s.job.model;
    var name := Used(res(m), m);
    assert Used(res(name), name) == name;
    EmbedAllResolved(s.db, m, s.job.generation, pending, provider, 0, res);
    FrameKeepsKeys(s, pending, provider);
    var s1 := AdvanceEmbedding(s, pending, provider);
    if s1.job.status != Completed {
      if pending == [] {
        assert WithoutVector(s1.db, ActiveChunks(s1.db), m, s.job.generation) == {};
        GateExact(s1.db, m, s.job.generation);
      }
      PurgeKeepsSearch(s1, fallback, res);
      var s2 := if purge then PurgeSwitched(s1) else s1;
      if IsPending(s2, pending2) {
        SettledNameCompletes(s2, pending2, provider, res, fallback);
      }
    }
  }

  /** A superseded chunk can make search lose an active one. `c1` and `c2` were computed when the provider
      still kept the requested name; it now reports `other`. Because `c1` has been superseded since, its
      vector stands in for the one of `c3` and the job switches at once, to a name for which search looks
      under `other`, where `c2` has nothing. */
  lemma SupersededChunkMasks(s: State, c1: ChunkId, c2: ChunkId, c3: ChunkId, doc: DocId, provider: Provider, res: string -> string, fallback: string)
    requires c1 != c2 && c2 != c3 && c1 != c3 && s.job.model != "" && s.job.status == P.Embedding && doc in s.db.docs
    requires s.db.chunks == map[c1 := Chunk(doc, 1, true), c2 := Chunk(doc, 2, false), c3 := Chunk(doc, 2, false)]
    requires s.db.vectors == {Vector(c1, s.job.model, s.job.generation), Vector(c2, s.job.model, s.job.generation)}
    requires Resolves(provider, res) && res(s.job.model) != "" && res(s.job.model) != s.job.model
    requires res(res(s.job.model)) == res(s.job.model)
    ensures var s1 := AdvanceEmbedding(s, [c3], provider);
            && IsPending(s, [c3]) && s1.job.status == Completed
            && ActiveChunks(s1.db) == {c2, c3} && Searched(s1, fallback, res) == {c3}
  {
    var m, name, g := s.job.model, res(s.job.model), s.job.generation;
    assert ActiveChunks(s.db) == {c2, c3};
    assert WithoutVector(s.db, ActiveChunks(s.db), m, g) == {c3};
    EmbedAllResolved(s.db, m, g, [c3], provider, 0, res);
    var db := EmbedAll(s.db, m, g, [c3], provider, 0).db;
    assert L.Elements([c3]) == {c3};
    assert db.vectors == {Vector(c1, m, g), Vector(c2, m, g), Vector(c3, name, g)};
    assert ForeignKeys(db) && ActiveChunks(db) == {c2, c3};
    assert SupersededWith(db, m, g) == {c1} && WithoutVector(db, ActiveChunks(db), m, g) == {c3};
    GateExact(db, m, g);
  }

  /** A document of one chunk ingested and embedded, its vector filed under the reported name. */
  function Ingested(s: State, d: DocId, c: ChunkId, name: string): State
    requires d in s.db.docs
  {
    match ReplaceForVersion(s.db, d, s.db.docs[d].version, {c})
    case Refused => s
    case Applied(stored) =>
      match Upsert(stored, {c}, name, s.kb.generation)
      case Refused => s
      case Applied(db) => s.(db := db)
  }

  lemma IngestedAlone(s: State, d: DocId, c: ChunkId, name: string)
    requires s.db.chunks == map[] && s.db.vectors == {} && d in s.db.docs
    ensures var s1 := Ingested(s, d, c, name);
            && s1 == s.(db := s1.db) && ForeignKeys(s1.db)
            && ActiveChunks(s1.db) == Candidates(s1.db, name, s.kb.generation) == {c}
  {
    var s1 := Ingested(s, d, c, name);
    assert s1.db.chunks == map[c := Chunk(d, s.db.docs[d].version, false)];
    assert s1.db.vectors == {Vector(c, name, s.kb.generation)};
  }

  /** Without superseded chunks the same happens to a knowledge base that is empty when its job runs. The
      job switches to the requested alias; what is ingested afterwards is filed under the reported name,
      and found there, until the clean-up of old vectors deletes it for not bearing the stored name. */
  lemma EmptyBaseLosesAll(s: State, d: DocId, c: ChunkId, provider: Provider, res: string -> string, fallback: string)
    requires s.db.chunks == map[] && s.db.vectors == {} && Visible(s.db, d)
    requires s.job.status == P.Embedding && s.job.model != "" && res(s.job.model) != s.job.model
    ensures var s1 := AdvanceEmbedding(s, [], provider);
            var s2 := Ingested(s1, d, c, SearchName(s1.kb, fallback, res));
            && IsPending(s, []) && s1.job.status == Completed && s1.kb.model == s.job.model
            && Searched(s2, fallback, res) == {c} == ActiveChunks(s2.db)
            && Searched(PurgeSwitched(s2), fallback, res) == {}
  {
    var s1 := AdvanceEmbedding(s, [], provider);
    assert ActiveChunks(s.db) == {};
    GateExact(s.db, s.job.model, s.job.generation);
    assert WithoutVector(s.db, ActiveChunks(s.db), s.job.model, s.job.generation) == {};
    var name := SearchName(s1.kb, fallback, res);
    IngestedAlone(s1, d, c, name);
    PurgeKeepsSearch(Ingested(s1, d, c, name), fallback, res);
  }
}
