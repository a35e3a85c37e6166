/** One run of `embed_document` (backend/services/knowledge/embedding.py) with no other writer: which
    chunks it sends to the provider, and what it leaves behind. */
module EmbeddingService {
  import opened T = KnowledgeTables
  import S = KnowledgeStore
  import L = DocumentLifecycle
  import R = DocumentRuns

  const BATCH_SIZE := L.BATCH_SIZE

  datatype Target = Target(doc: DocId, version: nat, status: Status, model: string, generation: nat)

  /** The provider: it reports one model name and stops answering after `answers` calls. */
  datatype Provider = Provider(reported: string, answers: nat, retryable: bool)

  datatype Result = NotFound | Skipped | Promoted(embedded: nat) | FailedForGood | Raised

  function Missing(db: Tables, t: Target, model: string): set<ChunkId> {
    WithoutVector(db, ActiveOf(db, t.doc, t.version), model, t.generation)
  }

  predicate Distinct(s: seq<ChunkId>) {
    forall i, j :: 0 <= i < j < |s| ==> s[i] != s[j]
  }

  predicate ListOf(s: seq<ChunkId>, cs: set<ChunkId>) {
    Distinct(s) && L.Lists(s, cs)
  }

  lemma {:induction false} ListSize(s: seq<ChunkId>, cs: set<ChunkId>)
    requires ListOf(s, cs)
    ensures |s| == |cs|
  {
    if s == [] {
      assert cs == {};
    } else {
      var last := s[|s| - 1];
      ListSize(s[..|s| - 1], cs - {last});
    }
  }

  /** The texts a run sends before it ends: the chunks missing under the cached name; when the provider
      answers under another name, one batch of those and then what is missing under that name. */
  function TextsSent(db: Tables, t: Target, cached: string, first: set<ChunkId>, reported: string): nat {
    if cached == reported then |Missing(db, t, reported)| else |first| + |Missing(db, t, reported) - first|
  }

  /** Where the loop stands: `db0` are the tables it started from, `cached` the name it started with. */
  datatype Progress = Progress(name: string, pending: seq<ChunkId>, start: nat, embedded: nat, first: set<ChunkId>)

  ghost predicate OnlyAdds(db0: Tables, db: Tables, t: Target, reported: string) {
    && db.docs == db0.docs && db.chunks == db0.chunks && db0.vectors <= db.vectors
    && forall v :: v in db.vectors && v !in db0.vectors ==>
         v.model == reported && v.generation == t.generation && v.chunk in ActiveOf(db0, t.doc, t.version)
  }

  ghost predicate WorkOk(db0: Tables, db: Tables, t: Target, p: Progress) {
    && p.start <= |p.pending| && Distinct(p.pending)
    && (forall c :: c in p.pending ==> c in ActiveOf(db0, t.doc, t.version))
    && (forall c :: c in ActiveOf(db0, t.doc, t.version) && c !in p.pending[p.start..] ==>
          Vector(c, p.name, t.generation) in db.vectors)
  }

  ghost predicate CountOk(db0: Tables, db: Tables, t: Target, cached: string, reported: string, p: Progress) {
    && p.first <= Missing(db0, t, cached) && |p.first| <= 64
    && (p.name == reported ==> p.embedded + (|p.pending| - p.start) == TextsSent(db0, t, cached, p.first, reported))
    && (p.name != reported ==> p.name == cached && p.start == 0 && p.embedded == 0 && db == db0 && p.first == {})
    && (p.name == cached ==> L.Lists(p.pending, Missing(db0, t, cached)))
    && (p.name != cached ==> Missing(db0, t, cached) != {})
  }

  ghost predicate Invariant(db0: Tables, db: Tables, t: Target, cached: string, reported: string, p: Progress) {
    && (p.name == cached || p.name == reported)
    && OnlyAdds(db0, db, t, reported) && WorkOk(db0, db, t, p) && CountOk(db0, db, t, cached, reported, p)
  }

  lemma StartOk(db0: Tables, t: Target, cached: string, reported: string, pending: seq<ChunkId>)
    requires ListOf(pending, Missing(db0, t, cached))
    ensures Invariant(db0, db0, t, cached, reported, Progress(cached, pending, 0, 0, {}))
  {
    ListSize(pending, Missing(db0, t, cached));
    assert pending[0..] == pending;
  }

  function BatchAt(p: Progress): seq<ChunkId>
    requires p.start <= |p.pending|
  {
    if |p.pending| - p.start <= BATCH_SIZE then p.pending[p.start..] else p.pending[p.start..p.start + BATCH_SIZE]
  }

  lemma BatchInside(db0: Tables, db: Tables, t: Target, p: Progress)
    requires WorkOk(db0, db, t, p)
    ensures L.Elements(BatchAt(p)) <= ActiveOf(db0, t.doc, t.version)
    ensures Distinct(BatchAt(p))
    ensures p.pending[p.start..] == BatchAt(p) + p.pending[p.start + |BatchAt(p)|..]
  {
    assert forall c :: c in BatchAt(p) ==> c in p.pending;
  }

  function Written(db: Tables, t: Target, reported: string, p: Progress): Tables
    requires p.start <= |p.pending|
  {
    db.(vectors := db.vectors + VectorsFor(L.Elements(BatchAt(p)), reported, t.generation))
  }

  /** A batch answered under the name that was looked up. */
  lemma SameName(db0: Tables, db: Tables, t: Target, cached: string, reported: string, p: Progress)
    requires Invariant(db0, db, t, cached, reported, p) && p.name == reported && p.start < |p.pending|
    ensures Invariant(db0, Written(db, t, reported, p), t, cached, reported,
                      p.(start := p.start + |BatchAt(p)|, embedded := p.embedded + |BatchAt(p)|))
  {
    BatchInside(db0, db, t, p);
    var batch := BatchAt(p);
    var rest := p.pending[p.start + |batch|..];
    forall c | c in ActiveOf(db0, t.doc, t.version) && c !in rest
      ensures Vector(c, p.name, t.generation) in Written(db, t, reported, p).vectors
    {
      if c in p.pending[p.start..] {
        assert c in batch;
      }
    }
  }

  /** The first batch answered under another name: the list is asked for again. */
  lemma OtherName(db0: Tables, db: Tables, t: Target, cached: string, reported: string, p: Progress, pending: seq<ChunkId>)
    requires Invariant(db0, db, t, cached, reported, p) && p.name != reported && p.start < |p.pending|
    requires ListOf(pending, Missing(Written(db, t, reported, p), t, reported))
    ensures Invariant(db0, Written(db, t, reported, p), t, cached, reported,
                      Progress(reported, pending, 0, |BatchAt(p)|, L.Elements(BatchAt(p))))
  {
    BatchInside(db0, db, t, p);
    var first := L.Elements(BatchAt(p));
    var db1 := Written(db, t, reported, p);
    assert p.pending[0..] == p.pending && pending[0..] == pending;
    ListSize(BatchAt(p), first);
    ListSize(pending, Missing(db1, t, reported));
    assert Missing(db1, t, reported) == Missing(db0, t, reported) - first;
    assert first <= Missing(db0, t, cached) by {
      assert forall c :: c in BatchAt(p) ==> c in p.pending;
    }
    assert p.pending[0] in Missing(db0, t, cached);
  }

  /** What the loop leaves behind. A run that ends has covered every active chunk of the snapshotted
      version under `lookup`, and sent exactly the texts `TextsSent` says. */
  ghost predicate EmbedOutcome(db0: Tables, db: Tables, t: Target, cached: string, reported: string,
                               raised: bool, embedded: nat, lookup: string, first: set<ChunkId>)
  {
    && first <= Missing(db0, t, cached) && |first| <= 64
    && (!raised ==>
          && Covered(db, ActiveOf(db, t.doc, t.version), lookup, t.generation)
          && (if Missing(db0, t, cached) == {} then embedded == 0
              else lookup == reported && embedded == TextsSent(db0, t, cached, first, reported)))
  }

  lemma FinishOk(db0: Tables, db: Tables, t: Target, cached: string, reported: string, p: Progress)
    requires Invariant(db0, db, t, cached, reported, p) && p.start >= |p.pending|
    ensures EmbedOutcome(db0, db, t, cached, reported, false, p.embedded, p.name, p.first)
  {
    assert p.pending[p.start..] == [];
    assert ActiveOf(db, t.doc, t.version) == ActiveOf(db0, t.doc, t.version);
    if p.name == cached && Missing(db0, t, cached) != {} {
      var c :| c in Missing(db0, t, cached);
      assert c in p.pending;
    }
  }

  // ---- The steps of the protocol behind a run ----

  predicate OfTask(step: L.Step, id: L.TaskId) {
    (step.Snapshot? || R.TaskStep(step)) && step.t == id
  }

  /** One task, and nobody else, leads from one world to another. */
  ghost predicate TaskRun(cfg: L.Setting, w: L.World, id: L.TaskId, w1: L.World) {
    exists worlds, steps ::
      R.Joined(cfg, worlds, steps) && worlds[0] == w && worlds[|steps|] == w1 && forall i :: 0 <= i < |steps| ==> OfTask(steps[i], id)
  }

  lemma TaskRunStarts(cfg: L.Setting, w: L.World, id: L.TaskId)
    ensures TaskRun(cfg, w, id, w)
  {
    assert R.Joined(cfg, [w], []);
  }

  lemma TaskRunOn(cfg: L.Setting, w: L.World, id: L.TaskId, w1: L.World, step: L.Step, w2: L.World)
    requires TaskRun(cfg, w, id, w1) && OfTask(step, id) && L.Enabled(cfg, w1, step) && w2 == L.Apply(cfg, w1, step)
    ensures TaskRun(cfg, w, id, w2)
  {
    var worlds, steps :|
      R.Joined(cfg, worlds, steps) && worlds[0] == w && worlds[|steps|] == w1 && forall i :: 0 <= i < |steps| ==> OfTask(steps[i], id);
    assert R.Joined(cfg, worlds + [w2], steps + [step]);
  }

  lemma {:induction false} JoinedKeeps(cfg: L.Setting, worlds: seq<L.World>, steps: seq<L.Step>, id: L.TaskId, n: nat)
    requires R.Joined(cfg, worlds, steps) && L.Inv(cfg, worlds[0]) && n <= |steps| && forall i :: 0 <= i < |steps| ==> OfTask(steps[i], id)
    ensures L.Inv(cfg, worlds[n])
  {
    if n > 0 {
      JoinedKeeps(cfg, worlds, steps, id, n - 1);
      assert OfTask(steps[n - 1], id);
      R.StepKeeps(cfg, worlds[n - 1], steps[n - 1]);
    }
  }

  /** A task that runs alone keeps the invariant of the protocol, so a document it leaves as ready is
      covered. */
  lemma TaskRunKeeps(cfg: L.Setting, w: L.World, id: L.TaskId, w1: L.World, d: DocId)
    requires TaskRun(cfg, w, id, w1) && L.Inv(cfg, w)
    ensures L.Inv(cfg, w1)
    ensures Visible(w1.db, d) && w1.db.docs[d].status == Ready ==>
              exists model :: Covered(w1.db, L.Current(w1, d), model, cfg.generation)
  {
    var worlds, steps :|
      R.Joined(cfg, worlds, steps) && worlds[0] == w && worlds[|steps|] == w1 && forall i :: 0 <= i < |steps| ==> OfTask(steps[i], id);
    JoinedKeeps(cfg, worlds, steps, id, |steps|);
    assert d in w1.db.docs ==> L.DocOk(cfg, w1, d);
  }

  /** Where the loop stands in the protocol. */
  ghost predicate Tracks(cfg: L.Setting, w0: L.World, id: L.TaskId, w: L.World, db: Tables, t: Target, name: string, rest: seq<ChunkId>) {
    && cfg.generation == t.generation && TaskRun(cfg, w0, id, w) && w.db == db
    && id in w.tasks && w.tasks[id] == L.Working(t.doc, t.version, name, rest)
  }

  lemma TracksQuery(cfg: L.Setting, w0: L.World, id: L.TaskId, w: L.World, t: Target, name: string, listing: seq<ChunkId>) returns (w1: L.World)
    requires cfg.generation == t.generation && TaskRun(cfg, w0, id, w) && id in w.tasks
    requires w.tasks[id] == L.Entered(t.doc, t.version) || w.tasks[id] == L.Requerying(t.doc, t.version, name)
    requires ListOf(listing, Missing(w.db, t, name))
    ensures Tracks(cfg, w0, id, w1, w.db, t, name, listing)
  {
    w1 := L.Apply(cfg, w, L.Query(id, name, listing));
    TaskRunOn(cfg, w0, id, w, L.Query(id, name, listing), w1);
  }

  /** A batch, under the name looked up or another one. */
  lemma TracksBatch(cfg: L.Setting, w0: L.World, id: L.TaskId, w: L.World, t: Target, p: Progress, reported: string) returns (w1: L.World)
    requires p.start < |p.pending| && Tracks(cfg, w0, id, w, w.db, t, p.name, p.pending[p.start..]) && reported != ""
    requires L.Elements(BatchAt(p)) <= w.db.chunks.Keys
    ensures TaskRun(cfg, w0, id, w1) && w1.db == Written(w.db, t, reported, p) && id in w1.tasks
    ensures w1.tasks[id] == if reported == p.name then L.Working(t.doc, t.version, p.name, p.pending[p.start + |BatchAt(p)|..])
                            else L.Requerying(t.doc, t.version, reported)
  {
    assert L.BatchOf(p.pending[p.start..]) == BatchAt(p);
    assert p.pending[p.start..][|BatchAt(p)|..] == p.pending[p.start + |BatchAt(p)|..];
    w1 := L.Apply(cfg, w, L.Batch(id, reported));
    TaskRunOn(cfg, w0, id, w, L.Batch(id, reported), w1);
  }

  /** The loop's account of its work and its place in the protocol. */
  ghost predicate LoopOk(cfg: L.Setting, w0: L.World, id: L.TaskId, w: L.World, db0: Tables, db: Tables, t: Target, cached: string,
                         reported: string, p: Progress)
  {
    Invariant(db0, db, t, cached, reported, p) && p.start <= |p.pending| && Tracks(cfg, w0, id, w, db, t, p.name, p.pending[p.start..])
  }

  lemma LoopStarts(cfg: L.Setting, w0: L.World, id: L.TaskId, t: Target, cached: string, reported: string, pending: seq<ChunkId>)
    returns (w: L.World)
    requires cfg.generation == t.generation && id in w0.tasks && w0.tasks[id] == L.Entered(t.doc, t.version)
    requires ListOf(pending, Missing(w0.db, t, cached))
    ensures LoopOk(cfg, w0, id, w, w0.db, w0.db, t, cached, reported, Progress(cached, pending, 0, 0, {}))
  {
    StartOk(w0.db, t, cached, reported, pending);
    TaskRunStarts(cfg, w0, id);
    w := TracksQuery(cfg, w0, id, w0, t, cached, pending);
    assert pending[0..] == pending;
  }

  lemma SameRound(cfg: L.Setting, w0: L.World, id: L.TaskId, w: L.World, db0: Tables, db: Tables, t: Target, cached: string,
                  reported: string, p: Progress) returns (w1: L.World)
    requires LoopOk(cfg, w0, id, w, db0, db, t, cached, reported, p) && p.name == reported && p.start < |p.pending| && reported != ""
    ensures LoopOk(cfg, w0, id, w1, db0, Written(db, t, reported, p), t, cached, reported,
                   p.(start := p.start + |BatchAt(p)|, embedded := p.embedded + |BatchAt(p)|))
  {
    BatchStored(cfg, w0, id, w, db0, db, t, cached, reported, p);
    w1 := TracksBatch(cfg, w0, id, w, t, p, reported);
    SameName(db0, db, t, cached, reported, p);
  }

  lemma OtherRound(cfg: L.Setting, w0: L.World, id: L.TaskId, w: L.World, db0: Tables, db: Tables, t: Target, cached: string,
                   reported: string, p: Progress, pending: seq<ChunkId>) returns (w1: L.World)
    requires LoopOk(cfg, w0, id, w, db0, db, t, cached, reported, p) && p.name != reported && p.start < |p.pending| && reported != ""
    requires ListOf(pending, Missing(Written(db, t, reported, p), t, reported))
    ensures LoopOk(cfg, w0, id, w1, db0, Written(db, t, reported, p), t, cached, reported,
                   Progress(reported, pending, 0, |BatchAt(p)|, L.Elements(BatchAt(p))))
  {
    BatchInside(db0, db, t, p);
    var w2 := TracksBatch(cfg, w0, id, w, t, p, reported);
    w1 := TracksQuery(cfg, w0, id, w2, t, reported, pending);
    OtherName(db0, db, t, cached, reported, p, pending);
    assert pending[0..] == pending;
  }

  lemma BatchStored(cfg: L.Setting, w0: L.World, id: L.TaskId, w: L.World, db0: Tables, db: Tables, t: Target, cached: string,
                    reported: string, p: Progress)
    requires LoopOk(cfg, w0, id, w, db0, db, t, cached, reported, p)
    ensures L.Elements(BatchAt(p)) <= db.chunks.Keys
  {
    BatchInside(db0, db, t, p);
  }

  lemma NothingSentYet(cfg: L.Setting, w0: L.World, id: L.TaskId, w: L.World, db0: Tables, db: Tables, t: Target, cached: string,
                       reported: string, p: Progress)
    requires LoopOk(cfg, w0, id, w, db0, db, t, cached, reported, p) && p.name != reported
    ensures p.embedded == 0 && p.start == 0
  {}

  /** What the loop leaves, and where it leaves the task. */
  ghost predicate LoopDone(cfg: L.Setting, w0: L.World, id: L.TaskId, w: L.World, db0: Tables, db: Tables, t: Target, cached: string,
                           reported: string, raised: bool, embedded: nat, lookup: string, first: set<ChunkId>)
  {
    && OnlyAdds(db0, db, t, reported) && EmbedOutcome(db0, db, t, cached, reported, raised, embedded, lookup, first)
    && exists rest :: Tracks(cfg, w0, id, w, db, t, lookup, rest) && (rest == [] <==> !raised)
  }

  lemma LoopEnds(cfg: L.Setting, w0: L.World, id: L.TaskId, w: L.World, db0: Tables, db: Tables, t: Target, cached: string,
                 reported: string, p: Progress, raised: bool)
    requires LoopOk(cfg, w0, id, w, db0, db, t, cached, reported, p) && (raised <==> p.start < |p.pending|)
    ensures LoopDone(cfg, w0, id, w, db0, db, t, cached, reported, raised, p.embedded, p.name, p.first)
  {
    assert Tracks(cfg, w0, id, w, db, t, p.name, p.pending[p.start..]);
    if !raised {
      FinishOk(db0, db, t, cached, reported, p);
    }
  }

  class Service {
    const store: S.Store
    // What the provider last resolved a requested name to.
    var aliases: map<string, string>

    constructor (store: S.Store)
      ensures this.store == store && forall m :: ResolvedModel(m) == m
    {
      this.store := store;
      aliases := map[];
    }

    function ResolvedModel(requested: string): string
      reads this
    {
      if requested in aliases && aliases[requested] != "" then aliases[requested] else requested
    }

    method PendingChunks(t: Target, model: string) returns (pending: seq<ChunkId>)
      ensures ListOf(pending, Missing(store.Db(), t, model))
    {
      var rest := Missing(store.Db(), t, model);
      pending := [];
      while rest != {}
        invariant rest <= Missing(store.Db(), t, model)
        invariant ListOf(pending, Missing(store.Db(), t, model) - rest)
        decreases rest
      {
        var c :| c in rest;
        rest := rest - {c};
        pending := pending + [c];
      }
    }

    method Remember(requested: string, reported: string)
      requires reported != ""
      modifies this`aliases
      ensures ResolvedModel(requested) == reported && forall m :: m != requested ==> ResolvedModel(m) == old(ResolvedModel(m))
    {
      aliases := aliases[requested := reported];
    }

    /** One call to the provider and one upsert. */
    method SendBatch(t: Target, reported: string, pending: seq<ChunkId>, start: nat, ghost p: Progress) returns (batch: seq<ChunkId>)
      requires p.pending == pending && p.start == start < |pending|
      requires L.Elements(BatchAt(p)) <= store.chunks.Keys
      modifies store`vectors
      ensures store.Db() == Written(old(store.Db()), t, reported, p)
      ensures batch == BatchAt(p) && |batch| > 0
    {
      batch := if |pending| - start <= BATCH_SIZE then pending[start..] else pending[start..start + BATCH_SIZE];
      var ok := store.Upsert(L.Elements(batch), reported, t.generation);
    }

    /** One round of the loop: a batch, and a new list when the provider answered under another name. */
    method Round(t: Target, reported: string, name: string, pending: seq<ChunkId>, start: nat, embedded: nat, ghost first: set<ChunkId>,
                 ghost cfg: L.Setting, ghost w0: L.World, ghost id: L.TaskId, ghost w: L.World, ghost cached: string)
      returns (name1: string, pending1: seq<ChunkId>, start1: nat, embedded1: nat, ghost first1: set<ChunkId>, ghost w1: L.World)
      requires reported != "" && start < |pending| && ResolvedModel(t.model) == name
      requires LoopOk(cfg, w0, id, w, w0.db, store.Db(), t, cached, reported, Progress(name, pending, start, embedded, first))
      modifies this`aliases, store`vectors
      ensures LoopOk(cfg, w0, id, w1, w0.db, store.Db(), t, cached, reported, Progress(name1, pending1, start1, embedded1, first1))
      ensures ResolvedModel(t.model) == name1 && forall m :: m != t.model ==> ResolvedModel(m) == old(ResolvedModel(m))
      ensures name1 == reported && (name == reported ==> |pending1| - start1 < |pending| - start)
    {
      ghost var p := Progress(name, pending, start, embedded, first);
      ghost var db := store.Db();
      BatchStored(cfg, w0, id, w, w0.db, db, t, cached, reported, p);
      var batch := SendBatch(t, reported, pending, start, p);
      name1, embedded1, first1 := reported, embedded + |batch|, first;
      if reported != name {
        Remember(t.model, reported);
        pending1 := PendingChunks(t, reported);
        start1, first1 := 0, L.Elements(batch);
        NothingSentYet(cfg, w0, id, w, w0.db, db, t, cached, reported, p);
        w1 := OtherRound(cfg, w0, id, w, w0.db, db, t, cached, reported, p, pending1);
      } else {
        pending1, start1 := pending, start + |batch|;
        w1 := SameRound(cfg, w0, id, w, w0.db, db, t, cached, reported, p);
      }
    }

    /** The loop over the batches. `first` is the batch sent under the cached name. */
    method EmbedPending(t: Target, provider: Provider, ghost cfg: L.Setting, ghost w0: L.World, ghost id: L.TaskId)
      returns (embedded: nat, batches: nat, raised: bool, ghost lookup: string, ghost first: set<ChunkId>, ghost w: L.World)
      requires provider.reported != "" && cfg.generation == t.generation
      requires w0.db == store.Db() && id in w0.tasks && w0.tasks[id] == L.Entered(t.doc, t.version)
      modifies this`aliases, store`vectors
      ensures LoopDone(cfg, w0, id, w, w0.db, store.Db(), t, old(ResolvedModel(t.model)), provider.reported, raised, embedded, lookup, first)
      ensures raised ==> batches == provider.answers
      ensures ResolvedModel(t.model) == lookup && forall m :: m != t.model ==> ResolvedModel(m) == old(ResolvedModel(m))
    {
      var name := ResolvedModel(t.model);
      ghost var cached := name;
      var pending := PendingChunks(t, name);
      embedded, batches, raised, first := 0, 0, false, {};
      var start: nat := 0;
      w := LoopStarts(cfg, w0, id, t, cached, provider.reported, pending);
      while start < |pending| && batches < provider.answers
        invariant LoopOk(cfg, w0, id, w, w0.db, store.Db(), t, cached, provider.reported, Progress(name, pending, start, embedded, first))
        invariant batches <= provider.answers
        invariant ResolvedModel(t.model) == name && forall m :: m != t.model ==> ResolvedModel(m) == old(ResolvedModel(m))
        decreases if name == provider.reported then 0 else 1, |pending| - start
      {
        name, pending, start, embedded, first, w :=
          Round(t, provider.reported, name, pending, start, embedded, first, cfg, w0, id, w, cached);
        batches := batches + 1;
      }
      raised := start < |pending|;
      lookup := name;
      LoopEnds(cfg, w0, id, w, w0.db, store.Db(), t, cached, provider.reported, Progress(name, pending, start, embedded, first), raised);
    }

    /** The guarded write that ends a run: promotion, permanent failure, or none when the task is retried. */
    method Conclude(t: Target, embedded: nat, raised: bool, retryable: bool) returns (result: Result)
      requires StatusMatches(store.Db(), t.doc, Expect({Embedding}), Expect(t.version))
      modifies store`docs
      ensures result == if !raised then Promoted(embedded) else if retryable then Raised else FailedForGood
      ensures store.docs == old(store.docs)[t.doc := old(store.docs)[t.doc].(status :=
                if !raised then Ready else if retryable then Embedding else Failed)]
    {
      if !raised {
        var promoted := store.SetStatus(t.doc, Ready, Expect({Embedding}), Expect(t.version));
        result := Promoted(embedded);
      } else if retryable {
        result := Raised;
      } else {
        var marked := store.SetStatus(t.doc, Failed, Any, Expect(t.version));
        result := FailedForGood;
      }
    }

    /** From the guarded entry on. */
    method Embed(t: Target, provider: Provider, ghost cfg: L.Setting, ghost w: L.World, ghost id: L.TaskId)
      returns (result: Result, ghost lookup: string, ghost first: set<ChunkId>, ghost w1: L.World)
      requires provider.reported != "" && cfg.generation == t.generation && w.db == store.Db() && id !in w.tasks
      requires StatusMatches(w.db, t.doc, Expect(EMBEDDABLE), Expect(t.version))
      modifies this`aliases, store`docs, store`vectors
      ensures TaskRun(cfg, w, id, w1) && w1.db == store.Db() && id !in w1.tasks
      ensures store.docs == w.db.docs[t.doc := w.db.docs[t.doc].(status :=
                if result.Promoted? then Ready else if result.FailedForGood? then Failed else Embedding)]
      ensures EmbedOutcome(w.db, store.Db(), t, old(ResolvedModel(t.model)), provider.reported,
                           !result.Promoted?, if result.Promoted? then result.embedded else 0, lookup, first)
      ensures ResolvedModel(t.model) == lookup && forall m :: m != t.model ==> ResolvedModel(m) == old(ResolvedModel(m))
      ensures result.Promoted? || (if provider.retryable then result.Raised? else result.FailedForGood?)
    {
      w1 := Enters(cfg, w, id, t);
      var moved := store.SetStatus(t.doc, Embedding, Expect(EMBEDDABLE), Expect(t.version));
      ghost var entered := w1;
      var embedded, batches, raised;
      embedded, batches, raised, lookup, first, w1 := EmbedPending(t, provider, cfg, w1, id);
      ghost var left := w1;
      w1 := Concludes(cfg, w, id, entered, w1, t, lookup, raised, provider.retryable);
      result := Conclude(t, embedded, raised, provider.retryable);
      OutcomeIgnoresDocs(w.db, entered.db, left.db, store.Db(), t, old(ResolvedModel(t.model)), provider.reported, raised, embedded, lookup, first);
    }

    /** The whole task: snapshot, guarded entry, batches, guarded promotion. A promoted document is ready, one
        whose provider refused for good has failed, one to be tried again is left as being embedded. The
        task is the steps of the protocol, one after the other. */
    method EmbedDocument(d: DocId, model: string, generation: nat, provider: Provider,
                         ghost cfg: L.Setting, ghost w: L.World, ghost id: L.TaskId)
      returns (result: Result, ghost lookup: string, ghost first: set<ChunkId>, ghost w1: L.World)
      requires provider.reported != ""
      requires cfg.generation == generation && w.db == store.Db() && id !in w.tasks
      modifies this`aliases, store`docs, store`vectors
      ensures TaskRun(cfg, w, id, w1) && w1.db == store.Db() && id !in w1.tasks
      ensures result.NotFound? <==> !Visible(w.db, d)
      ensures result.Skipped? <==> Visible(w.db, d) && w.db.docs[d].status !in {Chunked, Embedding, Ready}
      ensures result.NotFound? || result.Skipped? ==> store.Db() == w.db
      ensures !result.NotFound? && !result.Skipped? ==>
                store.docs == w.db.docs[d := w.db.docs[d].(status :=
                  if result.Promoted? then Ready else if result.FailedForGood? then Failed else Embedding)] &&
                var t := Target(d, w.db.docs[d].version, w.db.docs[d].status, model, generation);
                EmbedOutcome(w.db, store.Db(), t, old(ResolvedModel(model)), provider.reported,
                             !result.Promoted?, if result.Promoted? then result.embedded else 0, lookup, first)
      ensures result.Promoted? ==> ResolvedModel(model) == lookup
      ensures forall m :: m != model ==> ResolvedModel(m) == old(ResolvedModel(m))
      ensures result.FailedForGood? ==> !provider.retryable
      ensures result.Raised? ==> provider.retryable
    {
      lookup, first, w1 := "", {}, w;
      TaskRunStarts(cfg, w, id);
      if d !in store.docs || store.docs[d].deleted {
        result := NotFound;
        return;
      }
      var t := Target(d, store.docs[d].version, store.docs[d].status, model, generation);
      if t.status !in EMBEDDABLE {
        result := Skipped;
        return;
      }
      result, lookup, first, w1 := Embed(t, provider, cfg, w, id);
    }
  }

  lemma Enters(cfg: L.Setting, w: L.World, id: L.TaskId, t: Target) returns (w1: L.World)
    requires id !in w.tasks && Visible(w.db, t.doc) && w.db.docs[t.doc].version == t.version && w.db.docs[t.doc].status in EMBEDDABLE
    ensures TaskRun(cfg, w, id, w1) && w1.db == SetStatus(w.db, t.doc, Embedding, Expect(EMBEDDABLE), Expect(t.version))
    ensures id in w1.tasks && w1.tasks[id] == L.Entered(t.doc, t.version)
  {
    TaskRunStarts(cfg, w, id);
    var loaded := L.Apply(cfg, w, L.Snapshot(id, t.doc));
    TaskRunOn(cfg, w, id, w, L.Snapshot(id, t.doc), loaded);
    w1 := L.Apply(cfg, loaded, L.Enter(id));
    TaskRunOn(cfg, w, id, loaded, L.Enter(id), w1);
  }

  lemma {:induction false} TaskRunJoins(cfg: L.Setting, w: L.World, id: L.TaskId, worlds: seq<L.World>, steps: seq<L.Step>, n: nat)
    requires R.Joined(cfg, worlds, steps) && n <= |steps| && (forall i :: 0 <= i < |steps| ==> OfTask(steps[i], id))
    requires TaskRun(cfg, w, id, worlds[0])
    ensures TaskRun(cfg, w, id, worlds[n])
  {
    if n > 0 {
      TaskRunJoins(cfg, w, id, worlds, steps, n - 1);
      assert OfTask(steps[n - 1], id);
      TaskRunOn(cfg, w, id, worlds[n - 1], steps[n - 1], worlds[n]);
    }
  }

  /** The last step: promotion, permanent failure, or none but the end of the attempt. */
  lemma Concludes(cfg: L.Setting, w: L.World, id: L.TaskId, entered: L.World, w1: L.World, t: Target, lookup: string, raised: bool, retryable: bool)
    returns (w2: L.World)
    requires TaskRun(cfg, w, id, entered) && exists rest :: Tracks(cfg, entered, id, w1, w1.db, t, lookup, rest) && (rest == [] <==> !raised)
    requires StatusMatches(w1.db, t.doc, Expect({Embedding}), Expect(t.version))
    ensures TaskRun(cfg, w, id, w2) && id !in w2.tasks
    ensures w2.db == w1.db.(docs := w1.db.docs[t.doc := w1.db.docs[t.doc].(status := if !raised then Ready else if retryable then Embedding else Failed)])
  {
    var worlds, steps :|
      R.Joined(cfg, worlds, steps) && worlds[0] == entered && worlds[|steps|] == w1 && forall i :: 0 <= i < |steps| ==> OfTask(steps[i], id);
    TaskRunJoins(cfg, w, id, worlds, steps, |steps|);
    var step := if !raised then L.Promote(id) else if retryable then L.Crash(id) else L.FailPermanently(id);
    w2 := L.Apply(cfg, w1, step);
    TaskRunOn(cfg, w, id, w1, step, w2);
    assert w1.db.docs[t.doc := w1.db.docs[t.doc].(status := Embedding)] == w1.db.docs;
  }

  lemma OutcomeIgnoresDocs(db0: Tables, db1: Tables, db2: Tables, db3: Tables, t: Target, cached: string, reported: string,
                           raised: bool, embedded: nat, lookup: string, first: set<ChunkId>)
    requires db0.chunks == db1.chunks && db0.vectors == db1.vectors
    requires db2.chunks == db3.chunks && db2.vectors == db3.vectors
    requires EmbedOutcome(db1, db2, t, cached, reported, raised, embedded, lookup, first)
    ensures EmbedOutcome(db0, db3, t, cached, reported, raised, embedded, lookup, first)
  {
    assert ActiveOf(db0, t.doc, t.version) == ActiveOf(db1, t.doc, t.version);
    assert ActiveOf(db2, t.doc, t.version) == ActiveOf(db3, t.doc, t.version);
    assert Missing(db0, t, cached) == Missing(db1, t, cached);
    assert Missing(db0, t, reported) == Missing(db1, t, reported);
  }

  /** A run never sends more than what was missing under the name the provider reports, plus one batch. */
  lemma TextsSentBound(db: Tables, t: Target, cached: string, first: set<ChunkId>, reported: string)
    requires |first| <= 64
    ensures TextsSent(db, t, cached, first, reported) <= |Missing(db, t, reported)| + 64
    ensures cached == reported ==> TextsSent(db, t, cached, first, reported) == |Missing(db, t, reported)|
  {
    SubsetSize(Missing(db, t, reported) - first, Missing(db, t, reported));
  }

  lemma {:induction false} SubsetSize(a: set<ChunkId>, b: set<ChunkId>)
    requires a <= b
    ensures |a| <= |b|
  {
    if a != {} {
      var c :| c in a;
      SubsetSize(a - {c}, b - {c});
    }
  }
}
