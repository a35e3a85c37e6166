/** The life of documents and their vectors under concurrent workers: embed tasks
    (backend/services/knowledge/embedding.py), re-ingest, delete and re-queue
    (backend/services/knowledge/documents.py), ingest (backend/services/knowledge/ingestion.py) and the
    clean-up of superseded chunks, interleaved at will. One transaction is one step. */
module DocumentLifecycle {
  import opened T = KnowledgeTables

  type TaskId = nat

  const BATCH_SIZE := 64

  /** Where one run of `embed_document` stands. `pending` is what is left of the list it works on. */
  datatype Task =
    | Loaded(doc: DocId, version: nat)
    | Entered(doc: DocId, version: nat)
    | Working(doc: DocId, version: nat, lookup: string, pending: seq<ChunkId>)
    | Requerying(doc: DocId, version: nat, lookup: string)

  /** The knowledge base keeps one embedding version; every ingest of one version of a document yields
      text, or every one yields none. */
  datatype Setting = Setting(generation: nat, hasText: (DocId, nat) -> bool)

  /** The tables, the running tasks, and history that no code reads: chunk ids ever given out, the
      documents whose current version has its chunks stored, and the model name each ready document was
      completed under. */
  datatype World = World(
    db: Tables, tasks: map<TaskId, Task>, used: set<ChunkId>, ingested: set<DocId>, served: map<DocId, string>)

  /** An ingest loads a version, stores that version's chunks and marks the document as chunked, in
      transactions of their own. */
  datatype Step =
    | Upload(d: DocId)
    | StoreChunks(d: DocId, version: nat, rows: set<ChunkId>)
    | MarkChunked(d: DocId)
    | IngestStatus(d: DocId, status: Status)
    | Reingest(d: DocId)
    | Delete(d: DocId)
    | Cleanup
    | Snapshot(t: TaskId, d: DocId)
    | Enter(t: TaskId)
    | Query(t: TaskId, lookup: string, listing: seq<ChunkId>)
    | Batch(t: TaskId, reported: string)
    | FailPermanently(t: TaskId)
    | Crash(t: TaskId)
    | Promote(t: TaskId)
    | RetriesExhausted(d: DocId, t: TaskId)

  predicate Lists(listing: seq<ChunkId>, cs: set<ChunkId>) {
    && (forall c :: c in listing ==> c in cs)
    && (forall c :: c in cs ==> c in listing)
  }

  predicate Enabled(cfg: Setting, w: World, step: Step) {
    match step
    case Upload(d) => d !in w.db.docs
    case StoreChunks(d, version, rows) =>
      d in w.db.docs && version <= w.db.docs[d].version && rows !! w.used && (rows != {} <==> cfg.hasText(d, version))
    case IngestStatus(d, status) => status in {Parsing, Cleaned, Failed}
    case Snapshot(t, d) => t !in w.tasks && Visible(w.db, d) && w.db.docs[d].status in EMBEDDABLE
    case Enter(t) => t in w.tasks && w.tasks[t].Loaded?
    case Query(t, lookup, listing) =>
      && t in w.tasks
      && (w.tasks[t].Entered? || (w.tasks[t].Requerying? && w.tasks[t].lookup == lookup))
      && Lists(listing, Missing(cfg, w.db, w.tasks[t].doc, w.tasks[t].version, lookup))
    case Batch(t, reported) => t in w.tasks && w.tasks[t].Working? && w.tasks[t].pending != [] && reported != ""
    case FailPermanently(t) => t in w.tasks && !w.tasks[t].Loaded?
    case Crash(t) => t in w.tasks
    case Promote(t) => t in w.tasks && w.tasks[t].Working? && w.tasks[t].pending == []
    case RetriesExhausted(d, t) => t in w.tasks ==> w.tasks[t].doc == d
    case _ => true
  }

  /** `_pending_chunks`: active chunks of the snapshotted version without a vector under `lookup`. */
  function Missing(cfg: Setting, db: Tables, d: DocId, version: nat, lookup: string): set<ChunkId> {
    WithoutVector(db, ActiveOf(db, d, version), lookup, cfg.generation)
  }

  function BatchOf(pending: seq<ChunkId>): seq<ChunkId> {
    if |pending| <= BATCH_SIZE then pending else pending[..BATCH_SIZE]
  }

  lemma BatchOfSixtyFour(pending: seq<ChunkId>)
    ensures BatchOf(pending) == pending[..if |pending| < 64 then |pending| else 64]
  {
    assert pending[..|pending|] == pending;
  }

  function Elements(s: seq<ChunkId>): set<ChunkId> {
    set c | c in s
  }

  function Drop(w: World, t: TaskId): World {
    w.(tasks := map k | k in w.tasks && k != t :: w.tasks[k])
  }

  function Apply(cfg: Setting, w: World, step: Step): World
    requires Enabled(cfg, w, step)
  {
    match step
    case Upload(d) => w.(db := w.db.(docs := w.db.docs[d := Document(1, Uploaded, false)]), ingested := w.ingested - {d})
    case StoreChunks(d, version, rows) =>
      (match ReplaceForVersion(w.db, d, version, rows)
       case Applied(db) =>
         w.(db := db, used := w.used + rows, ingested := if version == w.db.docs[d].version then w.ingested + {d} else w.ingested)
       case Refused => w)
    case MarkChunked(d) => w.(db := SetStatus(w.db, d, Chunked, Any, Any))
    case IngestStatus(d, status) => w.(db := SetStatus(w.db, d, status, Any, Any))
    case Reingest(d) =>
      if !Visible(w.db, d) then w
      else w.(db := StartNewVersion(Supersede(w.db, d), d, w.db.docs[d].version + 1), ingested := w.ingested - {d})
    case Delete(d) => if !Visible(w.db, d) then w else w.(db := SoftDelete(Supersede(w.db, d), d))
    case Cleanup => w.(db := PurgeSuperseded(w.db))
    case Snapshot(t, d) => w.(tasks := w.tasks[t := Loaded(d, w.db.docs[d].version)])
    case Enter(t) =>
      var task := w.tasks[t];
      if StatusMatches(w.db, task.doc, Expect(EMBEDDABLE), Expect(task.version)) then
        w.(db := SetStatus(w.db, task.doc, Embedding, Expect(EMBEDDABLE), Expect(task.version)),
           tasks := w.tasks[t := Entered(task.doc, task.version)])
      else Drop(w, t)
    case Query(t, lookup, listing) =>
      var task := w.tasks[t];
      w.(tasks := w.tasks[t := Working(task.doc, task.version, lookup, listing)])
    case Batch(t, reported) =>
      var task := w.tasks[t];
      var batch := BatchOf(task.pending);
      (match Upsert(w.db, Elements(batch), reported, cfg.generation)
       case Applied(db) =>
         var next := if reported == task.lookup then task.(pending := task.pending[|batch|..])
                     else Requerying(task.doc, task.version, reported);
         w.(db := db, tasks := w.tasks[t := next])
       case Refused => Drop(w, t))
    case FailPermanently(t) =>
      var task := w.tasks[t];
      Drop(w, t).(db := SetStatus(w.db, task.doc, Failed, Any, Expect(task.version)))
    case Crash(t) => Drop(w, t)
    case Promote(t) =>
      var task := w.tasks[t];
      if StatusMatches(w.db, task.doc, Expect({Embedding}), Expect(task.version)) then
        Drop(w, t).(db := SetStatus(w.db, task.doc, Ready, Expect({Embedding}), Expect(task.version)),
                    served := w.served[task.doc := task.lookup])
      else Drop(w, t)
    case RetriesExhausted(d, t) => Drop(w, t).(db := SetStatus(w.db, d, Failed, Expect({Chunked, Embedding}), Any))
  }

  // ---- The invariant ----

  /** Active chunks of the current version. */
  function Current(w: World, d: DocId): set<ChunkId>
    requires d in w.db.docs
  {
    ActiveOf(w.db, d, w.db.docs[d].version)
  }

  ghost predicate ChunkOk(w: World, c: ChunkId)
    requires c in w.db.chunks
  {
    var row := w.db.chunks[c];
    && row.doc in w.db.docs && row.version <= w.db.docs[row.doc].version
    && (row.version == w.db.docs[row.doc].version ==> row.doc in w.ingested)
  }

  /** The chunks of the current version are stored, or there are none to store. */
  predicate Settled(cfg: Setting, w: World, d: DocId)
    requires d in w.db.docs
  {
    d in w.ingested || !cfg.hasText(d, w.db.docs[d].version)
  }

  ghost predicate DocOk(cfg: Setting, w: World, d: DocId)
    requires d in w.db.docs
  {
    var doc := w.db.docs[d];
    !doc.deleted ==>
      && (doc.status in EMBEDDABLE ==> Settled(cfg, w, d))
      && (d in w.ingested ==> (Current(w, d) != {} <==> cfg.hasText(d, doc.version)))
      && (doc.status == Ready ==> d in w.served && Covered(w.db, Current(w, d), w.served[d], cfg.generation))
  }

  ghost predicate IsCurrent(w: World, task: Task) {
    Visible(w.db, task.doc) && w.db.docs[task.doc].version == task.version
  }

  /** Everything the task has not yet to do is done, or its next batch is bound to be refused. */
  ghost predicate OnTrack(cfg: Setting, w: World, task: Task)
    requires task.Working? && task.doc in w.db.docs
  {
    || (forall c :: c in Current(w, task.doc) && c !in task.pending ==> Vector(c, task.lookup, cfg.generation) in w.db.vectors)
    || (task.pending != [] && task.pending[0] !in w.db.chunks)
  }

  ghost predicate TaskOk(cfg: Setting, w: World, task: Task) {
    && task.doc in w.db.docs && task.version <= w.db.docs[task.doc].version
    && (IsCurrent(w, task) ==> Settled(cfg, w, task.doc))
    && (task.Working? ==>
          && (forall c :: c in task.pending ==>
                c in w.used && (c in w.db.chunks ==> w.db.chunks[c].doc == task.doc && w.db.chunks[c].version == task.version))
          && (IsCurrent(w, task) ==> OnTrack(cfg, w, task)))
  }

  ghost predicate Inv(cfg: Setting, w: World) {
    && ForeignKeys(w.db)
    && w.db.chunks.Keys <= w.used
    && (forall c {:trigger ChunkOk(w, c)} :: c in w.db.chunks ==> ChunkOk(w, c))
    && (forall d {:trigger DocOk(cfg, w, d)} :: d in w.db.docs ==> DocOk(cfg, w, d))
    && (forall t {:trigger TaskOk(cfg, w, w.tasks[t])} :: t in w.tasks ==> TaskOk(cfg, w, w.tasks[t]))
  }

  lemma UploadKeeps(cfg: Setting, w: World, d: DocId)
    requires Inv(cfg, w) && Enabled(cfg, w, Upload(d))
    ensures Inv(cfg, Apply(cfg, w, Upload(d)))
  {
    var w1 := Apply(cfg, w, Upload(d));
    forall e | e in w1.db.docs ensures DocOk(cfg, w1, e) {
      if e != d {
        assert DocOk(cfg, w, e);
        assert Current(w1, e) == Current(w, e);
      }
    }
    forall t | t in w1.tasks ensures TaskOk(cfg, w1, w1.tasks[t]) {
      assert TaskOk(cfg, w, w.tasks[t]);
      assert Current(w1, w1.tasks[t].doc) == Current(w, w1.tasks[t].doc);
    }
    forall c | c in w1.db.chunks ensures ChunkOk(w1, c) {
      assert ChunkOk(w, c);
    }
  }

  /** A status write moves nothing but one status. */
  lemma StatusKeeps(cfg: Setting, w: World, d: DocId, status: Status, statuses: Guard<set<Status>>, version: Guard<nat>)
    requires Inv(cfg, w)
    requires status in EMBEDDABLE && StatusMatches(w.db, d, statuses, version) ==> Settled(cfg, w, d)
    requires status == Ready && StatusMatches(w.db, d, statuses, version) ==>
               d in w.served && Covered(w.db, Current(w, d), w.served[d], cfg.generation)
    ensures Inv(cfg, w.(db := SetStatus(w.db, d, status, statuses, version)))
  {
    var w1 := w.(db := SetStatus(w.db, d, status, statuses, version));
    forall e | e in w1.db.docs ensures DocOk(cfg, w1, e) {
      assert DocOk(cfg, w, e);
      assert Current(w1, e) == Current(w, e);
    }
    forall t | t in w1.tasks ensures TaskOk(cfg, w1, w1.tasks[t]) {
      assert TaskOk(cfg, w, w.tasks[t]);
      assert Current(w1, w1.tasks[t].doc) == Current(w, w1.tasks[t].doc);
    }
    forall c | c in w1.db.chunks ensures ChunkOk(w1, c) {
      assert ChunkOk(w, c);
    }
  }

  lemma TasksKeep(cfg: Setting, w: World, w1: World)
    requires Inv(cfg, w)
    requires w1.db == w.db && w1.used == w.used && w1.ingested == w.ingested && w1.served == w.served
    requires forall t :: t in w1.tasks ==> (t in w.tasks && w1.tasks[t] == w.tasks[t]) || TaskOk(cfg, w, w1.tasks[t])
    ensures Inv(cfg, w1)
  {
    forall t | t in w1.tasks ensures TaskOk(cfg, w1, w1.tasks[t]) {
      assert TaskOk(cfg, w, w1.tasks[t]);
      assert Current(w1, w1.tasks[t].doc) == Current(w, w1.tasks[t].doc);
    }
    forall d | d in w1.db.docs ensures DocOk(cfg, w1, d) {
      assert DocOk(cfg, w, d);
      assert Current(w1, d) == Current(w, d);
    }
    forall c | c in w1.db.chunks ensures ChunkOk(w1, c) {
      assert ChunkOk(w, c);
    }
  }

  lemma DeletableUncovered(cfg: Setting, db: Tables, cs: set<ChunkId>, model: string)
    requires Deletable(db, cs) && Covered(db, cs, model, cfg.generation)
    ensures cs == {}
  {
    assert forall c :: c in cs ==> Vector(c, model, cfg.generation).chunk == c;
  }

  /** Chunks stored for one version are no other's. */
  lemma StoreElsewhere(cfg: Setting, w: World, d: DocId, version: nat, rows: set<ChunkId>, e: DocId)
    requires Inv(cfg, w) && Enabled(cfg, w, StoreChunks(d, version, rows)) && e in w.db.docs
    requires e != d || w.db.docs[e].version != version
    ensures Current(Apply(cfg, w, StoreChunks(d, version, rows)), e) == Current(w, e)
  {
    var w1 := Apply(cfg, w, StoreChunks(d, version, rows));
    assert forall c :: c in rows ==> c !in w.used;
    forall c | c in Current(w, e) ensures c in Current(w1, e) {
      assert c !in ChunksOf(w.db, d, version);
    }
  }

  lemma StoreHere(cfg: Setting, w: World, d: DocId, version: nat, rows: set<ChunkId>)
    requires Inv(cfg, w) && Enabled(cfg, w, StoreChunks(d, version, rows)) && w.db.docs[d].version == version
    requires ReplaceForVersion(w.db, d, version, rows).Applied?
    ensures Current(Apply(cfg, w, StoreChunks(d, version, rows)), d) == rows
  {
    var w1 := Apply(cfg, w, StoreChunks(d, version, rows));
    assert forall c :: c in w.db.chunks && c in Current(w1, d) && c !in rows ==> c in ChunksOf(w.db, d, version);
  }

  /** Chunks are replaced only while none has a vector, so a version that is covered has none. */
  lemma StoreCovered(cfg: Setting, w: World, d: DocId, version: nat, rows: set<ChunkId>, model: string)
    requires Inv(cfg, w) && Enabled(cfg, w, StoreChunks(d, version, rows)) && w.db.docs[d].version == version
    requires ReplaceForVersion(w.db, d, version, rows).Applied? && Visible(w.db, d) && Settled(cfg, w, d)
    requires Covered(w.db, Current(w, d), model, cfg.generation)
    ensures rows == {}
  {
    assert Current(w, d) <= ChunksOf(w.db, d, version);
    DeletableUncovered(cfg, w.db, Current(w, d), model);
    assert DocOk(cfg, w, d);
  }

  lemma StoreTask(cfg: Setting, w: World, d: DocId, version: nat, rows: set<ChunkId>, task: Task)
    requires Inv(cfg, w) && Enabled(cfg, w, StoreChunks(d, version, rows)) && TaskOk(cfg, w, task)
    requires ReplaceForVersion(w.db, d, version, rows).Applied?
    ensures TaskOk(cfg, Apply(cfg, w, StoreChunks(d, version, rows)), task)
  {
    var w1 := Apply(cfg, w, StoreChunks(d, version, rows));
    if task.doc != d || w.db.docs[d].version != version {
      StoreElsewhere(cfg, w, d, version, rows, task.doc);
    } else if task.Working? && IsCurrent(w, task) {
      if task.pending != [] {
        assert task.pending[0] in task.pending;
        assert task.pending[0] !in w1.db.chunks;
      } else {
        StoreCovered(cfg, w, d, version, rows, task.lookup);
        StoreHere(cfg, w, d, version, rows);
      }
    }
  }

  lemma StoreDoc(cfg: Setting, w: World, d: DocId, version: nat, rows: set<ChunkId>, e: DocId)
    requires Inv(cfg, w) && Enabled(cfg, w, StoreChunks(d, version, rows)) && e in w.db.docs
    requires ReplaceForVersion(w.db, d, version, rows).Applied?
    ensures DocOk(cfg, Apply(cfg, w, StoreChunks(d, version, rows)), e)
  {
    assert DocOk(cfg, w, e);
    if e != d || w.db.docs[d].version != version {
      StoreElsewhere(cfg, w, d, version, rows, e);
    } else {
      StoreHere(cfg, w, d, version, rows);
      if Visible(w.db, d) && w.db.docs[d].status == Ready {
        StoreCovered(cfg, w, d, version, rows, w.served[d]);
      }
    }
  }

  lemma StoreKeeps(cfg: Setting, w: World, d: DocId, version: nat, rows: set<ChunkId>)
    requires Inv(cfg, w) && Enabled(cfg, w, StoreChunks(d, version, rows))
    ensures Inv(cfg, Apply(cfg, w, StoreChunks(d, version, rows)))
  {
    var w1 := Apply(cfg, w, StoreChunks(d, version, rows));
    if ReplaceForVersion(w.db, d, version, rows).Applied? {
      forall t | t in w1.tasks ensures TaskOk(cfg, w1, w1.tasks[t]) {
        assert TaskOk(cfg, w, w.tasks[t]);
        StoreTask(cfg, w, d, version, rows, w.tasks[t]);
      }
      forall c | c in w1.db.chunks ensures ChunkOk(w1, c) {
        if c !in rows {
          assert ChunkOk(w, c);
        }
      }
      ReplaceKeepsKeys(w.db, d, version, rows);
      forall e | e in w1.db.docs ensures DocOk(cfg, w1, e) {
        StoreDoc(cfg, w, d, version, rows, e);
      }
    }
  }

  /** The condition under which the unguarded write of `chunked` is sound: the document is gone, or the
      chunks of the version it now has are stored, or it has none. */
  ghost predicate Guarded(cfg: Setting, w: World, step: Step) {
    step.MarkChunked? && Visible(w.db, step.d) ==> Settled(cfg, w, step.d)
  }

  lemma MarkKeepsExactly(cfg: Setting, w: World, d: DocId)
    requires Inv(cfg, w)
    ensures Inv(cfg, Apply(cfg, w, MarkChunked(d))) <==> Guarded(cfg, w, MarkChunked(d))
  {
    var w1 := Apply(cfg, w, MarkChunked(d));
    if Guarded(cfg, w, MarkChunked(d)) {
      StatusKeeps(cfg, w, d, Chunked, Any, Any);
    } else {
      assert w1.db.docs[d].status == Chunked;
      assert !DocOk(cfg, w1, d);
    }
  }

  /** A document that moves on takes its active chunks with it. */
  lemma SupersedeKeeps(cfg: Setting, w: World, d: DocId, doc: Document, w1: World)
    requires Inv(cfg, w) && Visible(w.db, d)
    requires doc.deleted || (doc.version > w.db.docs[d].version && doc.status == Uploaded)
    requires doc.version >= w.db.docs[d].version
    requires w1 == w.(db := Supersede(w.db, d).(docs := w.db.docs[d := doc]),
                      ingested := if doc.deleted then w.ingested else w.ingested - {d})
    ensures Inv(cfg, w1)
  {
    forall c | c in w1.db.chunks ensures ChunkOk(w1, c) {
      assert ChunkOk(w, c);
    }
    forall e | e in w1.db.docs ensures DocOk(cfg, w1, e) {
      assert DocOk(cfg, w, e);
      if e != d {
        assert Current(w1, e) == Current(w, e);
      }
    }
    forall t | t in w1.tasks ensures TaskOk(cfg, w1, w1.tasks[t]) {
      assert TaskOk(cfg, w, w.tasks[t]);
      if w.tasks[t].doc != d {
        assert Current(w1, w.tasks[t].doc) == Current(w, w.tasks[t].doc);
      }
    }
  }

  lemma CleanupKeeps(cfg: Setting, w: World)
    requires Inv(cfg, w)
    ensures Inv(cfg, Apply(cfg, w, Cleanup))
  {
    var w1 := Apply(cfg, w, Cleanup);
    PurgeKeepsKeys(w.db);
    forall c | c in w1.db.chunks ensures ChunkOk(w1, c) {
      assert ChunkOk(w, c);
    }
    forall d | d in w1.db.docs ensures Current(w1, d) == Current(w, d) {}
    forall d | d in w1.db.docs ensures DocOk(cfg, w1, d) {
      assert DocOk(cfg, w, d);
      assert Current(w1, d) <= ActiveChunks(w.db);
    }
    forall t | t in w1.tasks ensures TaskOk(cfg, w1, w1.tasks[t]) {
      assert TaskOk(cfg, w, w.tasks[t]);
      assert Current(w1, w.tasks[t].doc) <= ActiveChunks(w.db);
    }
  }

  lemma BatchTask(cfg: Setting, w: World, t: TaskId, reported: string, w1: World)
    requires Inv(cfg, w) && Enabled(cfg, w, Batch(t, reported)) && w1 == Apply(cfg, w, Batch(t, reported))
    requires t in w1.tasks
    ensures TaskOk(cfg, w1, w1.tasks[t])
  {
    var task := w.tasks[t];
    assert TaskOk(cfg, w, task);
    var batch := BatchOf(task.pending);
    assert task.pending[0] in batch;
    assert Current(w1, task.doc) == Current(w, task.doc);
    var next := w1.tasks[t];
    if next.Working? && IsCurrent(w, task) {
      assert task.pending[0] in w.db.chunks;
      forall c | c in Current(w1, task.doc) && c !in next.pending
        ensures Vector(c, next.lookup, cfg.generation) in w1.db.vectors
      {
        if c in task.pending {
          assert task.pending == batch + next.pending;
          assert c in batch;
        }
      }
    }
  }

  lemma BatchKeeps(cfg: Setting, w: World, t: TaskId, reported: string)
    requires Inv(cfg, w) && Enabled(cfg, w, Batch(t, reported))
    ensures Inv(cfg, Apply(cfg, w, Batch(t, reported)))
  {
    var w1 := Apply(cfg, w, Batch(t, reported));
    if Upsert(w.db, Elements(BatchOf(w.tasks[t].pending)), reported, cfg.generation).Applied? {
      forall k | k in w1.tasks ensures TaskOk(cfg, w1, w1.tasks[k]) {
        assert TaskOk(cfg, w, w.tasks[k]);
        if k == t {
          BatchTask(cfg, w, t, reported, w1);
        } else {
          assert Current(w1, w.tasks[k].doc) == Current(w, w.tasks[k].doc);
        }
      }
      forall d | d in w1.db.docs ensures DocOk(cfg, w1, d) {
        assert DocOk(cfg, w, d);
        assert Current(w1, d) == Current(w, d);
      }
      forall c | c in w1.db.chunks ensures ChunkOk(w1, c) {
        assert ChunkOk(w, c);
      }
    } else {
      TasksKeep(cfg, w, w1);
    }
  }

  lemma QueryKeeps(cfg: Setting, w: World, t: TaskId, lookup: string, listing: seq<ChunkId>)
    requires Inv(cfg, w) && Enabled(cfg, w, Query(t, lookup, listing))
    ensures Inv(cfg, Apply(cfg, w, Query(t, lookup, listing)))
  {
    var task := w.tasks[t];
    assert TaskOk(cfg, w, task);
    var next := Working(task.doc, task.version, lookup, listing);
    assert TaskOk(cfg, w, next) by {
      forall c | c in listing ensures c in w.db.chunks {
        assert c in Missing(cfg, w.db, task.doc, task.version, lookup);
      }
    }
    TasksKeep(cfg, w, Apply(cfg, w, Query(t, lookup, listing)));
  }

  lemma EnterKeeps(cfg: Setting, w: World, t: TaskId)
    requires Inv(cfg, w) && Enabled(cfg, w, Enter(t))
    ensures Inv(cfg, Apply(cfg, w, Enter(t)))
  {
    var task := w.tasks[t];
    assert TaskOk(cfg, w, task);
    if StatusMatches(w.db, task.doc, Expect(EMBEDDABLE), Expect(task.version)) {
      var w1 := w.(tasks := w.tasks[t := Entered(task.doc, task.version)]);
      TasksKeep(cfg, w, w1);
      StatusKeeps(cfg, w1, task.doc, Embedding, Expect(EMBEDDABLE), Expect(task.version));
    } else {
      TasksKeep(cfg, w, Drop(w, t));
    }
  }

  lemma PromoteKeeps(cfg: Setting, w: World, t: TaskId)
    requires Inv(cfg, w) && Enabled(cfg, w, Promote(t))
    ensures Inv(cfg, Apply(cfg, w, Promote(t)))
  {
    var task := w.tasks[t];
    var d := task.doc;
    assert TaskOk(cfg, w, task);
    TasksKeep(cfg, w, Drop(w, t));
    if StatusMatches(w.db, d, Expect({Embedding}), Expect(task.version)) {
      var w1 := Drop(w, t).(served := w.served[d := task.lookup]);
      ServedKeeps(cfg, Drop(w, t), d, task.lookup);
      assert Covered(w1.db, Current(w1, d), task.lookup, cfg.generation);
      StatusKeeps(cfg, w1, d, Ready, Expect({Embedding}), Expect(task.version));
    }
  }

  lemma ServedKeeps(cfg: Setting, w: World, d: DocId, model: string)
    requires Inv(cfg, w) && d in w.db.docs && w.db.docs[d].status != Ready
    ensures Inv(cfg, w.(served := w.served[d := model]))
  {
    var w1 := w.(served := w.served[d := model]);
    forall e | e in w1.db.docs ensures DocOk(cfg, w1, e) {
      assert DocOk(cfg, w, e);
      assert Current(w1, e) == Current(w, e);
    }
    forall t | t in w1.tasks ensures TaskOk(cfg, w1, w1.tasks[t]) {
      assert TaskOk(cfg, w, w.tasks[t]);
      assert Current(w1, w1.tasks[t].doc) == Current(w, w1.tasks[t].doc);
    }
    forall c | c in w1.db.chunks ensures ChunkOk(w1, c) {
      assert ChunkOk(w, c);
    }
  }
}
