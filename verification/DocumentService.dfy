/** The operations on one document that the protocol of `DocumentLifecycle` is made of, performed on the
    tables in place: re-ingest and delete (backend/services/knowledge/documents.py), an ingest
    (backend/services/knowledge/ingestion.py) and giving up on an embed task
    (backend/services/knowledge/embedding.py). */
module DocumentService {
  import opened T = KnowledgeTables
  import opened L = DocumentLifecycle
  import S = KnowledgeStore

  datatype Answer = NotFound | Conflict | Done | FailedForGood | Raised

  /** The text of a file cut into chunks, or a file that can never be read. */
  datatype Extract = Unreadable | Rows(rows: set<ChunkId>)

  predicate Fits(cfg: Setting, w: World, d: DocId, version: nat, extract: Extract) {
    extract.Rows? ==> extract.rows !! w.used && (extract.rows != {} <==> cfg.hasText(d, version))
  }

  /** The steps of an ingest that nothing comes between. */
  function Ingested(cfg: Setting, w: World, d: DocId, extract: Extract): World
    requires Visible(w.db, d) && Fits(cfg, w, d, w.db.docs[d].version, extract)
  {
    var version := w.db.docs[d].version;
    var parsing := Apply(cfg, w, IngestStatus(d, Parsing));
    if extract.Unreadable? then Apply(cfg, parsing, IngestStatus(d, Failed))
    else
      var cleaned := Apply(cfg, parsing, IngestStatus(d, Cleaned));
      var stored := Apply(cfg, cleaned, StoreChunks(d, version, extract.rows));
      if ReplaceForVersion(cleaned.db, d, version, extract.rows).Refused? then stored
      else Apply(cfg, stored, MarkChunked(d))
  }

  function IngestAnswer(db: Tables, d: DocId, extract: Extract): Answer {
    if !Visible(db, d) then NotFound
    else if extract.Unreadable? then FailedForGood
    else if ReplaceForVersion(db, d, db.docs[d].version, extract.rows).Refused? then Raised
    else Done
  }

  /** An ingest that nothing comes between meets the condition on its last write by itself: it keeps the
      invariant, and leaves exactly its chunks as the active ones of the version. */
  lemma IngestKeeps(cfg: Setting, w: World, d: DocId, extract: Extract)
    requires Inv(cfg, w) && Visible(w.db, d) && Fits(cfg, w, d, w.db.docs[d].version, extract)
    ensures var w1 := Ingested(cfg, w, d, extract);
            && Inv(cfg, w1) && Visible(w1.db, d) && w1.db.docs[d].version == w.db.docs[d].version
            && (IngestAnswer(w.db, d, extract) == Done ==> w1.db.docs[d].status == Chunked && Current(w1, d) == extract.rows)
            && (IngestAnswer(w.db, d, extract) != Done ==>
                  w1.db.chunks == w.db.chunks && w1.db.docs[d].status == if extract.Unreadable? then Failed else Cleaned)
            && w1.db.vectors == w.db.vectors && (forall e :: e in w.db.docs && e != d ==> e in w1.db.docs && w1.db.docs[e] == w.db.docs[e])
    ensures IngestAnswer(w.db, d, extract) == Done <==>
              !extract.Unreadable? && forall c :: c in ChunksOf(w.db, d, w.db.docs[d].version) ==> !HasVector(w.db, c)
  {
    var version := w.db.docs[d].version;
    var parsing := Apply(cfg, w, IngestStatus(d, Parsing));
    StatusKeeps(cfg, w, d, Parsing, Any, Any);
    if extract.Unreadable? {
      StatusKeeps(cfg, parsing, d, Failed, Any, Any);
    } else {
      StatusKeeps(cfg, parsing, d, Cleaned, Any, Any);
      StoredKeeps(cfg, Apply(cfg, parsing, IngestStatus(d, Cleaned)), d, version, extract.rows);
    }
  }

  lemma StoredKeeps(cfg: Setting, w: World, d: DocId, version: nat, rows: set<ChunkId>)
    requires Inv(cfg, w) && Visible(w.db, d) && w.db.docs[d].version == version && Enabled(cfg, w, StoreChunks(d, version, rows))
    ensures var stored := Apply(cfg, w, StoreChunks(d, version, rows));
            && Inv(cfg, stored) && stored.db.docs == w.db.docs
            && (ReplaceForVersion(w.db, d, version, rows).Refused? ==> stored == w)
            && (ReplaceForVersion(w.db, d, version, rows).Applied? ==>
                  Inv(cfg, Apply(cfg, stored, MarkChunked(d))) && Current(Apply(cfg, stored, MarkChunked(d)), d) == rows)
  {
    var stored := Apply(cfg, w, StoreChunks(d, version, rows));
    StoreKeeps(cfg, w, d, version, rows);
    if ReplaceForVersion(w.db, d, version, rows).Applied? {
      StoreHere(cfg, w, d, version, rows);
      MarkKeepsExactly(cfg, stored, d);
      assert Current(Apply(cfg, stored, MarkChunked(d)), d) == Current(stored, d);
    }
  }

  class Service {
    const store: S.Store

    constructor (store: S.Store)
      ensures this.store == store
    {
      this.store := store;
    }

    /** Old chunks superseded and the next version opened, in one transaction; `stale` says that nothing has
        touched the document for long. */
    method Reingest(d: DocId, stale: bool, ghost cfg: Setting, ghost w: World) returns (answer: Answer)
      requires w.db == store.Db()
      modifies store
      ensures answer == if !Visible(w.db, d) then NotFound
                        else if w.db.docs[d].status in {Parsing, Cleaned, Embedding} && !stale then Conflict
                        else Done
      ensures store.Db() == if answer == Conflict then w.db else Apply(cfg, w, Step.Reingest(d)).db
    {
      if d !in store.docs || store.docs[d].deleted {
        return NotFound;
      }
      if store.docs[d].status in IN_PROGRESS && !stale {
        return Conflict;
      }
      var next := store.docs[d].version + 1;
      store.SupersedeForDocument(d);
      store.StartNewVersion(d, next);
      answer := Done;
    }

    method Delete(d: DocId, ghost cfg: Setting, ghost w: World) returns (answer: Answer)
      requires w.db == store.Db()
      modifies store
      ensures answer == if Visible(w.db, d) then Done else NotFound
      ensures store.Db() == Apply(cfg, w, Step.Delete(d)).db
    {
      if d !in store.docs || store.docs[d].deleted {
        return NotFound;
      }
      store.SupersedeForDocument(d);
      store.SoftDelete(d);
      answer := Done;
    }

    /** `ingest`, with nothing coming between its transactions. */
    method Ingest(d: DocId, extract: Extract, ghost cfg: Setting, ghost w: World) returns (answer: Answer)
      requires w.db == store.Db() && (Visible(w.db, d) ==> Fits(cfg, w, d, w.db.docs[d].version, extract))
      modifies store
      ensures answer == IngestAnswer(w.db, d, extract)
      ensures store.Db() == if answer == NotFound then w.db else Ingested(cfg, w, d, extract).db
    {
      if d !in store.docs || store.docs[d].deleted {
        return NotFound;
      }
      var version := store.docs[d].version;
      var _ := store.SetStatus(d, Parsing, Any, Any);
      if extract.Unreadable? {
        var _ := store.SetStatus(d, Failed, Any, Any);
        return FailedForGood;
      }
      var _ := store.SetStatus(d, Cleaned, Any, Any);
      var stored := store.ReplaceForVersion(d, version, extract.rows);
      if !stored {
        return Raised;
      }
      var _ := store.SetStatus(d, Chunked, Any, Any);
      answer := Done;
    }

    /** `mark_retries_exhausted`; false when the message was behind the world. */
    method GiveUp(d: DocId, ghost cfg: Setting, ghost w: World, ghost t: TaskId) returns (marked: bool)
      requires w.db == store.Db() && Enabled(cfg, w, RetriesExhausted(d, t))
      modifies store
      ensures marked <==> Visible(w.db, d) && w.db.docs[d].status in {Chunked, Embedding}
      ensures store.Db() == Apply(cfg, w, RetriesExhausted(d, t)).db
    {
      var rows := store.SetStatus(d, Failed, Expect({Chunked, Embedding}), Any);
      marked := rows > 0;
    }
  }
}
