/** The document, chunk and embedding tables of one knowledge base with the guarded writes of
    backend/repositories/knowledge.py and the status sets of backend/common/document_status.py. Each
    operation is a function on the tables; `KnowledgeStore` performs it in place. */
module KnowledgeTables {

  type DocId = nat
  type ChunkId = nat

  datatype Status = Uploaded | Parsing | Cleaned | Chunked | Embedding | Ready | Failed

  const IN_PROGRESS: set<Status> := {Parsing, Cleaned, Embedding}
  const EMBEDDABLE: set<Status> := {Chunked, Embedding, Ready}
  const STILL_PROCESSING: set<Status> := {Uploaded, Parsing, Cleaned, Chunked, Embedding}

  datatype Document = Document(version: nat, status: Status, deleted: bool)

  datatype Chunk = Chunk(doc: DocId, version: nat, superseded: bool)

  /** The unique key of an embedding row; the vector itself plays no part. */
  datatype Vector = Vector(chunk: ChunkId, model: string, generation: nat)

  datatype Tables = Tables(docs: map<DocId, Document>, chunks: map<ChunkId, Chunk>, vectors: set<Vector>)

  /** The row that `get_queryset()` shows: soft-deleted documents are invisible. */
  predicate Visible(db: Tables, d: DocId) {
    d in db.docs && !db.docs[d].deleted
  }

  datatype Guard<T> = Any | Expect(value: T)

  predicate StatusMatches(db: Tables, d: DocId, statuses: Guard<set<Status>>, version: Guard<nat>) {
    && Visible(db, d)
    && (statuses.Expect? ==> db.docs[d].status in statuses.value)
    && (version.Expect? ==> db.docs[d].version == version.value)
  }

  /** `set_status`: one conditional UPDATE. */
  function SetStatus(db: Tables, d: DocId, status: Status, statuses: Guard<set<Status>>, version: Guard<nat>): Tables {
    if StatusMatches(db, d, statuses, version) then db.(docs := db.docs[d := db.docs[d].(status := status)]) else db
  }

  function StartNewVersion(db: Tables, d: DocId, version: nat): Tables {
    if Visible(db, d) then db.(docs := db.docs[d := Document(version, Uploaded, false)]) else db
  }

  function SoftDelete(db: Tables, d: DocId): Tables {
    if Visible(db, d) then db.(docs := db.docs[d := db.docs[d].(deleted := true)]) else db
  }

  function Supersede(db: Tables, d: DocId): Tables {
    db.(chunks := map c | c in db.chunks :: if db.chunks[c].doc == d then db.chunks[c].(superseded := true) else db.chunks[c])
  }

  /** The chunks of one version of a document, superseded or not. */
  function ChunksOf(db: Tables, d: DocId, version: nat): set<ChunkId> {
    set c | c in db.chunks && db.chunks[c].doc == d && db.chunks[c].version == version
  }

  /** `active_for_version`: the input of the embedding stage. */
  function ActiveOf(db: Tables, d: DocId, version: nat): set<ChunkId> {
    set c | c in db.chunks && db.chunks[c].doc == d && db.chunks[c].version == version && !db.chunks[c].superseded
  }

  /** `for_retrieval`: every chunk that is not superseded. */
  function ActiveChunks(db: Tables): set<ChunkId> {
    set c | c in db.chunks && !db.chunks[c].superseded
  }

  predicate HasVector(db: Tables, c: ChunkId) {
    exists v :: v in db.vectors && v.chunk == c
  }

  /** Embedding.chunk is PROTECT: a chunk with a vector cannot be deleted. */
  predicate Deletable(db: Tables, cs: set<ChunkId>) {
    forall v :: v in db.vectors ==> v.chunk !in cs
  }

  datatype Outcome = Applied(db: Tables) | Refused

  /** `replace_for_version`: delete what is left of this version, then insert; one transaction. */
  function ReplaceForVersion(db: Tables, d: DocId, version: nat, rows: set<ChunkId>): Outcome {
    var stale := ChunksOf(db, d, version);
    if !Deletable(db, stale) then Refused
    else
      Applied(db.(chunks := map c | c in (db.chunks.Keys - stale) + rows ::
                              if c in rows then Chunk(d, version, false) else db.chunks[c]))
  }

  function VectorsFor(batch: set<ChunkId>, model: string, generation: nat): set<Vector> {
    set c | c in batch :: Vector(c, model, generation)
  }

  /** `upsert`: refused by the foreign key when a chunk of the batch is gone. */
  function Upsert(db: Tables, batch: set<ChunkId>, model: string, generation: nat): Outcome {
    if batch <= db.chunks.Keys then Applied(db.(vectors := db.vectors + VectorsFor(batch, model, generation)))
    else Refused
  }

  /** `chunks_without_embedding` for a set of chunks. */
  function WithoutVector(db: Tables, cs: set<ChunkId>, model: string, generation: nat): set<ChunkId> {
    set c | c in cs && Vector(c, model, generation) !in db.vectors
  }

  predicate Covered(db: Tables, cs: set<ChunkId>, model: string, generation: nat) {
    forall c :: c in cs ==> Vector(c, model, generation) in db.vectors
  }

  /** `count_for_kb_version`: does not look at `superseded`. */
  function CountForVersion(db: Tables, model: string, generation: nat): nat {
    |set v | v in db.vectors && v.model == model && v.generation == generation|
  }

  /** `purge_other_versions`. */
  function PurgeOtherVersions(db: Tables, model: string, generation: nat): Tables {
    db.(vectors := set v | v in db.vectors && v.model == model && v.generation == generation)
  }

  /** `purge_superseded_of_ready`: vectors first, then the chunks. */
  function PurgeSuperseded(db: Tables): Tables {
    var gone := set c | c in db.chunks && db.chunks[c].superseded &&
                        db.chunks[c].doc in db.docs && db.docs[db.chunks[c].doc].status == Ready;
    db.(chunks := map c | c in db.chunks.Keys - gone :: db.chunks[c],
        vectors := set v | v in db.vectors && v.chunk !in gone)
  }

  /** Foreign keys: a vector's chunk and a chunk's document exist. */
  predicate ForeignKeys(db: Tables) {
    && (forall v :: v in db.vectors ==> v.chunk in db.chunks)
    && (forall c :: c in db.chunks ==> db.chunks[c].doc in db.docs)
  }

  lemma ReplaceKeepsKeys(db: Tables, d: DocId, version: nat, rows: set<ChunkId>)
    requires ForeignKeys(db) && d in db.docs
    ensures var r := ReplaceForVersion(db, d, version, rows); r.Applied? ==> ForeignKeys(r.db)
    ensures ReplaceForVersion(db, d, version, rows).Refused? <==>
              exists c :: c in ChunksOf(db, d, version) && HasVector(db, c)
  {
    if !Deletable(db, ChunksOf(db, d, version)) {
      var v :| v in db.vectors && v.chunk in ChunksOf(db, d, version);
      assert HasVector(db, v.chunk);
    }
  }

  lemma PurgeKeepsKeys(db: Tables)
    requires ForeignKeys(db)
    ensures ForeignKeys(PurgeSuperseded(db))
    ensures ActiveChunks(PurgeSuperseded(db)) == ActiveChunks(db)
    ensures forall v :: v in db.vectors && v.chunk in ActiveChunks(db) ==> v in PurgeSuperseded(db).vectors
  {}

  /** A row that is not there, or deleted, takes no write. */
  lemma HiddenRowsStay(db: Tables, d: DocId, status: Status, statuses: Guard<set<Status>>, version: Guard<nat>, next: nat)
    requires d !in db.docs || db.docs[d].deleted
    ensures SetStatus(db, d, status, statuses, version) == StartNewVersion(db, d, next) == SoftDelete(db, d) == db
  {}
}
