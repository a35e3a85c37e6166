/** The repositories of backend/repositories/knowledge.py as an object whose tables change in place.
    Each method is proved against the function of the same name in `KnowledgeTables`. */
module KnowledgeStore {
  import opened T = KnowledgeTables

  class Store {
    var docs: map<DocId, Document>
    var chunks: map<ChunkId, Chunk>
    var vectors: set<Vector>

    function Db(): Tables
      reads this
    {
      Tables(docs, chunks, vectors)
    }

    constructor (db: Tables)
      ensures Db() == db
    {
      docs, chunks, vectors := db.docs, db.chunks, db.vectors;
    }

    /** Number of rows written: the caller's only sign that the world has moved on. */
    method SetStatus(d: DocId, status: Status, statuses: Guard<set<Status>>, version: Guard<nat>) returns (rows: nat)
      modifies this`docs
      ensures Db() == T.SetStatus(old(Db()), d, status, statuses, version)
      ensures rows == if StatusMatches(old(Db()), d, statuses, version) then 1 else 0
    {
      rows := 0;
      if d in docs && !docs[d].deleted {
        if statuses.Expect? && docs[d].status !in statuses.value {
          return;
        }
        if version.Expect? && docs[d].version != version.value {
          return;
        }
        docs := docs[d := docs[d].(status := status)];
        rows := 1;
      }
    }

    method StartNewVersion(d: DocId, version: nat)
      modifies this`docs
      ensures Db() == T.StartNewVersion(old(Db()), d, version)
    {
      if d in docs && !docs[d].deleted {
        docs := docs[d := Document(version, Uploaded, false)];
      }
    }

    method SoftDelete(d: DocId)
      modifies this`docs
      ensures Db() == T.SoftDelete(old(Db()), d)
    {
      if d in docs && !docs[d].deleted {
        docs := docs[d := docs[d].(deleted := true)];
      }
    }

    method SupersedeForDocument(d: DocId)
      modifies this`chunks
      ensures Db() == Supersede(old(Db()), d)
    {
      chunks := map c | c in chunks :: if chunks[c].doc == d then chunks[c].(superseded := true) else chunks[c];
    }

    method ReplaceForVersion(d: DocId, version: nat, rows: set<ChunkId>) returns (ok: bool)
      modifies this`chunks
      ensures var r := T.ReplaceForVersion(old(Db()), d, version, rows);
              ok == r.Applied? && Db() == if ok then r.db else old(Db())
    {
      var stale := ChunksOf(Db(), d, version);
      ok := Deletable(Db(), stale);
      if ok {
        chunks := map c | c in (chunks.Keys - stale) + rows :: if c in rows then Chunk(d, version, false) else chunks[c];
      }
    }

    method Upsert(batch: set<ChunkId>, model: string, generation: nat) returns (ok: bool)
      modifies this`vectors
      ensures var r := T.Upsert(old(Db()), batch, model, generation);
              ok == r.Applied? && Db() == if ok then r.db else old(Db())
    {
      ok := batch <= chunks.Keys;
      if ok {
        vectors := vectors + VectorsFor(batch, model, generation);
      }
    }
  }
}
