/** The rebuild job as the object that advances it in place: `_embed_missing`, `_advance_embedding`,
    `_switch` of backend/services/knowledge/reindex.py and `purge_switched` of
    backend/services/knowledge/cleanup.py, each proved against its function in `Reindex`. */
module ReindexService {
  import opened T = KnowledgeTables
  import opened P = ReindexPlan
  import R = Reindex
  import L = DocumentLifecycle
  import S = KnowledgeStore

  class Service {
    const store: S.Store
    var kb: Kb
    var job: R.Job

    constructor (store: S.Store, kb: Kb, job: R.Job)
      ensures this.store == store && this.kb == kb && this.job == job
    {
      this.store, this.kb, this.job := store, kb, job;
    }

    function State(): R.State
      reads this, store
    {
      R.State(store.Db(), kb, job)
    }

    method Pending() returns (pending: seq<ChunkId>)
      ensures R.IsPending(State(), pending)
    {
      var rest := WithoutVector(store.Db(), ActiveChunks(store.Db()), job.model, job.generation);
      pending := [];
      while rest != {}
        invariant rest <= WithoutVector(store.Db(), ActiveChunks(store.Db()), job.model, job.generation)
        invariant L.Lists(pending, WithoutVector(store.Db(), ActiveChunks(store.Db()), job.model, job.generation) - rest)
        decreases rest
      {
        var c :| c in rest;
        rest := rest - {c};
        pending := pending + [c];
      }
    }

    /** Sixty-four texts a call, each call's rows stored before the next. */
    method EmbedMissing(provider: R.Provider) returns (raised: bool, ghost pending: seq<ChunkId>)
      modifies this`job, store`vectors
      ensures R.IsPending(old(State()), pending)
      ensures var run := R.EmbedAll(old(store.Db()), old(job.model), old(job.generation), pending, provider, 0);
              store.Db() == run.db && job == old(job).(model := run.model) && raised == run.raised
    {
      var rows := Pending();
      pending := rows;
      raised := false;
      var start: nat := 0;
      var call: nat := 0;
      while start < |rows|
        invariant start <= |rows| && !raised
        invariant job == old(job).(model := job.model)
        invariant store.docs == old(store.docs) && store.chunks == old(store.chunks)
        invariant forall c :: c in rows ==> c in store.chunks
        invariant R.EmbedAll(old(store.Db()), old(job.model), old(job.generation), pending, provider, 0)
                  == R.EmbedAll(store.Db(), job.model, job.generation, rows[start..], provider, call)
      {
        var reply := provider(call, job.model);
        if reply.Down? {
          raised := true;
          return;
        }
        ghost var rest := rows[start..];
        var batch := L.BatchOf(rows[start..]);
        assert forall c :: c in batch ==> c in rest;
        var model := R.Used(reply.model, job.model);
        var stored := store.Upsert(L.Elements(batch), model, job.generation);
        if model != job.model {
          job := job.(model := model);
        }
        start := start + |batch|;
        call := call + 1;
        assert rest[|batch|..] == rows[start..];
      }
      assert rows[start..] == [];
    }

    method Switch(model: string)
      modifies this`kb, this`job
      ensures kb == R.Switch(old(kb), old(job), model) && job == old(job).(status := Completed)
    {
      kb := kb.(model := model, generation := job.generation, indexed := job.knowledge);
      job := job.(status := Completed);
    }

    /** The transaction that counts and, when the count is full, switches. */
    method Settle(asked: string)
      modifies this`kb, this`job
      ensures State() == R.Settle(old(State()), asked)
    {
      var total := |ActiveChunks(store.Db())|;
      var done := CountForVersion(store.Db(), asked, job.generation);
      var embedded := if done < total then done else total;
      job := job.(total := total, embedded := embedded);
      if ReadyToSwitch(P.Embedding, total, done) {
        Switch(asked);
      }
    }

    /** The target name is read before the calls that may rewrite it. */
    method AdvanceEmbedding(provider: R.Provider) returns (ghost pending: seq<ChunkId>)
      modifies this, store`vectors
      ensures R.IsPending(old(State()), pending)
      ensures State() == R.AdvanceEmbedding(old(State()), pending, provider)
    {
      var model := job.model;
      var raised;
      raised, pending := EmbedMissing(provider);
      if raised {
        job := job.(status := P.Failed);
      } else {
        Settle(model);
      }
    }

    method PurgeSwitched() returns (purged: nat)
      modifies store`vectors
      ensures State() == R.PurgeSwitched(old(State()))
      ensures purged == |old(store.vectors) - store.vectors|
    {
      var kept := PurgeOtherVersions(store.Db(), kb.model, kb.generation).vectors;
      purged := |store.vectors - kept|;
      store.vectors := kept;
    }
  }
}
