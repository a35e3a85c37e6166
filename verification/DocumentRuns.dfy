/** Whole runs of the document protocol: what holds of a ready document in every interleaving, what a task
    that has fallen behind can do, and where the protocol depends on more than its guards. */
module DocumentRuns {
  import opened T = KnowledgeTables
  import opened L = DocumentLifecycle

  /** Every step of every worker keeps the invariant, the write of `chunked` under its condition. */
  lemma StepKeeps(cfg: Setting, w: World, step: Step)
    requires Inv(cfg, w) && Enabled(cfg, w, step) && Guarded(cfg, w, step)
    ensures Inv(cfg, Apply(cfg, w, step))
  {
    match step
    case Upload(d) => UploadKeeps(cfg, w, d);
    case StoreChunks(d, version, rows) => StoreKeeps(cfg, w, d, version, rows);
    case MarkChunked(d) => MarkKeepsExactly(cfg, w, d);
    case IngestStatus(d, status) => StatusKeeps(cfg, w, d, status, Any, Any);
    case Reingest(d) =>
      if Visible(w.db, d) {
        SupersedeKeeps(cfg, w, d, Document(w.db.docs[d].version + 1, Uploaded, false), Apply(cfg, w, step));
      }
    case Delete(d) =>
      if Visible(w.db, d) {
        SupersedeKeeps(cfg, w, d, w.db.docs[d].(deleted := true), Apply(cfg, w, step));
      }
    case Cleanup => CleanupKeeps(cfg, w);
    case Snapshot(t, d) =>
      assert DocOk(cfg, w, d);
      TasksKeep(cfg, w, Apply(cfg, w, step));
    case Enter(t) => EnterKeeps(cfg, w, t);
    case Query(t, lookup, listing) => QueryKeeps(cfg, w, t, lookup, listing);
    case Batch(t, reported) => BatchKeeps(cfg, w, t, reported);
    case FailPermanently(t) =>
      TasksKeep(cfg, w, Drop(w, t));
      StatusKeeps(cfg, Drop(w, t), w.tasks[t].doc, Failed, Any, Expect(w.tasks[t].version));
    case Crash(t) => TasksKeep(cfg, w, Drop(w, t));
    case Promote(t) => PromoteKeeps(cfg, w, t);
    case RetriesExhausted(d, t) =>
      TasksKeep(cfg, w, Drop(w, t));
      StatusKeeps(cfg, Drop(w, t), d, Failed, Expect({Chunked, Embedding}), Any);
  }

  // ---- Whole runs ----

  const START := World(Tables(map[], map[], {}), map[], {}, {}, map[])

  /** Worlds joined by enabled steps. */
  ghost predicate Joined(cfg: Setting, worlds: seq<World>, steps: seq<Step>) {
    && |worlds| == |steps| + 1
    && forall i {:trigger steps[i]} :: 0 <= i < |steps| ==> Enabled(cfg, worlds[i], steps[i]) && worlds[i + 1] == Apply(cfg, worlds[i], steps[i])
  }

  /** A run starts from the empty tables. */
  ghost predicate IsRun(cfg: Setting, worlds: seq<World>, steps: seq<Step>) {
    Joined(cfg, worlds, steps) && worlds[0] == START
  }

  ghost predicate GuardedTo(cfg: Setting, worlds: seq<World>, steps: seq<Step>, n: nat)
    requires |worlds| == |steps| + 1 && n <= |steps|
  {
    forall i {:trigger steps[i]} :: 0 <= i < n ==> Guarded(cfg, worlds[i], steps[i])
  }

  lemma {:induction false} RunKeeps(cfg: Setting, worlds: seq<World>, steps: seq<Step>, n: nat)
    requires IsRun(cfg, worlds, steps) && n <= |steps| && GuardedTo(cfg, worlds, steps, n)
    ensures Inv(cfg, worlds[n])
  {
    if n > 0 {
      RunKeeps(cfg, worlds, steps, n - 1);
      StepKeeps(cfg, worlds[n - 1], steps[n - 1]);
    }
  }

  /** In every interleaving in which no document is marked as chunked on behalf of a version it no longer
      has, whenever a document shows as ready one model name covers every active chunk of its current
      version, and there are such chunks exactly when that version has text. */
  lemma ReadyIsComplete(cfg: Setting, worlds: seq<World>, steps: seq<Step>, n: nat, d: DocId)
    requires IsRun(cfg, worlds, steps) && n <= |steps| && GuardedTo(cfg, worlds, steps, n)
    requires Visible(worlds[n].db, d) && worlds[n].db.docs[d].status == Ready
    ensures exists model :: Covered(worlds[n].db, Current(worlds[n], d), model, cfg.generation)
    ensures Current(worlds[n], d) != {} <==> cfg.hasText(d, worlds[n].db.docs[d].version)
  {
    RunKeeps(cfg, worlds, steps, n);
    assert DocOk(cfg, worlds[n], d);
    if d !in worlds[n].ingested {
      NothingStored(cfg, worlds[n], d);
    }
  }

  lemma NothingStored(cfg: Setting, w: World, d: DocId)
    requires Inv(cfg, w) && d in w.db.docs && d !in w.ingested
    ensures ChunksOf(w.db, d, w.db.docs[d].version) == {}
  {
    assert forall c :: c in w.db.chunks ==> ChunkOk(w, c);
  }

  /** Versions only grow, so a task that falls behind stays behind. */
  lemma VersionsGrow(cfg: Setting, w: World, step: Step, d: DocId)
    requires Enabled(cfg, w, step) && d in w.db.docs
    ensures var w1 := Apply(cfg, w, step);
            d in w1.db.docs && w.db.docs[d].version <= w1.db.docs[d].version && (w.db.docs[d].deleted ==> w1.db.docs[d] == w.db.docs[d])
  {}

  /** A task enters exactly when its document is visible, still of the version it loaded, and chunked, being
      embedded or ready; otherwise it ends and writes nothing. */
  lemma EnterExactly(cfg: Setting, w: World, t: TaskId)
    requires Enabled(cfg, w, Enter(t))
    ensures var w1, task, docs := Apply(cfg, w, Enter(t)), w.tasks[t], w.db.docs;
            if task.doc in docs && !docs[task.doc].deleted && docs[task.doc].version == task.version
               && (docs[task.doc].status.Chunked? || docs[task.doc].status.Embedding? || docs[task.doc].status.Ready?)
            then
              && w1.db == w.db.(docs := docs[task.doc := Document(task.version, T.Embedding, false)])
              && t in w1.tasks && w1.tasks[t] == Entered(task.doc, task.version)
            else w1.db == w.db && t !in w1.tasks
  {}

  /** The clean-up may come at any time; of the tables it takes the superseded chunks of ready documents with
      their vectors, and nothing else. */
  lemma CleanupExactly(cfg: Setting, w: World)
    requires ForeignKeys(w.db)
    ensures Enabled(cfg, w, Cleanup)
    ensures var w1 := Apply(cfg, w, Cleanup);
            && w1 == w.(db := w1.db) && w1.db.docs == w.db.docs
            && (forall c :: c in w1.db.chunks ==> c in w.db.chunks && w1.db.chunks[c] == w.db.chunks[c])
            && (forall c :: c in w.db.chunks ==>
                  (c !in w1.db.chunks <==> w.db.chunks[c].superseded && w.db.docs[w.db.chunks[c].doc].status.Ready?))
            && (forall v :: v in w1.db.vectors <==> v in w.db.vectors && v.chunk in w1.db.chunks)
  {}

  lemma {:induction false} VersionsAlong(cfg: Setting, worlds: seq<World>, steps: seq<Step>, n: nat, m: nat, d: DocId)
    requires IsRun(cfg, worlds, steps) && n <= m <= |steps| && d in worlds[n].db.docs
    ensures d in worlds[m].db.docs && worlds[n].db.docs[d].version <= worlds[m].db.docs[d].version
  {
    if n < m {
      VersionsAlong(cfg, worlds, steps, n, m - 1, d);
      VersionsGrow(cfg, worlds[m - 1], steps[m - 1], d);
    }
  }

  /** Step k stored the chunks of that version. */
  ghost predicate Stores(worlds: seq<World>, steps: seq<Step>, k: nat, d: DocId, version: nat)
    requires |worlds| == |steps| + 1 && k < |steps|
  {
    steps[k].StoreChunks? && steps[k].d == d && steps[k].version == version &&
    ReplaceForVersion(worlds[k].db, d, version, steps[k].rows).Applied?
  }

  /** What the history set says: some store before was one of the version the document now has. */
  lemma {:induction false} IngestedExactly(cfg: Setting, worlds: seq<World>, steps: seq<Step>, n: nat, d: DocId)
    requires IsRun(cfg, worlds, steps) && n <= |steps| && d in worlds[n].db.docs
    ensures d in worlds[n].ingested <==>
              exists k: nat :: k < n && Stores(worlds, steps, k, d, worlds[n].db.docs[d].version)
  {
    var w, w1, step := worlds[n - 1], worlds[n], steps[n - 1];
    var version := w1.db.docs[d].version;
    assert Enabled(cfg, w, step) && w1 == Apply(cfg, w, step);
    if d in w.db.docs && w.db.docs[d].version == version {
      IngestedExactly(cfg, worlds, steps, n - 1, d);
      assert d in w1.ingested <==> d in w.ingested || Stores(worlds, steps, n - 1, d, version);
    } else {
      assert d !in w1.ingested;
      forall k: nat | k < n ensures !Stores(worlds, steps, k, d, version) {
        if d in worlds[k].db.docs {
          VersionsAlong(cfg, worlds, steps, k, n - 1, d);
        }
      }
    }
  }

  /** The condition on the write of `chunked`, on the run: the document is gone, its version has no text, or
      a store before was one of its version. An ingest that compared its version in that write would meet it. */
  lemma GuardExactly(cfg: Setting, worlds: seq<World>, steps: seq<Step>, n: nat, d: DocId)
    requires IsRun(cfg, worlds, steps) && n < |steps| && steps[n] == MarkChunked(d)
    ensures Guarded(cfg, worlds[n], steps[n]) <==>
              (Visible(worlds[n].db, d) ==>
                 !cfg.hasText(d, worlds[n].db.docs[d].version)
                 || exists k: nat :: k < n && Stores(worlds, steps, k, d, worlds[n].db.docs[d].version))
  {
    if Visible(worlds[n].db, d) {
      IngestedExactly(cfg, worlds, steps, n, d);
    }
  }

  // ---- What search may rank ----

  /** Only current versions of documents that are not deleted have active chunks. */
  ghost predicate ActiveIsCurrent(w: World) {
    forall c :: c in w.db.chunks && !w.db.chunks[c].superseded ==>
      Visible(w.db, w.db.chunks[c].doc) && w.db.chunks[c].version == w.db.docs[w.db.chunks[c].doc].version
  }

  /** Chunks are stored while the document still has their version. */
  predicate InTime(w: World, step: Step) {
    step.StoreChunks? && step.rows != {} && ReplaceForVersion(w.db, step.d, step.version, step.rows).Applied? ==>
      Visible(w.db, step.d) && w.db.docs[step.d].version == step.version
  }

  /** `replace_for_version` does not look at the document either: a store behind its time, and nothing
      else, leaves active chunks of a version that is gone. */
  lemma ActiveIsCurrentExactly(cfg: Setting, w: World, step: Step)
    requires Enabled(cfg, w, step) && ActiveIsCurrent(w)
    ensures ActiveIsCurrent(Apply(cfg, w, step)) <==> InTime(w, step)
  {
    var w1 := Apply(cfg, w, step);
    if step.StoreChunks? && !InTime(w, step) {
      var c :| c in step.rows;
      assert w1.db.chunks[c] == Chunk(step.d, step.version, false);
    } else {
      forall c | c in w1.db.chunks && !w1.db.chunks[c].superseded
        ensures Visible(w1.db, w1.db.chunks[c].doc) && w1.db.chunks[c].version == w1.db.docs[w1.db.chunks[c].doc].version
      {
        ActiveStep(cfg, w, step, c);
      }
    }
  }

  lemma ActiveStep(cfg: Setting, w: World, step: Step, c: ChunkId)
    requires Enabled(cfg, w, step) && ActiveIsCurrent(w) && InTime(w, step)
    requires c in Apply(cfg, w, step).db.chunks && !Apply(cfg, w, step).db.chunks[c].superseded
    ensures var db := Apply(cfg, w, step).db;
            Visible(db, db.chunks[c].doc) && db.chunks[c].version == db.docs[db.chunks[c].doc].version
  {}

  lemma {:induction false} ActiveAlong(cfg: Setting, worlds: seq<World>, steps: seq<Step>, n: nat)
    requires IsRun(cfg, worlds, steps) && n <= |steps|
    requires forall i {:trigger steps[i]} :: 0 <= i < n ==> InTime(worlds[i], steps[i])
    ensures ActiveIsCurrent(worlds[n])
  {
    if n > 0 {
      ActiveAlong(cfg, worlds, steps, n - 1);
      ActiveIsCurrentExactly(cfg, worlds[n - 1], steps[n - 1]);
    }
  }

  // ---- Tasks that have fallen behind ----

  predicate TaskStep(step: Step) {
    step.Enter? || step.Query? || step.Batch? || step.FailPermanently? || step.Crash? || step.Promote?
  }

  /** A task whose document has moved to a newer version, or is deleted, changes no document. */
  lemma StaleTaskIsHarmless(cfg: Setting, w: World, step: Step)
    requires Enabled(cfg, w, step) && TaskStep(step) && !IsCurrent(w, w.tasks[step.t])
    ensures Apply(cfg, w, step).db.docs == w.db.docs
  {}

  /** No task is ahead of its document. */
  ghost predicate Behind(w: World) {
    forall t :: t in w.tasks ==> w.tasks[t].doc in w.db.docs && w.tasks[t].version <= w.db.docs[w.tasks[t].doc].version
  }

  lemma BehindKeeps(cfg: Setting, w: World, step: Step)
    requires Enabled(cfg, w, step) && Behind(w)
    ensures Behind(Apply(cfg, w, step))
  {
    var w1 := Apply(cfg, w, step);
    forall t | t in w1.tasks && t in w.tasks
      ensures w1.tasks[t].doc in w1.db.docs && w1.tasks[t].version <= w1.db.docs[w1.tasks[t].doc].version
    {
      VersionsGrow(cfg, w, step, w.tasks[t].doc);
    }
  }

  lemma {:induction false} BehindAlong(cfg: Setting, worlds: seq<World>, steps: seq<Step>, n: nat)
    requires IsRun(cfg, worlds, steps) && n <= |steps|
    ensures Behind(worlds[n])
  {
    if n > 0 {
      BehindAlong(cfg, worlds, steps, n - 1);
      BehindKeeps(cfg, worlds[n - 1], steps[n - 1]);
    }
  }

  /** A task that has fallen behind never catches up. */
  lemma StaleStaysStale(cfg: Setting, w: World, step: Step, w1: World, t: TaskId)
    requires Behind(w) && Enabled(cfg, w, step) && w1 == Apply(cfg, w, step)
    requires t in w.tasks && !IsCurrent(w, w.tasks[t]) && t in w1.tasks
    ensures !IsCurrent(w1, w1.tasks[t])
  {
    VersionsGrow(cfg, w, step, w.tasks[t].doc);
  }

  lemma {:induction false} StaleEverAfter(cfg: Setting, worlds: seq<World>, steps: seq<Step>, n: nat, m: nat, t: TaskId)
    requires IsRun(cfg, worlds, steps) && n <= m < |worlds|
    requires forall k :: n <= k <= m ==> t in worlds[k].tasks
    requires !IsCurrent(worlds[n], worlds[n].tasks[t])
    ensures !IsCurrent(worlds[m], worlds[m].tasks[t])
  {
    if m > n {
      StaleEverAfter(cfg, worlds, steps, n, m - 1, t);
      BehindAlong(cfg, worlds, steps, m - 1);
      StaleStaysStale(cfg, worlds[m - 1], steps[m - 1], worlds[m], t);
    }
  }

  /** Along every run, from the moment its document moves on a task changes no document row. */
  lemma StaleForGood(cfg: Setting, worlds: seq<World>, steps: seq<Step>, n: nat, m: nat, t: TaskId)
    requires IsRun(cfg, worlds, steps) && n <= m < |steps| && TaskStep(steps[m]) && steps[m].t == t
    requires forall k :: n <= k <= m ==> t in worlds[k].tasks
    requires !IsCurrent(worlds[n], worlds[n].tasks[t])
    ensures worlds[m + 1].db.docs == worlds[m].db.docs
  {
    StaleEverAfter(cfg, worlds, steps, n, m, t);
    StaleTaskIsHarmless(cfg, worlds[m], steps[m]);
  }

  // ---- Where a version is not compared ----

  /** There is a way from one world to another. */
  ghost predicate Leads(cfg: Setting, w: World, w1: World) {
    exists worlds, steps :: Joined(cfg, worlds, steps) && worlds[0] == w && worlds[|steps|] == w1
  }

  ghost predicate Reached(cfg: Setting, w: World) {
    Leads(cfg, START, w)
  }

  lemma LeadsToItself(cfg: Setting, w: World)
    ensures Leads(cfg, w, w)
  {
    assert Joined(cfg, [w], []);
  }

  lemma LeadsOn(cfg: Setting, w: World, w1: World, step: Step, w2: World)
    requires Leads(cfg, w, w1) && Enabled(cfg, w1, step) && Apply(cfg, w1, step) == w2
    ensures Leads(cfg, w, w2)
  {
    var worlds, steps :| Joined(cfg, worlds, steps) && worlds[0] == w && worlds[|steps|] == w1;
    assert Joined(cfg, worlds + [w2], steps + [step]);
  }

  /** `mark_retries_exhausted` compares no version: a task that gives up after its document has moved on
      fails the newer version exactly when that is chunked or being embedded. */
  lemma StaleExhaustionExactly(cfg: Setting, w: World, d: DocId, t: TaskId)
    requires Enabled(cfg, w, RetriesExhausted(d, t)) && t in w.tasks && !IsCurrent(w, w.tasks[t])
    ensures Apply(cfg, w, RetriesExhausted(d, t)).db.docs != w.db.docs <==>
              Visible(w.db, d) && w.db.docs[d].version != w.tasks[t].version && w.db.docs[d].status in {Chunked, Embedding}
  {
    if Visible(w.db, d) && w.db.docs[d].status in {Chunked, Embedding} {
      assert Apply(cfg, w, RetriesExhausted(d, t)).db.docs[d].status == Failed;
    }
  }

  /** One document, no vector yet. */
  function Shot(d: DocId, version: nat, status: Status, chunks: map<ChunkId, Chunk>, tasks: map<TaskId, Task>,
                ingested: set<DocId>, served: map<DocId, string>): World
  {
    World(Tables(map[d := Document(version, status, false)], chunks, {}), tasks, chunks.Keys, ingested, served)
  }

  /** The first version of a document is uploaded and its chunks are stored. */
  lemma FirstVersion(cfg: Setting, d: DocId, c: ChunkId)
    requires cfg.hasText(d, 1)
    ensures Reached(cfg, Shot(d, 1, Uploaded, map[c := Chunk(d, 1, false)], map[], {d}, map[]))
  {
    LeadsToItself(cfg, START);
    LeadsOn(cfg, START, START, Upload(d), Shot(d, 1, Uploaded, map[], map[], {}, map[]));
    LeadsOn(cfg, START, Shot(d, 1, Uploaded, map[], map[], {}, map[]), StoreChunks(d, 1, {c}),
                Shot(d, 1, Uploaded, map[c := Chunk(d, 1, false)], map[], {d}, map[]));
  }

  /** The second version is uploaded, the first one's ingest writes `chunked`, and an embed task enters. */
  lemma EntersTooSoon(cfg: Setting, d: DocId, t: TaskId, c: ChunkId)
    requires cfg.hasText(d, 1)
    ensures Reached(cfg, Shot(d, 2, Embedding, map[c := Chunk(d, 1, true)], map[t := Entered(d, 2)], {}, map[]))
  {
    FirstVersion(cfg, d, c);
    var chunks := map[c := Chunk(d, 1, true)];
    LeadsOn(cfg, START, Shot(d, 1, Uploaded, map[c := Chunk(d, 1, false)], map[], {d}, map[]), Reingest(d),
                Shot(d, 2, Uploaded, chunks, map[], {}, map[]));
    LeadsOn(cfg, START, Shot(d, 2, Uploaded, chunks, map[], {}, map[]), MarkChunked(d), Shot(d, 2, Chunked, chunks, map[], {}, map[]));
    LeadsOn(cfg, START, Shot(d, 2, Chunked, chunks, map[], {}, map[]), Snapshot(t, d),
                Shot(d, 2, Chunked, chunks, map[t := Loaded(d, 2)], {}, map[]));
    LeadsOn(cfg, START, Shot(d, 2, Chunked, chunks, map[t := Loaded(d, 2)], {}, map[]), Enter(t),
                Shot(d, 2, Embedding, chunks, map[t := Entered(d, 2)], {}, map[]));
  }

  /** The second version's chunks are stored. */
  lemma SecondStore(cfg: Setting, d: DocId, status: Status, tasks: map<TaskId, Task>, served: map<DocId, string>, c1: ChunkId, c2: ChunkId)
    requires c1 != c2 && cfg.hasText(d, 2)
    requires Reached(cfg, Shot(d, 2, status, map[c1 := Chunk(d, 1, true)], tasks, {}, served))
    ensures Reached(cfg, Shot(d, 2, status, map[c1 := Chunk(d, 1, true), c2 := Chunk(d, 2, false)], tasks, {d}, served))
  {
    LeadsOn(cfg, START, Shot(d, 2, status, map[c1 := Chunk(d, 1, true)], tasks, {}, served), StoreChunks(d, 2, {c2}),
                Shot(d, 2, status, map[c1 := Chunk(d, 1, true), c2 := Chunk(d, 2, false)], tasks, {d}, served));
  }

  lemma PromotesNothing(cfg: Setting, d: DocId, t: TaskId, c: ChunkId)
    requires Reached(cfg, Shot(d, 2, Embedding, map[c := Chunk(d, 1, true)], map[t := Entered(d, 2)], {}, map[]))
    ensures Reached(cfg, Shot(d, 2, Ready, map[c := Chunk(d, 1, true)], map[], {}, map[d := "m"]))
  {
    var chunks := map[c := Chunk(d, 1, true)];
    LeadsOn(cfg, START, Shot(d, 2, Embedding, chunks, map[t := Entered(d, 2)], {}, map[]), Query(t, "m", []),
                Shot(d, 2, Embedding, chunks, map[t := Working(d, 2, "m", [])], {}, map[]));
    LeadsOn(cfg, START, Shot(d, 2, Embedding, chunks, map[t := Working(d, 2, "m", [])], {}, map[]), Promote(t),
                Shot(d, 2, Ready, chunks, map[], {}, map[d := "m"]));
  }

  /** The status writes of an ingest compare no version. A slow ingest of version 1 writes `chunked` on
      version 2, an embed task finds nothing to embed and completes, and then the chunks of version 2 come:
      the document shows as ready and none of its active chunks has a vector. */
  lemma ReadyWithoutVectors(cfg: Setting, d: DocId, t: TaskId, c1: ChunkId, c2: ChunkId)
    requires c1 != c2 && cfg.hasText(d, 1) && cfg.hasText(d, 2)
    ensures exists w :: Reached(cfg, w) && Visible(w.db, d) && w.db.docs[d].status == Ready && Current(w, d) == {c2} && !HasVector(w.db, c2)
  {
    EntersTooSoon(cfg, d, t, c1);
    PromotesNothing(cfg, d, t, c1);
    SecondStore(cfg, d, Ready, map[], map[d := "m"], c1, c2);
    var w := Shot(d, 2, Ready, map[c1 := Chunk(d, 1, true), c2 := Chunk(d, 2, false)], map[], {d}, map[d := "m"]);
    assert Current(w, d) == {c2};
  }

  lemma MovesOn(cfg: Setting, d: DocId, t: TaskId, c: ChunkId)
    requires cfg.hasText(d, 1)
    ensures Reached(cfg, Shot(d, 2, Uploaded, map[c := Chunk(d, 1, true)], map[t := Loaded(d, 1)], {}, map[]))
  {
    FirstVersion(cfg, d, c);
    var first := map[c := Chunk(d, 1, false)];
    LeadsOn(cfg, START, Shot(d, 1, Uploaded, first, map[], {d}, map[]), MarkChunked(d), Shot(d, 1, Chunked, first, map[], {d}, map[]));
    LeadsOn(cfg, START, Shot(d, 1, Chunked, first, map[], {d}, map[]), Snapshot(t, d),
                Shot(d, 1, Chunked, first, map[t := Loaded(d, 1)], {d}, map[]));
    LeadsOn(cfg, START, Shot(d, 1, Chunked, first, map[t := Loaded(d, 1)], {d}, map[]), Reingest(d),
                Shot(d, 2, Uploaded, map[c := Chunk(d, 1, true)], map[t := Loaded(d, 1)], {}, map[]));
  }

  /** A task of version 1 gives up when version 2 is chunked, and version 2 fails. */
  lemma StaleTaskFailsNewVersion(cfg: Setting, d: DocId, t: TaskId, c1: ChunkId, c2: ChunkId)
    requires c1 != c2 && cfg.hasText(d, 1) && cfg.hasText(d, 2)
    ensures exists w :: Reached(cfg, w) && w.tasks == map[t := Loaded(d, 1)] && w.db.docs == map[d := Document(2, Chunked, false)]
                        && Apply(cfg, w, RetriesExhausted(d, t)).db.docs == map[d := Document(2, Failed, false)]
  {
    MovesOn(cfg, d, t, c1);
    var tasks := map[t := Loaded(d, 1)];
    SecondStore(cfg, d, Uploaded, tasks, map[], c1, c2);
    var both := map[c1 := Chunk(d, 1, true), c2 := Chunk(d, 2, false)];
    var w := Shot(d, 2, Chunked, both, tasks, {d}, map[]);
    LeadsOn(cfg, START, Shot(d, 2, Uploaded, both, tasks, {d}, map[]), MarkChunked(d), w);
    assert Apply(cfg, w, RetriesExhausted(d, t)).db.docs == map[d := Document(2, Failed, false)];
  }

  // ---- The condition is exact ----

  lemma {:induction false} Above(s: set<nat>) returns (n: nat)
    ensures forall x :: x in s ==> x < n
    decreases s
  {
    n := 0;
    if s != {} {
      var x :| x in s;
      var m := Above(s - {x});
      n := if m > x then m else x + 1;
      assert forall y :: y in s ==> y == x || y in s - {x};
    }
  }

  /** The same tables but for the status of one document. */
  predicate StatusOnly(w: World, d: DocId, status: Status, w1: World)
    requires d in w.db.docs
  {
    w1.used == w.used && w1.ingested == w.ingested && w1.db == w.db.(docs := w.db.docs[d := w.db.docs[d].(status := status)])
  }

  lemma EntersUnsettled(cfg: Setting, w: World, d: DocId, t: TaskId) returns (w1: World)
    requires Inv(cfg, w) && !Guarded(cfg, w, MarkChunked(d)) && t !in w.tasks
    ensures Leads(cfg, Apply(cfg, w, MarkChunked(d)), w1) && StatusOnly(w, d, Embedding, w1)
    ensures t in w1.tasks && w1.tasks[t] == Entered(d, w.db.docs[d].version)
  {
    var marked := Apply(cfg, w, MarkChunked(d));
    LeadsToItself(cfg, marked);
    var loaded := Apply(cfg, marked, Snapshot(t, d));
    LeadsOn(cfg, marked, marked, Snapshot(t, d), loaded);
    w1 := Apply(cfg, loaded, Enter(t));
    LeadsOn(cfg, marked, loaded, Enter(t), w1);
  }

  lemma PromotesUnsettled(cfg: Setting, w0: World, w: World, d: DocId, t: TaskId) returns (w1: World)
    requires d in w.db.docs && !w.db.docs[d].deleted && w.db.docs[d].status == Embedding && ChunksOf(w.db, d, w.db.docs[d].version) == {}
    requires t in w.tasks && w.tasks[t] == Entered(d, w.db.docs[d].version) && Leads(cfg, w0, w)
    ensures Leads(cfg, w0, w1) && StatusOnly(w, d, Ready, w1)
  {
    assert Missing(cfg, w.db, d, w.db.docs[d].version, "m") <= ChunksOf(w.db, d, w.db.docs[d].version);
    var queried := Apply(cfg, w, Query(t, "m", []));
    LeadsOn(cfg, w0, w, Query(t, "m", []), queried);
    w1 := Apply(cfg, queried, Promote(t));
    LeadsOn(cfg, w0, queried, Promote(t), w1);
  }

  lemma StoresTooLate(cfg: Setting, w0: World, w: World, d: DocId, c: ChunkId) returns (w1: World)
    requires Visible(w.db, d) && w.db.docs[d].status == Ready && ChunksOf(w.db, d, w.db.docs[d].version) == {}
    requires Leads(cfg, w0, w) && cfg.hasText(d, w.db.docs[d].version) && c !in w.used && !HasVector(w.db, c)
    ensures Leads(cfg, w0, w1) && Visible(w1.db, d) && w1.db.docs[d].status == Ready && c in Current(w1, d) && !HasVector(w1.db, c)
  {
    var version := w.db.docs[d].version;
    w1 := Apply(cfg, w, StoreChunks(d, version, {c}));
    LeadsOn(cfg, w0, w, StoreChunks(d, version, {c}), w1);
  }

  /** The condition on the write of `chunked` is needed, always: wherever it is not met, the write has a
      continuation in which the document shows as ready and no model name covers its active chunks. */
  lemma GuardIsNeeded(cfg: Setting, w: World, d: DocId)
    requires Inv(cfg, w) && !Guarded(cfg, w, MarkChunked(d))
    ensures exists w1 ::
              && Leads(cfg, Apply(cfg, w, MarkChunked(d)), w1) && Visible(w1.db, d) && w1.db.docs[d].status == Ready
              && forall model :: !Covered(w1.db, Current(w1, d), model, cfg.generation)
  {
    var t := Above(w.tasks.Keys);
    var c := Above(w.used);
    var marked := Apply(cfg, w, MarkChunked(d));
    NothingStored(cfg, w, d);
    var entered := EntersUnsettled(cfg, w, d, t);
    var promoted := PromotesUnsettled(cfg, marked, entered, d, t);
    assert !HasVector(w.db, c);
    var w1 := StoresTooLate(cfg, marked, promoted, d, c);
    forall model ensures !Covered(w1.db, Current(w1, d), model, cfg.generation) {
      assert c in Current(w1, d) && Vector(c, model, cfg.generation).chunk == c;
    }
  }
}
