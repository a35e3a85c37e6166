/** The version columns of a knowledge base over whole runs of rebuild jobs, edits and clean-up
    (backend/services/knowledge/reindex.py; backend/services/knowledge/knowledge_bases.py counts the
    edits). Whatever else the workers do to the tables appears as one free step. */
module ReindexRuns {
  import opened T = KnowledgeTables
  import opened P = ReindexPlan
  import R = Reindex
  import Text

  /** The partial unique index lets a knowledge base have one active job. `asked` is the name an advance has
      read before its calls; it counts and switches under that name. */
  datatype World = World(db: Tables, kb: Kb, job: Option<R.Job>, asked: Option<string>)

  datatype Step =
    | Start(fallback: string, target: Option<string>, rechunk: Option<bool>)
    | Begin
    | FinishRechunking
    | EmbedCalls(db: Tables, model: string)
    | Settle
    | Fail
    | EditChunking
    | Purge
    | Elsewhere(db: Tables)

  predicate HasActive(w: World) {
    w.job.Some? && w.job.value.status in ACTIVE
  }

  predicate Enabled(w: World, step: Step) {
    match step
    case Begin => HasActive(w) && w.job.value.status == Pending
    case FinishRechunking => HasActive(w) && w.job.value.status == Rechunking
    case EmbedCalls(_, _) => HasActive(w) && w.job.value.status == P.Embedding
    case Settle => HasActive(w) && w.job.value.status == P.Embedding && w.asked.Some?
    case Fail => HasActive(w)
    case _ => true
  }

  /** `start`: refused with 409 while a job is active and with 422 when there is no plan. */
  function StartJob(w: World, fallback: string, target: Option<string>, rechunk: Option<bool>): World {
    if HasActive(w) then w
    else
      match PlanReindex(w.kb, fallback, target, rechunk)
      case Invalid => w
      case Planned(plan) =>
        w.(asked := None,
           job := Some(R.Job(Pending, plan.model, plan.generation, plan.knowledge, plan.rechunk, |ActiveChunks(w.db)|, 0)))
  }

  function Apply(w: World, step: Step): World
    requires Enabled(w, step)
  {
    match step
    case Start(fallback, target, rechunk) => StartJob(w, fallback, target, rechunk)
    case Begin => w.(job := Some(w.job.value.(status := NextStatus(Pending, w.job.value.rechunk))))
    case FinishRechunking => w.(job := Some(w.job.value.(status := P.Embedding, total := |ActiveChunks(w.db)|)))
    case EmbedCalls(db, model) => w.(db := db, asked := Some(w.job.value.model), job := Some(w.job.value.(model := model)))
    case Settle =>
      var s := R.Settle(R.State(w.db, w.kb, w.job.value), w.asked.value);
      World(s.db, s.kb, Some(s.job), None)
    case Fail => w.(job := Some(w.job.value.(status := P.Failed)))
    case EditChunking => w.(kb := w.kb.(knowledge := w.kb.knowledge + 1))
    case Purge => w.(db := PurgeOtherVersions(w.db, w.kb.model, w.kb.generation))
    case Elsewhere(db) => w.(db := db)
  }

  /** What an active job aims at, seen from the columns it will overwrite. */
  ghost predicate Inv(w: World) {
    && w.kb.indexed <= w.kb.knowledge
    && (HasActive(w) ==>
          var job := w.job.value;
          if job.rechunk then job.generation == w.kb.generation && w.kb.indexed <= job.knowledge <= w.kb.knowledge
          else job.generation == w.kb.generation + 1 && job.knowledge == w.kb.indexed)
  }

  predicate Switches(w: World, step: Step)
    requires Enabled(w, step)
  {
    step.Settle? && Apply(w, step).job.value.status == Completed
  }

  /** The columns move only when a job switches: a re-embedding opens the next generation and writes back
      the chunking version it found; a re-chunking keeps the generation and records the chunking version
      it started from. */
  lemma StepKeeps(w: World, step: Step)
    requires Inv(w) && Enabled(w, step)
    ensures var w1 := Apply(w, step);
            && Inv(w1)
            && w.kb.generation <= w1.kb.generation && w.kb.indexed <= w1.kb.indexed && w.kb.knowledge <= w1.kb.knowledge
            && (!Switches(w, step) ==> w1.kb == w.kb.(knowledge := w1.kb.knowledge))
            && (Switches(w, step) ==> w1.kb.model == w.asked.value && w1.kb.knowledge == w.kb.knowledge)
            && w1.kb.knowledge == (if step == EditChunking then w.kb.knowledge + 1 else w.kb.knowledge)
            && (Switches(w, step) && w.job.value.rechunk ==>
                  w1.kb.generation == w.kb.generation && w1.kb.indexed == w.job.value.knowledge)
            && (Switches(w, step) && !w.job.value.rechunk ==>
                  w1.kb.generation == w.kb.generation + 1 && w1.kb.indexed == w.kb.indexed)
  {}

  ghost predicate IsRun(worlds: seq<World>, steps: seq<Step>) {
    && |worlds| == |steps| + 1
    && worlds[0].job == None && worlds[0].asked == None && worlds[0].kb.indexed <= worlds[0].kb.knowledge
    && forall i {:trigger steps[i]} :: 0 <= i < |steps| ==> Enabled(worlds[i], steps[i]) && worlds[i + 1] == Apply(worlds[i], steps[i])
  }

  /** Along every run no version column ever goes back, and what the chunks were cut with never runs
      ahead of the settings. */
  lemma {:induction false} VersionsNeverGoBack(worlds: seq<World>, steps: seq<Step>, i: nat, j: nat)
    requires IsRun(worlds, steps) && i <= j < |worlds|
    ensures Inv(worlds[j])
    ensures worlds[i].kb.generation <= worlds[j].kb.generation
    ensures worlds[i].kb.indexed <= worlds[j].kb.indexed <= worlds[j].kb.knowledge
  {
    if j > 0 {
      VersionsNeverGoBack(worlds, steps, if i < j then i else j - 1, j - 1);
      StepKeeps(worlds[j - 1], steps[j - 1]);
    }
  }

  function SwitchedGenerations(worlds: seq<World>, steps: seq<Step>, n: nat): nat
    requires IsRun(worlds, steps) && n <= |steps|
  {
    if n == 0 then 0
    else SwitchedGenerations(worlds, steps, n - 1) +
         (if Switches(worlds[n - 1], steps[n - 1]) && !worlds[n - 1].job.value.rechunk then 1 else 0)
  }

  /** The generation counts the completed re-embeddings: no other job, and no failed one, uses one up. */
  lemma {:induction false} GenerationCountsSwitches(worlds: seq<World>, steps: seq<Step>, n: nat)
    requires IsRun(worlds, steps) && n <= |steps|
    ensures worlds[n].kb.generation == worlds[0].kb.generation + SwitchedGenerations(worlds, steps, n)
  {
    if n > 0 {
      GenerationCountsSwitches(worlds, steps, n - 1);
      VersionsNeverGoBack(worlds, steps, n - 1, n - 1);
      StepKeeps(worlds[n - 1], steps[n - 1]);
    }
  }

  // ---- The name a job ends with ----

  /** The provider reports the name a job asks for. */
  predicate SettledName(w: World, step: Step) {
    step.EmbedCalls? && w.job.Some? ==> step.model == w.job.value.model
  }

  lemma {:induction false} TargetUnderWay(worlds: seq<World>, steps: seq<Step>, i: nat, n: nat)
    requires IsRun(worlds, steps) && i < n <= |steps|
    requires steps[i].Start? && !HasActive(worlds[i]) && HasActive(worlds[i + 1])
    requires forall k :: i < k <= n ==> HasActive(worlds[k])
    requires forall k {:trigger steps[k]} :: i < k < n ==> SettledName(worlds[k], steps[k])
    ensures HasActive(worlds[n]) && HasActive(worlds[i + 1])
    ensures worlds[n].job.value.model == worlds[i + 1].job.value.model
    ensures worlds[n].asked.Some? ==> worlds[n].asked.value == worlds[i + 1].job.value.model
    ensures worlds[n].job.value.rechunk == worlds[i + 1].job.value.rechunk
  {
    assert worlds[i + 1] == Apply(worlds[i], steps[i]);
    if n > i + 1 {
      TargetUnderWay(worlds, steps, i, n - 1);
      assert SettledName(worlds[n - 1], steps[n - 1]) && worlds[n - 1 + 1] == Apply(worlds[n - 1], steps[n - 1]);
    }
  }

  /** A rebuild that completes while the provider keeps to the names it is asked for leaves the knowledge
      base under the name asked for when the job was started, or the one it had when none was. */
  lemma CompletedJobHasItsTarget(worlds: seq<World>, steps: seq<Step>, i: nat, n: nat)
    requires IsRun(worlds, steps) && i < n < |steps|
    requires steps[i].Start? && !HasActive(worlds[i]) && HasActive(worlds[i + 1])
    requires forall k :: i < k <= n ==> HasActive(worlds[k])
    requires forall k {:trigger steps[k]} :: i < k < n ==> SettledName(worlds[k], steps[k])
    requires Switches(worlds[n], steps[n])
    ensures worlds[n + 1].kb.model ==
            if steps[i].target.Some? then Text.Strip(steps[i].target.value)
            else if worlds[i].kb.model == "" then steps[i].fallback else worlds[i].kb.model
  {
    TargetUnderWay(worlds, steps, i, n);
    VersionsNeverGoBack(worlds, steps, n, n);
    StepKeeps(worlds[n], steps[n]);
    PlanMeaning(worlds[i].kb, steps[i].fallback, steps[i].target, steps[i].rechunk);
    assert worlds[i + 1] == Apply(worlds[i], steps[i]);
  }

  // ---- A job nothing interferes with ----

  ghost predicate Leads(w: World, steps: seq<Step>, w1: World)
    decreases |steps|
  {
    if steps == [] then w1 == w else Enabled(w, steps[0]) && Leads(Apply(w, steps[0]), steps[1..], w1)
  }

  /** A rebuild is taken up exactly when no job is pending, re-chunking or embedding and there is a plan; it
      begins as a pending job with the plan's aims, and nothing else changes. */
  lemma StartMeaning(w: World, fallback: string, target: Option<string>, rechunk: Option<bool>)
    ensures var busy := w.job.Some? && (w.job.value.status == Pending || w.job.value.status == Rechunking || w.job.value.status == P.Embedding);
            var plan, w1 := PlanReindex(w.kb, fallback, target, rechunk), Apply(w, Start(fallback, target, rechunk));
            if busy || plan.Invalid? then w1 == w
            else w1 == World(w.db, w.kb, Some(R.Job(Pending, plan.plan.model, plan.plan.generation, plan.plan.knowledge, plan.plan.rechunk,
                                                      |ActiveChunks(w.db)|, 0)), None)
  {}

  /** The steps of a job from its start to its switch, its calls leaving `db`. */
  function JobSteps(w: World, fallback: string, target: Option<string>, rechunk: Option<bool>, db: Tables): seq<Step>
    requires PlanReindex(w.kb, fallback, target, rechunk).Planned?
  {
    var plan := PlanReindex(w.kb, fallback, target, rechunk).plan;
    [Start(fallback, target, rechunk), Begin] + (if plan.rechunk then [FinishRechunking] else []) + [EmbedCalls(db, plan.model), Settle]
  }

  lemma LeadsOn(w: World, step: Step, more: seq<Step>, w1: World)
    requires Enabled(w, step) && Leads(Apply(w, step), more, w1)
    ensures Leads(w, [step] + more, w1)
  {
    assert ([step] + more)[1..] == more;
  }

  /** A job that is embedding, from its calls to the switch. */
  lemma CallsAndSwitch(w: World, db: Tables)
    requires w.job.Some? && w.job.value.status == P.Embedding && ForeignKeys(db)
    requires R.Candidates(db, w.job.value.model, w.job.value.generation) == ActiveChunks(db)
    ensures var job := w.job.value;
            Leads(w, [EmbedCalls(db, job.model), Settle],
                  World(db, Kb(job.model, job.generation, w.kb.knowledge, job.knowledge),
                        Some(job.(status := Completed, total := |ActiveChunks(db)|, embedded := |ActiveChunks(db)|)), None))
  {
    var job := w.job.value;
    R.CountSplits(db, job.model, job.generation);
    var w1 := Apply(w, EmbedCalls(db, job.model));
    assert WithoutVector(db, ActiveChunks(db), job.model, job.generation) == {};
    var w2 := Apply(w1, Settle);
    assert [EmbedCalls(db, job.model), Settle] == [EmbedCalls(db, job.model)] + ([Settle] + []);
    LeadsOn(w1, Settle, [], w2);
    LeadsOn(w, EmbedCalls(db, job.model), [Settle] + [], w2);
  }

  /** With the provider keeping to the name asked for and nobody else at work, a planned rebuild runs through:
      pending, re-chunking when chunks are to be cut, embedding, completed. It leaves the knowledge base on the
      target, in the next generation or with the settings its chunks were cut by. */
  lemma JobRunsThrough(w: World, fallback: string, target: Option<string>, rechunk: Option<bool>, db: Tables) returns (w1: World)
    requires !HasActive(w) && PlanReindex(w.kb, fallback, target, rechunk).Planned? && ForeignKeys(db)
    requires var plan := PlanReindex(w.kb, fallback, target, rechunk).plan;
             R.Candidates(db, plan.model, plan.generation) == ActiveChunks(db)
    ensures Leads(w, JobSteps(w, fallback, target, rechunk, db), w1)
    ensures var cut := if rechunk.Some? then rechunk.value else w.kb.knowledge != w.kb.indexed;
            && w1.db == db && w1.asked == None && w1.job.Some? && w1.job.value.status == Completed
            && w1.job.value.total == w1.job.value.embedded == |ActiveChunks(db)|
            && w1.kb == Kb(if target.Some? then Text.Strip(target.value) else if w.kb.model == "" then fallback else w.kb.model,
                           if cut then w.kb.generation else w.kb.generation + 1, w.kb.knowledge, if cut then w.kb.knowledge else w.kb.indexed)
  {
    var plan := PlanReindex(w.kb, fallback, target, rechunk).plan;
    PlanMeaning(w.kb, fallback, target, rechunk);
    var begun := Apply(w, Start(fallback, target, rechunk));
    var claimed := Apply(begun, Begin);
    var embedding := if plan.rechunk then Apply(claimed, FinishRechunking) else claimed;
    var job := embedding.job.value;
    w1 := World(db, Kb(job.model, job.generation, w.kb.knowledge, job.knowledge),
                Some(job.(status := Completed, total := |ActiveChunks(db)|, embedded := |ActiveChunks(db)|)), None);
    var calls := [EmbedCalls(db, plan.model), Settle];
    CallsAndSwitch(embedding, db);
    if plan.rechunk {
      LeadsOn(claimed, FinishRechunking, calls, w1);
    }
    var rest := (if plan.rechunk then [FinishRechunking] else []) + calls;
    assert plan.rechunk ==> rest == [FinishRechunking] + calls;
    assert !plan.rechunk ==> rest == calls;
    LeadsOn(begun, Begin, rest, w1);
    LeadsOn(w, Start(fallback, target, rechunk), [Begin] + rest, w1);
    assert JobSteps(w, fallback, target, rechunk, db) == [Start(fallback, target, rechunk)] + ([Begin] + rest);
  }

  /** The calls of an advance hand the reported name on to the next advance, while this one counts under the
      name it read; two advances in a row whose calls answer under another name first switch to that name. */
  lemma NameFollows(w: World, db: Tables, model: string, db2: Tables)
    requires w.job.Some? && w.job.value.status == P.Embedding && ForeignKeys(db2)
    requires R.Candidates(db2, model, w.job.value.generation) == ActiveChunks(db2)
    ensures Enabled(w, EmbedCalls(db, model))
    ensures var w1 := Apply(w, EmbedCalls(db, model));
            w1.asked == Some(w.job.value.model) &&
            (Apply(w1, Settle).job.value.status != Completed ==>
               Leads(Apply(w1, Settle), [EmbedCalls(db2, model), Settle],
                     World(db2, Kb(model, w.job.value.generation, w.kb.knowledge, w.job.value.knowledge),
                           Some(w.job.value.(status := Completed, model := model, total := |ActiveChunks(db2)|, embedded := |ActiveChunks(db2)|)),
                           None)))
  {
    var w2 := Apply(Apply(w, EmbedCalls(db, model)), Settle);
    if w2.job.value.status != Completed {
      CallsAndSwitch(w2, db2);
    }
  }

  /** What comes between: an active job may fail at any time, which makes room for another and changes nothing
      else; an edit, the clean-up and other workers are never held up by a job. */
  lemma OthersAreFree(w: World, db: Tables)
    ensures HasActive(w) ==>
              Enabled(w, Fail) && !HasActive(Apply(w, Fail)) && Apply(w, Fail).kb == w.kb && Apply(w, Fail).db == w.db
    ensures Enabled(w, FinishRechunking) ==>
              Apply(w, FinishRechunking) == w.(job := Some(w.job.value.(status := P.Embedding, total := |ActiveChunks(w.db)|)))
    ensures Enabled(w, EditChunking) && Apply(w, EditChunking) == w.(kb := w.kb.(knowledge := w.kb.knowledge + 1))
    ensures Enabled(w, Elsewhere(db)) && Apply(w, Elsewhere(db)) == w.(db := db)
    ensures var w1 := Apply(w, Purge);
            && Enabled(w, Purge) && w1 == w.(db := w1.db) && w1.db.docs == w.db.docs && w1.db.chunks == w.db.chunks
            && forall v :: v in w1.db.vectors <==> v in w.db.vectors && v.model == w.kb.model && v.generation == w.kb.generation
  {}

  // ---- Re-chunking and edits ----

  ghost predicate StillUnderWay(w0: World, w: World, edits: nat) {
    && HasActive(w0) && HasActive(w) && w.job.value.rechunk && w.job.value.knowledge == w0.job.value.knowledge
    && w.kb.knowledge == w0.kb.knowledge + edits && w.kb.indexed == w0.kb.indexed
  }

  function Edits(steps: seq<Step>, i: nat, n: nat): nat
    requires i <= n <= |steps|
    decreases n
  {
    if n == i then 0 else Edits(steps, i, n - 1) + (if steps[n - 1] == EditChunking then 1 else 0)
  }

  lemma {:induction false} RechunkUnderWay(worlds: seq<World>, steps: seq<Step>, i: nat, n: nat)
    requires IsRun(worlds, steps) && i < n <= |steps|
    requires steps[i].Start? && !HasActive(worlds[i]) && HasActive(worlds[i + 1]) && worlds[i + 1].job.value.rechunk
    requires forall k :: i < k <= n ==> HasActive(worlds[k])
    ensures StillUnderWay(worlds[i + 1], worlds[n], Edits(steps, i, n))
    ensures worlds[i + 1].job.value.knowledge == worlds[i].kb.knowledge == worlds[i + 1].kb.knowledge
  {
    assert worlds[i + 1] == Apply(worlds[i], steps[i]);
    if n == i + 1 {
      assert Edits(steps, i, n) == Edits(steps, i, i) + 0;
    } else {
      RechunkUnderWay(worlds, steps, i, n - 1);
      VersionsNeverGoBack(worlds, steps, n - 1, n - 1);
      assert worlds[n - 1 + 1] == Apply(worlds[n - 1], steps[n - 1]);
    }
  }

  /** When a re-chunking job completes, the knowledge base asks for another rebuild exactly when the
      chunking settings were edited while the job ran. */
  lemma RechunkSettlesUnlessEdited(worlds: seq<World>, steps: seq<Step>, i: nat, n: nat)
    requires IsRun(worlds, steps) && i < n < |steps|
    requires steps[i].Start? && !HasActive(worlds[i]) && HasActive(worlds[i + 1]) && worlds[i + 1].job.value.rechunk
    requires forall k :: i < k <= n ==> HasActive(worlds[k])
    requires Switches(worlds[n], steps[n])
    ensures NeedsReindex(worlds[n + 1].kb) <==> Edits(steps, i, n) > 0
  {
    RechunkUnderWay(worlds, steps, i, n);
    VersionsNeverGoBack(worlds, steps, n, n);
    StepKeeps(worlds[n], steps[n]);
  }
}
