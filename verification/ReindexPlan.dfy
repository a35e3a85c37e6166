/** What a rebuild of a knowledge base aims at and how its job moves on
    (backend/services/knowledge/reindex_plan.py). */
module ReindexPlan {
  import Text

  datatype JobStatus = Pending | Rechunking | Embedding | Completed | Failed

  const ACTIVE: set<JobStatus> := {Pending, Rechunking, Embedding}

  /** The columns of a knowledge base that a rebuild reads and writes. */
  datatype Kb = Kb(model: string, generation: nat, knowledge: nat, indexed: nat)

  datatype Option<T> = None | Some(value: T)

  datatype Plan = Plan(model: string, generation: nat, knowledge: nat, rechunk: bool)

  datatype PlanResult = Planned(plan: Plan) | Invalid

  predicate NeedsReindex(kb: Kb) {
    kb.knowledge != kb.indexed
  }

  /** `model_for`: a knowledge base without a model uses the configured default. */
  function ModelFor(kb: Kb, fallback: string): string {
    if kb.model != "" then kb.model else fallback
  }

  function PlanReindex(kb: Kb, fallback: string, target: Option<string>, rechunk: Option<bool>): PlanResult {
    var current := ModelFor(kb, fallback);
    var model := if target.None? then current else Text.Strip(target.value);
    var cut := if rechunk.None? then NeedsReindex(kb) else rechunk.value;
    if model == "" || (cut && model != current) then Invalid
    else Planned(Plan(model, if cut then kb.generation else kb.generation + 1, if cut then kb.knowledge else kb.indexed, cut))
  }

  function NextStatus(status: JobStatus, rechunk: bool): JobStatus {
    match status
    case Completed => Completed
    case Failed => Failed
    case Pending => if rechunk then Rechunking else Embedding
    case Rechunking => Embedding
    case Embedding => Completed
  }

  /** `ReindexProgress` with the clamp its caller applies. */
  predicate ReadyToSwitch(status: JobStatus, total: nat, done: nat) {
    status == Embedding && (if done < total then done else total) >= total
  }

  /** A plan aims at the name asked for, or at the current one when none is. It either cuts the chunks again
      and leaves model and generation alone, or opens the next generation and leaves the chunking version
      alone; there is no plan exactly when the target name is
      blank or a rechunk is asked for together with another model. */
  lemma PlanMeaning(kb: Kb, fallback: string, target: Option<string>, rechunk: Option<bool>)
    ensures var r := PlanReindex(kb, fallback, target, rechunk);
            && (r.Planned? ==> r.plan.model == if target.Some? then Text.Strip(target.value) else if kb.model == "" then fallback else kb.model)
            && (r.Planned? && rechunk.Some? ==> r.plan.rechunk == rechunk.value)
            && (r.Planned? && r.plan.rechunk ==>
                  r.plan.model == ModelFor(kb, fallback) && r.plan.generation == kb.generation && r.plan.knowledge == kb.knowledge)
            && (r.Planned? && !r.plan.rechunk ==>
                  r.plan.generation == kb.generation + 1 && r.plan.knowledge == kb.indexed)
            && (r.Planned? ==> r.plan.model != "" && (rechunk == None ==> (r.plan.rechunk <==> kb.knowledge != kb.indexed)))
    ensures PlanReindex(kb, fallback, target, rechunk).Invalid? <==>
              || (if target.Some? then Text.Blank(target.value) else kb.model == "" && fallback == "")
              || ((rechunk == Some(true) || (rechunk == None && kb.knowledge != kb.indexed)) &&
                  target.Some? && Text.Strip(target.value) != ModelFor(kb, fallback))
  {
    if target.Some? {
      Text.StripEmpty(target.value);
    }
  }

  function Walk(status: JobStatus, rechunk: bool, rounds: nat): JobStatus
    decreases rounds
  {
    if rounds == 0 then status else Walk(NextStatus(status, rechunk), rechunk, rounds - 1)
  }

  /** No job completes without having been in the embedding stage the round before, and a job that cuts
      chunks spends a round cutting them first. */
  lemma {:induction false} EmbeddingComesLast(rechunk: bool, rounds: nat)
    ensures Walk(Pending, rechunk, rounds) ==
              if rounds == 0 then Pending
              else if rechunk && rounds == 1 then Rechunking
              else if rounds == (if rechunk then 2 else 1) then Embedding
              else Completed
    ensures Walk(Failed, rechunk, rounds) == Failed
  {
    if rounds > 0 {
      EmbeddingComesLast(rechunk, rounds - 1);
      var first := NextStatus(Pending, rechunk);
      assert Walk(Pending, rechunk, rounds) == Walk(first, rechunk, rounds - 1);
      if rounds > 1 {
        var second := NextStatus(first, rechunk);
        assert Walk(first, rechunk, rounds - 1) == Walk(second, rechunk, rounds - 2);
        if rounds > 2 {
          assert Walk(second, rechunk, rounds - 2) == Walk(Completed, rechunk, rounds - 3);
          WalkEnds(rechunk, rounds - 3);
        }
      }
    }
  }

  lemma {:induction false} WalkEnds(rechunk: bool, rounds: nat)
    ensures Walk(Completed, rechunk, rounds) == Completed
  {
    if rounds > 0 {
      WalkEnds(rechunk, rounds - 1);
    }
  }
}
