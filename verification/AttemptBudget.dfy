/**
 * What attempts mean over whole runs: they count the failures since the last reset, and what is
 * left of them bounds how often jobs can still be completed or failed.
 */
module AttemptBudget {
  import opened QueueTable
  import opened LeaseProtocol
  import opened FiniteSum

  // --- attempts count the owner's failures since the last reset ---

  /** The step gives the entity's row a new life: it is inserted, overwritten, revived or retried. */
  ghost predicate Resets(s: Sys, step: Step, k: Key) {
    match step
    case Enqueue(input, _) => input.key == k && !Dedups(s.jobs, input)
    case LateUpsert(input, _) => input.key == k
    case Backfill(input, _) => input.key == k && BackfillApplies(s.jobs, k)
    case RetryJob(id, repo) => k in s.jobs && Matches(Retry(id, repo), s.jobs[k], s.now)
    case RetryAllPoison(repo) => k in s.jobs && Matches(RetryAll(repo), s.jobs[k], s.now)
    case _ => false
  }

  /** The UPDATE of a failure reaches the row: its owner has failed the job. */
  ghost predicate OwnerFails(s: Sys, step: Step, k: Key)
    requires Enabled(s, step)
  {
    step.FailWrite? && k in s.jobs && Matches(s.tickets[step.ticket].update, s.jobs[k], s.now)
  }

  /** Counted from the history alone, starting from `sofar` failures. */
  ghost function FailuresSinceReset(s: Sys, steps: seq<Step>, threshold: nat, k: Key, sofar: nat): nat
    requires IsRun(s, steps, threshold)
    decreases |steps|
  {
    if steps == [] then sofar
    else
      var next := if Resets(s, steps[0], k) then 0 else if OwnerFails(s, steps[0], k) then sofar + 1 else sofar;
      FailuresSinceReset(Apply(s, steps[0], threshold), steps[1..], threshold, k, next)
  }

  lemma UpdateAttempts(t: Table, u: Update, now: int, k: Key)
    requires k in t
    ensures UpdateRows(t, u, now)[k].attempts ==
              if !Matches(u, t[k], now) then t[k].attempts
              else match u
                   case Fail(_, _, _, _, _) => t[k].attempts + 1
                   case Retry(_, _) => 0
                   case RetryAll(_) => 0
                   case _ => t[k].attempts
  {
  }

  ghost predicate Counted(s: Sys, step: Step, threshold: nat, k: Key)
    requires Enabled(s, step) && k in Apply(s, step, threshold).jobs
  {
    var now := Apply(s, step, threshold).jobs[k].attempts;
    if Resets(s, step, k) then now == 0
    else k in s.jobs && now == s.jobs[k].attempts + if OwnerFails(s, step, k) then 1 else 0
  }

  lemma UpdateCounts(s: Sys, step: Step, threshold: nat, k: Key)
    requires Inv(s, threshold) && Enabled(s, step) && k in Apply(s, step, threshold).jobs
    requires step.CompleteJob? || step.ReleaseJob? || step.FailWrite? || step.ReconcileLeases? || step.RetryJob? || step.RetryAllPoison?
    ensures Counted(s, step, threshold, k)
  {
    hide UpdateRows, Matches, RowsOk, IdsOk, BatchesOk;
    match step
    case CompleteJob(id, tok) => UpdateAttempts(s.jobs, Complete(id, tok), s.now, k);
    case ReleaseJob(id, tok) => UpdateAttempts(s.jobs, Release(id, tok), s.now, k);
    case FailWrite(n) =>
      assert TicketOk(s.jobs, s.issued, s.tickets[n], threshold);
      UpdateAttempts(s.jobs, s.tickets[n].update, s.now, k);
    case ReconcileLeases => UpdateAttempts(s.jobs, Reconcile, s.now, k);
    case RetryJob(id, repo) => UpdateAttempts(s.jobs, Retry(id, repo), s.now, k);
    case RetryAllPoison(repo) => UpdateAttempts(s.jobs, RetryAll(repo), s.now, k);
  }

  /** One step: the attempts of a row that stays in the table move as the count does. */
  lemma StepCounts(s: Sys, step: Step, threshold: nat, k: Key)
    requires Inv(s, threshold) && Enabled(s, step) && k in Apply(s, step, threshold).jobs
    ensures Counted(s, step, threshold, k)
  {
    hide UpdateRows, IsClaimBatch, RowsOk, IdsOk, BatchesOk, TicketsOk;
    match step
    case Enqueue(_, _) =>
    case LateUpsert(_, _) =>
    case Backfill(_, _) =>
    case Claim(_, _, _, _) =>
    case Remove(_) =>
    case PurgeEntities(_) =>
    case Clock(_) =>
    case ReadBatch(_) =>
    case FailRead(_, _, _, _, _, _) =>
    case _ => UpdateCounts(s, step, threshold, k);
  }

  lemma {:induction false} AttemptsCountFailures(s: Sys, steps: seq<Step>, threshold: nat, k: Key, sofar: nat)
    requires threshold >= 1 && Inv(s, threshold) && IsRun(s, steps, threshold)
    requires k in s.jobs ==> s.jobs[k].attempts == sofar
    ensures k in After(s, steps, threshold).jobs ==>
              After(s, steps, threshold).jobs[k].attempts == FailuresSinceReset(s, steps, threshold, k, sofar)
    decreases |steps|
  {
    if steps != [] {
      var s' := Apply(s, steps[0], threshold);
      StepKeepsInv(s, steps[0], threshold);
      var next := if Resets(s, steps[0], k) then 0 else if OwnerFails(s, steps[0], k) then sofar + 1 else sofar;
      if k in s'.jobs {
        StepCounts(s, steps[0], threshold, k);
      }
      AttemptsCountFailures(s', steps[1..], threshold, k, next);
    }
  }

  // --- the budget ---

  /** What a row may still cost: nothing unless it is pending or claimed. */
  function Weight(t: Table, threshold: nat, k: Key): int {
    if k in t && Live(t[k]) then threshold - t[k].attempts else 0
  }

  function Weights(t: Table, threshold: nat): Key -> int {
    k => Weight(t, threshold, k)
  }

  /** The sum of (threshold - attempts) over the pending and claimed rows. */
  ghost function Budget(t: Table, threshold: nat): int {
    Sum(t.Keys, Weights(t, threshold))
  }

  /** The steps that add work: write-path enqueues, backfill inserts and administrators' retries. */
  predicate Refills(step: Step) {
    step.Enqueue? || step.LateUpsert? || step.Backfill? || step.RetryJob? || step.RetryAllPoison?
  }

  /** A completion or a failure that reaches a row. */
  ghost predicate Effective(s: Sys, step: Step)
    requires Enabled(s, step)
  {
    match step
    case CompleteJob(id, tok) => exists k :: k in s.jobs && Matches(Complete(id, tok), s.jobs[k], s.now)
    case FailWrite(n) => exists k :: k in s.jobs && Matches(s.tickets[n].update, s.jobs[k], s.now)
    case _ => false
  }

  lemma UpdateWeight(t: Table, u: Update, now: int, threshold: nat, k: Key)
    requires RowsOk(t, threshold) && !u.Retry? && !u.RetryAll?
    ensures Weight(UpdateRows(t, u, now), threshold, k) <= Weight(t, threshold, k)
    ensures (u.Complete? || u.Fail?) && k in t && Matches(u, t[k], now) ==>
              Weight(UpdateRows(t, u, now), threshold, k) < Weight(t, threshold, k)
  {
  }

  lemma StepWeight(s: Sys, step: Step, threshold: nat, k: Key)
    requires Inv(s, threshold) && Enabled(s, step) && !Refills(step)
    ensures Weight(Apply(s, step, threshold).jobs, threshold, k) <= Weight(s.jobs, threshold, k)
    ensures Apply(s, step, threshold).jobs.Keys <= s.jobs.Keys
  {
    match step
    case CompleteJob(id, tok) => UpdateWeight(s.jobs, Complete(id, tok), s.now, threshold, k);
    case ReleaseJob(id, tok) => UpdateWeight(s.jobs, Release(id, tok), s.now, threshold, k);
    case FailWrite(n) =>
      assert TicketOk(s.jobs, s.issued, s.tickets[n], threshold);
      UpdateWeight(s.jobs, s.tickets[n].update, s.now, threshold, k);
    case ReconcileLeases => UpdateWeight(s.jobs, Reconcile, s.now, threshold, k);
    case _ =>
  }

  /** Without a refill the budget never rises, and an effective completion or failure lowers it. */
  lemma StepSpends(s: Sys, step: Step, threshold: nat)
    requires Inv(s, threshold) && Enabled(s, step) && !Refills(step)
    ensures Budget(Apply(s, step, threshold).jobs, threshold) <= Budget(s.jobs, threshold)
    ensures Effective(s, step) ==> Budget(Apply(s, step, threshold).jobs, threshold) < Budget(s.jobs, threshold)
  {
    hide UpdateRows, RemoveRows, ClaimRows, Matches, IsClaimBatch, BatchesOk;
    var t := Apply(s, step, threshold).jobs;
    var keys := s.jobs.Keys;
    var was, left := Weights(s.jobs, threshold), Weights(t, threshold);
    forall k | k in keys
      ensures left(k) <= was(k)
    {
      StepWeight(s, step, threshold, k);
    }
    if keys == {} {
      assert t.Keys == {};
    } else {
      var k :| k in keys;
      StepWeight(s, step, threshold, k);
    }
    SumExtend(t.Keys, keys, left);
    SumLe(keys, left, was);
    if Effective(s, step) {
      var u := if step.CompleteJob? then Complete(step.id, step.tok) else s.tickets[step.ticket].update;
      if step.FailWrite? {
        assert TicketOk(s.jobs, s.issued, s.tickets[step.ticket], threshold);
      }
      var k :| k in s.jobs && Matches(u, s.jobs[k], s.now);
      UpdateWeight(s.jobs, u, s.now, threshold, k);
      SumLt(keys, left, was, k);
    }
  }

  ghost predicate NoRefills(steps: seq<Step>) {
    forall i :: 0 <= i < |steps| ==> !Refills(steps[i])
  }

  ghost function EffectiveSteps(s: Sys, steps: seq<Step>, threshold: nat): nat
    requires IsRun(s, steps, threshold)
    decreases |steps|
  {
    if steps == [] then 0
    else (if Effective(s, steps[0]) then 1 else 0) + EffectiveSteps(Apply(s, steps[0], threshold), steps[1..], threshold)
  }

  lemma BudgetNonNegative(t: Table, threshold: nat)
    requires RowsOk(t, threshold)
    ensures Budget(t, threshold) >= 0
  {
    SumNonNegative(t.Keys, Weights(t, threshold));
  }

  /**
   * However leases expire and claims are released, without new work at most as many completions
   * and failures take effect as the budget allows.
   */
  lemma {:induction false} BudgetBoundsRun(s: Sys, steps: seq<Step>, threshold: nat)
    requires threshold >= 1 && Inv(s, threshold) && IsRun(s, steps, threshold) && NoRefills(steps)
    ensures EffectiveSteps(s, steps, threshold) + Budget(After(s, steps, threshold).jobs, threshold)
         <= Budget(s.jobs, threshold)
    ensures EffectiveSteps(s, steps, threshold) <= Budget(s.jobs, threshold)
    decreases |steps|
  {
    RunKeepsInv(s, steps, threshold);
    BudgetNonNegative(After(s, steps, threshold).jobs, threshold);
    if steps != [] {
      assert !Refills(steps[0]);
      StepSpends(s, steps[0], threshold);
      StepKeepsInv(s, steps[0], threshold);
      BudgetBoundsRun(Apply(s, steps[0], threshold), steps[1..], threshold);
    }
  }
}
