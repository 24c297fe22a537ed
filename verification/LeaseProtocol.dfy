/**
 * The lease protocol as a state machine: several workers, writers, administrators and clocks act
 * on one `queue_jobs` table in an arbitrary interleaving, one SQL statement at a time.
 *
 * A claim is two steps (the UPDATE and the read-back of the batch), and so is a failure (the
 * guarded SELECT and the UPDATE). `Upsert` is the second half of an enqueue whose SELECT saw other
 * content, with any other steps in between. No step relies on the clock moving forward.
 */
module LeaseProtocol {
  import opened Options
  import opened QueueTable

  /** What a worker remembers between the SELECT and the UPDATE of `fail`. */
  datatype Ticket = Ticket(id: string, tok: Token, attempts: nat, update: Update)

  /**
   * `issued` are the tokens of all claims so far, `batches` what each read-back returned,
   * `tickets` the failures under way, `usedIds` the row ids drawn so far.
   */
  datatype Sys = Sys(
    jobs: Table,
    now: int,
    issued: set<Token>,
    batches: map<Token, Table>,
    tickets: map<nat, Ticket>,
    usedIds: set<string>)

  datatype Step =
    | Clock(to: int)
    | Enqueue(input: JobInput, newId: string)
    | LateUpsert(input: JobInput, newId: string)
    | Backfill(input: JobInput, newId: string)
    | Claim(tok: Token, max: nat, lease: int, chosen: set<Key>)
    | ReadBatch(tok: Token)
    | CompleteJob(id: string, tok: Token)
    | ReleaseJob(id: string, tok: Token)
    | FailRead(ticket: nat, id: string, tok: Token, error: string, base: int, cap: int)
    | FailWrite(ticket: nat)
    | ReconcileLeases
    | RetryJob(id: string, repo: string)
    | RetryAllPoison(repo: string)
    | Remove(removal: Removal)
    | PurgeEntities(keys: set<Key>)

  /** The environment's part: row ids and tokens are fresh, and a worker acts on tokens it has read back. */
  ghost predicate Enabled(s: Sys, step: Step) {
    match step
    case Enqueue(_, id) => id !in s.usedIds
    case LateUpsert(_, id) => id !in s.usedIds
    case Backfill(_, id) => id !in s.usedIds
    case Claim(tok, max, _, chosen) => tok !in s.issued && max > 0 && IsClaimBatch(s.jobs, s.now, max, chosen)
    case ReadBatch(tok) => tok in s.issued && tok !in s.batches
    case CompleteJob(_, tok) => tok in s.batches
    case ReleaseJob(_, tok) => tok in s.batches
    case FailRead(n, _, tok, _, _, _) => tok in s.batches && n !in s.tickets
    case FailWrite(n) => n in s.tickets
    case _ => true
  }

  /** The row `fail` finds with its guarded SELECT. */
  function OwnedKeys(t: Table, id: string, tok: Token): set<Key> {
    set k | k in t && Owned(t[k], id, tok)
  }

  ghost function Apply(s: Sys, step: Step, threshold: nat): Sys
    requires Enabled(s, step)
  {
    match step
    case Clock(to) => s.(now := to)
    case Enqueue(input, id) => s.(jobs := EnqueueJob(s.jobs, input, id, s.now), usedIds := s.usedIds + {id})
    case LateUpsert(input, id) => s.(jobs := QueueTable.Upsert(s.jobs, input, id, s.now), usedIds := s.usedIds + {id})
    case Backfill(input, id) => s.(jobs := EnqueueIfAbsent(s.jobs, input, id, s.now), usedIds := s.usedIds + {id})
    case Claim(tok, _, lease, chosen) =>
      s.(jobs := ClaimRows(s.jobs, chosen, tok, s.now, lease), issued := s.issued + {tok})
    case ReadBatch(tok) => s.(batches := s.batches[tok := ReadBack(s.jobs, tok)])
    case CompleteJob(id, tok) => s.(jobs := UpdateRows(s.jobs, Complete(id, tok), s.now))
    case ReleaseJob(id, tok) => s.(jobs := UpdateRows(s.jobs, Release(id, tok), s.now))
    case FailRead(n, id, tok, error, base, cap) =>
      var found := OwnedKeys(s.jobs, id, tok);
      if found == {} then s
      else
        var k :| k in found;
        var attempts := s.jobs[k].attempts;
        s.(tickets := s.tickets[n := Ticket(id, tok, attempts,
                                            FailUpdate(id, tok, attempts, error, threshold, base, cap, s.now))])
    case FailWrite(n) =>
      s.(jobs := UpdateRows(s.jobs, s.tickets[n].update, s.now), tickets := s.tickets - {n})
    case ReconcileLeases => s.(jobs := UpdateRows(s.jobs, Reconcile, s.now))
    case RetryJob(id, repo) => s.(jobs := UpdateRows(s.jobs, Retry(id, repo), s.now))
    case RetryAllPoison(repo) => s.(jobs := UpdateRows(s.jobs, RetryAll(repo), s.now))
    case Remove(removal) => s.(jobs := RemoveRows(s.jobs, removal))
    case PurgeEntities(keys) => s.(jobs := WithoutEntities(s.jobs, keys))
  }

  // --- the invariant of every reachable state ---

  /** The shape of a row under a fixed poison threshold. */
  predicate RowOk(row: Row, threshold: nat) {
    && (row.status.Pending? || row.status.Poison? ==> row.lockedBy.None? && row.leaseUntil.None?)
    && (row.status.Claimed? ==> row.lockedBy.Some? && row.leaseUntil.Some?)
    && (if row.status.Poison? then row.attempts == threshold else row.attempts < threshold)
  }

  ghost predicate RowsOk(t: Table, threshold: nat) {
    forall k :: k in t ==> RowOk(t[k], threshold)
  }

  ghost predicate IdsOk(t: Table, used: set<string>) {
    && (forall k :: k in t ==> t[k].id in used)
    && (forall k, l :: k in t && l in t && t[k].id == t[l].id ==> k == l)
  }

  ghost predicate TokensFrom(t: Table, issued: set<Token>) {
    forall k :: k in t && t[k].lockedBy.Some? ==> t[k].lockedBy.value in issued
  }

  /** Every token on a row was issued, and a batch that was read still describes the rows it owns. */
  ghost predicate BatchesOk(s: Sys) {
    && s.batches.Keys <= s.issued
    && TokensFrom(s.jobs, s.issued)
    && (forall tok, k :: tok in s.batches && k in s.jobs && s.jobs[k].status.Claimed? && s.jobs[k].lockedBy == Some(tok) ==>
          k in s.batches[tok] && s.batches[tok][k] == s.jobs[k])
  }

  ghost predicate TicketOk(t: Table, issued: set<Token>, ticket: Ticket, threshold: nat) {
    && ticket.tok in issued
    && ticket.update.Fail? && ticket.update.id == ticket.id && ticket.update.tok == ticket.tok
    && (ticket.update.poison <==> ticket.attempts + 1 >= threshold)
    && (forall k :: k in t && Owned(t[k], ticket.id, ticket.tok) ==> t[k].attempts == ticket.attempts)
  }

  ghost predicate TicketsOk(s: Sys, threshold: nat) {
    forall n :: n in s.tickets ==> TicketOk(s.jobs, s.issued, s.tickets[n], threshold)
  }

  ghost predicate Inv(s: Sys, threshold: nat) {
    && RowsOk(s.jobs, threshold)
    && IdsOk(s.jobs, s.usedIds)
    && BatchesOk(s)
    && TicketsOk(s, threshold)
  }

  function Empty(now: int): Sys {
    Sys(map[], now, {}, map[], map[], {})
  }

  /**
   * What a step does to the rows, as far as ownership goes: a row owned afterwards by an already
   * issued token was the same row before. Everything about stale tokens follows from this.
   */
  ghost predicate OwnersKept(before: Table, after: Table, issued: set<Token>) {
    forall k, tok :: k in after && tok in issued && after[k].status.Claimed? && after[k].lockedBy == Some(tok) ==>
      k in before && before[k] == after[k]
  }

  lemma UpdateKeepsOwners(t: Table, u: Update, now: int, issued: set<Token>)
    ensures OwnersKept(t, UpdateRows(t, u, now), issued)
  {
  }

  lemma StepKeepsOwners(s: Sys, step: Step, threshold: nat)
    requires Enabled(s, step) && Inv(s, threshold)
    ensures OwnersKept(s.jobs, Apply(s, step, threshold).jobs, s.issued)
  {
    hide UpdateRows, Inv, IsClaimBatch;
    match step
    case CompleteJob(id, tok) => UpdateKeepsOwners(s.jobs, Complete(id, tok), s.now, s.issued);
    case ReleaseJob(id, tok) => UpdateKeepsOwners(s.jobs, Release(id, tok), s.now, s.issued);
    case FailWrite(n) => UpdateKeepsOwners(s.jobs, s.tickets[n].update, s.now, s.issued);
    case ReconcileLeases => UpdateKeepsOwners(s.jobs, Reconcile, s.now, s.issued);
    case RetryJob(id, repo) => UpdateKeepsOwners(s.jobs, Retry(id, repo), s.now, s.issued);
    case RetryAllPoison(repo) => UpdateKeepsOwners(s.jobs, RetryAll(repo), s.now, s.issued);
    case _ =>
  }

  // --- one lemma per kind of statement: the shape of the rows ---

  /** A failure update carries the poison decision that the row's attempts call for. */
  ghost predicate DecisionFits(t: Table, u: Update, threshold: nat) {
    u.Fail? ==> forall k :: k in t && Owned(t[k], u.id, u.tok) ==> (u.poison <==> t[k].attempts + 1 >= threshold)
  }

  lemma UpsertKeepsRows(t: Table, input: JobInput, id: string, now: int, threshold: nat, used: set<string>)
    requires threshold >= 1 && RowsOk(t, threshold) && IdsOk(t, used) && id !in used
    ensures RowsOk(QueueTable.Upsert(t, input, id, now), threshold)
    ensures IdsOk(QueueTable.Upsert(t, input, id, now), used + {id})
  {
  }

  lemma ClaimKeepsRows(t: Table, chosen: set<Key>, tok: Token, now: int, lease: int, max: nat, threshold: nat, used: set<string>)
    requires RowsOk(t, threshold) && IdsOk(t, used) && IsClaimBatch(t, now, max, chosen)
    ensures RowsOk(ClaimRows(t, chosen, tok, now, lease), threshold)
    ensures IdsOk(ClaimRows(t, chosen, tok, now, lease), used)
  {
  }

  lemma UpdateKeepsRow(row: Row, u: Update, now: int, threshold: nat)
    requires threshold >= 1 && RowOk(row, threshold)
    requires u.Fail? && Owned(row, u.id, u.tok) ==> (u.poison <==> row.attempts + 1 >= threshold)
    ensures RowOk(RowAfter(u, row, now), threshold)
    ensures RowAfter(u, row, now).id == row.id
  {
  }

  lemma UpdateKeepsRows(t: Table, u: Update, now: int, threshold: nat, used: set<string>)
    requires threshold >= 1 && RowsOk(t, threshold) && IdsOk(t, used) && DecisionFits(t, u, threshold)
    ensures RowsOk(UpdateRows(t, u, now), threshold)
    ensures IdsOk(UpdateRows(t, u, now), used)
  {
    forall k | k in t
      ensures RowOk(RowAfter(u, t[k], now), threshold) && RowAfter(u, t[k], now).id == t[k].id
    {
      UpdateKeepsRow(t[k], u, now, threshold);
    }
  }

  lemma StepKeepsRows(s: Sys, step: Step, threshold: nat)
    requires threshold >= 1 && Enabled(s, step) && Inv(s, threshold)
    ensures RowsOk(Apply(s, step, threshold).jobs, threshold)
    ensures IdsOk(Apply(s, step, threshold).jobs, Apply(s, step, threshold).usedIds)
  {
    match step
    case Enqueue(input, id) => UpsertKeepsRows(s.jobs, input, id, s.now, threshold, s.usedIds);
    case LateUpsert(input, id) => UpsertKeepsRows(s.jobs, input, id, s.now, threshold, s.usedIds);
    case Backfill(input, id) => UpsertKeepsRows(s.jobs, input, id, s.now, threshold, s.usedIds);
    case Claim(tok, max, lease, chosen) => ClaimKeepsRows(s.jobs, chosen, tok, s.now, lease, max, threshold, s.usedIds);
    case CompleteJob(id, tok) => UpdateKeepsRows(s.jobs, Complete(id, tok), s.now, threshold, s.usedIds);
    case ReleaseJob(id, tok) => UpdateKeepsRows(s.jobs, Release(id, tok), s.now, threshold, s.usedIds);
    case FailWrite(n) =>
      assert TicketOk(s.jobs, s.issued, s.tickets[n], threshold);
      UpdateKeepsRows(s.jobs, s.tickets[n].update, s.now, threshold, s.usedIds);
    case ReconcileLeases => UpdateKeepsRows(s.jobs, Reconcile, s.now, threshold, s.usedIds);
    case RetryJob(id, repo) => UpdateKeepsRows(s.jobs, Retry(id, repo), s.now, threshold, s.usedIds);
    case RetryAllPoison(repo) => UpdateKeepsRows(s.jobs, RetryAll(repo), s.now, threshold, s.usedIds);
    case _ =>
  }

  // --- tokens ---

  lemma UpdateKeepsTokens(t: Table, u: Update, now: int, issued: set<Token>)
    requires TokensFrom(t, issued)
    ensures TokensFrom(UpdateRows(t, u, now), issued)
  {
  }

  lemma StepKeepsIssued(s: Sys, step: Step, threshold: nat)
    requires Enabled(s, step) && Inv(s, threshold)
    ensures s.issued <= Apply(s, step, threshold).issued
    ensures TokensFrom(Apply(s, step, threshold).jobs, Apply(s, step, threshold).issued)
  {
    hide UpdateRows, IsClaimBatch, RowsOk, IdsOk, TicketsOk;
    match step
    case CompleteJob(id, tok) => UpdateKeepsTokens(s.jobs, Complete(id, tok), s.now, s.issued);
    case ReleaseJob(id, tok) => UpdateKeepsTokens(s.jobs, Release(id, tok), s.now, s.issued);
    case FailWrite(n) => UpdateKeepsTokens(s.jobs, s.tickets[n].update, s.now, s.issued);
    case ReconcileLeases => UpdateKeepsTokens(s.jobs, Reconcile, s.now, s.issued);
    case RetryJob(id, repo) => UpdateKeepsTokens(s.jobs, Retry(id, repo), s.now, s.issued);
    case RetryAllPoison(repo) => UpdateKeepsTokens(s.jobs, RetryAll(repo), s.now, s.issued);
    case _ =>
  }

  lemma StepKeepsBatches(s: Sys, step: Step, threshold: nat)
    requires Enabled(s, step) && Inv(s, threshold)
    ensures BatchesOk(Apply(s, step, threshold))
  {
    hide UpdateRows, ClaimRows, RemoveRows, IsClaimBatch, RowsOk, IdsOk, TicketsOk;
    StepKeepsOwners(s, step, threshold);
    StepKeepsIssued(s, step, threshold);
    var after := Apply(s, step, threshold);
    if step.ReadBatch? {
    } else {
      assert after.batches == s.batches;
      forall tok, k | tok in s.batches && k in after.jobs && after.jobs[k].status.Claimed? && after.jobs[k].lockedBy == Some(tok)
        ensures k in s.batches[tok] && s.batches[tok][k] == after.jobs[k]
      {
        assert s.jobs[k] == after.jobs[k];
      }
    }
  }

  lemma TicketStaysOk(before: Table, after: Table, issued: set<Token>, issued': set<Token>, ticket: Ticket, threshold: nat)
    requires TicketOk(before, issued, ticket, threshold) && OwnersKept(before, after, issued) && issued <= issued'
    ensures TicketOk(after, issued', ticket, threshold)
  {
    forall k | k in after && Owned(after[k], ticket.id, ticket.tok)
      ensures after[k].attempts == ticket.attempts
    {
      assert before[k] == after[k];
    }
  }

  /** The guarded SELECT finds at most one row, so the ticket speaks of every row the UPDATE can match. */
  lemma NewTicketOk(s: Sys, n: nat, id: string, tok: Token, error: string, base: int, cap: int, threshold: nat)
    requires Inv(s, threshold) && tok in s.batches && n !in s.tickets
    ensures var s' := Apply(s, FailRead(n, id, tok, error, base, cap), threshold);
            n in s'.tickets ==> TicketOk(s'.jobs, s'.issued, s'.tickets[n], threshold)
  {
    var found := OwnedKeys(s.jobs, id, tok);
    forall k, l | k in found && l in found
      ensures k == l
    {
    }
  }

  lemma StepKeepsTickets(s: Sys, step: Step, threshold: nat)
    requires Enabled(s, step) && Inv(s, threshold)
    ensures TicketsOk(Apply(s, step, threshold), threshold)
  {
    hide UpdateRows, ClaimRows, RemoveRows, IsClaimBatch, RowsOk, IdsOk, OwnersKept, TokensFrom;
    StepKeepsOwners(s, step, threshold);
    StepKeepsIssued(s, step, threshold);
    var after := Apply(s, step, threshold);
    if step.FailRead? {
      NewTicketOk(s, step.ticket, step.id, step.tok, step.error, step.base, step.cap, threshold);
    }
    forall n | n in after.tickets
      ensures TicketOk(after.jobs, after.issued, after.tickets[n], threshold)
    {
      if n in s.tickets {
        assert after.tickets[n] == s.tickets[n];
        TicketStaysOk(s.jobs, after.jobs, s.issued, after.issued, s.tickets[n], threshold);
      }
    }
  }

  lemma StepKeepsInv(s: Sys, step: Step, threshold: nat)
    requires threshold >= 1 && Enabled(s, step) && Inv(s, threshold)
    ensures Inv(Apply(s, step, threshold), threshold)
  {
    StepKeepsRows(s, step, threshold);
    StepKeepsBatches(s, step, threshold);
    StepKeepsTickets(s, step, threshold);
  }

  // --- runs ---

  ghost predicate IsRun(s: Sys, steps: seq<Step>, threshold: nat)
    decreases |steps|
  {
    steps != [] ==> Enabled(s, steps[0]) && IsRun(Apply(s, steps[0], threshold), steps[1..], threshold)
  }

  ghost function After(s: Sys, steps: seq<Step>, threshold: nat): Sys
    requires IsRun(s, steps, threshold)
    decreases |steps|
  {
    if steps == [] then s else After(Apply(s, steps[0], threshold), steps[1..], threshold)
  }

  lemma {:induction false} RunKeepsInv(s: Sys, steps: seq<Step>, threshold: nat)
    requires threshold >= 1 && Inv(s, threshold) && IsRun(s, steps, threshold)
    ensures Inv(After(s, steps, threshold), threshold)
    decreases |steps|
  {
    if steps != [] {
      StepKeepsInv(s, steps[0], threshold);
      RunKeepsInv(Apply(s, steps[0], threshold), steps[1..], threshold);
    }
  }

  /** Every state reached from the empty table has well-shaped rows, honest batches and honest tickets. */
  lemma ReachableInv(now: int, steps: seq<Step>, threshold: nat)
    requires threshold >= 1 && IsRun(Empty(now), steps, threshold)
    ensures Inv(After(Empty(now), steps, threshold), threshold)
  {
    RunKeepsInv(Empty(now), steps, threshold);
  }

  /** A pending or claimed row goes by the purge of its entity, and by nothing else. */
  lemma LiveRowGoesByPurgeOnly(s: Sys, step: Step, threshold: nat, k: Key)
    requires Enabled(s, step) && k in s.jobs && Live(s.jobs[k])
    ensures k !in Apply(s, step, threshold).jobs <==> step.PurgeEntities? && k in step.keys
  {
  }

  // --- stale tokens ---

  ghost predicate Owns(s: Sys, tok: Token, k: Key) {
    k in s.jobs && s.jobs[k].status.Claimed? && s.jobs[k].lockedBy == Some(tok)
  }

  /** A token that has lost a row, or never had it, does not get it in any continuation. */
  lemma {:induction false} StaleForever(s: Sys, steps: seq<Step>, threshold: nat, tok: Token, k: Key)
    requires threshold >= 1 && Inv(s, threshold) && IsRun(s, steps, threshold)
    requires tok in s.issued && !Owns(s, tok, k)
    ensures !Owns(After(s, steps, threshold), tok, k)
    decreases |steps|
  {
    if steps != [] {
      StepKeepsOwners(s, steps[0], threshold);
      StepKeepsIssued(s, steps[0], threshold);
      StepKeepsInv(s, steps[0], threshold);
      StaleForever(Apply(s, steps[0], threshold), steps[1..], threshold, tok, k);
    }
  }

  /** The token under which an update acts, if it is one of the three guarded by a token. */
  predicate GuardedBy(u: Update, tok: Token) {
    match u
    case Complete(_, t) => t == tok
    case Release(_, t) => t == tok
    case Fail(_, t, _, _, _) => t == tok
    case _ => false
  }

  /** Whatever happens after a token lost a row, completing, releasing or failing under it leaves the row as it is. */
  lemma StaleTokenChangesNothing(s: Sys, steps: seq<Step>, threshold: nat, tok: Token, k: Key, u: Update)
    requires threshold >= 1 && Inv(s, threshold) && IsRun(s, steps, threshold)
    requires tok in s.issued && !Owns(s, tok, k) && GuardedBy(u, tok)
    ensures var t := After(s, steps, threshold);
            k in t.jobs ==> UpdateRows(t.jobs, u, t.now)[k] == t.jobs[k]
  {
    StaleForever(s, steps, threshold, tok, k);
  }

  /** A re-claim takes the row away from every earlier token, for good. */
  lemma ReclaimSupersedes(s: Sys, tok: Token, max: nat, lease: int, chosen: set<Key>, k: Key, earlier: Token,
                          steps: seq<Step>, threshold: nat)
    requires threshold >= 1 && Inv(s, threshold) && Enabled(s, Claim(tok, max, lease, chosen))
    requires k in chosen && earlier in s.issued
    requires IsRun(Apply(s, Claim(tok, max, lease, chosen), threshold), steps, threshold)
    ensures !Owns(After(Apply(s, Claim(tok, max, lease, chosen), threshold), steps, threshold), earlier, k)
  {
    var s' := Apply(s, Claim(tok, max, lease, chosen), threshold);
    StepKeepsInv(s, Claim(tok, max, lease, chosen), threshold);
    StaleForever(s', steps, threshold, earlier, k);
  }

  /**
   * After any history, a completion or failure that changes a row finds it exactly as its token
   * read it when the batch came back: same payload, same hash, same attempts.
   */
  lemma ActsOnWhatWasRead(now: int, steps: seq<Step>, threshold: nat, tok: Token, k: Key, u: Update)
    requires threshold >= 1 && IsRun(Empty(now), steps, threshold)
    requires var t := After(Empty(now), steps, threshold);
             tok in t.batches && GuardedBy(u, tok) && k in t.jobs && UpdateRows(t.jobs, u, t.now)[k] != t.jobs[k]
    ensures var t := After(Empty(now), steps, threshold);
            k in t.batches[tok] && t.batches[tok][k] == t.jobs[k]
  {
    ReachableInv(now, steps, threshold);
  }

  /**
   * The two statements of `fail` with anything in between: if the UPDATE matches a row, the row
   * still has the attempts the SELECT read, and it turns poison exactly when the new count has
   * reached the threshold.
   */
  lemma FailDecidesOnCurrentAttempts(now: int, steps: seq<Step>, threshold: nat, n: nat, k: Key)
    requires threshold >= 1 && IsRun(Empty(now), steps, threshold)
    requires var t := After(Empty(now), steps, threshold);
             n in t.tickets && k in t.jobs && Matches(t.tickets[n].update, t.jobs[k], t.now)
    ensures var t := After(Empty(now), steps, threshold);
            var row := Apply(t, FailWrite(n), threshold).jobs[k];
            && t.jobs[k].attempts == t.tickets[n].attempts
            && row.attempts == t.tickets[n].attempts + 1
            && (row.status.Poison? <==> row.attempts == threshold)
            && (row.status.Pending? <==> row.attempts < threshold)
  {
    ReachableInv(now, steps, threshold);
    var t := After(Empty(now), steps, threshold);
    assert TicketOk(t.jobs, t.issued, t.tickets[n], threshold);
  }
}
