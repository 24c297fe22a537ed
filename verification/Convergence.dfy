/**
 * What the queue is for: an entity with no unfinished job has a vector made from the last payload
 * enqueued for it. Each act of drainers, writers, administrators and maintenance is given the exact
 * condition under which it keeps this; two disciplines then keep it over whole histories.
 *
 * The machine is LeaseProtocol's, with the vectors beside it. A drainer's batch stays in memory
 * between its claim and the settling of each job; whether an entity exists is read once, and every
 * later statement goes by that answer; the vector write carries no token; and a crash may drop the
 * batch at any point. Any number of drainers may hold batches at the same time.
 */
module Convergence {
  import opened Options
  import opened QueueTable
  import opened LeaseProtocol

  /**
   * What a drainer holds: its token, the jobs still to settle, whether its check found their
   * entities, and those whose vector it has written.
   */
  datatype Batch = Batch(tok: Token, items: Table, live: map<Key, bool>, written: set<Key>)

  /**
   * `vectors` maps an entity to the hash stamped on its vector, `last` to the hash of the last
   * payload enqueued for it; `gone` are the entities a check does not find: deleted or canceled.
   */
  datatype World = World(q: Sys, vectors: map<Key, Hash>, last: map<Key, Hash>, gone: set<Key>, drains: map<nat, Batch>)

  datatype Act =
    | Env(step: Step)
    | Cancel(k: Key)
    | Reopen(k: Key)
    | Delete(keys: set<Key>)
    | StartClaim(d: nat, tok: Token, max: nat, lease: int, chosen: set<Key>)
    | Receive(d: nat)
    | Check(d: nat, keys: set<Key>)
    | WriteVector(d: nat, k: Key)
    | Finish(d: nat, k: Key)
    | GiveBack(d: nat, k: Key)
    | FailJob(d: nat, k: Key, ticket: nat, error: string, base: int, cap: int)
    | Skip(d: nat, k: Key)
    | End(d: nat)

  predicate OfDrainer(act: Act) {
    !act.Env? && !act.Cancel? && !act.Reopen? && !act.Delete?
  }

  /** Steps of writers, administrators and maintenance, and the second half of a failure under way. */
  predicate OfEnvironment(step: Step) {
    match step
    case Claim(_, _, _, _) => false
    case ReadBatch(_) => false
    case CompleteJob(_, _) => false
    case ReleaseJob(_, _) => false
    case FailRead(_, _, _, _, _, _) => false
    case PurgeEntities(_) => false
    case _ => true
  }

  predicate KeepsPoison(t: Table, step: Step) {
    step.Remove? ==> forall k :: k in t && Removes(step.removal, t[k]) ==> !t[k].status.Poison?
  }

  predicate Holds(w: World, d: nat, k: Key) {
    d in w.drains && k in w.drains[d].items
  }

  predicate Found(b: Batch, k: Key) {
    k in b.live && b.live[k]
  }

  predicate Absent(b: Batch, k: Key) {
    k in b.live && !b.live[k]
  }

  /** One SELECT of the check: jobs of one kind with a text to embed, not looked up before. */
  predicate MayCheck(b: Batch, keys: set<Key>) {
    && keys <= b.items.Keys
    && (forall k :: k in keys ==> b.items[k].payload.text != "" && k !in b.live)
    && (forall k, l :: k in keys && l in keys ==> k.kind == l.kind)
  }

  /** The job is completed without being applied: nothing to embed, or the check did not find the entity. */
  predicate NoOp(w: World, d: nat, k: Key)
    requires Holds(w, d, k)
  {
    w.drains[d].items[k].payload.text == "" || Absent(w.drains[d], k)
  }

  /** The job is applied: the check found the entity. */
  predicate Applies(w: World, d: nat, k: Key) {
    Holds(w, d, k) && Found(w.drains[d], k)
  }

  /** The drainer's token still owns the row of the job it holds. */
  predicate StillOwns(w: World, d: nat, k: Key) {
    Holds(w, d, k) && k in w.q.jobs && Owned(w.q.jobs[k], w.drains[d].items[k].id, w.drains[d].tok)
  }

  /** A delete archives memories, which keep their vectors, and drops everything of other entities. */
  function Doomed(keys: set<Key>): set<Key> {
    set k | k in keys && !k.kind.Memory?
  }

  /** The queue step of an act, for the acts that have one. */
  function QueueStep(w: World, act: Act): Step
    requires act.Env? || act.Delete? || act.StartClaim? || act.Receive? || act.Finish? || act.GiveBack? || act.FailJob?
    requires act.Receive? ==> act.d in w.drains
    requires act.Finish? || act.GiveBack? || act.FailJob? ==> Holds(w, act.d, act.k)
  {
    match act
    case Env(step) => step
    case Delete(keys) => PurgeEntities(keys)
    case StartClaim(_, tok, max, lease, chosen) => Claim(tok, max, lease, chosen)
    case Receive(d) => ReadBatch(w.drains[d].tok)
    case Finish(d, k) => CompleteJob(w.drains[d].items[k].id, w.drains[d].tok)
    case GiveBack(d, k) => ReleaseJob(w.drains[d].items[k].id, w.drains[d].tok)
    case FailJob(d, k, n, error, base, cap) => FailRead(n, w.drains[d].items[k].id, w.drains[d].tok, error, base, cap)
  }

  ghost predicate Possible(w: World, act: Act) {
    match act
    case Env(step) => OfEnvironment(step) && Enabled(w.q, step)
    case StartClaim(d, tok, max, lease, chosen) => d !in w.drains && Enabled(w.q, Claim(tok, max, lease, chosen))
    case Receive(d) => d in w.drains && Enabled(w.q, ReadBatch(w.drains[d].tok))
    case Check(d, keys) => d in w.drains && MayCheck(w.drains[d], keys)
    case WriteVector(d, k) => Applies(w, d, k) && !k.kind.CodebaseSymbol?
    case Finish(d, k) =>
      && Holds(w, d, k)
      && (NoOp(w, d, k) || (Applies(w, d, k) && (k.kind.CodebaseSymbol? || k in w.drains[d].written)))
      && Enabled(w.q, QueueStep(w, act))
    case GiveBack(d, k) => Applies(w, d, k) && Enabled(w.q, QueueStep(w, act))
    case FailJob(d, k, _, _, _, _) => Applies(w, d, k) && Enabled(w.q, QueueStep(w, act))
    case Skip(d, k) => Holds(w, d, k)
    case _ => true
  }

  function Settled(b: Batch, k: Key): Batch {
    b.(items := b.items - {k})
  }

  /** The hash a write-path or backfill step records: a deduplicated enqueue counts as well. */
  function LastAfter(t: Table, last: map<Key, Hash>, step: Step): map<Key, Hash> {
    match step
    case Enqueue(input, _) => last[input.key := ContentHash(input.payload)]
    case LateUpsert(input, _) => last[input.key := ContentHash(input.payload)]
    case Backfill(input, _) => if BackfillApplies(t, input.key) then last[input.key := ContentHash(input.payload)] else last
    case _ => last
  }

  /** The world after a queue step; drainers, vectors and entities as they were. */
  ghost function Queued(w: World, step: Step, threshold: nat): World
    requires Enabled(w.q, step)
  {
    w.(q := Apply(w.q, step, threshold), last := LastAfter(w.q.jobs, w.last, step))
  }

  ghost function Next(w: World, act: Act, threshold: nat): World
    requires Possible(w, act)
  {
    match act
    case Env(step) => Queued(w, step, threshold)
    case Cancel(k) => w.(gone := w.gone + {k})
    case Reopen(k) => w.(gone := w.gone - {k})
    case Delete(keys) =>
      Queued(w, PurgeEntities(keys), threshold).(gone := w.gone + Doomed(keys), vectors := w.vectors - Doomed(keys))
    case StartClaim(d, tok, _, _, _) =>
      Queued(w, QueueStep(w, act), threshold).(drains := w.drains[d := Batch(tok, map[], map[], {})])
    case Receive(d) =>
      var b := w.drains[d];
      Queued(w, QueueStep(w, act), threshold).(drains := w.drains[d := Batch(b.tok, ReadBack(w.q.jobs, b.tok), map[], {})])
    case Check(d, keys) =>
      var b := w.drains[d];
      w.(drains := w.drains[d := b.(live := b.live + map k | k in keys :: k !in w.gone)])
    case WriteVector(d, k) =>
      var b := w.drains[d];
      w.(vectors := w.vectors[k := ContentHash(b.items[k].payload)], drains := w.drains[d := b.(written := b.written + {k})])
    case Skip(d, k) => w.(drains := w.drains[d := Settled(w.drains[d], k)])
    case End(d) => w.(drains := w.drains - {d})
    case _ => Queued(w, QueueStep(w, act), threshold).(drains := w.drains[act.d := Settled(w.drains[act.d], act.k)])
  }

  // --- what is to be kept ---

  /** No unfinished job: no row, or a done one. */
  predicate Idle(t: Table, k: Key) {
    k in t ==> t[k].status.Done?
  }

  /** An entity that carries a vector: of a kind that has one, not gone, its last text not empty. */
  predicate Carries(w: World, k: Key) {
    k in w.last && k !in w.gone && !k.kind.CodebaseSymbol? && w.last[k].text != ""
  }

  /** If the entity carries a vector, it is the one of the last payload enqueued. */
  predicate VectorFits(w: World, k: Key) {
    Carries(w, k) ==> k in w.vectors && w.vectors[k] == w.last[k]
  }

  predicate VectorRight(w: World, k: Key) {
    Idle(w.q.jobs, k) ==> VectorFits(w, k)
  }

  ghost predicate Converged(w: World) {
    forall k :: VectorRight(w, k)
  }

  // --- what holds in every history ---

  /** A row holds the last payload enqueued for its entity. */
  predicate RowCurrent(t: Table, last: map<Key, Hash>, k: Key) {
    k in t ==> k in last && ContentHash(t[k].payload) == last[k] && t[k].contentHash == Some(last[k])
  }

  ghost predicate AllCurrent(w: World) {
    forall k :: RowCurrent(w.q.jobs, w.last, k)
  }

  /** No two rows of a batch ever read had the same id. */
  ghost predicate BatchIdsApart(s: Sys) {
    forall tok, k, l :: tok in s.batches && k in s.batches[tok] && l in s.batches[tok] ==>
      s.batches[tok][k].id == s.batches[tok][l].id ==> k == l
  }

  /** A held item is what its token read. */
  predicate ItemRead(w: World, b: Batch, k: Key)
    requires k in b.items
  {
    b.tok in w.q.batches && k in w.q.batches[b.tok] && w.q.batches[b.tok][k] == b.items[k]
  }

  ghost predicate DrainsOk(w: World) {
    && (forall d :: d in w.drains ==> w.drains[d].tok in w.q.issued)
    && (forall d, e :: d in w.drains && e in w.drains && w.drains[d].tok == w.drains[e].tok ==> d == e)
    && (forall d, k :: Holds(w, d, k) ==> ItemRead(w, w.drains[d], k))
  }

  ghost predicate Base(w: World, threshold: nat) {
    Inv(w.q, threshold) && BatchIdsApart(w.q) && AllCurrent(w) && DrainsOk(w)
  }

  // --- how a row may move while drainers only watch ---

  /**
   * The row of `k` keeps its id and payload and does not become done, or it is queued afresh with
   * the payload recorded as last, or it was done and goes.
   */
  predicate Moves(t: Table, after: Table, last: map<Key, Hash>, last': map<Key, Hash>, k: Key) {
    if k in after then
      || (&& k in t && after[k].id == t[k].id && after[k].payload == t[k].payload && after[k].contentHash == t[k].contentHash
          && (after[k].status.Done? ==> t[k].status.Done?) && SameLast(last, last', k))
      || (&& after[k].status.Pending? && (k in t ==> after[k].id == t[k].id) && k in last'
          && ContentHash(after[k].payload) == last'[k] && after[k].contentHash == Some(last'[k]))
    else
      SameLast(last, last', k) && Idle(t, k)
  }

  predicate SameLast(last: map<Key, Hash>, last': map<Key, Hash>, k: Key) {
    (k in last <==> k in last') && (k in last ==> last[k] == last'[k])
  }

  lemma UpdateMoves(t: Table, u: Update, now: int, last: map<Key, Hash>, k: Key)
    requires !u.Complete?
    ensures Moves(t, UpdateRows(t, u, now), last, last, k)
  {
  }

  lemma WriteMoves(t: Table, last: map<Key, Hash>, step: Step, s: Sys, threshold: nat, k: Key)
    requires s.jobs == t && Enabled(s, step) && (step.Enqueue? || step.LateUpsert? || step.Backfill?)
    requires RowCurrent(t, last, k)
    ensures Moves(t, Apply(s, step, threshold).jobs, last, LastAfter(t, last, step), k)
  {
  }

  lemma QuietMoves(s: Sys, last: map<Key, Hash>, step: Step, threshold: nat, k: Key)
    requires Enabled(s, step) && KeepsPoison(s.jobs, step)
    requires step.Clock? || step.Remove? || step.Claim? || step.ReadBatch? || step.FailRead?
    ensures Moves(s.jobs, Apply(s, step, threshold).jobs, last, last, k)
  {
    hide IsClaimBatch;
    if step.Remove? && k in s.jobs {
      assert Live(s.jobs[k]) ==> k in RemoveRows(s.jobs, step.removal);
    }
  }

  /** Every queue step but a completion and a purge moves rows in this way. */
  lemma StepMoves(s: Sys, last: map<Key, Hash>, step: Step, threshold: nat, k: Key)
    requires Inv(s, threshold) && Enabled(s, step) && !step.CompleteJob? && !step.PurgeEntities? && KeepsPoison(s.jobs, step)
    requires RowCurrent(s.jobs, last, k)
    ensures Moves(s.jobs, Apply(s, step, threshold).jobs, last, LastAfter(s.jobs, last, step), k)
  {
    hide UpdateRows, Moves, RowCurrent, KeepsPoison, RowsOk, IdsOk, BatchesOk, IsClaimBatch;
    match step
    case ReleaseJob(id, tok) => UpdateMoves(s.jobs, Release(id, tok), s.now, last, k);
    case FailWrite(n) =>
      assert TicketOk(s.jobs, s.issued, s.tickets[n], threshold);
      UpdateMoves(s.jobs, s.tickets[n].update, s.now, last, k);
    case ReconcileLeases => UpdateMoves(s.jobs, Reconcile, s.now, last, k);
    case RetryJob(id, repo) => UpdateMoves(s.jobs, Retry(id, repo), s.now, last, k);
    case RetryAllPoison(repo) => UpdateMoves(s.jobs, RetryAll(repo), s.now, last, k);
    case Enqueue(_, _) => WriteMoves(s.jobs, last, step, s, threshold, k);
    case LateUpsert(_, _) => WriteMoves(s.jobs, last, step, s, threshold, k);
    case Backfill(_, _) => WriteMoves(s.jobs, last, step, s, threshold, k);
    case _ => QuietMoves(s, last, step, threshold, k);
  }

  lemma MovesKeepRow(t: Table, after: Table, last: map<Key, Hash>, last': map<Key, Hash>, k: Key)
    requires Moves(t, after, last, last', k) && RowCurrent(t, last, k)
    ensures RowCurrent(after, last', k)
  {
  }

  lemma MovesKeepVector(w: World, w': World, k: Key)
    requires Moves(w.q.jobs, w'.q.jobs, w.last, w'.last, k) && VectorRight(w, k)
    requires w'.vectors == w.vectors && w'.gone == w.gone
    ensures VectorRight(w', k)
  {
  }

  // --- the base is kept by every act ---

  lemma BatchesStay(s: Sys, step: Step, threshold: nat, tok: Token)
    requires Enabled(s, step) && tok in s.batches
    ensures var s' := Apply(s, step, threshold); tok in s'.batches && s'.batches[tok] == s.batches[tok]
  {
  }

  lemma StepKeepsBatchIds(s: Sys, step: Step, threshold: nat)
    requires Inv(s, threshold) && Enabled(s, step) && BatchIdsApart(s)
    ensures BatchIdsApart(Apply(s, step, threshold))
  {
    hide UpdateRows, ClaimRows, RemoveRows, WithoutEntities, IsClaimBatch, RowsOk, BatchesOk, TicketsOk;
    if !step.ReadBatch? {
      assert Apply(s, step, threshold).batches == s.batches;
    }
  }

  lemma RemovalMoves(t: Table, after: Table, last: map<Key, Hash>, k: Key)
    requires RowCurrent(t, last, k) && (k in after ==> k in t && after[k] == t[k])
    ensures RowCurrent(after, last, k)
  {
  }

  lemma StepKeepsCurrent(w: World, step: Step, threshold: nat, k: Key)
    requires Inv(w.q, threshold) && Enabled(w.q, step) && RowCurrent(w.q.jobs, w.last, k)
    ensures RowCurrent(Queued(w, step, threshold).q.jobs, Queued(w, step, threshold).last, k)
  {
    hide Inv, Moves, RowCurrent, Enabled;
    match step
    case CompleteJob(id, tok) => CompletionKeepsCurrent(w.q.jobs, Complete(id, tok), w.q.now, w.last, k);
    case PurgeEntities(keys) => RemovalMoves(w.q.jobs, WithoutEntities(w.q.jobs, keys), w.last, k);
    case Remove(r) => RemovalMoves(w.q.jobs, RemoveRows(w.q.jobs, r), w.last, k);
    case _ =>
      StepMoves(w.q, w.last, step, threshold, k);
      MovesKeepRow(w.q.jobs, Queued(w, step, threshold).q.jobs, w.last, Queued(w, step, threshold).last, k);
  }

  lemma CompletionKeepsCurrent(t: Table, u: Update, now: int, last: map<Key, Hash>, k: Key)
    requires u.Complete? && RowCurrent(t, last, k)
    ensures RowCurrent(UpdateRows(t, u, now), last, k)
  {
  }

  /** The queue part of the base after any queue step, and the held items unless the step reads a batch. */
  lemma StepKeepsBase(w: World, step: Step, threshold: nat)
    requires threshold >= 1 && Base(w, threshold) && Enabled(w.q, step)
    ensures Base(Queued(w, step, threshold), threshold)
  {
    hide Inv, Enabled, Apply, RowCurrent, BatchIdsApart;
    var w' := Queued(w, step, threshold);
    StepKeepsInv(w.q, step, threshold);
    StepKeepsBatchIds(w.q, step, threshold);
    StepKeepsIssued(w.q, step, threshold);
    forall k
      ensures RowCurrent(w'.q.jobs, w'.last, k)
    {
      assert RowCurrent(w.q.jobs, w.last, k);
      StepKeepsCurrent(w, step, threshold, k);
    }
    forall d, k | Holds(w', d, k)
      ensures ItemRead(w', w'.drains[d], k)
    {
      assert Holds(w, d, k) && ItemRead(w, w.drains[d], k);
      BatchesStay(w.q, step, threshold, w.drains[d].tok);
    }
  }

  lemma ClaimKeepsBase(w: World, act: Act, threshold: nat)
    requires threshold >= 1 && Base(w, threshold) && Possible(w, act) && (act.StartClaim? || act.Receive?)
    ensures Base(Next(w, act, threshold), threshold)
  {
    hide Inv, AllCurrent, BatchIdsApart, IsClaimBatch, RowCurrent;
    StepKeepsBase(w, QueueStep(w, act), threshold);
    var w1, w' := Queued(w, QueueStep(w, act), threshold), Next(w, act, threshold);
    forall d, k | Holds(w', d, k)
      ensures ItemRead(w', w'.drains[d], k)
    {
      if d != act.d {
        assert Holds(w1, d, k);
      }
    }
    assert AllCurrent(w') by { SameRows(w1, w'); }
  }

  lemma SameRows(w: World, w': World)
    requires AllCurrent(w) && w'.q.jobs == w.q.jobs && w'.last == w.last
    ensures AllCurrent(w')
  {
    forall k
      ensures RowCurrent(w'.q.jobs, w'.last, k)
    {
      assert RowCurrent(w.q.jobs, w.last, k);
    }
  }

  /** Giving up items, drainers, vectors and entities does not touch the base. */
  lemma FewerItemsKeepBase(w: World, w': World, threshold: nat)
    requires Base(w, threshold) && w'.q == w.q && w'.last == w.last
    requires forall d :: d in w'.drains ==> d in w.drains && w'.drains[d].tok == w.drains[d].tok
    requires forall d, k :: Holds(w', d, k) ==> Holds(w, d, k) && w'.drains[d].items[k] == w.drains[d].items[k]
    ensures Base(w', threshold)
  {
    hide Inv, BatchIdsApart, RowCurrent;
    SameRows(w, w');
    forall d, k | Holds(w', d, k)
      ensures ItemRead(w', w'.drains[d], k)
    {
      assert ItemRead(w, w.drains[d], k);
    }
  }

  /** Acts outside the queue. */
  predicate OffQueue(act: Act) {
    act.Cancel? || act.Reopen? || act.Check? || act.WriteVector? || act.Skip? || act.End?
  }

  lemma OffQueueKeepsBase(w: World, act: Act, threshold: nat)
    requires Base(w, threshold) && Possible(w, act) && OffQueue(act)
    ensures Base(Next(w, act, threshold), threshold)
  {
    hide Base, Apply;
    FewerItemsKeepBase(w, Next(w, act, threshold), threshold);
  }

  lemma ActKeepsBase(w: World, act: Act, threshold: nat)
    requires threshold >= 1 && Base(w, threshold) && Possible(w, act)
    ensures Base(Next(w, act, threshold), threshold)
  {
    hide Base, Apply;
    if OffQueue(act) {
      OffQueueKeepsBase(w, act, threshold);
    } else if act.StartClaim? || act.Receive? {
      ClaimKeepsBase(w, act, threshold);
    } else {
      StepKeepsBase(w, QueueStep(w, act), threshold);
      FewerItemsKeepBase(Queued(w, QueueStep(w, act), threshold), Next(w, act, threshold), threshold);
    }
  }

  // --- the exact condition of each act ---

  /** What the act must find for convergence to survive it. */
  ghost predicate Keeps(w: World, act: Act) {
    match act
    case Env(step) =>
      step.Remove? ==> forall k :: k in w.q.jobs && w.q.jobs[k].status.Poison? && Removes(step.removal, w.q.jobs[k]) ==> VectorFits(w, k)
    case Delete(keys) => forall k :: k in keys && k.kind.Memory? ==> VectorFits(w, k)
    case Reopen(k) => Idle(w.q.jobs, k) ==> VectorFits(w.(gone := w.gone - {k}), k)
    case WriteVector(d, k) =>
      Holds(w, d, k) && Idle(w.q.jobs, k) && Carries(w, k) ==> ContentHash(w.drains[d].items[k].payload) == w.last[k]
    case Finish(d, k) => StillOwns(w, d, k) ==> VectorFits(w, k)
    case _ => true
  }

  lemma QuietStepKeeps(w: World, step: Step, threshold: nat)
    requires Base(w, threshold) && Converged(w)
    requires Enabled(w.q, step) && !step.CompleteJob? && !step.PurgeEntities? && KeepsPoison(w.q.jobs, step)
    ensures Converged(Queued(w, step, threshold))
  {
    hide Inv, Moves, RowCurrent, KeepsPoison, VectorRight, BatchIdsApart, DrainsOk, Enabled;
    var w' := Queued(w, step, threshold);
    forall k
      ensures VectorRight(w', k)
    {
      assert RowCurrent(w.q.jobs, w.last, k) && VectorRight(w, k);
      StepMoves(w.q, w.last, step, threshold, k);
      MovesKeepVector(w, w', k);
    }
  }

  lemma RemovalKeepsIff(w: World, r: Removal, threshold: nat)
    requires Converged(w)
    ensures Converged(Queued(w, Remove(r), threshold)) <==> Keeps(w, Env(Remove(r)))
  {
    var w' := Queued(w, Remove(r), threshold);
    if Converged(w') {
      forall k | k in w.q.jobs && w.q.jobs[k].status.Poison? && Removes(r, w.q.jobs[k])
        ensures VectorFits(w, k)
      {
        assert VectorRight(w', k);
      }
    } else {
      var k :| !VectorRight(w', k);
      assert VectorRight(w, k);
    }
  }

  lemma DeleteKeepsIff(w: World, keys: set<Key>, threshold: nat)
    requires Converged(w)
    ensures Converged(Next(w, Delete(keys), threshold)) <==> Keeps(w, Delete(keys))
  {
    var w' := Next(w, Delete(keys), threshold);
    if Converged(w') {
      forall k | k in keys && k.kind.Memory?
        ensures VectorFits(w, k)
      {
        assert VectorRight(w', k);
      }
    } else {
      var k :| !VectorRight(w', k);
      assert VectorRight(w, k);
    }
  }

  lemma ReopenKeepsIff(w: World, k: Key, threshold: nat)
    requires Converged(w)
    ensures Converged(Next(w, Reopen(k), threshold)) <==> Keeps(w, Reopen(k))
  {
    var w' := Next(w, Reopen(k), threshold);
    if Converged(w') {
      assert VectorRight(w', k);
    } else {
      var l :| !VectorRight(w', l);
      assert VectorRight(w, l);
    }
  }

  lemma WriteKeepsIff(w: World, d: nat, k: Key, threshold: nat)
    requires Converged(w) && Possible(w, WriteVector(d, k))
    ensures Converged(Next(w, WriteVector(d, k), threshold)) <==> Keeps(w, WriteVector(d, k))
  {
    var w' := Next(w, WriteVector(d, k), threshold);
    if Converged(w') {
      assert VectorRight(w', k);
    } else {
      var l :| !VectorRight(w', l);
      assert VectorRight(w, l);
    }
  }

  /** A completion reaches no row but the item's own, and that one only as its token read it. */
  lemma CompletionHits(w: World, d: nat, k: Key, threshold: nat, l: Key)
    requires Base(w, threshold) && Holds(w, d, k)
    requires l in w.q.jobs && Owned(w.q.jobs[l], w.drains[d].items[k].id, w.drains[d].tok)
    ensures l == k && w.q.jobs[k] == w.drains[d].items[k]
  {
    hide AllCurrent, TicketsOk, RowsOk, IdsOk;
    assert ItemRead(w, w.drains[d], k);
  }

  /** What a completion does to a row. */
  lemma FinishRow(w: World, act: Act, threshold: nat, k: Key)
    requires Base(w, threshold) && Possible(w, act) && act.Finish?
    ensures var t := Next(w, act, threshold).q.jobs;
            && (k in t <==> k in w.q.jobs)
            && (k in t && !(k == act.k && StillOwns(w, act.d, k)) ==> t[k] == w.q.jobs[k])
            && (k == act.k && StillOwns(w, act.d, k) ==> t[k].status.Done?)
  {
    hide Base;
    if k in w.q.jobs && Owned(w.q.jobs[k], w.drains[act.d].items[act.k].id, w.drains[act.d].tok) {
      CompletionHits(w, act.d, act.k, threshold, k);
    }
  }

  lemma FinishKeepsIff(w: World, act: Act, threshold: nat)
    requires Base(w, threshold) && Converged(w) && Possible(w, act) && act.Finish?
    ensures Converged(Next(w, act, threshold)) <==> Keeps(w, act)
  {
    hide Base, Apply;
    var w' := Next(w, act, threshold);
    forall k
      ensures VectorRight(w', k) <==> (k == act.k && StillOwns(w, act.d, k) ==> VectorFits(w, k))
    {
      assert VectorRight(w, k);
      FinishRow(w, act, threshold, k);
    }
    assert Keeps(w, act) <==> VectorRight(w', act.k);
  }

  /** Each act, of any number of drainers, keeps convergence exactly when it finds what `Keeps` says. */
  lemma ActKeepsIff(w: World, act: Act, threshold: nat)
    requires threshold >= 1 && Base(w, threshold) && Converged(w) && Possible(w, act)
    ensures Converged(Next(w, act, threshold)) <==> Keeps(w, act)
  {
    hide Base, Apply, Converged;
    var w' := Next(w, act, threshold);
    match act
    case Env(step) =>
      if step.Remove? {
        RemovalKeepsIff(w, step.removal, threshold);
      } else {
        QuietStepKeeps(w, step, threshold);
      }
    case Delete(keys) => DeleteKeepsIff(w, keys, threshold);
    case Reopen(k) => ReopenKeepsIff(w, k, threshold);
    case WriteVector(d, k) => WriteKeepsIff(w, d, k, threshold);
    case Finish(_, _) => FinishKeepsIff(w, act, threshold);
    case Cancel(_) => OnlyDrainsDiffer(w, w');
    case Check(_, _) => OnlyDrainsDiffer(w, w');
    case Skip(_, _) => OnlyDrainsDiffer(w, w');
    case End(_) => OnlyDrainsDiffer(w, w');
    case _ =>
      QuietStepKeeps(w, QueueStep(w, act), threshold);
      OnlyDrainsDiffer(Queued(w, QueueStep(w, act), threshold), w');
  }

  /** Convergence does not look at the drainers, and asks nothing of an entity that is gone. */
  lemma OnlyDrainsDiffer(w: World, w': World)
    requires Converged(w) && w'.q == w.q && w'.vectors == w.vectors && w'.last == w.last && w.gone <= w'.gone
    ensures Converged(w')
  {
    forall k
      ensures VectorRight(w', k)
    {
      assert VectorRight(w, k);
    }
  }

  // --- disciplines ---

  datatype Rule = Anything | GuardedWrites | Guarded | Solo

  /** A drainer owns the job of `k` and will complete it unapplied, having not found `k` when it looked. */
  predicate GivenUp(w: World, d: nat, k: Key) {
    StillOwns(w, d, k) && Absent(w.drains[d], k)
  }

  /** Such a `k` is back. */
  predicate CameBack(w: World, d: nat, k: Key) {
    GivenUp(w, d, k) && k !in w.gone
  }

  /** Nothing is under way that would still embed `k`: no job, or one its owner has given up. */
  ghost predicate Unattended(w: World, k: Key) {
    Idle(w.q.jobs, k) || exists d :: GivenUp(w, d, k)
  }

  /** `k` is reopened with a job under way that will embed it, or with its vector right. */
  ghost predicate ReopensSafely(w: World, k: Key) {
    Unattended(w, k) ==> VectorFits(w.(gone := w.gone - {k}), k)
  }

  /** No drainer that may still write the vector of `k` holds a copy out of date. */
  ghost predicate CopiesCurrent(w: World, k: Key) {
    forall d :: MayWrite(w, d, k) ==> k in w.last && ContentHash(w.drains[d].items[k].payload) == w.last[k]
  }

  predicate MayWrite(w: World, d: nat, k: Key) {
    Holds(w, d, k) && !Absent(w.drains[d], k)
  }

  /**
   * GuardedWrites: a vector is written only while the token still owns the row, the check the code
   * does not make. Guarded asks the rest of the world besides for what its acts need, exactly, and
   * of a reopening that no drainer has given the job up. Solo is an assumption on when processes
   * drain: one claims only when no other holds a batch; besides, poison rows stay, memories are
   * archived when their jobs are idle, and an entity is reopened safely and, when its job is idle,
   * with no copy out of date.
   */
  ghost predicate Follows(rule: Rule, w: World, act: Act) {
    match rule
    case Anything => true
    case GuardedWrites => act.WriteVector? ==> StillOwns(w, act.d, act.k)
    case Guarded =>
      if act.Reopen? then ReopensSafely(w, act.k)
      else if OfDrainer(act) then act.WriteVector? ==> StillOwns(w, act.d, act.k)
      else Keeps(w, act)
    case Solo =>
      match act
      case StartClaim(_, _, _, _, _) => w.drains == map[]
      case Env(step) => KeepsPoison(w.q.jobs, step)
      case Delete(keys) => forall k :: k in keys && k.kind.Memory? ==> Idle(w.q.jobs, k)
      case Reopen(k) => ReopensSafely(w, k) && (Idle(w.q.jobs, k) ==> CopiesCurrent(w, k))
      case _ => true
  }

  /** While the token owns the row, the vector the drainer wrote is the one of its copy. */
  predicate WrittenRight(w: World, d: nat, k: Key) {
    StillOwns(w, d, k) && k in w.drains[d].written ==>
      k in w.vectors && w.vectors[k] == ContentHash(w.drains[d].items[k].payload)
  }

  ghost predicate AllWritten(w: World) {
    forall d, k :: WrittenRight(w, d, k)
  }

  ghost predicate OneDrainer(w: World) {
    forall d, e :: d in w.drains && e in w.drains ==> d == e
  }

  /** A queue step: what a token owns after it, it owned before, the same row. */
  lemma OwnedBefore(w: World, step: Step, threshold: nat, w': World, d: nat, k: Key)
    requires Base(w, threshold) && Enabled(w.q, step) && w'.q == Apply(w.q, step, threshold)
    requires StillOwns(w', d, k) && Holds(w, d, k)
    requires w'.drains[d].tok == w.drains[d].tok && w'.drains[d].items[k] == w.drains[d].items[k]
    ensures StillOwns(w, d, k)
  {
    hide Inv, AllCurrent, BatchIdsApart, Apply, Enabled, Owned;
    StepKeepsOwners(w.q, step, threshold);
    assert Owned(w'.q.jobs[k], w.drains[d].items[k].id, w.drains[d].tok) by { hide OwnersKept; }
    OwnerHadRow(w.q.jobs, w'.q.jobs, w.q.issued, k, w.drains[d].items[k].id, w.drains[d].tok);
  }

  lemma OwnerHadRow(before: Table, after: Table, issued: set<Token>, k: Key, id: string, tok: Token)
    requires OwnersKept(before, after, issued) && tok in issued && k in after && Owned(after[k], id, tok)
    ensures k in before && Owned(before[k], id, tok)
  {
  }

  /** After a queue step, with vectors dropped only where rows are purged. */
  lemma StepKeepsWritten(w: World, step: Step, threshold: nat, w': World)
    requires Base(w, threshold) && AllWritten(w) && Enabled(w.q, step) && w'.q == Apply(w.q, step, threshold)
    requires forall k :: k in w'.q.jobs ==> (k in w.vectors <==> k in w'.vectors) && (k in w.vectors ==> w'.vectors[k] == w.vectors[k])
    requires forall d, k :: Holds(w', d, k) && k in w'.drains[d].written ==>
      Holds(w, d, k) && k in w.drains[d].written && w'.drains[d].tok == w.drains[d].tok && w'.drains[d].items[k] == w.drains[d].items[k]
    ensures AllWritten(w')
  {
    hide Base, Apply, Enabled;
    forall d, k
      ensures WrittenRight(w', d, k)
    {
      if StillOwns(w', d, k) && k in w'.drains[d].written {
        OwnedBefore(w, step, threshold, w', d, k);
        assert WrittenRight(w, d, k);
      }
    }
  }

  lemma StillKeepsWritten(w: World, w': World)
    requires AllWritten(w) && w'.q == w.q && w'.vectors == w.vectors
    requires forall d, k :: Holds(w', d, k) && k in w'.drains[d].written ==>
      Holds(w, d, k) && k in w.drains[d].written && w'.drains[d].tok == w.drains[d].tok && w'.drains[d].items[k] == w.drains[d].items[k]
    ensures AllWritten(w')
  {
    forall d, k
      ensures WrittenRight(w', d, k)
    {
      assert WrittenRight(w, d, k);
    }
  }

  /** Two drainers never own the same row. */
  lemma OneOwner(w: World, threshold: nat, d: nat, e: nat, k: Key)
    requires Base(w, threshold) && StillOwns(w, d, k) && StillOwns(w, e, k)
    ensures d == e
  {
  }

  lemma VectorWriteKeepsWritten(w: World, act: Act, threshold: nat)
    requires Base(w, threshold) && AllWritten(w) && Possible(w, act) && act.WriteVector?
    requires StillOwns(w, act.d, act.k) || OneDrainer(w)
    ensures AllWritten(Next(w, act, threshold))
  {
    hide Base;
    var w' := Next(w, act, threshold);
    forall d, k
      ensures WrittenRight(w', d, k)
    {
      assert WrittenRight(w, d, k);
      if d != act.d && k == act.k && StillOwns(w', d, k) && StillOwns(w, act.d, k) {
        OneOwner(w, threshold, d, act.d, k);
      }
    }
  }

  lemma ActKeepsWritten(w: World, act: Act, threshold: nat)
    requires Base(w, threshold) && AllWritten(w) && Possible(w, act)
    requires act.WriteVector? ==> StillOwns(w, act.d, act.k) || OneDrainer(w)
    ensures AllWritten(Next(w, act, threshold))
  {
    hide Base, Apply, AllWritten, StillOwns;
    if act.WriteVector? {
      VectorWriteKeepsWritten(w, act, threshold);
    } else if OffQueue(act) {
      StillKeepsWritten(w, Next(w, act, threshold));
    } else {
      if act.Delete? {
        PurgedRowsGone(w, act.keys, threshold);
      }
      StepKeepsWritten(w, QueueStep(w, act), threshold, Next(w, act, threshold));
    }
  }

  lemma PurgedRowsGone(w: World, keys: set<Key>, threshold: nat)
    ensures forall k :: k in Apply(w.q, PurgeEntities(keys), threshold).jobs ==> k !in keys
  {
  }

  /**
   * A drainer completes what it has written, what has nothing to embed, and what it did not find:
   * only the last can break convergence, and does exactly when the entity is back without its vector.
   */
  lemma FinishMeetsIff(w: World, act: Act, threshold: nat)
    requires Base(w, threshold) && AllWritten(w) && Possible(w, act) && act.Finish?
    ensures Keeps(w, act) <==> (CameBack(w, act.d, act.k) ==> VectorFits(w, act.k))
  {
    hide Inv, BatchIdsApart, DrainsOk;
    if StillOwns(w, act.d, act.k) {
      CompletionHits(w, act.d, act.k, threshold, act.k);
      assert RowCurrent(w.q.jobs, w.last, act.k);
      assert WrittenRight(w, act.d, act.k);
    }
  }

  // --- entities that come back after the check ---

  /** An entity that is back while its owner has given it up has its vector. */
  predicate BackFits(w: World, d: nat, k: Key) {
    CameBack(w, d, k) ==> VectorFits(w, k)
  }

  ghost predicate AllBackFit(w: World) {
    forall d, k :: BackFits(w, d, k)
  }

  /** What a drainer owns is as it was read, and the last payload enqueued. */
  lemma OwnedIsCurrent(w: World, threshold: nat, d: nat, k: Key)
    requires Base(w, threshold) && StillOwns(w, d, k)
    ensures k in w.last && w.last[k] == ContentHash(w.drains[d].items[k].payload)
  {
    hide Inv, BatchIdsApart, DrainsOk;
    CompletionHits(w, d, k, threshold, k);
    assert RowCurrent(w.q.jobs, w.last, k);
  }

  lemma StepKeepsBack(w: World, step: Step, threshold: nat, w': World)
    requires Base(w, threshold) && AllBackFit(w) && Enabled(w.q, step) && w'.q == Apply(w.q, step, threshold)
    requires Base(w', threshold)
    requires forall k :: k in w'.q.jobs ==>
      && (k in w.gone <==> k in w'.gone)
      && (k in w.vectors <==> k in w'.vectors) && (k in w.vectors ==> w'.vectors[k] == w.vectors[k])
    requires forall d, k :: Holds(w', d, k) && Absent(w'.drains[d], k) ==>
      Holds(w, d, k) && Absent(w.drains[d], k) && w'.drains[d].tok == w.drains[d].tok && w'.drains[d].items[k] == w.drains[d].items[k]
    ensures AllBackFit(w')
  {
    hide Base, Apply, Enabled;
    forall d, k
      ensures BackFits(w', d, k)
    {
      if CameBack(w', d, k) {
        OwnedBefore(w, step, threshold, w', d, k);
        OwnedIsCurrent(w, threshold, d, k);
        OwnedIsCurrent(w', threshold, d, k);
        assert BackFits(w, d, k);
      }
    }
  }

  lemma StillKeepsBack(w: World, w': World)
    requires AllBackFit(w) && w'.q == w.q && w'.vectors == w.vectors && w'.last == w.last && w.gone <= w'.gone
    requires forall d, k :: Holds(w', d, k) && Absent(w'.drains[d], k) ==>
      Holds(w, d, k) && (Absent(w.drains[d], k) || k in w.gone)
      && w'.drains[d].tok == w.drains[d].tok && w'.drains[d].items[k] == w.drains[d].items[k]
    ensures AllBackFit(w')
  {
    forall d, k
      ensures BackFits(w', d, k)
    {
      assert BackFits(w, d, k);
    }
  }

  lemma ReopenKeepsBack(w: World, k: Key, threshold: nat)
    requires AllBackFit(w) && ReopensSafely(w, k)
    ensures AllBackFit(Next(w, Reopen(k), threshold))
  {
    var w' := Next(w, Reopen(k), threshold);
    forall d, l
      ensures BackFits(w', d, l)
    {
      assert BackFits(w, d, l) && (GivenUp(w, d, l) <==> GivenUp(w', d, l));
    }
  }

  lemma VectorWriteKeepsBack(w: World, act: Act, threshold: nat)
    requires Base(w, threshold) && AllBackFit(w) && Possible(w, act) && act.WriteVector?
    requires StillOwns(w, act.d, act.k) || OneDrainer(w)
    ensures AllBackFit(Next(w, act, threshold))
  {
    hide Base;
    var w' := Next(w, act, threshold);
    forall d, k
      ensures BackFits(w', d, k)
    {
      assert BackFits(w, d, k);
      if k == act.k && CameBack(w', d, k) {
        if d != act.d {
          OneOwner(w, threshold, d, act.d, k);
        }
        OwnedIsCurrent(w, threshold, d, k);
      }
    }
  }

  lemma OffQueueKeepsBack(w: World, act: Act, threshold: nat)
    requires Base(w, threshold) && AllBackFit(w) && Possible(w, act) && OffQueue(act)
    requires act.WriteVector? ==> StillOwns(w, act.d, act.k) || OneDrainer(w)
    requires act.Reopen? ==> ReopensSafely(w, act.k)
    ensures AllBackFit(Next(w, act, threshold))
  {
    hide Base, AllBackFit, StillOwns, ReopensSafely;
    if act.WriteVector? {
      VectorWriteKeepsBack(w, act, threshold);
    } else if act.Reopen? {
      ReopenKeepsBack(w, act.k, threshold);
    } else {
      StillKeepsBack(w, Next(w, act, threshold));
    }
  }

  lemma ActKeepsBack(w: World, act: Act, threshold: nat)
    requires threshold >= 1 && Base(w, threshold) && AllBackFit(w) && Possible(w, act)
    requires act.WriteVector? ==> StillOwns(w, act.d, act.k) || OneDrainer(w)
    requires act.Reopen? ==> ReopensSafely(w, act.k)
    ensures AllBackFit(Next(w, act, threshold))
  {
    hide Base, Apply, AllBackFit, StillOwns, ReopensSafely;
    if OffQueue(act) {
      OffQueueKeepsBack(w, act, threshold);
    } else {
      ActKeepsBase(w, act, threshold);
      if act.Delete? {
        PurgedRowsGone(w, act.keys, threshold);
      }
      StepKeepsBack(w, QueueStep(w, act), threshold, Next(w, act, threshold));
    }
  }

  /**
   * A reopening is safe exactly when it keeps convergence at once and leaves no drainer about to
   * complete the job on the word of an earlier check.
   */
  lemma ReopensSafelyIff(w: World, k: Key, threshold: nat)
    requires Base(w, threshold) && Converged(w)
    ensures var w' := Next(w, Reopen(k), threshold);
            ReopensSafely(w, k) <==>
              Converged(w') && forall d :: GivenUp(w', d, k) ==> Possible(w', Finish(d, k)) && Converged(Next(w', Finish(d, k), threshold))
  {
    hide Inv, BatchIdsApart, AllCurrent, Converged, VectorFits, Idle, Apply;
    var w' := Next(w, Reopen(k), threshold);
    ReopenKeepsIff(w, k, threshold);
    FewerItemsKeepBase(w, w', threshold);
    assert forall d :: GivenUp(w, d, k) <==> GivenUp(w', d, k);
    forall d | GivenUp(w', d, k)
      ensures Possible(w', Finish(d, k))
      ensures Converged(w') ==> (Converged(Next(w', Finish(d, k), threshold)) <==> VectorFits(w', k))
    {
      assert ItemRead(w', w'.drains[d], k);
      if Converged(w') {
        FinishKeepsIff(w', Finish(d, k), threshold);
      }
    }
  }

  /** What the guarded discipline keeps. */
  ghost predicate GuardInv(w: World, threshold: nat) {
    Base(w, threshold) && Converged(w) && AllWritten(w) && AllBackFit(w)
  }

  lemma GuardedNext(w: World, act: Act, threshold: nat)
    requires threshold >= 1 && GuardInv(w, threshold) && Possible(w, act) && Follows(Guarded, w, act)
    ensures GuardInv(Next(w, act, threshold), threshold)
  {
    hide Base, Converged, AllWritten, Next, Possible, VectorFits;
    ActKeepsBase(w, act, threshold);
    ActKeepsWritten(w, act, threshold);
    ActKeepsBack(w, act, threshold);
    if act.Finish? {
      FinishMeetsIff(w, act, threshold);
      assert BackFits(w, act.d, act.k);
    }
    ActKeepsIff(w, act, threshold);
  }

  /** A held copy may be written over the vector of an idle job only if it is up to date. */
  predicate CopySafe(w: World, d: nat, k: Key) {
    MayWrite(w, d, k) && Idle(w.q.jobs, k) && Carries(w, k) ==> ContentHash(w.drains[d].items[k].payload) == w.last[k]
  }

  ghost predicate CopiesSafe(w: World) {
    forall d, k :: CopySafe(w, d, k)
  }

  ghost predicate SoloInv(w: World, threshold: nat) {
    Base(w, threshold) && Converged(w) && AllWritten(w) && AllBackFit(w) && OneDrainer(w) && CopiesSafe(w)
  }

  lemma MovesKeepCopy(w: World, w': World, d: nat, k: Key)
    requires Moves(w.q.jobs, w'.q.jobs, w.last, w'.last, k) && CopySafe(w, d, k)
    requires w'.gone == w.gone && (MayWrite(w', d, k) ==> MayWrite(w, d, k) && w'.drains[d].items[k] == w.drains[d].items[k])
    ensures CopySafe(w', d, k)
  {
  }

  lemma QuietStepKeepsCopies(w: World, step: Step, threshold: nat, w': World)
    requires Base(w, threshold) && CopiesSafe(w) && Enabled(w.q, step)
    requires !step.CompleteJob? && !step.PurgeEntities? && KeepsPoison(w.q.jobs, step)
    requires w'.q == Queued(w, step, threshold).q && w'.last == Queued(w, step, threshold).last && w'.gone == w.gone
    requires forall d, k :: MayWrite(w', d, k) ==> MayWrite(w, d, k) && w'.drains[d].items[k] == w.drains[d].items[k]
    ensures CopiesSafe(w')
  {
    hide Inv, Moves, RowCurrent, KeepsPoison, BatchIdsApart, DrainsOk, Enabled, Apply;
    forall d, k
      ensures CopySafe(w', d, k)
    {
      assert RowCurrent(w.q.jobs, w.last, k) && CopySafe(w, d, k);
      StepMoves(w.q, w.last, step, threshold, k);
      MovesKeepCopy(w, w', d, k);
    }
  }

  lemma ReceiveKeepsCopies(w: World, act: Act, threshold: nat)
    requires Base(w, threshold) && CopiesSafe(w) && Possible(w, act) && act.Receive?
    ensures CopiesSafe(Next(w, act, threshold))
  {
    hide Inv, BatchIdsApart, DrainsOk;
    var w' := Next(w, act, threshold);
    forall d, k
      ensures CopySafe(w', d, k)
    {
      assert RowCurrent(w.q.jobs, w.last, k) && CopySafe(w, d, k);
    }
  }

  lemma FinishKeepsCopies(w: World, act: Act, threshold: nat)
    requires Base(w, threshold) && CopiesSafe(w) && OneDrainer(w) && Possible(w, act) && act.Finish?
    ensures CopiesSafe(Next(w, act, threshold))
  {
    hide Base, Apply;
    var w' := Next(w, act, threshold);
    forall d, k
      ensures CopySafe(w', d, k)
    {
      assert CopySafe(w, d, k);
      FinishRow(w, act, threshold, k);
    }
  }

  lemma StillKeepsCopies(w: World, w': World)
    requires CopiesSafe(w) && w'.q == w.q && w'.last == w.last && w.gone <= w'.gone
    requires forall d, k :: MayWrite(w', d, k) ==> MayWrite(w, d, k) && w'.drains[d].items[k] == w.drains[d].items[k]
    ensures CopiesSafe(w')
  {
    forall d, k
      ensures CopySafe(w', d, k)
    {
      assert CopySafe(w, d, k);
    }
  }

  lemma DeleteKeepsCopies(w: World, keys: set<Key>, threshold: nat)
    requires CopiesSafe(w) && Follows(Solo, w, Delete(keys))
    ensures CopiesSafe(Next(w, Delete(keys), threshold))
  {
    var w' := Next(w, Delete(keys), threshold);
    forall d, k
      ensures CopySafe(w', d, k)
    {
      assert CopySafe(w, d, k);
    }
  }

  lemma ReopenKeepsCopies(w: World, k: Key, threshold: nat)
    requires CopiesSafe(w) && Follows(Solo, w, Reopen(k))
    ensures CopiesSafe(Next(w, Reopen(k), threshold))
  {
    var w' := Next(w, Reopen(k), threshold);
    forall d, l
      ensures CopySafe(w', d, l)
    {
      assert CopySafe(w, d, l);
    }
  }

  lemma ActKeepsCopies(w: World, act: Act, threshold: nat)
    requires Base(w, threshold) && CopiesSafe(w) && OneDrainer(w) && Possible(w, act) && Follows(Solo, w, act)
    ensures CopiesSafe(Next(w, act, threshold))
  {
    hide Base, Apply, CopiesSafe;
    var w' := Next(w, act, threshold);
    match act
    case Env(step) => QuietStepKeepsCopies(w, step, threshold, w');
    case Delete(keys) => DeleteKeepsCopies(w, keys, threshold);
    case Reopen(k) => ReopenKeepsCopies(w, k, threshold);
    case Receive(_) => ReceiveKeepsCopies(w, act, threshold);
    case Finish(_, _) => FinishKeepsCopies(w, act, threshold);
    case Cancel(_) => StillKeepsCopies(w, w');
    case Check(_, _) => StillKeepsCopies(w, w');
    case WriteVector(_, _) => StillKeepsCopies(w, w');
    case Skip(_, _) => StillKeepsCopies(w, w');
    case End(_) => StillKeepsCopies(w, w');
    case _ => QuietStepKeepsCopies(w, QueueStep(w, act), threshold, w');
  }

  /** Under the solo discipline every act meets its condition. */
  lemma SoloActsKeep(w: World, act: Act, threshold: nat)
    requires SoloInv(w, threshold) && Possible(w, act) && Follows(Solo, w, act)
    ensures Keeps(w, act)
  {
    hide Base;
    match act
    case Finish(d, k) =>
      FinishMeetsIff(w, act, threshold);
      assert BackFits(w, d, k);
    case WriteVector(d, k) => assert CopySafe(w, d, k);
    case Delete(keys) =>
      forall k | k in keys && k.kind.Memory?
        ensures VectorFits(w, k)
      {
        assert VectorRight(w, k);
      }
    case _ =>
  }

  lemma StaysOneDrainer(w: World, act: Act, threshold: nat)
    requires OneDrainer(w) && Possible(w, act) && Follows(Solo, w, act)
    ensures OneDrainer(Next(w, act, threshold))
  {
    hide Apply, ReopensSafely, CopiesCurrent, KeepsPoison, Idle, Enabled;
  }

  lemma SoloNext(w: World, act: Act, threshold: nat)
    requires threshold >= 1 && SoloInv(w, threshold) && Possible(w, act) && Follows(Solo, w, act)
    ensures SoloInv(Next(w, act, threshold), threshold)
  {
    hide Base, Converged, AllWritten, AllBackFit, CopiesSafe, OneDrainer, Next, Possible, Keeps;
    SoloActsKeep(w, act, threshold);
    StaysOneDrainer(w, act, threshold);
    ActKeepsBase(w, act, threshold);
    ActKeepsWritten(w, act, threshold);
    ActKeepsBack(w, act, threshold);
    ActKeepsCopies(w, act, threshold);
    ActKeepsIff(w, act, threshold);
  }

  // --- histories ---

  ghost predicate IsHistory(w: World, acts: seq<Act>, threshold: nat, rule: Rule)
    decreases |acts|
  {
    acts != [] ==>
      && Possible(w, acts[0]) && Follows(rule, w, acts[0])
      && IsHistory(Next(w, acts[0], threshold), acts[1..], threshold, rule)
  }

  ghost function Outcome(w: World, acts: seq<Act>, threshold: nat, rule: Rule): World
    requires IsHistory(w, acts, threshold, rule)
    decreases |acts|
  {
    if acts == [] then w else Outcome(Next(w, acts[0], threshold), acts[1..], threshold, rule)
  }

  function Start(now: int): World {
    World(Empty(now), map[], map[], {}, map[])
  }

  lemma {:induction false} GuardedHistory(w: World, acts: seq<Act>, threshold: nat)
    requires threshold >= 1 && GuardInv(w, threshold) && IsHistory(w, acts, threshold, Guarded)
    ensures GuardInv(Outcome(w, acts, threshold, Guarded), threshold)
    decreases |acts|
  {
    hide GuardInv, Next, Possible, Follows;
    if acts != [] {
      GuardedNext(w, acts[0], threshold);
      GuardedHistory(Next(w, acts[0], threshold), acts[1..], threshold);
    }
  }

  lemma {:induction false} SoloHistory(w: World, acts: seq<Act>, threshold: nat)
    requires threshold >= 1 && SoloInv(w, threshold) && IsHistory(w, acts, threshold, Solo)
    ensures SoloInv(Outcome(w, acts, threshold, Solo), threshold)
    decreases |acts|
  {
    hide SoloInv, Next, Possible, Follows;
    if acts != [] {
      SoloNext(w, acts[0], threshold);
      SoloHistory(Next(w, acts[0], threshold), acts[1..], threshold);
    }
  }

  lemma StartIsSound(now: int, threshold: nat)
    ensures GuardInv(Start(now), threshold) && SoloInv(Start(now), threshold)
  {
  }

  /**
   * Any number of drainers: if each vector is written while its token still owns the row, removals
   * and deletes meet their exact conditions, and no entity is reopened without its vector while its
   * job is idle or given up, then after any history an entity with no pending, claimed or poison row
   * has a vector made from the last payload enqueued for it.
   */
  lemma GuardedDrainersConverge(now: int, acts: seq<Act>, threshold: nat)
    requires threshold >= 1 && IsHistory(Start(now), acts, threshold, Guarded)
    ensures Converged(Outcome(Start(now), acts, threshold, Guarded))
  {
    StartIsSound(now, threshold);
    GuardedHistory(Start(now), acts, threshold);
  }

  /**
   * If processes drain one at a time, which nothing in the code enforces, no write needs a guard:
   * after any history without purged poison rows and unsafe reopenings an entity with no pending,
   * claimed or poison row has a vector made from the last payload enqueued for it, deduplicated
   * enqueues included.
   */
  lemma SoloConverges(now: int, acts: seq<Act>, threshold: nat)
    requires threshold >= 1 && IsHistory(Start(now), acts, threshold, Solo)
    ensures Converged(Outcome(Start(now), acts, threshold, Solo))
  {
    StartIsSound(now, threshold);
    SoloHistory(Start(now), acts, threshold);
  }

  /** Convergence in every state of the history. */
  ghost predicate AlwaysConverged(w: World, acts: seq<Act>, threshold: nat)
    requires IsHistory(w, acts, threshold, GuardedWrites)
    decreases |acts|
  {
    Converged(w) && (acts != [] ==> AlwaysConverged(Next(w, acts[0], threshold), acts[1..], threshold))
  }

  /**
   * What an act must find when writes are guarded. Of the drainers' acts one alone asks for
   * something: the completion of a job given up, whose entity must not be back without its vector.
   */
  ghost predicate Meets(w: World, act: Act) {
    if act.Finish? then CameBack(w, act.d, act.k) ==> VectorFits(w, act.k) else OfDrainer(act) || Keeps(w, act)
  }

  ghost predicate AllMeet(w: World, acts: seq<Act>, threshold: nat)
    requires IsHistory(w, acts, threshold, GuardedWrites)
    decreases |acts|
  {
    acts != [] ==> Meets(w, acts[0]) && AllMeet(Next(w, acts[0], threshold), acts[1..], threshold)
  }

  ghost predicate WriteInv(w: World, threshold: nat) {
    Base(w, threshold) && Converged(w) && AllWritten(w)
  }

  lemma GuardedWriteKeepsIff(w: World, act: Act, threshold: nat)
    requires threshold >= 1 && WriteInv(w, threshold) && Possible(w, act) && Follows(GuardedWrites, w, act)
    ensures Base(Next(w, act, threshold), threshold) && AllWritten(Next(w, act, threshold))
    ensures Converged(Next(w, act, threshold)) <==> Meets(w, act)
  {
    hide Base, Converged, AllWritten, Next, Possible, VectorFits;
    ActKeepsBase(w, act, threshold);
    ActKeepsWritten(w, act, threshold);
    ActKeepsIff(w, act, threshold);
    if act.Finish? {
      FinishMeetsIff(w, act, threshold);
    } else if act.WriteVector? {
      OwnedIsCurrent(w, threshold, act.d, act.k);
    }
  }

  /**
   * With guarded writes, every state of a history converges exactly when each removal, delete and
   * reopening meets its condition and no given-up job is completed with its entity back and without
   * its vector.
   */
  lemma {:induction false} GuardedWritesConvergeIff(w: World, acts: seq<Act>, threshold: nat)
    requires threshold >= 1 && WriteInv(w, threshold) && IsHistory(w, acts, threshold, GuardedWrites)
    ensures AlwaysConverged(w, acts, threshold) <==> AllMeet(w, acts, threshold)
    decreases |acts|
  {
    hide Base, Converged, AllWritten, Next, Possible, Follows, Meets;
    if acts != [] {
      var act := acts[0];
      GuardedWriteKeepsIff(w, act, threshold);
      if Converged(Next(w, act, threshold)) {
        GuardedWritesConvergeIff(Next(w, act, threshold), acts[1..], threshold);
      } else {
        NotConverged(Next(w, act, threshold), acts[1..], threshold);
      }
    }
  }

  lemma NotConverged(w: World, acts: seq<Act>, threshold: nat)
    requires IsHistory(w, acts, threshold, GuardedWrites) && !Converged(w)
    ensures !AlwaysConverged(w, acts, threshold)
  {
  }

  // --- completed rows keep their token ---

  /** Completion leaves `locked_by` in place, but only on rows whose token has been read back. */
  ghost predicate DoneWasRead(s: Sys) {
    forall k :: k in s.jobs && s.jobs[k].status.Done? && s.jobs[k].lockedBy.Some? ==> s.jobs[k].lockedBy.value in s.batches
  }

  lemma UpdateDoneWasRead(s: Sys, u: Update)
    requires DoneWasRead(s) && (u.Complete? ==> u.tok in s.batches)
    ensures forall k :: k in s.jobs ==>
      var row := UpdateRows(s.jobs, u, s.now)[k];
      row.status.Done? && row.lockedBy.Some? ==> row.lockedBy.value in s.batches
  {
  }

  lemma StepDoneWasRead(s: Sys, step: Step, threshold: nat)
    requires Inv(s, threshold) && Enabled(s, step) && DoneWasRead(s)
    ensures DoneWasRead(Apply(s, step, threshold))
  {
    hide UpdateRows, IsClaimBatch, RowsOk, IdsOk, BatchesOk;
    match step
    case CompleteJob(id, tok) => UpdateDoneWasRead(s, Complete(id, tok));
    case ReleaseJob(id, tok) => UpdateDoneWasRead(s, Release(id, tok));
    case FailWrite(n) =>
      assert TicketOk(s.jobs, s.issued, s.tickets[n], threshold);
      UpdateDoneWasRead(s, s.tickets[n].update);
    case ReconcileLeases => UpdateDoneWasRead(s, Reconcile);
    case RetryJob(id, repo) => UpdateDoneWasRead(s, Retry(id, repo));
    case RetryAllPoison(repo) => UpdateDoneWasRead(s, RetryAll(repo));
    case _ =>
  }

  lemma {:induction false} RunDoneWasRead(s: Sys, steps: seq<Step>, threshold: nat)
    requires threshold >= 1 && Inv(s, threshold) && DoneWasRead(s) && IsRun(s, steps, threshold)
    ensures DoneWasRead(After(s, steps, threshold))
    decreases |steps|
  {
    hide Inv, DoneWasRead, Apply, Enabled;
    if steps != [] {
      StepDoneWasRead(s, steps[0], threshold);
      StepKeepsInv(s, steps[0], threshold);
      RunDoneWasRead(Apply(s, steps[0], threshold), steps[1..], threshold);
    }
  }

  /** After any run, a token not read back yet is on claimed rows only: a completed row keeps its token, but it was read. */
  lemma FreshBatch(now: int, steps: seq<Step>, threshold: nat, tok: Token, k: Key)
    requires threshold >= 1 && IsRun(Empty(now), steps, threshold)
    requires var s := After(Empty(now), steps, threshold); tok !in s.batches && k in ReadBack(s.jobs, tok)
    ensures After(Empty(now), steps, threshold).jobs[k].status.Claimed?
  {
    ReachableInv(now, steps, threshold);
    RunDoneWasRead(Empty(now), steps, threshold);
    var s := After(Empty(now), steps, threshold);
    assert RowOk(s.jobs[k], threshold);
  }

  // --- what goes wrong without ---

  lemma Prepend(w: World, act: Act, rest: seq<Act>, threshold: nat, rule: Rule)
    requires Possible(w, act) && Follows(rule, w, act) && IsHistory(Next(w, act, threshold), rest, threshold, rule)
    ensures IsHistory(w, [act] + rest, threshold, rule)
    ensures Outcome(w, [act] + rest, threshold, rule) == Outcome(Next(w, act, threshold), rest, threshold, rule)
  {
    hide Possible, Follows, Next;
    var acts := [act] + rest;
    assert acts[0] == act && acts[1..] == rest;
  }

  lemma ClaimOne(k: Key, row: Row, tok: Token, now: int, lease: int)
    requires row.status.Pending? && row.backoffUntil.None?
    ensures IsClaimBatch(map[k := row], now, 1, {k})
    ensures ClaimRows(map[k := row], {k}, tok, now, lease) == map[k := ClaimRow(row, tok, now, lease)]
    ensures ReadBack(map[k := ClaimRow(row, tok, now, lease)], tok) == map[k := ClaimRow(row, tok, now, lease)]
  {
  }

  lemma UpdateOne(k: Key, row: Row, u: Update, now: int)
    ensures UpdateRows(map[k := row], u, now) == map[k := RowAfter(u, row, now)]
  {
  }

  /** A payload is enqueued for the only entity of the queue, claimed and read by a drainer. */
  function EnqueueAndClaim(input: JobInput, newId: string, d: nat, tok: Token): seq<Act> {
    [Env(Enqueue(input, newId)), StartClaim(d, tok, 1, 0, {input.key}), Receive(d)]
  }

  /** The drainer then finds the entity. */
  function EnqueueAndFind(input: JobInput, newId: string, d: nat, tok: Token): seq<Act> {
    EnqueueAndClaim(input, newId, d, tok) + [Check(d, {input.key})]
  }

  lemma HistoryOfThree(w: World, a: Act, b: Act, c: Act, threshold: nat, rule: Rule)
    requires Possible(w, a) && Follows(rule, w, a)
    requires var w1 := Next(w, a, threshold); Possible(w1, b) && Follows(rule, w1, b)
    requires var w2 := Next(Next(w, a, threshold), b, threshold); Possible(w2, c) && Follows(rule, w2, c)
    ensures IsHistory(w, [a, b, c], threshold, rule)
    ensures Outcome(w, [a, b, c], threshold, rule) == Next(Next(Next(w, a, threshold), b, threshold), c, threshold)
  {
    hide Possible, Follows, Next;
    var w1 := Next(w, a, threshold);
    var w2 := Next(w1, b, threshold);
    var w3 := Next(w2, c, threshold);
    assert IsHistory(w3, [], threshold, rule);
    Prepend(w2, c, [], threshold, rule);
    assert [c] + [] == [c] && [b] + [c] == [b, c] && [a] + [b, c] == [a, b, c];
    Prepend(w1, b, [c], threshold, rule);
    Prepend(w, a, [b, c], threshold, rule);
  }

  lemma {:induction false} ThenMore(w: World, a: seq<Act>, b: seq<Act>, threshold: nat, rule: Rule)
    requires IsHistory(w, a, threshold, rule) && IsHistory(Outcome(w, a, threshold, rule), b, threshold, rule)
    ensures IsHistory(w, a + b, threshold, rule)
    ensures Outcome(w, a + b, threshold, rule) == Outcome(Outcome(w, a, threshold, rule), b, threshold, rule)
    decreases |a|
  {
    hide Possible, Follows, Next;
    if a == [] {
      assert a + b == b;
    } else {
      ThenMore(Next(w, a[0], threshold), a[1..], b, threshold, rule);
      Prepend(w, a[0], a[1..] + b, threshold, rule);
      assert [a[0]] + (a[1..] + b) == a + b;
    }
  }

  /** The row a drainer then holds. */
  function HeldRow(t: Table, input: JobInput, newId: string, now: int, tok: Token): Row {
    ClaimRow(if input.key in t then ResetRow(t[input.key], input, now) else FreshRow(input, newId, now), tok, now, 0)
  }

  lemma AfterEnqueue(w: World, input: JobInput, newId: string, row: Row, threshold: nat) returns (w': World)
    requires w.q.jobs.Keys <= {input.key} && !Dedups(w.q.jobs, input) && newId !in w.q.usedIds
    requires row == if input.key in w.q.jobs then ResetRow(w.q.jobs[input.key], input, w.q.now) else FreshRow(input, newId, w.q.now)
    ensures Possible(w, Env(Enqueue(input, newId))) && w' == Next(w, Env(Enqueue(input, newId)), threshold)
    ensures w' == w.(q := w.q.(jobs := map[input.key := row], usedIds := w.q.usedIds + {newId}),
                     last := w.last[input.key := ContentHash(input.payload)])
    ensures row.status.Pending? && row.backoffUntil.None?
  {
    w' := Next(w, Env(Enqueue(input, newId)), threshold);
    assert w'.q.jobs == map[input.key := row];
  }

  lemma AfterClaim(w: World, k: Key, row: Row, d: nat, tok: Token, threshold: nat) returns (w': World)
    requires w.q.jobs == map[k := row] && row.status.Pending? && row.backoffUntil.None?
    requires tok !in w.q.issued && d !in w.drains
    ensures Possible(w, StartClaim(d, tok, 1, 0, {k})) && w' == Next(w, StartClaim(d, tok, 1, 0, {k}), threshold)
    ensures w' == w.(q := w.q.(jobs := map[k := ClaimRow(row, tok, w.q.now, 0)], issued := w.q.issued + {tok}),
                     drains := w.drains[d := Batch(tok, map[], map[], {})])
  {
    hide IsClaimBatch, ClaimRows;
    ClaimOne(k, row, tok, w.q.now, 0);
    w' := Next(w, StartClaim(d, tok, 1, 0, {k}), threshold);
  }

  lemma AfterReceive(w: World, k: Key, row: Row, d: nat, tok: Token, threshold: nat)
    requires w.q.jobs == map[k := ClaimRow(row, tok, w.q.now, 0)] && row.status.Pending? && row.backoffUntil.None?
    requires d in w.drains && w.drains[d].tok == tok && tok in w.q.issued && tok !in w.q.batches
    ensures Possible(w, Receive(d))
    ensures Next(w, Receive(d), threshold) ==
              w.(q := w.q.(batches := w.q.batches[tok := w.q.jobs]), drains := w.drains[d := Batch(tok, w.q.jobs, map[], {})])
  {
    hide ClaimRow, IsClaimBatch, ReadBack;
    ClaimOne(k, row, tok, w.q.now, 0);
  }

  lemma AfterEnqueueAndClaim(w: World, input: JobInput, newId: string, d: nat, tok: Token, threshold: nat, rule: Rule)
    requires w.q.jobs.Keys <= {input.key} && !Dedups(w.q.jobs, input)
    requires newId !in w.q.usedIds && tok !in w.q.issued && tok !in w.q.batches
    requires d !in w.drains && (rule.Anything? || w.drains == map[])
    ensures IsHistory(w, EnqueueAndClaim(input, newId, d, tok), threshold, rule)
    ensures var row, w' := HeldRow(w.q.jobs, input, newId, w.q.now, tok), Outcome(w, EnqueueAndClaim(input, newId, d, tok), threshold, rule);
            && w'.q.jobs == map[input.key := row]
            && w'.q.issued == w.q.issued + {tok} && w'.q.usedIds == w.q.usedIds + {newId}
            && w'.q.batches == w.q.batches[tok := w'.q.jobs] && w'.q.tickets == w.q.tickets && w'.q.now == w.q.now
            && w'.vectors == w.vectors && w'.gone == w.gone && w'.last == w.last[input.key := ContentHash(input.payload)]
            && w'.drains == w.drains[d := Batch(tok, w'.q.jobs, map[], {})]
  {
    hide Dedups, ClaimRow, ResetRow, FreshRow, Next, Possible, IsHistory, Outcome;
    var row := if input.key in w.q.jobs then ResetRow(w.q.jobs[input.key], input, w.q.now) else FreshRow(input, newId, w.q.now);
    var w1 := AfterEnqueue(w, input, newId, row, threshold);
    var w2 := AfterClaim(w1, input.key, row, d, tok, threshold);
    AfterReceive(w2, input.key, row, d, tok, threshold);
    HistoryOfThree(w, Env(Enqueue(input, newId)), StartClaim(d, tok, 1, 0, {input.key}), Receive(d), threshold, rule);
  }

  /** A check of the one job a drainer holds. */
  lemma AfterCheck(w: World, d: nat, k: Key, threshold: nat) returns (w': World)
    requires d in w.drains && w.drains[d].live == map[] && k in w.drains[d].items && w.drains[d].items[k].payload.text != ""
    ensures Possible(w, Check(d, {k})) && w' == Next(w, Check(d, {k}), threshold)
    ensures w' == w.(drains := w.drains[d := w.drains[d].(live := map[k := k !in w.gone])])
  {
    w' := Next(w, Check(d, {k}), threshold);
    assert w'.drains[d].live == map[k := k !in w.gone];
  }

  lemma AfterEnqueueAndFind(w: World, input: JobInput, newId: string, d: nat, tok: Token, threshold: nat, rule: Rule)
    requires w.q.jobs.Keys <= {input.key} && !Dedups(w.q.jobs, input) && input.payload.text != "" && input.key !in w.gone
    requires newId !in w.q.usedIds && tok !in w.q.issued && tok !in w.q.batches
    requires d !in w.drains && (rule.Anything? || w.drains == map[])
    ensures IsHistory(w, EnqueueAndFind(input, newId, d, tok), threshold, rule)
    ensures var row, w' := HeldRow(w.q.jobs, input, newId, w.q.now, tok), Outcome(w, EnqueueAndFind(input, newId, d, tok), threshold, rule);
            && w'.q.jobs == map[input.key := row]
            && w'.q.issued == w.q.issued + {tok} && w'.q.usedIds == w.q.usedIds + {newId}
            && w'.q.batches == w.q.batches[tok := w'.q.jobs] && w'.q.tickets == w.q.tickets && w'.q.now == w.q.now
            && w'.vectors == w.vectors && w'.gone == w.gone && w'.last == w.last[input.key := ContentHash(input.payload)]
            && w'.drains == w.drains[d := Batch(tok, w'.q.jobs, map[input.key := true], {})]
  {
    hide IsHistory, Outcome, Dedups, Next, Possible;
    var first := EnqueueAndClaim(input, newId, d, tok);
    AfterEnqueueAndClaim(w, input, newId, d, tok, threshold, rule);
    var w1 := Outcome(w, first, threshold, rule);
    var w2 := AfterCheck(w1, d, input.key, threshold);
    HistoryOfOne(w1, Check(d, {input.key}), threshold, rule);
    ThenMore(w, first, [Check(d, {input.key})], threshold, rule);
  }

  lemma HistoryOfOne(w: World, a: Act, threshold: nat, rule: Rule)
    requires Possible(w, a) && Follows(rule, w, a)
    ensures IsHistory(w, [a], threshold, rule)
    ensures Outcome(w, [a], threshold, rule) == Next(w, a, threshold)
  {
    hide Possible, Follows, Next;
    assert IsHistory(Next(w, a, threshold), [], threshold, rule);
    Prepend(w, a, [], threshold, rule);
    assert [a] + [] == [a];
  }

  lemma AfterWrite(w: World, d: nat, k: Key, threshold: nat) returns (w': World)
    requires Applies(w, d, k) && !k.kind.CodebaseSymbol?
    ensures Possible(w, WriteVector(d, k)) && w' == Next(w, WriteVector(d, k), threshold)
    ensures var b := w.drains[d];
            w' == w.(vectors := w.vectors[k := ContentHash(b.items[k].payload)], drains := w.drains[d := b.(written := b.written + {k})])
  {
    w' := Next(w, WriteVector(d, k), threshold);
  }

  /** The owner of a one-row queue completes the job it has written or given up. */
  lemma AfterFinish(w: World, d: nat, k: Key, row: Row, threshold: nat) returns (w': World)
    requires w.q.jobs == map[k := row] && Holds(w, d, k) && w.drains[d].items[k] == row
    requires Owned(row, row.id, w.drains[d].tok) && w.drains[d].tok in w.q.batches
    requires Absent(w.drains[d], k) || (Found(w.drains[d], k) && k in w.drains[d].written)
    ensures Possible(w, Finish(d, k)) && w' == Next(w, Finish(d, k), threshold)
    ensures k in w'.q.jobs && w'.q.jobs[k].status.Done?
    ensures w'.last == w.last && w'.gone == w.gone && w'.vectors == w.vectors
    ensures w'.drains == w.drains[d := Settled(w.drains[d], k)]
  {
    UpdateOne(k, row, Complete(row.id, w.drains[d].tok), w.q.now);
    w' := Next(w, Finish(d, k), threshold);
  }

  /** A drainer of a one-row queue writes the vector and completes the job; another writes its own copy after it. */
  lemma DrainThenStaleWrite(w: World, k: Key, row: Row, stale: Row, t0: Token, t1: Token, threshold: nat)
    requires w.q.jobs == map[k := row] && Owned(row, row.id, t1) && t1 in w.q.batches
    requires w.drains == map[0 := Batch(t0, map[k := stale], map[k := true], {}), 1 := Batch(t1, map[k := row], map[k := true], {})]
    requires !k.kind.CodebaseSymbol?
    ensures var acts := [WriteVector(1, k), Finish(1, k), WriteVector(0, k)];
            && IsHistory(w, acts, threshold, Anything)
            && var w' := Outcome(w, acts, threshold, Anything);
               && k in w'.q.jobs && w'.q.jobs[k].status.Done? && w'.last == w.last && w'.gone == w.gone
               && k in w'.vectors && w'.vectors[k] == ContentHash(stale.payload)
  {
    hide Possible, Next, IsHistory, Outcome;
    var w1 := AfterWrite(w, 1, k, threshold);
    var w2 := AfterFinish(w1, 1, k, row, threshold);
    var w3 := AfterWrite(w2, 0, k, threshold);
    HistoryOfThree(w, WriteVector(1, k), Finish(1, k), WriteVector(0, k), threshold, Anything);
  }

  /**
   * Two drainers overlap: the first is slow, a newer payload is enqueued and drained by the second,
   * then the first writes its old vector. The job is done and the vector is stale.
   */
  lemma OverlapLeavesStaleVector(now: int, k: Key, older: Payload, newer: Payload, threshold: nat) returns (acts: seq<Act>)
    requires !k.kind.CodebaseSymbol? && older.text != "" && newer.text != "" && ContentHash(older) != ContentHash(newer)
    ensures IsHistory(Start(now), acts, threshold, Anything)
    ensures !Converged(Outcome(Start(now), acts, threshold, Anything))
  {
    hide IsHistory, Outcome;
    var t0, t1 := Token(0, 0, now), Token(1, 0, now);
    var first, second := EnqueueAndFind(JobInput(k, "", older), "a", 0, t0), EnqueueAndFind(JobInput(k, "", newer), "b", 1, t1);
    AfterEnqueueAndFind(Start(now), JobInput(k, "", older), "a", 0, t0, threshold, Anything);
    var w := Outcome(Start(now), first, threshold, Anything);
    AfterEnqueueAndFind(w, JobInput(k, "", newer), "b", 1, t1, threshold, Anything);
    var w' := Outcome(w, second, threshold, Anything);
    DrainThenStaleWrite(w', k, w'.q.jobs[k], w.q.jobs[k], t0, t1, threshold);
    ThenMore(w, second, [WriteVector(1, k), Finish(1, k), WriteVector(0, k)], threshold, Anything);
    acts := second + [WriteVector(1, k), Finish(1, k), WriteVector(0, k)];
    ThenMore(Start(now), first, acts, threshold, Anything);
    acts := first + acts;
    assert !VectorRight(Outcome(Start(now), acts, threshold, Anything), k);
  }

  /** Reachable with a single drainer: a job fails into poison, is purged, and its entity has no vector. */
  lemma PurgedPoisonLeavesNoVector(now: int, k: Key, payload: Payload) returns (acts: seq<Act>)
    requires !k.kind.CodebaseSymbol? && payload.text != ""
    ensures IsHistory(Start(now), acts, 1, Anything)
    ensures var w := Outcome(Start(now), acts, 1, Anything); Carries(w, k) && Idle(w.q.jobs, k) && k !in w.vectors
  {
    hide IsHistory, Outcome;
    var tok := Token(0, 0, now);
    var first := EnqueueAndFind(JobInput(k, "", payload), "a", 0, tok);
    AfterEnqueueAndFind(Start(now), JobInput(k, "", payload), "a", 0, tok, 1, Anything);
    var w := Outcome(Start(now), first, 1, Anything);
    FailAndPurge(w, k, w.q.jobs[k], tok);
    acts := [FailJob(0, k, 0, "", 0, 0), Env(FailWrite(0)), Env(Remove(PurgePoison(now + 1)))];
    ThenMore(Start(now), first, acts, 1, Anything);
    acts := first + acts;
  }

  lemma FailAndPurge(w: World, k: Key, row: Row, tok: Token)
    requires w.q.jobs == map[k := row] && Owned(row, row.id, tok) && tok in w.q.batches && w.q.tickets == map[]
    requires w.drains == map[0 := Batch(tok, map[k := row], map[k := true], {})] && row.attempts == 0
    ensures var acts := [FailJob(0, k, 0, "", 0, 0), Env(FailWrite(0)), Env(Remove(PurgePoison(w.q.now + 1)))];
            && IsHistory(w, acts, 1, Anything)
            && var w' := Outcome(w, acts, 1, Anything);
               w'.q.jobs == map[] && w'.last == w.last && w'.gone == w.gone && w'.vectors == w.vectors
  {
    hide IsHistory, Outcome, Next, Possible;
    var w1 := AfterFailRead(w, k, row, tok);
    var w2 := AfterFailWrite(w1, k, row, tok);
    AfterPurge(w2, k);
    HistoryOfThree(w, FailJob(0, k, 0, "", 0, 0), Env(FailWrite(0)), Env(Remove(PurgePoison(w.q.now + 1))), 1, Anything);
  }

  lemma AfterFailRead(w: World, k: Key, row: Row, tok: Token) returns (w': World)
    requires w.q.jobs == map[k := row] && Owned(row, row.id, tok) && tok in w.q.batches && w.q.tickets == map[]
    requires w.drains == map[0 := Batch(tok, map[k := row], map[k := true], {})] && row.attempts == 0
    ensures Possible(w, FailJob(0, k, 0, "", 0, 0)) && w' == Next(w, FailJob(0, k, 0, "", 0, 0), 1)
    ensures w' == w.(q := w.q.(tickets := map[0 := Ticket(row.id, tok, 0, FailUpdate(row.id, tok, 0, "", 1, 0, 0, w.q.now))]),
                     drains := w.drains[0 := Batch(tok, map[], map[k := true], {})])
  {
    assert OwnedKeys(w.q.jobs, row.id, tok) == {k};
    w' := Next(w, FailJob(0, k, 0, "", 0, 0), 1);
    assert w'.drains[0].items == map[];
  }

  lemma AfterFailWrite(w: World, k: Key, row: Row, tok: Token) returns (w': World)
    requires w.q.jobs == map[k := row] && Owned(row, row.id, tok)
    requires 0 in w.q.tickets && w.q.tickets[0].update == FailUpdate(row.id, tok, 0, "", 1, 0, 0, w.q.now)
    ensures Possible(w, Env(FailWrite(0))) && w' == Next(w, Env(FailWrite(0)), 1)
    ensures w'.q.jobs.Keys == {k} && w'.q.jobs[k].status.Poison? && w'.q.jobs[k].updatedAt == w.q.now && w'.q.now == w.q.now
    ensures w'.last == w.last && w'.gone == w.gone && w'.vectors == w.vectors
  {
    UpdateOne(k, row, w.q.tickets[0].update, w.q.now);
    w' := Next(w, Env(FailWrite(0)), 1);
  }

  lemma AfterPurge(w: World, k: Key)
    requires w.q.jobs.Keys == {k} && w.q.jobs[k].status.Poison? && w.q.jobs[k].updatedAt == w.q.now
    ensures var act := Env(Remove(PurgePoison(w.q.now + 1)));
            && Possible(w, act)
            && Next(w, act, 1).q.jobs == map[]
            && Next(w, act, 1).last == w.last && Next(w, act, 1).gone == w.gone && Next(w, act, 1).vectors == w.vectors
  {
  }

  /** Two acts, one after the other. */
  lemma HistoryOfTwo(w: World, a: Act, b: Act, threshold: nat, rule: Rule)
    requires Possible(w, a) && Follows(rule, w, a)
    requires var w1 := Next(w, a, threshold); Possible(w1, b) && Follows(rule, w1, b)
    ensures IsHistory(w, [a, b], threshold, rule)
    ensures Outcome(w, [a, b], threshold, rule) == Next(Next(w, a, threshold), b, threshold)
  {
    hide Possible, Follows, Next;
    var w1 := Next(w, a, threshold);
    var w2 := Next(w1, b, threshold);
    assert IsHistory(w2, [], threshold, rule);
    Prepend(w1, b, [], threshold, rule);
    assert [b] + [] == [b] && [a] + [b] == [a, b];
    Prepend(w, a, [b], threshold, rule);
  }

  /**
   * Without any drainer: a task is enqueued, deleted (canceled, its vector and its job dropped) and
   * reopened by a status change alone. It is live, has no job, and has no vector.
   */
  lemma ReopenedTaskHasNoVector(now: int, k: Key, payload: Payload, threshold: nat) returns (acts: seq<Act>)
    requires k.kind.Task? && payload.text != ""
    ensures IsHistory(Start(now), acts, threshold, Anything)
    ensures var w := Outcome(Start(now), acts, threshold, Anything); Carries(w, k) && k !in w.q.jobs && k !in w.vectors
  {
    var input := JobInput(k, "", payload);
    var row := FreshRow(input, "a", now);
    var w1 := AfterEnqueue(Start(now), input, "a", row, threshold);
    HistoryOfThree(Start(now), Env(Enqueue(input, "a")), Delete({k}), Reopen(k), threshold, Anything);
    acts := [Env(Enqueue(input, "a")), Delete({k}), Reopen(k)];
  }

  /** A memory archived with its job still pending loses the job and stays without a vector. */
  lemma ArchivedMemoryLosesItsJob(now: int, k: Key, payload: Payload, threshold: nat) returns (acts: seq<Act>)
    requires k.kind.Memory? && payload.text != ""
    ensures IsHistory(Start(now), acts, threshold, Anything)
    ensures var w := Outcome(Start(now), acts, threshold, Anything); Carries(w, k) && k !in w.q.jobs && k !in w.vectors
  {
    var input := JobInput(k, "", payload);
    var row := FreshRow(input, "a", now);
    var w1 := AfterEnqueue(Start(now), input, "a", row, threshold);
    HistoryOfTwo(Start(now), Env(Enqueue(input, "a")), Delete({k}), threshold, Anything);
    acts := [Env(Enqueue(input, "a")), Delete({k})];
  }

  /**
   * With a single drainer and every write guarded: a task is canceled with its job claimed, the
   * check does not find it, it is reopened by a status change alone, and the drainer completes the
   * job. It is live, its job is done, and it has no vector.
   */
  lemma ReopenedAfterCheckHasNoVector(now: int, k: Key, payload: Payload, threshold: nat) returns (acts: seq<Act>)
    requires k.kind.Task? && payload.text != ""
    ensures IsHistory(Start(now), acts, threshold, GuardedWrites)
    ensures var w := Outcome(Start(now), acts, threshold, GuardedWrites);
            Carries(w, k) && k in w.q.jobs && w.q.jobs[k].status.Done? && k !in w.vectors
  {
    hide IsHistory, Outcome;
    var tok := Token(0, 0, now);
    var first := EnqueueAndClaim(JobInput(k, "", payload), "a", 0, tok);
    AfterEnqueueAndClaim(Start(now), JobInput(k, "", payload), "a", 0, tok, threshold, GuardedWrites);
    var w := Outcome(Start(now), first, threshold, GuardedWrites);
    var more := CheckBetween(w, k, w.q.jobs[k], tok, threshold);
    ThenMore(Start(now), first, more, threshold, GuardedWrites);
    acts := first + more;
  }

  lemma CheckBetween(w: World, k: Key, row: Row, tok: Token, threshold: nat) returns (acts: seq<Act>)
    requires w.q.jobs == map[k := row] && Owned(row, row.id, tok) && tok in w.q.batches
    requires w.drains == map[0 := Batch(tok, map[k := row], map[], {})] && row.payload.text != "" && k !in w.gone
    ensures IsHistory(w, acts, threshold, GuardedWrites)
    ensures var w' := Outcome(w, acts, threshold, GuardedWrites);
            k in w'.q.jobs && w'.q.jobs[k].status.Done? && w'.last == w.last && w'.gone == w.gone && w'.vectors == w.vectors
  {
    hide IsHistory, Outcome, Next, Possible;
    var w1 := AfterCancel(w, k, threshold);
    var w2 := AfterCheck(w1, 0, k, threshold);
    HistoryOfTwo(w, Cancel(k), Check(0, {k}), threshold, GuardedWrites);
    var w3 := AfterReopen(w2, k, threshold);
    assert w3 == w.(drains := map[0 := Batch(tok, map[k := row], map[k := false], {})]);
    var w4 := AfterFinish(w3, 0, k, row, threshold);
    HistoryOfTwo(w2, Reopen(k), Finish(0, k), threshold, GuardedWrites);
    acts := [Cancel(k), Check(0, {k})] + [Reopen(k), Finish(0, k)];
    ThenMore(w, [Cancel(k), Check(0, {k})], [Reopen(k), Finish(0, k)], threshold, GuardedWrites);
  }

  lemma AfterCancel(w: World, k: Key, threshold: nat) returns (w': World)
    ensures Possible(w, Cancel(k)) && w' == Next(w, Cancel(k), threshold) && w' == w.(gone := w.gone + {k})
  {
    w' := Next(w, Cancel(k), threshold);
  }

  lemma AfterReopen(w: World, k: Key, threshold: nat) returns (w': World)
    ensures Possible(w, Reopen(k)) && w' == Next(w, Reopen(k), threshold) && w' == w.(gone := w.gone - {k})
  {
    w' := Next(w, Reopen(k), threshold);
  }
}
