/**
 * The worker's cycle: claim a batch, complete what needs no work, apply the rest, and settle each
 * claim by its outcome. Proved against a row-by-row description of the table and the vectors.
 */
module Worker {
  import opened Options
  import opened QueueTable
  import opened LeaseProtocol
  import opened OrderBy
  import opened OutboxModel
  import opened Backfill

  /** How applying a job ends; a lock error or a failure may come before or after the vector write. */
  datatype Verdict = Applied | Busy(wrote: bool) | Failed(wrote: bool, error: string)

  /**
   * What a cycle meets: the entities found, how each job ends, the jobs whose no-op completion,
   * release or failure is put off by lock contention, and whether embedding the batch fails.
   */
  datatype Setup = Setup(live: set<Key>, verdict: Key -> Verdict, putOff: Key -> bool, embedFails: bool, version: int,
                         threshold: nat, backoffBase: int, backoffMax: int)

  /** The payload does not parse to a text to embed, or the entity is gone: completed as a no-op. */
  predicate NoOp(s: Setup, k: Key, payload: Payload) {
    payload.text == "" || k !in s.live
  }

  /** codebase_symbol jobs only feed the knowledge graph: no vector is stored for them. */
  predicate WritesVector(s: Setup, k: Key, payload: Payload) {
    && !NoOp(s, k, payload)
    && !k.kind.CodebaseSymbol?
    && match s.verdict(k) {
         case Applied => true
         case Busy(wrote) => wrote
         case Failed(wrote, _) => wrote
       }
  }

  /** The outbox statement that settles a claimed job. */
  function Settle(s: Setup, k: Key, row: Row, tok: Token, now: int): Update {
    if NoOp(s, k, row.payload) then Complete(row.id, tok)
    else match s.verdict(k)
         case Applied => Complete(row.id, tok)
         case Busy(_) => Release(row.id, tok)
         case Failed(_, error) => FailUpdate(row.id, tok, row.attempts, error, s.threshold, s.backoffBase, s.backoffMax, now)
  }

  /** The statement is skipped: the row stays claimed. Contention on a real completion is `Busy(true)`. */
  predicate Skipped(s: Setup, k: Key, payload: Payload) {
    s.putOff(k) && (NoOp(s, k, payload) || !s.verdict(k).Applied?)
  }

  function SettledRow(s: Setup, k: Key, row: Row, tok: Token, now: int): (r: Row)
    ensures r.id == row.id
  {
    if Skipped(s, k, row.payload) then row else RowAfter(Settle(s, k, row, tok, now), row, now)
  }

  /** The claimed table once the jobs in `done` are settled. */
  function SettledRows(s: Setup, t: Table, done: set<Key>, tok: Token, now: int): (r: Table)
    ensures r.Keys == t.Keys
  {
    map k | k in t :: if k in done then SettledRow(s, k, t[k], tok, now) else t[k]
  }

  /** Embedding the batch fails, and there is something to embed. */
  ghost predicate Stopped(s: Setup, rows: Table) {
    s.embedFails && exists k :: k in rows && Turn(s, k, rows[k].payload) == 1
  }

  /** The jobs a cycle gets to: a failed embedding leaves it with the no-ops. */
  ghost function Reached(s: Setup, rows: Table): set<Key> {
    set k | k in rows && (Turn(s, k, rows[k].payload) == 0 || !Stopped(s, rows))
  }

  function Stamp(s: Setup, payload: Payload): Vector {
    Vector(Some(ContentHash(payload)), Some(s.version))
  }

  /** The vectors once the jobs in `done` are applied: each stamped with its own snapshot's hash. */
  function WrittenVectors(s: Setup, t: Table, done: set<Key>, v: Vectors): Vectors {
    v + map k | k in done && k in t && WritesVector(s, k, t[k].payload) :: Stamp(s, t[k].payload)
  }

  // --- what a cycle comes to, job by job ---

  /** Nothing to embed, or the entity is gone: said of the row, apart from what the cycle decides by. */
  predicate NothingToDo(s: Setup, k: Key, row: Row) {
    row.payload.text == "" || k !in s.live
  }

  /**
   * How a job ends, from the row claimed and the row left: real failures alone cost an attempt,
   * lock contention costs nothing, and a statement put off leaves the row claimed.
   */
  predicate JobEnds(s: Setup, k: Key, before: Row, after: Row, now: int) {
    var nothing, verdict := NothingToDo(s, k, before), s.verdict(k);
    && after.id == before.id && after.payload == before.payload && after.createdAt == before.createdAt
    && after.attempts == before.attempts + (if !nothing && verdict.Failed? && !s.putOff(k) then 1 else 0)
    && (after.status.Done? <==> if nothing then !s.putOff(k) else verdict.Applied?)
    && (after.status.Claimed? <==> s.putOff(k) && (nothing || !verdict.Applied?))
    && (!nothing && verdict.Busy? && !s.putOff(k) ==> after.status.Pending? && after.backoffUntil == before.backoffUntil)
    && (!nothing && verdict.Failed? && !s.putOff(k) ==>
          && (after.status.Poison? <==> after.attempts >= s.threshold)
          && (after.status.Pending? ==> after.backoffUntil == Some(now + Wait(before.attempts, s.backoffBase, s.backoffMax)))
          && after.lastError.Some? && after.lastError.value <= verdict.error)
    && (after.status.Claimed? <==> after.lockedBy.Some? && !after.status.Done?)
  }

  /** Which entities get a vector: live ones with a text, of a kind that has vectors, whose job came to the write. */
  predicate GetsVector(s: Setup, k: Key, row: Row) {
    && !NothingToDo(s, k, row) && !k.kind.CodebaseSymbol?
    && (s.verdict(k).Applied? || (s.verdict(k).Busy? && s.verdict(k).wrote) || (s.verdict(k).Failed? && s.verdict(k).wrote))
  }

  /** The effect of a cycle that claimed `chosen`; a failed embedding leaves it with the jobs that have nothing to do. */
  ghost predicate CycleEnds(s: Setup, t: Table, v: Vectors, chosen: set<Key>, tok: Token, now: int, stopped: bool, jobs: Table, vectors: Vectors) {
    && chosen <= t.Keys && jobs.Keys == t.Keys
    && (stopped <==> s.embedFails && exists k :: k in chosen && !NothingToDo(s, k, t[k]) && !k.kind.CodebaseSymbol?)
    && (forall k :: k in t && k !in chosen ==> jobs[k] == t[k])
    && (forall k :: k in chosen && (!stopped || NothingToDo(s, k, t[k])) ==> JobEnds(s, k, t[k], jobs[k], now))
    && (forall k :: k in chosen && stopped && !NothingToDo(s, k, t[k]) ==> jobs[k].lockedBy == Some(tok) && LeftClaimed(t[k], jobs[k]))
    && (forall k :: k in chosen && !stopped && GetsVector(s, k, t[k]) ==>
          k in vectors && vectors[k] == Vector(Some(ContentHash(t[k].payload)), Some(s.version)))
    && (forall k :: !(k in chosen && !stopped && GetsVector(s, k, t[k])) ==> VectorKept(k, v, vectors))
  }

  /** Claimed, and otherwise as before the claim. */
  predicate LeftClaimed(before: Row, after: Row) {
    after == before.(status := Claimed, leaseUntil := after.leaseUntil, lockedBy := after.lockedBy, updatedAt := after.updatedAt)
  }

  lemma JobEndsAsSettled(s: Setup, k: Key, row: Row, tok: Token, now: int)
    requires Owned(row, row.id, tok)
    ensures JobEnds(s, k, row, SettledRow(s, k, row, tok, now), now)
  {
  }

  lemma ReachedJobs(s: Setup, rows: Table)
    ensures Stopped(s, rows) <==> s.embedFails && exists k :: k in rows && !NothingToDo(s, k, rows[k]) && !k.kind.CodebaseSymbol?
    ensures forall k :: k in Reached(s, rows) <==> k in rows && (NothingToDo(s, k, rows[k]) || !Stopped(s, rows))
  {
    if k :| k in rows && !NothingToDo(s, k, rows[k]) && !k.kind.CodebaseSymbol? {
      assert Turn(s, k, rows[k].payload) == 1;
    }
  }

  /** A claimed job settled, seen from the row before the claim. */
  lemma JobEndsFromClaim(s: Setup, k: Key, row: Row, tok: Token, now: int, lease: int)
    ensures JobEnds(s, k, row, SettledRow(s, k, ClaimRow(row, tok, now, lease), tok, now), now)
    ensures LeftClaimed(row, ClaimRow(row, tok, now, lease))
  {
    JobEndsAsSettled(s, k, ClaimRow(row, tok, now, lease), tok, now);
  }

  lemma WrittenAsStated(s: Setup, t: Table, done: set<Key>, v: Vectors, k: Key)
    ensures k in done && k in t && GetsVector(s, k, t[k]) ==>
      k in WrittenVectors(s, t, done, v) && WrittenVectors(s, t, done, v)[k] == Vector(Some(ContentHash(t[k].payload)), Some(s.version))
    ensures !(k in done && k in t && GetsVector(s, k, t[k])) ==> VectorKept(k, v, WrittenVectors(s, t, done, v))
  {
    assert k in t ==> (GetsVector(s, k, t[k]) <==> WritesVector(s, k, t[k].payload));
  }

  lemma CycleEndsAsSettled(s: Setup, t: Table, v: Vectors, chosen: set<Key>, tok: Token, now: int, lease: int, jobs: Table, vectors: Vectors)
    requires chosen <= t.Keys
    requires var claimed := ClaimRows(t, chosen, tok, now, lease);
             SettledSoFar(s, claimed, v, tok, now, Reached(s, Rows(claimed, chosen)), jobs, vectors)
    ensures CycleEnds(s, t, v, chosen, tok, now, Stopped(s, Rows(ClaimRows(t, chosen, tok, now, lease), chosen)), jobs, vectors)
  {
    var claimed := ClaimRows(t, chosen, tok, now, lease);
    var rows := Rows(claimed, chosen);
    var stopped := Stopped(s, rows);
    var reached := Reached(s, rows);
    ReachedJobs(s, rows);
    hide Stopped, Reached, JobEnds, LeftClaimed, SettledRow, WrittenVectors, WritesVector, GetsVector, VectorKept;
    forall k | k in chosen
      ensures NothingToDo(s, k, rows[k]) <==> NothingToDo(s, k, t[k])
      ensures GetsVector(s, k, claimed[k]) <==> GetsVector(s, k, t[k])
      ensures k in reached ==> JobEnds(s, k, t[k], jobs[k], now)
      ensures k !in reached ==> LeftClaimed(t[k], jobs[k]) && jobs[k].lockedBy == Some(tok)
    {
      JobEndsFromClaim(s, k, t[k], tok, now, lease);
      SameForVector(s, k, t[k], tok, now, lease);
    }
    forall k
      ensures k in chosen && !stopped && GetsVector(s, k, t[k]) ==>
        k in vectors && vectors[k] == Vector(Some(ContentHash(t[k].payload)), Some(s.version))
      ensures !(k in chosen && !stopped && GetsVector(s, k, t[k])) ==> VectorKept(k, v, vectors)
    {
      WrittenAsStated(s, claimed, reached, v, k);
      if k in chosen && NothingToDo(s, k, t[k]) {
        NothingNoVector(s, k, t[k]);
      }
    }
  }

  lemma SameForVector(s: Setup, k: Key, row: Row, tok: Token, now: int, lease: int)
    ensures GetsVector(s, k, ClaimRow(row, tok, now, lease)) <==> GetsVector(s, k, row)
  {
  }

  lemma NothingNoVector(s: Setup, k: Key, row: Row)
    requires NothingToDo(s, k, row)
    ensures !GetsVector(s, k, row)
  {
  }

  /** The table and the vectors when exactly the jobs in `done` are settled. */
  ghost predicate SettledSoFar(s: Setup, t: Table, v: Vectors, tok: Token, now: int, done: set<Key>, jobs: Table, vectors: Vectors) {
    && jobs == SettledRows(s, t, done, tok, now)
    && vectors == WrittenVectors(s, t, done, v)
  }

  /** `rows`, listed by `batch`, are the rows of `t` owned by `tok`, and ids are unique. */
  ghost predicate BatchOf(t: Table, tok: Token, rows: Table, batch: seq<Key>) {
    && Distinct(batch)
    && (forall k :: k in batch <==> k in rows)
    && (forall k :: k in rows ==> k in t && rows[k] == t[k] && Owned(t[k], t[k].id, tok))
    && (forall l, m :: l in t && m in t && t[l].id == t[m].id ==> l == m)
  }

  ghost predicate TurnsBelow(s: Setup, rows: Table, pass: nat, done: set<Key>) {
    && done <= rows.Keys
    && (forall k :: k in rows ==> (k in done <==> Turn(s, k, rows[k].payload) < pass))
  }

  /** Where a pass stands before the i-th job of the batch. */
  ghost predicate PassAt(s: Setup, rows: Table, batch: seq<Key>, pass: nat, i: nat, before: set<Key>, done: set<Key>) {
    && before <= done <= rows.Keys
    && (forall k :: k in done && k !in before ==> Turn(s, k, rows[k].payload) == pass && k in batch[..Min(i, |batch|)])
    && (forall j :: 0 <= j < i && j < |batch| && batch[j] in rows && Turn(s, batch[j], rows[batch[j]].payload) == pass ==> batch[j] in done)
  }

  lemma InBatch(t: Table, tok: Token, rows: Table, batch: seq<Key>, i: nat)
    requires BatchOf(t, tok, rows, batch) && i < |batch|
    ensures var k := batch[i];
            k in rows && k in t && rows[k] == t[k] && Owned(t[k], t[k].id, tok)
    ensures forall l, m :: l in t && m in t && t[l].id == t[m].id ==> l == m
  {
    assert batch[i] in batch;
  }

  lemma PassStart(s: Setup, batch: seq<Key>, rows: Table, tok: Token, t: Table, pass: nat, before: set<Key>)
    requires BatchOf(t, tok, rows, batch) && TurnsBelow(s, rows, pass, before)
    ensures PassAt(s, rows, batch, pass, 0, before, before)
  {
  }

  lemma PassStep(s: Setup, batch: seq<Key>, rows: Table, tok: Token, t: Table, pass: nat, i: nat, before: set<Key>, done: set<Key>)
    requires BatchOf(t, tok, rows, batch) && TurnsBelow(s, rows, pass, before) && i < |batch|
    requires PassAt(s, rows, batch, pass, i, before, done)
    ensures var k := batch[i];
            && k in rows
            && (if Turn(s, k, rows[k].payload) == pass
                then k !in done && PassAt(s, rows, batch, pass, i + 1, before, done + {k})
                else PassAt(s, rows, batch, pass, i + 1, before, done))
  {
    hide Turn, Owned;
    assert batch[i] in batch;
    assert batch[..i + 1] == batch[..i] + [batch[i]];
  }

  lemma PassEnd(s: Setup, batch: seq<Key>, rows: Table, tok: Token, t: Table, pass: nat, before: set<Key>, done: set<Key>)
    requires BatchOf(t, tok, rows, batch) && TurnsBelow(s, rows, pass, before)
    requires PassAt(s, rows, batch, pass, |batch|, before, done)
    ensures TurnsBelow(s, rows, pass + 1, done)
  {
    forall k | k in rows && Turn(s, k, rows[k].payload) == pass
      ensures k in done
    {
      assert k in batch;
      var j :| 0 <= j < |batch| && batch[j] == k;
    }
  }

  /** A claim by a process whose tokens are ahead of the table reads back exactly what it claimed. */
  lemma ClaimIsFresh(t: Table, after: Table, pid: nat, counter: nat, now: int, lease: int, max: nat,
                     chosen: set<Key>, rows: Table, batch: seq<Key>, used: set<string>)
    requires Behind(t, pid, counter) && IdsOk(after, used)
    requires ClaimOutcome(t, after, Token(pid, counter, now), now, lease, max, chosen, rows, batch)
    ensures rows.Keys == chosen && BatchOf(after, Token(pid, counter, now), rows, batch)
  {
    var tok := Token(pid, counter, now);
    FreshReadBack(t, after, pid, counter, now, lease, max, chosen, rows, batch);
    forall k | k in rows
      ensures k in after && rows[k] == after[k] && Owned(after[k], after[k].id, tok)
    {
      assert after[k] == ClaimRow(t[k], tok, now, lease);
    }
  }

  lemma FreshReadBack(t: Table, after: Table, pid: nat, counter: nat, now: int, lease: int, max: nat,
                      chosen: set<Key>, rows: Table, batch: seq<Key>)
    requires Behind(t, pid, counter)
    requires ClaimOutcome(t, after, Token(pid, counter, now), now, lease, max, chosen, rows, batch)
    ensures rows.Keys == chosen
  {
    hide IsClaimBatch, ClaimRows, ReadBack, Lists;
    assert chosen == {} ==> rows == map[];
    NoneAhead(t, pid, counter, now);
  }

  lemma NoneAhead(t: Table, pid: nat, counter: nat, now: int)
    requires Behind(t, pid, counter)
    ensures forall k :: k in t ==> t[k].lockedBy != Some(Token(pid, counter, now))
  {
  }

  lemma OutcomeIs(t: Table, after: Table, tok: Token, now: int, lease: int, max: nat,
                  chosen: set<Key>, rows: Table, batch: seq<Key>)
    requires ClaimOutcome(t, after, tok, now, lease, max, chosen, rows, batch)
    ensures IsClaimBatch(t, now, max, chosen) && after == ClaimRows(t, chosen, tok, now, lease)
    ensures rows.Keys == chosen ==> |batch| == |chosen|
  {
    DistinctCount(batch, rows.Keys);
  }

  lemma EmptyClaim(t: Table, tok: Token, now: int, lease: int, used: set<string>)
    requires IdsOk(t, used)
    ensures t == ClaimRows(t, {}, tok, now, lease) && BatchOf(t, tok, map[], [])
  {
  }

  lemma NothingSettled(s: Setup, t: Table, tok: Token, now: int, v: Vectors)
    ensures SettledSoFar(s, t, v, tok, now, {}, t, v)
  {
  }

  function AfterStatement(s: Setup, t: Table, k: Key, row: Row, tok: Token, now: int): Table {
    if Skipped(s, k, row.payload) then t else UpdateRows(t, Settle(s, k, row, tok, now), now)
  }

  /** Settling one more job touches no other row: ids are unique. */
  lemma SettleOne(s: Setup, t: Table, done: set<Key>, k: Key, tok: Token, now: int)
    requires k in t && k !in done
    requires forall l, m :: l in t && m in t && t[l].id == t[m].id ==> l == m
    ensures AfterStatement(s, SettledRows(s, t, done, tok, now), k, t[k], tok, now) == SettledRows(s, t, done + {k}, tok, now)
  {
    var u := Settle(s, k, t[k], tok, now);
    var before := SettledRows(s, t, done, tok, now);
    forall l | l in t && l != k
      ensures RowAfter(u, before[l], now) == before[l]
    {
      assert before[l].id == t[l].id;
    }
  }

  lemma WriteOne(s: Setup, t: Table, done: set<Key>, k: Key, v: Vectors)
    requires k in t && k !in done
    ensures WrittenVectors(s, t, done + {k}, v) ==
            if WritesVector(s, k, t[k].payload) then WrittenVectors(s, t, done, v)[k := Stamp(s, t[k].payload)]
            else WrittenVectors(s, t, done, v)
  {
    hide WritesVector, Stamp;
  }

  /** No row carries a token that process `pid` has yet to issue. */
  ghost predicate Behind(t: Table, pid: nat, counter: nat) {
    forall k :: k in t && t[k].lockedBy.Some? && t[k].lockedBy.value.pid == pid ==> t[k].lockedBy.value.counter < counter
  }

  lemma SettledBehind(s: Setup, t: Table, chosen: set<Key>, done: set<Key>, pid: nat, counter: nat, now: int, lease: int,
                      v: Vectors, jobs: Table, vectors: Vectors)
    requires Behind(t, pid, counter)
    requires var tok := Token(pid, counter, now);
             SettledSoFar(s, ClaimRows(t, chosen, tok, now, lease), v, tok, now, done, jobs, vectors)
    ensures Behind(jobs, pid, counter + 1) && (chosen == {} ==> Behind(jobs, pid, counter))
  {
    hide SettledRow, WrittenVectors;
    var tok := Token(pid, counter, now);
    var claimed := ClaimRows(t, chosen, tok, now, lease);
    forall k | k in t
      ensures jobs[k].lockedBy in {None, claimed[k].lockedBy}
    {
      SettledToken(s, k, claimed[k], tok, now);
    }
  }

  lemma SettledToken(s: Setup, k: Key, row: Row, tok: Token, now: int)
    ensures SettledRow(s, k, row, tok, now).lockedBy in {None, row.lockedBy}
  {
  }

  lemma NoTurns(s: Setup, rows: Table)
    ensures TurnsBelow(s, rows, 0, {})
  {
  }

  lemma NoOpsReached(s: Setup, rows: Table, done: set<Key>)
    requires TurnsBelow(s, rows, 1, done) && Stopped(s, rows)
    ensures done == Reached(s, rows)
  {
  }

  lemma EachReached(s: Setup, rows: Table, done: set<Key>)
    requires TurnsBelow(s, rows, 3, done) && !Stopped(s, rows)
    ensures done == Reached(s, rows)
  {
  }

  lemma BatchEnds(s: Setup, batch: seq<Key>, rows: Table, tok: Token, t: Table, now: int, v: Vectors, jobs: Table, vectors: Vectors)
    requires BatchOf(t, tok, rows, batch) && SettledSoFar(s, t, v, tok, now, Reached(s, rows), jobs, vectors)
    ensures forall k :: k in rows && (!Stopped(s, rows) || NothingToDo(s, k, rows[k])) ==>
      k in jobs && JobEnds(s, k, rows[k], jobs[k], now)
  {
    ReachedJobs(s, rows);
    hide Stopped, Reached, JobEnds, SettledRow;
    forall k | k in Reached(s, rows)
      ensures k in jobs && JobEnds(s, k, rows[k], jobs[k], now)
    {
      JobEndsAsSettled(s, k, t[k], tok, now);
    }
  }

  lemma BatchIsRows(t: Table, tok: Token, rows: Table, batch: seq<Key>, chosen: set<Key>)
    requires BatchOf(t, tok, rows, batch) && rows.Keys == chosen
    ensures rows == Rows(t, chosen)
  {
  }

  class EmbeddingWorker {
    const outbox: Outbox
    var vectors: Vectors

    constructor (outbox: Outbox, vectors: Vectors)
      ensures this.outbox == outbox && this.vectors == vectors
    {
      this.outbox, this.vectors := outbox, vectors;
    }

    ghost predicate TokensBehind()
      reads outbox, outbox.db
    {
      Behind(outbox.db.jobs, outbox.pid, outbox.batchCounter)
    }

    /** Run the outbox statement a verdict asks for. */
    method Conclude(s: Setup, k: Key, row: Row, tok: Token)
      requires outbox.Valid() && s.threshold == outbox.threshold
      requires k in outbox.db.jobs && outbox.db.jobs[k] == row && Owned(row, row.id, tok)
      modifies outbox.db`jobs
      ensures outbox.Valid()
      ensures outbox.db.jobs == AfterStatement(s, old(outbox.db.jobs), k, row, tok, outbox.db.now)
      ensures k in outbox.db.jobs && JobEnds(s, k, row, outbox.db.jobs[k], outbox.db.now)
    {
      JobEndsAsSettled(s, k, row, tok, outbox.db.now);
      if Skipped(s, k, row.payload) {
        return;
      }
      if NoOp(s, k, row.payload) {
        var _ := outbox.Complete(row.id, tok);
        return;
      }
      match s.verdict(k) {
        case Applied => var _ := outbox.Complete(row.id, tok);
        case Busy(_) => var _ := outbox.Release(row.id, tok);
        case Failed(_, error) => outbox.Fail(row.id, tok, error, s.backoffBase, s.backoffMax);
      }
    }

    method SettleJob(s: Setup, k: Key, row: Row, tok: Token, ghost t: Table, ghost done: set<Key>, ghost v: Vectors)
      requires outbox.Valid() && s.threshold == outbox.threshold
      requires k in t && row == t[k] && k !in done && t.Keys == outbox.db.jobs.Keys
      requires forall l, m :: l in t && m in t && t[l].id == t[m].id ==> l == m
      requires Owned(row, row.id, tok)
      requires SettledSoFar(s, t, v, tok, outbox.db.now, done, outbox.db.jobs, vectors)
      modifies this`vectors, outbox.db`jobs
      ensures outbox.Valid()
      ensures SettledSoFar(s, t, v, tok, outbox.db.now, done + {k}, outbox.db.jobs, vectors)
      ensures outbox.db.jobs.Keys == t.Keys
    {
      SettleOne(s, t, done, k, tok, outbox.db.now);
      WriteOne(s, t, done, k, v);
      if WritesVector(s, k, row.payload) {
        vectors := vectors[k := Stamp(s, row.payload)];
      }
      Conclude(s, k, row, tok);
    }

    /** One pass over the batch: the jobs whose turn it is. */
    method SettlePass(s: Setup, batch: seq<Key>, rows: Table, tok: Token, pass: nat,
                      ghost t: Table, ghost v: Vectors, ghost before: set<Key>) returns (ghost done: set<Key>)
      requires outbox.Valid() && s.threshold == outbox.threshold && BatchOf(t, tok, rows, batch)
      requires outbox.db.jobs.Keys == t.Keys && SettledSoFar(s, t, v, tok, outbox.db.now, before, outbox.db.jobs, vectors)
      requires TurnsBelow(s, rows, pass, before)
      modifies this`vectors, outbox.db`jobs
      ensures outbox.Valid() && outbox.db.jobs.Keys == t.Keys
      ensures SettledSoFar(s, t, v, tok, outbox.db.now, done, outbox.db.jobs, vectors)
      ensures TurnsBelow(s, rows, pass + 1, done)
    {
      hide SettledSoFar, RowsOk, IdsOk, BatchOf, TurnsBelow, PassAt;
      done := before;
      PassStart(s, batch, rows, tok, t, pass, before);
      for i := 0 to |batch|
        invariant outbox.Valid() && outbox.db.jobs.Keys == t.Keys
        invariant SettledSoFar(s, t, v, tok, outbox.db.now, done, outbox.db.jobs, vectors)
        invariant PassAt(s, rows, batch, pass, i, before, done)
      {
        var k := batch[i];
        InBatch(t, tok, rows, batch, i);
        PassStep(s, batch, rows, tok, t, pass, i, before, done);
        if Turn(s, k, rows[k].payload) == pass {
          SettleJob(s, k, rows[k], tok, t, done, v);
          done := done + {k};
        }
      }
      PassEnd(s, batch, rows, tok, t, pass, before, done);
    }

    /**
     * The passes over a claimed batch: no-ops first, then the entities that embed, then the codebase
     * files. If embedding the batch fails, the cycle ends with the no-ops.
     */
    method SettleBatch(s: Setup, batch: seq<Key>, rows: Table, tok: Token, ghost t: Table) returns (stopped: bool)
      requires outbox.Valid() && s.threshold == outbox.threshold && BatchOf(t, tok, rows, batch)
      requires outbox.db.jobs.Keys == t.Keys && SettledSoFar(s, t, vectors, tok, outbox.db.now, {}, outbox.db.jobs, vectors)
      modifies this`vectors, outbox.db`jobs
      ensures outbox.Valid() && stopped == Stopped(s, rows)
      ensures SettledSoFar(s, t, old(vectors), tok, outbox.db.now, Reached(s, rows), outbox.db.jobs, vectors)
      ensures forall k :: k in rows && (!stopped || NothingToDo(s, k, rows[k])) ==>
        k in outbox.db.jobs && JobEnds(s, k, rows[k], outbox.db.jobs[k], outbox.db.now)
    {
      hide SettledSoFar, RowsOk, IdsOk, BatchOf, TurnsBelow, Reached, JobEnds;
      ghost var v := vectors;
      NoTurns(s, rows);
      ghost var d0 := SettlePass(s, batch, rows, tok, 0, t, v, {});
      stopped := s.embedFails && exists k :: k in rows && Turn(s, k, rows[k].payload) == 1;
      if stopped {
        NoOpsReached(s, rows, d0);
        BatchEnds(s, batch, rows, tok, t, outbox.db.now, v, outbox.db.jobs, vectors);
        return;
      }
      ghost var d1 := SettlePass(s, batch, rows, tok, 1, t, v, d0);
      ghost var d2 := SettlePass(s, batch, rows, tok, 2, t, v, d1);
      EachReached(s, rows, d2);
      BatchEnds(s, batch, rows, tok, t, outbox.db.now, v, outbox.db.jobs, vectors);
    }

    /** A claim by a process whose tokens are ahead of the table: the batch read back is the batch claimed. */
    method ClaimFresh(batchSize: int, leaseMs: int) returns (batch: seq<Key>, rows: Table, ghost chosen: set<Key>)
      requires outbox.Valid() && TokensBehind()
      modifies outbox`batchCounter, outbox.db`jobs
      ensures outbox.Valid()
      ensures old(outbox.batchCounter) <= outbox.batchCounter <= old(outbox.batchCounter) + 1
      ensures chosen != {} ==> outbox.batchCounter == old(outbox.batchCounter) + 1
      ensures batchSize <= 0 ==> chosen == {}
      ensures batchSize > 0 ==> IsClaimBatch(old(outbox.db.jobs), outbox.db.now, batchSize, chosen)
      ensures var tok := Token(outbox.pid, old(outbox.batchCounter), outbox.db.now);
              && outbox.db.jobs == ClaimRows(old(outbox.db.jobs), chosen, tok, outbox.db.now, leaseMs)
              && rows.Keys == chosen && |batch| == |chosen| && BatchOf(outbox.db.jobs, tok, rows, batch)
    {
      hide RowsOk, IdsOk, ClaimOutcome, IsClaimBatch, ClaimRows, Behind, BatchOf;
      ghost var t, counter := outbox.db.jobs, outbox.batchCounter;
      batch, rows, chosen := outbox.Claim(batchSize, leaseMs);
      if batchSize <= 0 {
        EmptyClaim(t, Token(outbox.pid, counter, outbox.db.now), outbox.db.now, leaseMs, outbox.db.used);
      } else {
        OutcomeIs(t, outbox.db.jobs, Token(outbox.pid, counter, outbox.db.now), outbox.db.now, leaseMs, batchSize, chosen, rows, batch);
        ClaimIsFresh(t, outbox.db.jobs, outbox.pid, counter, outbox.db.now, leaseMs, batchSize, chosen, rows, batch, outbox.db.used);
      }
    }

    /** One claim-and-drain cycle: every claimed row it gets to is settled once, all other rows stay as they were. */
    method RunOnce(s: Setup, batchSize: int, leaseMs: int) returns (claimed: nat, stopped: bool, ghost chosen: set<Key>)
      requires outbox.Valid() && s.threshold == outbox.threshold && TokensBehind()
      modifies this`vectors, outbox`batchCounter, outbox.db`jobs
      ensures outbox.Valid() && TokensBehind()
      ensures claimed == |chosen|
      ensures batchSize <= 0 ==> chosen == {}
      ensures batchSize > 0 ==> IsClaimBatch(old(outbox.db.jobs), outbox.db.now, batchSize, chosen)
      ensures var tok := Token(outbox.pid, old(outbox.batchCounter), outbox.db.now);
              var t := ClaimRows(old(outbox.db.jobs), chosen, tok, outbox.db.now, leaseMs);
              && stopped == Stopped(s, Rows(t, chosen))
              && SettledSoFar(s, t, old(vectors), tok, outbox.db.now, Reached(s, Rows(t, chosen)), outbox.db.jobs, vectors)
      ensures CycleEnds(s, old(outbox.db.jobs), old(vectors), chosen, Token(outbox.pid, old(outbox.batchCounter), outbox.db.now),
                        outbox.db.now, stopped, outbox.db.jobs, vectors)
    {
      hide CycleEnds, SettledSoFar, RowsOk, IdsOk, IsClaimBatch, ClaimRows, Behind, BatchOf, Reached, Stopped;
      ghost var t0 := outbox.db.jobs;
      var tok := Token(outbox.pid, outbox.batchCounter, outbox.db.now);
      var batch, rows;
      batch, rows, chosen := ClaimFresh(batchSize, leaseMs);
      ghost var t := outbox.db.jobs;
      BatchIsRows(t, tok, rows, batch, chosen);
      claimed := |batch|;
      NothingSettled(s, t, tok, outbox.db.now, vectors);
      ghost var v := vectors;
      stopped := SettleBatch(s, batch, rows, tok, t);
      SettledBehind(s, t0, chosen, Reached(s, rows), outbox.pid, tok.counter, outbox.db.now, leaseMs, v, outbox.db.jobs, vectors);
      ChosenThere(t0, outbox.db.now, batchSize, chosen);
      CycleEndsAsSettled(s, t0, v, chosen, tok, outbox.db.now, leaseMs, outbox.db.jobs, vectors);
    }

    /**
     * Run cycles until nothing is pending. Started with no claimed row and no backoff in the future,
     * and with cycles that go smoothly, it settles every pending row as done.
     */
    method DrainQueue(s: Setup, batchSize: nat, leaseMs: int)
      requires outbox.Valid() && s.threshold == outbox.threshold && TokensBehind() && batchSize > 0
      requires Smooth(s)
      requires Drainable(outbox.db.jobs, outbox.db.now)
      modifies this`vectors, outbox`batchCounter, outbox.db`jobs
      ensures outbox.Valid() && TokensBehind()
      ensures IsDrained(s.live, s.version, old(outbox.db.jobs), old(vectors), outbox.db.jobs, vectors)
    {
      var pending := PendingKeys(outbox.db.jobs);
      while pending != {}
        invariant outbox.Valid() && TokensBehind()
        invariant pending == PendingKeys(outbox.db.jobs)
        invariant Drainable(outbox.db.jobs, outbox.db.now)
        invariant PartlyDrained(s.live, s.version, old(outbox.db.jobs), old(vectors), outbox.db.jobs, vectors)
        decreases pending
      {
        DrainCycle(s, batchSize, leaseMs, old(outbox.db.jobs), old(vectors));
        pending := PendingKeys(outbox.db.jobs);
      }
      assert forall k :: k in outbox.db.jobs && outbox.db.jobs[k].status.Pending? ==> k in pending;
    }

    method DrainCycle(s: Setup, batchSize: nat, leaseMs: int, ghost t0: Table, ghost v0: Vectors)
      requires outbox.Valid() && s.threshold == outbox.threshold && TokensBehind() && batchSize > 0
      requires Smooth(s)
      requires Drainable(outbox.db.jobs, outbox.db.now) && PendingKeys(outbox.db.jobs) != {}
      requires PartlyDrained(s.live, s.version, t0, v0, outbox.db.jobs, vectors)
      modifies this`vectors, outbox`batchCounter, outbox.db`jobs
      ensures outbox.Valid() && TokensBehind() && Drainable(outbox.db.jobs, outbox.db.now)
      ensures PartlyDrained(s.live, s.version, t0, v0, outbox.db.jobs, vectors)
      ensures PendingKeys(outbox.db.jobs) < PendingKeys(old(outbox.db.jobs))
    {
      hide SettledSoFar, RowsOk, IdsOk, IsClaimBatch, ClaimRows, Behind, Reached, Stopped, PartlyDrained, Drainable, Smooth;
      ghost var t, v := outbox.db.jobs, vectors;
      ghost var tok := Token(outbox.pid, outbox.batchCounter, outbox.db.now);
      ghost var first: Key :| first in PendingKeys(t);
      var _, _, chosen := RunOnce(s, batchSize, leaseMs);
      SomeChosen(t, outbox.db.now, batchSize, chosen, first);
      CycleDrains(s, t, v, chosen, tok, outbox.db.now, leaseMs, batchSize, outbox.db.jobs, vectors);
      PartlyThenMore(s.live, s.version, t0, v0, t, v, outbox.db.jobs, vectors);
      FewerPending(s.live, s.version, t, v, outbox.db.jobs, vectors, chosen);
    }
  }

  /** No job fails, no statement is put off, and embedding works. */
  ghost predicate Smooth(s: Setup) {
    !s.embedFails && forall k :: s.verdict(k) == Applied && !s.putOff(k)
  }

  function Rows(t: Table, keys: set<Key>): Table {
    map k | k in keys && k in t :: t[k]
  }

  lemma AllReached(s: Setup, rows: Table)
    requires Smooth(s)
    ensures Reached(s, rows) == rows.Keys
  {
  }

  /**
   * A claimed row is still under its token after the cycle exactly when its statement was put off or
   * the cycle stopped before it, and then with nothing changed.
   */
  lemma StaysClaimedIff(s: Setup, t: Table, chosen: set<Key>, tok: Token, now: int, k: Key)
    requires k in chosen && k in t && Owned(t[k], t[k].id, tok)
    ensures var after := SettledRows(s, t, Reached(s, Rows(t, chosen)), tok, now);
            var turn := Turn(s, k, t[k].payload);
            && (after[k].status.Claimed? <==> Skipped(s, k, t[k].payload) || (turn > 0 && Stopped(s, Rows(t, chosen))))
            && (after[k].status.Claimed? ==> after[k] == t[k])
  {
  }

  lemma ChosenThere(t: Table, now: int, max: int, chosen: set<Key>)
    requires if max <= 0 then chosen == {} else IsClaimBatch(t, now, max, chosen)
    ensures chosen <= t.Keys
  {
  }

  function PendingKeys(t: Table): set<Key> {
    set k | k in t && t[k].status.Pending?
  }

  lemma SomeChosen(t: Table, now: int, max: nat, chosen: set<Key>, k: Key)
    requires Drainable(t, now) && max > 0 && IsClaimBatch(t, now, max, chosen) && k in PendingKeys(t)
    ensures chosen != {} && chosen <= PendingKeys(t)
  {
    assert Eligible(t[k], now);
  }

  lemma FewerPending(live: set<Key>, version: int, t: Table, v: Vectors, after: Table, v': Vectors, chosen: set<Key>)
    requires PartlyDrained(live, version, t, v, after, v')
    requires chosen != {} && chosen <= PendingKeys(t) && forall k :: k in chosen && k in after ==> !after[k].status.Pending?
    ensures PendingKeys(after) < PendingKeys(t)
  {
    var k :| k in chosen;
    assert k in PendingKeys(t) && k !in PendingKeys(after);
  }

  /** Nothing is claimed, and no pending row waits for a later time. */
  ghost predicate Drainable(t: Table, now: int) {
    forall k :: k in t ==>
      !t[k].status.Claimed? && (t[k].status.Pending? ==> t[k].backoffUntil.None? || t[k].backoffUntil.value <= now)
  }

  /** A row before and after a successful settlement. */
  predicate Finished(before: Row, after: Row) {
    after == before.(status := Done, updatedAt := after.updatedAt, lastError := None,
                     leaseUntil := after.leaseUntil, lockedBy := after.lockedBy)
  }

  /** The vector of `k` after its row was finished: stamped from the row's payload, if it embeds at all. */
  ghost predicate VectorFollows(live: set<Key>, version: int, k: Key, payload: Payload, v: Vectors, after: Vectors) {
    if payload.text != "" && k in live && !k.kind.CodebaseSymbol?
    then k in after && after[k] == Vector(Some(ContentHash(payload)), Some(version))
    else VectorKept(k, v, after)
  }

  ghost predicate VectorKept(k: Key, v: Vectors, after: Vectors) {
    (k in after <==> k in v) && (k in v ==> after[k] == v[k])
  }

  /** Some pending rows are finished with their vectors written; everything else is as it was. */
  ghost predicate PartlyDrained(live: set<Key>, version: int, t: Table, v: Vectors, after: Table, v': Vectors) {
    && after.Keys == t.Keys
    && (forall k :: k in t && !t[k].status.Pending? ==> after[k] == t[k])
    && (forall k :: k in t && t[k].status.Pending? ==>
          || (after[k] == t[k] && VectorKept(k, v, v'))
          || (Finished(t[k], after[k]) && VectorFollows(live, version, k, t[k].payload, v, v')))
    && (forall k :: k !in t || !t[k].status.Pending? ==> VectorKept(k, v, v'))
  }

  /** Every pending row is finished. */
  ghost predicate IsDrained(live: set<Key>, version: int, t: Table, v: Vectors, after: Table, v': Vectors) {
    && PartlyDrained(live, version, t, v, after, v')
    && (forall k :: k in after ==> !after[k].status.Pending?)
  }

  lemma RowDrains(s: Setup, k: Key, row: Row, tok: Token, now: int, lease: int)
    requires Smooth(s)
    ensures var claimed := ClaimRow(row, tok, now, lease);
            Finished(row, SettledRow(s, k, claimed, tok, now))
  {
  }

  lemma CycleRows(s: Setup, t: Table, chosen: set<Key>, tok: Token, now: int, lease: int, max: nat)
    requires Drainable(t, now) && IsClaimBatch(t, now, max, chosen) && Smooth(s)
    ensures var after := SettledRows(s, ClaimRows(t, chosen, tok, now, lease), chosen, tok, now);
            && after.Keys == t.Keys && chosen <= t.Keys
            && (forall k :: k in chosen ==> t[k].status.Pending? && Finished(t[k], after[k]))
            && (forall k :: k in t && k !in chosen ==> after[k] == t[k])
  {
    forall k | k in chosen
      ensures t[k].status.Pending? && Finished(t[k], SettledRows(s, ClaimRows(t, chosen, tok, now, lease), chosen, tok, now)[k])
    {
      assert Eligible(t[k], now);
      RowDrains(s, k, t[k], tok, now, lease);
    }
  }

  /** One smooth cycle finishes each claimed row and leaves the others, and their vectors, alone. */
  lemma CycleDrains(s: Setup, t: Table, v: Vectors, chosen: set<Key>, tok: Token, now: int, lease: int, max: nat,
                    after: Table, v': Vectors)
    requires Drainable(t, now) && IsClaimBatch(t, now, max, chosen) && Smooth(s)
    requires var claimed := ClaimRows(t, chosen, tok, now, lease);
             SettledSoFar(s, claimed, v, tok, now, Reached(s, Rows(claimed, chosen)), after, v')
    ensures PartlyDrained(s.live, s.version, t, v, after, v') && Drainable(after, now)
    ensures forall k :: k in chosen && k in after ==> !after[k].status.Pending?
  {
    hide Smooth, Reached, SettledRows, WrittenVectors, ClaimRows, IsClaimBatch, VectorFollows, VectorKept;
    var claimed := ClaimRows(t, chosen, tok, now, lease);
    CycleRows(s, t, chosen, tok, now, lease, max);
    ClaimedKeys(t, chosen, tok, now, lease);
    AllReached(s, Rows(claimed, chosen));
    CycleVectors(s, t, v, chosen, tok, now, lease);
  }

  lemma ClaimedKeys(t: Table, chosen: set<Key>, tok: Token, now: int, lease: int)
    requires chosen <= t.Keys
    ensures Rows(ClaimRows(t, chosen, tok, now, lease), chosen).Keys == chosen
  {
  }

  lemma CycleVectors(s: Setup, t: Table, v: Vectors, chosen: set<Key>, tok: Token, now: int, lease: int)
    requires chosen <= t.Keys && Smooth(s)
    ensures var v' := WrittenVectors(s, ClaimRows(t, chosen, tok, now, lease), chosen, v);
            && (forall k :: k in chosen ==> VectorFollows(s.live, s.version, k, t[k].payload, v, v'))
            && (forall k :: k !in chosen ==> VectorKept(k, v, v'))
  {
    var claimed := ClaimRows(t, chosen, tok, now, lease);
    forall k | k in chosen
      ensures claimed[k].payload == t[k].payload
    {
    }
  }

  lemma PartlyThenMore(live: set<Key>, version: int, t0: Table, v0: Vectors, t1: Table, v1: Vectors, t2: Table, v2: Vectors)
    requires PartlyDrained(live, version, t0, v0, t1, v1) && PartlyDrained(live, version, t1, v1, t2, v2)
    ensures PartlyDrained(live, version, t0, v0, t2, v2)
  {
    forall k | k in t0 && t0[k].status.Pending?
      ensures || (t2[k] == t0[k] && VectorKept(k, v0, v2))
              || (Finished(t0[k], t2[k]) && VectorFollows(live, version, k, t0[k].payload, v0, v2))
    {
      if t1[k] != t0[k] {
        assert t1[k].status.Done?;
      }
    }
  }

  /** The order of the passes over a batch: no-ops, embedded entities, codebase files. */
  function Turn(s: Setup, k: Key, payload: Payload): (n: nat)
    ensures n < 3
  {
    if NoOp(s, k, payload) then 0 else if k.kind.CodebaseSymbol? then 2 else 1
  }
}
