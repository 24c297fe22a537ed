/**
 * The worker-facing `Outbox` over a shared `queue_jobs` table, statement by statement.
 * Each method is proved against the row-level functions of QueueTable and keeps the shape of rows
 * that LeaseProtocol proves for every interleaving.
 */
module OutboxModel {
  import opened Options
  import opened QueueTable
  import opened LeaseProtocol
  import opened OrderBy

  /** The database connection: the table, the clock, and the source of random row ids. */
  class QueueDb {
    var jobs: Table
    var now: int
    const uuid: nat -> string
    var drawn: nat
    ghost var used: set<string>

    constructor (uuid: nat -> string, now: int)
      requires forall i, j :: uuid(i) == uuid(j) ==> i == j
      ensures Valid() && jobs == map[] && this.now == now
    {
      this.uuid := uuid;
      this.now := now;
      jobs, drawn, used := map[], 0, {};
    }

    /** Row ids are unique, and ids still to be drawn are new. */
    ghost predicate Valid()
      reads this
    {
      && IdsOk(jobs, used)
      && (forall i: nat :: i >= drawn ==> uuid(i) !in used)
      && (forall i: nat, j: nat :: uuid(i) == uuid(j) ==> i == j)
    }

    /** Draw the next random row id. */
    method DrawId() returns (id: string)
      requires Valid()
      modifies this`drawn, this`used
      ensures id == uuid(old(drawn)) && drawn == old(drawn) + 1
      ensures used == old(used) + {id} && id !in old(used)
      ensures Valid()
    {
      id := uuid(drawn);
      used := used + {id};
      drawn := drawn + 1;
    }

    /** One `INSERT ... ON CONFLICT DO UPDATE`, with the id drawn for it. */
    method UpsertJob(input: JobInput)
      requires Valid()
      modifies this
      ensures Valid() && now == old(now)
      ensures drawn == old(drawn) + 1
      ensures jobs == QueueTable.Upsert(old(jobs), input, uuid(old(drawn)), now)
      ensures RowsKept(old(jobs), jobs)
      ensures input.key in jobs && FreshlyQueued(jobs[input.key], input, now)
      ensures input.key in old(jobs) ==> SameOrigin(old(jobs)[input.key], jobs[input.key])
      ensures input.key !in old(jobs) ==> jobs[input.key].createdAt == now && jobs[input.key].entityRepo == input.repo
      ensures forall k :: k != input.key ==> (k in jobs <==> k in old(jobs)) && (k in jobs ==> jobs[k] == old(jobs)[k])
    {
      var id := DrawId();
      jobs := QueueTable.Upsert(jobs, input, id, now);
    }

    /** The queue part of an entity delete: 500 ids a statement, all in one transaction. */
    method PurgeEntities(kind: Kind, ids: seq<string>)
      requires Valid()
      modifies this`jobs
      ensures Valid()
      ensures jobs == WithoutEntities(old(jobs), KeysOf(kind, ids, |ids|))
      ensures RowsKept(old(jobs), jobs)
    {
      var i := 0;
      while i < |ids|
        invariant 0 <= i <= |ids|
        invariant jobs == WithoutEntities(old(jobs), KeysOf(kind, ids, i))
        decreases |ids| - i
      {
        var hi := if i + 500 <= |ids| then i + 500 else |ids|;
        var chunk := ids[i..hi];
        PurgeOneChunk(old(jobs), kind, ids, i, hi);
        jobs := WithoutEntities(jobs, KeysOf(kind, chunk, |chunk|));
        i := hi;
      }
    }
  }

  lemma PurgeOneChunk(t: Table, kind: Kind, ids: seq<string>, i: nat, hi: nat)
    requires i <= hi <= |ids|
    ensures WithoutEntities(WithoutEntities(t, KeysOf(kind, ids, i)), KeysOf(kind, ids[i..hi], hi - i))
         == WithoutEntities(t, KeysOf(kind, ids, hi))
  {
    var a, b, all := KeysOf(kind, ids, i), KeysOf(kind, ids[i..hi], hi - i), KeysOf(kind, ids, hi);
    forall k
      ensures k in all <==> k in a || k in b
    {
      if k in all {
        var j :| 0 <= j < hi && Key(kind, ids[j]) == k;
        assert j >= i ==> ids[i..hi][j - i] == ids[j];
      }
      if k in b {
        var j :| 0 <= j < hi - i && Key(kind, ids[i..hi][j]) == k;
        assert ids[i + j] == ids[i..hi][j];
      }
    }
  }

  function KeysOf(kind: Kind, ids: seq<string>, n: nat): set<Key>
    requires n <= |ids|
  {
    set i | 0 <= i < n :: Key(kind, ids[i])
  }

  /** Pending with the payload, no attempts, no owner and no wait. */
  predicate FreshlyQueued(row: Row, input: JobInput, now: int) {
    && row.status.Pending? && row.payload == input.payload && row.contentHash == Some(ContentHash(input.payload)) && row.attempts == 0
    && row.lockedBy.None? && row.leaseUntil.None? && row.backoffUntil.None? && row.lastError.None? && row.updatedAt == now
  }

  /** The columns no statement changes once the row is there. */
  predicate SameOrigin(before: Row, after: Row) {
    after.id == before.id && after.createdAt == before.createdAt && after.entityRepo == before.entityRepo
  }

  /** Pending again with the same payload, as if never tried. */
  predicate Revived(before: Row, after: Row, now: int) {
    && SameOrigin(before, after) && after.payload == before.payload && after.contentHash == before.contentHash
    && after.status.Pending? && after.attempts == 0
    && after.lockedBy.None? && after.leaseUntil.None? && after.backoffUntil.None? && after.lastError.None? && after.updatedAt == now
  }

  /** One attempt more: poison from the threshold on, and otherwise a wait before the next. */
  predicate FailedOnce(before: Row, after: Row, error: string, threshold: nat, base: int, cap: int, now: int) {
    && SameOrigin(before, after) && after.payload == before.payload && after.attempts == before.attempts + 1
    && after.lockedBy.None? && after.leaseUntil.None? && after.lastError.Some? && after.lastError.value <= error
    && |after.lastError.value| == Min(|error|, 500)
    && if before.attempts + 1 >= threshold then after.status.Poison? && after.backoffUntil.None?
       else after.status.Pending? && after.backoffUntil == Some(now + Wait(before.attempts, base, cap))
  }

  /** Whatever threshold the rows fitted before, they still fit. */
  ghost predicate RowsKept(before: Table, after: Table) {
    forall threshold: nat :: threshold >= 1 && RowsOk(before, threshold) ==> RowsOk(after, threshold)
  }

  function Older(t: Table): (Key, Key) -> bool {
    (k, l) => k in t && l in t && t[k].createdAt <= t[l].createdAt
  }

  datatype Counts = Counts(pending: nat, claimed: nat, done: nat, poison: nat, total: nat)

  ghost function WithStatus(keys: set<Key>, t: Table, status: Status): set<Key> {
    set k | k in keys && k in t && t[k].status == status
  }

  ghost predicate CountsOf(c: Counts, keys: set<Key>, t: Table) {
    && c.pending == |WithStatus(keys, t, Pending)| && c.claimed == |WithStatus(keys, t, Claimed)|
    && c.done == |WithStatus(keys, t, Done)| && c.poison == |WithStatus(keys, t, Poison)|
    && c.total == |keys| && c.total == c.pending + c.claimed + c.done + c.poison
  }

  function CountOne(c: Counts, status: Status): Counts {
    match status
    case Pending => c.(pending := c.pending + 1, total := c.total + 1)
    case Claimed => c.(claimed := c.claimed + 1, total := c.total + 1)
    case Done => c.(done := c.done + 1, total := c.total + 1)
    case Poison => c.(poison := c.poison + 1, total := c.total + 1)
  }

  lemma CountGrows(keys: set<Key>, t: Table, k: Key, status: Status)
    requires k in t && k !in keys
    ensures |WithStatus(keys + {k}, t, status)| == |WithStatus(keys, t, status)| + (if t[k].status == status then 1 else 0)
  {
    if t[k].status == status {
      assert WithStatus(keys + {k}, t, status) == WithStatus(keys, t, status) + {k};
    } else {
      assert WithStatus(keys + {k}, t, status) == WithStatus(keys, t, status);
    }
  }

  lemma CountOneMore(c: Counts, keys: set<Key>, t: Table, k: Key)
    requires k in t && k !in keys && CountsOf(c, keys, t)
    ensures CountsOf(CountOne(c, t[k].status), keys + {k}, t)
  {
    CountGrows(keys, t, k, Pending);
    CountGrows(keys, t, k, Claimed);
    CountGrows(keys, t, k, Done);
    CountGrows(keys, t, k, Poison);
  }

  /** `SELECT status, COUNT(*) ... GROUP BY status`, folded into the counts record. */
  method CountByStatus(t: Table) returns (c: Counts)
    ensures CountsOf(c, t.Keys, t)
  {
    c := Counts(0, 0, 0, 0, 0);
    var rest := t.Keys;
    while rest != {}
      invariant rest <= t.Keys && CountsOf(c, t.Keys - rest, t)
      decreases rest
    {
      var k :| k in rest;
      CountOneMore(c, t.Keys - rest, t, k);
      assert t.Keys - rest + {k} == t.Keys - (rest - {k});
      c := CountOne(c, t[k].status);
      rest := rest - {k};
    }
    assert t.Keys - rest == t.Keys;
  }

  lemma RemovalCount(t: Table, r: Removal)
    ensures |Removed(t, r)| + |RemoveRows(t, r)| == |t|
  {
    var gone, left := Removed(t, r), RemoveRows(t, r);
    assert left.Keys == t.Keys - gone;
    assert |t.Keys - gone| == |t.Keys| - |gone|;
    assert |left| == |left.Keys| && |t| == |t.Keys|;
  }

  lemma MatchedCount(t: Table, u: Update, now: int)
    ensures |Matched(t, u, now)| > 0 <==> exists k :: k in t && Matches(u, t[k], now)
  {
    var matched := Matched(t, u, now);
    if |matched| > 0 {
      var k :| k in matched;
    } else {
      assert matched == {};
      forall k | k in t
        ensures !Matches(u, t[k], now)
      {
        assert k !in matched;
      }
    }
  }

  /** The inner SELECT of the claim. */
  method PickBatch(t: Table, now: int, max: nat) returns (picked: set<Key>)
    ensures IsClaimBatch(t, now, max, picked)
  {
    var eligible := set k | k in t && Eligible(t[k], now);
    var top := SelectLimit(eligible, Older(t), max);
    picked := set k | k in top;
    DistinctCount(top, picked);
  }

  /**
   * The effect of a claim. The read-back returns the claimed rows and no others exactly when no
   * other row carries the token already.
   */
  ghost predicate ClaimOutcome(before: Table, after: Table, tok: Token, now: int, lease: int, max: nat,
                               chosen: set<Key>, rows: Table, batch: seq<Key>)
  {
    && IsClaimBatch(before, now, max, chosen)
    && after == ClaimRows(before, chosen, tok, now, lease)
    && rows == (if chosen == {} then map[] else ReadBack(after, tok))
    && Lists(rows.Keys, Older(after), batch)
    && (chosen != {} ==>
          (rows.Keys == chosen <==> forall k :: k in before && before[k].lockedBy == Some(tok) ==> k in chosen))
  }

  /** The two statements of a claim on a table value. */
  method ClaimFrom(t: Table, tok: Token, now: int, lease: int, max: nat, ghost threshold: nat, ghost used: set<string>)
    returns (claimed: Table, batch: seq<Key>, rows: Table, ghost chosen: set<Key>)
    requires RowsOk(t, threshold) && IdsOk(t, used)
    ensures ClaimOutcome(t, claimed, tok, now, lease, max, chosen, rows, batch)
    ensures RowsOk(claimed, threshold) && IdsOk(claimed, used)
  {
    var picked := PickBatch(t, now, max);
    chosen := picked;
    ClaimKeepsRows(t, picked, tok, now, lease, max, threshold, used);
    claimed := ClaimRows(t, picked, tok, now, lease);
    batch, rows := [], map[];
    if picked != {} {
      ReadBackExact(t, picked, tok, now, lease);
      rows := ReadBack(claimed, tok);
      batch := Select(rows.Keys, Older(claimed));
    }
  }

  /** Exactly the rows that neither sweep removes are left, and every pending or claimed row is. */
  ghost predicate Purged(before: Table, after: Table, a: Removal, b: Removal) {
    && (forall k :: k in after <==> k in before && !Removes(a, before[k]) && !Removes(b, before[k]))
    && (forall k :: k in after ==> after[k] == before[k])
    && (forall k :: k in before && Live(before[k]) ==> k in after)
  }

  lemma PurgeBoth(t: Table, a: Removal, b: Removal)
    requires !a.DeleteJob? && !b.DeleteJob?
    ensures Purged(t, RemoveRows(RemoveRows(t, a), b), a, b)
  {
  }

  predicate CreatedBefore(t: Table, k: Key, l: Key) {
    k in t && l in t && t[k].createdAt <= t[l].createdAt
  }

  ghost predicate OldestFirst(t: Table, batch: seq<Key>) {
    forall i, j :: 0 <= i < j < |batch| ==> CreatedBefore(t, batch[i], batch[j])
  }

  lemma ClaimAsStated(t: Table, after: Table, tok: Token, now: int, lease: int, max: nat, chosen: set<Key>, rows: Table, batch: seq<Key>)
    requires ClaimOutcome(t, after, tok, now, lease, max, chosen, rows, batch)
    ensures after.Keys == t.Keys && OldestFirst(t, batch)
    ensures forall k :: k in t ==>
      after[k] == if k in chosen then t[k].(status := Claimed, leaseUntil := Some(now + lease), updatedAt := now, lockedBy := Some(tok))
                  else t[k]
  {
    hide IsClaimBatch, ReadBack;
    forall i, j | 0 <= i < j < |batch|
      ensures CreatedBefore(t, batch[i], batch[j])
    {
      var k, l := batch[i], batch[j];
      assert Older(after)(k, l);
      assert after[k].createdAt == t[k].createdAt && after[l].createdAt == t[l].createdAt;
    }
  }

  /** What the two sweeps take, on status and age alone. */
  lemma PurgedByAge(t: Table, doneBefore: int, poisonBefore: int)
    ensures Removed(t, PurgeDone(doneBefore)) == set k | k in t && t[k].status.Done? && t[k].updatedAt < doneBefore
    ensures forall k :: k in RemoveRows(RemoveRows(t, PurgeDone(doneBefore)), PurgePoison(poisonBefore)) <==>
      && k in t && !(t[k].status.Done? && t[k].updatedAt < doneBefore)
      && !(t[k].status.Poison? && t[k].updatedAt < poisonBefore)
  {
  }

  class Outbox {
    const db: QueueDb
    const pid: nat
    const threshold: nat
    var batchCounter: nat

    constructor (db: QueueDb, pid: nat, threshold: nat)
      ensures this.db == db && this.pid == pid && this.threshold == threshold && batchCounter == 0
    {
      this.db, this.pid, this.threshold := db, pid, threshold;
      batchCounter := 0;
    }

    ghost predicate Valid()
      reads this, db
    {
      && threshold >= 1
      && db.Valid()
      && RowsOk(db.jobs, threshold)
    }

    method Enqueue(input: JobInput) returns (queued: bool)
      requires Valid()
      modifies db
      ensures Valid() && db.now == old(db.now)
      ensures queued <==> !Dedups(old(db.jobs), input)
      ensures db.jobs == EnqueueJob(old(db.jobs), input, db.uuid(old(db.drawn)), db.now)
      ensures input.key in db.jobs && db.jobs[input.key].contentHash == Some(ContentHash(input.payload))
      ensures !db.jobs[input.key].status.Poison?
    {
      if Dedups(db.jobs, input) {
        return false;
      }
      db.UpsertJob(input);
      return true;
    }

    /**
     * Claim up to `max` eligible rows, oldest first, and read the batch back by its token. The
     * read-back returns the claimed rows and no others exactly when no row carried the token before.
     */
    method Claim(max: int, leaseMs: int) returns (batch: seq<Key>, rows: Table, ghost chosen: set<Key>)
      requires Valid()
      modifies this`batchCounter, db`jobs
      ensures Valid()
      ensures max <= 0 ==> batch == [] && rows == map[] && chosen == {} && db.jobs == old(db.jobs) && batchCounter == old(batchCounter)
      ensures max > 0 ==> batchCounter == old(batchCounter) + 1
      ensures max > 0 ==>
        ClaimOutcome(old(db.jobs), db.jobs, Token(pid, old(batchCounter), db.now), db.now, leaseMs, max, chosen, rows, batch)
      ensures db.jobs.Keys == old(db.jobs).Keys
      ensures forall k :: k in db.jobs ==>
        db.jobs[k] == if k in chosen
                      then old(db.jobs)[k].(status := Claimed, leaseUntil := Some(db.now + leaseMs), updatedAt := db.now,
                                            lockedBy := Some(Token(pid, old(batchCounter), db.now)))
                      else old(db.jobs)[k]
      ensures OldestFirst(old(db.jobs), batch)
    {
      if max <= 0 {
        return [], map[], {};
      }
      hide ClaimRows, IsClaimBatch, ClaimOutcome, RowsOk, IdsOk, OldestFirst;
      var tok := Token(pid, batchCounter, db.now);
      batchCounter := batchCounter + 1;
      var claimed;
      claimed, batch, rows, chosen := ClaimFrom(db.jobs, tok, db.now, leaseMs, max, threshold, db.used);
      ClaimAsStated(db.jobs, claimed, tok, db.now, leaseMs, max, chosen, rows, batch);
      db.jobs := claimed;
    }

    method Complete(id: string, lockedBy: Token) returns (ok: bool)
      requires Valid()
      modifies db`jobs
      ensures Valid()
      ensures ok <==> exists k :: k in old(db.jobs) && Owned(old(db.jobs)[k], id, lockedBy)
      ensures db.jobs == UpdateRows(old(db.jobs), QueueTable.Complete(id, lockedBy), db.now)
      ensures forall k :: k in db.jobs ==>
        if Owned(old(db.jobs)[k], id, lockedBy)
        then db.jobs[k].status.Done? && db.jobs[k].payload == old(db.jobs)[k].payload && db.jobs[k].attempts == old(db.jobs)[k].attempts
        else db.jobs[k] == old(db.jobs)[k]
    {
      var changes := Perform(QueueTable.Complete(id, lockedBy));
      ok := changes > 0;
    }

    method Release(id: string, lockedBy: Token) returns (ok: bool)
      requires Valid()
      modifies db`jobs
      ensures Valid()
      ensures ok <==> exists k :: k in old(db.jobs) && Owned(old(db.jobs)[k], id, lockedBy)
      ensures db.jobs == UpdateRows(old(db.jobs), QueueTable.Release(id, lockedBy), db.now)
      ensures forall k :: k in db.jobs ==>
        db.jobs[k].attempts == old(db.jobs)[k].attempts && db.jobs[k].backoffUntil == old(db.jobs)[k].backoffUntil
      ensures forall k :: k in db.jobs ==>
        if Owned(old(db.jobs)[k], id, lockedBy) then db.jobs[k].status.Pending? && db.jobs[k].payload == old(db.jobs)[k].payload
        else db.jobs[k] == old(db.jobs)[k]
    {
      var changes := Perform(QueueTable.Release(id, lockedBy));
      ok := changes > 0;
    }

    /** The guarded SELECT, the backoff arithmetic and the UPDATE, with nothing in between. */
    method Fail(id: string, lockedBy: Token, error: string, backoffBaseMs: int, backoffMaxMs: int)
      requires Valid()
      modifies db`jobs
      ensures Valid()
      ensures forall k :: k in old(db.jobs) && Owned(old(db.jobs)[k], id, lockedBy) ==>
        db.jobs == UpdateRows(old(db.jobs), FailUpdate(id, lockedBy, old(db.jobs)[k].attempts, error, threshold,
                                                       backoffBaseMs, backoffMaxMs, db.now), db.now)
      ensures OwnedKeys(old(db.jobs), id, lockedBy) == {} ==> db.jobs == old(db.jobs)
      ensures db.jobs.Keys == old(db.jobs).Keys
      ensures forall k :: k in db.jobs ==> var before := old(db.jobs)[k];
        if Owned(before, id, lockedBy)
        then FailedOnce(before, db.jobs[k], error, threshold, backoffBaseMs, backoffMaxMs, db.now) else db.jobs[k] == before
    {
      var found := OwnedKeys(db.jobs, id, lockedBy);
      if found == {} {
        forall k | k in db.jobs
          ensures !Owned(db.jobs[k], id, lockedBy)
        {
          assert k !in found;
        }
        return;
      }
      var k :| k in found;
      var u := FailUpdate(id, lockedBy, db.jobs[k].attempts, error, threshold, backoffBaseMs, backoffMaxMs, db.now);
      assert DecisionFits(db.jobs, u, threshold);
      var _ := Perform(u);
    }

    method ReconcileExpiredLeases() returns (changes: nat)
      requires Valid()
      modifies db`jobs
      ensures Valid()
      ensures db.jobs == UpdateRows(old(db.jobs), Reconcile, db.now)
      ensures changes == |Matched(old(db.jobs), Reconcile, db.now)|
      ensures Matched(db.jobs, Reconcile, db.now) == {}
      ensures forall k :: k in db.jobs ==> var before := old(db.jobs)[k];
        if before.status.Claimed? && before.leaseUntil.Some? && before.leaseUntil.value < db.now
        then db.jobs[k] == before.(status := Pending, leaseUntil := None, lockedBy := None, updatedAt := db.now)
        else db.jobs[k] == before
    {
      changes := Perform(Reconcile);
    }

    method RetryJob(id: string, repo: string) returns (ok: bool)
      requires Valid()
      modifies db`jobs
      ensures Valid()
      ensures db.jobs == UpdateRows(old(db.jobs), Retry(id, repo), db.now)
      ensures forall k :: k in db.jobs ==> var before := old(db.jobs)[k];
        if before.id == id && (before.status.Poison? || before.status.Done?) && (repo == "" || before.entityRepo == repo)
        then Revived(before, db.jobs[k], db.now) else db.jobs[k] == before
      ensures ok <==> exists k :: k in db.jobs && db.jobs[k] != old(db.jobs)[k]
      ensures forall k :: k in db.jobs ==> db.jobs[k].payload == old(db.jobs)[k].payload
    {
      var changes := Perform(Retry(id, repo));
      ok := changes > 0;
      if ok {
        ghost var k :| k in Matched(old(db.jobs), Retry(id, repo), db.now);
        assert db.jobs[k].status.Pending?;
        assert db.jobs[k] != old(db.jobs)[k];
      }
    }

    method RetryAllPoison(repo: string) returns (changes: nat)
      requires Valid()
      modifies db`jobs
      ensures Valid()
      ensures db.jobs == UpdateRows(old(db.jobs), RetryAll(repo), db.now)
      ensures forall k :: k in db.jobs ==> var before := old(db.jobs)[k];
        if before.status.Poison? && (repo == "" || before.entityRepo == repo)
        then Revived(before, db.jobs[k], db.now) else db.jobs[k] == before
      ensures changes == |Matched(old(db.jobs), RetryAll(repo), db.now)|
    {
      changes := Perform(RetryAll(repo));
    }

    method DeleteJob(id: string, repo: string) returns (ok: bool)
      requires Valid()
      modifies db`jobs
      ensures Valid()
      ensures db.jobs == RemoveRows(old(db.jobs), QueueTable.DeleteJob(id, repo))
      ensures forall k :: k in db.jobs <==> k in old(db.jobs) && var row := old(db.jobs)[k];
        !(row.id == id && (row.status.Poison? || row.status.Done?) && (repo == "" || row.entityRepo == repo))
      ensures ok <==> Removed(old(db.jobs), QueueTable.DeleteJob(id, repo)) != {}
    {
      var gone := Erase(QueueTable.DeleteJob(id, repo));
      ok := gone > 0;
    }

    method Purge(doneTtlMs: int, poisonTtlMs: int) returns (purgedDone: nat, purgedPoison: nat)
      requires Valid()
      modifies db`jobs
      ensures Valid()
      ensures Purged(old(db.jobs), db.jobs, PurgeDone(db.now - doneTtlMs), PurgePoison(db.now - poisonTtlMs))
      ensures purgedDone + purgedPoison + |db.jobs| == |old(db.jobs)|
      ensures purgedDone == |set k | k in old(db.jobs) && old(db.jobs)[k].status.Done? && old(db.jobs)[k].updatedAt < db.now - doneTtlMs|
      ensures forall k :: k in db.jobs <==> k in old(db.jobs) && var row := old(db.jobs)[k];
        && !(row.status.Done? && row.updatedAt < db.now - doneTtlMs)
        && !(row.status.Poison? && row.updatedAt < db.now - poisonTtlMs)
    {
      hide RemoveRows, Removed, Removes, Purged, RowsOk, IdsOk;
      var done, poison := PurgeDone(db.now - doneTtlMs), PurgePoison(db.now - poisonTtlMs);
      PurgeBoth(db.jobs, done, poison);
      PurgedByAge(db.jobs, db.now - doneTtlMs, db.now - poisonTtlMs);
      purgedDone := Erase(done);
      purgedPoison := Erase(poison);
    }

    /** One guarded UPDATE; the result is the number of rows it matched. */
    method Perform(u: Update) returns (changes: nat)
      requires Valid() && DecisionFits(db.jobs, u, threshold)
      modifies db`jobs
      ensures Valid()
      ensures db.jobs == UpdateRows(old(db.jobs), u, db.now)
      ensures changes == |Matched(old(db.jobs), u, db.now)|
      ensures changes > 0 <==> exists k :: k in old(db.jobs) && Matches(u, old(db.jobs)[k], db.now)
    {
      UpdateKeepsRows(db.jobs, u, db.now, threshold, db.used);
      MatchedCount(db.jobs, u, db.now);
      changes := |Matched(db.jobs, u, db.now)|;
      db.jobs := UpdateRows(db.jobs, u, db.now);
    }

    /** One guarded DELETE; the result is the number of rows it removed. */
    method Erase(r: Removal) returns (changes: nat)
      requires Valid()
      modifies db`jobs
      ensures Valid()
      ensures db.jobs == RemoveRows(old(db.jobs), r)
      ensures changes == |Removed(old(db.jobs), r)| && changes + |db.jobs| == |old(db.jobs)|
    {
      RemovalCount(db.jobs, r);
      changes := |Removed(db.jobs, r)|;
      db.jobs := RemoveRows(db.jobs, r);
    }
  }
}
