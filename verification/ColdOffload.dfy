/**
 * The cold-tier offload: the pass as a method with other writers scheduled between its statements,
 * and as a state machine in which passes crash and are run again, proved never to lose a memory.
 */
module ColdOffload {
  import opened Options
  import opened OrderBy
  import opened ColdTier

  const MS_PER_DAY := 86400000

  datatype Reason = Disabled | VerificationFailed

  datatype OffloadResult = OffloadResult(candidates: nat, copied: nat, deleted: nat, preserved: int, skipped: bool,
                                         reason: Option<Reason>)

  /** A pass that went through: the copy holds all candidates and the guarded delete ran on `seen`. */
  ghost predicate Completed(seen: Hot, cold: Cold, cands: seq<MemoryRow>, at: int, hot': Hot, cold': Cold, r: OffloadResult) {
    && cold' == Copied(cold, cands, at)
    && hot' == seen - Taken(seen, cands)
    && r.candidates == r.copied == |cands|
    && r.deleted == |Taken(seen, cands)| && r.deleted + r.preserved == r.candidates
    && !r.skipped && r.reason.None?
  }

  /**
   * One pass. `others(i)` are the writes other processes get in before the i-th statement. The
   * verification cannot fail: nothing removes rows from the cold store.
   */
  method OffloadArchivedMemories(hot: HotStore, cold: ColdStore, retentionDays: int, maxRows: int, batchSize: int, now: int,
                                 others: nat -> seq<HotWrite>)
    returns (r: OffloadResult, ghost cands: seq<MemoryRow>, ghost seen: Hot, ghost statements: nat)
    requires HotOk(hot.rows)
    modifies hot, cold
    ensures HotOk(hot.rows)
    ensures seen == AfterOthers(old(hot.rows), others, statements)
    ensures maxRows <= 0 ==>
      r == OffloadResult(0, 0, 0, 0, true, Some(Disabled)) && hot.rows == old(hot.rows) && cold.rows == old(cold.rows)
    ensures maxRows > 0 ==>
      var cutoff := now - retentionDays * (24 * 60 * 60 * 1000);
      && IsSelection(AfterOthers(old(hot.rows), others, 1), cutoff, maxRows, cands)
      && OldestArchived(AfterOthers(old(hot.rows), others, 1), cutoff, maxRows, cands)
      && Completed(seen, old(cold.rows), cands, now, hot.rows, cold.rows, r)
      && (NoOthers(others) ==> MovesOldest(old(hot.rows), cutoff, maxRows, hot.rows, cold.rows, now, r.deleted))
  {
    hide HotOk, AfterOthers, IsSelection, OldestArchived, Completed, MovesOldest, NoOthers;
    statements, seen, cands := 0, hot.rows, [];
    if maxRows <= 0 {
      OthersNext(hot.rows, others, 0);
      r := OffloadResult(0, 0, 0, 0, true, Some(Disabled));
    } else {
      r, cands, seen, statements := OffloadUpTo(hot, cold, now - retentionDays * MS_PER_DAY, maxRows, batchSize, now, others);
    }
  }

  /** The pass with the retention turned into a cutoff. */
  method OffloadUpTo(hot: HotStore, cold: ColdStore, cutoff: int, maxRows: nat, batchSize: int, now: int, others: nat -> seq<HotWrite>)
    returns (r: OffloadResult, ghost cands: seq<MemoryRow>, ghost seen: Hot, ghost statements: nat)
    requires HotOk(hot.rows) && maxRows > 0
    modifies hot, cold
    ensures HotOk(hot.rows) && seen == AfterOthers(old(hot.rows), others, statements)
    ensures IsSelection(AfterOthers(old(hot.rows), others, 1), cutoff, maxRows, cands)
    ensures OldestArchived(AfterOthers(old(hot.rows), others, 1), cutoff, maxRows, cands)
    ensures Completed(seen, old(cold.rows), cands, now, hot.rows, cold.rows, r)
    ensures NoOthers(others) ==> MovesOldest(old(hot.rows), cutoff, maxRows, hot.rows, cold.rows, now, r.deleted)
  {
    hide IsSelection, HotOk, Copied, Taken, AfterOthers, Completed, Distinct, Ids, OldestArchived, MovesOldest, NoOthers;
    ghost var hot0, cold0 := hot.rows, cold.rows;
    var rows := SelectCandidates(hot, cutoff, maxRows, others, hot0);
    statements, seen, cands := 1, hot.rows, rows;
    if rows == [] {
      NothingToOffload(seen, cold0, now);
      r := OffloadResult(0, 0, 0, 0, false, None);
    } else {
      r, seen, statements := OffloadRows(hot, cold, rows, if batchSize < 1 then 1 else batchSize, now, others, hot0);
    }
    QuietPass(hot0, others, statements, seen, cold0, cands, cutoff, maxRows, now, hot.rows, cold.rows, r);
  }

  ghost predicate NoOthers(others: nat -> seq<HotWrite>) {
    forall i :: others(i) == []
  }

  /**
   * What a pass alone does to the stores, on rows and times: it moves `moved` archived rows last
   * updated at or before the cutoff, never one before an older one, and all of them if they are
   * fewer than the limit; every other hot row stays as it was, and each moved one is in the cold store.
   */
  ghost predicate MovesOldest(hot: Hot, cutoff: int, limit: nat, hot': Hot, cold': Cold, at: int, moved: nat) {
    && (forall id :: id in hot' ==> id in hot && hot'[id] == hot[id])
    && |hot.Keys - hot'.Keys| == moved <= limit
    && MovedAreOld(hot, cutoff, hot.Keys - hot'.Keys, cold', at)
    && LeftAreYounger(hot, cutoff, limit, hot.Keys - hot'.Keys)
  }

  ghost predicate MovedAreOld(hot: Hot, cutoff: int, moved: set<string>, cold': Cold, at: int) {
    forall id :: id in moved ==>
      id in hot && hot[id].status == ARCHIVED && hot[id].updatedAt <= cutoff && id in cold' && cold'[id] == ColdCopy(hot[id], at)
  }

  ghost predicate LeftAreYounger(hot: Hot, cutoff: int, limit: nat, moved: set<string>) {
    forall l :: l in hot && l !in moved && hot[l].status == ARCHIVED ==>
      && (|moved| < limit ==> hot[l].updatedAt > cutoff)
      && (forall id :: id in moved && id in hot ==> hot[id].updatedAt <= hot[l].updatedAt)
  }

  lemma {:induction false} NobodyWrites(hot: Hot, others: nat -> seq<HotWrite>, n: nat)
    requires NoOthers(others)
    ensures AfterOthers(hot, others, n) == hot
    decreases n
  {
    if n > 0 {
      NobodyWrites(hot, others, n - 1);
      assert others(n - 1) == [];
    }
  }

  /** Alone, a pass takes every candidate. */
  lemma AllTaken(hot: Hot, rows: seq<MemoryRow>, cutoff: int, limit: nat)
    requires OldestArchived(hot, cutoff, limit, rows)
    ensures forall id :: id in Taken(hot, rows) <==> id in Ids(rows)
    ensures |Taken(hot, rows)| == |rows|
  {
    var ids := Ids(rows);
    forall i | 0 <= i < |rows|
      ensures rows[i].id in Taken(hot, rows) && rows[i].id in ids
    {
      assert Unchanged(hot, rows[i]) && ids[i] == rows[i].id;
    }
    forall id | id in ids
      ensures id in Taken(hot, rows)
    {
      var i :| 0 <= i < |ids| && ids[i] == id;
      assert rows[i].id == id;
    }
    assert Distinct(ids);
    DistinctCount(ids, Taken(hot, rows));
  }

  lemma MovedRow(hot: Hot, cold: Cold, rows: seq<MemoryRow>, cutoff: int, limit: nat, at: int, cold': Cold, id: string)
    requires OldestArchived(hot, cutoff, limit, rows) && Holds(cold, rows, at, cold') && id in Ids(rows)
    ensures id in hot && hot[id].status == ARCHIVED && hot[id].updatedAt <= cutoff
    ensures id in cold' && cold'[id] == ColdCopy(hot[id], at)
  {
    hide ColdCopy;
    var i :| 0 <= i < |Ids(rows)| && Ids(rows)[i] == id;
    assert rows[i].id == id;
  }

  /** An archived row left by the pass is younger than the cutoff, or the limit was reached; and none moved is younger. */
  lemma LeftRow(hot: Hot, rows: seq<MemoryRow>, cutoff: int, limit: nat, l: string)
    requires OldestArchived(hot, cutoff, limit, rows) && l in hot && hot[l].status == ARCHIVED && l !in Ids(rows)
    ensures |rows| < limit ==> hot[l].updatedAt > cutoff
    ensures forall id :: id in Ids(rows) ==> id in hot && hot[id].updatedAt <= hot[l].updatedAt
  {
    forall id | id in Ids(rows)
      ensures id in hot && hot[id].updatedAt <= hot[l].updatedAt
    {
      var i :| 0 <= i < |Ids(rows)| && Ids(rows)[i] == id;
      assert rows[i].id == id;
    }
  }

  lemma MovesTaken(hot: Hot, taken: set<string>, cutoff: int, limit: nat, cold': Cold, at: int)
    requires |taken| <= limit && taken <= hot.Keys
    requires MovedAreOld(hot, cutoff, taken, cold', at) && LeftAreYounger(hot, cutoff, limit, taken)
    ensures MovesOldest(hot, cutoff, limit, hot - taken, cold', at, |taken|)
  {
    hide MovedAreOld, LeftAreYounger;
    assert hot.Keys - (hot - taken).Keys == taken;
  }

  lemma AllMoved(hot: Hot, cold: Cold, rows: seq<MemoryRow>, cutoff: int, limit: nat, at: int)
    requires OldestArchived(hot, cutoff, limit, rows)
    ensures MovesOldest(hot, cutoff, limit, hot - Taken(hot, rows), Copied(cold, rows, at), at, |Taken(hot, rows)|)
  {
    AllTaken(hot, rows, cutoff, limit);
    assert Distinct(Ids(rows));
    CopiedHolds(cold, rows, at);
    assert |rows| <= limit;
    hide Taken, Copied, ColdCopy, OldestArchived, Holds, Ids, MovesOldest;
    var taken, cold' := Taken(hot, rows), Copied(cold, rows, at);
    forall id | id in taken
      ensures id in hot && hot[id].status == ARCHIVED && hot[id].updatedAt <= cutoff && id in cold' && cold'[id] == ColdCopy(hot[id], at)
    {
      MovedRow(hot, cold, rows, cutoff, limit, at, cold', id);
    }
    forall l | l in hot && l !in taken && hot[l].status == ARCHIVED
      ensures (|taken| < limit ==> hot[l].updatedAt > cutoff) && forall id :: id in taken ==> hot[id].updatedAt <= hot[l].updatedAt
    {
      LeftRow(hot, rows, cutoff, limit, l);
    }
    MovesTaken(hot, taken, cutoff, limit, cold', at);
  }

  lemma QuietPass(hot0: Hot, others: nat -> seq<HotWrite>, statements: nat, seen: Hot, cold0: Cold, cands: seq<MemoryRow>,
                  cutoff: int, limit: nat, now: int, hot': Hot, cold': Cold, r: OffloadResult)
    requires seen == AfterOthers(hot0, others, statements) && Completed(seen, cold0, cands, now, hot', cold', r)
    requires OldestArchived(AfterOthers(hot0, others, 1), cutoff, limit, cands)
    ensures NoOthers(others) ==> MovesOldest(hot0, cutoff, limit, hot', cold', now, r.deleted)
  {
    hide NoOthers, MovesOldest, OldestArchived;
    if NoOthers(others) {
      NobodyWrites(hot0, others, 1);
      NobodyWrites(hot0, others, statements);
      AllMoved(hot0, cold0, cands, cutoff, limit, now);
    }
  }

  /** The candidate SELECT, after whatever the others wrote before it. */
  method SelectCandidates(hot: HotStore, cutoff: int, maxRows: nat, others: nat -> seq<HotWrite>, ghost hot0: Hot)
    returns (rows: seq<MemoryRow>)
    requires HotOk(hot.rows) && hot.rows == hot0 && maxRows > 0
    modifies hot
    ensures HotOk(hot.rows) && hot.rows == AfterOthers(hot0, others, 1) && Distinct(Ids(rows))
    ensures IsSelection(hot.rows, cutoff, maxRows, rows) && OldestArchived(hot.rows, cutoff, maxRows, rows)
  {
    hide IsSelection, HotOk, AfterOthers, Distinct, Ids, OldestArchived;
    OthersNext(hot0, others, 0);
    hot.LetOthersWrite(others(0));
    rows := hot.SelectArchivedForOffload(cutoff, maxRows);
  }

  /** The pass once there are candidates. */
  method OffloadRows(hot: HotStore, cold: ColdStore, rows: seq<MemoryRow>, batchSize: nat, now: int,
                     others: nat -> seq<HotWrite>, ghost hot0: Hot)
    returns (r: OffloadResult, ghost seen: Hot, ghost statements: nat)
    requires batchSize >= 1 && HotOk(hot.rows) && hot.rows == AfterOthers(hot0, others, 1) && Distinct(Ids(rows))
    modifies hot, cold
    ensures HotOk(hot.rows) && seen == AfterOthers(hot0, others, statements)
    ensures Completed(seen, old(cold.rows), rows, now, hot.rows, cold.rows, r)
  {
    hide HotOk, Copied, Taken, AfterOthers, Completed, Distinct, Ids;
    var copied, step := CopyInBatches(hot, cold, rows, batchSize, now, others, hot0);
    AllCopied(old(cold.rows), rows, now);
    r, seen := VerifyAndDelete(hot, cold, rows, copied, others, step, hot0);
    statements := step + 2;
    PassCompleted(seen, old(cold.rows), rows, now, hot.rows, cold.rows, r);
  }

  /** The end of a pass: nothing is deleted unless every candidate is found in the cold store. */
  method VerifyAndDelete(hot: HotStore, cold: ColdStore, rows: seq<MemoryRow>, copied: nat,
                         others: nat -> seq<HotWrite>, step: nat, ghost hot0: Hot)
    returns (r: OffloadResult, ghost seen: Hot)
    requires HotOk(hot.rows) && hot.rows == AfterOthers(hot0, others, step) && Distinct(Ids(rows))
    modifies hot
    ensures HotOk(hot.rows) && seen == AfterOthers(hot0, others, step + 2)
    ensures if forall i :: 0 <= i < |Ids(rows)| ==> Ids(rows)[i] in cold.rows
            then && hot.rows == seen - Taken(seen, rows)
                 && r == OffloadResult(|rows|, copied, |Taken(seen, rows)|, |rows| - |Taken(seen, rows)|, false, None)
            else && hot.rows == seen
                 && r == OffloadResult(|rows|, copied, 0, 0, true, Some(VerificationFailed))
  {
    OthersNext(hot0, others, step);
    OthersNext(hot0, others, step + 1);
    hide HotOk, Taken, AfterOthers, Distinct, Ids;
    hot.LetOthersWrite(others(step));
    var ids := Ids(rows);
    IdsCount(rows);
    var verified := cold.CountByIds(ids);
    hot.LetOthersWrite(others(step + 1));
    seen := hot.rows;
    if verified != |ids| {
      return OffloadResult(|ids|, copied, 0, 0, true, Some(VerificationFailed)), seen;
    }
    DeleteKeepsOk(seen, rows);
    var deleted := hot.DeleteArchivedIfUnchanged(rows);
    r := OffloadResult(|ids|, copied, deleted, |ids| - deleted, false, None);
  }

  lemma IdsCount(rows: seq<MemoryRow>)
    ensures |Ids(rows)| == |rows|
  {
  }

  lemma NothingToOffload(seen: Hot, cold: Cold, now: int)
    ensures Completed(seen, cold, [], now, seen, cold, OffloadResult(0, 0, 0, 0, false, None))
  {
    assert Taken(seen, []) == {};
  }

  lemma PassCompleted(seen: Hot, cold: Cold, rows: seq<MemoryRow>, now: int, hot': Hot, cold': Cold, r: OffloadResult)
    requires cold' == Copied(cold, rows, now) && hot' == seen - Taken(seen, rows)
    requires r == OffloadResult(|rows|, |rows|, |Taken(seen, rows)|, |rows| - |Taken(seen, rows)|, false, None)
    ensures Completed(seen, cold, rows, now, hot', cold', r)
  {
  }

  lemma OthersNext(hot: Hot, others: nat -> seq<HotWrite>, n: nat)
    ensures AfterOthers(hot, others, 0) == hot
    ensures AfterOthers(hot, others, n + 1) == WrittenAll(AfterOthers(hot, others, n), others(n))
  {
  }

  lemma DeleteKeepsOk(hot: Hot, rows: seq<MemoryRow>)
    requires HotOk(hot)
    ensures HotOk(hot - Taken(hot, rows))
  {
  }

  lemma AllCopied(cold: Cold, rows: seq<MemoryRow>, at: int)
    requires Distinct(Ids(rows))
    ensures forall i :: 0 <= i < |Ids(rows)| ==> Ids(rows)[i] in Copied(cold, rows, at)
  {
    CopiedHolds(cold, rows, at);
  }

  method CopyInBatches(hot: HotStore, cold: ColdStore, rows: seq<MemoryRow>, batchSize: nat, now: int,
                       others: nat -> seq<HotWrite>, ghost hot0: Hot) returns (copied: nat, step: nat)
    requires batchSize >= 1 && HotOk(hot.rows) && hot.rows == AfterOthers(hot0, others, 1)
    modifies hot, cold
    ensures HotOk(hot.rows) && hot.rows == AfterOthers(hot0, others, step) && copied == |rows|
    ensures cold.rows == Copied(old(cold.rows), rows, now)
  {
    NextBatch(cold.rows, rows, |rows|, |rows|, now);
    hide HotOk, Copied, AfterOthers;
    copied, step := 0, 1;
    var i := 0;
    while i < |rows|
      invariant 0 <= i <= |rows| && copied == i && step >= 1
      invariant HotOk(hot.rows) && hot.rows == AfterOthers(hot0, others, step)
      invariant cold.rows == Copied(old(cold.rows), rows[..i], now)
      decreases |rows| - i
    {
      var hi := if i + batchSize <= |rows| then i + batchSize else |rows|;
      OthersNext(hot0, others, step);
      hot.LetOthersWrite(others(step));
      step := step + 1;
      var count := cold.InsertMemories(rows[i..hi], now);
      NextBatch(old(cold.rows), rows, i, hi, now);
      copied := copied + count;
      i := hi;
    }
  }

  lemma NextBatch(cold: Cold, rows: seq<MemoryRow>, i: nat, hi: nat, at: int)
    requires i <= hi <= |rows|
    ensures Copied(Copied(cold, rows[..i], at), rows[i..hi], at) == Copied(cold, rows[..hi], at)
    ensures rows[..|rows|] == rows && Copied(cold, rows[..0], at) == cold
  {
    CopiedInBatches(cold, rows[..i], rows[i..hi], at);
    assert rows[..i] + rows[i..hi] == rows[..hi];
  }

  // --- the state machine ---

  /** A pass under way: its candidates, how many are copied, which were touched since the selection. */
  datatype Run = Run(cands: seq<MemoryRow>, at: int, copied: nat, verified: bool, touched: set<string>)

  /**
   * `live` is every memory as its writers last left it, wherever it is stored; `used` holds each
   * revision (id, updated_at) that ever existed; `stale` are the memories whose usage counters
   * moved between the copy and the delete.
   */
  datatype Tier = Tier(hot: Hot, cold: Cold, live: Hot, used: set<(string, int)>, stale: set<string>, run: Option<Run>)

  datatype Move =
    | Write(w: HotWrite)
    | Select(cutoff: int, limit: nat, at: int, cands: seq<MemoryRow>)
    | CopyBatch(n: nat)
    | Verify
    | DeleteUnchanged
    | Crash

  /** An edit draws an `updated_at` its row has not had before, an insert a new id; one offloader at a time. */
  ghost predicate Can(s: Tier, m: Move) {
    match m
    case Write(Edit(row)) => (row.id, row.updatedAt) !in s.used
    case Write(Insert(row)) => forall t :: (row.id, t) !in s.used
    case Write(_) => true
    case Select(cutoff, limit, _, cands) => s.run.None? && IsSelection(s.hot, cutoff, limit, cands)
    case CopyBatch(n) => s.run.Some? && s.run.value.copied + n <= |s.run.value.cands|
    case Verify => s.run.Some? && s.run.value.copied == |s.run.value.cands|
    case DeleteUnchanged => s.run.Some? && s.run.value.verified
    case Crash => true
  }

  function LiveAfter(hot: Hot, live: Hot, w: HotWrite): Hot {
    match w
    case Edit(row) => if row.id in hot then live[row.id := row] else live
    case Touch(id, hits, recalls, lastUsed) => if id in hot && id in live then live[id := WithUsage(live[id], hits, recalls, lastUsed)] else live
    case Insert(row) => if row.id in hot then live else live[row.id := row]
    case Erase(id) => if id in hot then live - {id} else live
  }

  function UsedAfter(hot: Hot, used: set<(string, int)>, w: HotWrite): set<(string, int)> {
    match w
    case Edit(row) => used + {(row.id, row.updatedAt)}
    case Insert(row) => used + {(row.id, row.updatedAt)}
    case _ => used
  }

  function TouchedAfter(run: Run, w: HotWrite): Run {
    match w
    case Touch(id, _, _, _) => run.(touched := run.touched + {id})
    case _ => run
  }

  ghost function Moved(s: Tier, m: Move): Tier
    requires Can(s, m)
  {
    match m
    case Write(w) =>
      s.(hot := Written(s.hot, w), live := LiveAfter(s.hot, s.live, w), used := UsedAfter(s.hot, s.used, w),
         run := if s.run.Some? then Some(TouchedAfter(s.run.value, w)) else None)
    case Select(_, _, at, cands) => s.(run := Some(Run(cands, at, 0, false, {})))
    case CopyBatch(n) =>
      var r := s.run.value;
      s.(cold := Copied(s.cold, r.cands[r.copied..r.copied + n], r.at), run := Some(r.(copied := r.copied + n)))
    case Verify =>
      var r := s.run.value;
      s.(run := Some(r.(verified := forall i :: 0 <= i < |r.cands| ==> r.cands[i].id in s.cold)))
    case DeleteUnchanged =>
      var r := s.run.value;
      var taken := Taken(s.hot, r.cands);
      s.(hot := s.hot - taken, stale := s.stale + taken * r.touched, run := None)
    case Crash => s.(run := None)
  }

  /** The cold row has every column of the memory but perhaps the usage counters. */
  predicate Preserves(c: ColdRow, row: MemoryRow) {
    SameButUsage(c.row, ColdCopy(row, c.offloadedAt).row)
  }

  /** Every memory is in the hot store as last written, or in the cold store, whole if no counter moved late. */
  predicate Kept(s: Tier, id: string)
    requires id in s.live
  {
    if id in s.hot then s.hot[id] == s.live[id]
    else
      && id in s.cold && Preserves(s.cold[id], s.live[id])
      && (id !in s.stale ==> s.cold[id] == ColdCopy(s.live[id], s.cold[id].offloadedAt))
  }

  ghost predicate NothingLost(s: Tier) {
    forall id :: id in s.live ==> Kept(s, id)
  }

  ghost predicate HotInLive(s: Tier) {
    && HotOk(s.hot)
    && (forall id :: id in s.hot ==> id in s.live && (id, s.hot[id].updatedAt) in s.used)
  }

  /** What is known of a candidate: while the hot row has its revision, the two differ in counters only. */
  predicate CandOk(s: Tier, r: Run, c: MemoryRow) {
    && c.status == ARCHIVED && (c.id, c.updatedAt) in s.used
    && (c.id in s.live ==> c.id in s.hot)
    && (c.id in s.hot && s.hot[c.id].updatedAt == c.updatedAt ==>
          SameButUsage(s.hot[c.id], c) && (c.id !in r.touched ==> s.hot[c.id] == c))
  }

  ghost predicate RunOk(s: Tier, r: Run) {
    && Distinct(Ids(r.cands))
    && r.copied <= |r.cands|
    && (r.verified ==> r.copied == |r.cands|)
    && (forall i :: 0 <= i < |r.cands| ==> CandOk(s, r, r.cands[i]))
    && (forall i :: 0 <= i < r.copied ==> r.cands[i].id in s.cold && s.cold[r.cands[i].id] == ColdCopy(r.cands[i], r.at))
  }

  ghost predicate TierInv(s: Tier) {
    HotInLive(s) && NothingLost(s) && (s.run.Some? ==> RunOk(s, s.run.value))
  }

  lemma WriteKeeps(s: Tier, w: HotWrite)
    requires TierInv(s) && Can(s, Write(w))
    ensures TierInv(Moved(s, Write(w)))
  {
    hide TierInv;
    var s' := Moved(s, Write(w));
    TierParts(s);
    WriteKeepsStores(s, w);
    if s.run.Some? {
      var r, r' := s.run.value, s'.run.value;
      forall i | 0 <= i < |r.cands|
        ensures CandOk(s', r', r.cands[i])
      {
        assert CandOk(s, r, r.cands[i]);
        WriteKeepsCand(s, w, r, r.cands[i]);
      }
    }
    TierWhole(s');
  }

  lemma TierParts(s: Tier)
    requires TierInv(s)
    ensures HotInLive(s) && NothingLost(s) && (s.run.Some? ==> RunOk(s, s.run.value))
  {
  }

  lemma TierWhole(s: Tier)
    requires HotInLive(s) && NothingLost(s) && (s.run.Some? ==> RunOk(s, s.run.value))
    ensures TierInv(s)
  {
  }

  lemma WriteKeepsStores(s: Tier, w: HotWrite)
    requires TierInv(s) && Can(s, Write(w))
    ensures HotInLive(Moved(s, Write(w))) && NothingLost(Moved(s, Write(w)))
  {
    hide RunOk, Preserves, ColdCopy, Kept;
    var s' := Moved(s, Write(w));
    forall id | id in s'.live
      ensures Kept(s', id)
    {
      assert id in s.live ==> Kept(s, id);
      WriteKeepsOne(s, w, id);
    }
  }

  lemma WriteKeepsOne(s: Tier, w: HotWrite, id: string)
    requires HotInLive(s) && Can(s, Write(w)) && (id in s.live ==> Kept(s, id)) && id in Moved(s, Write(w)).live
    ensures Kept(Moved(s, Write(w)), id)
  {
    hide Preserves, ColdCopy, WithUsage, UsedAfter, Can;
  }

  lemma WriteKeepsCand(s: Tier, w: HotWrite, r: Run, c: MemoryRow)
    requires HotOk(s.hot) && Can(s, Write(w)) && CandOk(s, r, c)
    ensures CandOk(Moved(s, Write(w)), TouchedAfter(r, w), c)
  {
  }

  lemma SelectKeeps(s: Tier, m: Move)
    requires TierInv(s) && Can(s, m) && m.Select?
    ensures TierInv(Moved(s, m))
  {
    var s' := Moved(s, m);
    var r := s'.run.value;
    forall i | 0 <= i < |r.cands|
      ensures CandOk(s', r, r.cands[i])
    {
      assert Ids(r.cands)[i] == r.cands[i].id;
      assert Ids(r.cands)[i] in Ids(r.cands);
      assert r.cands[i].id in Candidates(s.hot, m.cutoff);
    }
    forall id | id in s'.live
      ensures Kept(s', id)
    {
      assert Kept(s, id);
    }
  }

  /** What a batch adds to the copies already made. */
  lemma MoreCopies(cold: Cold, cands: seq<MemoryRow>, copied: nat, n: nat, at: int, after: Cold)
    requires copied + n <= |cands| && Distinct(Ids(cands))
    requires forall i :: 0 <= i < copied ==> cands[i].id in cold && cold[cands[i].id] == ColdCopy(cands[i], at)
    requires Holds(cold, cands[copied..copied + n], at, after)
    ensures forall i :: 0 <= i < copied + n ==> cands[i].id in after && after[cands[i].id] == ColdCopy(cands[i], at)
  {
    hide ColdCopy;
    var batch := cands[copied..copied + n];
    forall i | 0 <= i < copied + n
      ensures cands[i].id in after && after[cands[i].id] == ColdCopy(cands[i], at)
    {
      if i < copied {
        forall j | 0 <= j < |batch|
          ensures Ids(batch)[j] != cands[i].id
        {
          assert Ids(cands)[copied + j] != Ids(cands)[i];
        }
      } else {
        assert batch[i - copied] == cands[i];
      }
    }
  }

  lemma DistinctBatch(cands: seq<MemoryRow>, copied: nat, n: nat)
    requires copied + n <= |cands| && Distinct(Ids(cands))
    ensures Distinct(Ids(cands[copied..copied + n]))
  {
    var batch := cands[copied..copied + n];
    assert forall i :: 0 <= i < |batch| ==> Ids(batch)[i] == Ids(cands)[copied + i];
  }

  lemma CopyKeepsRun(s: Tier, n: nat)
    requires s.run.Some? && RunOk(s, s.run.value) && Can(s, CopyBatch(n))
    ensures RunOk(Moved(s, CopyBatch(n)), Moved(s, CopyBatch(n)).run.value)
    ensures var r := s.run.value;
            Holds(s.cold, r.cands[r.copied..r.copied + n], r.at, Moved(s, CopyBatch(n)).cold)
  {
    hide ColdCopy, Copied, SameButUsage, Holds, Distinct, Ids;
    var s', r := Moved(s, CopyBatch(n)), s.run.value;
    DistinctBatch(r.cands, r.copied, n);
    CopiedHolds(s.cold, r.cands[r.copied..r.copied + n], r.at);
    MoreCopies(s.cold, r.cands, r.copied, n, r.at, s'.cold);
    forall i | 0 <= i < |r.cands|
      ensures CandOk(s', s'.run.value, r.cands[i])
    {
      assert CandOk(s, r, r.cands[i]);
    }
  }

  lemma CopyKeeps(s: Tier, n: nat)
    requires TierInv(s) && Can(s, CopyBatch(n))
    ensures TierInv(Moved(s, CopyBatch(n)))
  {
    hide ColdCopy, Preserves, Copied, RunOk;
    var s', r := Moved(s, CopyBatch(n)), s.run.value;
    var batch := r.cands[r.copied..r.copied + n];
    CopyKeepsRun(s, n);
    forall id | id in s'.live
      ensures Kept(s', id)
    {
      assert Kept(s, id);
      NotACopy(s, r, batch, id);
    }
  }

  /** An offloaded memory is no candidate, so its copy is not overwritten. */
  lemma NotACopy(s: Tier, r: Run, batch: seq<MemoryRow>, id: string)
    requires RunOk(s, r) && id in s.live && r.copied + |batch| <= |r.cands|
    requires batch == r.cands[r.copied..r.copied + |batch|]
    ensures id !in s.hot ==> id !in Ids(batch)
  {
    forall j | 0 <= j < |batch|
      ensures id !in s.hot ==> Ids(batch)[j] != id
    {
      assert batch[j] == r.cands[r.copied + j];
      assert CandOk(s, r, r.cands[r.copied + j]);
    }
  }

  lemma OthersKeep(s: Tier, m: Move)
    requires TierInv(s) && Can(s, m) && (m.Verify? || m.Crash?)
    ensures TierInv(Moved(s, m))
  {
    hide ColdCopy, Preserves;
    var s' := Moved(s, m);
    forall id | id in s'.live
      ensures Kept(s', id)
    {
      assert Kept(s, id);
    }
    if m.Verify? {
      var r := s.run.value;
      forall i | 0 <= i < |r.cands|
        ensures CandOk(s', s'.run.value, r.cands[i])
      {
        assert CandOk(s, r, r.cands[i]);
      }
    }
  }

  /** The row the guarded DELETE takes has, in the cold store, the copy of the candidate it still is. */
  lemma TakenIsCopied(s: Tier, r: Run, id: string)
    requires RunOk(s, r) && r.verified && id in Taken(s.hot, r.cands)
    ensures id in s.hot && id in s.cold && Preserves(s.cold[id], s.hot[id])
    ensures id !in r.touched ==> s.cold[id] == ColdCopy(s.hot[id], s.cold[id].offloadedAt)
  {
    var i :| 0 <= i < |r.cands| && Unchanged(s.hot, r.cands[i]) && r.cands[i].id == id;
    assert CandOk(s, r, r.cands[i]);
  }

  lemma DeleteKeeps(s: Tier)
    requires TierInv(s) && Can(s, DeleteUnchanged)
    ensures TierInv(Moved(s, DeleteUnchanged))
  {
    hide ColdCopy, Preserves, Taken, RunOk;
    var s', r := Moved(s, DeleteUnchanged), s.run.value;
    forall id | id in s'.live
      ensures Kept(s', id)
    {
      assert Kept(s, id);
      if id in Taken(s.hot, r.cands) {
        TakenIsCopied(s, r, id);
      }
    }
  }

  lemma MoveKeeps(s: Tier, m: Move)
    requires TierInv(s) && Can(s, m)
    ensures TierInv(Moved(s, m))
  {
    hide TierInv, Moved, Can;
    match m
    case Write(w) => WriteKeeps(s, w);
    case Select(_, _, _, _) => SelectKeeps(s, m);
    case CopyBatch(n) => CopyKeeps(s, n);
    case DeleteUnchanged => DeleteKeeps(s);
    case _ => OthersKeep(s, m);
  }

  // --- runs ---

  ghost predicate IsCourse(s: Tier, moves: seq<Move>)
    decreases |moves|
  {
    moves != [] ==> Can(s, moves[0]) && IsCourse(Moved(s, moves[0]), moves[1..])
  }

  ghost function End(s: Tier, moves: seq<Move>): Tier
    requires IsCourse(s, moves)
    decreases |moves|
  {
    if moves == [] then s else End(Moved(s, moves[0]), moves[1..])
  }

  /** Any hot store, and whatever earlier versions left in the cold one. */
  ghost function Opening(hot: Hot, cold: Cold): Tier {
    Tier(hot, cold, hot, set k | k in hot :: (k, hot[k].updatedAt), {}, None)
  }

  lemma {:induction false} CourseKeeps(s: Tier, moves: seq<Move>)
    requires TierInv(s) && IsCourse(s, moves)
    ensures TierInv(End(s, moves))
    decreases |moves|
  {
    hide TierInv, Moved, Can;
    if moves != [] {
      MoveKeeps(s, moves[0]);
      CourseKeeps(Moved(s, moves[0]), moves[1..]);
    }
  }

  /**
   * However passes, writers and crashes interleave, every memory is in the hot store exactly as
   * last written, or in the cold store with every column but perhaps the usage counters; and the
   * counters too, unless they moved between the selection and the delete.
   */
  lemma OffloadNeverLoses(hot: Hot, cold: Cold, moves: seq<Move>)
    requires HotOk(hot) && IsCourse(Opening(hot, cold), moves)
    ensures NothingLost(End(Opening(hot, cold), moves))
  {
    assert TierInv(Opening(hot, cold));
    CourseKeeps(Opening(hot, cold), moves);
  }

  /** A candidate edited, unarchived or re-archived since the selection stays in the hot store. */
  lemma ChangedCandidatesStay(hot: Hot, cold: Cold, moves: seq<Move>, id: string)
    requires HotOk(hot) && IsCourse(Opening(hot, cold), moves)
    requires var s := End(Opening(hot, cold), moves);
             && Can(s, DeleteUnchanged) && id in s.hot
             && forall i :: 0 <= i < |s.run.value.cands| && s.run.value.cands[i].id == id ==> !SameButUsage(s.hot[id], s.run.value.cands[i])
    ensures var s := End(Opening(hot, cold), moves);
            id in Moved(s, DeleteUnchanged).hot && Moved(s, DeleteUnchanged).hot[id] == s.hot[id]
  {
    assert TierInv(Opening(hot, cold));
    CourseKeeps(Opening(hot, cold), moves);
    var s := End(Opening(hot, cold), moves);
    var r := s.run.value;
    forall i | 0 <= i < |r.cands|
      ensures r.cands[i].id == id ==> !Unchanged(s.hot, r.cands[i])
    {
      assert CandOk(s, r, r.cands[i]);
    }
  }

  /** What a reader of an offloaded memory sees is what the hot row would show, but for the counters. */
  lemma OffloadedReadsTheSame(c: ColdRow, row: MemoryRow)
    requires Preserves(c, row)
    ensures ToEntry(c.row) == ToEntry(row).(hitCount := ToEntry(c.row).hitCount, recallCount := ToEntry(c.row).recallCount,
                                            lastUsedAt := ToEntry(c.row).lastUsedAt)
  {
    EntrySurvivesCopy(row, c.offloadedAt);
  }

  predicate SameCounters(a: MemoryRow, b: MemoryRow) {
    && OrElse(a.hitCount, 0) == OrElse(b.hitCount, 0) && OrElse(a.recallCount, 0) == OrElse(b.recallCount, 0)
    && a.lastUsedAt == b.lastUsedAt
  }

  /**
   * The delete looks at status and revision only, and a usage counter moves without a new revision:
   * a deleted memory is in the cold store whole exactly when its counters are still those selected.
   */
  lemma WholeIffCountersStood(s: Tier, i: nat)
    requires TierInv(s) && Can(s, DeleteUnchanged) && i < |s.run.value.cands| && Unchanged(s.hot, s.run.value.cands[i])
    ensures var c := s.run.value.cands[i];
            && c.id !in Moved(s, DeleteUnchanged).hot && c.id in s.cold
            && (s.cold[c.id] == ColdCopy(s.hot[c.id], s.cold[c.id].offloadedAt) <==> SameCounters(s.hot[c.id], c))
  {
    var r := s.run.value;
    assert CandOk(s, r, r.cands[i]);
    assert r.cands[i].id in Taken(s.hot, r.cands);
  }

  /** It happens: a memory used between the copy and the delete loses the use. */
  lemma LateUseIsLost(row: MemoryRow, hits: int, usedAt: int) returns (moves: seq<Move>)
    requires row.status == ARCHIVED && row.hitCount != Some(hits) && hits != 0
    ensures IsCourse(Opening(map[row.id := row], map[]), moves)
    ensures var s := End(Opening(map[row.id := row], map[]), moves);
            && row.id in s.live && s.live[row.id].hitCount == Some(hits)
            && row.id !in s.hot && row.id in s.cold && s.cold[row.id].row.hitCount != Some(hits)
  {
    var s0 := Opening(map[row.id := row], map[]);
    var touch := Touch(row.id, Some(hits), row.recallCount, Some(usedAt));
    OnlyCandidate(row);
    var s1 := Moved(s0, Select(row.updatedAt, 1, 0, [row]));
    var s2 := Moved(s1, CopyBatch(1));
    assert [row][0..1] == [row] && Copied(map[], [], 0) == map[] && [row][..0] == [];
    assert s2.cold == map[row.id := ColdCopy(row, 0)];
    var s3 := Moved(s2, Write(touch));
    var s4 := Moved(s3, Verify);
    assert Can(s4, DeleteUnchanged);
    var s5 := Moved(s4, DeleteUnchanged);
    assert Unchanged(s4.hot, [row][0]);
    assert row.id in Taken(s4.hot, [row]);
    moves := [Select(row.updatedAt, 1, 0, [row]), CopyBatch(1), Write(touch), Verify, DeleteUnchanged];
    FiveMoves(s0, moves);
  }

  lemma OnlyCandidate(row: MemoryRow)
    requires row.status == ARCHIVED
    ensures IsSelection(map[row.id := row], row.updatedAt, 1, [row])
  {
    assert Ids([row]) == [row.id];
    assert Candidates(map[row.id := row], row.updatedAt) == {row.id};
  }

  lemma FiveMoves(s: Tier, moves: seq<Move>)
    requires |moves| == 5 && Can(s, moves[0])
    requires var s1 := Moved(s, moves[0]); Can(s1, moves[1])
    requires var s2 := Moved(Moved(s, moves[0]), moves[1]); Can(s2, moves[2])
    requires var s3 := Moved(Moved(Moved(s, moves[0]), moves[1]), moves[2]); Can(s3, moves[3])
    requires var s4 := Moved(Moved(Moved(Moved(s, moves[0]), moves[1]), moves[2]), moves[3]); Can(s4, moves[4])
    ensures IsCourse(s, moves)
    ensures End(s, moves) == Moved(Moved(Moved(Moved(Moved(s, moves[0]), moves[1]), moves[2]), moves[3]), moves[4])
  {
    hide Can, Moved;
    assert moves[1..][1..] == moves[2..] && moves[2..][1..] == moves[3..] && moves[3..][1..] == moves[4..] && moves[4..][1..] == [];
    var s4 := Moved(Moved(Moved(Moved(s, moves[0]), moves[1]), moves[2]), moves[3]);
    var s1, s2, s3 := Moved(s, moves[0]), Moved(Moved(s, moves[0]), moves[1]), Moved(Moved(Moved(s, moves[0]), moves[1]), moves[2]);
    assert IsCourse(Moved(s4, moves[4]), []);
    assert IsCourse(s4, moves[4..]) && End(s4, moves[4..]) == Moved(s4, moves[4]);
    assert IsCourse(s3, moves[3..]) && End(s3, moves[3..]) == End(s4, moves[4..]);
    assert IsCourse(s2, moves[2..]) && End(s2, moves[2..]) == End(s3, moves[3..]);
    assert IsCourse(s1, moves[1..]) && End(s1, moves[1..]) == End(s2, moves[2..]);
  }
}
