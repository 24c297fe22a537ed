/**
 * The hot `memories` table and the cold archive, statement by statement, and the offload pass
 * (select, copy in batches, verify, guarded delete) with other writers acting between statements.
 */
module ColdTier {
  import opened Options
  import opened OrderBy

  /** A `memories` row; columns the copy treats as possibly NULL are options. */
  datatype MemoryRow = MemoryRow(
    id: string, code: Option<string>, repo: string, owner: string, kind: string, title: Option<string>,
    content: string, importance: int, folder: Option<string>, language: Option<string>, branch: Option<string>,
    createdAt: int, updatedAt: int, hitCount: Option<int>, recallCount: Option<int>, lastUsedAt: Option<int>,
    expiresAt: Option<int>, supersedes: Option<string>, status: string, isGlobal: Option<int>,
    tags: Option<string>, metadata: Option<string>, agent: Option<string>, role: Option<string>,
    model: Option<string>, completedAt: Option<int>)

  datatype ColdRow = ColdRow(row: MemoryRow, offloadedAt: int)

  type Hot = map<string, MemoryRow>
  type Cold = map<string, ColdRow>

  const ARCHIVED := "archived"

  /** The usage counters, the only columns some writers change without a new `updated_at`. */
  function WithUsage(row: MemoryRow, hits: Option<int>, recalls: Option<int>, lastUsed: Option<int>): MemoryRow {
    row.(hitCount := hits, recallCount := recalls, lastUsedAt := lastUsed)
  }

  predicate SameButUsage(a: MemoryRow, b: MemoryRow) {
    a == WithUsage(b, a.hitCount, a.recallCount, a.lastUsedAt)
  }

  // --- what the copy does to a row, and what reading it back shows ---

  function OrElse<T>(o: Option<T>, default: T): Option<T> {
    if o.Some? then o else Some(default)
  }

  function ColdCopy(row: MemoryRow, offloadedAt: int): ColdRow {
    ColdRow(row.(hitCount := OrElse(row.hitCount, 0), recallCount := OrElse(row.recallCount, 0),
                 isGlobal := OrElse(row.isGlobal, 0), agent := OrElse(row.agent, "unknown"),
                 role := OrElse(row.role, "unknown"), model := OrElse(row.model, "unknown")), offloadedAt)
  }

  /** The entry callers see; the JSON columns are kept as text, a missing one as the empty text. */
  datatype Entry = Entry(
    id: string, code: Option<string>, kind: string, title: string, content: string, importance: int,
    agent: string, role: string, model: string, owner: string, repo: string, branch: Option<string>,
    folder: Option<string>, language: Option<string>, createdAt: int, updatedAt: int, completedAt: Option<int>,
    hitCount: int, recallCount: int, lastUsedAt: Option<int>, expiresAt: Option<int>, supersedes: Option<string>,
    status: string, isGlobal: bool, tags: string, metadata: string)

  /** JavaScript's `text || default`. */
  function TextOr(o: Option<string>, default: string): string {
    if o.Some? && o.value != "" then o.value else default
  }

  function NumberOr(o: Option<int>, default: int): int {
    if o.Some? then o.value else default
  }

  function ToEntry(r: MemoryRow): Entry {
    Entry(r.id, if r.code == Some("") then None else r.code, r.kind, TextOr(r.title, "Untitled"), r.content, r.importance,
          TextOr(r.agent, "unknown"), TextOr(r.role, "unknown"), TextOr(r.model, "unknown"), r.owner, r.repo, r.branch,
          r.folder, r.language, r.createdAt, r.updatedAt, r.completedAt, NumberOr(r.hitCount, 0), NumberOr(r.recallCount, 0),
          r.lastUsedAt, r.expiresAt, r.supersedes, TextOr(Some(r.status), "active"), r.isGlobal == Some(1),
          TextOr(r.tags, ""), TextOr(r.metadata, ""))
  }

  /** The entry shows the row, column by column; empty and missing texts and numbers read as their defaults. */
  lemma EntryShowsRow(r: MemoryRow)
    ensures var e := ToEntry(r);
            && e.id == r.id && e.kind == r.kind && e.content == r.content && e.importance == r.importance && e.owner == r.owner
            && e.repo == r.repo && e.branch == r.branch && e.folder == r.folder && e.language == r.language
            && e.createdAt == r.createdAt && e.updatedAt == r.updatedAt && e.completedAt == r.completedAt
            && e.lastUsedAt == r.lastUsedAt && e.expiresAt == r.expiresAt && e.supersedes == r.supersedes
            && (r.code != Some("") ==> e.code == r.code) && (r.status != "" ==> e.status == r.status)
            && (r.title.Some? && r.title.value != "" ==> e.title == r.title.value)
            && (r.agent.Some? && r.agent.value != "" ==> e.agent == r.agent.value)
            && (r.role.Some? && r.role.value != "" ==> e.role == r.role.value)
            && (r.model.Some? && r.model.value != "" ==> e.model == r.model.value)
            && (r.hitCount.Some? ==> e.hitCount == r.hitCount.value) && (r.recallCount.Some? ==> e.recallCount == r.recallCount.value)
            && (e.isGlobal <==> r.isGlobal == Some(1))
            && (r.tags.Some? ==> e.tags == r.tags.value) && (r.metadata.Some? ==> e.metadata == r.metadata.value)
  {
  }

  /** The NULL defaults the copy fills in are those a reader fills in: both rows read as the same entry. */
  lemma EntrySurvivesCopy(row: MemoryRow, offloadedAt: int)
    ensures ToEntry(ColdCopy(row, offloadedAt).row) == ToEntry(row)
  {
  }

  // --- the statements ---

  ghost predicate HotOk(hot: Hot) {
    forall k :: k in hot ==> hot[k].id == k
  }

  function Candidates(hot: Hot, cutoff: int): set<string> {
    set k | k in hot && hot[k].status == ARCHIVED && hot[k].updatedAt <= cutoff
  }

  function OldestFirst(hot: Hot): (string, string) -> bool {
    (k, l) => k in hot && l in hot && hot[k].updatedAt <= hot[l].updatedAt
  }

  function Ids(rows: seq<MemoryRow>): seq<string> {
    seq(|rows|, i requires 0 <= i < |rows| => rows[i].id)
  }

  /** `rows` is a possible result of the candidate SELECT. */
  ghost predicate IsSelection(hot: Hot, cutoff: int, limit: nat, rows: seq<MemoryRow>) {
    && IsTop(Candidates(hot, cutoff), OldestFirst(hot), limit, Ids(rows))
    && (forall i :: 0 <= i < |rows| ==> rows[i].id in hot && rows[i] == hot[rows[i].id])
  }

  /**
   * The candidates, on rows and times alone: archived rows of the table last updated at or before
   * the cutoff, oldest first, all of them unless the limit is reached, and then none older left out.
   */
  ghost predicate OldestArchived(hot: Hot, cutoff: int, limit: nat, rows: seq<MemoryRow>) {
    && |rows| <= limit
    && (forall i :: 0 <= i < |rows| ==>
          rows[i].id in hot && hot[rows[i].id] == rows[i] && rows[i].status == ARCHIVED && rows[i].updatedAt <= cutoff)
    && (forall i, j :: 0 <= i < j < |rows| ==> rows[i].id != rows[j].id && rows[i].updatedAt <= rows[j].updatedAt)
    && (forall id :: id in hot && hot[id].status == ARCHIVED && hot[id].updatedAt <= cutoff && id !in Ids(rows) ==>
          |rows| == limit && forall i :: 0 <= i < |rows| ==> rows[i].updatedAt <= hot[id].updatedAt)
  }

  lemma SelectionIsOldest(hot: Hot, cutoff: int, limit: nat, rows: seq<MemoryRow>)
    requires IsSelection(hot, cutoff, limit, rows)
    ensures OldestArchived(hot, cutoff, limit, rows)
  {
    var ids := Ids(rows);
    forall i | 0 <= i < |rows|
      ensures rows[i].status == ARCHIVED && rows[i].updatedAt <= cutoff
    {
      assert ids[i] in ids;
    }
    forall i, j | 0 <= i < j < |rows|
      ensures rows[i].id != rows[j].id && rows[i].updatedAt <= rows[j].updatedAt
    {
      assert ids[i] != ids[j] && OldestFirst(hot)(ids[i], ids[j]);
    }
    forall id | id in hot && hot[id].status == ARCHIVED && hot[id].updatedAt <= cutoff && id !in ids
      ensures |rows| == limit && forall i :: 0 <= i < |rows| ==> rows[i].updatedAt <= hot[id].updatedAt
    {
      assert id in Candidates(hot, cutoff);
      forall i | 0 <= i < |rows|
        ensures rows[i].updatedAt <= hot[id].updatedAt
      {
        assert ids[i] in ids && OldestFirst(hot)(ids[i], id);
      }
    }
  }

  /**
   * The copy is the row, column by column; of six columns a missing value becomes a default, and
   * the time of the offload is noted.
   */
  lemma CopyKeepsColumns(row: MemoryRow, offloadedAt: int)
    ensures var c := ColdCopy(row, offloadedAt);
            && c.offloadedAt == offloadedAt
            && c.row == row.(hitCount := c.row.hitCount, recallCount := c.row.recallCount, isGlobal := c.row.isGlobal,
                             agent := c.row.agent, role := c.row.role, model := c.row.model)
            && c.row.hitCount == Some(if row.hitCount.Some? then row.hitCount.value else 0)
            && c.row.recallCount == Some(if row.recallCount.Some? then row.recallCount.value else 0)
            && c.row.isGlobal == Some(if row.isGlobal.Some? then row.isGlobal.value else 0)
            && c.row.agent == Some(if row.agent.Some? then row.agent.value else "unknown")
            && c.row.role == Some(if row.role.Some? then row.role.value else "unknown")
            && c.row.model == Some(if row.model.Some? then row.model.value else "unknown")
  {
  }

  /** `INSERT OR REPLACE` for each row of a batch, in order. */
  function Copied(cold: Cold, batch: seq<MemoryRow>, offloadedAt: int): Cold {
    if batch == [] then cold
    else
      var last := batch[|batch| - 1];
      Copied(cold, batch[..|batch| - 1], offloadedAt)[last.id := ColdCopy(last, offloadedAt)]
  }

  /** Every row of the batch has its copy, and the other rows are as before. */
  ghost predicate Holds(cold: Cold, batch: seq<MemoryRow>, at: int, after: Cold) {
    && (forall i :: 0 <= i < |batch| ==> batch[i].id in after && after[batch[i].id] == ColdCopy(batch[i], at))
    && (forall k :: k in cold && k !in Ids(batch) ==> k in after && after[k] == cold[k])
    && (forall k :: k in after ==> k in cold || k in Ids(batch))
  }

  lemma HoldsOneMore(cold: Cold, shorter: seq<MemoryRow>, last: MemoryRow, at: int, after: Cold)
    requires Holds(cold, shorter, at, after) && last.id !in Ids(shorter)
    ensures Holds(cold, shorter + [last], at, after[last.id := ColdCopy(last, at)])
  {
    hide ColdCopy;
    var batch := shorter + [last];
    assert Ids(batch) == Ids(shorter) + [last.id];
    forall i | 0 <= i < |shorter|
      ensures batch[i] == shorter[i] && shorter[i].id != last.id
    {
      assert Ids(shorter)[i] == shorter[i].id;
    }
  }

  lemma {:induction false} CopiedHolds(cold: Cold, batch: seq<MemoryRow>, at: int)
    requires Distinct(Ids(batch))
    ensures Holds(cold, batch, at, Copied(cold, batch, at))
    decreases |batch|
  {
    hide Holds;
    if batch == [] {
      HoldsNothing(cold, at);
    } else {
      var shorter, last := batch[..|batch| - 1], batch[|batch| - 1];
      assert batch == shorter + [last];
      assert Ids(batch) == Ids(shorter) + [last.id];
      assert forall i :: 0 <= i < |shorter| ==> Ids(batch)[i] == Ids(shorter)[i];
      assert Ids(batch)[|shorter|] == last.id;
      CopiedHolds(cold, shorter, at);
      HoldsOneMore(cold, shorter, last, at, Copied(cold, shorter, at));
    }
  }

  lemma HoldsNothing(cold: Cold, at: int)
    ensures Holds(cold, [], at, cold)
  {
  }

  lemma {:induction false} CopiedInBatches(cold: Cold, a: seq<MemoryRow>, b: seq<MemoryRow>, at: int)
    ensures Copied(cold, a + b, at) == Copied(Copied(cold, a, at), b, at)
    decreases |b|
  {
    if b == [] {
      assert a + b == a;
    } else {
      CopiedInBatches(cold, a, b[..|b| - 1], at);
      assert (a + b)[..|a + b| - 1] == a + b[..|b| - 1];
    }
  }

  /** The row still is the archived revision that was selected, as far as the DELETE looks. */
  predicate Unchanged(hot: Hot, row: MemoryRow) {
    row.id in hot && hot[row.id].status == ARCHIVED && hot[row.id].updatedAt == row.updatedAt
  }

  /** The ids the guarded DELETE takes. */
  function Taken(hot: Hot, rows: seq<MemoryRow>): set<string> {
    set i | 0 <= i < |rows| && Unchanged(hot, rows[i]) :: rows[i].id
  }

  /** A row goes exactly when it is archived still, at the revision of a candidate. */
  lemma TakenIff(hot: Hot, rows: seq<MemoryRow>)
    ensures forall k :: k in hot ==>
      (k !in Taken(hot, rows) <==>
        forall i :: 0 <= i < |rows| && rows[i].id == k ==> hot[k].status != ARCHIVED || hot[k].updatedAt != rows[i].updatedAt)
  {
    forall i | 0 <= i < |rows| && rows[i].id in hot
      ensures rows[i].id in Taken(hot, rows) || hot[rows[i].id].status != ARCHIVED || hot[rows[i].id].updatedAt != rows[i].updatedAt
    {
    }
  }

  lemma TakenGrows(hot: Hot, rows: seq<MemoryRow>, i: nat)
    requires i < |rows| && Distinct(Ids(rows))
    ensures Taken(hot, rows[..i + 1]) == Taken(hot, rows[..i]) + if Unchanged(hot, rows[i]) then {rows[i].id} else {}
    ensures rows[i].id !in Taken(hot, rows[..i])
  {
    forall j | 0 <= j < i
      ensures rows[..i][j].id != rows[i].id
    {
      assert Ids(rows)[j] != Ids(rows)[i];
    }
    var more := Taken(hot, rows[..i + 1]);
    forall k
      ensures k in more <==> k in Taken(hot, rows[..i]) || (Unchanged(hot, rows[i]) && k == rows[i].id)
    {
      if k in more {
        var j :| 0 <= j < i + 1 && Unchanged(hot, rows[..i + 1][j]) && rows[..i + 1][j].id == k;
        assert j < i ==> rows[..i][j].id == k;
      }
      if k in Taken(hot, rows[..i]) {
        var j :| 0 <= j < i && Unchanged(hot, rows[..i][j]) && rows[..i][j].id == k;
        assert rows[..i + 1][j].id == k;
      }
      if Unchanged(hot, rows[i]) && k == rows[i].id {
        assert rows[..i + 1][i].id == k;
      }
    }
  }

  /** The hot table once the first `n` candidates have been through the DELETE. */
  ghost function Left(hot: Hot, rows: seq<MemoryRow>, n: nat): Hot
    requires n <= |rows|
  {
    hot - Taken(hot, rows[..n])
  }

  /** Earlier deletions do not change what the DELETE finds of the next candidate. */
  lemma LeftGrows(hot: Hot, rows: seq<MemoryRow>, i: nat)
    requires i < |rows| && Distinct(Ids(rows))
    ensures Unchanged(Left(hot, rows, i), rows[i]) == Unchanged(hot, rows[i])
    ensures Left(hot, rows, i + 1) == Left(hot, rows, i) - if Unchanged(hot, rows[i]) then {rows[i].id} else {}
  {
    TakenGrows(hot, rows, i);
  }

  // --- other writers ---

  datatype HotWrite =
    | Edit(row: MemoryRow)
    | Touch(id: string, hits: Option<int>, recalls: Option<int>, lastUsed: Option<int>)
    | Insert(row: MemoryRow)
    | Erase(id: string)

  function Written(hot: Hot, w: HotWrite): Hot {
    match w
    case Edit(row) => if row.id in hot then hot[row.id := row] else hot
    case Touch(id, hits, recalls, lastUsed) => if id in hot then hot[id := WithUsage(hot[id], hits, recalls, lastUsed)] else hot
    case Insert(row) => if row.id in hot then hot else hot[row.id := row]
    case Erase(id) => hot - {id}
  }

  function WrittenAll(hot: Hot, ws: seq<HotWrite>): (r: Hot)
    decreases |ws|
  {
    if ws == [] then hot else Written(WrittenAll(hot, ws[..|ws| - 1]), ws[|ws| - 1])
  }

  /** What the writers scheduled before statements `0 .. n-1` of the pass make of the hot table. */
  function AfterOthers(hot: Hot, others: nat -> seq<HotWrite>, n: nat): Hot {
    if n == 0 then hot else WrittenAll(AfterOthers(hot, others, n - 1), others(n - 1))
  }

  lemma {:induction false} WrittenKeepsOk(hot: Hot, ws: seq<HotWrite>)
    requires HotOk(hot)
    ensures HotOk(WrittenAll(hot, ws))
    decreases |ws|
  {
    if ws != [] {
      WrittenKeepsOk(hot, ws[..|ws| - 1]);
    }
  }

  // --- the stores ---

  class HotStore {
    var rows: Hot

    constructor (rows: Hot)
      ensures this.rows == rows
    {
      this.rows := rows;
    }

    /** The next scheduled writes of other processes. */
    method LetOthersWrite(ws: seq<HotWrite>)
      requires HotOk(rows)
      modifies this
      ensures HotOk(rows) && rows == WrittenAll(old(rows), ws)
    {
      WrittenKeepsOk(rows, ws);
      rows := WrittenAll(rows, ws);
    }

    method SelectArchivedForOffload(cutoff: int, limit: int) returns (selected: seq<MemoryRow>)
      requires HotOk(rows)
      ensures limit <= 0 ==> selected == []
      ensures limit > 0 ==> IsSelection(rows, cutoff, limit, selected) && OldestArchived(rows, cutoff, limit, selected)
      ensures Distinct(Ids(selected))
    {
      if limit <= 0 {
        return [];
      }
      var ids := SelectLimit(Candidates(rows, cutoff), OldestFirst(rows), limit);
      var hot := rows;
      forall i | 0 <= i < |ids|
        ensures ids[i] in hot
      {
        assert ids[i] in ids;
      }
      selected := seq(|ids|, i requires 0 <= i < |ids| && ids[i] in hot => hot[ids[i]]);
      assert Ids(selected) == ids;
      SelectionIsOldest(hot, cutoff, limit, selected);
    }

    /** `DELETE ... WHERE id = ? AND status = 'archived' AND updated_at = ?`. */
    method DeleteOne(selected: seq<MemoryRow>, i: nat, ghost hot: Hot) returns (changes: nat)
      requires i < |selected| && Distinct(Ids(selected)) && rows == Left(hot, selected, i)
      modifies this
      ensures rows == Left(hot, selected, i + 1)
      ensures |Taken(hot, selected[..i])| + changes == |Taken(hot, selected[..i + 1])|
    {
      TakenGrows(hot, selected, i);
      LeftGrows(hot, selected, i);
      changes := 0;
      if Unchanged(rows, selected[i]) {
        rows := rows - {selected[i].id};
        changes := 1;
      }
    }

    /** One chunk of the transaction. */
    method DeleteChunk(selected: seq<MemoryRow>, lo: nat, hi: nat, ghost hot: Hot) returns (count: nat)
      requires lo <= hi <= |selected| && Distinct(Ids(selected))
      requires rows == Left(hot, selected, lo)
      modifies this
      ensures rows == Left(hot, selected, hi)
      ensures |Taken(hot, selected[..lo])| + count == |Taken(hot, selected[..hi])|
    {
      hide Left, Taken;
      count := 0;
      var i := lo;
      while i < hi
        invariant lo <= i <= hi
        invariant rows == Left(hot, selected, i)
        invariant |Taken(hot, selected[..lo])| + count == |Taken(hot, selected[..i])|
      {
        var changes := DeleteOne(selected, i, hot);
        count := count + changes;
        i := i + 1;
      }
    }

    /** The guarded delete, 500 candidates a chunk, in one transaction. */
    method DeleteArchivedIfUnchanged(selected: seq<MemoryRow>) returns (count: nat)
      requires Distinct(Ids(selected))
      modifies this
      ensures rows == old(rows) - Taken(old(rows), selected)
      ensures count == |Taken(old(rows), selected)|
      ensures forall k :: k in rows <==>
        && k in old(rows)
        && forall i :: 0 <= i < |selected| && selected[i].id == k ==>
             old(rows)[k].status != ARCHIVED || old(rows)[k].updatedAt != selected[i].updatedAt
    {
      TakenIff(rows, selected);
      ghost var hot := rows;
      count := 0;
      var i := 0;
      assert Taken(hot, selected[..0]) == {};
      while i < |selected|
        invariant 0 <= i <= |selected|
        invariant rows == Left(hot, selected, i)
        invariant count == |Taken(hot, selected[..i])|
        decreases |selected| - i
      {
        var hi := if i + 500 <= |selected| then i + 500 else |selected|;
        var some := DeleteChunk(selected, i, hi, hot);
        count := count + some;
        i := hi;
      }
      assert selected[..|selected|] == selected;
    }
  }

  /** `SELECT COUNT(*) ... WHERE id IN (chunk)`. */
  ghost function Present(cold: Cold, ids: seq<string>): set<string> {
    set k | k in ids && k in cold
  }

  lemma PresentSplits(cold: Cold, a: seq<string>, b: seq<string>)
    requires Distinct(a + b)
    ensures |Present(cold, a + b)| == |Present(cold, a)| + |Present(cold, b)|
  {
    forall i, j | 0 <= i < |a| && 0 <= j < |b|
      ensures a[i] != b[j]
    {
      assert (a + b)[i] != (a + b)[|a| + j];
    }
    assert Present(cold, a + b) == Present(cold, a) + Present(cold, b);
  }

  /** Distinct ids are all counted exactly when all are there. */
  lemma {:induction false} FullCount(cold: Cold, ids: seq<string>)
    requires Distinct(ids)
    ensures |Present(cold, ids)| <= |ids|
    ensures |Present(cold, ids)| == |ids| <==> forall i :: 0 <= i < |ids| ==> ids[i] in cold
    decreases |ids|
  {
    if ids == [] {
      assert Present(cold, ids) == {};
    } else {
      var a, b := ids[..|ids| - 1], ids[|ids| - 1];
      assert ids == a + [b];
      FullCount(cold, a);
      PresentSplits(cold, a, [b]);
      assert Present(cold, [b]) == if b in cold then {b} else {};
      assert (forall i :: 0 <= i < |ids| ==> ids[i] in cold) <==> b in cold && forall i :: 0 <= i < |a| ==> a[i] in cold;
    }
  }

  class ColdStore {
    var rows: Cold

    constructor (rows: Cold)
      ensures this.rows == rows
    {
      this.rows := rows;
    }

    method InsertMemories(batch: seq<MemoryRow>, offloadedAt: int) returns (count: nat)
      modifies this
      ensures rows == Copied(old(rows), batch, offloadedAt) && count == |batch|
    {
      count := 0;
      for i := 0 to |batch|
        invariant rows == Copied(old(rows), batch[..i], offloadedAt) && count == i
      {
        assert batch[..i + 1][..i] == batch[..i];
        rows := rows[batch[i].id := ColdCopy(batch[i], offloadedAt)];
        count := count + 1;
      }
      assert batch[..|batch|] == batch;
    }

    /** How many of the ids are there, counted 500 at a time: all of them exactly when every id is. */
    method CountByIds(ids: seq<string>) returns (total: nat)
      requires Distinct(ids)
      ensures total == |Present(rows, ids)|
      ensures total == |ids| <==> forall i :: 0 <= i < |ids| ==> ids[i] in rows
    {
      total := 0;
      var i := 0;
      while i < |ids|
        invariant 0 <= i <= |ids|
        invariant total == |Present(rows, ids[..i])|
        decreases |ids| - i
      {
        var hi := if i + 500 <= |ids| then i + 500 else |ids|;
        var chunk := ids[i..hi];
        var found := set k | k in chunk && k in rows;
        assert found == Present(rows, chunk);
        assert ids[..hi] == ids[..i] + chunk;
        PresentSplits(rows, ids[..i], chunk);
        total := total + |found|;
        i := hi;
      }
      assert ids[..|ids|] == ids;
      FullCount(rows, ids);
    }
  }
}
