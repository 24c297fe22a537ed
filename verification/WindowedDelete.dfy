/**
 * `deleteWindowed`: a big DELETE cut into rowid windows, other writers acting between windows,
 * against the single statement it stands for.
 */
module WindowedDelete {
  import opened OrderBy

  /** A table by rowid, and whatever else of the database the predicate may look at. */
  datatype Db<T, W> = Db(rows: map<int, T>, rest: W)

  /** A WHERE body evaluated for one row of a database state. */
  type Condition<!T, !W> = (Db<T, W>, int) -> bool

  /** What the other writers do in the yield after the i-th window. */
  type Others<!T, !W> = (nat, Db<T, W>) -> Db<T, W>

  function Hits<T, W>(s: Db<T, W>, p: Condition<T, W>, lo: int, hi: int): set<int> {
    set r | r in s.rows && lo < r <= hi && p(s, r)
  }

  function Swept<T, W>(s: Db<T, W>, p: Condition<T, W>, lo: int, hi: int): Db<T, W> {
    s.(rows := s.rows - Hits(s, p, lo, hi))
  }

  /** The database as the i-th window finds it. */
  function StateAt<T, W>(s: Db<T, W>, p: Condition<T, W>, chunk: nat, others: Others<T, W>, i: nat): Db<T, W> {
    if i == 0 then s
    else others(i - 1, Swept(StateAt(s, p, chunk, others, i - 1), p, (i - 1) * chunk, (i - 1) * chunk + chunk))
  }

  /** The rows the first `i` windows delete. */
  function DeletedBefore<T, W>(s: Db<T, W>, p: Condition<T, W>, chunk: nat, others: Others<T, W>, i: nat): nat {
    if i == 0 then 0
    else
      DeletedBefore(s, p, chunk, others, i - 1) +
      |Hits(StateAt(s, p, chunk, others, i - 1), p, (i - 1) * chunk, (i - 1) * chunk + chunk)|
  }

  /** `max` is MAX(rowid), 0 for an empty table. */
  ghost predicate IsMaxRowid<T>(rows: map<int, T>, max: int) {
    if rows == map[] then max == 0 else max in rows && forall r :: r in rows ==> r <= max
  }

  /** `SELECT MAX(rowid)`, with NULL read as 0. */
  method MaxRowid(rowids: set<int>) returns (max: int)
    ensures if rowids == {} then max == 0 else max in rowids && forall r :: r in rowids ==> r <= max
  {
    max := 0;
    if rowids != {} {
      max := First(rowids, (r, s) => r >= s);
    }
  }

  class Table<T(0), W(0)> {
    var db: Db<T, W>

    constructor (db: Db<T, W>)
      ensures this.db == db
    {
      this.db := db;
    }

    /** The windows up to the initial maximum, each one statement, with a yield after each. */
    method DeleteWindowed(p: Condition<T, W>, chunkSize: int, others: Others<T, W>)
      returns (deleted: nat, ghost chunk: nat, ghost max: int, ghost windows: nat)
      modifies this
      ensures chunk == if chunkSize < 1 then 1 else chunkSize
      ensures IsMaxRowid(old(db).rows, max)
      ensures if max <= 0 then windows == 0 else (windows - 1) * chunk < max <= windows * chunk
      ensures db == StateAt(old(db), p, chunk, others, windows)
      ensures deleted == DeletedBefore(old(db), p, chunk, others, windows)
    {
      var size := if chunkSize < 1 then 1 else chunkSize;
      var maxRowid := MaxRowid(db.rows.Keys);
      chunk, max, windows, deleted := size, maxRowid, 0, 0;
      if maxRowid <= 0 {
        return;
      }
      var lo, i := 0, 0;
      while lo < maxRowid
        invariant lo == i * size && windows == i
        invariant i > 0 ==> (i - 1) * size < maxRowid
        invariant db == StateAt(old(db), p, size, others, i)
        invariant deleted == DeletedBefore(old(db), p, size, others, i)
        decreases maxRowid - lo
      {
        assert (i + 1) * size == i * size + size;
        deleted := deleted + |Hits(db, p, lo, lo + size)|;
        db := Swept(db, p, lo, lo + size);
        db := others(i, db);
        lo := lo + size;
        i := i + 1;
        windows := i;
      }
    }
  }

  // --- every row is examined once ---

  lemma {:induction false} WindowOf(r: int, chunk: nat, windows: nat) returns (w: nat)
    requires chunk >= 1 && 0 < r <= windows * chunk
    ensures w < windows && w * chunk < r <= w * chunk + chunk
    decreases windows
  {
    assert windows > 0;
    assert windows * chunk == (windows - 1) * chunk + chunk;
    if (windows - 1) * chunk < r {
      w := windows - 1;
    } else {
      w := WindowOf(r, chunk, windows - 1);
    }
  }

  lemma WindowsApart(r: int, chunk: nat, v: nat, w: nat)
    requires v * chunk < r <= v * chunk + chunk && w * chunk < r <= w * chunk + chunk
    ensures v == w
  {
    LaterWindow(v, w, chunk);
    LaterWindow(w, v, chunk);
  }

  lemma LaterWindow(v: nat, w: nat, chunk: nat)
    ensures v < w ==> v * chunk + chunk <= w * chunk
  {
    if v < w {
      assert (v + 1) * chunk <= w * chunk;
    }
  }

  /**
   * With any writers in between: a rowid between 1 and the initial maximum is looked at in exactly
   * one window, and the row is deleted there exactly when it is present and matches at that moment.
   */
  lemma ExaminedOnce<T, W>(s: Db<T, W>, p: Condition<T, W>, chunk: nat, others: Others<T, W>, windows: nat, r: int) returns (w: nat)
    requires chunk >= 1 && 0 < r <= windows * chunk
    ensures w < windows
    ensures var at := StateAt(s, p, chunk, others, w);
            r in Hits(at, p, w * chunk, w * chunk + chunk) <==> r in at.rows && p(at, r)
    ensures forall i: nat :: i < windows && i != w ==> r !in Hits(StateAt(s, p, chunk, others, i), p, i * chunk, i * chunk + chunk)
  {
    w := WindowOf(r, chunk, windows);
    forall i: nat | i < windows && i != w
      ensures r !in Hits(StateAt(s, p, chunk, others, i), p, i * chunk, i * chunk + chunk)
    {
      if i * chunk < r <= i * chunk + chunk {
        WindowsApart(r, chunk, i, w);
      }
    }
  }

  /** Rows that are there and match whenever a window looks are all gone, unless a writer puts them back. */
  lemma MatchingThroughoutGoes<T, W>(s: Db<T, W>, p: Condition<T, W>, chunk: nat, others: Others<T, W>, windows: nat, r: int)
    requires chunk >= 1 && 0 < r <= windows * chunk
    requires forall i: nat :: i < windows ==> r in StateAt(s, p, chunk, others, i).rows ==> p(StateAt(s, p, chunk, others, i), r)
    requires forall i: nat, d: Db<T, W> :: r in others(i, d).rows ==> r in d.rows
    ensures r !in StateAt(s, p, chunk, others, windows).rows
  {
    var w := ExaminedOnce(s, p, chunk, others, windows, r);
    StaysGone(s, p, chunk, others, w + 1, windows, r);
  }

  lemma {:induction false} StaysGone<T, W>(s: Db<T, W>, p: Condition<T, W>, chunk: nat, others: Others<T, W>, i: nat, j: nat, r: int)
    requires i <= j && r !in StateAt(s, p, chunk, others, i).rows
    requires forall i: nat, d: Db<T, W> :: r in others(i, d).rows ==> r in d.rows
    ensures r !in StateAt(s, p, chunk, others, j).rows
    decreases j - i
  {
    if i < j {
      var at := StateAt(s, p, chunk, others, i);
      assert r !in Swept(at, p, i * chunk, i * chunk + chunk).rows;
      assert StateAt(s, p, chunk, others, i + 1) == others(i, Swept(at, p, i * chunk, i * chunk + chunk));
      StaysGone(s, p, chunk, others, i + 1, j, r);
    }
  }

  // --- no other writers, and a condition on the row alone ---

  /** The WHERE body looks at nothing but the row. */
  ghost predicate RowLocal<T(!new), W(!new)>(p: Condition<T, W>, q: (int, T) -> bool) {
    forall d: Db<T, W>, r :: r in d.rows ==> p(d, r) == q(r, d.rows[r])
  }

  ghost predicate Quiet<T(!new), W(!new)>(others: Others<T, W>) {
    forall i: nat, d: Db<T, W> :: others(i, d) == d
  }

  function Matching<T>(rows: map<int, T>, q: (int, T) -> bool, hi: int): set<int> {
    set r | r in rows && 0 < r <= hi && q(r, rows[r])
  }

  lemma {:induction false} QuietWindows<T(!new), W(!new)>(s: Db<T, W>, p: Condition<T, W>, q: (int, T) -> bool, chunk: nat,
                                        others: Others<T, W>, i: nat)
    requires RowLocal(p, q) && Quiet(others)
    ensures StateAt(s, p, chunk, others, i) == s.(rows := s.rows - Matching(s.rows, q, i * chunk))
    ensures DeletedBefore(s, p, chunk, others, i) == |Matching(s.rows, q, i * chunk)|
    decreases i
  {
    if i == 0 {
      assert Matching(s.rows, q, 0) == {};
      assert s.rows - {} == s.rows;
    } else {
      QuietWindows(s, p, q, chunk, others, i - 1);
      OneMoreWindow(s, p, q, (i - 1) * chunk, chunk);
      assert (i - 1) * chunk + chunk == i * chunk;
    }
  }

  lemma OneMoreWindow<T(!new), W(!new)>(s: Db<T, W>, p: Condition<T, W>, q: (int, T) -> bool, lo: nat, chunk: nat)
    requires RowLocal(p, q)
    ensures var before := s.(rows := s.rows - Matching(s.rows, q, lo));
            && Swept(before, p, lo, lo + chunk) == s.(rows := s.rows - Matching(s.rows, q, lo + chunk))
            && |Matching(s.rows, q, lo)| + |Hits(before, p, lo, lo + chunk)| == |Matching(s.rows, q, lo + chunk)|
  {
    var before := s.(rows := s.rows - Matching(s.rows, q, lo));
    var hits := Hits(before, p, lo, lo + chunk);
    assert Matching(s.rows, q, lo + chunk) == Matching(s.rows, q, lo) + hits;
    assert s.rows - Matching(s.rows, q, lo + chunk) == before.rows - hits;
  }

  /** `DELETE FROM table WHERE q`, in one statement. */
  function OneShot<T>(rows: map<int, T>, q: (int, T) -> bool): map<int, T> {
    map r | r in rows && !q(r, rows[r]) :: rows[r]
  }

  /** Left alone, the windows delete exactly the matching rows of positive rowid, and count them. */
  lemma QuietWindowsDelete<T(!new), W(!new)>(s: Db<T, W>, p: Condition<T, W>, q: (int, T) -> bool, chunk: nat,
                                             others: Others<T, W>, max: int, windows: nat)
    requires RowLocal(p, q) && Quiet(others) && IsMaxRowid(s.rows, max)
    requires if max <= 0 then windows == 0 else max <= windows * chunk
    ensures var rows := StateAt(s, p, chunk, others, windows).rows;
            && (forall r :: r in rows <==> r in s.rows && !(r > 0 && q(r, s.rows[r])))
            && (forall r :: r in rows ==> rows[r] == s.rows[r])
    ensures DeletedBefore(s, p, chunk, others, windows) == |set r | r in s.rows && r > 0 && q(r, s.rows[r])|
  {
    QuietWindows(s, p, q, chunk, others, windows);
    assert Matching(s.rows, q, windows * chunk) == set r | r in s.rows && r > 0 && q(r, s.rows[r]);
  }

  /** The windows stand for the one big DELETE exactly when no matching row has a rowid of zero or less. */
  lemma RefinesOneDelete<T(!new), W(!new)>(s: Db<T, W>, p: Condition<T, W>, q: (int, T) -> bool, chunk: nat,
                                           others: Others<T, W>, max: int, windows: nat)
    requires RowLocal(p, q) && Quiet(others) && IsMaxRowid(s.rows, max)
    requires if max <= 0 then windows == 0 else max <= windows * chunk
    ensures StateAt(s, p, chunk, others, windows).rows == OneShot(s.rows, q) <==>
            forall r :: r in s.rows && r <= 0 ==> !q(r, s.rows[r])
  {
    QuietWindowsDelete(s, p, q, chunk, others, max, windows);
    var rows := StateAt(s, p, chunk, others, windows).rows;
    if r :| r in s.rows && r <= 0 && q(r, s.rows[r]) {
      assert r in rows && r !in OneShot(s.rows, q);
    } else {
      var once := OneShot(s.rows, q);
      forall r
        ensures r in rows <==> r in once
      {
        assert r in once <==> r in s.rows && !q(r, s.rows[r]);
      }
      assert rows == once;
    }
  }
}
