/**
 * The one-time move of the derived tables from `main` into the attached `derived` database: copy
 * and verify every table, then drop. It runs outside a transaction, so a crash may come between
 * any two statements; `fuse` is the number of statements that still run.
 */
module DerivedMigration {
  import opened OrderBy

  datatype TableName = CodebaseFiles | CodebaseSymbols | CodebaseReferences | MemoryVectors | TaskVectors | StandardVectors

  const DERIVED_TABLES := [CodebaseFiles, CodebaseSymbols, CodebaseReferences, MemoryVectors, TaskVectors, StandardVectors]

  type Row = map<string, string>
  type Rows = map<string, Row>
  datatype Table = Table(cols: set<string>, rows: Rows)
  type Schema = map<TableName, Table>

  /** What a column not listed in an INSERT is set to. */
  function Default(col: string): string {
    ""
  }

  /** A main row as a row of the derived table. */
  function Fit(row: Row, cols: set<string>): Row {
    map c | c in cols :: if c in row then row[c] else Default(c)
  }

  function Fitted(t: Table, cols: set<string>): Rows {
    map k | k in t.rows :: Fit(t.rows[k], cols)
  }

  /** codebase_files has a second unique index, on (repo, file_path). */
  predicate Clash(name: TableName, a: Row, b: Row) {
    && name.CodebaseFiles?
    && "repo" in a && "file_path" in a && "repo" in b && "file_path" in b
    && a["repo"] == b["repo"] && a["file_path"] == b["file_path"]
  }

  /** `INSERT OR REPLACE` of one row: rows that collide on a unique index go first. */
  function InsertOrReplace(name: TableName, d: Rows, k: string, row: Row): Rows {
    (map j | j in d && !Clash(name, d[j], row) :: d[j])[k := row]
  }

  /** `INSERT OR REPLACE ... SELECT`, the source scanned in the given order. */
  function InsertAll(name: TableName, d: Rows, m: Rows, order: seq<string>): Rows
    requires forall k :: k in order ==> k in m
  {
    if order == [] then d
    else
      var last := order[|order| - 1];
      InsertOrReplace(name, InsertAll(name, d, m, order[..|order| - 1]), last, m[last])
  }

  /** No two source rows collide on the second unique index. */
  ghost predicate Unclashing(name: TableName, m: Rows) {
    forall j, k :: j in m && k in m && j != k ==> !Clash(name, m[j], m[k])
  }

  /** The derived row collides with no source row. */
  predicate Survives(name: TableName, d: Rows, m: Rows, k: string)
    requires k in d
  {
    forall j :: j in m ==> !Clash(name, d[k], m[j])
  }

  /** The statement as a whole: source rows win, the rows they collide with go, the others stay. */
  function Merged(name: TableName, d: Rows, m: Rows): Rows {
    map k | k in d.Keys + m.Keys && (k in m || Survives(name, d, m, k)) :: if k in m then m[k] else d[k]
  }

  function Restricted(m: Rows, order: seq<string>): Rows {
    map k | k in m && k in order :: m[k]
  }

  lemma SurvivesOneMore(name: TableName, d: Rows, m: Rows, last: string, row: Row, k: string)
    requires k in d && last !in m
    ensures Survives(name, d, m[last := row], k) <==> Survives(name, d, m, k) && !Clash(name, d[k], row)
  {
    hide Clash;
    var after := m[last := row];
    assert after[last] == row;
    assert forall j :: j in m ==> after[j] == m[j];
  }

  lemma InsertOneMore(name: TableName, d: Rows, m: Rows, last: string, row: Row)
    requires last !in m && forall j :: j in m ==> !Clash(name, m[j], row)
    ensures InsertOrReplace(name, Merged(name, d, m), last, row) == Merged(name, d, m[last := row])
  {
    hide Clash, Survives;
    forall k | k in d
      ensures Survives(name, d, m[last := row], k) <==> Survives(name, d, m, k) && !Clash(name, d[k], row)
    {
      SurvivesOneMore(name, d, m, last, row, k);
    }
  }

  /** Row by row in any order, the statement does what `Merged` says. */
  lemma {:induction false} InsertAllIsMerge(name: TableName, d: Rows, m: Rows, order: seq<string>)
    requires (forall k :: k in order ==> k in m) && Distinct(order) && Unclashing(name, m)
    ensures InsertAll(name, d, m, order) == Merged(name, d, Restricted(m, order))
    decreases |order|
  {
    if order == [] {
      assert Restricted(m, order) == map[];
    } else {
      var shorter, last := order[..|order| - 1], order[|order| - 1];
      assert order == shorter + [last];
      InsertAllIsMerge(name, d, m, shorter);
      assert Restricted(m, order) == Restricted(m, shorter)[last := m[last]];
      InsertOneMore(name, d, Restricted(m, shorter), last, m[last]);
    }
  }

  /** A row pushed out by a later one of the same scan does not come back. */
  lemma {:induction false} PushedOut(name: TableName, d: Rows, m: Rows, order: seq<string>, i: nat, j: nat)
    requires (forall k :: k in order ==> k in m) && Distinct(order)
    requires i < j < |order| && Clash(name, m[order[i]], m[order[j]])
    ensures order[i] !in InsertAll(name, d, m, order)
    decreases |order|
  {
    var shorter, last := order[..|order| - 1], order[|order| - 1];
    if j == |shorter| {
      Inserted(name, d, m, shorter, i);
    } else {
      PushedOut(name, d, m, shorter, i, j);
    }
  }

  lemma {:induction false} Inserted(name: TableName, d: Rows, m: Rows, order: seq<string>, i: nat)
    requires (forall k :: k in order ==> k in m) && Distinct(order) && i < |order|
    ensures order[i] in InsertAll(name, d, m, order) ==> InsertAll(name, d, m, order)[order[i]] == m[order[i]]
    decreases |order|
  {
    if i < |order| - 1 {
      Inserted(name, d, m, order[..|order| - 1], i);
    }
  }

  /** The check after the copy passes exactly when no two main rows share the second unique key. */
  lemma VerifyPassesIff(name: TableName, d: Rows, m: Rows, order: seq<string>)
    requires Distinct(order) && forall k :: k in order <==> k in m
    ensures (forall k :: k in m ==> k in InsertAll(name, d, m, order)) <==> Unclashing(name, m)
    ensures Unclashing(name, m) ==> InsertAll(name, d, m, order) == Merged(name, d, m)
  {
    if Unclashing(name, m) {
      InsertAllIsMerge(name, d, m, order);
      assert Restricted(m, order) == m;
    } else {
      var j, k :| j in m && k in m && j != k && Clash(name, m[j], m[k]);
      var a :| 0 <= a < |order| && order[a] == j;
      var b :| 0 <= b < |order| && order[b] == k;
      PushedOut(name, d, m, order, if a < b then a else b, if a < b then b else a);
    }
  }

  /** Copying again changes nothing, whatever the derived table held before. */
  lemma MergeIsIdempotent(name: TableName, d: Rows, m: Rows)
    ensures Merged(name, Merged(name, d, m), m) == Merged(name, d, m)
  {
  }

  /** The columns of the second unique index of codebase_files, if the row has them. */
  function RepoAndPath(row: Row): seq<string> {
    if "repo" in row && "file_path" in row then [row["repo"], row["file_path"]] else []
  }

  lemma ClashIff(name: TableName, a: Row, b: Row)
    ensures Clash(name, a, b) <==> name == CodebaseFiles && RepoAndPath(a) != [] && RepoAndPath(a) == RepoAndPath(b)
  {
  }

  ghost predicate OneRowPerPath(rows: Rows) {
    forall j, k :: j in rows && k in rows && RepoAndPath(rows[j]) != [] && RepoAndPath(rows[j]) == RepoAndPath(rows[k]) ==> j == k
  }

  /** A merge keeps that index; of the other tables, and of places main does not have, it drops nothing. */
  lemma MergeKeepsIndex(name: TableName, d: Rows, m: Rows)
    ensures name == CodebaseFiles && OneRowPerPath(d) && OneRowPerPath(m) ==> OneRowPerPath(Merged(name, d, m))
    ensures forall k :: k in d ==>
      (k in Merged(name, d, m) <==> k in m || name != CodebaseFiles || RepoAndPath(d[k]) == [] ||
                                    forall j :: j in m ==> RepoAndPath(m[j]) != RepoAndPath(d[k]))
  {
    forall a: Row, b: Row
      ensures Clash(name, a, b) <==> name == CodebaseFiles && RepoAndPath(a) != [] && RepoAndPath(a) == RepoAndPath(b)
    {
      ClashIff(name, a, b);
    }
    hide Clash, RepoAndPath;
  }

  lemma MergedKeeps(name: TableName, d: Rows, m: Rows, k: string)
    requires k in m
    ensures k in Merged(name, d, m) && Merged(name, d, m)[k] == m[k]
  {
  }

  // --- the two databases ---

  /** The derived database with the tables in `done` copied. */
  function MergedOver(derived: Schema, main: Schema, done: set<TableName>): (r: Schema)
    ensures r.Keys == derived.Keys
  {
    map n | n in derived ::
      if n in done && n in main
      then Table(derived[n].cols, Merged(n, derived[n].rows, Fitted(main[n], derived[n].cols)))
      else derived[n]
  }

  ghost predicate TableMoves(n: TableName, source: Table, target: Table) {
    source.cols <= target.cols && Unclashing(n, Fitted(source, target.cols))
  }

  /** Every main table fits the derived schema and keeps the derived unique index. */
  ghost predicate Movable(main: Schema, derived: Schema) {
    forall n :: n in main ==> n in derived && TableMoves(n, main[n], derived[n])
  }

  /** Where a run can stop: nothing dropped and some tables copied, or all copied and some dropped. */
  ghost predicate Halfway(main0: Schema, derived0: Schema, main: Schema, derived: Schema) {
    || (main == main0 && exists done :: done <= main0.Keys && derived == MergedOver(derived0, main0, done))
    || (derived == MergedOver(derived0, main0, main0.Keys) && Part(main, main0))
  }

  ghost predicate Part(main: Schema, main0: Schema) {
    forall n :: n in main ==> n in main0 && main[n] == main0[n]
  }

  /** The row is in `t` with the same value in every column of the original. */
  ghost predicate SameValues(row: Row, cols: set<string>, k: string, t: Table) {
    k in t.rows && forall c :: c in cols && c in row ==> c in t.rows[k] && t.rows[k][c] == row[c]
  }

  ghost predicate AllThere(source: Table, t: Table) {
    forall k :: k in source.rows ==> SameValues(source.rows[k], source.cols, k, t)
  }

  lemma MergedHasAll(main: Schema, derived: Schema, done: set<TableName>, n: TableName)
    requires Movable(main, derived) && n in main && n in done
    ensures AllThere(main[n], MergedOver(derived, main, done)[n])
  {
    var m := Fitted(main[n], derived[n].cols);
    forall k | k in main[n].rows
      ensures SameValues(main[n].rows[k], main[n].cols, k, MergedOver(derived, main, done)[n])
    {
      MergedKeeps(n, derived[n].rows, m, k);
      assert TableMoves(n, main[n], derived[n]);
    }
  }

  /**
   * Wherever a run stops, each original table is still whole in main or all there in derived, and
   * if any has been dropped then all are there in derived.
   */
  lemma NothingIsLost(main0: Schema, derived0: Schema, main: Schema, derived: Schema)
    requires Movable(main0, derived0) && Halfway(main0, derived0, main, derived)
    ensures forall n :: n in main0 ==> (n in main && main[n] == main0[n]) || (n in derived && AllThere(main0[n], derived[n]))
    ensures (exists n :: n in main0 && n !in main) ==> forall n :: n in main0 ==> n in derived && AllThere(main0[n], derived[n])
  {
    if main != main0 {
      forall n | n in main0
        ensures AllThere(main0[n], derived[n])
      {
        MergedHasAll(main0, derived0, main0.Keys, n);
      }
    }
  }

  lemma MergedTwice(derived: Schema, main: Schema, done: set<TableName>, again: Schema)
    requires Part(again, main)
    ensures forall n :: n in derived && n in again && n in done ==>
      MergedOver(MergedOver(derived, main, done), again, again.Keys)[n] == MergedOver(derived, main, done)[n]
  {
    forall n | n in derived && n in again && n in done
      ensures MergedOver(MergedOver(derived, main, done), again, again.Keys)[n] == MergedOver(derived, main, done)[n]
    {
      MergeIsIdempotent(n, derived[n].rows, Fitted(main[n], derived[n].cols));
    }
  }

  /** A rerun from any stop ends with the derived tables of an uninterrupted run. */
  lemma RerunEndsTheSame(main0: Schema, derived0: Schema, main: Schema, derived: Schema)
    requires Halfway(main0, derived0, main, derived)
    ensures MergedOver(derived, main, main.Keys) == MergedOver(derived0, main0, main0.Keys)
  {
    if main == main0 && exists done :: done <= main0.Keys && derived == MergedOver(derived0, main0, done) {
      var done :| done <= main0.Keys && derived == MergedOver(derived0, main0, done);
      MergedTwice(derived0, main0, done, main0);
    } else {
      MergedTwice(derived0, main0, main0.Keys, main);
    }
  }

  lemma StaysMovable(main0: Schema, derived0: Schema, main: Schema, derived: Schema)
    requires Movable(main0, derived0) && Halfway(main0, derived0, main, derived)
    ensures Movable(main, derived)
  {
    forall n | n in main
      ensures n in derived && TableMoves(n, main[n], derived[n])
    {
      assert TableMoves(n, main0[n], derived0[n]);
    }
  }

  lemma {:induction false} MergedAgain(derived: Schema, main: Schema, done: set<TableName>, more: set<TableName>)
    ensures MergedOver(MergedOver(derived, main, done), main, more) == MergedOver(derived, main, done + more)
  {
    forall n | n in derived && n in main && n in done && n in more
      ensures MergedOver(MergedOver(derived, main, done), main, more)[n] == MergedOver(derived, main, done + more)[n]
    {
      MergeIsIdempotent(n, derived[n].rows, Fitted(main[n], derived[n].cols));
    }
  }

  /** A run that starts where another stopped stops where a single run could. */
  lemma StopsCompose(main0: Schema, derived0: Schema, main1: Schema, derived1: Schema, main2: Schema, derived2: Schema)
    requires Halfway(main0, derived0, main1, derived1) && Halfway(main1, derived1, main2, derived2)
    ensures Halfway(main0, derived0, main2, derived2)
  {
    hide MergedOver;
    RerunEndsTheSame(main0, derived0, main1, derived1);
    if main2 == main1 && exists done :: done <= main1.Keys && derived2 == MergedOver(derived1, main1, done) {
      var done :| done <= main1.Keys && derived2 == MergedOver(derived1, main1, done);
      StopsWhileCopying(main0, derived0, main1, derived1, done);
    }
  }

  lemma StopsWhileCopying(main0: Schema, derived0: Schema, main: Schema, derived: Schema, done: set<TableName>)
    requires Halfway(main0, derived0, main, derived) && done <= main.Keys
    ensures Halfway(main0, derived0, main, MergedOver(derived, main, done))
  {
    if main == main0 && exists before :: before <= main0.Keys && derived == MergedOver(derived0, main0, before) {
      var before :| before <= main0.Keys && derived == MergedOver(derived0, main0, before);
      MergedAgain(derived0, main0, before, done);
      assert before + done <= main0.Keys;
    } else {
      AlreadyMerged(derived0, main0, main, done);
    }
  }

  lemma AlreadyMerged(derived: Schema, main0: Schema, main: Schema, done: set<TableName>)
    requires Part(main, main0) && done <= main.Keys
    ensures MergedOver(MergedOver(derived, main0, main0.Keys), main, done) == MergedOver(derived, main0, main0.Keys)
  {
    forall n | n in derived && n in done
      ensures MergedOver(MergedOver(derived, main0, main0.Keys), main, done)[n] == MergedOver(derived, main0, main0.Keys)[n]
    {
      MergeIsIdempotent(n, derived[n].rows, Fitted(main0[n], derived[n].cols));
    }
  }

  datatype Stop = Stop(main: Schema, derived: Schema)

  /** A chain of crashed runs, each started where the one before stopped. */
  ghost predicate CrashedRuns(main0: Schema, derived0: Schema, stops: seq<Stop>)
    decreases |stops|
  {
    stops != [] ==>
      Halfway(main0, derived0, stops[0].main, stops[0].derived) && CrashedRuns(stops[0].main, stops[0].derived, stops[1..])
  }

  /**
   * After any number of crashed runs a row is still in main or in derived, and a run that then goes
   * through leaves the derived tables of one uninterrupted run.
   */
  lemma {:induction false} CrashesDoNotMatter(main0: Schema, derived0: Schema, stops: seq<Stop>)
    requires Movable(main0, derived0) && CrashedRuns(main0, derived0, stops) && stops != []
    ensures var last := stops[|stops| - 1];
            && Movable(last.main, last.derived)
            && MergedOver(last.derived, last.main, last.main.Keys) == MergedOver(derived0, main0, main0.Keys)
            && forall n :: n in main0 ==>
                 (n in last.main && last.main[n] == main0[n]) || (n in last.derived && AllThere(main0[n], last.derived[n]))
    decreases |stops|
  {
    hide MergedOver, Movable, Halfway, AllThere;
    ChainStops(main0, derived0, stops);
    var last := stops[|stops| - 1];
    RerunEndsTheSame(main0, derived0, last.main, last.derived);
    StaysMovable(main0, derived0, last.main, last.derived);
    NothingIsLost(main0, derived0, last.main, last.derived);
  }

  lemma {:induction false} ChainStops(main0: Schema, derived0: Schema, stops: seq<Stop>)
    requires CrashedRuns(main0, derived0, stops) && stops != []
    ensures Halfway(main0, derived0, stops[|stops| - 1].main, stops[|stops| - 1].derived)
    decreases |stops|
  {
    hide Halfway;
    if |stops| > 1 {
      ChainStops(stops[0].main, stops[0].derived, stops[1..]);
      StopsCompose(main0, derived0, stops[0].main, stops[0].derived, stops[|stops| - 1].main, stops[|stops| - 1].derived);
    }
  }

  // --- the run ---

  datatype Outcome = NotNeeded | Moved(copied: map<TableName, nat>) | Failed | Crashed

  class DerivedDb {
    var main: Schema
    var derived: Schema
    var foreignKeys: bool
    var ftsInMain: bool
    var fuse: nat

    constructor (main: Schema, derived: Schema, foreignKeys: bool, ftsInMain: bool, fuse: nat)
      ensures this.main == main && this.derived == derived && this.foreignKeys == foreignKeys && this.fuse == fuse
    {
      this.main, this.derived, this.foreignKeys, this.ftsInMain, this.fuse := main, derived, foreignKeys, ftsInMain, fuse;
    }

    /** The next statement runs, or the process is gone. */
    method Tick() returns (alive: bool)
      modifies this`fuse
      ensures alive <==> old(fuse) > 0
      ensures alive ==> fuse == old(fuse) - 1
    {
      alive := fuse > 0;
      if alive {
        fuse := fuse - 1;
      }
    }

    /** Copy one table and verify it; a missing column is found before anything is written. */
    method CopyTable(name: TableName) returns (ok: bool, copied: nat)
      requires name in main && name in derived
      modifies this`derived
      ensures ok <==> TableMoves(name, main[name], old(derived)[name])
      ensures ok ==> derived == MergedOver(old(derived), main, {name}) && copied == |main[name].rows|
      ensures derived.Keys == old(derived).Keys
    {
      hide Merged, MergedOver, InsertAll, Fitted, Unclashing;
      var source, target := main[name], derived[name];
      if !(source.cols <= target.cols) {
        return false, 0;
      }
      var m := Fitted(source, target.cols);
      FittedKeys(source, target.cols);
      var order := Select(m.Keys, (j, k) => true);
      var after := InsertAll(name, target.rows, m, order);
      VerifyPassesIff(name, target.rows, m, order);
      OneTableMerged(derived, main, name);
      derived := derived[name := Table(target.cols, after)];
      var notCopied := set k | k in source.rows && k !in after;
      NoneMissing(source.rows.Keys, after, notCopied);
      ok := |notCopied| == 0;
      copied := |source.rows|;
    }

    /** The tables still in main, in the order they are moved. */
    method TablesToMove() returns (toMove: seq<TableName>)
      ensures Distinct(toMove) && forall n :: n in toMove <==> n in main
    {
      toMove := [];
      for i := 0 to |DERIVED_TABLES|
        invariant Distinct(toMove)
        invariant forall n :: n in toMove <==> n in main && n in DERIVED_TABLES[..i]
      {
        if DERIVED_TABLES[i] in main {
          toMove := toMove + [DERIVED_TABLES[i]];
        }
      }
      assert DERIVED_TABLES[..|DERIVED_TABLES|] == DERIVED_TABLES;
      forall n: TableName
        ensures n in DERIVED_TABLES
      {
        Listed(n);
      }
    }

    /** Copy and verify all tables before anything is dropped. */
    method CopyAll(toMove: seq<TableName>) returns (progress: Progress, copied: map<TableName, nat>)
      requires main.Keys <= derived.Keys && forall n :: n in toMove <==> n in main
      modifies this`derived, this`fuse
      ensures derived.Keys == old(derived).Keys
      ensures progress.Done? ==> CopiedSoFar(main, old(derived), main.Keys, derived) && copied == Counts(main, main.Keys)
      ensures progress.Stuck? ==> !Movable(main, old(derived))
      ensures progress.Cut? ==> exists done :: done <= main.Keys && CopiedSoFar(main, old(derived), done, derived)
      ensures old(fuse) >= |toMove| ==> !progress.Cut? && fuse >= old(fuse) - |toMove|
    {
      hide CopiedSoFar, MergedOver, Movable, TableMoves;
      ghost var d0, done := derived, {};
      copied := map[];
      NothingCopied(main, derived);
      var i := 0;
      while i < |toMove|
        invariant 0 <= i <= |toMove|
        invariant derived.Keys == d0.Keys && done <= main.Keys
        invariant forall n :: n in done <==> n in toMove[..i]
        invariant CopiedSoFar(main, d0, done, derived) && copied == Counts(main, done)
        invariant old(fuse) >= |toMove| ==> fuse >= old(fuse) - i
      {
        var alive := Tick();
        if !alive {
          assert done <= main.Keys && CopiedSoFar(main, d0, done, derived);
          return Cut, copied;
        }
        var name := toMove[i];
        assert name in toMove;
        FitsAsBefore(main, d0, done, derived, name);
        ghost var before := derived;
        var ok, count := CopyTable(name);
        if !ok {
          return Stuck, copied;
        }
        OneMoreCopied(main, d0, done, before, name);
        copied := copied[name := count];
        done := done + {name};
        i := i + 1;
      }
      assert done == main.Keys;
      return Done, copied;
    }

    /** Retire the main-side tables, one statement each. */
    method DropAll(toMove: seq<TableName>) returns (finished: bool)
      requires forall n :: n in toMove <==> n in main
      modifies this`main, this`fuse
      ensures Part(main, old(main))
      ensures finished ==> main == map[]
      ensures old(fuse) >= |toMove| ==> finished
    {
      var i := 0;
      while i < |toMove|
        invariant 0 <= i <= |toMove|
        invariant Part(main, old(main)) && forall n :: n in main ==> n in toMove[i..]
        invariant old(fuse) >= |toMove| ==> fuse >= old(fuse) - i
      {
        var alive := Tick();
        if !alive {
          return false;
        }
        assert toMove[i..] == [toMove[i]] + toMove[i + 1..];
        main := main - {toMove[i]};
        i := i + 1;
      }
      return true;
    }

    /**
     * The move. It goes through exactly when every table fits; otherwise, and at any crash, the
     * tables are where `Halfway` says. Foreign keys are back on in either case.
     */
    method RunDerivedMigration() returns (r: Outcome)
      requires main.Keys <= derived.Keys
      modifies this
      ensures r.NotNeeded? ==> old(main) == map[] && main == old(main) && derived == old(derived)
      ensures r.Moved? ==>
        && Movable(old(main), old(derived)) && r.copied == Counts(old(main), old(main).Keys)
        && main == map[] && derived == MergedOver(old(derived), old(main), old(main).Keys) && !ftsInMain
      ensures r.Failed? ==> !Movable(old(main), old(derived)) && main == old(main)
      ensures r.Crashed? ==> Halfway(old(main), old(derived), main, derived)
      ensures !r.Crashed? ==> foreignKeys == old(foreignKeys)
      ensures old(fuse) >= 14 ==> !r.Crashed?
    {
      hide Halfway, MergedOver, Movable, CopiedSoFar;
      ghost var m0, d0 := main, derived;
      var toMove := TablesToMove();
      SixTables(toMove);
      if |toMove| == 0 {
        assert main == map[];
        return NotNeeded;
      }
      var fkWasOn := foreignKeys;
      foreignKeys := false;
      var progress, copied := CopyAll(toMove);
      if progress.Cut? {
        CutIsHalfway(m0, d0, derived);
        return Crashed;
      }
      foreignKeys := fkWasOn;
      if progress.Stuck? {
        return Failed;
      }
      AllCopiedIsMerged(m0, d0, derived);
      DroppingIsHalfway(m0, d0, m0);
      var alive := Tick();
      if !alive {
        return Crashed;
      }
      alive := Tick();
      if !alive {
        return Crashed;
      }
      ftsInMain := false;
      var finished := DropAll(toMove);
      DroppingIsHalfway(m0, d0, main);
      return if finished then Moved(copied) else Crashed;
    }
  }

  lemma Listed(n: TableName)
    ensures n in DERIVED_TABLES
  {
    match n
    case CodebaseFiles => assert DERIVED_TABLES[0] == n;
    case CodebaseSymbols => assert DERIVED_TABLES[1] == n;
    case CodebaseReferences => assert DERIVED_TABLES[2] == n;
    case MemoryVectors => assert DERIVED_TABLES[3] == n;
    case TaskVectors => assert DERIVED_TABLES[4] == n;
    case StandardVectors => assert DERIVED_TABLES[5] == n;
  }

  datatype Progress = Done | Stuck | Cut

  function Counts(main: Schema, done: set<TableName>): map<TableName, nat> {
    map n | n in done && n in main :: |main[n].rows|
  }

  /** The tables in `done` are copied, and each of them fitted. */
  ghost predicate CopiedSoFar(main: Schema, derived0: Schema, done: set<TableName>, derived: Schema) {
    && derived == MergedOver(derived0, main, done)
    && (forall n :: n in done && n in main ==> n in derived0 && TableMoves(n, main[n], derived0[n]))
  }

  lemma NothingCopied(main: Schema, derived: Schema)
    ensures CopiedSoFar(main, derived, {}, derived) && Counts(main, {}) == map[]
  {
  }

  /** Copying the other tables does not change whether this one fits. */
  lemma FitsAsBefore(main: Schema, derived0: Schema, done: set<TableName>, derived: Schema, name: TableName)
    requires CopiedSoFar(main, derived0, done, derived) && name in main && name in derived0
    ensures name in derived && (TableMoves(name, main[name], derived[name]) <==> TableMoves(name, main[name], derived0[name]))
    ensures !TableMoves(name, main[name], derived0[name]) ==> !Movable(main, derived0)
  {
    hide Merged;
    assert derived[name].cols == derived0[name].cols;
  }

  lemma OneMoreCopied(main: Schema, derived0: Schema, done: set<TableName>, derived: Schema, name: TableName)
    requires CopiedSoFar(main, derived0, done, derived) && name in main && name in derived0
    requires TableMoves(name, main[name], derived0[name])
    ensures CopiedSoFar(main, derived0, done + {name}, MergedOver(derived, main, {name}))
    ensures Counts(main, done + {name}) == Counts(main, done)[name := |main[name].rows|]
  {
    hide MergedOver, TableMoves;
    MergedAgain(derived0, main, done, {name});
  }

  lemma CutIsHalfway(main: Schema, derived0: Schema, derived: Schema)
    requires exists done :: done <= main.Keys && CopiedSoFar(main, derived0, done, derived)
    ensures Halfway(main, derived0, main, derived)
  {
    var done :| done <= main.Keys && CopiedSoFar(main, derived0, done, derived);
    assert derived == MergedOver(derived0, main, done);
  }

  lemma AllCopiedIsMerged(main: Schema, derived0: Schema, derived: Schema)
    requires CopiedSoFar(main, derived0, main.Keys, derived)
    ensures Movable(main, derived0) && derived == MergedOver(derived0, main, main.Keys)
  {
  }

  lemma DroppingIsHalfway(main0: Schema, derived0: Schema, main: Schema)
    requires Part(main, main0)
    ensures Halfway(main0, derived0, main, MergedOver(derived0, main0, main0.Keys))
  {
  }

  lemma SixTables(toMove: seq<TableName>)
    requires Distinct(toMove)
    ensures |toMove| <= 6
  {
    var names := set n | n in toMove;
    DistinctCount(toMove, names);
    var all := set n | n in DERIVED_TABLES;
    DistinctCount(DERIVED_TABLES, all);
    forall n | n in names
      ensures n in all
    {
      Listed(n);
    }
    SubsetSize(names, all);
  }

  lemma {:induction false} SubsetSize(a: set<TableName>, b: set<TableName>)
    requires a <= b
    ensures |a| <= |b|
    decreases a
  {
    if a != {} {
      var n :| n in a;
      SubsetSize(a - {n}, b - {n});
    }
  }

  lemma FittedKeys(t: Table, cols: set<string>)
    ensures Fitted(t, cols).Keys == t.rows.Keys
  {
  }

  lemma OneTableMerged(derived: Schema, main: Schema, name: TableName)
    requires name in main && name in derived
    ensures MergedOver(derived, main, {name}) ==
            derived[name := Table(derived[name].cols, Merged(name, derived[name].rows, Fitted(main[name], derived[name].cols)))]
  {
  }

  lemma NoneMissing(keys: set<string>, after: Rows, missing: set<string>)
    requires missing == set k | k in keys && k !in after
    ensures |missing| == 0 <==> forall k :: k in keys ==> k in after
  {
    if |missing| == 0 {
      forall k | k in keys
        ensures k in after
      {
        assert k !in missing;
      }
    } else {
      var k :| k in missing;
    }
  }
}
