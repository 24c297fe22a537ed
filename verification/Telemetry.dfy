/**
 * Hourly reuse telemetry: additive upserts, and the totals a summary reports. Values are reals, so
 * floating-point rounding is left out; buckets are integers in the order of their ISO texts.
 */
module Telemetry {

  datatype CellKey = CellKey(owner: string, repo: string, bucket: int, metric: string, source: string)

  datatype Cell = Cell(count: int, value: real)

  datatype Delta = Delta(key: CellKey, cell: Cell)

  type Hours = map<CellKey, Cell>

  const ZERO := Cell(0, 0.0)

  function Plus(a: Cell, b: Cell): Cell {
    Cell(a.count + b.count, a.value + b.value)
  }

  function At(t: Hours, k: CellKey): Cell {
    if k in t then t[k] else ZERO
  }

  /** `INSERT ... ON CONFLICT DO UPDATE SET count = count + excluded.count, ...`. */
  function Added(t: Hours, d: Delta): Hours {
    t[d.key := Plus(At(t, d.key), d.cell)]
  }

  function Flushed(t: Hours, deltas: seq<Delta>): Hours {
    if deltas == [] then t else Added(Flushed(t, deltas[..|deltas| - 1]), deltas[|deltas| - 1])
  }

  /** The sum of the deltas whose key is selected, read off the deltas alone. */
  ghost function DeltaTotal(deltas: seq<Delta>, p: CellKey -> bool): Cell {
    if deltas == [] then ZERO
    else
      var last := deltas[|deltas| - 1];
      Plus(DeltaTotal(deltas[..|deltas| - 1], p), if p(last.key) then last.cell else ZERO)
  }

  lemma PlusRearranges(a: Cell, b: Cell, c: Cell)
    ensures Plus(a, Plus(b, c)) == Plus(b, Plus(a, c)) == Plus(Plus(a, b), c)
    ensures Plus(ZERO, a) == a == Plus(a, ZERO)
  {
  }

  // --- sums over rows ---

  ghost function Total(s: set<CellKey>, t: Hours): Cell {
    if s == {} then ZERO else var k :| k in s; Plus(At(t, k), Total(s - {k}, t))
  }

  lemma {:induction false} TotalTake(s: set<CellKey>, t: Hours, k: CellKey)
    requires k in s
    ensures Total(s, t) == Plus(At(t, k), Total(s - {k}, t))
    decreases s
  {
    var first :| first in s && Total(s, t) == Plus(At(t, first), Total(s - {first}, t));
    if first != k {
      TotalTake(s - {first}, t, k);
      TotalTake(s - {k}, t, first);
      assert s - {first} - {k} == s - {k} - {first};
      PlusRearranges(At(t, first), At(t, k), Total(s - {first} - {k}, t));
    }
  }

  lemma {:induction false} TotalEq(s: set<CellKey>, t: Hours, u: Hours)
    requires forall k :: k in s ==> At(t, k) == At(u, k)
    ensures Total(s, t) == Total(s, u)
    decreases s
  {
    if s != {} {
      var k :| k in s;
      TotalTake(s, t, k);
      TotalTake(s, u, k);
      TotalEq(s - {k}, t, u);
    }
  }

  lemma EmptyTotal(t: Hours)
    ensures Total({}, t) == ZERO
  {
  }

  lemma {:induction false} TotalUnion(a: set<CellKey>, b: set<CellKey>, t: Hours)
    requires a !! b
    ensures Total(a + b, t) == Plus(Total(a, t), Total(b, t))
    decreases a
  {
    hide Total, Plus, At;
    if a == {} {
      assert a + b == b;
      EmptyTotal(t);
      PlusRearranges(Total(b, t), ZERO, ZERO);
    } else {
      var k :| k in a;
      TotalTake(a + b, t, k);
      TotalTake(a, t, k);
      assert a + b - {k} == (a - {k}) + b;
      TotalUnion(a - {k}, b, t);
      PlusRearranges(At(t, k), Total(a - {k}, t), Total(b, t));
    }
  }

  ghost function Rows(t: Hours, p: CellKey -> bool): set<CellKey> {
    set k | k in t && p(k)
  }

  lemma AddedTotal(t: Hours, d: Delta, p: CellKey -> bool)
    ensures Total(Rows(Added(t, d), p), Added(t, d)) == Plus(Total(Rows(t, p), t), if p(d.key) then d.cell else ZERO)
  {
    var after := Added(t, d);
    var others := Rows(t, p) - {d.key};
    TotalEq(others, t, after);
    if p(d.key) {
      assert Rows(after, p) - {d.key} == others;
      TotalTake(Rows(after, p), after, d.key);
      if d.key in t {
        TotalTake(Rows(t, p), t, d.key);
      } else {
        assert Rows(t, p) == others;
      }
    } else {
      assert Rows(after, p) == others && Rows(t, p) == others;
    }
  }

  /** Whatever is selected, a flush adds to the rows what the deltas add up to. */
  lemma {:induction false} FlushConserves(t: Hours, deltas: seq<Delta>, p: CellKey -> bool)
    ensures Total(Rows(Flushed(t, deltas), p), Flushed(t, deltas)) == Plus(Total(Rows(t, p), t), DeltaTotal(deltas, p))
    decreases |deltas|
  {
    if deltas != [] {
      var earlier, last := deltas[..|deltas| - 1], deltas[|deltas| - 1];
      FlushConserves(t, earlier, p);
      AddedTotal(Flushed(t, earlier), last, p);
    }
  }

  // --- order and batching do not matter ---

  lemma {:induction false} FlushedTwice(t: Hours, a: seq<Delta>, b: seq<Delta>)
    ensures Flushed(t, a + b) == Flushed(Flushed(t, a), b)
    decreases |b|
  {
    if b == [] {
      assert a + b == a;
    } else {
      FlushedTwice(t, a, b[..|b| - 1]);
      assert (a + b)[..|a + b| - 1] == a + b[..|b| - 1];
    }
  }

  function Concat(batches: seq<seq<Delta>>): seq<Delta> {
    if batches == [] then [] else batches[0] + Concat(batches[1..])
  }

  function FlushedInBatches(t: Hours, batches: seq<seq<Delta>>): Hours
    decreases |batches|
  {
    if batches == [] then t else FlushedInBatches(Flushed(t, batches[0]), batches[1..])
  }

  lemma {:induction false} BatchingDoesNotMatter(t: Hours, batches: seq<seq<Delta>>)
    ensures FlushedInBatches(t, batches) == Flushed(t, Concat(batches))
    decreases |batches|
  {
    if batches != [] {
      BatchingDoesNotMatter(Flushed(t, batches[0]), batches[1..]);
      FlushedTwice(t, batches[0], Concat(batches[1..]));
    }
  }

  lemma AddedCommute(t: Hours, c: Delta, d: Delta)
    ensures Added(Added(t, c), d) == Added(Added(t, d), c)
  {
  }

  /** A delta can be taken out of the middle and flushed last. */
  lemma {:induction false} FlushLast(t: Hours, deltas: seq<Delta>, i: nat)
    requires i < |deltas|
    ensures Flushed(t, deltas) == Added(Flushed(t, Without(deltas, i)), deltas[i])
    decreases |deltas|
  {
    var n := |deltas| - 1;
    var without := Without(deltas, i);
    if i == n {
      assert without == deltas[..n];
    } else {
      var less := Without(deltas[..n], i);
      FlushLast(t, deltas[..n], i);
      WithoutKeepsLast(deltas, i);
      AddedCommute(Flushed(t, less), deltas[i], deltas[n]);
    }
  }

  function Without(deltas: seq<Delta>, i: nat): (r: seq<Delta>)
    requires i < |deltas|
    ensures |r| == |deltas| - 1
  {
    deltas[..i] + deltas[i + 1..]
  }

  lemma WithoutKeepsLast(deltas: seq<Delta>, i: nat)
    requires i < |deltas| - 1
    ensures var r := Without(deltas, i);
            r[..|r| - 1] == Without(deltas[..|deltas| - 1], i) && r[|r| - 1] == deltas[|deltas| - 1]
  {
  }

  lemma WithoutMultiset(deltas: seq<Delta>, i: nat)
    requires i < |deltas|
    ensures multiset(Without(deltas, i)) == multiset(deltas) - multiset{deltas[i]}
  {
    assert deltas == deltas[..i] + [deltas[i]] + deltas[i + 1..];
  }

  /** The table depends on the multiset of deltas alone. */
  lemma {:induction false} OrderDoesNotMatter(t: Hours, a: seq<Delta>, b: seq<Delta>)
    requires multiset(a) == multiset(b)
    ensures Flushed(t, a) == Flushed(t, b)
    decreases |a|
  {
    hide Added, Flushed;
    assert |a| == |multiset(a)| && |b| == |multiset(b)|;
    if a == [] {
      assert b == [];
    } else {
      var n := |a| - 1;
      assert a[n] in multiset(b);
      var i :| 0 <= i < |b| && b[i] == a[n];
      WithoutMultiset(a, n);
      WithoutMultiset(b, i);
      OrderDoesNotMatter(t, Without(a, n), Without(b, i));
      FlushLast(t, a, n);
      FlushLast(t, b, i);
    }
  }

  // --- the summary ---

  datatype Metric = Metric(total: Cell, bySource: map<string, Cell>)

  predicate InWindow(k: CellKey, owner: string, repo: string, from: int) {
    k.owner == owner && k.repo == repo && k.bucket >= from
  }

  function OfMetric(owner: string, repo: string, from: int, metric: string): CellKey -> bool {
    k => InWindow(k, owner, repo, from) && k.metric == metric
  }

  function OfSource(owner: string, repo: string, from: int, metric: string, source: string): CellKey -> bool {
    k => InWindow(k, owner, repo, from) && k.metric == metric && k.source == source
  }

  /** The (metric, source) groups of the window. */
  function Groups(t: Hours, owner: string, repo: string, from: int): set<(string, string)> {
    set k | k in t && InWindow(k, owner, repo, from) :: (k.metric, k.source)
  }

  /** The rows of a metric whose group has been read. */
  ghost function RowsRead(t: Hours, owner: string, repo: string, from: int, metric: string, done: set<(string, string)>): set<CellKey> {
    set k | k in t && InWindow(k, owner, repo, from) && k.metric == metric && (metric, k.source) in done
  }

  /** What the summary says of one metric once the groups in `done` are read. */
  ghost predicate MetricRead(t: Hours, owner: string, repo: string, from: int, done: set<(string, string)>,
                             metrics: map<string, Metric>, m: string)
  {
    && (m in metrics <==> exists s :: (m, s) in done)
    && (m in metrics ==>
          && metrics[m].total == Total(RowsRead(t, owner, repo, from, m, done), t)
          && (forall s :: s in metrics[m].bySource <==> s != "" && (m, s) in done)
          && (forall s :: s in metrics[m].bySource ==>
                metrics[m].bySource[s] == Total(Rows(t, OfSource(owner, repo, from, m, s)), t)))
  }

  ghost predicate Summarised(t: Hours, owner: string, repo: string, from: int, done: set<(string, string)>, metrics: map<string, Metric>) {
    forall m :: MetricRead(t, owner, repo, from, done, metrics, m)
  }

  /** `metrics[row.metric] ??= ...`, the running totals, and the source's own entry. */
  function WithGroup(metrics: map<string, Metric>, metric: string, source: string, sum: Cell): map<string, Metric> {
    var was := if metric in metrics then metrics[metric] else Metric(ZERO, map[]);
    metrics[metric := Metric(Plus(was.total, sum), if source != "" then was.bySource[source := sum] else was.bySource)]
  }

  lemma OtherMetric(t: Hours, owner: string, repo: string, from: int, done: set<(string, string)>, metrics: map<string, Metric>,
                    metric: string, source: string, sum: Cell, m: string)
    requires MetricRead(t, owner, repo, from, done, metrics, m) && m != metric
    ensures MetricRead(t, owner, repo, from, done + {(metric, source)}, WithGroup(metrics, metric, source, sum), m)
  {
    hide Total, Plus, Rows;
    var more := done + {(metric, source)};
    assert RowsRead(t, owner, repo, from, m, more) == RowsRead(t, owner, repo, from, m, done);
    assert forall s :: (m, s) in more <==> (m, s) in done;
  }

  lemma ThisMetric(t: Hours, owner: string, repo: string, from: int, done: set<(string, string)>, metrics: map<string, Metric>,
                   metric: string, source: string)
    requires MetricRead(t, owner, repo, from, done, metrics, metric) && (metric, source) !in done
    ensures var sum := Total(Rows(t, OfSource(owner, repo, from, metric, source)), t);
            MetricRead(t, owner, repo, from, done + {(metric, source)}, WithGroup(metrics, metric, source, sum), metric)
  {
    hide Total, Plus;
    var group := Rows(t, OfSource(owner, repo, from, metric, source));
    var more := done + {(metric, source)};
    var before := RowsRead(t, owner, repo, from, metric, done);
    assert RowsRead(t, owner, repo, from, metric, more) == before + group;
    TotalUnion(before, group, t);
    if metric !in metrics {
      assert before == {};
      EmptyTotal(t);
    }
    assert (metric, source) in more;
    assert forall s :: (metric, s) in more <==> (metric, s) in done || s == source;
  }

  lemma OneMoreGroup(t: Hours, owner: string, repo: string, from: int, done: set<(string, string)>, metrics: map<string, Metric>,
                     metric: string, source: string)
    requires Summarised(t, owner, repo, from, done, metrics) && (metric, source) !in done
    ensures var sum := Total(Rows(t, OfSource(owner, repo, from, metric, source)), t);
            Summarised(t, owner, repo, from, done + {(metric, source)}, WithGroup(metrics, metric, source, sum))
  {
    hide Total, Plus, Rows, MetricRead, WithGroup;
    var sum := Total(Rows(t, OfSource(owner, repo, from, metric, source)), t);
    ThisMetric(t, owner, repo, from, done, metrics, metric, source);
    forall m
      ensures MetricRead(t, owner, repo, from, done + {(metric, source)}, WithGroup(metrics, metric, source, sum), m)
    {
      if m != metric {
        OtherMetric(t, owner, repo, from, done, metrics, metric, source, sum, m);
      }
    }
  }

  class ReuseTelemetry {
    var hours: Hours

    constructor ()
      ensures hours == map[]
    {
      hours := map[];
    }

    /** All deltas in one transaction. */
    method Flush(deltas: seq<Delta>)
      modifies this
      ensures hours == Flushed(old(hours), deltas)
    {
      for i := 0 to |deltas|
        invariant hours == Flushed(old(hours), deltas[..i])
      {
        assert deltas[..i + 1][..i] == deltas[..i];
        hours := Added(hours, deltas[i]);
      }
      assert deltas[..|deltas|] == deltas;
    }

    /** The sum of one group: `SUM(count), SUM(value)`. */
    method GroupSum(owner: string, repo: string, from: int, metric: string, source: string) returns (sum: Cell)
      ensures sum == Total(Rows(hours, OfSource(owner, repo, from, metric, source)), hours)
    {
      var rows := set k | k in hours && InWindow(k, owner, repo, from) && k.metric == metric && k.source == source;
      assert rows == Rows(hours, OfSource(owner, repo, from, metric, source));
      hide Total, Plus;
      sum := ZERO;
      var rest := rows;
      EmptyTotal(hours);
      PlusRearranges(Total(rows, hours), ZERO, ZERO);
      while rest != {}
        invariant rest <= rows && Plus(sum, Total(rest, hours)) == Total(rows, hours)
        decreases rest
      {
        var k :| k in rest;
        TotalTake(rest, hours, k);
        PlusRearranges(sum, At(hours, k), Total(rest - {k}, hours));
        sum := Plus(sum, At(hours, k));
        rest := rest - {k};
      }
      PlusRearranges(sum, ZERO, ZERO);
    }

    /** The totals per metric and source of the rows from `from` on. */
    method Summarize(owner: string, repo: string, now: int, hoursBack: int) returns (from: int, metrics: map<string, Metric>)
      ensures from == now - Clamp(hoursBack, 1, 24 * 90) * 3600000
      ensures 1 <= hoursBack <= 24 * 90 ==> from == now - hoursBack * 3600000
      ensures now - 24 * 90 * 3600000 <= from <= now - 3600000
      ensures forall m :: m in metrics <==>
        exists k :: k in hours && k.owner == owner && k.repo == repo && from <= k.bucket && k.metric == m
      ensures Summarised(hours, owner, repo, from, Groups(hours, owner, repo, from), metrics)
    {
      from := now - Clamp(hoursBack, 1, 24 * 90) * 3600000;
      metrics := ReadGroups(owner, repo, from, Groups(hours, owner, repo, from));
      MetricsOfWindow(hours, owner, repo, from, metrics);
    }

    method ReadGroups(owner: string, repo: string, from: int, groups: set<(string, string)>) returns (metrics: map<string, Metric>)
      ensures Summarised(hours, owner, repo, from, groups, metrics)
    {
      hide Summarised, WithGroup, Total;
      metrics := map[];
      var rest := groups;
      NothingSummarised(hours, owner, repo, from);
      assert groups - rest == {};
      while rest != {}
        invariant rest <= groups && Summarised(hours, owner, repo, from, groups - rest, metrics)
        decreases rest
      {
        var group :| group in rest;
        var metric, source := group.0, group.1;
        var sum := GroupSum(owner, repo, from, metric, source);
        OneMoreGroup(hours, owner, repo, from, groups - rest, metrics, metric, source);
        assert groups - rest + {(metric, source)} == groups - (rest - {group});
        metrics := WithGroup(metrics, metric, source, sum);
        rest := rest - {group};
      }
      assert groups - rest == groups;
    }
  }

  function Clamp(n: int, low: int, high: int): int {
    if n > high then high else if n < low then low else n
  }

  lemma MetricsOfWindow(t: Hours, owner: string, repo: string, from: int, metrics: map<string, Metric>)
    requires Summarised(t, owner, repo, from, Groups(t, owner, repo, from), metrics)
    ensures forall m :: m in metrics <==>
      exists k :: k in t && k.owner == owner && k.repo == repo && from <= k.bucket && k.metric == m
  {
    forall m
      ensures m in metrics <==> exists k :: k in t && k.owner == owner && k.repo == repo && from <= k.bucket && k.metric == m
    {
      assert MetricRead(t, owner, repo, from, Groups(t, owner, repo, from), metrics, m);
      if m in metrics {
        var s :| (m, s) in Groups(t, owner, repo, from);
      }
      if k :| k in t && k.owner == owner && k.repo == repo && from <= k.bucket && k.metric == m {
        assert (m, k.source) in Groups(t, owner, repo, from);
      }
    }
  }

  lemma NothingSummarised(t: Hours, owner: string, repo: string, from: int)
    ensures Summarised(t, owner, repo, from, {}, map[])
  {
  }

  /**
   * What a summary shows is what was flushed: for any split of the deltas into flushes, in any
   * order, each metric's total is the sum of its deltas in the window for that owner and repo.
   */
  lemma SummaryShowsTheDeltas(batches: seq<seq<Delta>>, deltas: seq<Delta>, owner: string, repo: string, from: int,
                              metrics: map<string, Metric>, m: string)
    requires multiset(Concat(batches)) == multiset(deltas)
    requires var t := FlushedInBatches(map[], batches); Summarised(t, owner, repo, from, Groups(t, owner, repo, from), metrics)
    ensures m in metrics ==>
      metrics[m].total == DeltaTotal(deltas, (k: CellKey) => k.owner == owner && k.repo == repo && from <= k.bucket && k.metric == m)
    ensures m in metrics ==> forall s :: s in metrics[m].bySource ==>
      && s != ""
      && metrics[m].bySource[s] ==
           DeltaTotal(deltas, (k: CellKey) => k.owner == owner && k.repo == repo && from <= k.bucket && k.metric == m && k.source == s)
    ensures m in metrics <==> exists i :: 0 <= i < |deltas| && deltas[i].key.owner == owner && deltas[i].key.repo == repo &&
                                          from <= deltas[i].key.bucket && deltas[i].key.metric == m
  {
    hide DeltaTotal, Total, Flushed, FlushedInBatches;
    var t := FlushedInBatches(map[], batches);
    BatchingDoesNotMatter(map[], batches);
    OrderDoesNotMatter(map[], Concat(batches), deltas);
    FromNothing(deltas, OfMetric(owner, repo, from, m));
    FlushedKeys(deltas);
    var groups := Groups(t, owner, repo, from);
    assert MetricRead(t, owner, repo, from, groups, metrics, m);
    SameSelection(deltas, OfMetric(owner, repo, from, m),
                  (k: CellKey) => k.owner == owner && k.repo == repo && from <= k.bucket && k.metric == m);
    if m in metrics {
      assert RowsRead(t, owner, repo, from, m, groups) == Rows(t, OfMetric(owner, repo, from, m));
      forall s | s in metrics[m].bySource
        ensures s != "" && metrics[m].bySource[s] ==
          DeltaTotal(deltas, (k: CellKey) => k.owner == owner && k.repo == repo && from <= k.bucket && k.metric == m && k.source == s)
      {
        FromNothing(deltas, OfSource(owner, repo, from, m, s));
        SameSelection(deltas, OfSource(owner, repo, from, m, s),
                      (k: CellKey) => k.owner == owner && k.repo == repo && from <= k.bucket && k.metric == m && k.source == s);
      }
      var s :| (m, s) in groups;
      var k :| k in t && InWindow(k, owner, repo, from) && (k.metric, k.source) == (m, s);
    }
    if i :| 0 <= i < |deltas| && InWindow(deltas[i].key, owner, repo, from) && deltas[i].key.metric == m {
      assert (m, deltas[i].key.source) in groups;
    }
  }

  lemma {:induction false} SameSelection(deltas: seq<Delta>, p: CellKey -> bool, q: CellKey -> bool)
    requires forall k :: p(k) == q(k)
    ensures DeltaTotal(deltas, p) == DeltaTotal(deltas, q)
    decreases |deltas|
  {
    if deltas != [] {
      SameSelection(deltas[..|deltas| - 1], p, q);
    }
  }

  lemma FromNothing(deltas: seq<Delta>, p: CellKey -> bool)
    ensures Total(Rows(Flushed(map[], deltas), p), Flushed(map[], deltas)) == DeltaTotal(deltas, p)
  {
    FlushConserves(map[], deltas, p);
    assert Rows(map[], p) == {};
    EmptyTotal(map[]);
    PlusRearranges(DeltaTotal(deltas, p), ZERO, ZERO);
  }

  lemma {:induction false} FlushedKeys(deltas: seq<Delta>)
    ensures forall k :: k in Flushed(map[], deltas) <==> exists i :: 0 <= i < |deltas| && deltas[i].key == k
    decreases |deltas|
  {
    if deltas != [] {
      var earlier, last := deltas[..|deltas| - 1], deltas[|deltas| - 1];
      FlushedKeys(earlier);
      forall k
        ensures k in Flushed(map[], deltas) <==> exists i :: 0 <= i < |deltas| && deltas[i].key == k
      {
        if k in Flushed(map[], earlier) {
          var i :| 0 <= i < |earlier| && earlier[i].key == k;
          assert deltas[i].key == k;
        }
        if k == last.key {
          assert deltas[|deltas| - 1].key == k;
        }
        if i :| 0 <= i < |deltas| - 1 && deltas[i].key == k {
          assert earlier[i].key == k;
        }
      }
    }
  }
}
