/**
 * The startup backfill: which entities need (re-)embedding, the three windowed phases, and the
 * chunked insert-or-revive writes.
 */
module Backfill {
  import opened Options
  import opened QueueTable
  import opened LeaseProtocol
  import opened OrderBy
  import opened OutboxModel

  /** The provenance columns of a vector row. */
  datatype Vector = Vector(hash: Option<Hash>, version: Option<int>)

  type Vectors = map<Key, Vector>

  /** An embeddable entity as the candidate SELECT sees it, with the payload built from its current row. */
  datatype Entity = Entity(payload: Payload, repo: string, updatedAt: int)

  /** Active memories, standards and non-canceled tasks. */
  type Corpus = map<Key, Entity>

  /** Missing, never stamped, or stamped by another model: what the ORDER BY puts first. */
  predicate Flagged(v: Vectors, version: int, k: Key) {
    k !in v || v[k].hash.None? || v[k].version != Some(version)
  }

  predicate NeedsReembed(v: Vectors, version: int, k: Key, payload: Payload) {
    if k !in v then true
    else if v[k].version != Some(version) then true
    else v[k].hash.None? || v[k].hash.value != ContentHash(payload)
  }

  function Needing(c: Corpus, v: Vectors, version: int): set<Key> {
    set k | k in c && NeedsReembed(v, version, k, c[k].payload)
  }

  function FlaggedIn(c: Corpus, v: Vectors, version: int): set<Key> {
    set k | k in c && Flagged(v, version, k)
  }

  /** The vector is there, made from the current content by the current model. */
  predicate UpToDate(c: Corpus, v: Vectors, version: int, k: Key)
    requires k in c
  {
    k in v && v[k] == Vector(Some(ContentHash(c[k].payload)), Some(version))
  }

  /** The vector is there and stamped, by the current model, be its content out of date. */
  predicate Stamped(v: Vectors, version: int, k: Key) {
    k in v && v[k].hash.Some? && v[k].version == Some(version)
  }

  /** An entity needs embedding exactly when its vector is not up to date, and is flagged exactly when it is not stamped. */
  lemma NeedingIff(c: Corpus, v: Vectors, version: int, k: Key)
    ensures k in Needing(c, v, version) <==> k in c && !UpToDate(c, v, version, k)
    ensures k in FlaggedIn(c, v, version) <==> k in c && !Stamped(v, version, k)
  {
  }

  // --- the candidate window of one phase ---

  function OfKind(c: Corpus, kind: Kind): set<Key> {
    set k | k in c && k.kind == kind
  }

  /** ORDER BY (vector missing) DESC, (unstamped or other version) DESC, updated_at DESC. */
  predicate MoreUrgent(c: Corpus, v: Vectors, version: int, k: Key, l: Key) {
    && k in c && l in c
    && if (k !in v) != (l !in v) then k !in v
       else if Flagged(v, version, k) != Flagged(v, version, l) then Flagged(v, version, k)
       else c[k].updatedAt >= c[l].updatedAt
  }

  function ByUrgency(c: Corpus, v: Vectors, version: int): (Key, Key) -> bool {
    (k, l) => MoreUrgent(c, v, version, k, l)
  }

  ghost predicate IsWindow(c: Corpus, v: Vectors, version: int, kind: Kind, limit: nat, w: seq<Key>) {
    IsTop(OfKind(c, kind), ByUrgency(c, v, version), limit, w)
  }

  /** The urgency class: missing, not stamped, stamped. */
  function Class(v: Vectors, version: int, k: Key): nat {
    if k !in v then 0 else if !Stamped(v, version, k) then 1 else 2
  }

  /** In a window, and before what it leaves out, missing vectors come first, then unstamped ones, then the latest updates. */
  lemma WindowOrder(c: Corpus, v: Vectors, version: int, kind: Kind, limit: nat, w: seq<Key>)
    requires IsWindow(c, v, version, kind, limit, w)
    ensures |w| <= limit && forall k :: k in w ==> k in c && k.kind == kind
    ensures forall i, l :: 0 <= i < |w| && l in c && l.kind == kind && (l !in w || l in w[i + 1..]) ==>
      Class(v, version, w[i]) <= Class(v, version, l)
      && (Class(v, version, w[i]) == Class(v, version, l) ==> c[w[i]].updatedAt >= c[l].updatedAt)
  {
    forall k | k in w
      ensures k in c && k.kind == kind
    {
      assert k in OfKind(c, kind);
    }
    forall i, l | 0 <= i < |w| && l in c && l.kind == kind && (l !in w || l in w[i + 1..])
      ensures MoreUrgent(c, v, version, w[i], l)
    {
      if l in w[i + 1..] {
        var j :| 0 <= j < |w[i + 1..]| && w[i + 1..][j] == l;
        assert w[i + 1 + j] == l;
      } else {
        assert w[i] in w && l in OfKind(c, kind);
      }
      assert ByUrgency(c, v, version)(w[i], l);
    }
  }

  /** The candidates of a window that genuinely need embedding, as queue inputs. */
  function Inputs(c: Corpus, v: Vectors, version: int, w: seq<Key>): (r: seq<JobInput>)
    requires forall k :: k in w ==> k in c
  {
    if w == [] then []
    else
      var k := w[|w| - 1];
      var rest := Inputs(c, v, version, w[..|w| - 1]);
      if NeedsReembed(v, version, k, c[k].payload) then rest + [JobInput(k, c[k].repo, c[k].payload)] else rest
  }

  function InputKeys(inputs: seq<JobInput>): seq<Key> {
    seq(|inputs|, i requires 0 <= i < |inputs| => inputs[i].key)
  }

  lemma {:induction false} InputsOfWindow(c: Corpus, v: Vectors, version: int, w: seq<Key>)
    requires Distinct(w) && forall k :: k in w ==> k in c
    ensures var r := Inputs(c, v, version, w);
            && |r| <= |w|
            && Distinct(InputKeys(r))
            && (forall i :: 0 <= i < |r| ==>
                  r[i].key in w && NeedsReembed(v, version, r[i].key, c[r[i].key].payload) && r[i].payload == c[r[i].key].payload)
            && (forall k :: k in w && NeedsReembed(v, version, k, c[k].payload) ==> k in InputKeys(r))
    decreases |w|
  {
    if w != [] {
      var k := w[|w| - 1];
      var shorter := w[..|w| - 1];
      assert w == shorter + [k];
      InputsOfWindow(c, v, version, shorter);
      var rest := Inputs(c, v, version, shorter);
      var r := Inputs(c, v, version, w);
      forall i | 0 <= i < |rest|
        ensures rest[i].key != k
      {
        assert rest[i].key in shorter;
      }
      assert forall i :: 0 <= i < |rest| ==> InputKeys(r)[i] == InputKeys(rest)[i];
      if r != rest {
        assert InputKeys(r)[|rest|] == k;
      }
      forall l | l in w && NeedsReembed(v, version, l, c[l].payload)
        ensures l in InputKeys(r)
      {
        if l != k {
          assert l in InputKeys(rest);
          var i :| 0 <= i < |rest| && InputKeys(rest)[i] == l;
          assert InputKeys(r)[i] == l;
        }
      }
    }
  }

  // --- the writes ---

  /** The first `m` inputs, one insert-or-revive after the other; the i-th draws the i-th random id. */
  function EnqueueEach(t: Table, inputs: seq<JobInput>, m: nat, uuid: nat -> string, drawn: nat, now: int): Table
    requires m <= |inputs|
  {
    if m == 0 then t
    else EnqueueIfAbsent(EnqueueEach(t, inputs, m - 1, uuid, drawn, now), inputs[m - 1], uuid(drawn + m - 1), now)
  }

  /** How many of them insert or revive a row. */
  function Accepted(t: Table, inputs: seq<JobInput>, m: nat, uuid: nat -> string, drawn: nat, now: int): nat
    requires m <= |inputs|
  {
    if m == 0 then 0
    else
      Accepted(t, inputs, m - 1, uuid, drawn, now) +
      if BackfillApplies(EnqueueEach(t, inputs, m - 1, uuid, drawn, now), inputs[m - 1].key) then 1 else 0
  }

  /** A row as an accepted backfill leaves it. */
  predicate QueuedFresh(row: Row, payload: Payload) {
    && row.status.Pending? && row.payload == payload && row.contentHash == Some(ContentHash(payload))
    && row.attempts == 0 && row.leaseUntil.None? && row.lockedBy.None? && row.backoffUntil.None? && row.lastError.None?
  }

  /**
   * What the writes do to the table, row by row: pending, claimed and poison rows keep every
   * field, absent and done ones are queued with the current payload, nothing else changes.
   */
  ghost predicate BackfillEffect(t: Table, after: Table, inputs: seq<JobInput>) {
    && (forall k :: k in after <==> k in t || k in InputKeys(inputs))
    && (forall k :: k in t && (!t[k].status.Done? || k !in InputKeys(inputs)) ==> after[k] == t[k])
    && (forall i :: 0 <= i < |inputs| && BackfillApplies(t, inputs[i].key) ==>
          inputs[i].key in after && QueuedFresh(after[inputs[i].key], inputs[i].payload))
  }

  lemma EffectStep(t: Table, mid: Table, shorter: seq<JobInput>, input: JobInput, id: string, now: int)
    requires BackfillEffect(t, mid, shorter) && input.key !in InputKeys(shorter)
    ensures BackfillEffect(t, EnqueueIfAbsent(mid, input, id, now), shorter + [input])
    ensures BackfillApplies(mid, input.key) == BackfillApplies(t, input.key)
  {
    var inputs := shorter + [input];
    var after := EnqueueIfAbsent(mid, input, id, now);
    assert InputKeys(inputs) == InputKeys(shorter) + [input.key];
    forall i | 0 <= i < |inputs| && BackfillApplies(t, inputs[i].key)
      ensures inputs[i].key in after && QueuedFresh(after[inputs[i].key], inputs[i].payload)
    {
      if i < |shorter| {
        assert inputs[i] == shorter[i] && InputKeys(shorter)[i] == shorter[i].key;
      }
    }
  }

  /** The entities whose inputs insert or revive a row. */
  function Taken(t: Table, inputs: seq<JobInput>): set<Key> {
    set i | 0 <= i < |inputs| && BackfillApplies(t, inputs[i].key) :: inputs[i].key
  }

  lemma TakenByKey(t: Table, inputs: seq<JobInput>)
    ensures forall k :: k in Taken(t, inputs) <==> k in InputKeys(inputs) && BackfillApplies(t, k)
  {
    forall k | k in InputKeys(inputs) && BackfillApplies(t, k)
      ensures k in Taken(t, inputs)
    {
      var i :| 0 <= i < |inputs| && InputKeys(inputs)[i] == k;
      assert inputs[i].key == k;
    }
    forall i | 0 <= i < |inputs|
      ensures inputs[i].key in InputKeys(inputs)
    {
      assert InputKeys(inputs)[i] == inputs[i].key;
    }
  }

  lemma TakenStep(t: Table, shorter: seq<JobInput>, input: JobInput)
    requires input.key !in InputKeys(shorter)
    ensures |Taken(t, shorter + [input])| == |Taken(t, shorter)| + if BackfillApplies(t, input.key) then 1 else 0
  {
    hide Taken, BackfillApplies;
    var inputs := shorter + [input];
    assert InputKeys(inputs) == InputKeys(shorter) + [input.key];
    TakenByKey(t, shorter);
    TakenByKey(t, inputs);
    forall k
      ensures k in Taken(t, inputs) <==> k in Taken(t, shorter) || (k == input.key && BackfillApplies(t, input.key))
    {
      assert k in InputKeys(inputs) <==> k in InputKeys(shorter) || k == input.key;
    }
    if BackfillApplies(t, input.key) {
      assert Taken(t, inputs) == Taken(t, shorter) + {input.key};
    } else {
      assert Taken(t, inputs) == Taken(t, shorter);
    }
  }

  lemma NothingTaken(t: Table)
    ensures BackfillEffect(t, t, []) && Taken(t, []) == {}
  {
  }

  lemma {:induction false} EnqueueEachEffect(t: Table, inputs: seq<JobInput>, m: nat, uuid: nat -> string, drawn: nat, now: int)
    requires m <= |inputs| && Distinct(InputKeys(inputs))
    ensures BackfillEffect(t, EnqueueEach(t, inputs, m, uuid, drawn, now), inputs[..m])
    ensures Accepted(t, inputs, m, uuid, drawn, now) == |Taken(t, inputs[..m])| <= m
  {
    hide Taken, BackfillEffect, EnqueueIfAbsent, BackfillApplies;
    if m == 0 {
      NothingTaken(t);
    } else {
      var shorter, last := inputs[..m - 1], inputs[m - 1];
      assert inputs[..m] == shorter + [last];
      EnqueueEachEffect(t, inputs, m - 1, uuid, drawn, now);
      forall i | 0 <= i < |shorter|
        ensures InputKeys(shorter)[i] != last.key
      {
        assert InputKeys(inputs)[i] != InputKeys(inputs)[m - 1];
      }
      EffectStep(t, EnqueueEach(t, inputs, m - 1, uuid, drawn, now), shorter, last, uuid(drawn + m - 1), now);
      TakenStep(t, shorter, last);
    }
  }

  // --- the whole pass ---

  /**
   * What the three phases picked and did: their candidate windows (empty for a skipped phase),
   * the tables in between, and the rows each accepted.
   */
  datatype Trace = Trace(memories: seq<Key>, standards: seq<Key>, tasks: seq<Key>, t1: Table, t2: Table,
                         n1: nat, n2: nat, n3: nat)

  /** The store the backfill reads and writes: the queue, the entities and the vectors. */
  datatype View = View(corpus: Corpus, vectors: Vectors, version: int)

  function PhaseInputs(view: View, w: seq<Key>): seq<JobInput>
    requires forall k :: k in w ==> k in view.corpus
  {
    Inputs(view.corpus, view.vectors, view.version, w)
  }

  /** `t -> after` is one phase over window `w`, counting `n` accepted rows. */
  ghost predicate Phase(view: View, kind: Kind, limit: nat, w: seq<Key>, t: Table, after: Table, n: nat) {
    && IsWindow(view.corpus, view.vectors, view.version, kind, limit, w)
    && (forall k :: k in w ==> k in view.corpus)
    && BackfillEffect(t, after, PhaseInputs(view, w))
    && n == |Taken(t, PhaseInputs(view, w))| <= |PhaseInputs(view, w)| <= limit
  }

  ghost predicate PhaseOrSkip(view: View, kind: Kind, cap: nat, sofar: nat, w: seq<Key>, t: Table, after: Table, n: nat) {
    if sofar < cap then Phase(view, kind, cap - sofar, w, t, after, n)
    else w == [] && after == t && n == 0
  }

  /** A backfill that the gate let through. */
  ghost predicate Pass(view: View, cap: nat, tr: Trace, t: Table, after: Table, enqueued: nat) {
    && PhaseOrSkip(view, Memory, cap, 0, tr.memories, t, tr.t1, tr.n1)
    && PhaseOrSkip(view, Standard, cap, tr.n1, tr.standards, tr.t1, tr.t2, tr.n2)
    && PhaseOrSkip(view, Task, cap, tr.n1 + tr.n2, tr.tasks, tr.t2, after, tr.n3)
    && enqueued == tr.n1 + tr.n2 + tr.n3
  }

  /**
   * No row goes, only done rows change, and whatever is new or changed is a fresh job of an entity
   * whose vector is not up to date, with its current payload.
   */
  ghost predicate QueuesOutdated(view: View, t: Table, after: Table) {
    && (forall k :: k in t ==> k in after && (after[k] == t[k] || t[k].status.Done?))
    && (forall k :: k in after && (k !in t || after[k] != t[k]) ==>
          k in view.corpus && !UpToDate(view.corpus, view.vectors, view.version, k) && QueuedFresh(after[k], view.corpus[k].payload))
  }

  lemma PhaseQueuesOutdated(view: View, kind: Kind, cap: nat, sofar: nat, w: seq<Key>, t: Table, after: Table, n: nat)
    requires PhaseOrSkip(view, kind, cap, sofar, w, t, after, n)
    ensures QueuesOutdated(view, t, after)
  {
    if sofar < cap {
      InputsOfWindow(view.corpus, view.vectors, view.version, w);
      var inputs := PhaseInputs(view, w);
      forall k | k in after && (k !in t || after[k] != t[k])
        ensures k in view.corpus && !UpToDate(view.corpus, view.vectors, view.version, k) && QueuedFresh(after[k], view.corpus[k].payload)
      {
        assert k in InputKeys(inputs) && BackfillApplies(t, k);
        var i :| 0 <= i < |inputs| && InputKeys(inputs)[i] == k;
        assert inputs[i].key == k;
        NeedingIff(view.corpus, view.vectors, view.version, k);
      }
    }
  }

  lemma NothingQueuesOutdated(view: View, t: Table)
    ensures QueuesOutdated(view, t, t)
  {
  }

  lemma QueuesOutdatedThenMore(view: View, t: Table, mid: Table, after: Table)
    requires QueuesOutdated(view, t, mid) && QueuesOutdated(view, mid, after)
    ensures QueuesOutdated(view, t, after)
  {
  }

  lemma PassQueuesOutdated(view: View, cap: nat, tr: Trace, t: Table, after: Table, enqueued: nat)
    requires Pass(view, cap, tr, t, after, enqueued)
    ensures QueuesOutdated(view, t, after)
  {
    hide QueuesOutdated, PhaseOrSkip;
    PhaseQueuesOutdated(view, Memory, cap, 0, tr.memories, t, tr.t1, tr.n1);
    PhaseQueuesOutdated(view, Standard, cap, tr.n1, tr.standards, tr.t1, tr.t2, tr.n2);
    PhaseQueuesOutdated(view, Task, cap, tr.n1 + tr.n2, tr.tasks, tr.t2, after, tr.n3);
    QueuesOutdatedThenMore(view, t, tr.t1, tr.t2);
    QueuesOutdatedThenMore(view, t, tr.t2, after);
  }

  class BackfillStore {
    const db: QueueDb
    var view: View

    constructor (db: QueueDb, view: View)
      ensures this.db == db && this.view == view
    {
      this.db, this.view := db, view;
    }

    method InsertOrRevive(input: JobInput) returns (changed: bool)
      requires db.Valid()
      modifies db
      ensures db.Valid() && db.now == old(db.now) && db.drawn == old(db.drawn) + 1
      ensures changed <==> BackfillApplies(old(db.jobs), input.key)
      ensures db.jobs == EnqueueIfAbsent(old(db.jobs), input, db.uuid(old(db.drawn)), db.now)
    {
      changed := BackfillApplies(db.jobs, input.key);
      if changed {
        db.UpsertJob(input);
      } else {
        var _ := db.DrawId();
      }
    }

    /** One transaction: the inputs from `lo` to `hi`. */
    method WriteChunk(inputs: seq<JobInput>, lo: nat, hi: nat, ghost t: Table, ghost drawn: nat) returns (inserted: nat)
      requires lo <= hi <= |inputs| && db.Valid() && db.drawn == drawn + lo
      requires db.jobs == EnqueueEach(t, inputs, lo, db.uuid, drawn, db.now)
      modifies db
      ensures db.Valid() && db.now == old(db.now) && db.drawn == drawn + hi
      ensures db.jobs == EnqueueEach(t, inputs, hi, db.uuid, drawn, db.now)
      ensures Accepted(t, inputs, lo, db.uuid, drawn, db.now) + inserted == Accepted(t, inputs, hi, db.uuid, drawn, db.now)
    {
      inserted := 0;
      var j := lo;
      while j < hi
        invariant lo <= j <= hi
        invariant db.Valid() && db.now == old(db.now) && db.drawn == drawn + j
        invariant db.jobs == EnqueueEach(t, inputs, j, db.uuid, drawn, db.now)
        invariant Accepted(t, inputs, lo, db.uuid, drawn, db.now) + inserted == Accepted(t, inputs, j, db.uuid, drawn, db.now)
      {
        var changed := InsertOrRevive(inputs[j]);
        if changed {
          inserted := inserted + 1;
        }
        j := j + 1;
      }
    }

    /** At most 200 rows per transaction; the table ends up as if they were inserted one by one. */
    method EnqueueInChunks(inputs: seq<JobInput>) returns (inserted: nat)
      requires db.Valid()
      modifies db
      ensures db.Valid() && db.now == old(db.now) && db.drawn == old(db.drawn) + |inputs|
      ensures db.jobs == EnqueueEach(old(db.jobs), inputs, |inputs|, db.uuid, old(db.drawn), db.now)
      ensures inserted == Accepted(old(db.jobs), inputs, |inputs|, db.uuid, old(db.drawn), db.now)
    {
      ghost var t, drawn := db.jobs, db.drawn;
      inserted := 0;
      var i := 0;
      while i < |inputs|
        invariant 0 <= i <= |inputs|
        invariant db.Valid() && db.now == old(db.now) && db.drawn == drawn + i
        invariant db.jobs == EnqueueEach(t, inputs, i, db.uuid, drawn, db.now)
        invariant inserted == Accepted(t, inputs, i, db.uuid, drawn, db.now)
        decreases |inputs| - i
      {
        var hi := if i + 200 <= |inputs| then i + 200 else |inputs|;
        var chunk := WriteChunk(inputs, i, hi, t, drawn);
        inserted := inserted + chunk;
        i := hi;
      }
    }

    method RunPhase(kind: Kind, limit: nat) returns (n: nat, w: seq<Key>)
      requires db.Valid()
      modifies db
      ensures db.Valid() && db.now == old(db.now)
      ensures Phase(view, kind, limit, w, old(db.jobs), db.jobs, n)
    {
      UrgencyOrders(view.corpus, view.vectors, view.version, kind);
      w := SelectLimit(OfKind(view.corpus, kind), ByUrgency(view.corpus, view.vectors, view.version), limit);
      assert forall k :: k in w ==> k in OfKind(view.corpus, kind);
      InputsOfWindow(view.corpus, view.vectors, view.version, w);
      var inputs := PhaseInputs(view, w);
      EnqueueEachEffect(db.jobs, inputs, |inputs|, db.uuid, db.drawn, db.now);
      assert inputs[..|inputs|] == inputs;
      n := EnqueueInChunks(inputs);
    }

    method PhaseIfBudget(kind: Kind, cap: nat, sofar: nat) returns (n: nat, w: seq<Key>)
      requires db.Valid()
      modifies db
      ensures db.Valid() && db.now == old(db.now)
      ensures PhaseOrSkip(view, kind, cap, sofar, w, old(db.jobs), db.jobs, n)
    {
      n, w := 0, [];
      if sofar < cap {
        n, w := RunPhase(kind, cap - sofar);
      }
    }

    method BackfillMissingVectors(cap: int, minPendingClaimed: int) returns (enqueued: nat, ghost tr: Trace)
      requires db.Valid()
      modifies db
      ensures db.Valid() && db.now == old(db.now)
      ensures Gated(old(db.jobs), cap, minPendingClaimed) ==> enqueued == 0 && db.jobs == old(db.jobs)
      ensures Gated(old(db.jobs), cap, minPendingClaimed) <==>
        cap <= 0 || minPendingClaimed <= |set k | k in old(db.jobs) && (old(db.jobs)[k].status.Pending? || old(db.jobs)[k].status.Claimed?)|
      ensures QueuesOutdated(view, old(db.jobs), db.jobs)
      ensures !Gated(old(db.jobs), cap, minPendingClaimed) ==> Pass(view, cap, tr, old(db.jobs), db.jobs, enqueued)
    {
      hide QueuesOutdated, PhaseOrSkip, IdsOk;
      NothingQueuesOutdated(view, db.jobs);
      OpenRowsCount(db.jobs);
      tr := Trace([], [], [], db.jobs, db.jobs, 0, 0, 0);
      if cap <= 0 {
        return 0, tr;
      }
      var counts := CountByStatus(db.jobs);
      WholeTableCounts(db.jobs);
      if counts.pending + counts.claimed >= minPendingClaimed {
        return 0, tr;
      }
      var n1, w1 := PhaseIfBudget(Memory, cap, 0);
      ghost var t1 := db.jobs;
      var n2, w2 := PhaseIfBudget(Standard, cap, n1);
      ghost var t2 := db.jobs;
      var n3, w3 := PhaseIfBudget(Task, cap, n1 + n2);
      PassQueuesOutdated(view, cap, Trace(w1, w2, w3, t1, t2, n1, n2, n3), old(db.jobs), db.jobs, n1 + n2 + n3);
      tr := Trace(w1, w2, w3, t1, t2, n1, n2, n3);
      enqueued := n1 + n2 + n3;
    }
  }

  /** The backfill does nothing: no budget, or enough pending and claimed rows already. */
  ghost predicate Gated(t: Table, cap: int, minPendingClaimed: int) {
    cap <= 0 || |set k | k in t && t[k].status.Pending?| + |set k | k in t && t[k].status.Claimed?| >= minPendingClaimed
  }

  /** Pending and claimed rows together. */
  lemma OpenRowsCount(t: Table)
    ensures |set k | k in t && (t[k].status.Pending? || t[k].status.Claimed?)|
         == |set k | k in t && t[k].status.Pending?| + |set k | k in t && t[k].status.Claimed?|
  {
    var a, b := set k | k in t && t[k].status.Pending?, set k | k in t && t[k].status.Claimed?;
    assert a !! b && (set k | k in t && (t[k].status.Pending? || t[k].status.Claimed?)) == a + b;
  }

  lemma WholeTableCounts(t: Table)
    ensures WithStatus(t.Keys, t, Pending) == set k | k in t && t[k].status.Pending?
    ensures WithStatus(t.Keys, t, Claimed) == set k | k in t && t[k].status.Claimed?
  {
  }

  lemma UrgencyOrders(c: Corpus, v: Vectors, version: int, kind: Kind)
    ensures OrdersAll(OfKind(c, kind), ByUrgency(c, v, version))
  {
  }
}
