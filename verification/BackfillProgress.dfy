/**
 * What rounds of backfill and drain achieve: safety and bounds of one pass, exactly when a pass
 * finds work, progress towards a fully embedded corpus with poison rows about, and how it stalls.
 */
module BackfillProgress {
  import opened Options
  import opened QueueTable
  import opened OrderBy
  import opened Backfill
  import opened Worker

  // --- one pass ---

  /** At most `cap` rows, whatever the three phases find. */
  lemma PassIsBounded(view: View, cap: nat, tr: Trace, t: Table, after: Table, enqueued: nat)
    requires Pass(view, cap, tr, t, after, enqueued)
    ensures enqueued <= cap
  {
  }

  /** Pending, claimed and poison rows keep every field; no row goes; only done rows are revived. */
  lemma PassIsSafe(view: View, cap: nat, tr: Trace, t: Table, after: Table, enqueued: nat)
    requires Pass(view, cap, tr, t, after, enqueued)
    ensures forall k :: k in t ==> k in after && (after[k] == t[k] || (t[k].status.Done? && after[k].status.Pending?))
  {
    forall k | k in t
      ensures k in after && (after[k] == t[k] || (t[k].status.Done? && after[k].status.Pending?))
    {
      PhaseIsSafe(view, Memory, cap, 0, tr.memories, t, tr.t1, tr.n1, k);
      PhaseIsSafe(view, Standard, cap, tr.n1, tr.standards, tr.t1, tr.t2, tr.n2, k);
      PhaseIsSafe(view, Task, cap, tr.n1 + tr.n2, tr.tasks, tr.t2, after, tr.n3, k);
    }
  }

  lemma PhaseIsSafe(view: View, kind: Kind, cap: nat, sofar: nat, w: seq<Key>, t: Table, after: Table, n: nat, k: Key)
    requires PhaseOrSkip(view, kind, cap, sofar, w, t, after, n) && k in t
    ensures k in after && (after[k] == t[k] || (t[k].status.Done? && after[k].status.Pending?))
  {
    if sofar < cap && t[k].status.Done? && k in InputKeys(PhaseInputs(view, w)) {
      var i :| 0 <= i < |PhaseInputs(view, w)| && InputKeys(PhaseInputs(view, w))[i] == k;
    }
  }

  // --- tables at rest, and what a pass queues from one ---

  /** Every row is done or poison: a full drain leaves the table like this. */
  ghost predicate Resting(t: Table) {
    forall k :: k in t ==> t[k].status.Done? || t[k].status.Poison?
  }

  ghost predicate KindAtRest(t: Table, kind: Kind) {
    forall k :: k in t && k.kind == kind ==> t[k].status.Done? || t[k].status.Poison?
  }

  function Poisoned(t: Table): set<Key> {
    set k | k in t && t[k].status.Poison?
  }

  /** It needs embedding, and no poison row stands in the way. */
  predicate Open(view: View, t: Table, k: Key) {
    k in view.corpus && NeedsReembed(view.vectors, view.version, k, view.corpus[k].payload) && BackfillApplies(t, k)
  }

  /** The entities a phase puts forward and the table takes. */
  ghost function PickedFrom(view: View, kind: Kind, w: seq<Key>, t: Table): set<Key> {
    set k | k in w && k.kind == kind && Open(view, t, k)
  }

  ghost function Picked(view: View, tr: Trace, t: Table): set<Key> {
    PickedFrom(view, Memory, tr.memories, t) + PickedFrom(view, Standard, tr.standards, t) + PickedFrom(view, Task, tr.tasks, t)
  }

  /** `picked` are queued with their current payloads, and nothing else changes. */
  ghost predicate Queues(c: Corpus, t: Table, after: Table, picked: set<Key>) {
    && (forall k :: k in picked ==> k in c && BackfillApplies(t, k) && k in after && QueuedFresh(after[k], c[k].payload))
    && (forall k :: k !in picked ==> (k in after <==> k in t) && (k in t ==> after[k] == t[k]))
  }

  lemma QueuesThenMore(c: Corpus, t: Table, mid: Table, after: Table, a: set<Key>, b: set<Key>)
    requires Queues(c, t, mid, a) && Queues(c, mid, after, b) && a !! b
    ensures Queues(c, t, after, a + b)
  {
  }

  lemma InputsAreNeeding(view: View, kind: Kind, limit: nat, w: seq<Key>, k: Key)
    requires IsWindow(view.corpus, view.vectors, view.version, kind, limit, w) && forall l :: l in w ==> l in view.corpus
    ensures k in InputKeys(PhaseInputs(view, w)) <==>
            k in w && k.kind == kind && NeedsReembed(view.vectors, view.version, k, view.corpus[k].payload)
  {
    InputsOfWindow(view.corpus, view.vectors, view.version, w);
    var inputs := PhaseInputs(view, w);
    if k in InputKeys(inputs) {
      var i :| 0 <= i < |inputs| && InputKeys(inputs)[i] == k;
      assert inputs[i].key == k && k in w;
      assert k in OfKind(view.corpus, kind);
    }
  }

  lemma PhaseEffect(view: View, kind: Kind, cap: nat, sofar: nat, w: seq<Key>, t: Table, after: Table, n: nat)
    requires PhaseOrSkip(view, kind, cap, sofar, w, t, after, n) && KindAtRest(t, kind)
    ensures Queues(view.corpus, t, after, PickedFrom(view, kind, w, t))
    ensures n == |PickedFrom(view, kind, w, t)|
  {
    var picked := PickedFrom(view, kind, w, t);
    if sofar < cap {
      var inputs := PhaseInputs(view, w);
      forall k
        ensures k in picked <==> k in InputKeys(inputs) && BackfillApplies(t, k)
      {
        InputsAreNeeding(view, kind, cap - sofar, w, k);
      }
      forall k | k in picked
        ensures k in after && QueuedFresh(after[k], view.corpus[k].payload)
      {
        PickedIsQueued(view, kind, cap - sofar, w, t, after, n, k);
      }
      RestUntouched(view, kind, cap - sofar, w, t, after, picked);
      TakenByKey(t, inputs);
      assert Taken(t, inputs) == picked;
    } else {
      assert picked == {};
    }
  }

  lemma RestUntouched(view: View, kind: Kind, limit: nat, w: seq<Key>, t: Table, after: Table, picked: set<Key>)
    requires IsWindow(view.corpus, view.vectors, view.version, kind, limit, w) && forall k :: k in w ==> k in view.corpus
    requires BackfillEffect(t, after, PhaseInputs(view, w)) && KindAtRest(t, kind)
    requires forall k :: k in picked <==> k in InputKeys(PhaseInputs(view, w)) && BackfillApplies(t, k)
    ensures forall k :: k !in picked ==> (k in after <==> k in t) && (k in t ==> after[k] == t[k])
  {
  }

  lemma PickedIsQueued(view: View, kind: Kind, limit: nat, w: seq<Key>, t: Table, after: Table, n: nat, k: Key)
    requires Phase(view, kind, limit, w, t, after, n) && k in PickedFrom(view, kind, w, t)
    ensures k in after && QueuedFresh(after[k], view.corpus[k].payload)
  {
    InputsAreNeeding(view, kind, limit, w, k);
    InputsOfWindow(view.corpus, view.vectors, view.version, w);
    var inputs := PhaseInputs(view, w);
    var i :| 0 <= i < |inputs| && InputKeys(inputs)[i] == k;
    assert inputs[i].key == k;
  }

  /** Queueing entities of other kinds changes nothing for a phase. */
  lemma OtherKindsOnly(view: View, kind: Kind, w: seq<Key>, t: Table, mid: Table, picked: set<Key>)
    requires Resting(t) && Queues(view.corpus, t, mid, picked) && forall k :: k in picked ==> k.kind != kind
    ensures KindAtRest(mid, kind) && PickedFrom(view, kind, w, mid) == PickedFrom(view, kind, w, t)
  {
    forall k: Key | k.kind == kind
      ensures BackfillApplies(mid, k) <==> BackfillApplies(t, k)
    {
      assert k !in picked;
    }
  }

  /** From a table at rest, a pass queues exactly the picked entities, each with its current payload. */
  lemma PassEffect(view: View, cap: nat, tr: Trace, t: Table, after: Table, enqueued: nat)
    requires Pass(view, cap, tr, t, after, enqueued) && Resting(t)
    ensures Queues(view.corpus, t, after, Picked(view, tr, t))
    ensures tr.n1 == |PickedFrom(view, Memory, tr.memories, t)|
    ensures tr.n2 == |PickedFrom(view, Standard, tr.standards, t)|
    ensures tr.n3 == |PickedFrom(view, Task, tr.tasks, t)|
  {
    hide PhaseOrSkip, Queues, Open;
    var a, b, d := PickedFrom(view, Memory, tr.memories, t), PickedFrom(view, Standard, tr.standards, t), PickedFrom(view, Task, tr.tasks, t);
    PhaseEffect(view, Memory, cap, 0, tr.memories, t, tr.t1, tr.n1);
    OtherKindsOnly(view, Standard, tr.standards, t, tr.t1, a);
    PhaseEffect(view, Standard, cap, tr.n1, tr.standards, tr.t1, tr.t2, tr.n2);
    QueuesThenMore(view.corpus, t, tr.t1, tr.t2, a, b);
    OtherKindsOnly(view, Task, tr.tasks, t, tr.t2, a + b);
    PhaseEffect(view, Task, cap, tr.n1 + tr.n2, tr.tasks, tr.t2, after, tr.n3);
    QueuesThenMore(view.corpus, t, tr.t2, after, a + b, d);
  }

  // --- what a window shows ---

  /** The entities of the same kind that strictly come before `k`. */
  ghost function Ahead(view: View, k: Key): set<Key> {
    set l | l in view.corpus && l.kind == k.kind && MoreUrgent(view.corpus, view.vectors, view.version, l, k)
            && !MoreUrgent(view.corpus, view.vectors, view.version, k, l)
  }

  /** Those that may come before it: the tied ones as well. */
  ghost function NotBehind(view: View, k: Key): set<Key> {
    set l | l in view.corpus && l.kind == k.kind && l != k && MoreUrgent(view.corpus, view.vectors, view.version, l, k)
  }

  /** No two entities of the kind have the same `updated_at`. */
  ghost predicate Untied(c: Corpus, kind: Kind) {
    forall k, l :: k in c && l in c && k.kind == kind && l.kind == kind && c[k].updatedAt == c[l].updatedAt ==> k == l
  }

  lemma UntiedAhead(view: View, k: Key)
    requires Untied(view.corpus, k.kind) && k in view.corpus
    ensures Ahead(view, k) == NotBehind(view, k)
  {
  }

  lemma {:induction false} SubsetSize(a: set<Key>, b: set<Key>)
    requires a <= b
    ensures |a| <= |b| && (|a| == |b| ==> a == b)
    decreases a
  {
    if a == {} {
      assert |b| == 0 ==> b == {};
    } else {
      var k :| k in a;
      SubsetSize(a - {k}, b - {k});
      assert a == (a - {k}) + {k} && b == (b - {k}) + {k};
    }
  }

  function Members(w: seq<Key>): set<Key> {
    set k | k in w
  }

  /** An entity with fewer than `limit` that may come before it is in the window. */
  lemma EarlyIsInWindow(view: View, kind: Kind, limit: nat, w: seq<Key>, k: Key)
    requires IsWindow(view.corpus, view.vectors, view.version, kind, limit, w) && k in view.corpus && k.kind == kind
    ensures k in w || |NotBehind(view, k)| >= limit
  {
    if k !in w {
      assert k in OfKind(view.corpus, kind);
      DistinctCount(w, Members(w));
      forall l | l in w
        ensures l in NotBehind(view, k)
      {
        assert l in OfKind(view.corpus, kind);
        assert ByUrgency(view.corpus, view.vectors, view.version)(l, k);
      }
      SubsetSize(Members(w), NotBehind(view, k));
    }
  }

  /** An entity in the window has fewer than `limit` strictly before it. */
  lemma InWindowIsEarly(view: View, kind: Kind, limit: nat, w: seq<Key>, k: Key)
    requires IsWindow(view.corpus, view.vectors, view.version, kind, limit, w) && k in w
    ensures k in view.corpus && k.kind == kind && |Ahead(view, k)| < limit
  {
    assert k in OfKind(view.corpus, kind);
    DistinctCount(w, Members(w));
    forall l | l in Ahead(view, k)
      ensures l in Members(w) - {k}
    {
      assert l in OfKind(view.corpus, kind);
      assert l !in w ==> ByUrgency(view.corpus, view.vectors, view.version)(k, l);
    }
    SubsetSize(Ahead(view, k), Members(w) - {k});
  }

  /** An open entity of the kind that fewer than `limit` come before. */
  ghost predicate WithinReach(view: View, t: Table, kind: Kind, limit: nat, k: Key) {
    k.kind == kind && Open(view, t, k) && |Ahead(view, k)| < limit
  }

  /**
   * A phase over done and poison rows enqueues something only if an open entity is within reach of
   * the window; and it does, if one is even counting ties.
   */
  lemma PhaseWork(view: View, kind: Kind, limit: nat, w: seq<Key>, t: Table, after: Table, n: nat)
    requires Phase(view, kind, limit, w, t, after, n) && limit > 0 && KindAtRest(t, kind)
    ensures n > 0 ==> exists k :: WithinReach(view, t, kind, limit, k)
    ensures (exists k: Key :: k.kind == kind && Open(view, t, k) && |NotBehind(view, k)| < limit) ==> n > 0
  {
    hide Open, Phase, IsWindow, Ahead, NotBehind;
    PhaseIsWindow(view, kind, limit, w, t, after, n);
    PhaseEffect(view, kind, limit, 0, w, t, after, n);
    var picked := PickedFrom(view, kind, w, t);
    if n > 0 {
      var k :| k in picked;
      InWindowIsEarly(view, kind, limit, w, k);
      assert WithinReach(view, t, kind, limit, k);
    }
    if k: Key :| k.kind == kind && Open(view, t, k) && |NotBehind(view, k)| < limit {
      OpenIsInCorpus(view, t, k);
      EarlyIsInWindow(view, kind, limit, w, k);
      assert k in picked;
    }
  }

  lemma PhaseIsWindow(view: View, kind: Kind, limit: nat, w: seq<Key>, t: Table, after: Table, n: nat)
    requires Phase(view, kind, limit, w, t, after, n)
    ensures IsWindow(view.corpus, view.vectors, view.version, kind, limit, w)
    ensures limit > 0 ==> PhaseOrSkip(view, kind, limit, 0, w, t, after, n)
  {
  }

  lemma OpenIsInCorpus(view: View, t: Table, k: Key)
    requires Open(view, t, k)
    ensures k in view.corpus
  {
  }

  /** With no ties: exactly when an open entity of the kind lies within the window. */
  lemma PhaseWorksIff(view: View, kind: Kind, limit: nat, w: seq<Key>, t: Table, after: Table, n: nat)
    requires Phase(view, kind, limit, w, t, after, n) && limit > 0 && KindAtRest(t, kind) && Untied(view.corpus, kind)
    ensures n > 0 <==> exists k :: WithinReach(view, t, kind, limit, k)
  {
    hide Open, Phase, Ahead, NotBehind;
    PhaseWork(view, kind, limit, w, t, after, n);
    if k :| WithinReach(view, t, kind, limit, k) {
      OpenIsInCorpus(view, t, k);
      UntiedAhead(view, k);
    }
  }

  /** No open entity is within reach of a window of `cap`. */
  ghost predicate Starved(view: View, t: Table, cap: nat) {
    forall k: Key :: !k.kind.CodebaseSymbol? ==> !WithinReach(view, t, k.kind, cap, k)
  }

  lemma SkippedPhase(view: View, kind: Kind, cap: nat, w: seq<Key>, t: Table, mid: Table, after: Table, n: nat)
    requires cap > 0 && PhaseOrSkip(view, kind, cap, 0, w, mid, after, n) && mid == t && KindAtRest(t, kind)
    ensures (forall k :: !WithinReach(view, t, kind, cap, k)) ==> n == 0 && after == t
    ensures Untied(view.corpus, kind) && n == 0 ==> forall k :: !WithinReach(view, t, kind, cap, k)
  {
    hide Open, Phase, Ahead;
    PhaseWork(view, kind, cap, w, t, after, n);
    PhaseEffect(view, kind, cap, 0, w, t, after, n);
    if n == 0 {
      NothingQueued(view.corpus, t, after);
    }
    if Untied(view.corpus, kind) {
      PhaseWorksIff(view, kind, cap, w, t, after, n);
    }
  }

  lemma NothingQueued(c: Corpus, t: Table, after: Table)
    requires Queues(c, t, after, {})
    ensures after == t
  {
  }

  lemma StarvedKind(view: View, t: Table, cap: nat, kind: Kind)
    requires Starved(view, t, cap) && !kind.CodebaseSymbol?
    ensures forall k :: !WithinReach(view, t, kind, cap, k)
  {
    forall k
      ensures !WithinReach(view, t, kind, cap, k)
    {
      assert k.kind == kind ==> !WithinReach(view, t, k.kind, cap, k);
    }
  }

  /** A starved pass does nothing; and, without ties, only a starved one. */
  lemma PassWorksIff(view: View, cap: nat, tr: Trace, t: Table, after: Table, enqueued: nat)
    requires Pass(view, cap, tr, t, after, enqueued) && Resting(t) && cap > 0
    ensures Starved(view, t, cap) ==> enqueued == 0 && after == t
    ensures (forall kind :: Untied(view.corpus, kind)) ==> (enqueued > 0 <==> !Starved(view, t, cap))
  {
    hide PhaseOrSkip, WithinReach, Untied, Starved;
    if Starved(view, t, cap) {
      StarvedKind(view, t, cap, Memory);
      StarvedKind(view, t, cap, Standard);
      StarvedKind(view, t, cap, Task);
    }
    SkippedPhase(view, Memory, cap, tr.memories, t, t, tr.t1, tr.n1);
    if tr.n1 == 0 {
      PhaseSame(view, Memory, cap, tr.memories, t, tr.t1, tr.n1);
      SkippedPhase(view, Standard, cap, tr.standards, t, tr.t1, tr.t2, tr.n2);
      if tr.n2 == 0 {
        PhaseSame(view, Standard, cap, tr.standards, t, tr.t2, tr.n2);
        SkippedPhase(view, Task, cap, tr.tasks, t, tr.t2, after, tr.n3);
      }
    }
    if (forall kind :: Untied(view.corpus, kind)) && enqueued == 0 {
      forall k: Key | !k.kind.CodebaseSymbol?
        ensures !WithinReach(view, t, k.kind, cap, k)
      {
        match k.kind
        case Memory =>
        case Standard =>
        case Task =>
      }
      StarvedByKind(view, t, cap);
    }
  }

  lemma StarvedByKind(view: View, t: Table, cap: nat)
    requires forall k: Key :: !k.kind.CodebaseSymbol? ==> !WithinReach(view, t, k.kind, cap, k)
    ensures Starved(view, t, cap)
  {
  }

  lemma PhaseSame(view: View, kind: Kind, cap: nat, w: seq<Key>, t: Table, after: Table, n: nat)
    requires PhaseOrSkip(view, kind, cap, 0, w, t, after, n) && Resting(t) && n == 0
    ensures after == t
  {
    PhaseEffect(view, kind, cap, 0, w, t, after, n);
    NothingQueued(view.corpus, t, after);
  }

  /** The poison rows of a kind that take places in its window. */
  ghost function PoisonOf(c: Corpus, t: Table, kind: Kind): set<Key> {
    set k | k in c && k.kind == kind && k in Poisoned(t)
  }

  /** A window that leaves out an open flagged entity is full, and of entities picked or in poison. */
  lemma WindowFills(view: View, kind: Kind, limit: nat, w: seq<Key>, t: Table, f: Key)
    requires IsWindow(view.corpus, view.vectors, view.version, kind, limit, w) && Resting(t)
    requires f.kind == kind && Open(view, t, f) && Flagged(view.vectors, view.version, f) && f !in w
    ensures |Members(w)| == limit
    ensures Members(w) <= PickedFrom(view, kind, w, t) + PoisonOf(view.corpus, t, kind)
  {
    assert f in OfKind(view.corpus, kind);
    DistinctCount(w, Members(w));
    forall k | k in w
      ensures k in PickedFrom(view, kind, w, t) + PoisonOf(view.corpus, t, kind)
    {
      assert k in OfKind(view.corpus, kind);
      assert ByUrgency(view.corpus, view.vectors, view.version)(k, f);
    }
  }

  /** A window larger than the poison rows of its kind shows an open entity, if a flagged one is open. */
  lemma WindowShowsFlagged(view: View, kind: Kind, limit: nat, w: seq<Key>, t: Table, f: Key)
    requires IsWindow(view.corpus, view.vectors, view.version, kind, limit, w) && Resting(t)
    requires |PoisonOf(view.corpus, t, kind)| < limit
    requires f.kind == kind && Open(view, t, f) && Flagged(view.vectors, view.version, f)
    ensures PickedFrom(view, kind, w, t) != {}
  {
    if f in w {
      assert f in PickedFrom(view, kind, w, t);
    } else {
      WindowFills(view, kind, limit, w, t, f);
      if PickedFrom(view, kind, w, t) == {} {
        SubsetSize(Members(w), PoisonOf(view.corpus, t, kind));
      }
    }
  }

  /**
   * While a vector is missing, unstamped or of another model and its entity has no poison row, a
   * pass over a table at rest queues something, if the kind has fewer poison rows than the cap.
   */
  lemma FlaggedMeansWork(view: View, cap: nat, tr: Trace, t: Table, after: Table, enqueued: nat, f: Key)
    requires Pass(view, cap, tr, t, after, enqueued) && Resting(t)
    requires |PoisonOf(view.corpus, t, f.kind)| < cap
    requires !f.kind.CodebaseSymbol? && Open(view, t, f) && Flagged(view.vectors, view.version, f)
    ensures enqueued > 0
    ensures Picked(view, tr, t) != {}
  {
    PassEffect(view, cap, tr, t, after, enqueued);
    if enqueued == 0 {
      match f.kind {
        case Memory => WindowShowsFlagged(view, Memory, cap, tr.memories, t, f);
        case Standard => WindowShowsFlagged(view, Standard, cap, tr.standards, t, f);
        case Task => WindowShowsFlagged(view, Task, cap, tr.tasks, t, f);
      }
    }
  }

  /** Once every vector is current, a pass changes nothing. */
  lemma QuietWhenCurrent(view: View, cap: nat, tr: Trace, t: Table, after: Table, enqueued: nat)
    requires Pass(view, cap, tr, t, after, enqueued)
    requires forall k :: k in view.corpus ==> UpToDate(view.corpus, view.vectors, view.version, k)
    ensures enqueued == 0 && after == t
  {
    forall k
      ensures k !in Needing(view.corpus, view.vectors, view.version)
    {
      NeedingIff(view.corpus, view.vectors, view.version, k);
    }
    assert Needing(view.corpus, view.vectors, view.version) == {};
    QuietPhase(view, Memory, cap, 0, tr.memories, t, tr.t1, tr.n1);
    QuietPhase(view, Standard, cap, tr.n1, tr.standards, tr.t1, tr.t2, tr.n2);
    QuietPhase(view, Task, cap, tr.n1 + tr.n2, tr.tasks, tr.t2, after, tr.n3);
  }

  lemma QuietPhase(view: View, kind: Kind, cap: nat, sofar: nat, w: seq<Key>, t: Table, after: Table, n: nat)
    requires PhaseOrSkip(view, kind, cap, sofar, w, t, after, n)
    requires Needing(view.corpus, view.vectors, view.version) == {}
    ensures n == 0 && after == t
  {
    if sofar < cap {
      NoInputs(view, w);
      assert after == t;
    }
  }

  lemma {:induction false} NoInputs(view: View, w: seq<Key>)
    requires forall k :: k in w ==> k in view.corpus
    requires Needing(view.corpus, view.vectors, view.version) == {}
    ensures PhaseInputs(view, w) == []
    decreases |w|
  {
    if w != [] {
      var k := w[|w| - 1];
      NoInputs(view, w[..|w| - 1]);
      assert k !in Needing(view.corpus, view.vectors, view.version);
    }
  }

  // --- rounds: a backfill, then a full drain ---

  /** One round over an unchanged corpus. */
  datatype Round = Round(t: Table, v: Vectors, tr: Trace, queued: Table, enqueued: nat, t': Table, v': Vectors)

  /** The corpus, the model version, the entities drainers find, and the backfill's cap and gate. */
  datatype Plan = Plan(corpus: Corpus, version: int, live: set<Key>, cap: nat, gate: int)

  function ViewOf(p: Plan, v: Vectors): View {
    View(p.corpus, v, p.version)
  }

  /** A gated backfill does nothing, and the round only drains. */
  ghost predicate IsRound(p: Plan, r: Round) {
    && (if Gated(r.t, p.cap, p.gate) then r.queued == r.t && r.enqueued == 0
        else Pass(ViewOf(p, r.v), p.cap, r.tr, r.t, r.queued, r.enqueued))
    && IsDrained(p.live, p.version, r.queued, r.v, r.t', r.v')
  }

  /** Live entities of the kinds that carry vectors, room for at least one row, and a gate that can open. */
  ghost predicate Workable(p: Plan) {
    p.cap >= 1 && p.gate >= 1 && forall k :: k in p.corpus ==> k in p.live && !k.kind.CodebaseSymbol?
  }

  ghost predicate HasTexts(p: Plan) {
    forall k :: k in p.corpus ==> p.corpus[k].payload.text != ""
  }

  lemma RestingNotGated(p: Plan, t: Table)
    requires Resting(t) && Workable(p)
    ensures !Gated(t, p.cap, p.gate)
  {
    assert (set k | k in t && t[k].status.Pending?) == {} && (set k | k in t && t[k].status.Claimed?) == {};
  }

  lemma RestingRound(p: Plan, r: Round)
    requires IsRound(p, r) && Resting(r.t) && Workable(p)
    ensures Pass(ViewOf(p, r.v), p.cap, r.tr, r.t, r.queued, r.enqueued)
    ensures Queues(p.corpus, r.t, r.queued, Picked(ViewOf(p, r.v), r.tr, r.t))
  {
    hide Gated, Pass;
    RestingNotGated(p, r.t);
    PassEffect(ViewOf(p, r.v), p.cap, r.tr, r.t, r.queued, r.enqueued);
  }

  lemma DrainRests(c: Corpus, version: int, live: set<Key>, t: Table, v: Vectors, queued: Table, picked: set<Key>,
                   t': Table, v': Vectors)
    requires Resting(t) && Queues(c, t, queued, picked) && IsDrained(live, version, queued, v, t', v')
    ensures Resting(t') && Poisoned(t') == Poisoned(t)
  {
    forall k
      ensures k in t' ==> t'[k].status.Done? || t'[k].status.Poison?
      ensures k in Poisoned(t') <==> k in Poisoned(t)
    {
      assert k in t' <==> k in queued;
      assert k !in picked ==> (k in queued <==> k in t);
    }
  }

  /** A round leaves the table at rest, with the same poison rows. */
  lemma RoundRests(p: Plan, r: Round)
    requires IsRound(p, r) && Resting(r.t) && Workable(p)
    ensures Resting(r.t') && Poisoned(r.t') == Poisoned(r.t)
  {
    RestingRound(p, r);
    DrainRests(p.corpus, p.version, p.live, r.t, r.v, r.queued, Picked(ViewOf(p, r.v), r.tr, r.t), r.t', r.v');
  }

  /** The windows picked it, the table took it, and its text is not empty. */
  ghost predicate Repaired(p: Plan, r: Round, k: Key) {
    k in p.corpus && k in Picked(ViewOf(p, r.v), r.tr, r.t) && p.corpus[k].payload.text != ""
  }

  lemma DrainRepairs(c: Corpus, version: int, live: set<Key>, t: Table, v: Vectors, queued: Table, picked: set<Key>,
                     t': Table, v': Vectors, k: Key)
    requires Resting(t) && Queues(c, t, queued, picked) && IsDrained(live, version, queued, v, t', v')
    requires k in c && k in live && !k.kind.CodebaseSymbol?
    ensures if k in picked && c[k].payload.text != ""
            then k in v' && v'[k] == Vector(Some(ContentHash(c[k].payload)), Some(version))
            else VectorKept(k, v, v')
  {
    if k in picked {
      assert QueuedFresh(queued[k], c[k].payload);
      assert k in t' && t'[k] != queued[k];
      assert VectorFollows(live, version, k, c[k].payload, v, v');
    } else {
      assert k in queued ==> !queued[k].status.Pending?;
      assert VectorKept(k, v, v');
    }
  }

  /** An entity stops needing an embedding in a round exactly when the round repairs it; flags go the same way. */
  lemma RoundEffect(p: Plan, r: Round, k: Key)
    requires IsRound(p, r) && Resting(r.t) && Workable(p) && k in p.corpus
    ensures k in Needing(p.corpus, r.v', p.version) <==> k in Needing(p.corpus, r.v, p.version) && !Repaired(p, r, k)
    ensures k in FlaggedIn(p.corpus, r.v', p.version) <==> k in FlaggedIn(p.corpus, r.v, p.version) && !Repaired(p, r, k)
  {
    RestingRound(p, r);
    var picked := Picked(ViewOf(p, r.v), r.tr, r.t);
    DrainRepairs(p.corpus, p.version, p.live, r.t, r.v, r.queued, picked, r.t', r.v', k);
    RepairDecides(p.corpus, p.version, r.v, r.v', k, k in picked && p.corpus[k].payload.text != "");
    PickedNeed(ViewOf(p, r.v), r.tr, r.t);
  }

  lemma RepairDecides(c: Corpus, version: int, v: Vectors, v': Vectors, k: Key, repaired: bool)
    requires k in c
    requires if repaired then k in v' && v'[k] == Vector(Some(ContentHash(c[k].payload)), Some(version)) else VectorKept(k, v, v')
    ensures k in Needing(c, v', version) <==> k in Needing(c, v, version) && !repaired
    ensures k in FlaggedIn(c, v', version) <==> k in FlaggedIn(c, v, version) && !repaired
  {
  }

  lemma PickedNeed(view: View, tr: Trace, t: Table)
    ensures forall k :: k in Picked(view, tr, t) ==> k in Needing(view.corpus, view.vectors, view.version) && k !in Poisoned(t)
  {
  }

  /** The order of the phases. */
  function Turn(kind: Kind): nat {
    match kind
    case Memory => 0
    case Standard => 1
    case Task => 2
    case CodebaseSymbol => 3
  }

  /** What the phases up to that of `kind` queue. */
  ghost function PickedUpTo(view: View, tr: Trace, t: Table, kind: Kind): set<Key> {
    set k | k in Picked(view, tr, t) && Turn(k.kind) <= Turn(kind)
  }

  /** With what is left of the cap, a phase leaves out an open flagged entity only if the cap is used up. */
  lemma PhaseFills(view: View, kind: Kind, cap: nat, earlier: set<Key>, w: seq<Key>, t: Table, mid: Table, after: Table, n: nat,
                   f: Key) returns (full: set<Key>)
    requires PhaseOrSkip(view, kind, cap, |earlier|, w, mid, after, n) && Resting(t)
    requires f.kind == kind && Open(view, t, f) && Flagged(view.vectors, view.version, f)
    requires f !in PickedFrom(view, kind, w, t) && forall k :: k in earlier ==> k.kind != kind
    ensures |full| >= cap && full <= earlier + PickedFrom(view, kind, w, t) + PoisonOf(view.corpus, t, kind)
  {
    hide Open;
    full := earlier;
    if |earlier| < cap {
      WindowFills(view, kind, cap - |earlier|, w, t, f);
      assert forall k :: k in Members(w) ==> k in OfKind(view.corpus, kind);
      assert earlier !! Members(w);
      full := earlier + Members(w);
    }
  }

  lemma PhasesUpTo(view: View, tr: Trace, t: Table)
    ensures var a, b, d := PickedFrom(view, Memory, tr.memories, t), PickedFrom(view, Standard, tr.standards, t), PickedFrom(view, Task, tr.tasks, t);
            && a <= PickedUpTo(view, tr, t, Memory) && a + b <= PickedUpTo(view, tr, t, Standard) && a + b + d <= PickedUpTo(view, tr, t, Task)
            && a + b + d == Picked(view, tr, t) && |a + b| == |a| + |b|
            && (forall k :: k in a ==> k.kind == Memory) && (forall k :: k in b ==> k.kind == Standard)
  {
    hide Open;
    var a, b := PickedFrom(view, Memory, tr.memories, t), PickedFrom(view, Standard, tr.standards, t);
    assert a !! b;
  }

  /**
   * A pass leaves out an open flagged entity only if the entities queued so far, and the poison rows
   * of its kind, make up the cap.
   */
  lemma PassFills(view: View, cap: nat, tr: Trace, t: Table, after: Table, enqueued: nat, f: Key) returns (full: set<Key>)
    requires Pass(view, cap, tr, t, after, enqueued) && Resting(t) && !f.kind.CodebaseSymbol?
    requires Open(view, t, f) && Flagged(view.vectors, view.version, f) && f !in Picked(view, tr, t)
    ensures |full| >= cap && full <= PickedUpTo(view, tr, t, f.kind) + PoisonOf(view.corpus, t, f.kind)
  {
    PhasesUpTo(view, tr, t);
    hide Open, PhaseOrSkip, Resting, PoisonOf, Queues, Picked, PickedFrom, PickedUpTo;
    PassEffect(view, cap, tr, t, after, enqueued);
    var a, b := PickedFrom(view, Memory, tr.memories, t), PickedFrom(view, Standard, tr.standards, t);
    match f.kind
    case Memory => full := PhaseFills(view, Memory, cap, {}, tr.memories, t, t, tr.t1, tr.n1, f);
    case Standard => full := PhaseFills(view, Standard, cap, a, tr.standards, t, tr.t1, tr.t2, tr.n2, f);
    case Task =>
      full := PhaseFills(view, Task, cap, a + b, tr.tasks, t, tr.t2, after, tr.n3, f);
  }

  // --- what a round achieves ---

  /** Entities that no number of rounds settles: poison rows, and empty texts, which are queued again and again. */
  ghost function Stuck(p: Plan, t: Table): set<Key> {
    set k | k in p.corpus && (k in Poisoned(t) || p.corpus[k].payload.text == "")
  }

  /** Of these, the ones that take places before a phase: poison rows of its kind, empty texts of all kinds up to it. */
  ghost function InTheWay(p: Plan, t: Table, kind: Kind): set<Key> {
    set k | k in p.corpus && ((k.kind == kind && k in Poisoned(t)) || (p.corpus[k].payload.text == "" && Turn(k.kind) <= Turn(kind)))
  }

  /** They leave room for `s` others in every phase. */
  ghost predicate Room(p: Plan, t: Table, s: nat) {
    s >= 1 && forall kind :: |InTheWay(p, t, kind)| + s <= p.cap
  }

  /** What the rounds theorem needs to know of one round. */
  ghost predicate Advances(p: Plan, stuck: set<Key>, s: nat, r: Round) {
    && Needing(p.corpus, r.v', p.version) <= Needing(p.corpus, r.v, p.version)
    && FlaggedIn(p.corpus, r.v', p.version) <= FlaggedIn(p.corpus, r.v, p.version)
    && (FlaggedIn(p.corpus, r.v', p.version) - stuck != {} ==>
          |Needing(p.corpus, r.v', p.version) - stuck| + s <= |Needing(p.corpus, r.v, p.version) - stuck|)
  }

  ghost function RepairedBy(p: Plan, r: Round): set<Key> {
    set k | k in p.corpus && Repaired(p, r, k)
  }

  /** A round that leaves a flagged entity unrepaired repairs as many as there is room for. */
  lemma RoundRepairs(p: Plan, r: Round, s: nat, f: Key)
    requires IsRound(p, r) && Resting(r.t) && Workable(p) && Room(p, r.t, s)
    requires f in FlaggedIn(p.corpus, r.v, p.version) && f !in Stuck(p, r.t) && !Repaired(p, r, f)
    ensures |RepairedBy(p, r)| >= s
  {
    RestingRound(p, r);
    var view := ViewOf(p, r.v);
    FreeIsOpen(p, r, f);
    hide IsRound, Resting, Open, Pass, Queues;
    var full := PassFills(view, p.cap, r.tr, r.t, r.queued, r.enqueued, f);
    FullIsRepaired(p, r, f.kind, full);
    var way := InTheWay(p, r.t, f.kind);
    assert |way| + s <= p.cap;
    SubsetSize(full, RepairedBy(p, r) + way);
  }

  lemma FullIsRepaired(p: Plan, r: Round, kind: Kind, full: set<Key>)
    requires full <= PickedUpTo(ViewOf(p, r.v), r.tr, r.t, kind) + PoisonOf(p.corpus, r.t, kind)
    ensures full <= RepairedBy(p, r) + InTheWay(p, r.t, kind)
  {
    PickedNeed(ViewOf(p, r.v), r.tr, r.t);
    hide Picked;
    forall k | k in full
      ensures k in RepairedBy(p, r) + InTheWay(p, r.t, kind)
    {
      if k in PickedUpTo(ViewOf(p, r.v), r.tr, r.t, kind) {
        assert k in Needing(p.corpus, r.v, p.version);
      } else {
        assert k in PoisonOf(p.corpus, r.t, kind);
      }
    }
  }

  lemma RepairedAreFree(p: Plan, r: Round)
    ensures RepairedBy(p, r) <= Needing(p.corpus, r.v, p.version) - Stuck(p, r.t)
  {
    PickedNeed(ViewOf(p, r.v), r.tr, r.t);
    hide Picked;
  }

  /** What is left to do after a round is what was left before without what it repaired. */
  lemma RoundLeaves(p: Plan, r: Round)
    requires IsRound(p, r) && Resting(r.t) && Workable(p)
    ensures Needing(p.corpus, r.v', p.version) == Needing(p.corpus, r.v, p.version) - RepairedBy(p, r)
    ensures FlaggedIn(p.corpus, r.v', p.version) == FlaggedIn(p.corpus, r.v, p.version) - RepairedBy(p, r)
  {
    hide IsRound, Resting, Workable, Repaired;
    InCorpus(p, r.v);
    InCorpus(p, r.v');
    forall k | k in p.corpus
      ensures k in Needing(p.corpus, r.v', p.version) <==> k in Needing(p.corpus, r.v, p.version) && k !in RepairedBy(p, r)
      ensures k in FlaggedIn(p.corpus, r.v', p.version) <==> k in FlaggedIn(p.corpus, r.v, p.version) && k !in RepairedBy(p, r)
    {
      RoundEffect(p, r, k);
    }
    hide Needing, FlaggedIn, RepairedBy;
  }

  lemma WithoutRepaired(needing: set<Key>, flagged: set<Key>, stuck: set<Key>, repaired: set<Key>, s: nat)
    requires s >= 1 && flagged <= needing && repaired <= needing - stuck
    requires flagged - repaired - stuck != {} ==> |repaired| >= s
    ensures |needing - repaired - stuck| == |needing - stuck| - |repaired|
    ensures flagged - stuck != {} ==> |needing - repaired - stuck| < |needing - stuck|
  {
    assert needing - repaired - stuck == (needing - stuck) - repaired;
    if f :| f in flagged - stuck {
      if f in repaired {
        assert |repaired| > 0;
      } else {
        assert f in flagged - repaired - stuck;
      }
    }
  }

  /**
   * A round never adds work. While an entity that is not stuck is flagged it lowers it, and by all
   * there is room for unless it clears the last of them.
   */
  lemma RoundProgress(p: Plan, r: Round, s: nat)
    requires IsRound(p, r) && Resting(r.t) && Workable(p) && Room(p, r.t, s)
    ensures Advances(p, Stuck(p, r.t), s, r)
    ensures FlaggedIn(p.corpus, r.v, p.version) - Stuck(p, r.t) != {} ==>
      |Needing(p.corpus, r.v', p.version) - Stuck(p, r.t)| < |Needing(p.corpus, r.v, p.version) - Stuck(p, r.t)|
  {
    hide IsRound, Resting, Workable, Room, Repaired, Needing, FlaggedIn, Stuck, RepairedBy;
    var stuck, repaired := Stuck(p, r.t), RepairedBy(p, r);
    RoundLeaves(p, r);
    RepairedAreFree(p, r);
    FlaggedNeed(p, r.v, stuck);
    EnoughRepaired(p, r, s);
    WithoutRepaired(Needing(p.corpus, r.v, p.version), FlaggedIn(p.corpus, r.v, p.version), stuck, repaired, s);
  }

  lemma EnoughRepaired(p: Plan, r: Round, s: nat)
    requires IsRound(p, r) && Resting(r.t) && Workable(p) && Room(p, r.t, s)
    ensures s >= 1 && (FlaggedIn(p.corpus, r.v, p.version) - RepairedBy(p, r) - Stuck(p, r.t) != {} ==> |RepairedBy(p, r)| >= s)
  {
    assert s >= 1;
    hide IsRound, Resting, Workable, Room, Repaired, FlaggedIn, Stuck, RepairedBy;
    if f :| f in FlaggedIn(p.corpus, r.v, p.version) - RepairedBy(p, r) - Stuck(p, r.t) {
      NotRepaired(p, r, f);
      RoundRepairs(p, r, s, f);
    }
  }

  lemma NotRepaired(p: Plan, r: Round, k: Key)
    requires k !in RepairedBy(p, r)
    ensures !Repaired(p, r, k)
  {
  }

  lemma InCorpus(p: Plan, v: Vectors)
    ensures forall k :: k in Needing(p.corpus, v, p.version) || k in FlaggedIn(p.corpus, v, p.version) ==> k in p.corpus
  {
  }

  ghost predicate Chained(rounds: seq<Round>) {
    forall i :: 0 < i < |rounds| ==> rounds[i].t == rounds[i - 1].t' && rounds[i].v == rounds[i - 1].v'
  }

  ghost predicate AllRounds(p: Plan, rounds: seq<Round>) {
    rounds != [] && Chained(rounds) && forall i :: 0 <= i < |rounds| ==> IsRound(p, rounds[i])
  }

  /** At most `n` entities that are not stuck need embedding, or none of them is flagged. */
  ghost predicate DoneWithin(p: Plan, stuck: set<Key>, v: Vectors, n: int) {
    |Needing(p.corpus, v, p.version) - stuck| <= n || FlaggedIn(p.corpus, v, p.version) <= stuck
  }

  lemma AdvanceOnce(p: Plan, stuck: set<Key>, s: nat, r: Round, n: int)
    requires Advances(p, stuck, s, r) && DoneWithin(p, stuck, r.v, n)
    ensures DoneWithin(p, stuck, r.v', n - s)
  {
    hide Needing, FlaggedIn;
    var flagged := FlaggedIn(p.corpus, r.v', p.version);
    if flagged - stuck == {} {
      forall k | k in flagged
        ensures k in stuck
      {
        assert k !in flagged - stuck;
      }
    } else {
      var k :| k in flagged - stuck;
      assert k in FlaggedIn(p.corpus, r.v, p.version) && k !in stuck;
    }
  }

  lemma {:induction false} AdvancesFinish(p: Plan, stuck: set<Key>, s: nat, rounds: seq<Round>, n: nat)
    requires forall i :: 0 <= i < |rounds| ==> Advances(p, stuck, s, rounds[i])
    requires Chained(rounds) && rounds != [] && DoneWithin(p, stuck, rounds[0].v, n) && n <= |rounds| * s
    ensures FlaggedIn(p.corpus, rounds[|rounds| - 1].v', p.version) <= stuck
    decreases |rounds|
  {
    var r := rounds[0];
    assert Advances(p, stuck, s, r);
    hide Advances;
    AdvanceOnce(p, stuck, s, r, n);
    if |rounds| > 1 {
      var rest := rounds[1..];
      assert rest[0] == rounds[1] && rest[|rest| - 1] == rounds[|rounds| - 1];
      assert (|rounds| - 1) * s == |rounds| * s - s;
      AdvancesFinish(p, stuck, s, rest, if n >= s then n - s else 0);
    } else {
      FlaggedNeed(p, r.v', stuck);
    }
  }

  lemma FlaggedNeed(p: Plan, v: Vectors, poison: set<Key>)
    ensures FlaggedIn(p.corpus, v, p.version) <= Needing(p.corpus, v, p.version)
    ensures Needing(p.corpus, v, p.version) - poison == {} ==> FlaggedIn(p.corpus, v, p.version) <= poison
  {
    var flagged, needing := FlaggedIn(p.corpus, v, p.version), Needing(p.corpus, v, p.version);
    assert flagged <= needing;
    hide FlaggedIn, Needing;
    if needing - poison == {} {
      forall k | k in flagged
        ensures k in poison
      {
        assert k !in needing - poison;
      }
    }
  }

  lemma {:induction false} RoundsStayAtRest(p: Plan, rounds: seq<Round>, n: nat)
    requires AllRounds(p, rounds) && n < |rounds| && Resting(rounds[0].t) && Workable(p)
    ensures Resting(rounds[n].t) && Poisoned(rounds[n].t) == Poisoned(rounds[0].t)
    decreases n
  {
    hide IsRound, Resting, Poisoned, Workable;
    if n > 0 {
      RoundsStayAtRest(p, rounds, n - 1);
      RoundRests(p, rounds[n - 1]);
    }
  }

  /**
   * A model upgrade finishes, and how fast: if what is in the way leaves room for `s` entities in
   * every phase, then after the number of entities to re-embed divided by `s` rounds every vector
   * that is missing, unstamped or of another version belongs to a poison row or an empty text.
   */
  lemma UpgradeFinishes(p: Plan, rounds: seq<Round>, s: nat)
    requires Workable(p) && AllRounds(p, rounds) && Resting(rounds[0].t) && Room(p, rounds[0].t, s)
    requires |rounds| * s >= |Needing(p.corpus, rounds[0].v, p.version) - Stuck(p, rounds[0].t)|
    ensures AllStamped(p, rounds[|rounds| - 1].v', Stuck(p, rounds[0].t))
  {
    hide IsRound, Workable, Advances, Needing, FlaggedIn, AllStamped;
    var stuck := Stuck(p, rounds[0].t);
    forall i | 0 <= i < |rounds|
      ensures Advances(p, stuck, s, rounds[i])
    {
      RoundsStayAtRest(p, rounds, i);
      SameRoom(p, rounds[0].t, rounds[i].t, s);
      RoundProgress(p, rounds[i], s);
    }
    AdvancesFinish(p, stuck, s, rounds, |Needing(p.corpus, rounds[0].v, p.version) - stuck|);
    StampedUnlessStuck(p, rounds[|rounds| - 1].v', stuck);
  }

  /** Every vector is there, stamped and of the current version, but those of `stuck`. */
  ghost predicate AllStamped(p: Plan, v: Vectors, stuck: set<Key>) {
    forall k :: k in p.corpus && k !in stuck ==> k in v && v[k].hash.Some? && v[k].version == Some(p.version)
  }

  lemma StampedUnlessStuck(p: Plan, v: Vectors, stuck: set<Key>)
    requires FlaggedIn(p.corpus, v, p.version) <= stuck
    ensures AllStamped(p, v, stuck)
  {
    forall k | k in p.corpus && k !in stuck
      ensures Stamped(v, p.version, k)
    {
      NeedingIff(p.corpus, v, p.version, k);
    }
  }

  lemma SameRoom(p: Plan, t: Table, u: Table, s: nat)
    requires Poisoned(t) == Poisoned(u) && Room(p, t, s)
    ensures Room(p, u, s) && Stuck(p, u) == Stuck(p, t)
  {
    forall kind
      ensures InTheWay(p, u, kind) == InTheWay(p, t, kind)
    {
    }
  }

  // --- from any queue ---

  ghost predicate NothingClaimed(t: Table) {
    forall k :: k in t ==> !t[k].status.Claimed?
  }

  lemma PhaseKeepsUnclaimed(view: View, kind: Kind, cap: nat, sofar: nat, w: seq<Key>, t: Table, after: Table, n: nat)
    requires PhaseOrSkip(view, kind, cap, sofar, w, t, after, n) && NothingClaimed(t)
    ensures NothingClaimed(after) && Poisoned(after) == Poisoned(t)
  {
    if sofar < cap {
      var inputs := PhaseInputs(view, w);
      forall k | k in after
        ensures !after[k].status.Claimed? && (k in Poisoned(after) <==> k in Poisoned(t))
      {
        if k in InputKeys(inputs) && BackfillApplies(t, k) {
          var i :| 0 <= i < |inputs| && InputKeys(inputs)[i] == k;
          assert inputs[i].key == k && QueuedFresh(after[k], inputs[i].payload);
        }
      }
    }
  }

  lemma PassKeepsUnclaimed(view: View, cap: nat, tr: Trace, t: Table, after: Table, enqueued: nat)
    requires Pass(view, cap, tr, t, after, enqueued) && NothingClaimed(t)
    ensures NothingClaimed(after) && Poisoned(after) == Poisoned(t)
  {
    hide PhaseOrSkip;
    PhaseKeepsUnclaimed(view, Memory, cap, 0, tr.memories, t, tr.t1, tr.n1);
    PhaseKeepsUnclaimed(view, Standard, cap, tr.n1, tr.standards, tr.t1, tr.t2, tr.n2);
    PhaseKeepsUnclaimed(view, Task, cap, tr.n1 + tr.n2, tr.tasks, tr.t2, after, tr.n3);
  }

  /** From any table without claimed rows, one round, gated or not, leaves the table at rest with its poison rows. */
  lemma FirstRoundRests(p: Plan, r: Round)
    requires IsRound(p, r) && NothingClaimed(r.t)
    ensures Resting(r.t') && Poisoned(r.t') == Poisoned(r.t)
  {
    hide Gated;
    if !Gated(r.t, p.cap, p.gate) {
      PassKeepsUnclaimed(ViewOf(p, r.v), p.cap, r.tr, r.t, r.queued, r.enqueued);
    }
    forall k
      ensures k in r.t' ==> r.t'[k].status.Done? || r.t'[k].status.Poison?
      ensures k in Poisoned(r.t') <==> k in Poisoned(r.queued)
    {
      assert k in r.t' <==> k in r.queued;
    }
  }

  /** The upgrade finishes from any queue without claimed rows, be its backlog over the gate: one round more is enough. */
  lemma UpgradeFinishesFromAnyQueue(p: Plan, rounds: seq<Round>, s: nat)
    requires Workable(p) && AllRounds(p, rounds) && |rounds| > 1
    requires NothingClaimed(rounds[0].t) && Room(p, rounds[0].t, s)
    requires (|rounds| - 1) * s >= |Needing(p.corpus, rounds[0].v', p.version) - Stuck(p, rounds[0].t)|
    ensures AllStamped(p, rounds[|rounds| - 1].v', Stuck(p, rounds[0].t))
  {
    hide IsRound, Needing, FlaggedIn, Workable;
    FirstRoundRests(p, rounds[0]);
    SameRoom(p, rounds[0].t, rounds[0].t', s);
    var rest := rounds[1..];
    assert rest[0] == rounds[1] && rest[|rest| - 1] == rounds[|rounds| - 1];
    assert forall i :: 0 <= i < |rest| ==> rest[i] == rounds[i + 1];
    UpgradeFinishes(p, rest, s);
  }

  // --- whole windows ---

  /** The cap is at least the number of entities of each kind. */
  ghost predicate WholeWindows(p: Plan) {
    forall kind :: |OfKind(p.corpus, kind)| <= p.cap
  }

  lemma WholeWindow(view: View, kind: Kind, limit: nat, w: seq<Key>, t: Table, k: Key)
    requires IsWindow(view.corpus, view.vectors, view.version, kind, limit, w) && |OfKind(view.corpus, kind)| <= limit
    requires k.kind == kind && Open(view, t, k)
    ensures k in PickedFrom(view, kind, w, t)
  {
    assert k in OfKind(view.corpus, kind);
    DistinctCount(w, Members(w));
    assert Members(w) <= OfKind(view.corpus, kind);
    SubsetSize(Members(w), OfKind(view.corpus, kind));
    assert k in Members(w);
  }

  /** Of this kind, only entities with poison rows need embedding. */
  ghost predicate KindDone(p: Plan, poison: set<Key>, v: Vectors, kind: Kind) {
    forall k :: k in Needing(p.corpus, v, p.version) && k.kind == kind ==> k in poison
  }

  lemma NothingPicked(p: Plan, v: Vectors, kind: Kind, w: seq<Key>, t: Table)
    requires KindDone(p, Poisoned(t), v, kind)
    ensures PickedFrom(ViewOf(p, v), kind, w, t) == {}
  {
  }

  /** The window the phase of `kind` looked at; empty if it was skipped. */
  function WindowOf(tr: Trace, kind: Kind): seq<Key> {
    match kind
    case Memory => tr.memories
    case Standard => tr.standards
    case Task => tr.tasks
    case CodebaseSymbol => []
  }

  /** The phases that come before the one of `kind` have nothing left to do. */
  ghost predicate EarlierDone(p: Plan, poison: set<Key>, v: Vectors, kind: Kind) {
    && (!kind.Memory? ==> KindDone(p, poison, v, Memory))
    && (kind.Task? ==> KindDone(p, poison, v, Standard))
  }

  /** With nothing enqueued by the earlier phases, a phase looks at a window of the whole cap. */
  lemma WindowOfWholeCap(view: View, cap: nat, tr: Trace, t: Table, after: Table, enqueued: nat, kind: Kind)
    requires Pass(view, cap, tr, t, after, enqueued) && cap > 0 && !kind.CodebaseSymbol?
    requires !kind.Memory? ==> tr.n1 == 0
    requires kind.Task? ==> tr.n2 == 0
    ensures IsWindow(view.corpus, view.vectors, view.version, kind, cap, WindowOf(tr, kind))
  {
    hide IsWindow, PhaseOrSkip;
    match kind
    case Memory => PhaseLooks(view, kind, cap, tr.memories, t, tr.t1, tr.n1);
    case Standard => PhaseLooks(view, kind, cap, tr.standards, tr.t1, tr.t2, tr.n2);
    case Task => PhaseLooks(view, kind, cap, tr.tasks, tr.t2, after, tr.n3);
  }

  lemma PhaseLooks(view: View, kind: Kind, cap: nat, w: seq<Key>, t: Table, after: Table, n: nat)
    requires PhaseOrSkip(view, kind, cap, 0, w, t, after, n) && cap > 0
    ensures IsWindow(view.corpus, view.vectors, view.version, kind, cap, w)
  {
  }

  lemma FullWindow(p: Plan, r: Round, kind: Kind)
    requires IsRound(p, r) && Resting(r.t) && Workable(p) && !kind.CodebaseSymbol?
    requires EarlierDone(p, Poisoned(r.t), r.v, kind)
    ensures IsWindow(p.corpus, r.v, p.version, kind, p.cap, WindowOf(r.tr, kind))
  {
    var view := ViewOf(p, r.v);
    RestingRound(p, r);
    assert p.cap > 0;
    hide KindDone, IsWindow, IsRound, Pass, Resting, Queues, Workable, PickedFrom;
    PassEffect(view, p.cap, r.tr, r.t, r.queued, r.enqueued);
    if !kind.Memory? {
      NothingPicked(p, r.v, Memory, r.tr.memories, r.t);
    }
    if kind.Task? {
      NothingPicked(p, r.v, Standard, r.tr.standards, r.t);
    }
    WindowOfWholeCap(view, p.cap, r.tr, r.t, r.queued, r.enqueued, kind);
  }

  /** A round with whole windows finishes the first kind that is not finished yet. */
  lemma RoundFinishesKind(p: Plan, r: Round, kind: Kind)
    requires IsRound(p, r) && Resting(r.t) && Workable(p) && HasTexts(p) && WholeWindows(p) && !kind.CodebaseSymbol?
    requires EarlierDone(p, Poisoned(r.t), r.v, kind)
    ensures KindDone(p, Poisoned(r.t), r.v', kind)
  {
    FullWindow(p, r, kind);
    hide IsRound, IsWindow, Open;
    forall k | k in Needing(p.corpus, r.v', p.version) && k.kind == kind
      ensures k in Poisoned(r.t)
    {
      RoundEffect(p, r, k);
      if k !in Poisoned(r.t) {
        FreeIsOpen(p, r, k);
        WholeWindow(ViewOf(p, r.v), kind, p.cap, WindowOf(r.tr, kind), r.t, k);
      }
    }
  }

  lemma FreeIsOpen(p: Plan, r: Round, k: Key)
    requires Resting(r.t) && k in Needing(p.corpus, r.v, p.version) && k !in Poisoned(r.t)
    ensures Open(ViewOf(p, r.v), r.t, k)
  {
  }

  lemma KindStaysDone(p: Plan, r: Round, kind: Kind)
    requires IsRound(p, r) && Resting(r.t) && Workable(p) && KindDone(p, Poisoned(r.t), r.v, kind)
    ensures KindDone(p, Poisoned(r.t), r.v', kind)
  {
    hide IsRound;
    forall k | k in Needing(p.corpus, r.v', p.version) && k.kind == kind
      ensures k in Poisoned(r.t)
    {
      RoundEffect(p, r, k);
    }
  }

  /**
   * With windows as large as the kinds, three rounds leave nothing that needs embedding but what
   * has a poison row: vectors stale by their hash alone are reached as well.
   */
  lemma ThreeWholeRoundsSuffice(p: Plan, rounds: seq<Round>)
    requires Workable(p) && HasTexts(p) && WholeWindows(p) && AllRounds(p, rounds) && |rounds| == 3 && Resting(rounds[0].t)
    ensures forall k :: k in p.corpus && k !in Poisoned(rounds[0].t) ==> UpToDate(p.corpus, rounds[2].v', p.version, k)
  {
    hide IsRound, Workable, HasTexts, WholeWindows, KindDone;
    RoundsStayAtRest(p, rounds, 1);
    RoundsStayAtRest(p, rounds, 2);
    RoundFinishesKind(p, rounds[0], Memory);
    KindStaysDone(p, rounds[1], Memory);
    RoundFinishesKind(p, rounds[1], Standard);
    KindStaysDone(p, rounds[2], Memory);
    KindStaysDone(p, rounds[2], Standard);
    RoundFinishesKind(p, rounds[2], Task);
    KindsCover(p, Poisoned(rounds[0].t), rounds[2].v');
    AllUpToDate(p, Poisoned(rounds[0].t), rounds[2].v');
  }

  lemma AllUpToDate(p: Plan, poison: set<Key>, v: Vectors)
    requires Needing(p.corpus, v, p.version) <= poison
    ensures forall k :: k in p.corpus && k !in poison ==> UpToDate(p.corpus, v, p.version, k)
  {
    forall k | k in p.corpus && k !in poison
      ensures UpToDate(p.corpus, v, p.version, k)
    {
      NeedingIff(p.corpus, v, p.version, k);
    }
  }

  lemma KindsCover(p: Plan, poison: set<Key>, v: Vectors)
    requires Workable(p) && KindDone(p, poison, v, Memory) && KindDone(p, poison, v, Standard) && KindDone(p, poison, v, Task)
    ensures Needing(p.corpus, v, p.version) <= poison
  {
    forall k | k in Needing(p.corpus, v, p.version)
      ensures k in poison
    {
      match k.kind
      case Memory =>
      case Standard =>
      case Task =>
    }
  }

  // --- where progress stalls ---

  /** An entity with an empty text is never repaired: it still needs embedding after every round. */
  lemma EmptyTextNeverSettles(p: Plan, r: Round, k: Key)
    requires IsRound(p, r) && Resting(r.t) && Workable(p)
    requires k in Needing(p.corpus, r.v, p.version) && p.corpus[k].payload.text == ""
    ensures k in Needing(p.corpus, r.v', p.version)
  {
    RoundEffect(p, r, k);
  }

  lemma IdleDrain(live: set<Key>, version: int, t: Table, v: Vectors, t': Table, v': Vectors)
    requires Resting(t) && IsDrained(live, version, t, v, t', v')
    ensures t' == t && v' == v
  {
    forall k
      ensures (k in v' <==> k in v) && (k in v ==> v'[k] == v[k])
    {
      assert VectorKept(k, v, v');
    }
    assert forall k :: k in t ==> t'[k] == t[k];
  }

  /**
   * While at least `cap` entities come strictly before every open one, nothing changes, for all
   * rounds to come: whatever is missing stays missing.
   */
  lemma {:induction false} PoisonStarvesTheWindow(p: Plan, rounds: seq<Round>, n: nat)
    requires Workable(p) && AllRounds(p, rounds) && n < |rounds|
    requires Resting(rounds[0].t) && Starved(ViewOf(p, rounds[0].v), rounds[0].t, p.cap)
    ensures rounds[n].enqueued == 0 && rounds[n].t' == rounds[0].t && rounds[n].v' == rounds[0].v
    decreases n
  {
    hide Starved, Resting, Workable;
    if n > 0 {
      PoisonStarvesTheWindow(p, rounds, n - 1);
    }
    StarvedRound(p, rounds[n]);
  }

  lemma StarvedRound(p: Plan, r: Round)
    requires Workable(p) && IsRound(p, r) && Resting(r.t) && Starved(ViewOf(p, r.v), r.t, p.cap)
    ensures r.enqueued == 0 && r.t' == r.t && r.v' == r.v
  {
    hide Starved, Pass;
    RestingRound(p, r);
    PassWorksIff(ViewOf(p, r.v), p.cap, r.tr, r.t, r.queued, r.enqueued);
    IdleDrain(p.live, p.version, r.t, r.v, r.t', r.v');
  }

  /** It happens: a poison row before an entity without vector and job, and a cap of one. */
  lemma StarvationHappens(poison: Row, front: Entity, waiting: Entity, version: int) returns (t: Table, view: View, k: Key)
    requires poison.status.Poison? && front.updatedAt > waiting.updatedAt
    ensures Resting(t) && Starved(view, t, 1) && k in FlaggedIn(view.corpus, view.vectors, version) && k !in t
    ensures view.version == version && view.corpus[k] == waiting
  {
    var a, b := Key(Memory, "a"), Key(Memory, "b");
    t := map[a := poison];
    view := View(map[a := front, b := waiting], map[], version);
    k := b;
    assert a in Ahead(view, b);
    assert |Ahead(view, b)| >= 1;
  }
}
