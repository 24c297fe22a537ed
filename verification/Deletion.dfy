/**
 * What a delete leaves behind. It drops the vector and the queue row of a task or a standard, but a
 * drainer that found the entity before goes on to write the vector: the write asks for no row, no
 * token and no entity. When a deleted entity stays without a vector, over whole histories.
 */
module Deletion {
  import opened QueueTable
  import opened LeaseProtocol
  import opened Convergence

  /** The drainer has found `k` and holds its job: it may write the vector at any time. */
  predicate InFlight(w: World, d: nat, k: Key) {
    Applies(w, d, k) && !k.kind.CodebaseSymbol?
  }

  predicate NotReopened(acts: seq<Act>, k: Key) {
    forall i :: 0 <= i < |acts| ==> acts[i] != Reopen(k)
  }

  predicate WritesOf(act: Act, k: Key) {
    act.WriteVector? && act.k == k
  }

  predicate NeverWrites(acts: seq<Act>, k: Key) {
    forall i :: 0 <= i < |acts| ==> !WritesOf(acts[i], k)
  }

  /** No state of the history has a vector of `k`. */
  ghost predicate AlwaysWithout(w: World, acts: seq<Act>, k: Key, threshold: nat, rule: Rule)
    requires IsHistory(w, acts, threshold, rule)
    decreases |acts|
  {
    k !in w.vectors && (acts != [] ==> AlwaysWithout(Next(w, acts[0], threshold), acts[1..], k, threshold, rule))
  }

  /** Whoever may write the vector of a deleted entity could before: a check made later does not find it. */
  lemma InFlightBefore(w: World, act: Act, k: Key, threshold: nat, d: nat)
    requires Possible(w, act) && k in w.gone && act != Reopen(k)
    requires InFlight(Next(w, act, threshold), d, k)
    ensures InFlight(w, d, k) && Holds(w, d, k) && Holds(Next(w, act, threshold), d, k)
    ensures var w' := Next(w, act, threshold);
            w'.drains[d].tok == w.drains[d].tok && w'.drains[d].items[k] == w.drains[d].items[k]
  {
    hide Apply, Enabled;
  }

  lemma StaysGone(w: World, act: Act, k: Key, threshold: nat)
    requires Possible(w, act) && k in w.gone && act != Reopen(k)
    ensures k in Next(w, act, threshold).gone
    ensures k !in w.vectors ==> (k in Next(w, act, threshold).vectors <==> WritesOf(act, k))
  {
    hide Apply, Enabled;
  }

  /** While it is not reopened, a deleted entity has no vector exactly until a drainer writes one. */
  lemma {:induction false} WithoutUntilWritten(w: World, acts: seq<Act>, k: Key, threshold: nat, rule: Rule)
    requires IsHistory(w, acts, threshold, rule) && NotReopened(acts, k) && k in w.gone && k !in w.vectors
    ensures AlwaysWithout(w, acts, k, threshold, rule) <==> NeverWrites(acts, k)
    decreases |acts|
  {
    hide Possible, Next, Follows, WritesOf;
    if acts != [] {
      var act, rest, w' := acts[0], acts[1..], Next(w, acts[0], threshold);
      assert acts == [act] + rest && forall i :: 0 <= i < |rest| ==> rest[i] == acts[i + 1];
      StaysGone(w, act, k, threshold);
      if WritesOf(act, k) {
        assert !AlwaysWithout(w', rest, k, threshold, rule);
      } else {
        WithoutUntilWritten(w', rest, k, threshold, rule);
        assert NeverWrites(rest, k) ==> forall i :: 0 < i < |acts| ==> acts[i] == rest[i - 1];
      }
    }
  }

  /** Each of these writes is by a drainer that had found the entity at the start. */
  lemma {:induction false} WriterWasInFlight(w: World, acts: seq<Act>, k: Key, threshold: nat, rule: Rule, i: nat)
    requires IsHistory(w, acts, threshold, rule) && NotReopened(acts, k) && k in w.gone
    requires i < |acts| && WritesOf(acts[i], k)
    ensures InFlight(w, acts[i].d, k)
    decreases i
  {
    hide Next, Follows, InFlight;
    if i == 0 {
      assert Possible(w, acts[0]);
      WriterHolds(w, acts[0], k);
    } else {
      var rest, w' := acts[1..], Next(w, acts[0], threshold);
      assert forall j :: 0 <= j < |rest| ==> rest[j] == acts[j + 1];
      StaysGone(w, acts[0], k, threshold);
      WriterWasInFlight(w', rest, k, threshold, rule, i - 1);
      InFlightBefore(w, acts[0], k, threshold, acts[i].d);
    }
  }

  lemma WriterHolds(w: World, act: Act, k: Key)
    requires Possible(w, act) && WritesOf(act, k)
    ensures InFlight(w, act.d, k)
  {
  }

  lemma AfterDelete(w: World, keys: set<Key>, k: Key, threshold: nat)
    requires k in Doomed(keys)
    ensures var w' := Next(w, Delete(keys), threshold);
            && k in w'.gone && k !in w'.vectors && k !in w'.q.jobs
            && forall d :: InFlight(w', d, k) <==> InFlight(w, d, k)
  {
  }

  /** No drainer that found `k` in `w` writes it in `acts`. */
  ghost predicate NoLateWrite(w: World, acts: seq<Act>, k: Key) {
    forall i :: 0 <= i < |acts| && WritesOf(acts[i], k) ==> !InFlight(w, acts[i].d, k)
  }

  /**
   * After any delete, in any history without a reopening, the entity has no vector exactly when no
   * drainer writes a job of it that was found before the delete.
   */
  lemma DeletedHasNoVectorIff(w: World, keys: set<Key>, acts: seq<Act>, k: Key, threshold: nat)
    requires k in Doomed(keys) && NotReopened(acts, k)
    requires IsHistory(Next(w, Delete(keys), threshold), acts, threshold, Anything)
    ensures AlwaysWithout(Next(w, Delete(keys), threshold), acts, k, threshold, Anything) <==> NoLateWrite(w, acts, k)
  {
    hide Next, InFlight, IsHistory, AlwaysWithout;
    var w' := Next(w, Delete(keys), threshold);
    AfterDelete(w, keys, k, threshold);
    WithoutUntilWritten(w', acts, k, threshold, Anything);
    forall i | 0 <= i < |acts| && WritesOf(acts[i], k)
      ensures InFlight(w, acts[i].d, k)
    {
      WriterWasInFlight(w', acts, k, threshold, Anything, i);
    }
  }

  /** Whatever happens afterwards, short of a reopening, there will be no vector. */
  ghost predicate GoneForGood(w: World, k: Key, threshold: nat) {
    forall acts :: IsHistory(w, acts, threshold, Anything) && NotReopened(acts, k) ==> AlwaysWithout(w, acts, k, threshold, Anything)
  }

  /** A delete is final exactly when no drainer holds a job of the entity that it has found. */
  lemma DeleteIsFinalIff(w: World, keys: set<Key>, k: Key, threshold: nat)
    requires k in Doomed(keys)
    ensures GoneForGood(Next(w, Delete(keys), threshold), k, threshold) <==> forall d :: !InFlight(w, d, k)
  {
    hide Next, InFlight, IsHistory, AlwaysWithout;
    var w' := Next(w, Delete(keys), threshold);
    AfterDelete(w, keys, k, threshold);
    if d :| InFlight(w, d, k) {
      WriteIsPossible(w', d, k);
      HistoryOfOne(w', WriteVector(d, k), threshold, Anything);
      var acts := [WriteVector(d, k)];
      DeletedHasNoVectorIff(w, keys, acts, k, threshold);
      assert WritesOf(acts[0], k);
    } else {
      forall acts | IsHistory(w', acts, threshold, Anything) && NotReopened(acts, k)
        ensures AlwaysWithout(w', acts, k, threshold, Anything)
      {
        DeletedHasNoVectorIff(w, keys, acts, k, threshold);
      }
    }
  }

  lemma WriteIsPossible(w: World, d: nat, k: Key)
    requires InFlight(w, d, k)
    ensures Possible(w, WriteVector(d, k))
  {
  }

  // --- the missing guard ---

  /** Drainers that found `k` no longer own its row. */
  ghost predicate AllStale(w: World, k: Key) {
    forall d :: InFlight(w, d, k) ==> !StillOwns(w, d, k)
  }

  lemma StaysStale(w: World, act: Act, k: Key, threshold: nat)
    requires Base(w, threshold) && Possible(w, act) && k in w.gone && act != Reopen(k) && AllStale(w, k)
    ensures AllStale(Next(w, act, threshold), k)
  {
    hide Base, InFlight, StillOwns;
    var w' := Next(w, act, threshold);
    forall d | InFlight(w', d, k)
      ensures !StillOwns(w', d, k)
    {
      InFlightBefore(w, act, k, threshold, d);
      if StillOwns(w', d, k) {
        StillOwnsBefore(w, act, k, threshold, d);
      }
    }
  }

  lemma StillOwnsBefore(w: World, act: Act, k: Key, threshold: nat, d: nat)
    requires Base(w, threshold) && Possible(w, act) && StillOwns(Next(w, act, threshold), d, k) && Holds(w, d, k)
    requires var w' := Next(w, act, threshold);
             w'.drains[d].tok == w.drains[d].tok && w'.drains[d].items[k] == w.drains[d].items[k]
    ensures StillOwns(w, d, k)
  {
    hide Base, Apply;
    if !OffQueue(act) {
      OwnedBefore(w, QueueStep(w, act), threshold, Next(w, act, threshold), d, k);
    }
  }

  lemma {:induction false} StaleNeverWrites(w: World, acts: seq<Act>, k: Key, threshold: nat)
    requires threshold >= 1 && Base(w, threshold) && AllStale(w, k) && k in w.gone
    requires IsHistory(w, acts, threshold, GuardedWrites) && NotReopened(acts, k)
    ensures NeverWrites(acts, k)
    decreases |acts|
  {
    hide Base, Next, Possible, AllStale, InFlight;
    if acts != [] {
      var act, rest := acts[0], acts[1..];
      assert acts == [act] + rest && forall i :: 0 <= i < |rest| ==> rest[i] == acts[i + 1];
      StaysGone(w, act, k, threshold);
      StaysStale(w, act, k, threshold);
      ActKeepsBase(w, act, threshold);
      StaleNeverWrites(Next(w, act, threshold), rest, k, threshold);
      assert !WritesOf(act, k) by {
        if WritesOf(act, k) {
          WriterHolds(w, act, k);
          assert AllStale(w, k) && Follows(GuardedWrites, w, act);
          NotStale(w, act.d, k);
        }
      }
      assert forall i :: 0 < i < |acts| ==> acts[i] == rest[i - 1];
    }
  }

  lemma NotStale(w: World, d: nat, k: Key)
    requires InFlight(w, d, k) && StillOwns(w, d, k)
    ensures !AllStale(w, k)
  {
  }

  /** If writes were guarded by the token, every delete would be final. */
  lemma GuardedDeleteIsFinal(w: World, keys: set<Key>, acts: seq<Act>, k: Key, threshold: nat)
    requires threshold >= 1 && Base(w, threshold) && k in Doomed(keys) && NotReopened(acts, k)
    requires IsHistory(Next(w, Delete(keys), threshold), acts, threshold, GuardedWrites)
    ensures AlwaysWithout(Next(w, Delete(keys), threshold), acts, k, threshold, GuardedWrites)
  {
    hide Base, Next, IsHistory, AlwaysWithout, NeverWrites;
    var w' := Next(w, Delete(keys), threshold);
    ActKeepsBase(w, Delete(keys), threshold);
    AfterDelete(w, keys, k, threshold);
    StaleNeverWrites(w', acts, k, threshold);
    WithoutUntilWritten(w', acts, k, threshold, GuardedWrites);
  }

  // --- it happens ---

  /**
   * One process, one drainer: a task is found, deleted while its text is embedded, and then its
   * vector is written. It is canceled, has no job, and has a vector.
   */
  lemma DeletedTaskGetsItsVectorBack(now: int, k: Key, payload: Payload, threshold: nat) returns (acts: seq<Act>)
    requires k.kind.Task? && payload.text != ""
    ensures IsHistory(Start(now), acts, threshold, Solo)
    ensures var w := Outcome(Start(now), acts, threshold, Solo); k in w.gone && k !in w.q.jobs && k in w.vectors
  {
    hide IsHistory, Outcome, Next, Possible, Follows;
    var input := JobInput(k, "", payload);
    var first, more := EnqueueAndFind(input, "a", 0, Token(0, 0, now)), [Delete({k}), WriteVector(0, k)];
    AfterEnqueueAndFind(Start(now), input, "a", 0, Token(0, 0, now), threshold, Solo);
    var w := Outcome(Start(now), first, threshold, Solo);
    DeleteThenWrite(w, k, threshold);
    HistoryOfTwo(w, Delete({k}), WriteVector(0, k), threshold, Solo);
    ThenMore(Start(now), first, more, threshold, Solo);
    acts := first + more;
  }

  lemma DeleteThenWrite(w: World, k: Key, threshold: nat)
    requires InFlight(w, 0, k) && !k.kind.Memory?
    ensures Possible(w, Delete({k})) && Follows(Solo, w, Delete({k}))
    ensures var w' := Next(w, Delete({k}), threshold);
            && Possible(w', WriteVector(0, k)) && Follows(Solo, w', WriteVector(0, k))
            && var w'' := Next(w', WriteVector(0, k), threshold); k in w''.gone && k !in w''.q.jobs && k in w''.vectors
  {
    assert k in Doomed({k});
  }
}
