/**
 * The lazy-loading registry of optional capabilities: one load at a time per capability, its
 * promise shared by every caller that comes while it is under way.
 *
 * A load is a chain of promise reactions: call the loader, wait for it, record the outcome in the
 * status, drop the in-flight entry. Each reaction is a step of its own, and anything may come
 * between two of them. Load times and durations are left out of the snapshots.
 */
module Capabilities {
  import opened Options

  datatype Capability = Semantic | Indexing | Watcher | Maintenance | Dashboard

  datatype Profile = Minimal | Balanced | Full

  datatype State = Unavailable | Idle | Loading | Ready | Degraded | Failed

  datatype Snapshot = Snapshot(state: State, error: Option<string>)

  /** How far a load has come; `error` is what the loader was rejected with. */
  datatype Stage =
    | Queued
    | InLoader
    | Settled(error: Option<string>)
    | Recorded(ok: bool)
    | Over(ok: bool)

  datatype Load = Load(capability: Capability, loader: nat, stage: Stage)

  datatype Registry = Registry(
    loaders: map<Capability, nat>,
    inFlight: map<Capability, nat>,
    status: map<Capability, Snapshot>,
    loads: seq<Load>)

  /** What `ensure` hands its caller: an answer, or the promise of a load. */
  datatype Answer = Now(available: bool) | Await(load: nat)

  datatype Event =
    | Ensure(c: Capability)
    | Register(c: Capability, loader: nat)
    | Unregister(c: Capability)
    | Disable(c: Capability, reason: string)
    | Reset(c: Capability)
    | MarkReady(c: Capability)
    | MarkDegraded(c: Capability, reason: string)
    | CallLoader(load: nat)
    | Settle(load: nat, error: Option<string>)
    | Record(load: nat)
    | CleanUp(load: nat)

  function ProfileCapabilities(p: Profile): set<Capability> {
    match p
    case Minimal => {Dashboard}
    case Balanced => {Semantic, Indexing, Dashboard}
    case Full => {Semantic, Indexing, Watcher, Maintenance, Dashboard}
  }

  function Fresh(p: Profile): Registry {
    var status := map c | c in ProfileCapabilities(Full) ::
      Snapshot(if c in ProfileCapabilities(p) then Idle else Unavailable, None);
    Registry(map[], map[], status, [])
  }

  ghost predicate AllKnown(r: Registry) {
    forall c: Capability :: c in r.status
  }

  predicate Available(r: Registry, c: Capability)
    requires c in r.status
  {
    !r.status[c].state.Unavailable?
  }

  function SetStatus(r: Registry, c: Capability, s: Snapshot): Registry {
    r.(status := r.status[c := s])
  }

  /** What `ensure` answers, and whether it starts a load. */
  function Reply(r: Registry, c: Capability): Answer
    requires c in r.status
  {
    match r.status[c].state
    case Unavailable => Now(false)
    case Ready => Now(true)
    case Degraded => Now(false)
    case _ =>
      if c in r.inFlight then Await(r.inFlight[c])
      else if c in r.loaders then Await(|r.loads|)
      else Now(false)
  }

  /** The answers, on the maps alone. */
  lemma ReplyIff(r: Registry, c: Capability)
    requires c in r.status
    ensures Reply(r, c) == Now(true) <==> r.status[c].state == Ready
    ensures Reply(r, c) == Now(false) <==>
            r.status[c].state in {Unavailable, Degraded} || (r.status[c].state != Ready && c !in r.inFlight && c !in r.loaders)
    ensures Starts(r, c) <==> r.status[c].state in {Idle, Loading, Failed} && c !in r.inFlight && c in r.loaders
  {
  }

  predicate Starts(r: Registry, c: Capability)
    requires c in r.status
  {
    !(r.status[c].state in {Unavailable, Ready, Degraded}) && c !in r.inFlight && c in r.loaders
  }

  function Ensured(r: Registry, c: Capability): Registry
    requires c in r.status
  {
    if r.status[c].state in {Unavailable, Ready, Degraded} || c in r.inFlight then r
    else if c !in r.loaders then SetStatus(r, c, Snapshot(Degraded, Some("No capability loader registered")))
    else
      r.(status := r.status[c := Snapshot(Loading, None)], inFlight := r.inFlight[c := |r.loads|],
         loads := r.loads + [Load(c, r.loaders[c], Queued)])
  }

  predicate CanHappen(r: Registry, e: Event) {
    match e
    case CallLoader(n) => n < |r.loads| && r.loads[n].stage.Queued?
    case Settle(n, _) => n < |r.loads| && r.loads[n].stage.InLoader?
    case Record(n) => n < |r.loads| && r.loads[n].stage.Settled?
    case CleanUp(n) => n < |r.loads| && r.loads[n].stage.Recorded?
    case _ => true
  }

  function AtStage(r: Registry, n: nat, stage: Stage): Registry
    requires n < |r.loads|
  {
    r.(loads := r.loads[n := r.loads[n].(stage := stage)])
  }

  function After(r: Registry, e: Event): Registry
    requires CanHappen(r, e) && forall c: Capability :: c in r.status
  {
    match e
    case Ensure(c) => Ensured(r, c)
    case Register(c, loader) => if c in r.loaders then r else r.(loaders := r.loaders[c := loader])
    case Unregister(c) => r.(loaders := r.loaders - {c})
    case Disable(c, reason) => SetStatus(r.(loaders := r.loaders - {c}), c, Snapshot(Unavailable, Some(reason)))
    case Reset(c) => if Available(r, c) then SetStatus(r, c, Snapshot(Idle, None)) else r
    case MarkReady(c) => if Available(r, c) then SetStatus(r, c, Snapshot(Ready, None)) else r
    case MarkDegraded(c, reason) => if Available(r, c) then SetStatus(r, c, Snapshot(Degraded, Some(reason))) else r
    case CallLoader(n) => AtStage(r, n, InLoader)
    case Settle(n, error) => AtStage(r, n, Settled(error))
    case Record(n) =>
      var error := r.loads[n].stage.error;
      SetStatus(AtStage(r, n, Recorded(error.None?)), r.loads[n].capability,
                Snapshot(if error.None? then Ready else Failed, error))
    case CleanUp(n) =>
      AtStage(r, n, Over(r.loads[n].stage.ok)).(inFlight := r.inFlight - {r.loads[n].capability})
  }

  // --- single flight ---

  predicate Unfinished(r: Registry, n: nat) {
    n < |r.loads| && !r.loads[n].stage.Over?
  }

  /** The load has not written its outcome into the status yet. */
  predicate Pending(r: Registry, n: nat) {
    Unfinished(r, n) && !r.loads[n].stage.Recorded?
  }

  /** Every entry is an unfinished load of its capability, and every unfinished load is its capability's entry. */
  ghost predicate SingleFlight(r: Registry) {
    && (forall c :: c in r.inFlight ==> Unfinished(r, r.inFlight[c]) && r.loads[r.inFlight[c]].capability == c)
    && (forall n: nat :: Unfinished(r, n) ==> r.loads[n].capability in r.inFlight && r.inFlight[r.loads[n].capability] == n)
  }

  /** A capability that shows as loading has a load whose outcome is still to come. */
  ghost predicate LoadingMeansInFlight(r: Registry) {
    forall c :: c in r.status && r.status[c].state.Loading? ==> c in r.inFlight && Pending(r, r.inFlight[c])
  }

  ghost predicate Sound(r: Registry) {
    AllKnown(r) && SingleFlight(r) && LoadingMeansInFlight(r)
  }

  lemma EventKeepsFlight(r: Registry, e: Event)
    requires AllKnown(r) && SingleFlight(r) && CanHappen(r, e)
    ensures SingleFlight(After(r, e))
  {
    var after := After(r, e);
    forall n: nat | Unfinished(after, n)
      ensures after.loads[n].capability in after.inFlight && after.inFlight[after.loads[n].capability] == n
    {
      assert n < |r.loads| ==> Unfinished(r, n);
    }
  }

  lemma EventKeepsLoading(r: Registry, e: Event)
    requires Sound(r) && CanHappen(r, e)
    ensures LoadingMeansInFlight(After(r, e))
  {
    var after := After(r, e);
    forall c | c in after.status && after.status[c].state.Loading?
      ensures c in after.inFlight && Pending(after, after.inFlight[c])
    {
      if !(e.Ensure? && e.c == c && Starts(r, c)) {
        assert r.status[c].state.Loading?;
      }
    }
  }

  lemma EventKeepsSound(r: Registry, e: Event)
    requires Sound(r) && CanHappen(r, e)
    ensures Sound(After(r, e))
  {
    hide SingleFlight, LoadingMeansInFlight, CanHappen;
    EventKeepsFlight(r, e);
    EventKeepsLoading(r, e);
  }

  /** The two halves of the flight table together: at most one load of a capability is unfinished. */
  lemma AtMostOneLoad(r: Registry, m: nat, n: nat)
    requires Sound(r) && Unfinished(r, m) && Unfinished(r, n) && r.loads[m].capability == r.loads[n].capability
    ensures m == n
  {
  }

  // --- histories ---

  ghost predicate IsHistory(r: Registry, events: seq<Event>)
    requires AllKnown(r)
    decreases |events|
  {
    events != [] ==> CanHappen(r, events[0]) && IsHistory(After(r, events[0]), events[1..])
  }

  ghost function Outcome(r: Registry, events: seq<Event>): (r': Registry)
    requires AllKnown(r) && IsHistory(r, events)
    ensures AllKnown(r')
    decreases |events|
  {
    if events == [] then r else Outcome(After(r, events[0]), events[1..])
  }

  lemma {:induction false} HistoryKeepsSound(r: Registry, events: seq<Event>)
    requires Sound(r) && IsHistory(r, events)
    ensures Sound(Outcome(r, events))
    decreases |events|
  {
    hide SingleFlight, LoadingMeansInFlight, CanHappen;
    if events != [] {
      EventKeepsSound(r, events[0]);
      HistoryKeepsSound(After(r, events[0]), events[1..]);
    }
  }

  /** From start-up, whatever the callers, administrators and loaders do. */
  lemma ReachableSound(p: Profile, events: seq<Event>)
    requires AllKnown(Fresh(p)) && IsHistory(Fresh(p), events)
    ensures Sound(Outcome(Fresh(p), events))
  {
    HistoryKeepsSound(Fresh(p), events);
  }

  lemma FreshIsSound(p: Profile)
    ensures Sound(Fresh(p))
  {
    forall c: Capability
      ensures c in Fresh(p).status
    {
      match c
      case Semantic =>
      case Indexing =>
      case Watcher =>
      case Maintenance =>
      case Dashboard =>
    }
  }

  /** The value a load's promise resolves to, once the loader is through. */
  function Result(l: Load): Option<bool> {
    match l.stage
    case Settled(error) => Some(error.None?)
    case Recorded(ok) => Some(ok)
    case Over(ok) => Some(ok)
    case _ => None
  }

  function Rank(stage: Stage): nat {
    match stage
    case Queued => 0
    case InLoader => 1
    case Settled(_) => 2
    case Recorded(_) => 3
    case Over(_) => 4
  }

  /** A load later on: same capability and loader, not behind, and a result once there stays. */
  predicate Continues(before: Load, after: Load) {
    && after.capability == before.capability && after.loader == before.loader
    && Rank(before.stage) <= Rank(after.stage)
    && (Result(before).Some? ==> Result(after) == Result(before))
  }

  lemma EventContinues(r: Registry, e: Event, n: nat)
    requires AllKnown(r) && CanHappen(r, e) && n < |r.loads|
    ensures n < |After(r, e).loads| && Continues(r.loads[n], After(r, e).loads[n])
    ensures e == CallLoader(n) ==> Rank(r.loads[n].stage) == 0 && Rank(After(r, e).loads[n].stage) == 1
  {
  }

  lemma {:induction false} LoadContinues(r: Registry, events: seq<Event>, n: nat)
    requires AllKnown(r) && IsHistory(r, events) && n < |r.loads|
    ensures n < |Outcome(r, events).loads| && Continues(r.loads[n], Outcome(r, events).loads[n])
    decreases |events|
  {
    hide CanHappen;
    if events != [] {
      EventContinues(r, events[0], n);
      LoadContinues(After(r, events[0]), events[1..], n);
    }
  }

  /** The promise resolves to whether the loader was fulfilled, whatever happens in between. */
  lemma ResultIsTheLoaders(r: Registry, n: nat, error: Option<string>, events: seq<Event>)
    requires Sound(r) && CanHappen(r, Settle(n, error)) && IsHistory(After(r, Settle(n, error)), events)
    ensures n < |Outcome(After(r, Settle(n, error)), events).loads|
    ensures Result(Outcome(After(r, Settle(n, error)), events).loads[n]) == Some(error.None?)
  {
    LoadContinues(After(r, Settle(n, error)), events, n);
  }

  /** A loader is called at most once per load. */
  lemma CalledOnce(r: Registry, n: nat, events: seq<Event>)
    requires Sound(r) && CanHappen(r, CallLoader(n)) && IsHistory(After(r, CallLoader(n)), events)
    ensures !CanHappen(Outcome(After(r, CallLoader(n)), events), CallLoader(n))
  {
    LoadContinues(After(r, CallLoader(n)), events, n);
  }

  /**
   * Two callers of one capability, the second any time before the first one's load is over: if both
   * are given a promise it is the same promise, so they get the same result.
   */
  lemma JoinersShareTheLoad(r: Registry, c: Capability, n: nat, events: seq<Event>, m: nat)
    requires Sound(r) && Reply(r, c) == Await(n) && IsHistory(After(r, Ensure(c)), events)
    requires var later := Outcome(After(r, Ensure(c)), events); Reply(later, c) == Await(m) && Unfinished(later, n)
    ensures m == n
  {
    var started := After(r, Ensure(c));
    EventKeepsSound(r, Ensure(c));
    HistoryKeepsSound(started, events);
    assert n < |started.loads| && started.loads[n].capability == c;
    LoadContinues(started, events, n);
  }

  // --- a capability that was loaded ---

  /** The events that may change what a loaded capability shows. */
  predicate Disturbs(r: Registry, e: Event, c: Capability) {
    match e
    case Reset(d) => d == c
    case Disable(d, _) => d == c
    case MarkDegraded(d, _) => d == c
    case Record(n) => n < |r.loads| && r.loads[n].capability == c
    case _ => false
  }

  ghost predicate Undisturbed(r: Registry, events: seq<Event>, c: Capability)
    requires AllKnown(r) && IsHistory(r, events)
    decreases |events|
  {
    events != [] ==> !Disturbs(r, events[0], c) && Undisturbed(After(r, events[0]), events[1..], c)
  }

  lemma {:induction false} StaysReady(r: Registry, events: seq<Event>, c: Capability)
    requires AllKnown(r) && IsHistory(r, events) && Undisturbed(r, events, c) && r.status[c].state == Ready
    ensures Outcome(r, events).status[c].state == Ready
    decreases |events|
  {
    hide CanHappen;
    if events != [] {
      EventKeepsReady(r, events[0], c);
      StaysReady(After(r, events[0]), events[1..], c);
    }
  }

  lemma EventKeepsReady(r: Registry, e: Event, c: Capability)
    requires AllKnown(r) && CanHappen(r, e) && !Disturbs(r, e, c) && r.status[c].state == Ready
    ensures AllKnown(After(r, e)) && After(r, e).status[c].state == Ready
  {
  }

  /**
   * Once a load whose loader was fulfilled records its outcome, `ensure` answers yes, until a reset,
   * a disable, a degrade or the record of another load of the capability.
   */
  lemma LoadedIsAvailable(r: Registry, n: nat, events: seq<Event>)
    requires AllKnown(r) && CanHappen(r, Record(n)) && r.loads[n].stage.error.None?
    requires IsHistory(After(r, Record(n)), events) && Undisturbed(After(r, Record(n)), events, r.loads[n].capability)
    ensures Reply(Outcome(After(r, Record(n)), events), r.loads[n].capability) == Now(true)
  {
    StaysReady(After(r, Record(n)), events, r.loads[n].capability);
  }

  /** After a rejected load it is not available, and the next call after the clean-up loads again if there is a loader. */
  lemma RejectedIsTriedAgain(r: Registry, n: nat)
    requires Sound(r) && CanHappen(r, Record(n)) && r.loads[n].stage.error.Some?
    ensures var c, r1 := r.loads[n].capability, After(r, Record(n));
            && AllKnown(r1) && r1.status[c] == Snapshot(Failed, r.loads[n].stage.error)
            && CanHappen(r1, CleanUp(n))
            && var r2 := After(r1, CleanUp(n));
               c in r2.status && (Starts(r2, c) <==> c in r.loaders) && (c !in r.loaders ==> Reply(r2, c) == Now(false))
  {
    assert Unfinished(r, n);
  }

  // --- a capability that was disabled ---

  ghost predicate SomePending(r: Registry, c: Capability) {
    exists n: nat :: Pending(r, n) && r.loads[n].capability == c
  }

  /** Off, and no load left that could switch it on. */
  ghost predicate OffForGood(r: Registry, c: Capability) {
    c in r.status && r.status[c].state.Unavailable? && !SomePending(r, c)
  }

  lemma EventKeepsOff(r: Registry, e: Event, c: Capability)
    requires Sound(r) && CanHappen(r, e) && OffForGood(r, c)
    ensures OffForGood(After(r, e), c)
  {
    var after := After(r, e);
    assert e.Record? ==> Pending(r, e.load);
    forall n: nat | Pending(after, n) && after.loads[n].capability == c
      ensures Pending(r, n) && r.loads[n].capability == c
    {
    }
  }

  lemma {:induction false} HistoryKeepsOff(r: Registry, events: seq<Event>, c: Capability)
    requires Sound(r) && IsHistory(r, events) && OffForGood(r, c)
    ensures OffForGood(Outcome(r, events), c)
    decreases |events|
  {
    hide SingleFlight, LoadingMeansInFlight, OffForGood, CanHappen;
    if events != [] {
      EventKeepsSound(r, events[0]);
      EventKeepsOff(r, events[0], c);
      HistoryKeepsOff(After(r, events[0]), events[1..], c);
    }
  }

  ghost predicate StaysOff(r: Registry, c: Capability)
    requires AllKnown(r)
  {
    forall events :: IsHistory(r, events) ==> Outcome(r, events).status[c].state.Unavailable?
  }

  /** A load that is still to record its outcome makes its capability available again. */
  lemma {:induction false} PendingLoadCanFinish(r: Registry, n: nat) returns (events: seq<Event>)
    requires Sound(r) && Pending(r, n)
    ensures IsHistory(r, events) && !Outcome(r, events).status[r.loads[n].capability].state.Unavailable?
    decreases 2 - Rank(r.loads[n].stage)
  {
    var e := match r.loads[n].stage case Queued => CallLoader(n) case InLoader => Settle(n, None) case _ => Record(n);
    EventKeepsSound(r, e);
    var rest := [];
    if !e.Record? {
      rest := PendingLoadCanFinish(After(r, e), n);
    }
    events := [e] + rest;
    assert events[0] == e && events[1..] == rest;
  }

  /**
   * `disable` is not permanent by itself: a disabled capability stays unavailable exactly when no
   * load of it was still to record its outcome.
   */
  lemma StaysOffIff(r: Registry, c: Capability)
    requires Sound(r) && r.status[c].state.Unavailable?
    ensures StaysOff(r, c) <==> !SomePending(r, c)
  {
    if SomePending(r, c) {
      var n: nat :| Pending(r, n) && r.loads[n].capability == c;
      var events := PendingLoadCanFinish(r, n);
      assert IsHistory(r, events);
    } else {
      forall events | IsHistory(r, events)
        ensures Outcome(r, events).status[c].state.Unavailable?
      {
        HistoryKeepsOff(r, events, c);
      }
    }
  }

  // --- the registry object ---

  class RuntimeCapabilityRegistry {
    var loaders: map<Capability, nat>
    var inFlight: map<Capability, nat>
    var status: map<Capability, Snapshot>
    var loads: seq<Load>

    ghost function View(): Registry
      reads this
    {
      Registry(loaders, inFlight, status, loads)
    }

    ghost predicate Valid()
      reads this
    {
      Sound(View())
    }

    constructor (profile: Profile)
      ensures Valid() && View() == Fresh(profile) && loaders == map[] && inFlight == map[]
      ensures forall c: Capability :: c in status && status[c].state in {Idle, Unavailable}
      ensures forall c: Capability ::
        status[c].state == Idle <==> c == Dashboard || profile == Full || (profile == Balanced && c in {Semantic, Indexing})
    {
      FreshIsSound(profile);
      loaders, inFlight, status, loads := map[], map[], Fresh(profile).status, [];
    }

    method Register(c: Capability, loader: nat)
      requires Valid()
      modifies this
      ensures Valid() && View() == After(old(View()), Event.Register(c, loader))
      ensures c in loaders && loaders[c] == (if c in old(loaders) then old(loaders)[c] else loader) && status == old(status)
    {
      EventKeepsSound(View(), Event.Register(c, loader));
      if c !in loaders {
        loaders := loaders[c := loader];
      }
    }

    method Unregister(c: Capability)
      requires Valid()
      modifies this
      ensures Valid() && View() == After(old(View()), Event.Unregister(c))
      ensures c !in loaders && inFlight == old(inFlight) && status == old(status)
    {
      EventKeepsSound(View(), Event.Unregister(c));
      loaders := loaders - {c};
    }

    method Disable(c: Capability, reason: string)
      requires Valid()
      modifies this
      ensures Valid() && View() == After(old(View()), Event.Disable(c, reason))
      ensures status[c] == Snapshot(Unavailable, Some(reason)) && c !in loaders && inFlight == old(inFlight)
    {
      EventKeepsSound(View(), Event.Disable(c, reason));
      loaders := loaders - {c};
      status := status[c := Snapshot(Unavailable, Some(reason))];
    }

    /** A promise answer is the one unfinished load of the capability. */
    method Ensure(c: Capability) returns (answer: Answer)
      requires Valid()
      modifies this
      ensures Valid() && View() == After(old(View()), Event.Ensure(c)) && answer == Reply(old(View()), c)
      ensures answer == Now(true) <==> old(status)[c].state == Ready
      ensures answer == Now(false) <==>
        old(status)[c].state in {Unavailable, Degraded} || (old(status)[c].state != Ready && c !in old(inFlight) && c !in old(loaders))
      ensures old(status)[c].state in {Idle, Loading, Failed} && answer == Now(false) ==>
        status[c] == Snapshot(Degraded, Some("No capability loader registered"))
      ensures answer.Await? ==> answer.load == if c in old(inFlight) then old(inFlight)[c] else |old(loads)|
      ensures |loads| > |old(loads)| ==> loads == old(loads) + [Load(c, old(loaders)[c], Queued)] && status[c].state == Loading
      ensures answer.Await? ==> c in inFlight && inFlight[c] == answer.load && Unfinished(View(), answer.load)
      ensures |loads| == |old(loads)| + if Starts(old(View()), c) then 1 else 0
    {
      EventKeepsSound(View(), Event.Ensure(c));
      var current := status[c];
      if current.state.Unavailable? {
        return Now(false);
      }
      if current.state.Ready? {
        return Now(true);
      }
      if current.state.Degraded? {
        return Now(false);
      }
      if c in inFlight {
        return Await(inFlight[c]);
      }
      if c !in loaders {
        status := status[c := Snapshot(Degraded, Some("No capability loader registered"))];
        return Now(false);
      }
      status := status[c := Snapshot(Loading, None)];
      var load := |loads|;
      loads := loads + [Load(c, loaders[c], Queued)];
      inFlight := inFlight[c := load];
      return Await(load);
    }

    method Reset(c: Capability)
      requires Valid()
      modifies this
      ensures Valid() && View() == After(old(View()), Event.Reset(c))
      ensures status[c] == if old(status)[c].state == Unavailable then old(status)[c] else Snapshot(Idle, None)
    {
      EventKeepsSound(View(), Event.Reset(c));
      if !status[c].state.Unavailable? {
        status := status[c := Snapshot(Idle, None)];
      }
    }

    method MarkReady(c: Capability)
      requires Valid()
      modifies this
      ensures Valid() && View() == After(old(View()), Event.MarkReady(c))
      ensures status[c] == if old(status)[c].state == Unavailable then old(status)[c] else Snapshot(Ready, None)
    {
      EventKeepsSound(View(), Event.MarkReady(c));
      if !status[c].state.Unavailable? {
        status := status[c := Snapshot(Ready, None)];
      }
    }

    method MarkDegraded(c: Capability, reason: string)
      requires Valid()
      modifies this
      ensures Valid() && View() == After(old(View()), Event.MarkDegraded(c, reason))
      ensures status[c] == if old(status)[c].state == Unavailable then old(status)[c] else Snapshot(Degraded, Some(reason))
    {
      EventKeepsSound(View(), Event.MarkDegraded(c, reason));
      if !status[c].state.Unavailable? {
        status := status[c := Snapshot(Degraded, Some(reason))];
      }
    }

    /** The next reaction of a load's promise chain. */
    method React(n: nat, rejected: Option<string>)
      requires Valid() && Unfinished(View(), n)
      modifies this
      ensures Valid()
      ensures View() == After(old(View()), match old(loads)[n].stage
                                           case Queued => CallLoader(n)
                                           case InLoader => Settle(n, rejected)
                                           case Settled(_) => Record(n)
                                           case Recorded(_) => CleanUp(n))
      ensures old(loads)[n].stage.Settled? ==>
        var error := old(loads)[n].stage.error;
        status == old(status)[old(loads)[n].capability := Snapshot(if error.None? then Ready else Failed, error)]
      ensures !old(loads)[n].stage.Settled? ==> status == old(status)
    {
      hide SingleFlight, LoadingMeansInFlight;
      var load := loads[n];
      EventKeepsSound(View(), match load.stage
                              case Queued => CallLoader(n)
                              case InLoader => Settle(n, rejected)
                              case Settled(_) => Record(n)
                              case Recorded(_) => CleanUp(n));
      match load.stage {
        case Queued => loads := loads[n := load.(stage := InLoader)];
        case InLoader => loads := loads[n := load.(stage := Settled(rejected))];
        case Settled(error) =>
          loads := loads[n := load.(stage := Recorded(error.None?))];
          status := status[load.capability := Snapshot(if error.None? then Ready else Failed, error)];
        case Recorded(ok) =>
          loads := loads[n := load.(stage := Over(ok))];
          inFlight := inFlight - {load.capability};
      }
    }
  }
}
