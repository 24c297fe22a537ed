/**
 * The poll loop of one worker: timers fire it, and the `running` flag keeps claim-and-drain cycles
 * apart. This is what makes a worker the sequential drainer Convergence asks for.
 */
module WorkerLoop {
  import opened Options

  /** `timers` are scheduled and not yet fired or cleared, `timer` is the one remembered, `cycles` are under way. */
  datatype Loop = Loop(started: bool, running: bool, stopped: bool, timers: set<nat>, timer: Option<nat>, next: nat, cycles: nat)

  datatype Event = Start | Stop | Fire(timer: nat) | CycleEnds

  predicate CanHappen(l: Loop, e: Event) {
    match e
    case Fire(t) => t in l.timers
    case CycleEnds => l.cycles > 0
    case _ => true
  }

  function Scheduled(l: Loop): Loop {
    if l.stopped then l else l.(timers := l.timers + {l.next}, timer := Some(l.next), next := l.next + 1)
  }

  function After(l: Loop, e: Event): Loop
    requires CanHappen(l, e)
  {
    match e
    case Start => if l.started then l else Scheduled(l.(started := true, stopped := false))
    case Stop =>
      l.(stopped := true, started := false, timer := None,
         timers := if l.timer.Some? then l.timers - {l.timer.value} else l.timers)
    case Fire(t) =>
      var fired := l.(timers := l.timers - {t});
      if l.stopped then fired
      else if l.running then Scheduled(fired)
      else fired.(running := true, cycles := l.cycles + 1)
    case CycleEnds => Scheduled(l).(running := false, cycles := l.cycles - 1)
  }

  /** A cycle is under way exactly when the flag is up, and never more than one. */
  ghost predicate OneCycle(l: Loop) {
    l.cycles == if l.running then 1 else 0
  }

  const Fresh := Loop(false, false, false, {}, None, 0, 0)

  ghost predicate IsHistory(l: Loop, events: seq<Event>)
    decreases |events|
  {
    events != [] ==> CanHappen(l, events[0]) && IsHistory(After(l, events[0]), events[1..])
  }

  ghost function Outcome(l: Loop, events: seq<Event>): Loop
    requires IsHistory(l, events)
    decreases |events|
  {
    if events == [] then l else Outcome(After(l, events[0]), events[1..])
  }

  /** However the worker is started and stopped and whichever timers are left over, cycles do not overlap. */
  lemma {:induction false} CyclesNeverOverlap(l: Loop, events: seq<Event>)
    requires OneCycle(l) && IsHistory(l, events)
    ensures OneCycle(Outcome(l, events)) && Outcome(l, events).cycles <= 1
    decreases |events|
  {
    if events != [] {
      CyclesNeverOverlap(After(l, events[0]), events[1..]);
    }
  }

  /** At most the remembered timer is scheduled, and none during a cycle, while stopped, or before the start. */
  ghost predicate OneTimer(l: Loop) {
    && OneCycle(l)
    && (forall t :: t in l.timers ==> l.timer == Some(t))
    && (l.cycles > 0 || l.stopped || !l.started ==> l.timers == {})
    && (l.cycles > 0 ==> l.started || l.stopped)
  }

  /** A start finds the worker started already, or no cycle under way. */
  predicate StartsAfterCycle(l: Loop, e: Event) {
    e.Start? ==> l.started || l.cycles == 0
  }

  lemma AtMostOne(l: Loop)
    requires OneTimer(l)
    ensures |l.timers| + l.cycles <= 1
  {
    if l.timers != {} {
      assert l.timers == {l.timer.value};
    }
  }

  /** One event keeps a single timer or cycle exactly when it is no start of a stopped worker during a cycle. */
  lemma EventKeepsOneTimerIff(l: Loop, e: Event)
    requires OneTimer(l) && CanHappen(l, e)
    ensures StartsAfterCycle(l, e) ==> OneTimer(After(l, e))
    ensures |After(l, e).timers| + After(l, e).cycles <= 1 <==> StartsAfterCycle(l, e)
  {
    if StartsAfterCycle(l, e) {
      AtMostOne(After(l, e));
    } else {
      assert After(l, e).timers == {l.next};
    }
  }

  /** Every start of the history comes after the cycle before it. */
  ghost predicate StartsWait(l: Loop, events: seq<Event>)
    requires IsHistory(l, events)
    decreases |events|
  {
    events != [] ==> StartsAfterCycle(l, events[0]) && StartsWait(After(l, events[0]), events[1..])
  }

  /** There is never more than one timer or cycle at a time. */
  ghost predicate NeverTwo(l: Loop, events: seq<Event>)
    requires IsHistory(l, events)
    decreases |events|
  {
    |l.timers| + l.cycles <= 1 && (events != [] ==> NeverTwo(After(l, events[0]), events[1..]))
  }

  /** Over a whole history there is one timer or cycle at a time exactly when every start waits for the cycle before it. */
  lemma {:induction false} NeverTwoIff(l: Loop, events: seq<Event>)
    requires OneTimer(l) && IsHistory(l, events)
    ensures NeverTwo(l, events) <==> StartsWait(l, events)
    decreases |events|
  {
    AtMostOne(l);
    if events != [] {
      EventKeepsOneTimerIff(l, events[0]);
      if StartsAfterCycle(l, events[0]) {
        NeverTwoIff(After(l, events[0]), events[1..]);
      }
    }
  }

  /**
   * A worker that is stopped and started during a cycle is left with two timers when that cycle
   * ends: the one the start scheduled and the one the old cycle schedules.
   */
  lemma RestartDoublesTheTimers(l: Loop)
    requires OneTimer(l) && l.cycles > 0 && !l.started
    ensures var events := [Start, CycleEnds];
            IsHistory(l, events) && |Outcome(l, events).timers| == 2
  {
    var l1 := After(l, Start);
    var l2 := After(l1, CycleEnds);
    assert l2.timers == {l.next, l.next + 1};
    assert [Start, CycleEnds][1..] == [CycleEnds] && [CycleEnds][1..] == [];
    assert IsHistory(l2, []) && Outcome(l2, []) == l2;
    assert IsHistory(l1, [CycleEnds]) && Outcome(l1, [CycleEnds]) == l2;
  }

  class WorkerTimer {
    var started: bool
    var running: bool
    var stopped: bool
    var timers: set<nat>
    var timer: Option<nat>
    var next: nat
    ghost var cycles: nat

    constructor ()
      ensures View() == Fresh && Valid()
    {
      started, running, stopped := false, false, false;
      timers, timer, next, cycles := {}, None, 0, 0;
    }

    ghost function View(): Loop
      reads this
    {
      Loop(started, running, stopped, timers, timer, next, cycles)
    }

    ghost predicate Valid()
      reads this
    {
      OneCycle(View())
    }

    method Schedule()
      requires Valid()
      modifies this`timers, this`timer, this`next
      ensures Valid() && View() == Scheduled(old(View()))
    {
      if stopped {
        return;
      }
      timers := timers + {next};
      timer := Some(next);
      next := next + 1;
    }

    method Start()
      requires Valid()
      modifies this
      ensures Valid() && View() == After(old(View()), Event.Start)
      ensures started && timers == old(timers) + (if old(started) then {} else {old(next)}) && cycles == old(cycles)
      ensures !old(started) ==> !stopped && timer == Some(old(next))
    {
      if started {
        return;
      }
      started, stopped := true, false;
      Schedule();
    }

    method Stop()
      requires Valid()
      modifies this
      ensures Valid() && View() == After(old(View()), Event.Stop)
      ensures stopped && !started && timer.None? && cycles == old(cycles)
      ensures timers == old(timers) - if old(timer).Some? then {old(timer).value} else {}
    {
      stopped, started := true, false;
      if timer.Some? {
        timers := timers - {timer.value};
        timer := None;
      }
    }

    /** A timer calls `loop`; a cycle begins only when none is under way. */
    method Fire(t: nat) returns (begins: bool)
      requires Valid() && t in timers
      modifies this
      ensures Valid() && View() == After(old(View()), Event.Fire(t))
      ensures begins <==> !old(stopped) && !old(running)
      ensures begins ==> old(cycles) == 0 && cycles == 1 && running
      ensures !begins ==> cycles == old(cycles)
      ensures timers == old(timers) - {t} + if !old(stopped) && old(running) then {old(next)} else {}
    {
      timers := timers - {t};
      if stopped {
        return false;
      }
      if running {
        Schedule();
        return false;
      }
      running, cycles := true, cycles + 1;
      return true;
    }

    /** The cycle's promise settles, one way or the other. */
    method CycleEnds()
      requires Valid() && cycles > 0
      modifies this
      ensures Valid() && View() == After(old(View()), Event.CycleEnds)
      ensures !running && cycles == 0 && timers == old(timers) + if stopped then {} else {old(next)}
    {
      Schedule();
      running, cycles := false, cycles - 1;
    }
  }
}
