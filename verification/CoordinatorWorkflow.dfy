/**
 DatabaseOpsWorkflow as it is written: closures over local variables, a selector in a loop, goroutines for
 the lock timers, continue-as-new. Proved against the functions of module Coordinator.
 (internal/bluegreen/db_ops_workflow.go)
 */
module CoordinatorWorkflow {
  import opened Wrappers
  import opened Deployment
  import opened Coordinator

  /** One run of the coordinator; continue-as-new starts another one. */
  class DatabaseOpsWorkflow {
    var activeDeployment: Option<ActiveDeployment>
    var completedOps: seq<CompletedDeployment>
    var cancelActiveLock: Option<nat>
    var lockTimers: seq<LockTimer>
    var continueAsNewRequested: bool
    var rollbackSignals: seq<string>   // workflow IDs signalled so far
    var completeCh: seq<CoordEvent>    // completions received and not yet taken
    var continueTimerFired: bool       // a future: once it is ready it stays ready

    ghost const waiting: seq<CoordEvent>  // completions left over by the run before
    ghost var arrived: seq<CoordEvent>    // what has come in, in order
    ghost var trace: seq<CoordEvent>      // what has been handled, in order

    constructor (pending: seq<CoordEvent>)
      requires forall e | e in pending :: e.Completion?
      ensures State() == FRESH && rollbackSignals == [] && completeCh == pending && !continueTimerFired
      ensures waiting == pending && arrived == [] && trace == [] && Tracked()
    {
      activeDeployment, completedOps := None, [];
      cancelActiveLock, lockTimers := None, [];
      continueAsNewRequested, continueTimerFired := false, false;
      rollbackSignals, completeCh := [], pending;
      waiting, arrived, trace := pending, [], [];
    }

    /**
     The run so far is one of the specification. It has handled every request and lock timer as it came, and
     the completions in order, and it knows of the 24h timer only if that has fired.
     */
    ghost predicate Tracked()
      reads this
    {
      && Reactions(FRESH, trace) == Some(AfterSelect(State()))
      && rollbackSignals == SignalsIn(FRESH, trace)
      && Besides(trace) == Besides(arrived)
      && Completions(trace) + completeCh == waiting + Completions(arrived)
      && (forall e :: e in completeCh ==> e.Completion?)
      && (continueAsNewRequested ==> continueTimerFired) && (continueTimerFired <==> ContinueTimer in arrived)
      && completedOps == RecordOf(trace)
      && Recyclings(FRESH, trace) == if Recycles(State()) then 1 else 0
    }

    function State(): Coord
      reads this
    {
      Coord(activeDeployment, completedOps, cancelActiveLock, lockTimers, continueAsNewRequested)
    }

    /** The update validator: an error leaves no trace. */
    method Validator() returns (ok: bool)
      ensures ok == Accepts(State())
    {
      ok := activeDeployment.None?;
    }

    /** The update handler; it runs only after the validator has accepted. */
    method Handler(planID: string, workflowID: string)
      modifies this`activeDeployment, this`cancelActiveLock, this`lockTimers
      ensures State() == Grant(old(State()), planID, workflowID)
    {
      activeDeployment := Some(ActiveDeployment(planID, workflowID));
      cancelActiveLock := Some(|lockTimers|);
      lockTimers := lockTimers + [LockTimer(workflowID, false, Armed)];
    }

    method RequestDeployment(planID: string, workflowID: string) returns (granted: bool)
      modifies this`activeDeployment, this`cancelActiveLock, this`lockTimers
      ensures granted == old(activeDeployment).None?
      ensures State() == React(old(State()), Request(planID, workflowID))
    {
      granted := Validator();
      if granted {
        Handler(planID, workflowID);
      }
    }

    method CallCancel()
      modifies this`cancelActiveLock, this`lockTimers
      ensures State() == CancelLock(old(State()))
    {
      if cancelActiveLock.Some? && cancelActiveLock.value < |lockTimers| {
        var i := cancelActiveLock.value;
        lockTimers := lockTimers[i := lockTimers[i].(cancelled := true)];
      }
      cancelActiveLock := None;
    }

    /** The callback of the completion channel. */
    method ReceiveCompletion(planID: string, workflowID: string, finalPhase: Phase)
      modifies this`activeDeployment, this`completedOps, this`cancelActiveLock, this`lockTimers
      ensures State() == OnComplete(old(State()), planID, workflowID, finalPhase)
    {
      CallCancel();
      completedOps := completedOps + [CompletedDeployment(planID, workflowID, finalPhase)];
      activeDeployment := None;
    }

    /** The goroutine of a lock timer, from its timer to its end. */
    method LockTimerGoroutine(i: nat)
      requires Resumable(State(), i)
      modifies this`lockTimers, this`rollbackSignals
      ensures State() == Resumes(old(State()), i)
      ensures rollbackSignals == old(rollbackSignals) + Signals(old(State()), TimerResume(i))
    {
      var timer := lockTimers[i];
      lockTimers := lockTimers[i := timer.(state := Done)];
      if timer.cancelled {
        return;
      }
      rollbackSignals := rollbackSignals + [timer.workflowID];
    }

    method FireLockTimer(i: nat)
      requires i < |lockTimers|
      modifies this`lockTimers
      ensures State() == ComesDue(old(State()), i)
    {
      if lockTimers[i].state.Armed? {
        lockTimers := lockTimers[i := lockTimers[i].(state := Due)];
      }
    }

    /** A request, or a lock timer: handled at once, beside the blocked selector. */
    method Beside(e: CoordEvent)
      requires !Selected(e)
      modifies this`activeDeployment, this`cancelActiveLock, this`lockTimers, this`rollbackSignals
      ensures State() == React(old(State()), e)
      ensures rollbackSignals == old(rollbackSignals) + Signals(old(State()), e)
    {
      match e
      case Request(planID, workflowID) => var _ := RequestDeployment(planID, workflowID);
      case TimerDue(i) =>
        if i < |lockTimers| {
          FireLockTimer(i);
        }
      case TimerResume(i) =>
        if i < |lockTimers| && (lockTimers[i].state.Due? || (lockTimers[i].state.Armed? && lockTimers[i].cancelled)) {
          LockTimerGoroutine(i);
        }
    }

    /** Something comes in: a completion waits in its channel, the 24h timer becomes ready, the rest is handled. */
    method Arrive(e: CoordEvent)
      requires Tracked() && !Recycles(State())
      modifies this
      ensures Tracked() && !Recycles(State()) && arrived == old(arrived) + [e]
      ensures trace == if Selected(e) then old(trace) else old(trace) + [e]
      ensures continueAsNewRequested == old(continueAsNewRequested)
      ensures continueTimerFired == (old(continueTimerFired) || e.ContinueTimer?)
      ensures completeCh == if e.Completion? then old(completeCh) + [e] else old(completeCh)
    {
      if e.Completion? {
        hide Reactions, SignalsIn, Besides, Completions, Recycles;
        Snoc(FRESH, arrived, e);
        Assoc(Completions(trace), completeCh, [e]);
        Assoc(waiting, Completions(arrived), [e]);
        completeCh := completeCh + [e];
        arrived := arrived + [e];
      } else if e.ContinueTimer? {
        hide Reactions, SignalsIn, Besides, Completions, Recycles;
        Snoc(FRESH, arrived, e);
        continueTimerFired := true;
        arrived := arrived + [e];
      } else {
        Handle(e);
      }
    }

    method Handle(e: CoordEvent)
      requires Tracked() && !Recycles(State()) && !Selected(e)
      modifies this
      ensures Tracked() && !Recycles(State()) && arrived == old(arrived) + [e] && trace == old(trace) + [e]
      ensures continueAsNewRequested == old(continueAsNewRequested)
      ensures continueTimerFired == old(continueTimerFired) && completeCh == old(completeCh)
    {
      hide Reactions, SignalsIn, Besides, Completions, Signals, React, RecordOf, Recyclings, SelectedIn;
      BesideExtends(State(), trace, e);
      Snoc(FRESH, arrived, e);
      assert AfterSelect(State()) == State();
      hide Recycles, AfterSelect, CanHappen, Selected;
      Beside(e);
      arrived, trace := arrived + [e], trace + [e];
    }

    /** The selector takes a completion: the callback, then the test for continue-as-new. */
    method TakeCompletion() returns (recycled: bool)
      requires Tracked() && !Recycles(State()) && |completeCh| > 0
      modifies this
      ensures Tracked() && recycled == Recycles(State()) && arrived == old(arrived)
      ensures activeDeployment.None? && recycled == continueAsNewRequested
      ensures trace == old(trace) + [old(completeCh[0])] && completeCh == old(completeCh[1..])
      ensures continueAsNewRequested == old(continueAsNewRequested) && continueTimerFired == old(continueTimerFired)
    {
      var e := completeCh[0];
      ChannelHoldsCompletions();
      CompletionExtends(State(), trace, e);
      HeadMoves(Completions(trace), completeCh);
      assert AfterSelect(State()) == State();
      hide Reactions, SignalsIn, Besides, Completions, Signals, RecordOf, Recyclings, OnComplete, AfterSelect;
      completeCh := completeCh[1..];
      ReceiveCompletion(e.planID, e.workflowID, e.phase);
      trace := trace + [e];
      recycled := continueAsNewRequested && activeDeployment.None?;
    }

    /** The selector takes the fired timer, which stays ready. */
    method TakeTimer() returns (recycled: bool)
      requires Tracked() && !Recycles(State()) && continueTimerFired && !continueAsNewRequested
      modifies this
      ensures Tracked() && recycled == Recycles(State()) && arrived == old(arrived)
      ensures recycled <==> activeDeployment.None?
      ensures activeDeployment == old(activeDeployment)
      ensures trace == old(trace) + [ContinueTimer] && completeCh == old(completeCh)
      ensures continueAsNewRequested && continueTimerFired
    {
      hide Reactions, SignalsIn, Besides, Completions;
      NoSignal(State(), ContinueTimer);
      hide Signals;
      Snoc(FRESH, trace, ContinueTimer);
      continueAsNewRequested := true;
      trace := trace + [ContinueTimer];
      recycled := continueAsNewRequested && activeDeployment.None?;
    }

    /** Nothing is left that could wake the selector. */
    ghost predicate Blocked()
      reads this
    {
      completeCh == [] && (continueTimerFired ==> continueAsNewRequested)
    }

    /**
     The event loop, on everything that will ever come in. An iteration is one event taken by the selector. The
     fired timer is always ready, and still the loop never spins: the timer is in the selector only as long as
     continue-as-new has not been requested, so that a run goes around once more than it takes completions at most.
     */
    method EventLoop(inbox: seq<CoordEvent>) returns (recycled: bool, rest: seq<CoordEvent>, iterations: nat)
      requires Tracked() && State() == FRESH && !continueTimerFired && arrived == [] && trace == []
      modifies this
      ensures Tracked() && recycled == Recycles(State()) && arrived + rest == inbox
      ensures if recycled then |rest| < |inbox| else rest == [] && Blocked()
      ensures recycled <==> continueAsNewRequested && activeDeployment.None?
      ensures !recycled && ContinueTimer in inbox ==> activeDeployment.Some?
      ensures completedOps == RecordOf(trace) && Recyclings(FRESH, trace) == if recycled then 1 else 0
      ensures iterations == SelectedIn(trace) == |Completions(trace)| + if continueAsNewRequested then 1 else 0
    {
      NothingYet();
      hide Tracked, Recycles, SelectedIn, Completions, Besides, Reactions, SignalsIn;
      recycled, rest, iterations := false, inbox, 0;
      while !recycled
        invariant Tracked() && recycled == Recycles(State()) && arrived + rest == inbox
        invariant iterations == SelectedIn(trace) == |Completions(trace)| + if continueAsNewRequested then 1 else 0
        decreases |rest|, |completeCh| + if continueAsNewRequested then 0 else 1
      {
        // The future joins the selector only if it has not been taken yet.
        var timerReady := !continueAsNewRequested && continueTimerFired;
        var blocked := |completeCh| == 0 && !timerReady;
        var sooner: bool, timerFirst: bool := *, *;
        if rest != [] && (blocked || sooner) {
          Snoc(FRESH, trace, rest[0]);
          HeadMoves(arrived, rest);
          Arrive(rest[0]);
          rest := rest[1..];
        } else if blocked {
          break;
        } else if timerReady && (timerFirst || |completeCh| == 0) {
          Snoc(FRESH, trace, ContinueTimer);
          recycled := TakeTimer();
          iterations := iterations + 1;
        } else {
          ChannelHoldsCompletions();
          Snoc(FRESH, trace, completeCh[0]);
          recycled := TakeCompletion();
          iterations := iterations + 1;
        }
      }
      if recycled {
        RecycledAfterTimer();
      }
      Kept();
      RecyclesMeans();
      assert !recycled ==> arrived == inbox;
    }

    lemma RecyclesMeans()
      ensures Recycles(State()) <==> continueAsNewRequested && activeDeployment.None?
    {
    }

    lemma Kept()
      requires Tracked()
      ensures completedOps == RecordOf(trace) && Recyclings(FRESH, trace) == if Recycles(State()) then 1 else 0
      ensures continueTimerFired <==> ContinueTimer in arrived
    {
    }

    lemma NothingYet()
      ensures SelectedIn([]) == 0 && Completions([]) == [] && !Recycles(FRESH)
    {
    }

    lemma ChannelHoldsCompletions()
      requires Tracked() && |completeCh| > 0
      ensures completeCh[0].Completion?
    {
      assert completeCh[0] in completeCh;
    }

    lemma RecycledAfterTimer()
      requires Tracked() && Recycles(State())
      ensures |arrived| > 0
    {
    }
  }

  lemma HeadMoves<T>(front: seq<T>, back: seq<T>)
    requires back != []
    ensures front + back == front + [back[0]] + back[1..]
  {
  }

  lemma NoSignal(c: Coord, e: CoordEvent)
    requires Selected(e)
    ensures Signals(c, e) == [] && forall s: seq<string> :: s + Signals(c, e) == s
  {
  }

  /** What a completion adds to the run so far. */
  lemma CompletionExtends(c: Coord, trace: seq<CoordEvent>, e: CoordEvent)
    requires e.Completion? && !Recycles(c) && Reactions(FRESH, trace) == Some(c)
    ensures var c' := OnComplete(c, e.planID, e.workflowID, e.phase);
            && Reactions(FRESH, trace + [e]) == Some(AfterSelect(c'))
            && Recyclings(FRESH, trace + [e]) == Recyclings(FRESH, trace) + (if Recycles(c') then 1 else 0)
            && c'.active.None? && c'.continueAsNewRequested == c.continueAsNewRequested
            && c'.completedOps == c.completedOps + [CompletedDeployment(e.planID, e.workflowID, e.phase)]
    ensures SignalsIn(FRESH, trace + [e]) == SignalsIn(FRESH, trace)
    ensures Besides(trace + [e]) == Besides(trace) && Completions(trace + [e]) == Completions(trace) + [e]
    ensures RecordOf(trace + [e])
            == RecordOf(trace) + [CompletedDeployment(e.planID, e.workflowID, e.phase)]
  {
    Snoc(FRESH, trace, e);
    RecordSnoc(trace, e);
    RecyclesAfterCallback(c, e);
    NoSignal(c, e);
    hide Reactions, SignalsIn, Besides, Completions, Signals, RecordOf, Recyclings, SelectedIn;
  }

  /** What a request or a lock timer adds to the run so far. */
  lemma BesideExtends(c: Coord, trace: seq<CoordEvent>, e: CoordEvent)
    requires !Selected(e) && !Recycles(c) && Reactions(FRESH, trace) == Some(c)
    ensures Reactions(FRESH, trace + [e]) == Some(React(c, e)) && AfterSelect(React(c, e)) == React(c, e)
    ensures SignalsIn(FRESH, trace + [e]) == SignalsIn(FRESH, trace) + Signals(c, e)
    ensures Besides(trace + [e]) == Besides(trace) + [e] && Completions(trace + [e]) == Completions(trace)
    ensures RecordOf(trace + [e]) == RecordOf(trace) && Recyclings(FRESH, trace + [e]) == Recyclings(FRESH, trace)
    ensures !Recycles(React(c, e)) && React(c, e).continueAsNewRequested == c.continueAsNewRequested
  {
    Snoc(FRESH, trace, e);
    RecordSnoc(trace, e);
    LoopKeepsFlag(c, e);
    hide Reactions, SignalsIn, Besides, Completions, Signals, React, RecordOf, Recyclings, SelectedIn;
  }

  /** Requests and lock timers leave the flag of continue-as-new, and an idle loop idle. */
  lemma LoopKeepsFlag(c: Coord, e: CoordEvent)
    requires !Selected(e) && !Recycles(c)
    ensures !Recycles(React(c, e)) && React(c, e).continueAsNewRequested == c.continueAsNewRequested
  {
  }

  /**
   The perpetual coordinator: run after run, each continuing as new where the one before stopped. Whatever comes
   in, it handles every request, timer and completion, in order, as the specification does; each run but the last
   ends with nobody holding the lock; and it goes around at most once per completion and once per run.
   */
  method Perpetual(inbox: seq<CoordEvent>)
    returns (last: DatabaseOpsWorkflow, runs: nat, iterations: nat, signals: seq<string>, ghost all: seq<CoordEvent>)
    ensures Reactions(FRESH, all) == Some(last.State()) && signals == SignalsIn(FRESH, all)
    ensures Besides(all) == Besides(inbox) && Completions(all) == Completions(inbox)
    ensures iterations == SelectedIn(all) && runs <= iterations <= |Completions(inbox)| + runs + 1
    ensures runs == Recyclings(FRESH, all)
    ensures last.activeDeployment.None? ==> !last.continueTimerFired
    ensures TimersOwned(last.State())
  {
    last := new DatabaseOpsWorkflow([]);
    runs, iterations, signals, all := 0, 0, [], [];
    var rest, recycled := inbox, true;
    ghost var done: seq<CoordEvent>, left: seq<CoordEvent> := [], [];
    NothingHandled();
    assert done + rest == inbox;
    hide Handled, Besides, Completions, SelectedIn, Reactions, SignalsIn;
    while recycled
      invariant fresh(last) && done + rest == inbox && Handled(all, left, done)
      invariant Reactions(FRESH, all) == Some(last.State()) && signals == SignalsIn(FRESH, all)
      invariant recycled ==> last.Tracked() && last.State() == FRESH && !last.continueTimerFired
      invariant recycled ==> last.arrived == [] && last.trace == [] && last.waiting == left
      invariant !recycled ==> rest == [] && left == []
      invariant iterations == SelectedIn(all) && runs <= iterations && runs == Recyclings(FRESH, all)
      invariant !recycled ==> last.Blocked() && !(last.continueAsNewRequested && last.activeDeployment.None?)
      invariant iterations <= |Completions(all)| + runs + if recycled then 0 else 1
      decreases recycled, |rest|
    {
      var more, n;
      recycled, more, n := last.EventLoop(rest);
      RunExtends(last, all, left, done);
      Assoc(done, last.arrived, more);
      all, done, rest := all + last.trace, done + last.arrived, more;
      iterations, signals, left := iterations + n, signals + last.rollbackSignals, last.completeCh;
      if recycled {
        AfterRecycling(last);
        last := new DatabaseOpsWorkflow(last.completeCh);
        runs := runs + 1;
      }
    }
    assert done + [] == done;
    AllHandled(all, inbox);
    LockTimerOwnership(all, last.State());
  }

  lemma AfterRecycling(w: DatabaseOpsWorkflow)
    requires w.Tracked() && Recycles(w.State())
    ensures AfterSelect(w.State()) == FRESH && |w.arrived| > 0
    ensures forall e | e in w.completeCh :: e.Completion?
    ensures w.continueAsNewRequested
  {
  }

  /** All of `done` is handled, but for the completions `left` in the channel. */
  ghost predicate Handled(all: seq<CoordEvent>, left: seq<CoordEvent>, done: seq<CoordEvent>) {
    Besides(all) == Besides(done) && Completions(all) + left == Completions(done)
  }

  lemma AllHandled(all: seq<CoordEvent>, inbox: seq<CoordEvent>)
    requires Handled(all, [], inbox)
    ensures Besides(all) == Besides(inbox) && Completions(all) == Completions(inbox)
  {
    assert Completions(all) + [] == Completions(all);
  }

  lemma NothingHandled()
    ensures Reactions(FRESH, []) == Some(FRESH) && SignalsIn(FRESH, []) == [] && SelectedIn([]) == 0
    ensures Recyclings(FRESH, []) == 0
    ensures Handled([], [], []) && Completions([]) == []
  {
  }

  /** One more run of the coordinator, after `all` has been handled and `left` was left in the channel. */
  lemma RunExtends(w: DatabaseOpsWorkflow, all: seq<CoordEvent>, left: seq<CoordEvent>, done: seq<CoordEvent>)
    requires w.Tracked() && w.waiting == left && Reactions(FRESH, all) == Some(FRESH) && Handled(all, left, done)
    ensures Reactions(FRESH, all + w.trace) == Some(AfterSelect(w.State()))
    ensures SignalsIn(FRESH, all + w.trace) == SignalsIn(FRESH, all) + w.rollbackSignals
    ensures Recyclings(FRESH, all + w.trace) == Recyclings(FRESH, all) + if Recycles(w.State()) then 1 else 0
    ensures SelectedIn(all + w.trace) == SelectedIn(all) + SelectedIn(w.trace)
    ensures |Completions(all + w.trace)| == |Completions(all)| + |Completions(w.trace)|
    ensures Handled(all + w.trace, w.completeCh, done + w.arrived)
  {
    hide Besides, Completions, SelectedIn, Reactions, SignalsIn;
    Concat(FRESH, all, w.trace);
    FilterConcat(all, w.trace);
    FilterConcat(done, w.arrived);
    var before, here := Completions(all), Completions(w.trace);
    Assoc(before, here, w.completeCh);
    Assoc(before, left, Completions(w.arrived));
  }
}
