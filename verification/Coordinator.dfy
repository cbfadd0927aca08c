/**
 DatabaseOpsWorkflow, the schema lock of one database, as functions on its state.
 Module CoordinatorWorkflow proves the imperative workflow against these.
 (internal/bluegreen/db_ops_workflow.go)
 */
module Coordinator {
  import opened Wrappers
  import opened Deployment

  datatype ActiveDeployment = ActiveDeployment(planID: string, workflowID: string)
  datatype CompletedDeployment = CompletedDeployment(planID: string, workflowID: string, finalPhase: Phase)

  /** A lock-timer goroutine: waiting, resumable because its timer fired, or gone. */
  datatype TimerState = Armed | Due | Done
  datatype LockTimer = LockTimer(workflowID: string, cancelled: bool, state: TimerState)

  datatype Coord = Coord(
    active: Option<ActiveDeployment>,
    completedOps: seq<CompletedDeployment>,
    cancelActiveLock: Option<nat>,   // the timer it cancels; None is the no-op
    timers: seq<LockTimer>,
    continueAsNewRequested: bool)

  const FRESH := Coord(None, [], None, [], false)

  /** The update validator. */
  predicate Accepts(c: Coord) { c.active.None? }

  /** The update handler. */
  function Grant(c: Coord, planID: string, workflowID: string): Coord {
    c.(active := Some(ActiveDeployment(planID, workflowID)),
       cancelActiveLock := Some(|c.timers|),
       timers := c.timers + [LockTimer(workflowID, false, Armed)])
  }

  function CancelLock(c: Coord): Coord {
    if c.cancelActiveLock.Some? && c.cancelActiveLock.value < |c.timers| then
      var i := c.cancelActiveLock.value;
      c.(timers := c.timers[i := c.timers[i].(cancelled := true)], cancelActiveLock := None)
    else c.(cancelActiveLock := None)
  }

  /** The completion callback. It never compares the payload with the active deployment. */
  function OnComplete(c: Coord, planID: string, workflowID: string, phase: Phase): Coord {
    CancelLock(c).(
      completedOps := c.completedOps + [CompletedDeployment(planID, workflowID, phase)],
      active := None)
  }

  predicate Recycles(c: Coord) { c.continueAsNewRequested && c.active.None? }

  /** The end of a loop iteration: continue-as-new drops all state. */
  function AfterSelect(c: Coord): Coord { if Recycles(c) then FRESH else c }

  /** A lock timer fires; its goroutine has not run yet. */
  function ComesDue(c: Coord, i: nat): Coord
    requires i < |c.timers|
  {
    if c.timers[i].state.Armed? then c.(timers := c.timers[i := c.timers[i].(state := Due)]) else c
  }

  /** The goroutine can run: its timer fired or its context was cancelled. */
  predicate Resumable(c: Coord, i: nat) {
    i < |c.timers| && (c.timers[i].state.Due? || (c.timers[i].state.Armed? && c.timers[i].cancelled))
  }

  /** It signals only if its context has not been cancelled in the meantime. */
  function TimeoutTarget(c: Coord, i: nat): Option<string>
    requires i < |c.timers|
  {
    if c.timers[i].cancelled then None else Some(c.timers[i].workflowID)
  }

  function Resumes(c: Coord, i: nat): Coord
    requires i < |c.timers|
  {
    c.(timers := c.timers[i := c.timers[i].(state := Done)])
  }

  // ---- lock-timer ownership, whatever arrives ----

  datatype CoordEvent =
    | Request(planID: string, workflowID: string)
    | Completion(planID: string, workflowID: string, phase: Phase)
    | ContinueTimer
    | TimerDue(timer: nat)
    | TimerResume(timer: nat)

  /** The selector takes the fired 24h timer only as long as continue-as-new has not been requested. */
  predicate CanHappen(c: Coord, e: CoordEvent) { e.ContinueTimer? ==> !c.continueAsNewRequested }

  /** The events that end an iteration of the loop; handlers and timer goroutines run beside it. */
  predicate Selected(e: CoordEvent) { e.Completion? || e.ContinueTimer? }

  function Callback(c: Coord, e: CoordEvent): Coord {
    match e
    case Completion(p, w, ph) => OnComplete(c, p, w, ph)
    case ContinueTimer => c.(continueAsNewRequested := true)
    case _ => c
  }

  function React(c: Coord, e: CoordEvent): Coord
    requires CanHappen(c, e)
  {
    match e
    case Request(p, w) => if Accepts(c) then Grant(c, p, w) else c
    case TimerDue(i) => if i < |c.timers| then ComesDue(c, i) else c
    case TimerResume(i) => if Resumable(c, i) then Resumes(c, i) else c
    case _ => AfterSelect(Callback(c, e))
  }

  /** Exactly the active deployment has a lock timer that is not cancelled. */
  predicate TimersOwned(c: Coord) {
    && (c.active.Some? <==> c.cancelActiveLock.Some?)
    && (c.cancelActiveLock.Some? ==>
          c.cancelActiveLock.value < |c.timers| && !c.timers[c.cancelActiveLock.value].cancelled)
    && (forall i :: 0 <= i < |c.timers| && !c.timers[i].cancelled ==>
          && c.cancelActiveLock == Some(i)
          && c.active.Some? && c.timers[i].workflowID == c.active.value.workflowID)
    && !Recycles(c)
  }

  lemma TimersStayOwned(c: Coord, e: CoordEvent)
    requires TimersOwned(c) && CanHappen(c, e)
    ensures TimersOwned(React(c, e))
  {
  }

  function Reactions(c: Coord, es: seq<CoordEvent>): Option<Coord> {
    if es == [] then Some(c)
    else
      match Reactions(c, es[..|es| - 1])
      case None => None
      case Some(c') => if CanHappen(c', es[|es| - 1]) then Some(React(c', es[|es| - 1])) else None
  }

  /** In every state of every run of the coordinator, at most one lock timer is live, and none without a holder. */
  lemma {:induction false} LockTimerOwnership(es: seq<CoordEvent>, c: Coord)
    requires Reactions(FRESH, es) == Some(c)
    ensures TimersOwned(c)
    ensures c.active.Some? ==> exists i :: 0 <= i < |c.timers| && !c.timers[i].cancelled
    ensures forall i, j :: 0 <= i < |c.timers| && 0 <= j < |c.timers| ==>
              !c.timers[i].cancelled && !c.timers[j].cancelled ==> i == j
    ensures forall i: nat | i < |c.timers| :: Resumable(c, i) ==>
              if c.timers[i].cancelled then TimeoutTarget(c, i).None?
              else c.active.Some? && TimeoutTarget(c, i) == Some(c.active.value.workflowID)
  {
    if es != [] {
      var c' := Reactions(FRESH, es[..|es| - 1]).value;
      LockTimerOwnership(es[..|es| - 1], c');
      TimersStayOwned(c', es[|es| - 1]);
    }
  }

  /** The rollback signals a reaction sends, by workflow ID. */
  function Signals(c: Coord, e: CoordEvent): seq<string> {
    if e.TimerResume? && Resumable(c, e.timer) && TimeoutTarget(c, e.timer).Some? then
      [TimeoutTarget(c, e.timer).value]
    else []
  }

  /** The rollback signals sent over a whole run. */
  function SignalsIn(c: Coord, es: seq<CoordEvent>): seq<string> {
    if es == [] then []
    else
      SignalsIn(c, es[..|es| - 1])
      + match Reactions(c, es[..|es| - 1])
        case None => []
        case Some(c') => Signals(c', es[|es| - 1])
  }

  /** The locks granted over a whole run. */
  function GrantsIn(c: Coord, es: seq<CoordEvent>): nat {
    if es == [] then 0
    else
      GrantsIn(c, es[..|es| - 1])
      + match Reactions(c, es[..|es| - 1])
        case None => 0
        case Some(c') => if es[|es| - 1].Request? && c'.active.None? then 1 else 0
  }

  /** The lock timers whose goroutine has not ended. */
  function Pending(c: Coord): set<nat> { set i: nat | i < |c.timers| && !c.timers[i].state.Done? }

  lemma ReactionLeavesPending(c: Coord, e: CoordEvent)
    requires CanHappen(c, e)
    ensures |Pending(React(c, e))| + |Signals(c, e)| <= |Pending(c)| + if e.Request? && c.active.None? then 1 else 0
  {
    assert Pending(FRESH) == {};
    match e
    case Request(p, w) => assert Pending(Grant(c, p, w)) == Pending(c) + {|c.timers|};
    case TimerDue(i) =>
      if i < |c.timers| {
        assert Pending(ComesDue(c, i)) == Pending(c);
      }
    case TimerResume(i) =>
      if Resumable(c, i) {
        assert i in Pending(c) && Pending(Resumes(c, i)) == Pending(c) - {i};
      }
    case Completion(p, w, ph) => CompletionLeavesPending(c, p, w, ph);
    case ContinueTimer => assert Pending(c.(continueAsNewRequested := true)) == Pending(c);
  }

  lemma CompletionLeavesPending(c: Coord, p: string, w: string, ph: Phase)
    ensures Pending(OnComplete(c, p, w, ph)) == Pending(c)
  {
  }

  /** A grant is answered by at most one rollback signal, whatever arrives and however timers and completions race. */
  lemma {:induction false} OneSignalPerGrant(es: seq<CoordEvent>, c: Coord)
    requires Reactions(FRESH, es) == Some(c)
    ensures |SignalsIn(FRESH, es)| + |Pending(c)| <= GrantsIn(FRESH, es)
  {
    if es == [] {
      assert Pending(FRESH) == {};
    } else {
      var c' := Reactions(FRESH, es[..|es| - 1]).value;
      OneSignalPerGrant(es[..|es| - 1], c');
      ReactionLeavesPending(c', es[|es| - 1]);
      hide React, Pending, Signals;
    }
  }

  // ---- what a sequence of events is made of ----

  /** The events that need no selector, in order. */
  function Besides(es: seq<CoordEvent>): seq<CoordEvent> {
    if es == [] then []
    else if Selected(es[|es| - 1]) then Besides(es[..|es| - 1])
    else Besides(es[..|es| - 1]) + [es[|es| - 1]]
  }

  /** The completions, in order. */
  function Completions(es: seq<CoordEvent>): seq<CoordEvent> {
    if es == [] then []
    else if es[|es| - 1].Completion? then Completions(es[..|es| - 1]) + [es[|es| - 1]]
    else Completions(es[..|es| - 1])
  }

  function SelectedIn(es: seq<CoordEvent>): nat {
    if es == [] then 0 else SelectedIn(es[..|es| - 1]) + if Selected(es[|es| - 1]) then 1 else 0
  }

  /** The completed deployments that a run records. */
  function RecordOf(es: seq<CoordEvent>): seq<CompletedDeployment> {
    if es == [] then []
    else
      RecordOf(es[..|es| - 1])
      + match es[|es| - 1]
        case Completion(p, w, ph) => [CompletedDeployment(p, w, ph)]
        case _ => []
  }

  /** The 24h timer is taken while nobody is active, or a completion is processed after it was taken. */
  predicate RecyclesNow(c: Coord, e: CoordEvent) {
    (e.ContinueTimer? && c.active.None?) || (e.Completion? && c.continueAsNewRequested)
  }

  /** How often the coordinator continues as new. */
  function Recyclings(c: Coord, es: seq<CoordEvent>): nat {
    if es == [] then 0
    else
      Recyclings(c, es[..|es| - 1])
      + match Reactions(c, es[..|es| - 1])
        case None => 0
        case Some(c') => if RecyclesNow(c', es[|es| - 1]) then 1 else 0
  }

  lemma RecyclesAfterCallback(c: Coord, e: CoordEvent)
    requires !Recycles(c) && CanHappen(c, e)
    ensures Recycles(Callback(c, e)) <==> RecyclesNow(c, e)
  {
  }

  lemma RecordSnoc(es: seq<CoordEvent>, e: CoordEvent)
    ensures RecordOf(es + [e])
            == RecordOf(es) + if e.Completion? then [CompletedDeployment(e.planID, e.workflowID, e.phase)] else []
  {
    assert (es + [e])[..|es|] == es;
  }

  lemma Snoc(c: Coord, es: seq<CoordEvent>, e: CoordEvent)
    ensures Besides(es + [e]) == if Selected(e) then Besides(es) else Besides(es) + [e]
    ensures Completions(es + [e]) == if e.Completion? then Completions(es) + [e] else Completions(es)
    ensures SelectedIn(es + [e]) == SelectedIn(es) + if Selected(e) then 1 else 0
    ensures Reactions(c, es).Some? && CanHappen(Reactions(c, es).value, e) ==>
              && Reactions(c, es + [e]) == Some(React(Reactions(c, es).value, e))
              && SignalsIn(c, es + [e]) == SignalsIn(c, es) + Signals(Reactions(c, es).value, e)
              && Recyclings(c, es + [e]) == Recyclings(c, es) + if RecyclesNow(Reactions(c, es).value, e) then 1 else 0
  {
    assert (es + [e])[..|es|] == es;
  }

  lemma ReactionsLast(c: Coord, es: seq<CoordEvent>)
    requires es != [] && Reactions(c, es).Some?
    ensures Reactions(c, es[..|es| - 1]).Some?
    ensures CanHappen(Reactions(c, es[..|es| - 1]).value, es[|es| - 1])
  {
  }

  /** One run after another. */
  lemma {:induction false} Concat(c: Coord, a: seq<CoordEvent>, b: seq<CoordEvent>)
    requires Reactions(c, a).Some? && Reactions(Reactions(c, a).value, b).Some?
    ensures Reactions(c, a + b) == Reactions(Reactions(c, a).value, b)
    ensures SignalsIn(c, a + b) == SignalsIn(c, a) + SignalsIn(Reactions(c, a).value, b)
    ensures Recyclings(c, a + b) == Recyclings(c, a) + Recyclings(Reactions(c, a).value, b)
  {
    var mid := Reactions(c, a).value;
    if b == [] {
      assert a + b == a && SignalsIn(c, a) + [] == SignalsIn(c, a);
    } else {
      ReactionsLast(mid, b);
      FrontAndLast(a, b);
      hide *;
      var front, e := b[..|b| - 1], b[|b| - 1];
      Concat(c, a, front);
      Snoc(c, a + front, e);
      Snoc(mid, front, e);
      Assoc(SignalsIn(c, a), SignalsIn(mid, front), Signals(Reactions(mid, front).value, e));
    }
  }

  lemma {:induction false} FilterConcat(a: seq<CoordEvent>, b: seq<CoordEvent>)
    ensures Besides(a + b) == Besides(a) + Besides(b) && Completions(a + b) == Completions(a) + Completions(b)
    ensures SelectedIn(a + b) == SelectedIn(a) + SelectedIn(b)
  {
    if b == [] {
      assert a + b == a && Besides(a) + [] == Besides(a) && Completions(a) + [] == Completions(a);
    } else {
      FrontAndLast(a, b);
      hide Besides, Completions, SelectedIn;
      var front, e := b[..|b| - 1], b[|b| - 1];
      FilterConcat(a, front);
      Snoc(FRESH, a + front, e);
      Snoc(FRESH, front, e);
      Assoc(Besides(a), Besides(front), [e]);
      Assoc(Completions(a), Completions(front), [e]);
    }
  }
}
