/**
 When the lock is released: within a bound once a timeout rollback has reached a parked holder, whatever
 order the internal steps are taken in; and possible at all exactly when no client has lost its grant.
 */
module ProtocolLiveness {
  import opened Wrappers
  import opened Schema
  import opened Deployment
  import opened DeploymentWork
  import opened Coordinator
  import opened Protocol
  import opened ProtocolLock
  import opened ProtocolSafety

  predicate EachFits(s: Sys, app: App) { forall t | t in s.deps :: PcFits(s.deps[t], app) }

  lemma FitsKept(s: Sys, app: App, e: SysEvent)
    requires EachFits(s, app) && SysEnabled(s, app, e)
    ensures EachFits(SysStep(s, app, e), app)
  {
    match e
    case StartRun(t) =>
      assert PcFits(Start(s.pending[t], true), app);
      assert EachFits(OnStart(s, t), app);
    case DepStep(t, ev) => DepFitsKept(s, app, t, ev);
    case DeliverTimeout(m, t) => DepFitsKept(s, app, t, SignalRollback);
    case _ => OtherEventsKeepData(s, app, e);
  }

  lemma DepFitsKept(s: Sys, app: App, t: nat, ev: Event)
    requires EachFits(s, app) && t in s.deps && Enabled(s.deps[t], app, ev)
    ensures EachFits(OnDep(s, app, t, ev), app)
  {
    WorkDecreases(s.deps[t], app, s.db, ev);
  }

  ghost predicate Reachable(s: Sys, app: App, initial: Columns) {
    exists es :: Execute(Init(initial), app, es) == Some(s)
  }

  lemma {:induction false} ExecutionsFit(s: Sys, app: App, es: seq<SysEvent>, s': Sys)
    requires LockInv(s) && EachFits(s, app) && Execute(s, app, es) == Some(s')
    ensures LockInv(s') && EachFits(s', app)
  {
    if es != [] {
      var mid := Execute(s, app, es[..|es| - 1]).value;
      ExecutionsFit(s, app, es[..|es| - 1], mid);
      LockKept(mid, app, es[|es| - 1]);
      FitsKept(mid, app, es[|es| - 1]);
    }
  }

  lemma ReachableFits(s: Sys, app: App, initial: Columns)
    requires Reachable(s, app, initial)
    ensures LockInv(s) && EachFits(s, app)
  {
    var es :| Execute(Init(initial), app, es) == Some(s);
    InitLock(initial);
    ExecutionsFit(Init(initial), app, es, s);
  }

  // ---- bounded release ----

  /** What the workers and the coordinator do by themselves; everything else comes from outside. */
  predicate SysInternal(e: SysEvent) { e.Deliver? || (e.DepStep? && Internal(e.ev)) }

  ghost predicate Quiescent(s: Sys, app: App) { forall e :: SysEnabled(s, app, e) ==> !SysInternal(e) }

  /** Parked at a gate with a rollback and no approval, or already on its way to `rolled_back`. */
  predicate Doomed(d: Dep) {
    match d.pc
    case Gate(_) => d.approvals == 0 && d.rollbacks > 0
    case Run(act, _, _, _, _) => act.CompRelease? || act.Rollback?
    case Notify(f) => f.RolledBack?
    case Returning(f) => f.RolledBack?
    case Closed(f) => f.RolledBack?
  }

  lemma DoomedStays(d: Dep, app: App, db: Database, ev: Event)
    requires Doomed(d) && Enabled(d, app, ev) && Internal(ev)
    ensures Doomed(StepDep(d, app, db, ev))
  {
    var m := MoveOf(d, app, db, ev);
    if m.Some? {
      DoomedMove(d, app, db, ev);
    } else if ev.Advance? {
      assert WorkPc(d, app, db).act == d.pc.act;
    }
  }

  lemma DoomedMove(d: Dep, app: App, db: Database, ev: Event)
    requires Doomed(d) && Enabled(d, app, ev) && Internal(ev) && MoveOf(d, app, db, ev).Some?
    ensures var pc := MoveOf(d, app, db, ev).value.next;
            (pc.Run? && (pc.act.CompRelease? || pc.act.Rollback?)) || pc == Notify(RolledBack)
  {
  }

  /** The deployments that have sent their completion and not returned. */
  function Lingerers(s: Sys): set<nat> { set t | t in s.deps && Lingering(s, t) }

  /** Steps left until the lock is free and everyone has returned. */
  function Remaining(s: Sys, app: App, t: nat): int
    requires t in s.deps
  {
    Work(s.deps[t], app) + |s.inflight| + |Lingerers(s) - {t}|
  }

  /** The holder is doomed, or has already been released. */
  predicate Releasing(s: Sys, t: nat) {
    && t in s.deps && Doomed(s.deps[t])
    && (s.coord.active.Some? ==> s.grants == t + 1 && (Running(s, t) || s.inflight != multiset{}))
  }

  lemma ReleasingStep(s: Sys, app: App, t: nat, e: SysEvent)
    requires LockInv(s) && EachFits(s, app) && Releasing(s, t) && SysEnabled(s, app, e) && SysInternal(e)
    ensures Releasing(SysStep(s, app, e), t)
    ensures Remaining(SysStep(s, app, e), app, t) < Remaining(s, app, t)
  {
    OnlyTheHolderRuns(s, t);
    match e
    case Deliver(m) =>
      CompletionNamesTheHolder(s, m);
      assert SysStep(s, app, e).inflight == multiset{};
      SameLingerers(s, SysStep(s, app, e));
    case DepStep(u, ev) =>
      if u == t {
        HolderSteps(s, app, t, ev);
      } else {
        LingererReturns(s, app, t, u, ev);
      }
  }

  lemma OnlyTheHolderRuns(s: Sys, t: nat)
    requires LockInv(s) && Releasing(s, t)
    ensures forall u | u in s.deps && u != t :: !Running(s, u)
  {
    var mode :| InMode(s, mode);
    assert forall u :: Running(s, u) ==> mode.Active? && s.coord.active.Some?;
  }

  lemma SameLingerers(s: Sys, s': Sys)
    requires s'.deps == s.deps
    ensures Lingerers(s') == Lingerers(s)
  {
    assert forall u :: Lingering(s', u) <==> Lingering(s, u);
  }

  lemma HolderSteps(s: Sys, app: App, t: nat, ev: Event)
    requires LockInv(s) && EachFits(s, app) && Releasing(s, t) && Enabled(s.deps[t], app, ev) && Internal(ev)
    ensures Releasing(OnDep(s, app, t, ev), t)
    ensures Remaining(OnDep(s, app, t, ev), app, t) < Remaining(s, app, t)
  {
    var s' := OnDep(s, app, t, ev);
    DepStepFrame(s.deps[t], app, s.db, ev);
    DoomedStays(s.deps[t], app, s.db, ev);
    WorkDecreases(s.deps[t], app, s.db, ev);
    var d' := StepDep(s.deps[t], app, s.db, ev);
    OtherLingerers(s, app, t, ev);
    hide LockInv, EachFits, Enabled, StepDep, StepDb, Lingerers, Doomed;
    if ev.SendNotify? {
      ClosingLeavesLess(s.deps[t].pc.final, s.deps[t].plan, app);
      SendingReturns(s.deps[t], app, s.db);
      assert Work(s.deps[t], app) == 3 && Work(d', app) == 1;
      HolderHasParent(s, t);
    } else {
      assert Sent(s.deps[t], t, ev) == multiset{};
      assert s'.inflight == s.inflight;
      assert Running(s', t) <==> Running(s, t);
    }
  }

  lemma OtherLingerers(s: Sys, app: App, t: nat, ev: Event)
    requires t in s.deps && Enabled(s.deps[t], app, ev)
    ensures Lingerers(OnDep(s, app, t, ev)) - {t} == Lingerers(s) - {t}
  {
    var s' := OnDep(s, app, t, ev);
    assert forall u | u in s.deps && u != t :: Lingering(s', u) <==> Lingering(s, u);
  }

  lemma HolderHasParent(s: Sys, t: nat)
    requires LockInv(s) && t in s.deps
    ensures s.deps[t].hasParent
  {
  }

  lemma SendingReturns(d: Dep, app: App, db: Database)
    requires d.pc.Notify?
    ensures StepDep(d, app, db, SendNotify).pc == Returning(d.pc.final)
    ensures StepDep(d, app, db, SendNotify).plan == d.plan
  {
  }

  /** All that a deployment which has sent its completion does by itself is to return. */
  lemma LingererReturns(s: Sys, app: App, t: nat, u: nat, ev: Event)
    requires Releasing(s, t) && u in s.deps && u != t && Reported(s.deps[u].pc)
    requires Enabled(s.deps[u], app, ev) && Internal(ev)
    ensures Releasing(OnDep(s, app, u, ev), t)
    ensures Remaining(OnDep(s, app, u, ev), app, t) < Remaining(s, app, t)
  {
    var s' := OnDep(s, app, u, ev);
    LingeringStep(s.deps[u], app, s.db, ev);
    DepStepFrame(s.deps[u], app, s.db, ev);
    assert ev.Return? && Lingering(s, u) && !Lingering(s', u);
    assert s'.inflight == s.inflight && s'.deps[t] == s.deps[t];
    assert Lingerers(s') - {t} == Lingerers(s) - {t} - {u} by {
      assert forall v | v in s.deps && v != u :: Lingering(s', v) <==> Lingering(s, v);
    }
    assert Running(s', t) <==> Running(s, t);
  }

  lemma {:induction false} ReleasingRun(s: Sys, app: App, t: nat, es: seq<SysEvent>, s': Sys)
    requires LockInv(s) && EachFits(s, app) && Releasing(s, t)
    requires Execute(s, app, es) == Some(s') && forall e :: e in es ==> SysInternal(e)
    ensures LockInv(s') && EachFits(s', app) && Releasing(s', t)
    ensures |es| + Remaining(s', app, t) <= Remaining(s, app, t)
  {
    if es != [] {
      var mid := Execute(s, app, es[..|es| - 1]).value;
      ReleasingRun(s, app, t, es[..|es| - 1], mid);
      assert es[|es| - 1] in es;
      ReleasingStep(mid, app, t, es[|es| - 1]);
      LockKept(mid, app, es[|es| - 1]);
      FitsKept(mid, app, es[|es| - 1]);
    }
  }

  /** While the lock is held by a doomed deployment, something internal can always happen. */
  lemma ReleasingIsNotStuck(s: Sys, app: App, t: nat)
    requires LockInv(s) && EachFits(s, app) && Releasing(s, t) && Quiescent(s, app)
    ensures s.coord.active.None? && s.deps[t].pc == Closed(RolledBack)
  {
    if !s.deps[t].pc.Closed? {
      var ev := NeverStuck(s.deps[t], app);
      assert SysEnabled(s, app, DepStep(t, ev)) && SysInternal(DepStep(t, ev));
      assert false;
    }
    if s.coord.active.Some? {
      var m :| m in s.inflight;
      assert SysEnabled(s, app, Deliver(m)) && SysInternal(Deliver(m));
    }
  }

  /**
   The holder is parked at a gate without approvals and a rollback (a lock timeout's, say) has reached it.
   Then every schedule of internal steps stops within a bound that its plan fixes, one step more for each earlier
   deployment that has yet to return; and where it cannot go on the deployment has ended in `rolled_back` and the
   lock is free.
   */
  lemma BoundedRelease(s: Sys, app: App, initial: Columns, t: nat, es: seq<SysEvent>, s': Sys)
    requires Reachable(s, app, initial) && Running(s, t)
    requires s.deps[t].pc.Gate? && s.deps[t].approvals == 0 && s.deps[t].rollbacks > 0
    requires Execute(s, app, es) == Some(s') && forall e :: e in es ==> SysInternal(e)
    ensures |es| <= Work(s.deps[t], app) + |Lingerers(s)|
    ensures Quiescent(s', app) ==> s'.coord.active.None? && t in s'.deps && s'.deps[t].pc == Closed(RolledBack)
  {
    ReachableFits(s, app, initial);
    RunsToRelease(s, app, t, es, s');
  }

  lemma ParkedReleases(s: Sys, app: App, t: nat)
    requires LockInv(s) && Running(s, t) && s.deps[t].pc.Gate? && s.deps[t].approvals == 0 && s.deps[t].rollbacks > 0
    ensures Releasing(s, t) && Remaining(s, app, t) == Work(s.deps[t], app) + |Lingerers(s)|
  {
    assert InMode(s, Active);
    assert Lingerers(s) - {t} == Lingerers(s);
  }

  lemma RemainingIsNatural(s: Sys, app: App, t: nat)
    requires EachFits(s, app) && Releasing(s, t)
    ensures Remaining(s, app, t) >= 0
  {
    WorkIsNatural(s.deps[t], app);
  }

  lemma RunsToRelease(s: Sys, app: App, t: nat, es: seq<SysEvent>, s': Sys)
    requires LockInv(s) && EachFits(s, app) && Running(s, t)
    requires s.deps[t].pc.Gate? && s.deps[t].approvals == 0 && s.deps[t].rollbacks > 0
    requires Execute(s, app, es) == Some(s') && forall e :: e in es ==> SysInternal(e)
    ensures |es| <= Work(s.deps[t], app) + |Lingerers(s)|
    ensures Quiescent(s', app) ==> s'.coord.active.None? && t in s'.deps && s'.deps[t].pc == Closed(RolledBack)
  {
    ParkedReleases(s, app, t);
    hide LockInv, EachFits, Execute, Releasing, SysInternal, Lingerers, Quiescent, Work;
    ReleasingRun(s, app, t, es, s');
    RemainingIsNatural(s', app, t);
    if Quiescent(s', app) {
      ReleasingIsNotStuck(s', app, t);
    }
  }

  /**
   A lock timer signals while the holder is parked at a gate without approvals. Its rollback can be delivered to the
   holder, and after that every schedule of internal steps stops within the bound, with the lock free.
   */
  lemma TimeoutFreesTheLock(s: Sys, app: App, initial: Columns, i: nat, t: nat, es: seq<SysEvent>, s': Sys)
    requires Reachable(s, app, initial) && SysEnabled(s, app, LockTimerResumes(i))
    requires TimeoutTarget(s.coord, i).Some?
    requires Running(s, t) && s.deps[t].pc.Gate? && s.deps[t].approvals == 0
    ensures var fired, m := SysStep(s, app, LockTimerResumes(i)), Timeout(t, WorkflowID(s.deps[t].plan.id));
            && m in fired.mail && SysEnabled(fired, app, DeliverTimeout(m, t))
            && var hit := SysStep(fired, app, DeliverTimeout(m, t));
               Execute(hit, app, es) == Some(s') && (forall e :: e in es ==> SysInternal(e)) ==>
                 && |es| <= Work(s.deps[t], app) + |Lingerers(s)|
                 && (Quiescent(s', app) ==>
                       s'.coord.active.None? && t in s'.deps && s'.deps[t].pc == Closed(RolledBack))
  {
    ReachableFits(s, app, initial);
    var fired, m := SysStep(s, app, LockTimerResumes(i)), Timeout(t, WorkflowID(s.deps[t].plan.id));
    TimerHitsTheHolder(s, app, i, t);
    LockKept(s, app, LockTimerResumes(i));
    FitsKept(s, app, LockTimerResumes(i));
    assert SysEnabled(fired, app, DeliverTimeout(m, t));
    var hit := SysStep(fired, app, DeliverTimeout(m, t));
    LockKept(fired, app, DeliverTimeout(m, t));
    FitsKept(fired, app, DeliverTimeout(m, t));
    DeliveredRollback(fired, s, app, m, t);
    hide Execute, LockInv, EachFits, SysStep, SysEnabled, Quiescent, SysInternal, Work, Lingerers;
    if Execute(hit, app, es) == Some(s') && forall e :: e in es ==> SysInternal(e) {
      RunsToRelease(hit, app, t, es, s');
    }
  }

  lemma TimerHitsTheHolder(s: Sys, app: App, i: nat, t: nat)
    requires LockInv(s) && SysEnabled(s, app, LockTimerResumes(i)) && TimeoutTarget(s.coord, i).Some? && Running(s, t)
    ensures Timeout(t, WorkflowID(s.deps[t].plan.id)) in SysStep(s, app, LockTimerResumes(i)).mail
    ensures SysStep(s, app, LockTimerResumes(i)).deps == s.deps
  {
    TimerSignals(s, i);
    MutualExclusion(s);
    assert InMode(s, Active);
    hide LockInv, Occupancy, WorkflowID;
  }

  lemma DeliveredRollback(fired: Sys, s: Sys, app: App, m: Timeout, t: nat)
    requires SysEnabled(fired, app, DeliverTimeout(m, t)) && fired.deps == s.deps && Running(s, t)
    requires s.deps[t].pc.Gate?
    ensures var hit := SysStep(fired, app, DeliverTimeout(m, t));
            && Running(hit, t) && hit.deps[t] == s.deps[t].(rollbacks := s.deps[t].rollbacks + 1)
            && Lingerers(hit) == Lingerers(s) && Work(hit.deps[t], app) == Work(s.deps[t], app)
  {
    var hit := SysStep(fired, app, DeliverTimeout(m, t));
    assert hit.deps == s.deps[t := s.deps[t].(rollbacks := s.deps[t].rollbacks + 1)];
    assert forall u | u in s.deps :: Lingering(hit, u) <==> Lingering(s, u);
  }

  // ---- when release is possible at all ----

  /** A lost grant: nothing that can happen changes the holder, so no request is granted any more. */
  lemma {:induction false} AbandonedForever(s: Sys, app: App, es: seq<SysEvent>, s': Sys)
    requires LockInv(s) && s.orphans != {} && Execute(s, app, es) == Some(s')
    ensures LockInv(s') && s'.orphans == s.orphans && s'.coord.active == s.coord.active && s'.grants == s.grants
    ensures !Accepts(s'.coord)
  {
    if es == [] {
      assert InMode(s, Abandoned);
    } else {
      var mid, e := Execute(s, app, es[..|es| - 1]).value, es[|es| - 1];
      AbandonedForever(s, app, es[..|es| - 1], mid);
      LockKept(mid, app, e);
      AbandonedStep(mid, app, e);
    }
  }

  lemma AbandonedStep(s: Sys, app: App, e: SysEvent)
    requires LockInv(s) && s.orphans != {} && SysEnabled(s, app, e)
    ensures var s' := SysStep(s, app, e);
            s'.orphans == s.orphans && s'.coord.active == s.coord.active && s'.grants == s.grants
    ensures s.coord.active.Some?
  {
    assert InMode(s, Abandoned);
    match e
    case RequestLock(plan) =>
    case LoseGrant(t) =>
    case StartRun(t) =>
    case DepStep(t, ev) =>
    case Deliver(m) =>
    case DeliverTimeout(m, t) =>
    case _ =>
  }

  lemma {:induction false} ExecuteCons(s: Sys, app: App, e: SysEvent, es: seq<SysEvent>)
    requires SysEnabled(s, app, e)
    ensures Execute(s, app, [e] + es) == Execute(SysStep(s, app, e), app, es)
  {
    hide SysEnabled, SysStep;
    if es == [] {
      assert [e][..0] == [] && [e] + es == [e];
    } else {
      FrontAndLast([e], es);
      var front := es[..|es| - 1];
      ExecuteCons(s, app, e, front);
      assert ([e] + es)[..|es|] == [e] + front && ([e] + es)[|es|] == es[|es| - 1];
    }
  }

  /** Some execution from here frees the lock. */
  ghost predicate Freeable(s: Sys, app: App) {
    exists es :: Execute(s, app, es).Some? && Execute(s, app, es).value.coord.active.None?
  }

  lemma FreeableAfter(s: Sys, app: App, e: SysEvent)
    requires SysEnabled(s, app, e) && Freeable(SysStep(s, app, e), app)
    ensures Freeable(s, app)
  {
    var es :| Execute(SysStep(s, app, e), app, es).Some?
        && Execute(SysStep(s, app, e), app, es).value.coord.active.None?;
    ExecuteCons(s, app, e, es);
  }

  /** A running holder can be brought to report back: interrupt it, roll it back at a gate. */
  lemma {:induction false} RunningIsFreeable(s: Sys, app: App, t: nat)
    requires LockInv(s) && EachFits(s, app) && Running(s, t)
    ensures Freeable(s, app)
    decreases if PcFits(s.deps[t], app) then Work(s.deps[t], app) else 0, if Waiting(s.deps[t]) then 1 else 0
  {
    var d := s.deps[t];
    if Waiting(d) {
      var s1 := SysStep(s, app, DepStep(t, SignalRollback));
      DepKeepsLock(s, app, t, SignalRollback);
      DepFitsKept(s, app, t, SignalRollback);
      WorkDecreases(d, app, s.db, SignalRollback);
      RunningIsFreeable(s1, app, t);
      FreeableAfter(s, app, DepStep(t, SignalRollback));
    } else {
      var ev := NeverStuck(d, app);
      var s1 := SysStep(s, app, DepStep(t, ev));
      DepKeepsLock(s, app, t, ev);
      DepFitsKept(s, app, t, ev);
      WorkDecreases(d, app, s.db, ev);
      WorkIsNatural(s1.deps[t], app);
      if Running(s1, t) {
        RunningIsFreeable(s1, app, t);
      } else {
        DepStepFrame(d, app, s.db, ev);
        MutualExclusion(s);
        ReportingIsFreeable(s1, app);
      }
      FreeableAfter(s, app, DepStep(t, ev));
    }
  }

  lemma ReportingIsFreeable(s: Sys, app: App)
    requires LockInv(s) && s.coord.active.Some? && s.pending == map[] && s.orphans == {} && forall t :: !Running(s, t)
    ensures Freeable(s, app)
  {
    var mode :| InMode(s, mode);
    var holder: nat := s.grants - 1;
    assert mode.Active? <==> Running(s, holder);
    assert mode.Granted? <==> holder in s.pending.Keys;
    assert mode.Reporting?;
    var m := Report(s, s.deps[s.grants - 1].pc.final);
    CompletionNamesTheHolder(s, m);
    assert Execute(SysStep(s, app, Deliver(m)), app, []).Some?;
    FreeableAfter(s, app, Deliver(m));
  }

  /** A client with a grant starts its deployment, after one that still has the ID has returned. */
  lemma GrantedIsFreeable(s: Sys, app: App, t: nat)
    requires LockInv(s) && EachFits(s, app) && t in s.pending
    ensures Freeable(s, app)
  {
    if IDInUse(s, WorkflowID(s.pending[t].id)) {
      OpenIsLingering(s, t);
      var u :| u in s.deps && Open(s, u) && WorkflowID(s.deps[u].plan.id) == WorkflowID(s.pending[t].id);
      var s1 := SysStep(s, app, DepStep(u, Return));
      LockKept(s, app, DepStep(u, Return));
      FitsKept(s, app, DepStep(u, Return));
      IDIsFree(s, app, u, WorkflowID(s.pending[t].id));
      StartedIsFreeable(s1, app, t);
      FreeableAfter(s, app, DepStep(u, Return));
    } else {
      StartedIsFreeable(s, app, t);
    }
  }

  lemma IDIsFree(s: Sys, app: App, u: nat, w: string)
    requires LockInv(s) && Lingering(s, u) && WorkflowID(s.deps[u].plan.id) == w
    ensures !IDInUse(SysStep(s, app, DepStep(u, Return)), w)
  {
    var s' := SysStep(s, app, DepStep(u, Return));
    DepStepFrame(s.deps[u], app, s.db, Return);
    hide WorkflowID, StepDep, StepDb, InMode, Ticketed;
    assert forall v | v in s.deps && v != u :: s'.deps[v] == s.deps[v];
  }

  lemma StartedIsFreeable(s: Sys, app: App, t: nat)
    requires LockInv(s) && EachFits(s, app) && t in s.pending && !IDInUse(s, WorkflowID(s.pending[t].id))
    ensures Freeable(s, app)
  {
    StartKeepsLock(s, t);
    FitsKept(s, app, StartRun(t));
    assert Running(SysStep(s, app, StartRun(t)), t);
    RunningIsFreeable(SysStep(s, app, StartRun(t)), app, t);
    FreeableAfter(s, app, StartRun(t));
  }

  /** The lock of a reachable state can be released if and only if no client has lost a grant. */
  lemma LockIsFreeableIffNotAbandoned(s: Sys, app: App, initial: Columns)
    requires Reachable(s, app, initial)
    ensures Freeable(s, app) <==> s.orphans == {}
  {
    ReachableFits(s, app, initial);
    if s.orphans != {} {
      forall es | Execute(s, app, es).Some? ensures Execute(s, app, es).value.coord.active.Some? {
        AbandonedForever(s, app, es, Execute(s, app, es).value);
      }
    } else {
      var mode :| InMode(s, mode);
      match mode
      case Free => assert Execute(s, app, []).Some?;
      case Granted =>
        GrantedIsFreeable(s, app, s.grants - 1);
      case Active => RunningIsFreeable(s, app, s.grants - 1);
      case Reporting => ReportingIsFreeable(s, app);
      case Abandoned => assert false;
    }
  }
}
