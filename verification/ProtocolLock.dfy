/**
 Mutual exclusion of the composed protocol, who owns the lock, and the conservation of grants.
 */
module ProtocolLock {
  import opened Wrappers
  import opened Schema
  import opened Deployment
  import opened DeploymentLog
  import opened Coordinator
  import opened Protocol

  function RunningSet(s: Sys): set<nat> { set t | t in s.deps && Running(s, t) }

  /** Everything that stands for a granted lock: unstarted, abandoned, running, or a completion on its way. */
  function Occupancy(s: Sys): nat {
    |s.pending.Keys| + |s.orphans| + |RunningSet(s)| + |s.inflight|
  }

  datatype Mode = Free | Granted | Abandoned | Active | Reporting

  /** The four ways to hold the lock, and the one not to; each fixes all four parts at once. */
  ghost predicate InMode(s: Sys, mode: Mode) {
    && (mode.Free? <==> s.coord.active.None?)
    && (!mode.Free? ==> s.grants > 0)
    && s.pending.Keys == (if mode.Granted? then {s.grants - 1} else {})
    && s.orphans == (if mode.Abandoned? then {s.grants - 1} else {})
    && (forall t :: Running(s, t) <==> mode.Active? && t == s.grants - 1)
    && (!mode.Reporting? ==> s.inflight == multiset{})
    && (mode.Reporting? ==>
          && s.grants - 1 in s.deps && Reported(s.deps[s.grants - 1].pc)
          && s.inflight == multiset{Report(s, s.deps[s.grants - 1].pc.final)})
  }

  /** The completion that answers the active deployment. */
  function Report(s: Sys, phase: Phase): Msg {
    if s.coord.active.Some? && s.grants > 0 then
      Msg(s.grants - 1, s.coord.active.value.planID, s.coord.active.value.workflowID, phase)
    else Msg(0, "", "", phase)
  }

  /** Tickets are issued in order and each is in one place; the coordinator names the holder's plan. */
  predicate Ticketed(s: Sys) {
    && s.starts.Keys == s.deps.Keys
    && (forall t :: t in s.deps ==> t < s.grants && s.deps[t].hasParent)
    && (forall t :: t in s.pending ==> t < s.grants && t !in s.deps)
    && (s.coord.active.Some? ==>
          && s.grants > 0
          && s.coord.active.value.workflowID == WorkflowID(s.coord.active.value.planID)
          && (s.grants - 1 in s.pending ==> s.pending[s.grants - 1].id == s.coord.active.value.planID)
          && (s.grants - 1 in s.deps ==> s.deps[s.grants - 1].plan.id == s.coord.active.value.planID))
  }

  /** An uncancelled lock timer was armed for the latest grant. */
  predicate TimersTicketed(s: Sys) {
    && |s.armedFor| == |s.coord.timers|
    && forall i :: 0 <= i < |s.coord.timers| && !s.coord.timers[i].cancelled ==> s.armedFor[i] == s.grants - 1
  }

  /** A workflow ID is used again only after the deployment before has returned. */
  predicate IDsFollow(s: Sys) {
    forall t, u | t in s.deps && u in s.deps ::
      t < u && WorkflowID(s.deps[t].plan.id) == WorkflowID(s.deps[u].plan.id) ==> s.deps[t].pc.Closed?
  }

  ghost predicate LockInv(s: Sys) {
    && Ticketed(s) && TimersTicketed(s) && IDsFollow(s)
    && TimersOwned(s.coord)
    && s.grants == s.processed + (if s.coord.active.Some? then 1 else 0)
    && exists mode :: InMode(s, mode)
  }

  lemma InitLock(cols: Columns)
    ensures LockInv(Init(cols))
  {
    assert InMode(Init(cols), Free);
  }

  // ---- preservation, one kind of event at a time ----

  lemma RequestKeepsLock(s: Sys, plan: Plan)
    requires LockInv(s)
    ensures LockInv(OnRequest(s, plan))
  {
    if Accepts(s.coord) {
      var s' := OnRequest(s, plan);
      TimersStayOwned(s.coord, Request(plan.id, WorkflowID(plan.id)));
      assert InMode(s, Free);
      assert forall t :: Running(s', t) <==> Running(s, t);
      assert InMode(s', Granted);
    }
  }

  lemma LoseKeepsLock(s: Sys, t: nat)
    requires LockInv(s) && t in s.pending
    ensures LockInv(OnLose(s, t))
  {
    assert InMode(s, Granted);
    assert forall u :: Running(OnLose(s, t), u) <==> Running(s, u);
    assert InMode(OnLose(s, t), Abandoned);
  }

  lemma StartKeepsLock(s: Sys, t: nat)
    requires LockInv(s) && t in s.pending && !IDInUse(s, WorkflowID(s.pending[t].id))
    ensures LockInv(OnStart(s, t))
  {
    assert InMode(s, Granted);
    var s' := OnStart(s, t);
    forall u ensures Running(s', u) <==> u == s.grants - 1 {
      assert u != t ==> (Running(s', u) <==> Running(s, u));
    }
    assert InMode(s', Active);
  }

  /** What a deployment step can do to the parts the lock cares about. */
  lemma DepStepFrame(d: Dep, app: App, db: Database, ev: Event)
    requires Enabled(d, app, ev)
    ensures !d.pc.Closed?
    ensures StepDep(d, app, db, ev).plan == d.plan && StepDep(d, app, db, ev).hasParent == d.hasParent
    ensures Reported(StepDep(d, app, db, ev).pc) <==> Reported(d.pc) || ev.SendNotify?
    ensures ev.SendNotify? ==> d.pc.Notify?
    ensures ev.SendNotify? || Reported(d.pc) ==> StepDep(d, app, db, ev).pc.final == d.pc.final
    ensures StepDep(d, app, db, ev).pc.Closed? <==> ev.Return?
  {
    if MoveOf(d, app, db, ev).Some? {
      MovesFitTheLog(d, app, db, ev);
    } else {
      QuietFrame(d, app, db, ev);
    }
  }

  lemma QuietFrame(d: Dep, app: App, db: Database, ev: Event)
    requires Enabled(d, app, ev) && MoveOf(d, app, db, ev).None?
    ensures !d.pc.Closed?
    ensures Quiet(d, app, db, ev).plan == d.plan && Quiet(d, app, db, ev).hasParent == d.hasParent
    ensures Reported(Quiet(d, app, db, ev).pc) <==> Reported(d.pc) || ev.SendNotify?
    ensures ev.SendNotify? || Reported(d.pc) ==> Quiet(d, app, db, ev).pc.final == d.pc.final
    ensures Quiet(d, app, db, ev).pc.Closed? <==> ev.Return?
  {
  }

  /** A deployment that has sent its completion can only return; it touches nothing else. */
  lemma LingeringStep(d: Dep, app: App, db: Database, ev: Event)
    requires Reported(d.pc) && Enabled(d, app, ev)
    ensures StepDb(d, app, db, ev) == db && !ev.SendNotify?
    ensures var d' := StepDep(d, app, db, ev);
            && Reported(d'.pc) && d'.pc.final == d.pc.final
            && d' == d.(pc := d'.pc, approvals := d'.approvals, rollbacks := d'.rollbacks)
  {
  }

  /** One deployment is replaced by a later state of it. */
  predicate Moved(s: Sys, s': Sys, t: nat) {
    && t in s.deps && s'.deps.Keys == s.deps.Keys
    && (forall u | u in s.deps && u != t :: s'.deps[u] == s.deps[u])
    && s'.deps[t].plan == s.deps[t].plan && s'.deps[t].hasParent == s.deps[t].hasParent
    && !s.deps[t].pc.Closed?
    && s' == s.(deps := s'.deps, db := s'.db, inflight := s'.inflight)
  }

  lemma DepMoves(s: Sys, app: App, t: nat, ev: Event)
    requires t in s.deps && Enabled(s.deps[t], app, ev)
    ensures Moved(s, OnDep(s, app, t, ev), t)
  {
    DepStepFrame(s.deps[t], app, s.db, ev);
    hide StepDep, StepDb, Enabled;
  }

  lemma MovedKeepsTickets(s: Sys, s': Sys, t: nat)
    requires Moved(s, s', t)
    ensures Ticketed(s) ==> Ticketed(s')
    ensures TimersTicketed(s) ==> TimersTicketed(s')
  {
    hide WorkflowID;
  }

  lemma MovedKeepsIDs(s: Sys, s': Sys, t: nat)
    requires Moved(s, s', t) && IDsFollow(s)
    ensures IDsFollow(s')
  {
    hide WorkflowID;
    forall v, u | v in s.deps && u in s.deps && v < u && WorkflowID(s.deps[v].plan.id) == WorkflowID(s.deps[u].plan.id)
      ensures s'.deps[v].pc.Closed?
    {
      assert v != t;
    }
  }

  lemma DepKeepsTickets(s: Sys, app: App, t: nat, ev: Event)
    requires Ticketed(s) && TimersTicketed(s) && IDsFollow(s) && t in s.deps && Enabled(s.deps[t], app, ev)
    ensures var s' := OnDep(s, app, t, ev); Ticketed(s') && TimersTicketed(s') && IDsFollow(s')
  {
    hide Ticketed, TimersTicketed, IDsFollow, Moved, OnDep, Enabled;
    var s' := OnDep(s, app, t, ev);
    DepMoves(s, app, t, ev);
    MovedKeepsTickets(s, s', t);
    MovedKeepsIDs(s, s', t);
  }

  lemma LingeringKeepsMode(s: Sys, app: App, t: nat, ev: Event, mode: Mode)
    requires InMode(s, mode) && t in s.deps && Reported(s.deps[t].pc) && Enabled(s.deps[t], app, ev)
    ensures InMode(OnDep(s, app, t, ev), mode)
  {
    var s' := OnDep(s, app, t, ev);
    LingeringStep(s.deps[t], app, s.db, ev);
    hide StepDep, StepDb, Enabled, WorkflowID;
    assert s'.inflight == s.inflight;
    assert forall u :: Running(s', u) <==> Running(s, u);
    assert forall phase :: Report(s', phase) == Report(s, phase);
  }

  lemma RunningKeepsMode(s: Sys, app: App, t: nat, ev: Event)
    requires InMode(s, Active) && Ticketed(s) && Running(s, t) && Enabled(s.deps[t], app, ev)
    ensures InMode(OnDep(s, app, t, ev), if ev.SendNotify? then Reporting else Active)
  {
    var s' := OnDep(s, app, t, ev);
    DepStepFrame(s.deps[t], app, s.db, ev);
    hide StepDep, StepDb, Enabled;
    assert t == s.grants - 1;
    forall u | u != t ensures Running(s', u) <==> Running(s, u) {}
    assert s'.inflight == if ev.SendNotify? then multiset{Report(s', s.deps[t].pc.final)} else s.inflight;
  }

  lemma DepKeepsMode(s: Sys, app: App, t: nat, ev: Event)
    requires LockInv(s) && t in s.deps && Enabled(s.deps[t], app, ev)
    ensures exists mode :: InMode(OnDep(s, app, t, ev), mode)
  {
    hide OnDep, StepDep, StepDb, Enabled, TimersTicketed, IDsFollow, TimersOwned;
    var mode :| InMode(s, mode);
    if Reported(s.deps[t].pc) {
      LingeringKeepsMode(s, app, t, ev, mode);
    } else {
      assert Running(s, t);
      RunningKeepsMode(s, app, t, ev);
    }
  }

  lemma DepKeepsLock(s: Sys, app: App, t: nat, ev: Event)
    requires LockInv(s) && t in s.deps && Enabled(s.deps[t], app, ev)
    ensures LockInv(OnDep(s, app, t, ev))
  {
    DepKeepsMode(s, app, t, ev);
    hide InMode, Ticketed, TimersTicketed, IDsFollow, TimersOwned, StepDep, StepDb, Enabled;
    DepKeepsTickets(s, app, t, ev);
  }

  lemma DeliverKeepsLock(s: Sys, m: Msg)
    requires LockInv(s) && m in s.inflight
    ensures LockInv(OnDeliver(s, m))
  {
    assert InMode(s, Reporting);
    var s' := OnDeliver(s, m);
    TimersStayOwned(s.coord, Completion(m.planID, m.workflowID, m.phase));
    assert s'.inflight == multiset{};
    assert forall t :: Running(s', t) <==> Running(s, t);
    assert InMode(s', Free);
  }

  lemma ContinueKeepsLock(s: Sys)
    requires LockInv(s) && !s.coord.continueAsNewRequested
    ensures LockInv(Loop(s, s.coord.(continueAsNewRequested := true)))
  {
    var s' := Loop(s, s.coord.(continueAsNewRequested := true));
    TimersStayOwned(s.coord, ContinueTimer);
    SameHolder(s, s');
  }

  /** Nothing the lock depends on has changed. */
  lemma SameHolder(s: Sys, s': Sys)
    requires LockInv(s) && TimersOwned(s'.coord)
    requires s'.coord.active == s.coord.active && s'.grants == s.grants && s'.processed == s.processed
    requires s'.pending == s.pending && s'.orphans == s.orphans && s'.deps == s.deps && s'.starts == s.starts
    requires s'.inflight == s.inflight && TimersTicketed(s')
    ensures LockInv(s')
  {
    var mode :| InMode(s, mode);
    assert forall t :: Running(s', t) <==> Running(s, t);
    assert forall phase :: Report(s', phase) == Report(s, phase);
    assert InMode(s', mode);
  }

  lemma TimersKeepLock(s: Sys, e: CoordEvent, s': Sys)
    requires LockInv(s) && !Selected(e) && !e.Request? && SameButTimers(s, s') && s'.coord == React(s.coord, e)
    ensures LockInv(s')
  {
    TimersStayOwned(s.coord, e);
    assert s'.coord.active == s.coord.active;
    hide React, InMode, Ticketed, TimersOwned;
    SameHolder(s, s');
  }

  /** Only lock timers, the 24h timer and the mail have changed. */
  predicate SameButTimers(s: Sys, s': Sys) {
    s' == s.(coord := s'.coord, timerFired := s'.timerFired, mail := s'.mail)
  }

  lemma SameKeepsLock(s: Sys, s': Sys)
    requires LockInv(s) && SameButTimers(s, s') && s'.coord == s.coord
    ensures LockInv(s')
  {
    hide InMode, Ticketed;
    SameHolder(s, s');
  }

  lemma TimeoutKeepsLock(s: Sys, app: App, m: Timeout, t: nat)
    requires LockInv(s) && SysEnabled(s, app, DeliverTimeout(m, t))
    ensures LockInv(SysStep(s, app, DeliverTimeout(m, t)))
  {
    DepKeepsLock(s, app, t, SignalRollback);
    hide LockInv, OnDep;
    SameKeepsLock(OnDep(s, app, t, SignalRollback), SysStep(s, app, DeliverTimeout(m, t)));
  }

  lemma LockKept(s: Sys, app: App, e: SysEvent)
    requires LockInv(s) && SysEnabled(s, app, e)
    ensures LockInv(SysStep(s, app, e))
  {
    hide LockInv, OnRequest, OnLose, OnStart, OnDep, OnDeliver, Loop;
    match e
    case RequestLock(plan) => RequestKeepsLock(s, plan);
    case LoseGrant(t) => LoseKeepsLock(s, t);
    case StartRun(t) => StartKeepsLock(s, t);
    case RefuseStart(t) => LoseKeepsLock(s, t);
    case DepStep(t, ev) => DepKeepsLock(s, app, t, ev);
    case Deliver(m) => DeliverKeepsLock(s, m);
    case ContinueTimerFires => SameKeepsLock(s, SysStep(s, app, e));
    case SelectContinue => ContinueKeepsLock(s);
    case LockTimerDue(i) => TimersKeepLock(s, TimerDue(i), SysStep(s, app, e));
    case LockTimerResumes(i) => TimersKeepLock(s, TimerResume(i), SysStep(s, app, e));
    case DeliverTimeout(m, t) => TimeoutKeepsLock(s, app, m, t);
    case DropTimeout(m) => SameKeepsLock(s, SysStep(s, app, e));
  }

  // ---- theorems ----

  lemma OccupancyOf(s: Sys, mode: Mode)
    requires InMode(s, mode)
    ensures Occupancy(s) == if mode.Free? then 0 else 1
  {
    assert forall t :: t in RunningSet(s) <==> Running(s, t);
    assert RunningSet(s) == if mode.Active? then {s.grants - 1} else {};
  }

  /** At most one deployment holds the lock, and exactly one when the coordinator says so. */
  lemma MutualExclusion(s: Sys)
    requires LockInv(s)
    ensures Occupancy(s) == if s.coord.active.Some? then 1 else 0
    ensures forall t, u :: Running(s, t) && Running(s, u) ==> t == u
    ensures forall t :: Running(s, t) ==>
              && s.coord.active == Some(ActiveDeployment(s.deps[t].plan.id, WorkflowID(s.deps[t].plan.id)))
              && s.pending.Keys == {} && s.orphans == {} && s.inflight == multiset{}
  {
    var mode :| InMode(s, mode);
    OccupancyOf(s, mode);
  }

  /** The completion the coordinator receives always names the deployment it is about to release. */
  lemma CompletionNamesTheHolder(s: Sys, m: Msg)
    requires LockInv(s) && m in s.inflight
    ensures s.coord.active == Some(ActiveDeployment(m.planID, m.workflowID))
    ensures s.inflight == multiset{m} && m.ticket in s.deps
    ensures Reported(s.deps[m.ticket].pc) && s.deps[m.ticket].pc.final == m.phase
    ensures OnDeliver(s, m).coord.active.None? && Occupancy(OnDeliver(s, m)) == 0
  {
    TheOneMessage(s, m);
    DeliverKeepsLock(s, m);
    FreedByDelivery(s, m);
    hide OnDeliver, LockInv, InMode, Occupancy;
    MutualExclusion(OnDeliver(s, m));
  }

  lemma TheOneMessage(s: Sys, m: Msg)
    requires LockInv(s) && m in s.inflight
    ensures s.coord.active == Some(ActiveDeployment(m.planID, m.workflowID))
    ensures s.inflight == multiset{m} && m.ticket in s.deps
    ensures Reported(s.deps[m.ticket].pc) && s.deps[m.ticket].pc.final == m.phase
  {
    hide TimersTicketed, IDsFollow, TimersOwned, WorkflowID;
    assert InMode(s, Reporting);
    assert m in multiset{Report(s, s.deps[s.grants - 1].pc.final)};
  }

  lemma FreedByDelivery(s: Sys, m: Msg)
    ensures OnDeliver(s, m).coord.active.None?
  {
  }

  /** A timer that signals was armed for the grant that still holds the lock. */
  lemma TimerSignals(s: Sys, i: nat)
    requires LockInv(s) && i < |s.coord.timers|
    ensures i < |s.armedFor|
    ensures TimeoutTarget(s.coord, i).Some? ==>
              && s.coord.active.Some? && s.grants > 0 && s.armedFor[i] == s.grants - 1
              && TimeoutTarget(s.coord, i).value == s.coord.active.value.workflowID
  {
    hide InMode, Ticketed, IDsFollow;
    assert s.coord.active.Some? ==> s.grants > 0;
  }

  lemma WorkflowIDsDiffer(a: string, b: string)
    requires a != b
    ensures WorkflowID(a) != WorkflowID(b)
  {
    var n := |"bg-deploy-"|;
    assert WorkflowID(a)[n..] == a && WorkflowID(b)[n..] == b;
  }

  /** While a grant waits for its deployment, whatever is open has sent its completion and is an earlier one. */
  lemma OpenIsLingering(s: Sys, t: nat)
    requires LockInv(s) && t in s.pending
    ensures forall u | u in s.deps :: Open(s, u) ==> Lingering(s, u) && u < t
  {
    assert InMode(s, Granted);
    assert forall u | u in s.deps :: !Running(s, u);
  }

  /**
   A start with a grant in hand is refused if and only if an earlier deployment of the same plan has sent its
   completion and not returned. There is one at most.
   */
  lemma StartIsRefusedIff(s: Sys, app: App, t: nat)
    requires LockInv(s) && t in s.pending
    ensures SysEnabled(s, app, RefuseStart(t)) <==>
            exists u | u in s.deps :: u < t && Lingering(s, u) && s.deps[u].plan.id == s.pending[t].id
    ensures SysEnabled(s, app, RefuseStart(t)) <==> !SysEnabled(s, app, StartRun(t))
    ensures forall u, v | u in s.deps && v in s.deps ::
              Open(s, u) && Open(s, v) && s.deps[u].plan.id == s.deps[v].plan.id ==> u == v
  {
    OpenIsLingering(s, t);
    forall u | u in s.deps && s.deps[u].plan.id != s.pending[t].id
      ensures WorkflowID(s.deps[u].plan.id) != WorkflowID(s.pending[t].id)
    {
      WorkflowIDsDiffer(s.deps[u].plan.id, s.pending[t].id);
    }
  }
}
