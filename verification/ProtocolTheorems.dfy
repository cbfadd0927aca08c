/**
 What the protocol promises, for every execution: any schema to start from, any application, any sequence
 of requests, plans, lost responses, signals, interrupted attempts, timers and coordinator restarts.
 */
module ProtocolTheorems {
  import opened Wrappers
  import opened Schema
  import opened Deployment
  import opened DeploymentData
  import opened DeploymentSchema
  import opened DeploymentCompletion
  import opened DeploymentTheorems
  import opened Coordinator
  import opened Protocol
  import opened ProtocolLock
  import opened ProtocolSafety

  /** Lock occupancy is one while a deployment is active and zero otherwise; who runs is who the lock names. */
  lemma OneDeploymentAtATime(app: App, initial: Columns, es: seq<SysEvent>, s: Sys)
    requires Execute(Init(initial), app, es) == Some(s)
    ensures Occupancy(s) == if s.coord.active.Some? then 1 else 0
    ensures forall t, u :: Running(s, t) && Running(s, u) ==> t == u
    ensures forall t :: Running(s, t) ==>
              s.coord.active == Some(ActiveDeployment(s.deps[t].plan.id, WorkflowID(s.deps[t].plan.id)))
  {
    ReachableInv(app, initial, es, s);
    MutualExclusion(s);
  }

  /** The handler that never compares plan IDs releases the deployment it was told about. */
  lemma ReleaseIsForTheHolder(app: App, initial: Columns, es: seq<SysEvent>, s: Sys, m: Msg)
    requires Execute(Init(initial), app, es) == Some(s) && m in s.inflight
    ensures s.coord.active == Some(ActiveDeployment(m.planID, m.workflowID))
    ensures m.ticket in s.deps && Reported(s.deps[m.ticket].pc)
    ensures s.deps[m.ticket].pc.final == m.phase && s.deps[m.ticket].phase == m.phase
    ensures OnDeliver(s, m).coord.active.None? && Occupancy(OnDeliver(s, m)) == 0
  {
    ReachableInv(app, initial, es, s);
    CompletionNamesTheHolder(s, m);
    HistoryFollowsGrammar(s.deps[m.ticket]);
  }

  /** A contract statement has not taken effect yet, and from here on one may. */
  predicate AboutToContract(d: Dep) {
    d.pc == Gate(ContractGate) || (d.pc.Run? && d.pc.act.Contract? && !ContractRan(d.log))
  }

  /**
   Until the first contract statement takes effect, in whichever attempt that is, green is valid on the schema it
   is about to change; so is blue, and blue has been since the check after the expand.
   */
  lemma CheckToUseStability(app: App, initial: Columns, es: seq<SysEvent>, s: Sys, t: nat)
    requires Execute(Init(initial), app, es) == Some(s) && t in s.deps
    ensures AboutToContract(s.deps[t]) ==> AllValid(s.db.columns, app.green) && AllValid(s.db.columns, app.blue)
    ensures BlueHeld(s.deps[t].pc, ContractRan(s.deps[t].log)) ==> AllValid(s.db.columns, app.blue)
  {
    if AboutToContract(s.deps[t]) || BlueHeld(s.deps[t].pc, ContractRan(s.deps[t].log)) {
      assert Running(s, t);
      RunningCheck(app, initial, es, s, t);
      hide Execute, ContractRan, AllValid, CheckExact;
    }
  }

  lemma RunningCheck(app: App, initial: Columns, es: seq<SysEvent>, s: Sys, t: nat)
    requires Execute(Init(initial), app, es) == Some(s) && Running(s, t)
    ensures ChecksOk(s.deps[t], app, s.db.columns) && WindowFits(s.deps[t].pc, s.db.readOnly)
  {
    ReachableInv(app, initial, es, s);
    hide Execute, ChecksOk, LockInv, EachDep, EachRestore, EachSchema, EachBlue, Overall;
  }

  lemma ExactSoFar(d: Dep, app: App, cols: Columns)
    requires ChecksOk(d, app, cols)
    ensures CheckExact(d.pc, app, cols)
  {
  }

  /** The check after the expand opens its gate exactly when blue is valid on the schema of that moment. */
  lemma PreCheckIsExact(app: App, initial: Columns, es: seq<SysEvent>, s: Sys, t: nat)
    requires Execute(Init(initial), app, es) == Some(s) && t in s.deps
    requires s.deps[t].pc.Run? && s.deps[t].pc.act.CompatPre? && s.deps[t].pc.pos == Len(CompatPre, s.deps[t].plan, app)
    ensures StepDep(s.deps[t], app, s.db, Finish).pc ==
            if AllValid(s.db.columns, app.blue) then Gate(VerifyGate)
            else if s.deps[t].pc.attempt + 1 < MaxAttempts(CompatPre) then
              Run(CompatPre, s.deps[t].pc.attempt + 1, 0, true, true)
            else Begin(CompRelease)
  {
    RunningCheck(app, initial, es, s, t);
    hide Execute, ContractRan, ChecksHold, SysInv;
    ExactSoFar(s.deps[t], app, s.db.columns);
    BlueOpensTheGate(s.deps[t], app, s.db);
  }

  /**
   Whatever attempts were lost, and wherever: from the success of the expand until the first contract statement the
   schema is what the expand list makes, column by column, of the schema the deployment started on.
   */
  lemma ExpandIsExact(app: App, initial: Columns, es: seq<SysEvent>, s: Sys, t: nat)
    requires Execute(Init(initial), app, es) == Some(s) && t in s.deps && t in s.starts
    requires PastExpand(s.deps[t].pc, ContractRan(s.deps[t].log))
    ensures s.db.columns == Expanded(s.deps[t].plan, s.starts[t])
    ensures OnlyAdds(s.deps[t].plan.expandSQL) ==>
              s.db.columns == s.starts[t] + AddedBy(s.deps[t].plan.expandSQL)
  {
    assert Running(s, t);
    RunningSchema(app, initial, es, s, t);
    hide Execute, ContractRan, PartlyExecuted;
    if OnlyAdds(s.deps[t].plan.expandSQL) {
      OnlyAdding(s.starts[t], s.deps[t].plan.expandSQL);
    }
  }

  lemma RunningIsLatest(s: Sys, t: nat)
    requires LockInv(s) && Running(s, t)
    ensures Latest(s, t)
  {
    var mode :| InMode(s, mode);
    assert t == s.grants - 1;
  }

  lemma RunningSchema(app: App, initial: Columns, es: seq<SysEvent>, s: Sys, t: nat)
    requires Execute(Init(initial), app, es) == Some(s) && t in s.deps && t in s.starts
    requires Running(s, t) || Latest(s, t)
    ensures Latest(s, t) && SchemaOk(s.deps[t], s.starts[t], s.db.columns)
    ensures Reversible(s.deps[t].plan, s.starts[t]) ==> RestoreOk(s.deps[t], s.starts[t], s.db.columns)
  {
    ReachableInv(app, initial, es, s);
    if Running(s, t) {
      RunningIsLatest(s, t);
    }
    hide Execute, LockInv, Running, Latest, SchemaOk, RestoreOk, EachDep, EachCheck, EachBlue, Overall;
  }

  /**
   The check after the expand is meant for both versions. At its gate both are valid exactly when the expand list
   makes of the schema the deployment started on one that has the columns of green. That can be told beforehand.
   */
  lemma BothPassIff(app: App, initial: Columns, es: seq<SysEvent>, s: Sys, t: nat)
    requires Execute(Init(initial), app, es) == Some(s) && t in s.deps && t in s.starts
    requires s.deps[t].pc == Gate(VerifyGate)
    ensures AllValid(s.db.columns, app.blue)
    ensures AllValid(s.db.columns, app.blue) && AllValid(s.db.columns, app.green) <==>
            Needed(app.green) <= Expanded(s.deps[t].plan, s.starts[t])
    ensures OnlyAdds(s.deps[t].plan.expandSQL) ==>
              (AllValid(s.db.columns, app.blue) && AllValid(s.db.columns, app.green) <==>
               Needed(app.green) <= s.starts[t] + AddedBy(s.deps[t].plan.expandSQL))
  {
    CheckToUseStability(app, initial, es, s, t);
    ExpandIsExact(app, initial, es, s, t);
    NeededColumnsSuffice(s.db.columns, app.green);
  }

  /**
   A completed deployment has made of the schema it started on what its expand list and then its contract list make of
   it, and that stays so until another starts.
   */
  lemma CompletionMigrates(app: App, initial: Columns, es: seq<SysEvent>, s: Sys, t: nat)
    requires Execute(Init(initial), app, es) == Some(s) && t in s.deps && t in s.starts
    requires Running(s, t) || Latest(s, t)
    requires Ending(s.deps[t].pc) && s.deps[t].pc.final.Complete?
    ensures s.db.columns == Migrated(s.deps[t].plan, s.starts[t])
  {
    RunningSchema(app, initial, es, s, t);
  }

  /** Every deployment that has ever completed was one that its plan, application and starting schema allow to. */
  lemma OnlyCompletableOnesComplete(app: App, initial: Columns, es: seq<SysEvent>, s: Sys, t: nat)
    requires Execute(Init(initial), app, es) == Some(s) && t in s.deps && t in s.starts && Completed(s.deps[t])
    ensures Completable(s.deps[t].plan, app, s.starts[t])
  {
    ReachableInv(app, initial, es, s);
    hide Execute, LockInv, Overall, EachDep, EachCheck, EachRestore, EachSchema, EachBlue, Completable, ShownOk;
  }

  /**
   If every deployment that has ended was completed, or was reversible and rolled back cleanly, then each has started on
   what the completed ones before it make of the first schema, one after the other, and the free lock leaves what all
   of them make of it.
   */
  lemma SchemaFollowsHistory(app: App, initial: Columns, es: seq<SysEvent>, s: Sys)
    requires Execute(Init(initial), app, es) == Some(s) && AllSettled(s)
    ensures forall t | t in s.deps && t in s.starts :: s.starts[t] == SchemaAfter(s.deps, initial, t)
    ensures s.coord.active.None? ==> s.db.columns == SchemaAfter(s.deps, initial, s.grants)
  {
    ReachableInv(app, initial, es, s);
    hide Execute, AllSettled, EachDep, EachCheck, EachRestore, EachSchema, EachBlue, Flags, Chain, Blue;
    MutualExclusion(s);
    assert s.coord.active.None? ==> forall t :: t in s.deps ==> !Running(s, t);
  }

  /** The pre-contract check passes exactly when green is valid on the schema of that moment. */
  lemma FinalCheckIsExact(app: App, initial: Columns, es: seq<SysEvent>, s: Sys, t: nat)
    requires Execute(Init(initial), app, es) == Some(s) && t in s.deps
    requires s.deps[t].pc.Run? && s.deps[t].pc.act.CompatFinal?
              && s.deps[t].pc.pos == Len(CompatFinal, s.deps[t].plan, app)
    ensures StepDep(s.deps[t], app, s.db, Finish).pc ==
            if AllValid(s.db.columns, app.green) then Gate(ContractGate) else Begin(CompRelease)
  {
    RunningCheck(app, initial, es, s, t);
    hide Execute, ContractRan, ChecksHold, SysInv;
    ExactSoFar(s.deps[t], app, s.db.columns);
    GreenOpensTheGate(s.deps[t], app, s.db);
  }

  /** A cleanly rolled back deployment leaves exactly the schema it started on, until another starts. */
  lemma ExactRestoration(app: App, initial: Columns, es: seq<SysEvent>, s: Sys, t: nat)
    requires Execute(Init(initial), app, es) == Some(s) && t in s.deps && t in s.starts
    requires Running(s, t) || Latest(s, t)
    requires RolledBackCleanly(s.deps[t]) && Reversible(s.deps[t].plan, s.starts[t])
    ensures s.db.columns == s.starts[t] && Ending(s.deps[t].pc) && s.deps[t].pc.final == RolledBack
  {
    RunningSchema(app, initial, es, s, t);
  }

  /** However many deployments have come and gone: if each was rolled back cleanly, the schema is the first one. */
  lemma RestorationComposes(app: App, initial: Columns, es: seq<SysEvent>, s: Sys)
    requires Execute(Init(initial), app, es) == Some(s)
    requires AllReversed(s) && s.coord.active.None?
    ensures s.db.columns == initial
  {
    ReachableInv(app, initial, es, s);
    MutualExclusion(s);
    assert forall t :: t in s.deps ==> !Running(s, t);
  }

  /**
   If blue works when a deployment starts and the plan keeps what blue needs, blue works in every intermediate
   state until the deployment's first contract statement: mid-expand, cutover, monitoring, mid-rollback, and
   after its end until another deployment starts.
   */
  lemma BlueAppStaysAlive(app: App, initial: Columns, es: seq<SysEvent>, s: Sys, t: nat)
    requires Execute(Init(initial), app, es) == Some(s) && t in s.deps && t in s.starts
    requires Running(s, t) || Latest(s, t)
    requires KeepsBlue(s.deps[t].plan, app) && AllValid(s.starts[t], app.blue) && !ContractRan(s.deps[t].log)
    ensures AllValid(s.db.columns, app.blue)
  {
    ReachableInv(app, initial, es, s);
    if Running(s, t) {
      var mode :| InMode(s, mode);
      assert t == s.grants - 1;
    }
    NeededColumnsSuffice(s.starts[t], app.blue);
    NeededColumnsSuffice(s.db.columns, app.blue);
  }

  /** And over any number of deployments, as long as none has reached its contract. */
  lemma BlueOutlivesDeployments(app: App, initial: Columns, es: seq<SysEvent>, s: Sys)
    requires Execute(Init(initial), app, es) == Some(s)
    requires AllValid(initial, app.blue) && AllKeepBlue(s, app)
    ensures AllValid(s.db.columns, app.blue)
  {
    ReachableInv(app, initial, es, s);
    NeededColumnsSuffice(initial, app.blue);
    NeededColumnsSuffice(s.db.columns, app.blue);
  }

  predicate ReleasesWork(s: Sys) {
    forall t | t in s.deps ::
      AttemptFailed(Release) !in s.deps[t].log && AttemptFailed(CompRelease) !in s.deps[t].log
  }

  /** If release attempts succeed, the database is read-only only while a deployment is in its cutover phase. */
  lemma WritableOutsideCutover(app: App, initial: Columns, es: seq<SysEvent>, s: Sys)
    requires Execute(Init(initial), app, es) == Some(s)
    requires ReleasesWork(s) && s.db.readOnly
    ensures exists t :: Running(s, t) && s.deps[t].phase == Cutover && InCutover(s.deps[t].pc)
  {
    ReachableInv(app, initial, es, s);
    forall t | t in s.deps && Reported(s.deps[t].pc) ensures !Unreleased(s.deps[t].log) {
      assert FlagOk(s.deps[t], false);
    }
    assert AllReleased(s);
    var t :| t in s.deps && Running(s, t);
    assert FlagOk(s.deps[t], s.db.readOnly);
  }

  /** And while traffic is switched, it is read-only, whatever everyone else does. */
  lemma TrafficIsSwitchedReadOnly(app: App, initial: Columns, es: seq<SysEvent>, s: Sys, t: nat)
    requires Execute(Init(initial), app, es) == Some(s) && t in s.deps
    requires s.deps[t].pc.Run? && s.deps[t].pc.act.Switch?
    ensures s.db.readOnly
  {
    RunningCheck(app, initial, es, s, t);
  }

  /** The promises of a single deployment hold of every deployment of the protocol. */
  lemma EveryDeploymentKeepsItsPromises(app: App, initial: Columns, es: seq<SysEvent>, s: Sys, t: nat)
    requires Execute(Init(initial), app, es) == Some(s) && t in s.deps
    ensures HistoryGrammar(s.deps[t]) && NoReturn(s.deps[t]) && ReadOnlyDiscipline(s.deps[t].log)
              && NotifiedOnce(s.deps[t])
  {
    ReachableInv(app, initial, es, s);
    HistoryFollowsGrammar(s.deps[t]);
    PointOfNoReturn(s.deps[t]);
    WindowIsClosedInTime(s.deps[t]);
    NotificationIsUnique(s.deps[t]);
  }

  /** A lock timeout is signalled to the current holder and to nobody else, by the timer armed for its grant. */
  lemma TimeoutsGoToTheHolder(app: App, initial: Columns, es: seq<SysEvent>, s: Sys, i: nat)
    requires Execute(Init(initial), app, es) == Some(s) && SysEnabled(s, app, LockTimerResumes(i))
    ensures SysStep(s, app, LockTimerResumes(i)).mail != s.mail ==>
              && s.coord.active.Some? && s.grants > 0 && i < |s.armedFor| && s.armedFor[i] == s.grants - 1
              && SysStep(s, app, LockTimerResumes(i)).mail
                 == s.mail + multiset{Timeout(s.armedFor[i], s.coord.active.value.workflowID)}
  {
    hide SysInv, LockInv, Execute, SysStep, SysEnabled;
    ReachableInv(app, initial, es, s);
    EachOf(s, app, initial);
    HolderIsSignalled(s, app, i);
  }

  lemma HolderIsSignalled(s: Sys, app: App, i: nat)
    requires LockInv(s) && SysEnabled(s, app, LockTimerResumes(i))
    ensures i < |s.coord.timers| && i < |s.armedFor|
    ensures TimeoutTarget(s.coord, i).Some? ==>
              && s.coord.active.Some? && s.grants > 0 && s.armedFor[i] == s.grants - 1
              && SysStep(s, app, LockTimerResumes(i)).mail
                 == s.mail + multiset{Timeout(s.armedFor[i], s.coord.active.value.workflowID)}
    ensures TimeoutTarget(s.coord, i).None? ==> SysStep(s, app, LockTimerResumes(i)).mail == s.mail
  {
    hide LockInv;
    TimerSignals(s, i);
  }

  /** A timeout on its way was armed for an earlier grant, under that grant's workflow ID. */
  predicate MailOk(s: Sys) {
    forall m | m in s.mail ::
      && m.ticket < s.grants
      && (m.ticket in s.pending ==> WorkflowID(s.pending[m.ticket].id) == m.workflowID)
      && (m.ticket in s.deps ==> WorkflowID(s.deps[m.ticket].plan.id) == m.workflowID)
  }

  lemma DepKeepsMail(s: Sys, app: App, t: nat, ev: Event)
    requires MailOk(s) && t in s.deps && Enabled(s.deps[t], app, ev)
    ensures MailOk(OnDep(s, app, t, ev))
    ensures var s' := OnDep(s, app, t, ev); s'.mail == s.mail && s'.grants == s.grants && s'.pending == s.pending
  {
    DepStepFrame(s.deps[t], app, s.db, ev);
    hide StepDep, StepDb, Enabled, WorkflowID;
  }

  lemma GrantKeepsMail(s: Sys, plan: Plan)
    requires LockInv(s) && MailOk(s)
    ensures MailOk(OnRequest(s, plan))
  {
    hide WorkflowID, InMode;
  }

  lemma ClientKeepsMail(s: Sys, t: nat)
    requires MailOk(s) && t in s.pending
    ensures MailOk(OnLose(s, t)) && MailOk(OnStart(s, t))
  {
    hide WorkflowID;
  }

  lemma LessMail(s: Sys, s': Sys)
    requires MailOk(s) && s'.mail <= s.mail && s'.grants == s.grants && s'.pending == s.pending && s'.deps == s.deps
    ensures MailOk(s')
  {
    hide WorkflowID;
    assert forall m :: m in s'.mail ==> m in s.mail;
  }

  lemma MailKept(s: Sys, app: App, e: SysEvent)
    requires LockInv(s) && MailOk(s) && SysEnabled(s, app, e)
    ensures MailOk(SysStep(s, app, e))
  {
    hide MailOk, LockInv, OnRequest, OnLose, OnStart, OnDep, OnTimerResumes, WorkflowID;
    match e
    case RequestLock(plan) => GrantKeepsMail(s, plan);
    case LoseGrant(t) => ClientKeepsMail(s, t);
    case StartRun(t) => ClientKeepsMail(s, t);
    case RefuseStart(t) => ClientKeepsMail(s, t);
    case DepStep(t, ev) => DepKeepsMail(s, app, t, ev);
    case DeliverTimeout(m, t) =>
      DepKeepsMail(s, app, t, SignalRollback);
      LessMail(OnDep(s, app, t, SignalRollback), SysStep(s, app, e));
    case LockTimerResumes(i) => TimerKeepsMail(s, i);
    case _ => LessMail(s, SysStep(s, app, e));
  }

  lemma TimerKeepsMail(s: Sys, i: nat)
    requires LockInv(s) && MailOk(s) && i < |s.coord.timers|
    ensures MailOk(OnTimerResumes(s, i))
  {
    hide WorkflowID, InMode;
  }

  lemma {:induction false} ReachableMail(app: App, initial: Columns, es: seq<SysEvent>, s: Sys)
    requires Execute(Init(initial), app, es) == Some(s)
    ensures LockInv(s) && MailOk(s)
  {
    ReachableInv(app, initial, es, s);
    if es != [] {
      var s0 := Execute(Init(initial), app, es[..|es| - 1]).value;
      ReachableMail(app, initial, es[..|es| - 1], s0);
      MailKept(s0, app, es[|es| - 1]);
    }
  }

  /**
   A timeout is addressed by workflow ID alone. It reaches the deployment it was armed for if and only if that was
   started and no later grant under the same workflow ID has been. An earlier deployment is reached only while it
   returns, when no rollback has any effect.
   */
  lemma TimeoutHitsItsTargetIff(app: App, initial: Columns, es: seq<SysEvent>, s: Sys, m: Timeout, t: nat)
    requires Execute(Init(initial), app, es) == Some(s) && SysEnabled(s, app, DeliverTimeout(m, t))
    ensures m.ticket == t <==>
            && m.ticket in s.deps
            && forall u | u in s.deps && u > m.ticket :: WorkflowID(s.deps[u].plan.id) != m.workflowID
    ensures m.ticket in s.deps ==> WorkflowID(s.deps[m.ticket].plan.id) == m.workflowID
    ensures t < m.ticket ==> Lingering(s, t) && m.ticket !in s.deps
  {
    ReachableMail(app, initial, es, s);
    hide WorkflowID;
    var mode :| InMode(s, mode);
    assert Running(s, t) ==> t == s.grants - 1;
  }

  /** Nothing that can ever happen changes a deployment that has returned. */
  lemma {:induction false} ReturnedIsFinal(app: App, s: Sys, es: seq<SysEvent>, s': Sys, t: nat)
    requires LockInv(s) && Execute(s, app, es) == Some(s') && t in s.deps && s.deps[t].pc.Closed?
    ensures LockInv(s') && t in s'.deps && s'.deps[t] == s.deps[t]
  {
    if es != [] {
      var mid, e := Execute(s, app, es[..|es| - 1]).value, es[|es| - 1];
      ReturnedIsFinal(app, s, es[..|es| - 1], mid, t);
      LockKept(mid, app, e);
      ReturnedStays(app, mid, e, t);
    }
  }

  lemma ReturnedStays(app: App, s: Sys, e: SysEvent, t: nat)
    requires LockInv(s) && SysEnabled(s, app, e) && t in s.deps && s.deps[t].pc.Closed?
    ensures t in SysStep(s, app, e).deps && SysStep(s, app, e).deps[t] == s.deps[t]
  {
    hide StepDep, StepDb, InMode, WorkflowID, Enabled;
    match e
    case StartRun(u) => assert u !in s.deps;
    case DepStep(u, ev) => ClosedIsFinal(s.deps[t], app, ev);
    case DeliverTimeout(m, u) => ClosedIsFinal(s.deps[t], app, SignalRollback);
    case RequestLock(plan) =>
    case _ =>
  }

  // ---- grants over the chain of coordinator runs ----

  function Delivered(es: seq<SysEvent>): nat {
    if es == [] then 0
    else Delivered(es[..|es| - 1]) + if es[|es| - 1].Deliver? then 1 else 0
  }

  function TimersTaken(es: seq<SysEvent>): nat {
    if es == [] then 0
    else TimersTaken(es[..|es| - 1]) + if es[|es| - 1].SelectContinue? then 1 else 0
  }

  /** The 24h timers used so far, over all coordinator runs. */
  function Requested(s: Sys): nat { s.recycled + if s.coord.continueAsNewRequested then 1 else 0 }

  predicate SameCounts(s: Sys, s': Sys) {
    && s'.processed == s.processed && s'.iterations == s.iterations && s'.recycled == s.recycled
    && s'.coord.continueAsNewRequested == s.coord.continueAsNewRequested
  }

  lemma OthersDoNotCount(app: App, s: Sys, e: SysEvent)
    requires SysEnabled(s, app, e) && !e.Deliver? && !e.SelectContinue?
    ensures SameCounts(s, SysStep(s, app, e))
  {
    match e
    case RequestLock(plan) => assert SameCounts(s, OnRequest(s, plan));
    case LoseGrant(t) => assert SameCounts(s, OnLose(s, t));
    case RefuseStart(t) => assert SameCounts(s, OnLose(s, t));
    case StartRun(t) => assert SameCounts(s, OnStart(s, t));
    case DepStep(t, ev) => assert SameCounts(s, OnDep(s, app, t, ev));
    case DeliverTimeout(m, t) => assert SameCounts(s, OnDep(s, app, t, SignalRollback));
    case LockTimerResumes(i) => assert SameCounts(s, OnTimerResumes(s, i));
    case _ =>
  }

  lemma IterationsCount(s: Sys, c: Coord)
    ensures Loop(s, c).processed == s.processed && Loop(s, c).iterations == s.iterations + 1
    ensures Requested(Loop(s, c)) == s.recycled + if c.continueAsNewRequested then 1 else 0
  {
  }

  lemma LoopStep(app: App, s: Sys, e: SysEvent)
    requires SysEnabled(s, app, e)
    ensures SysStep(s, app, e).processed == s.processed + if e.Deliver? then 1 else 0
    ensures SysStep(s, app, e).iterations == s.iterations + if e.Deliver? || e.SelectContinue? then 1 else 0
    ensures Requested(SysStep(s, app, e)) == Requested(s) + if e.SelectContinue? then 1 else 0
  {
    match e
    case Deliver(m) =>
      var c := OnComplete(s.coord, m.planID, m.workflowID, m.phase);
      assert c.continueAsNewRequested == s.coord.continueAsNewRequested;
      IterationsCount(s, c);
    case SelectContinue => IterationsCount(s, s.coord.(continueAsNewRequested := true));
    case _ =>
      OthersDoNotCount(app, s, e);
      hide SysStep, SysEnabled;
  }

  /**
   The event loop goes around once for each completion and at most once for each run's 24h timer, although the
   fired timer stays ready: it is taken only as long as continue-as-new has not been requested.
   */
  lemma {:induction false} LoopAccounting(app: App, s0: Sys, es: seq<SysEvent>, s: Sys)
    requires Execute(s0, app, es) == Some(s)
    requires s0.processed == 0 && s0.iterations == 0 && s0.recycled == 0 && !s0.coord.continueAsNewRequested
    ensures s.iterations == s.processed + Requested(s) <= s.processed + s.recycled + 1
    ensures s.processed == Delivered(es) && TimersTaken(es) == Requested(s)
  {
    if es != [] {
      var s' := Execute(s0, app, es[..|es| - 1]).value;
      LoopAccounting(app, s0, es[..|es| - 1], s');
      LoopStep(app, s', es[|es| - 1]);
    }
  }

  /** Grants are conserved, and each loop iteration is paid for by a completion or a one-shot timer. */
  lemma GrantConservation(app: App, initial: Columns, es: seq<SysEvent>, s: Sys)
    requires Execute(Init(initial), app, es) == Some(s)
    ensures s.grants == s.processed + if s.coord.active.Some? then 1 else 0
    ensures s.processed == Delivered(es) && TimersTaken(es) == Requested(s)
    ensures s.iterations == s.processed + Requested(s)
  {
    ReachableInv(app, initial, es, s);
    LoopAccounting(app, Init(initial), es, s);
  }

  /**
   The coordinator continues as new exactly when the 24h timer is taken while nobody is active, or a completion is
   processed after it was taken. It then starts over with nothing, its next timer not fired.
   */
  lemma RecyclesIff(app: App, s: Sys, e: SysEvent)
    requires SysEnabled(s, app, e)
    ensures var now := (e.SelectContinue? && s.coord.active.None?) || (e.Deliver? && s.coord.continueAsNewRequested);
            var s' := SysStep(s, app, e);
            && s'.recycled == s.recycled + (if now then 1 else 0)
            && (now ==> s'.coord == FRESH && !s'.timerFired && s'.armedFor == [])
            && (e.SelectContinue? && !now ==> s'.coord == s.coord.(continueAsNewRequested := true))
  {
    if !e.Deliver? && !e.SelectContinue? {
      OthersDoNotCount(app, s, e);
      hide SysStep, SysEnabled;
    }
  }

  lemma OnlyTheLoopRecycles(s: Sys, app: App, e: SysEvent)
    requires SysEnabled(s, app, e) && SysStep(s, app, e).recycled != s.recycled
    ensures e.SelectContinue? || e.Deliver?
    ensures e.Deliver? ==> Recycles(OnComplete(s.coord, e.msg.planID, e.msg.workflowID, e.msg.phase))
    ensures e.SelectContinue? ==> s.coord.active.None?
    ensures SysStep(s, app, e).coord == FRESH
  {
  }

  lemma CompletionKillsTimers(c: Coord, planID: string, workflowID: string, phase: Phase)
    requires TimersOwned(c)
    ensures LiveTimers(OnComplete(c, planID, workflowID, phase)) == {}
  {
  }

  /** Continue-as-new drops no holder, no live timer and no completion. */
  lemma ContinueAsNewDropsNothing(app: App, initial: Columns, es: seq<SysEvent>, s: Sys, e: SysEvent)
    requires Execute(Init(initial), app, es) == Some(s) && SysEnabled(s, app, e)
    requires SysStep(s, app, e).recycled != s.recycled
    ensures Occupancy(SysStep(s, app, e)) == 0 && SysStep(s, app, e).coord == FRESH
    ensures e.SelectContinue? || e.Deliver?
    ensures e.SelectContinue? ==> LiveTimers(s.coord) == {}
    ensures e.Deliver? ==> LiveTimers(OnComplete(s.coord, e.msg.planID, e.msg.workflowID, e.msg.phase)) == {}
  {
    ReachableInv(app, initial, es, s);
    LockKept(s, app, e);
    MutualExclusion(SysStep(s, app, e));
    OnlyTheLoopRecycles(s, app, e);
    if e.Deliver? {
      CompletionKillsTimers(s.coord, e.msg.planID, e.msg.workflowID, e.msg.phase);
    }
  }

  function LiveTimers(c: Coord): set<nat> { set i | 0 <= i < |c.timers| && !c.timers[i].cancelled }
}
