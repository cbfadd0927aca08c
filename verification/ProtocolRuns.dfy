/**
 Executions that exist. Every run of a deployment on its own is a run of the protocol; and for every application
 and schema on which blue works, one of them stands at the verify gate with the schema unchanged, whatever green
 makes of it. Then three that go wrong, for every plan and schema: a start that is refused, a timeout that hits the next
 deployment, a grant that is lost. (internal/bluegreen/workflow.go, cmd/blue-green/main.go)
 */
module ProtocolRuns {
  import opened Wrappers
  import opened Schema
  import opened Deployment
  import opened DeploymentData
  import opened DeploymentSchema
  import opened DeploymentCompletion
  import opened DeploymentTheorems
  import opened Coordinator
  import opened Protocol
  import opened ProtocolLiveness

  /** A client starts a deployment of `plan`, and then the deployment does `evs`. */
  function Embedded(plan: Plan, evs: seq<Event>): seq<SysEvent> {
    if evs == [] then [RequestLock(plan), StartRun(0)]
    else Embedded(plan, evs[..|evs| - 1]) + [DepStep(0, evs[|evs| - 1])]
  }

  lemma ExecuteSnoc(s0: Sys, app: App, es: seq<SysEvent>, s: Sys, e: SysEvent)
    requires Execute(s0, app, es) == Some(s) && SysEnabled(s, app, e)
    ensures Execute(s0, app, es + [e]) == Some(SysStep(s, app, e))
  {
    assert (es + [e])[..|es|] == es;
  }

  lemma FirstStart(app: App, cols: Columns, plan: Plan) returns (s: Sys)
    ensures Execute(Init(cols), app, [RequestLock(plan), StartRun(0)]) == Some(s)
    ensures 0 in s.deps && s.deps[0] == Start(plan, true) && s.db == Database(cols, false)
  {
    var s0 := Init(cols);
    assert Execute(s0, app, []) == Some(s0);
    ExecuteSnoc(s0, app, [], s0, RequestLock(plan));
    var s1 := SysStep(s0, app, RequestLock(plan));
    assert [] + [RequestLock(plan)] == [RequestLock(plan)];
    assert !IDInUse(s1, WorkflowID(plan.id));
    ExecuteSnoc(s0, app, [RequestLock(plan)], s1, StartRun(0));
    assert [RequestLock(plan)] + [StartRun(0)] == [RequestLock(plan), StartRun(0)];
    s := SysStep(s1, app, StartRun(0));
  }

  /** What a deployment can do alone it can do in the protocol. */
  lemma {:induction false} RunsEmbed(app: App, cols: Columns, plan: Plan, evs: seq<Event>, d: Dep, db: Database)
    returns (s: Sys)
    requires Exec(Start(plan, true), app, Database(cols, false), evs) == Some((d, db))
    ensures Execute(Init(cols), app, Embedded(plan, evs)) == Some(s)
    ensures 0 in s.deps && s.deps[0] == d && s.db == db
  {
    if evs == [] {
      s := FirstStart(app, cols, plan);
    } else {
      var n := |evs| - 1;
      var mid := Exec(Start(plan, true), app, Database(cols, false), evs[..n]).value;
      var s' := RunsEmbed(app, cols, plan, evs[..n], mid.0, mid.1);
      ExecuteSnoc(Init(cols), app, Embedded(plan, evs[..n]), s', DepStep(0, evs[n]));
      s := SysStep(s', app, DepStep(0, evs[n]));
    }
  }

  /**
   A client that starts a deployment which its plan, application and schema allow can see it through all eight phases,
   and the schema migrated.
   */
  lemma DeploymentsComplete(app: App, cols: Columns, plan: Plan) returns (es: seq<SysEvent>, s: Sys)
    requires Completable(plan, app, cols)
    ensures Execute(Init(cols), app, es) == Some(s) && 0 in s.deps && s.deps[0].pc == Closed(Complete)
    ensures |s.deps[0].history| == 8 && s.db.columns == Migrated(plan, cols)
  {
    var db := Database(cols, false);
    var evs := CompletesCalmly(plan, true, app, db);
    var end := Exec(Start(plan, true), app, db, evs).value;
    CompletionNeeds(plan, true, app, db, evs, end.0, end.1);
    RunsKeepInv(plan, true, app, db, evs, end.0, end.1);
    CompleteIsEight(end.0);
    s := RunsEmbed(app, cols, plan, evs, end.0, end.1);
    es := Embedded(plan, evs);
  }

  lemma CompleteIsEight(d: Dep)
    requires DepInv(d) && d.pc == Closed(Complete)
    ensures |d.history| == 8
  {
  }

  // ---- to the verify gate ----

  /** A run so far. */
  ghost predicate Reaches(plan: Plan, app: App, db0: Database, evs: seq<Event>, d: Dep, db: Database) {
    Exec(Start(plan, true), app, db0, evs) == Some((d, db))
  }

  lemma OneMore(plan: Plan, app: App, db0: Database, evs: seq<Event>, d: Dep, db: Database, ev: Event)
    requires Reaches(plan, app, db0, evs, d, db) && Enabled(d, app, ev)
    ensures Reaches(plan, app, db0, evs + [ev], StepDep(d, app, db, ev), StepDb(d, app, db, ev))
  {
    assert (evs + [ev])[..|evs|] == evs;
  }

  /** A plan that changes no column. */
  const IDLE_PLAN := Plan("idle", [Other], [Other], [Other], [])

  predicate Clear(d: Dep) { d.plan == IDLE_PLAN && !d.rollbackRequested && d.rollbacks == 0 }

  lemma ToTheExpand(app: App, db: Database) returns (evs: seq<Event>, d: Dep)
    ensures Reaches(IDLE_PLAN, app, db, evs, d, db) && Clear(d) && d.pc == Begin(Expand)
  {
    d := Start(IDLE_PLAN, true);
    evs := [];
    assert Reaches(IDLE_PLAN, app, db, evs, d, db);
    hide Reaches;
    OneMore(IDLE_PLAN, app, db, evs, d, db, Finish);
    evs, d := evs + [Finish], StepDep(d, app, db, Finish);
    OneMore(IDLE_PLAN, app, db, evs, d, db, SignalApprove);
    evs, d := evs + [SignalApprove], StepDep(d, app, db, SignalApprove);
    OneMore(IDLE_PLAN, app, db, evs, d, db, TakeApproval);
    evs, d := evs + [TakeApproval], StepDep(d, app, db, TakeApproval);
  }

  lemma ToTheCheck(app: App, db: Database) returns (evs: seq<Event>, d: Dep)
    ensures Reaches(IDLE_PLAN, app, db, evs, d, db) && Clear(d) && d.pc == Begin(CompatPre)
  {
    evs, d := ToTheExpand(app, db);
    hide Reaches;
    OneMore(IDLE_PLAN, app, db, evs, d, db, Advance(0));
    assert WorkDb(d, app, db, 0) == Some(db);
    evs, d := evs + [Advance(0)], StepDep(d, app, db, Advance(0));
    OneMore(IDLE_PLAN, app, db, evs, d, db, Finish);
    evs, d := evs + [Finish], StepDep(d, app, db, Finish);
    OneMore(IDLE_PLAN, app, db, evs, d, db, Finish);
    evs, d := evs + [Finish], StepDep(d, app, db, Finish);
  }

  /** The check looks at the remaining queries. */
  lemma {:induction false} ToTheEndOfTheCheck(app: App, db: Database, evs: seq<Event>, d: Dep)
    returns (evs': seq<Event>, d': Dep)
    requires Reaches(IDLE_PLAN, app, db, evs, d, db) && Clear(d) && d.pc.Run? && d.pc.act.CompatPre?
    requires d.pc.pos <= |app.blue| + |app.green| && CheckExact(d.pc, app, db.columns)
    ensures Reaches(IDLE_PLAN, app, db, evs', d', db) && Clear(d') && d'.pc.Run? && d'.pc.act.CompatPre?
    ensures d'.pc.pos == |app.blue| + |app.green| && CheckExact(d'.pc, app, db.columns)
    decreases |app.blue| + |app.green| - d.pc.pos
  {
    hide Reaches;
    if d.pc.pos == |app.blue| + |app.green| {
      evs', d' := evs, d;
    } else {
      OneMore(IDLE_PLAN, app, db, evs, d, db, Advance(0));
      CheckedQueryCounts(d.pc, d, app, db);
      assert WorkDb(d, app, db, 0) == Some(db);
      hide CheckExact;
      evs', d' := ToTheEndOfTheCheck(app, db, evs + [Advance(0)], StepDep(d, app, db, Advance(0)));
    }
  }

  /**
   For every application and every schema on which blue works, some execution stands at the verify gate on that
   very schema. So green may be valid there or not: nothing requires it.
   */
  lemma VerifyGateIgnoresGreen(app: App, cols: Columns) returns (es: seq<SysEvent>, s: Sys)
    requires AllValid(cols, app.blue)
    ensures Execute(Init(cols), app, es) == Some(s)
    ensures 0 in s.deps && s.deps[0].pc == Gate(VerifyGate) && s.db.columns == cols
  {
    var db := Database(cols, false);
    var evs, d := ToTheCheck(app, db);
    evs, d := ToTheEndOfTheCheck(app, db, evs, d);
    OneMore(IDLE_PLAN, app, db, evs, d, db, Finish);
    BlueOpensTheGate(d, app, db);
    s := RunsEmbed(app, cols, IDLE_PLAN, evs + [Finish], StepDep(d, app, db, Finish), db);
    es := Embedded(IDLE_PLAN, evs + [Finish]);
  }

  /** An execution at the verify gate where green does not work. */
  lemma GreenFailsAtTheGate() returns (app: App, es: seq<SysEvent>, s: Sys)
    ensures Execute(Init({}), app, es) == Some(s) && 0 in s.deps && s.deps[0].pc == Gate(VerifyGate)
    ensures AllValid(s.db.columns, app.blue) && !AllValid(s.db.columns, app.green)
  {
    app := App([], [Query("GetPhone", ["phone"])]);
    es, s := VerifyGateIgnoresGreen(app, {});
    assert "phone" in app.green[0].columns by {
      assert app.green[0].columns[0] == "phone";
    }
    assert !ValidQuery(s.db.columns, app.green[0]);
  }

  // ---- to the end of a deployment that fails, and beyond ----

  ghost predicate Reached(app: App, cols: Columns, es: seq<SysEvent>, s: Sys) {
    Execute(Init(cols), app, es) == Some(s)
  }

  lemma Then(app: App, cols: Columns, es: seq<SysEvent>, s: Sys, e: SysEvent)
    returns (es': seq<SysEvent>, s': Sys)
    requires Reached(app, cols, es, s) && SysEnabled(s, app, e)
    ensures s' == SysStep(s, app, e) && es' == es + [e] && Reached(app, cols, es', s')
  {
    ExecuteSnoc(Init(cols), app, es, s, e);
    es', s' := es + [e], SysStep(s, app, e);
  }

  /** The first deployment of `plan` is there, alone, and stands at `pc`. */
  predicate FirstStands(s: Sys, plan: Plan, pc: Pc) {
    && s.grants == 1 && s.pending == map[] && s.deps.Keys == {0}
    && s.deps[0].plan == plan && s.deps[0].hasParent && s.deps[0].pc == pc
  }

  /** A deployment that has just started. */
  lemma Started(app: App, cols: Columns, plan: Plan) returns (es: seq<SysEvent>, s: Sys)
    ensures Reached(app, cols, es, s) && FirstStands(s, plan, Begin(Validate))
    ensures s.inflight == multiset{} && s.mail == multiset{} && s.armedFor == [0]
    ensures s.coord == Grant(FRESH, plan.id, WorkflowID(plan.id))
  {
    s := Init(cols);
    es := [];
    assert Reached(app, cols, es, s);
    hide Reached, WorkflowID;
    es, s := Then(app, cols, es, s, RequestLock(plan));
    assert !IDInUse(s, WorkflowID(plan.id));
    es, s := Then(app, cols, es, s, StartRun(0));
  }

  /** Its lock timer fires and signals. */
  lemma TimedOut(app: App, cols: Columns, plan: Plan) returns (es: seq<SysEvent>, s: Sys)
    ensures Reached(app, cols, es, s) && FirstStands(s, plan, Begin(Validate))
    ensures s.inflight == multiset{} && s.mail == multiset{Timeout(0, WorkflowID(plan.id))}
    ensures !s.coord.continueAsNewRequested
  {
    es, s := Started(app, cols, plan);
    hide Reached, WorkflowID;
    es, s := Then(app, cols, es, s, LockTimerDue(0));
    es, s := Then(app, cols, es, s, LockTimerResumes(0));
  }

  /** An attempt is lost. */
  lemma AttemptLost(app: App, cols: Columns, plan: Plan, es: seq<SysEvent>, s: Sys)
    returns (es': seq<SysEvent>, s': Sys)
    requires Reached(app, cols, es, s) && s.deps.Keys == {0} && s.deps[0].pc.Run? && s.deps[0].pc.act.Validate?
    requires FirstStands(s, plan, s.deps[0].pc)
    ensures Reached(app, cols, es', s')
    ensures var n := s.deps[0].pc.attempt + 1;
            FirstStands(s', plan, if n < 3 then Run(Validate, n, 0, true, true) else Notify(Failed))
    ensures s'.inflight == s.inflight && s'.mail == s.mail && s'.coord == s.coord
  {
    hide Reached;
    es', s' := Then(app, cols, es, s, DepStep(0, Interrupt));
    assert s'.inflight == s.inflight;
  }

  /** Its plan is never validated; it has failed and reported, its completion is processed, its timeout on its way. */
  lemma FailedAndReported(app: App, cols: Columns, plan: Plan) returns (es: seq<SysEvent>, s: Sys)
    ensures Reached(app, cols, es, s) && FirstStands(s, plan, Returning(Failed))
    ensures s.coord.active.None? && s.mail == multiset{Timeout(0, WorkflowID(plan.id))}
  {
    es, s := TimedOut(app, cols, plan);
    hide Reached, WorkflowID;
    es, s := AttemptLost(app, cols, plan, es, s);
    es, s := AttemptLost(app, cols, plan, es, s);
    es, s := AttemptLost(app, cols, plan, es, s);
    es, s := Then(app, cols, es, s, DepStep(0, SendNotify));
    var m := Msg(0, plan.id, WorkflowID(plan.id), Failed);
    assert s.inflight == multiset{m};
    es, s := Then(app, cols, es, s, Deliver(m));
  }

  /**
   For every plan and schema there is an execution in which a client is granted the lock for that plan and the start
   of its deployment is refused, since the one before has reported but not returned. The lock is then gone for good.
   */
  lemma StartCanBeRefused(app: App, cols: Columns, plan: Plan) returns (es: seq<SysEvent>, s: Sys)
    ensures Execute(Init(cols), app, es) == Some(s) && SysEnabled(s, app, RefuseStart(1))
    ensures SysStep(s, app, RefuseStart(1)).orphans == s.orphans + {1}
  {
    es, s := FailedAndReported(app, cols, plan);
    es, s := Then(app, cols, es, s, RequestLock(plan));
    assert Open(s, 0);
  }

  /** It returns, and the same plan is granted the lock again. */
  lemma GrantedAgain(app: App, cols: Columns, plan: Plan) returns (es: seq<SysEvent>, s: Sys)
    ensures Reached(app, cols, es, s) && s.deps.Keys == {0} && s.deps[0].pc == Closed(Failed)
    ensures s.pending == map[1 := plan] && s.mail == multiset{Timeout(0, WorkflowID(plan.id))}
  {
    es, s := FailedAndReported(app, cols, plan);
    hide Reached, WorkflowID;
    es, s := Then(app, cols, es, s, DepStep(0, Return));
    es, s := Then(app, cols, es, s, RequestLock(plan));
  }

  lemma NextIsOpen(app: App, s: Sys, m: Timeout)
    requires 1 in s.deps && s.deps[1].pc == Begin(Validate) && s.deps[1].rollbacks == 0
    requires m in s.mail && WorkflowID(s.deps[1].plan.id) == m.workflowID
    ensures SysEnabled(s, app, DeliverTimeout(m, 1)) && Running(s, 1)
    ensures SysStep(s, app, DeliverTimeout(m, 1)).deps[1].rollbacks == 1
  {
    hide WorkflowID;
  }

  lemma ReachedMeans(app: App, cols: Columns, es: seq<SysEvent>, s: Sys)
    requires Reached(app, cols, es, s)
    ensures Execute(Init(cols), app, es) == Some(s)
  {
  }

  /** And one in which a timeout that was armed for one deployment can be delivered to the next of the same plan. */
  lemma TimeoutCanHitTheNext(app: App, cols: Columns, plan: Plan) returns (es: seq<SysEvent>, s: Sys, m: Timeout)
    ensures Execute(Init(cols), app, es) == Some(s) && m.ticket == 0 && SysEnabled(s, app, DeliverTimeout(m, 1))
    ensures Running(s, 1) && s.deps[1].rollbacks == 0
    ensures SysStep(s, app, DeliverTimeout(m, 1)).deps[1].rollbacks == 1
  {
    es, s := GrantedAgain(app, cols, plan);
    m := Timeout(0, WorkflowID(plan.id));
    hide WorkflowID, Reached;
    assert !IDInUse(s, WorkflowID(plan.id));
    es, s := Then(app, cols, es, s, StartRun(1));
    ReachedMeans(app, cols, es, s);
    NextIsOpen(app, s, m);
  }

  /** A client that loses its grant at once leaves a lock that nothing can ever free. */
  lemma GrantCanBeLost(app: App, cols: Columns, plan: Plan) returns (es: seq<SysEvent>, s: Sys)
    ensures es == [RequestLock(plan), LoseGrant(0)]
    ensures Execute(Init(cols), app, es) == Some(s) && s.orphans == {0} && !Freeable(s, app)
  {
    s := Init(cols);
    es := [];
    assert Reached(app, cols, es, s);
    es, s := Then(app, cols, es, s, RequestLock(plan));
    es, s := Then(app, cols, es, s, LoseGrant(0));
    assert Reachable(s, app, cols);
    LockIsFreeableIffNotAbandoned(s, app, cols);
  }
}
