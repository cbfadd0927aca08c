/**
 BlueGreenDeploymentWorkflow as it is written: closures over local variables, one activity after another,
 early returns. Every statement is proved to be a run of the machine of module Deployment, so what module
 DeploymentTheorems shows of the machine holds of this code.
 (internal/bluegreen/workflow.go, internal/bluegreen/activities.go)

 What the code cannot decide is decided by an environment, any environment: which signal arrives at a gate, after
 how much work a worker or its reply is lost, whether the read-only timer fires.
 */
module Workflow {
  import opened Wrappers
  import opened Schema
  import opened Deployment
  import opened DeploymentFacts
  import opened DeploymentData
  import opened DeploymentTheorems
  import opened DeploymentWork
  import opened DeploymentCompletion
  import opened Migrator
  import Script

  datatype DeploymentResult = DeploymentResult(deploymentID: string, phase: Phase, history: seq<Phase>)
  datatype CompletePayload = CompletePayload(planID: string, workflowID: string, phase: Phase)

  datatype Environment = Environment(
    lost: (Activity, nat) -> Option<nat>,  // how much work an attempt does before it is lost, if it is
    approves: GateName -> bool,            // whether an approval arrives there, or else a rollback
    overruns: bool)                        // whether the read-only timer fires while traffic is being switched

  /** Nothing is lost, every gate is approved, the timer is silent. */
  ghost predicate Peaceful(env: Environment) {
    (forall act, k :: env.lost(act, k).None?) && (forall g :: env.approves(g)) && !env.overruns
  }

  /** The attempt can end with `ev`, as a success or not. */
  predicate Ends(d: Dep, app: App, db: Database, ev: Event, ok: bool) {
    && d.pc.Run? && Enabled(d, app, ev)
    && MoveOf(d, app, db, ev) == Some(if ok then SuccessMove(d.pc, d.readOnlyTimedOut, d.trafficSwitched)
                                      else FailureMove(d.pc, d.readOnlyTimedOut, d.trafficSwitched))
  }

  /** The same deployment and attempt; only its progress and log may differ. */
  predicate SameAttempt(d: Dep, d': Dep) {
    && d.pc.Run? && d'.pc.Run? && d'.pc.act == d.pc.act && d'.pc.attempt == d.pc.attempt
    && d' == d.(pc := d'.pc, log := d'.log)
  }

  /** What the code can observe of a move: where the workflow stands, the phase entered, the flags. */
  predicate Landed(d: Dep, d': Dep, m: Move) {
    && d'.pc == m.next
    && d'.history == d.history + (if m.enter.Some? then [m.enter.value] else [])
    && d'.rollbackRequested == (d.rollbackRequested || m.what.RollbackTaken?)
    && d'.trafficSwitched == (d.trafficSwitched || m.what == Succeeded(Switch))
    && d'.readOnlyTimedOut == d.readOnlyTimedOut
    && d'.plan == d.plan && d'.hasParent == d.hasParent && d'.approvals == d.approvals && d'.rollbacks == d.rollbacks
  }

  /** Where an activity leaves the workflow, given what ExecuteActivity returned. */
  function Outcome(d: Dep, act: Activity, ok: bool, green: bool): Move {
    if ok then SuccessMove(Run(act, 0, 0, true, green), d.readOnlyTimedOut, d.trafficSwitched)
    else FailureMove(Run(act, MaxAttempts(act) - 1, 0, true, true), d.readOnlyTimedOut, d.trafficSwitched)
  }

  /** Nothing that has been said is unsaid. */
  predicate Heard(before: seq<Script.Verdict>, after: seq<Script.Verdict>) {
    |before| <= |after| && forall i | 0 <= i < |before| :: after[i] == before[i]
  }

  lemma StepKeepsPlan(d: Dep, app: App, db: Database, ev: Event)
    requires Enabled(d, app, ev)
    ensures StepDep(d, app, db, ev).plan == d.plan && StepDep(d, app, db, ev).hasParent == d.hasParent
  {
  }

  /** What the end of an attempt does to a deployment. */
  lemma EndOfAttempt(d: Dep, app: App, db: Database, ev: Event, ok: bool)
    requires Ends(d, app, db, ev, ok)
    ensures Landed(d, StepDep(d, app, db, ev),
                   if ok then SuccessMove(d.pc, d.readOnlyTimedOut, d.trafficSwitched)
                   else FailureMove(d.pc, d.readOnlyTimedOut, d.trafficSwitched))
    ensures StepDb(d, app, db, ev) == db
  {
    hide SuccessMove, FailureMove, LogAfter;
    MoveIsNoWork(d, app, db, ev);
  }

  lemma MoveIsNoWork(d: Dep, app: App, db: Database, ev: Event)
    requires Enabled(d, app, ev) && MoveOf(d, app, db, ev).Some?
    ensures StepDb(d, app, db, ev) == db && !ev.SignalApprove? && !ev.SignalRollback?
    ensures d.pc.Run? ==> !ev.TakeApproval? && !ev.TakeRollback?
  {
  }

  /** Losing an attempt, finishing one, and stopping at something that is in error. */
  lemma WaysToEnd(d: Dep, app: App, db: Database)
    requires d.pc.Run?
    ensures Ends(d, app, db, Interrupt, false)
    ensures d.pc.pos == Len(d.pc.act, d.plan, app) ==> Ends(d, app, db, Finish, Reports(d))
    ensures forall count | d.pc.pos < Len(d.pc.act, d.plan, app) && WorkDb(d, app, db, count).None? ::
              Ends(d, app, db, Advance(count), false)
  {
  }

  /** An attempt at a statement list that nobody interrupts ends with it, or at the first statement in error. */
  lemma StatementsEnd(d: Dep, app: App, db: Database, cols: Columns, done: bool)
    requires d.pc.Run? && IsSql(d.pc.act) && d.pc.pos <= |SqlOf(d.pc.act, d.plan)|
    requires After(cols, SqlOf(d.pc.act, d.plan), d.pc.pos) == Some(db.columns)
    requires done <==> d.pc.pos == |SqlOf(d.pc.act, d.plan)|
    requires !done ==> After(cols, SqlOf(d.pc.act, d.plan), d.pc.pos + 1).None?
    ensures Ends(d, app, db, if done then Finish else Advance(0), done)
    ensures !done ==> InError(SqlOf(d.pc.act, d.plan)[d.pc.pos], db.columns)
  {
    WaysToEnd(d, app, db);
    hide Ends;
  }

  lemma NotTried(d: Dep, act: Activity)
    requires d.pc == Begin(act)
    ensures Landed(d, d, Move(AttemptFailed(act), None, Run(act, 0, 0, true, true)))
  {
  }

  lemma StandsAt(d: Dep, d': Dep, m: Move)
    requires Landed(d, d', m)
    ensures d'.pc == m.next
  {
  }

  lemma PolicyInNumbers(act: Activity)
    ensures MaxAttempts(act) == if TwoAttempts(act) then 2 else 3
  {
  }

  /** One attempt more: the activity is over, or it is retried from the start. */
  lemma EndsOrRetries(d0: Dep, d1: Dep, d2: Dep, d3: Dep, act: Activity, attempt: nat, ok: bool, green: bool)
    requires attempt < MaxAttempts(act)
    requires Landed(d0, d1, Move(AttemptFailed(act), None, Run(act, attempt, 0, true, true)))
    requires SameAttempt(d1, d2) && (ok ==> d2.pc.greenOk == green)
    requires Landed(d2, d3, if ok then SuccessMove(d2.pc, d2.readOnlyTimedOut, d2.trafficSwitched)
                            else FailureMove(d2.pc, d2.readOnlyTimedOut, d2.trafficSwitched))
    ensures !ok && attempt + 1 < MaxAttempts(act) ==>
              Landed(d0, d3, Move(AttemptFailed(act), None, Run(act, attempt + 1, 0, true, true)))
    ensures ok || attempt + 1 == MaxAttempts(act) ==> Landed(d0, d3, Outcome(d0, act, ok, green))
  {
  }

  /** What the code needs to know of a move: where it leads, and the phase it enters. */
  predicate Leads(d: Dep, d': Dep, next: Pc, entered: seq<Phase>) {
    && d'.pc == next && d'.history == d.history + entered
    && d'.rollbackRequested == d.rollbackRequested && d'.readOnlyTimedOut == d.readOnlyTimedOut
    && d'.approvals == d.approvals && d'.rollbacks == d.rollbacks
  }

  lemma ValidateLeads(d: Dep, d': Dep, ok: bool, green: bool)
    requires Landed(d, d', Outcome(d, Validate, ok, green))
    ensures if ok then Leads(d, d', Gate(PlanGate), []) else Leads(d, d', Notify(Failed), [Failed])
    ensures d'.trafficSwitched == d.trafficSwitched
  {
  }

  lemma VerifyLeads(d: Dep, d': Dep, ok: bool, green: bool)
    requires Landed(d, d', Outcome(d, Verify, ok, green))
    ensures Leads(d, d', if ok then Begin(CompatPre) else Begin(CompRelease), [])
    ensures d'.trafficSwitched == d.trafficSwitched
  {
  }

  lemma CompatPreLeads(d: Dep, d': Dep, ok: bool, green: bool)
    requires Landed(d, d', Outcome(d, CompatPre, ok, green))
    ensures Leads(d, d', if ok then Gate(VerifyGate) else Begin(CompRelease), [])
    ensures d'.trafficSwitched == d.trafficSwitched
  {
  }

  lemma SwitchLeads(d: Dep, d': Dep, ok: bool, green: bool)
    requires Landed(d, d', Outcome(d, Switch, ok, green))
    ensures Leads(d, d', Begin(Release), []) && d'.trafficSwitched == (d.trafficSwitched || ok)
  {
  }

  lemma ReleaseLeads(d: Dep, d': Dep, ok: bool, green: bool)
    requires Landed(d, d', Outcome(d, Release, ok, green))
    ensures if d.readOnlyTimedOut || !d.trafficSwitched then Leads(d, d', Begin(CompRelease), [])
            else Leads(d, d', Gate(MonitorGate), [Monitoring])
    ensures d'.trafficSwitched == d.trafficSwitched
  {
  }

  lemma CompatFinalLeads(d: Dep, d': Dep, ok: bool, green: bool)
    requires Landed(d, d', Outcome(d, CompatFinal, ok, green))
    ensures Leads(d, d', if ok && green then Gate(ContractGate) else Begin(CompRelease), [])
    ensures d'.trafficSwitched == d.trafficSwitched
  {
  }

  lemma ContractLeads(d: Dep, d': Dep, ok: bool, green: bool)
    requires Landed(d, d', Outcome(d, Contract, ok, green))
    ensures if ok then Leads(d, d', Begin(VerifyContract), []) else Leads(d, d', Notify(Failed), [Failed])
    ensures d'.trafficSwitched == d.trafficSwitched
  {
  }

  lemma VerifyContractLeads(d: Dep, d': Dep, ok: bool, green: bool)
    requires Landed(d, d', Outcome(d, VerifyContract, ok, green))
    ensures Leads(d, d', Notify(Complete), [Complete])
  {
  }

  lemma CompReleaseLeads(d: Dep, d': Dep, ok: bool, green: bool)
    requires Landed(d, d', Outcome(d, CompRelease, ok, green))
    ensures Leads(d, d', Begin(Rollback), [])
  {
  }

  lemma RollbackLeads(d: Dep, d': Dep, ok: bool, green: bool)
    requires Landed(d, d', Outcome(d, Rollback, ok, green))
    ensures Leads(d, d', Notify(RolledBack), [RolledBack])
  {
  }

  /** A gate that is passed leads on; one that is not leads to compensation. */
  lemma GateLeads(d: Dep, d': Dep, gate: GateName, approved: bool)
    requires Landed(d, d', if approved then ApprovalMove(gate, false) else RollbackMove(gate))
    ensures !approved ==> d'.pc == Begin(CompRelease) && d'.history == d.history
    ensures approved && gate.PlanGate? ==> Leads(d, d', Begin(Expand), [Expanding])
    ensures approved && gate.VerifyGate? ==> Leads(d, d', Begin(Acquire), [Cutover])
    ensures approved && gate.ContractGate? ==> Leads(d, d', Begin(Contract), [Contracting])
    ensures d'.trafficSwitched == d.trafficSwitched && d'.readOnlyTimedOut == d.readOnlyTimedOut
    ensures d'.approvals == d.approvals && d'.rollbacks == d.rollbacks
  {
  }

  lemma GateStep(d: Dep, app: App, db: Database)
    requires d.pc.Gate?
    ensures d.approvals > 0 ==>
              Landed(d.(approvals := d.approvals - 1), StepDep(d, app, db, TakeApproval),
                  ApprovalMove(d.pc.gate, d.rollbackRequested))
    ensures d.rollbacks > 0 ==>
              Landed(d.(rollbacks := d.rollbacks - 1), StepDep(d, app, db, TakeRollback), RollbackMove(d.pc.gate))
  {
  }

  /** One unit of work, when it is not in error. */
  lemma WorkStep(d: Dep, app: App, db: Database, count: int)
    requires Enabled(d, app, Advance(count)) && WorkDb(d, app, db, count).Some?
    ensures SameAttempt(d, StepDep(d, app, db, Advance(count)))
    ensures StepDep(d, app, db, Advance(count)).pc == WorkPc(d, app, db)
    ensures StepDb(d, app, db, Advance(count)) == WorkDb(d, app, db, count).value
  {
  }

  lemma WorkOnQuery(d: Dep, app: App, db: Database)
    requires d.pc.Run? && IsCompat(d.pc.act) && d.pc.pos < |app.blue| + |app.green|
    ensures Enabled(d, app, Advance(0)) && WorkDb(d, app, db, 0) == Some(db)
    ensures WorkPc(d, app, db).pos == d.pc.pos + 1
  {
  }

  /** Every machine run keeps the deployment's invariant and, on its own, the bounds of restoration. */
  lemma {:induction false} RunInv(plan: Plan, hasParent: bool, app: App, db: Database, evs: seq<Event>, d: Dep,
      db': Database)
    requires Exec(Start(plan, hasParent), app, db, evs) == Some((d, db'))
    ensures d.plan == plan && DepInv(d)
    ensures Reversible(plan, db.columns) ==> RestoreOk(d, db.columns, db'.columns)
    ensures !db.readOnly ==> FlagOk(d, db'.readOnly)
  {
    if evs == [] {
      StartInv(plan, hasParent);
      assert !RolledBackCleanly(d);
    } else {
      var mid := Exec(Start(plan, hasParent), app, db, evs[..|evs| - 1]).value;
      var ev := evs[|evs| - 1];
      RunInv(plan, hasParent, app, db, evs[..|evs| - 1], mid.0, mid.1);
      StepKeepsPlan(mid.0, app, mid.1, ev);
      DepInvKept(mid.0, app, mid.1, ev);
      if Reversible(plan, db.columns) {
        RestoreKept(mid.0, app, mid.1, ev, db.columns);
      }
      if !db.readOnly {
        FlagKept(mid.0, app, mid.1, ev);
      }
    }
  }

  class DeploymentWorkflow {
    const plan: Plan
    const app: App
    const hasParent: bool
    const workflowID: string
    const migrator: FakeDatabaseMigrator
    const env: Environment

    var phase: Phase
    var history: seq<Phase>
    var rollbackRequested: bool
    var readOnlyTimedOut: bool
    var trafficSwitched: bool
    var sent: seq<CompletePayload>   // completions signalled to the parent

    ghost const origin: Database     // the database this run started on
    ghost var dep: Dep               // the machine's view of this run
    ghost var shadow: Database       // the machine's view of the database
    ghost var trace: seq<Event>      // the machine run this run has been so far
    ghost var script: seq<Script.Verdict>  // what activities, gates and the read-only timer have said so far

    constructor (plan: Plan, app: App, hasParent: bool, workflowID: string, migrator: FakeDatabaseMigrator,
        env: Environment)
      ensures this.plan == plan && this.app == app && this.hasParent == hasParent && this.migrator == migrator
      ensures this.workflowID == workflowID && this.env == env && script == []
      ensures origin == migrator.Db() && Synced() && dep == Start(plan, hasParent)
      ensures phase == Pending && history == [] && sent == [] && Flags()
    {
      this.plan, this.app, this.hasParent, this.workflowID, this.migrator := plan, app, hasParent, workflowID, migrator;
      this.env := env;
      script := [];
      phase, history := Pending, [];
      rollbackRequested, readOnlyTimedOut, trafficSwitched := false, false, false;
      sent := [];
      origin := migrator.Db();
      dep := Start(plan, hasParent);
      shadow := migrator.Db();
      trace := [];
    }

    /** The machine can do what this run has done. */
    ghost predicate Traced()
      reads this`dep, this`shadow, this`trace, migrator`queryCounts
    {
      && Exec(Start(plan, hasParent), app, origin, trace) == Some((dep, shadow))
      && dep.plan == plan && dep.hasParent == hasParent
      && (Undisturbed() ==> Smooth(Start(plan, hasParent), app, origin, trace))
    }

    function CountOf(q: Query): int
      reads migrator`queryCounts
    {
      if q.text in migrator.queryCounts then migrator.queryCounts[q.text] else 0
    }

    predicate CountsAsWanted()
      reads migrator`queryCounts
    {
      forall i :: 0 <= i < |plan.verifyQueries| ==>
        CountOf(plan.verifyQueries[i].query) == plan.verifyQueries[i].wantCount
    }

    /** Nothing comes in between. */
    ghost predicate Undisturbed()
      reads migrator`queryCounts
    {
      Peaceful(env) && CountsAsWanted()
    }

    /** What is wrong with the plan, the application or the schema, if an activity has failed. */
    predicate Blamed(act: Activity)
      reads migrator
    {
      match act
      case Validate => !ValidPlan(plan)
      case Expand => exists i :: 0 <= i < |plan.expandSQL| && InError(plan.expandSQL[i], migrator.columns)
      case Contract => exists i :: 0 <= i < |plan.contractSQL| && InError(plan.contractSQL[i], migrator.columns)
      case Rollback => exists i :: 0 <= i < |plan.rollbackSQL| && InError(plan.rollbackSQL[i], migrator.columns)
      case Verify => !CountsAsWanted() || !QueriesValid(plan, migrator.columns, |plan.verifyQueries|)
      case CompatPre => !AllValid(migrator.columns, app.blue)
      case _ => false
    }

    ghost predicate Synced()
      reads this`dep, this`shadow, this`trace, migrator
    {
      Traced() && shadow == migrator.Db()
    }

    /** The code's flags are the machine's. */
    ghost predicate Flags()
      reads this`dep, this`rollbackRequested, this`readOnlyTimedOut, this`trafficSwitched
    {
      && dep.rollbackRequested == rollbackRequested && dep.readOnlyTimedOut == readOnlyTimedOut
      && dep.trafficSwitched == trafficSwitched && dep.approvals == 0 && dep.rollbacks == 0
    }

    ghost method Emit(ev: Event)
      requires Traced() && Enabled(dep, app, ev) && (Undisturbed() ==> Calm(dep, ev))
      modifies this`dep, this`shadow, this`trace
      ensures Traced()
      ensures dep == StepDep(old(dep), app, old(shadow), ev) && shadow == StepDb(old(dep), app, old(shadow), ev)
    {
      var next, nextDb := StepDep(dep, app, shadow, ev), StepDb(dep, app, shadow, ev);
      StepKeepsPlan(dep, app, shadow, ev);
      assert (trace + [ev])[..|trace|] == trace;
      trace := trace + [ev];
      dep, shadow := next, nextDb;
    }

    ghost method EmitWork(count: int)
      requires Traced() && Enabled(dep, app, Advance(count)) && WorkDb(dep, app, shadow, count).Some?
      requires Undisturbed() ==> Wanted(dep, Advance(count))
      modifies this`dep, this`shadow, this`trace
      ensures Traced() && SameAttempt(old(dep), dep)
      ensures dep.pc == WorkPc(old(dep), app, old(shadow)) && shadow == WorkDb(old(dep), app, old(shadow), count).value
    {
      WorkStep(dep, app, shadow, count);
      Emit(Advance(count));
    }

    ghost method EmitEnd(how: Event, ok: bool)
      requires Traced() && Ends(dep, app, shadow, how, ok) && (Undisturbed() ==> Calm(dep, how))
      modifies this`dep, this`shadow, this`trace
      ensures Traced() && shadow == old(shadow)
      ensures Landed(old(dep), dep,
                     if ok then SuccessMove(old(dep).pc, old(dep).readOnlyTimedOut, old(dep).trafficSwitched)
                     else FailureMove(old(dep).pc, old(dep).readOnlyTimedOut, old(dep).trafficSwitched))
    {
      EndOfAttempt(dep, app, shadow, how, ok);
      hide Ends;
      Emit(how);
    }

    // ---- the closures ----

    method SetPhase(p: Phase)
      requires dep.history == history + [p]
      modifies this`phase, this`history
      ensures phase == p && history == dep.history
    {
      phase := p;
      history := history + [p];
    }

    /** What the parent is told in the end, if there is one. */
    function Completions(finalPhase: Phase): seq<CompletePayload> {
      if hasParent then [CompletePayload(plan.id, workflowID, finalPhase)] else []
    }

    method NotifyParent(finalPhase: Phase)
      requires Traced() && dep.pc == Notify(finalPhase)
      modifies this`sent, this`dep, this`shadow, this`trace
      ensures Traced() && dep.pc == Returning(finalPhase) && dep.history == old(dep.history) && shadow == old(shadow)
      ensures sent == old(sent) + if hasParent then [CompletePayload(plan.id, workflowID, finalPhase)] else []
    {
      hide Exec, Smooth;
      if hasParent {
        sent := sent + [CompletePayload(plan.id, workflowID, finalPhase)];
      }
      Emit(SendNotify);
    }

    /** Blocks until a signal arrives; which one is up to the environment. */
    method WaitForApproval(gate: GateName) returns (approved: bool)
      requires Synced() && Flags() && dep.pc == Gate(gate) && !rollbackRequested
      modifies this`rollbackRequested, this`dep, this`shadow, this`trace, this`script
      ensures Synced() && Flags() && script == old(script) + [Script.Answered(gate, approved)]
      ensures approved == env.approves(gate)
      ensures Landed(old(dep), dep, if approved then ApprovalMove(gate, false) else RollbackMove(gate))
    {
      hide Exec, Smooth;
      var received := env.approves(gate);
      EmitSignal(received);
      if !received {
        rollbackRequested := true;
      }
      approved := received && !rollbackRequested;
      script := script + [Script.Answered(gate, approved)];
    }

    ghost method EmitSignal(approval: bool)
      requires Traced() && dep.pc.Gate? && dep.approvals == 0 && dep.rollbacks == 0
      requires Undisturbed() ==> approval
      modifies this`dep, this`shadow, this`trace
      ensures Traced() && shadow == old(shadow)
      ensures Landed(old(dep), dep,
                     if approval then ApprovalMove(old(dep).pc.gate, old(dep).rollbackRequested)
                         else RollbackMove(old(dep).pc.gate))
    {
      Emit(if approval then SignalApprove else SignalRollback);
      GateStep(dep, app, shadow);
      Emit(if approval then TakeApproval else TakeRollback);
    }

    /** The end of every run: the last phase is recorded and the parent told. */
    method Close(final: Phase) returns (result: DeploymentResult)
      requires Synced() && dep.pc == Notify(final) && dep.history == history + [final]
      modifies this`phase, this`history, this`sent, this`dep, this`shadow, this`trace
      ensures Ended(result) && result.phase == final && phase == final && sent == old(sent) + Completions(final)
    {
      hide Exec, Smooth;
      SetPhase(final);
      NotifyParent(final);
      Emit(Return);
      result := DeploymentResult(plan.id, final, history);
    }

    /** Release, roll back, report: whatever the two activities come to. */
    method Compensate() returns (result: DeploymentResult)
      requires Synced() && Flags() && dep.pc == Begin(CompRelease) && history == dep.history
      modifies this`phase, this`history, this`sent, this`dep, this`shadow, this`trace, this`script
      modifies migrator`columns, migrator`readOnly, migrator`executedSQL
      ensures Ended(result) && result.phase == phase == RolledBack && sent == old(sent) + Completions(RolledBack)
      ensures Heard(old(script), script) && Script.Compensated(script, |old(script)|, result.phase)
    {
      hide Exec, Smooth, Synced, Traced, Undisturbed, Blamed, Landed, Outcome, SuccessMove, FailureMove, ApprovalMove;
      ghost var d0 := dep;
      var released, g1, _ := ExecuteActivity(CompRelease);
      CompReleaseLeads(d0, dep, released, g1);
      ghost var d1 := dep;
      var undone, g2, _ := ExecuteActivity(Rollback);
      RollbackLeads(d1, dep, undone, g2);
      result := Close(RolledBack);
    }

    /** The run is over and says what the machine says. */
    ghost predicate Ended(result: DeploymentResult)
      reads this`dep, this`shadow, this`trace, migrator
    {
      && Synced() && dep.pc == Closed(result.phase) && result.history == dep.history
      && result.deploymentID == plan.id
    }

    // ---- activities ----

    /**
     An activity as Temporal runs it: attempts until one reports success or the policy is exhausted. It fails only if
     its last attempt was lost, or for a reason in the plan, the application or the schema.
     */
    method ExecuteActivity(act: Activity) returns (ok: bool, green: bool, tries: nat)
      requires Synced() && dep.pc == Begin(act)
      modifies this`dep, this`shadow, this`trace, this`script
      modifies migrator`columns, migrator`readOnly, migrator`executedSQL
      ensures Synced() && Landed(old(dep), dep, Outcome(old(dep), act, ok, green))
      ensures script == old(script) + [Script.Ended(act, ok, green)]
      ensures 1 <= tries <= if TwoAttempts(act) then 2 else 3
      ensures ok ==> env.lost(act, tries - 1).None? && (!IsSql(act) ==> !Blamed(act))
      ensures !ok ==> && tries == (if TwoAttempts(act) then 2 else 3)
                      && (env.lost(act, tries - 1).Some? || Blamed(act))
      ensures IsCompat(act) && ok ==> green == AllValid(migrator.columns, app.green)
    {
      hide Exec, Smooth, Landed, Outcome, SameAttempt, Ends, Calm, Synced, SuccessMove, FailureMove, Blamed;
      ok, green, tries := false, true, 0;
      NotTried(dep, act);
      PolicyInNumbers(act);
      SyncedMeans();
      while !ok && tries < MaxAttempts(act)
        invariant Synced() && tries <= MaxAttempts(act) && script == old(script) && (ok ==> tries > 0)
        invariant !ok && tries < MaxAttempts(act) ==>
                    Landed(old(dep), dep, Move(AttemptFailed(act), None, Run(act, tries, 0, true, true)))
        invariant ok || tries == MaxAttempts(act) ==> Landed(old(dep), dep, Outcome(old(dep), act, ok, green))
        invariant tries > 0 ==> if ok then env.lost(act, tries - 1).None? && (!IsSql(act) ==> !Blamed(act))
                                else env.lost(act, tries - 1).Some? || Blamed(act)
        invariant IsCompat(act) && ok ==> green == AllValid(migrator.columns, app.green)
      {
        ghost var before := dep;
        ghost var how;
        StandsAt(old(dep), dep, Move(AttemptFailed(act), None, Run(act, tries, 0, true, true)));
        ok, green, how := Attempt(act, tries);
        ghost var tried := dep;
        SyncedMeans();
        EmitEnd(how, ok);
        SyncedIf();
        EndsOrRetries(old(dep), before, tried, dep, act, tries, ok, green);
        tries := tries + 1;
      }
      script := script + [Script.Ended(act, ok, green)];
    }

    lemma SyncedMeans()
      requires Synced()
      ensures Traced() && shadow == migrator.Db()
    {
    }

    lemma SyncedIf()
      requires Traced() && shadow == migrator.Db()
      ensures Synced()
    {
    }

    /** One attempt, up to its end, and how that comes about. */
    method Attempt(act: Activity, attempt: nat) returns (done: bool, green: bool, ghost how: Event)
      requires Synced() && dep.pc == Run(act, attempt, 0, true, true)
      modifies this`dep, this`shadow, this`trace
      modifies migrator`columns, migrator`readOnly, migrator`executedSQL
      ensures Synced() && SameAttempt(old(dep), dep)
      ensures Ends(dep, app, shadow, how, done) && (Undisturbed() ==> Calm(dep, how))
      ensures done ==> dep.pc.greenOk == green && env.lost(act, attempt).None? && (!IsSql(act) ==> !Blamed(act))
      ensures !done ==> env.lost(act, attempt).Some? || Blamed(act)
      ensures IsCompat(act) && done ==> green == AllValid(migrator.columns, app.green)
    {
      hide Exec, Smooth, Ends;
      green := true;
      var lost := env.lost(act, attempt);
      match act {
        case Validate =>
          done := ValidatePlanActivity();
          how := Finish;
          WaysToEnd(dep, app, shadow);
        case Expand | Contract | Rollback => done, how := ExecuteSQLActivity(act, lost);
        case Verify => done, how := VerifyExpandActivity();
        case CompatPre => done, green, how := RunAppCompatCheckActivity(act, true);
        case CompatFinal | VerifyContract => done, green, how := RunAppCompatCheckActivity(act, false);
        case Acquire => done, how := SetReadOnlyActivity(act, true, lost);
        case Release | CompRelease => done, how := SetReadOnlyActivity(act, false, lost);
        case Switch =>
          done := SwitchTrafficActivity();
          how := Finish;
          WaysToEnd(dep, app, shadow);
      }
      if lost.Some? {
        // Its reply, if it has got that far, does not arrive.
        done, how := false, Interrupt;
        WaysToEnd(dep, app, shadow);
      }
    }

    method ValidatePlanActivity() returns (ok: bool)
      ensures ok == ValidPlan(plan)
    {
      if plan.id == "" || |plan.expandSQL| == 0 || |plan.contractSQL| == 0 || |plan.rollbackSQL| == 0 {
        return false;
      }
      for i := 0 to |plan.verifyQueries|
        invariant forall j :: 0 <= j < i ==> plan.verifyQueries[j].query.text != ""
      {
        if plan.verifyQueries[i].query.text == "" {
          return false;
        }
      }
      ok := true;
    }

    /** In production it would tell a load balancer; here it always succeeds. */
    method SwitchTrafficActivity() returns (ok: bool)
      ensures ok
    {
      ok := true;
    }

    /** ExecuteExpandActivity, ExecuteContractActivity, ExecuteRollbackActivity. */
    method ExecuteSQLActivity(act: Activity, lost: Option<nat>) returns (done: bool, ghost how: Event)
      requires IsSql(act)
      requires Synced() && dep.pc.Run? && dep.pc == Run(act, dep.pc.attempt, 0, true, true)
      modifies this`dep, this`shadow, this`trace, migrator`columns, migrator`executedSQL
      ensures Synced() && SameAttempt(old(dep), dep) && dep.pc.greenOk
      ensures lost.None? ==> Ends(dep, app, shadow, how, done) && Calm(dep, how) && (!done ==> Blamed(act))
    {
      hide Exec, Smooth, Traced, Blamed, Ends, Calm;
      PlanIsOurs();
      var stmts := SqlOf(act, plan);
      var cut := if lost.Some? then lost.value else |stmts| + 1;
      ghost var cols := migrator.columns;
      ghost var n;
      done, n := migrator.ExecuteSQL(stmts, cut);
      EmitStatements(act, cols, n);
      how := if done then Finish else Advance(0);
      if lost.None? {
        StatementsEnd(dep, app, shadow, cols, done);
        StatementBlamed(act, n);
      }
    }

    lemma PlanIsOurs()
      requires Traced()
      ensures dep.plan == plan
    {
    }

    lemma StatementBlamed(act: Activity, i: nat)
      requires IsSql(act)
      ensures i < |SqlOf(act, plan)| && InError(SqlOf(act, plan)[i], migrator.columns) ==> Blamed(act)
      ensures Calm(dep, Finish) && (dep.pc.Run? && IsSql(dep.pc.act) ==> Calm(dep, Advance(0)))
    {
    }

    /** The machine executes the first `n` statements. */
    ghost method EmitStatements(act: Activity, cols: Columns, n: nat)
      requires IsSql(act) && n <= |SqlOf(act, plan)| && After(cols, SqlOf(act, plan), n).Some?
      requires Traced() && dep.pc.Run? && dep.pc == Run(act, dep.pc.attempt, 0, true, true) && shadow.columns == cols
      modifies this`dep, this`shadow, this`trace
      ensures Traced() && SameAttempt(old(dep), dep) && dep.pc == Run(act, old(dep).pc.attempt, n, true, true)
      ensures shadow == Database(After(cols, SqlOf(act, plan), n).value, old(shadow).readOnly)
    {
      hide Exec, Smooth, Undisturbed;
      var stmts := SqlOf(act, plan);
      var j := 0;
      while j < n
        invariant 0 <= j <= n && After(cols, stmts, j).Some?
        invariant Traced() && SameAttempt(old(dep), dep) && dep.pc == Run(act, old(dep).pc.attempt, j, true, true)
        invariant shadow == Database(After(cols, stmts, j).value, old(shadow).readOnly)
      {
        PrefixesRun(cols, stmts, j + 1, n);
        EmitWork(0);
        j := j + 1;
      }
    }

    method VerifyExpandActivity() returns (done: bool, ghost how: Event)
      requires Synced() && dep.pc.Run? && dep.pc == Run(Verify, dep.pc.attempt, 0, true, true)
      modifies this`dep, this`shadow, this`trace
      ensures Synced() && SameAttempt(old(dep), dep) && dep.pc.greenOk
      ensures Ends(dep, app, shadow, how, done) && (Undisturbed() ==> Calm(dep, how))
      ensures done <==> forall i :: 0 <= i < |plan.verifyQueries| ==>
                ValidQuery(migrator.columns, plan.verifyQueries[i].query)
                && CountOf(plan.verifyQueries[i].query) == plan.verifyQueries[i].wantCount
    {
      hide Exec, Smooth;
      for i := 0 to |plan.verifyQueries|
        invariant Synced() && SameAttempt(old(dep), dep)
        invariant dep.pc == Run(Verify, old(dep).pc.attempt, i, true, true)
        invariant forall j :: 0 <= j < i ==>
                    ValidQuery(migrator.columns, plan.verifyQueries[j].query)
                    && CountOf(plan.verifyQueries[j].query) == plan.verifyQueries[j].wantCount
      {
        var count := migrator.QueryCheck(plan.verifyQueries[i].query);
        if count.None? || count.value != plan.verifyQueries[i].wantCount {
          how := Advance(if count.Some? then count.value else plan.verifyQueries[i].wantCount);
          WaysToEnd(dep, app, shadow);
          return false, how;
        }
        EmitWork(count.value);
      }
      done, how := true, Finish;
      WaysToEnd(dep, app, shadow);
    }

    method RunAppCompatCheckActivity(act: Activity, bluePassRequired: bool)
      returns (done: bool, green: bool, ghost how: Event)
      requires IsCompat(act) && (bluePassRequired <==> act == CompatPre)
      requires Synced() && dep.pc.Run? && dep.pc == Run(act, dep.pc.attempt, 0, true, true)
      modifies this`dep, this`shadow, this`trace
      ensures Synced() && SameAttempt(old(dep), dep) && dep.pc.greenOk == green
      ensures Ends(dep, app, shadow, how, done) && Calm(dep, how)
      ensures green == AllValid(migrator.columns, app.green)
      ensures done == (bluePassRequired ==> AllValid(migrator.columns, app.blue))
    {
      hide Exec, Smooth, Traced, AllValid, Failing;
      var compat := migrator.RunAppCompat(app);
      EmitChecks();
      green := compat.greenPass;
      done := !bluePassRequired || compat.bluePass;
      how := Finish;
      WaysToEnd(dep, app, shadow);
    }

    /** The machine looks at one query after the other. */
    ghost method EmitChecks()
      requires Traced() && dep.pc.Run? && IsCompat(dep.pc.act)
      requires dep.pc == Run(dep.pc.act, dep.pc.attempt, 0, true, true)
      modifies this`dep, this`shadow, this`trace
      ensures Traced() && shadow == old(shadow) && SameAttempt(old(dep), dep)
      ensures dep.pc.pos == |app.blue| + |app.green|
      ensures dep.pc.blueOk == AllValid(shadow.columns, app.blue)
                && dep.pc.greenOk == AllValid(shadow.columns, app.green)
    {
      hide Exec, Smooth;
      while dep.pc.pos < |app.blue| + |app.green|
        invariant Traced() && shadow == old(shadow) && SameAttempt(old(dep), dep)
        invariant dep.pc.pos <= |app.blue| + |app.green| && CheckExact(dep.pc, app, shadow.columns)
        decreases |app.blue| + |app.green| - dep.pc.pos
      {
        CheckedQueryCounts(dep.pc, dep, app, shadow);
        WorkOnQuery(dep, app, shadow);
        EmitWork(0);
      }
      FinishedCheck(dep, app, shadow);
    }

    /** AcquireReadOnlyActivity and ReleaseReadOnlyActivity; the worker may be lost before the flag is set. */
    method SetReadOnlyActivity(act: Activity, flag: bool, lost: Option<nat>) returns (done: bool, ghost how: Event)
      requires if flag then act == Acquire else act == Release || act == CompRelease
      requires Synced() && dep.pc.Run? && dep.pc == Run(act, dep.pc.attempt, 0, true, true)
      modifies this`dep, this`shadow, this`trace, migrator`readOnly
      ensures Synced() && SameAttempt(old(dep), dep) && dep.pc.greenOk
      ensures done == (lost.None? || lost.value > 0)
      ensures migrator.readOnly == if done then flag else old(migrator.readOnly)
      ensures done ==> Ends(dep, app, shadow, how, true) && Calm(dep, how)
    {
      hide Exec, Smooth;
      done, how := lost.None? || lost.value > 0, Finish;
      if done {
        migrator.SetReadOnly(flag);
        EmitWork(0);
        WaysToEnd(dep, app, shadow);
      }
    }

    /** The timer goroutine races the traffic switch. */
    method ReadOnlyTimer()
      requires Synced() && Flags() && dep.pc == Begin(Switch) && !readOnlyTimedOut
      modifies this`readOnlyTimedOut, this`dep, this`shadow, this`trace, this`script
      ensures Synced() && Flags() && script == old(script) + [Script.Overran(readOnlyTimedOut)]
      ensures readOnlyTimedOut == env.overruns
      ensures dep == old(dep).(readOnlyTimedOut := readOnlyTimedOut, log := dep.log)
    {
      hide Exec, Smooth;
      var fires := env.overruns;
      if fires {
        readOnlyTimedOut := true;
        Emit(TimerFires);
      }
      script := script + [Script.Overran(fires)];
    }

    // ---- the workflow ----

    method Execute() returns (result: DeploymentResult)
      requires Synced() && Flags() && dep == Start(plan, hasParent) && origin == migrator.Db()
      requires history == [] && sent == [] && script == []
      modifies this, migrator`columns, migrator`readOnly, migrator`executedSQL
      ensures Ended(result) && phase == result.phase && DepInv(dep)
      ensures Finished(result.history, result.phase)
      ensures Script.Reviewed(script, 0, result.phase) && Script.Sound(script, 0, result.phase)
      ensures result.phase == Complete <==> Script.AllWell(script, 0)
      ensures result.phase == Failed <==>
                Script.Denied(script, 0, Validate) || Script.Denied(script, 0, Contract)
      ensures Undisturbed() ==> (result.phase == Complete <==> Completable(plan, app, old(migrator.columns)))
      ensures result.phase == Complete ==> Completable(plan, app, old(migrator.columns))
      ensures sent == if hasParent then [CompletePayload(plan.id, workflowID, result.phase)] else []
      ensures Reversible(plan, old(migrator.columns)) && RolledBackCleanly(dep) ==>
                result.phase == RolledBack && migrator.columns == old(migrator.columns)
      ensures !old(migrator.readOnly) && !Unreleased(dep.log) ==> !migrator.readOnly
    {
      result := ReviewPlan();
      Script.ReviewedIsSound(script, 0, result.phase);
      Script.CompleteIff(script, 0, result.phase);
      Script.FailedIff(script, 0, result.phase);
      RunInv(plan, hasParent, app, origin, trace, dep, shadow);
      CompletionNeeds(plan, hasParent, app, origin, trace, dep, shadow);
      if Undisturbed() {
        CompletesIff(plan, hasParent, app, origin, trace, dep, shadow);
      }
    }

    /** Between two activities, with nothing sent and no rollback asked for. */
    ghost predicate Before(next: Pc, entered: seq<Phase>)
      reads this, migrator
    {
      && Synced() && Flags() && dep.pc == next && dep.history == history + entered
      && !rollbackRequested && sent == []
    }

    /** The run is over, and the parent, if there is one, has been told once. */
    ghost predicate Over(result: DeploymentResult)
      reads this, migrator
    {
      Ended(result) && phase == result.phase && sent == Completions(phase)
    }

    method ReviewPlan() returns (result: DeploymentResult)
      requires Before(Begin(Validate), [PlanReview]) && !readOnlyTimedOut && !trafficSwitched
      modifies this, migrator`columns, migrator`readOnly, migrator`executedSQL
      ensures Over(result) && Heard(old(script), script) && Script.Reviewed(script, |old(script)|, result.phase)
    {
      hide Exec, Smooth, Synced, Traced, Undisturbed, Blamed, Script.Expanded, Script.Compensated;
      hide Landed, Outcome, SuccessMove, FailureMove, ApprovalMove;
      SetPhase(PlanReview);
      ghost var d0 := dep;
      var ok, g, _ := ExecuteActivity(Validate);
      ValidateLeads(d0, dep, ok, g);
      if !ok {
        result := Close(Failed);
        return;
      }
      ghost var d1 := dep;
      var approved := WaitForApproval(PlanGate);
      GateLeads(d1, dep, PlanGate, approved);
      if !approved {
        result := Compensate();
        return;
      }
      result := ExpandSchema();
    }

    method ExpandSchema() returns (result: DeploymentResult)
      requires Before(Begin(Expand), [Expanding]) && !readOnlyTimedOut && !trafficSwitched
      modifies this, migrator`columns, migrator`readOnly, migrator`executedSQL
      ensures Over(result) && Heard(old(script), script) && Script.Expanded(script, |old(script)|, result.phase)
    {
      hide Exec, Smooth, Synced, Traced, Undisturbed, Blamed, Script.Verified, Script.Compensated;
      SetPhase(Expanding);
      var ok, _, _ := ExecuteActivity(Expand);
      if !ok {
        result := Compensate();
        return;
      }
      result := VerifyExpand();
    }

    method VerifyExpand() returns (result: DeploymentResult)
      requires Before(Begin(Verify), [ExpandVerify]) && !readOnlyTimedOut && !trafficSwitched
      modifies this, migrator`columns, migrator`readOnly, migrator`executedSQL
      ensures Over(result) && Heard(old(script), script) && Script.Verified(script, |old(script)|, result.phase)
    {
      hide Exec, Smooth, Synced, Traced, Undisturbed, Blamed, Landed, Outcome, SuccessMove, FailureMove, ApprovalMove;
      hide Script.Compensated, Script.Checked;
      SetPhase(ExpandVerify);
      ghost var d0 := dep;
      var ok, g, _ := ExecuteActivity(Verify);
      VerifyLeads(d0, dep, ok, g);
      if !ok {
        result := Compensate();
        return;
      }
      result := CheckExpand();
    }

    /** The rest of the phase: the check of both versions, and the gate. */
    method CheckExpand() returns (result: DeploymentResult)
      requires Before(Begin(CompatPre), []) && !readOnlyTimedOut && !trafficSwitched
      modifies this, migrator`columns, migrator`readOnly, migrator`executedSQL
      ensures Over(result) && Heard(old(script), script) && Script.Checked(script, |old(script)|, result.phase)
    {
      hide Exec, Smooth, Synced, Traced, Undisturbed, Blamed, Landed, Outcome, SuccessMove, FailureMove, ApprovalMove;
      hide Script.Compensated, Script.CutOver;
      ghost var d0 := dep;
      var compatible, g, _ := ExecuteActivity(CompatPre);
      CompatPreLeads(d0, dep, compatible, g);
      if !compatible {
        result := Compensate();
        return;
      }
      ghost var d1 := dep;
      var approved := WaitForApproval(VerifyGate);
      GateLeads(d1, dep, VerifyGate, approved);
      if !approved {
        result := Compensate();
        return;
      }
      result := CutOver();
    }

    method CutOver() returns (result: DeploymentResult)
      requires Before(Begin(Acquire), [Cutover]) && !readOnlyTimedOut && !trafficSwitched
      modifies this, migrator`columns, migrator`readOnly, migrator`executedSQL
      ensures Over(result) && Heard(old(script), script) && Script.CutOver(script, |old(script)|, result.phase)
    {
      hide Exec, Smooth, Synced, Traced, Undisturbed, Blamed, Script.Switched, Script.Compensated;
      SetPhase(Cutover);
      var ok, _, _ := ExecuteActivity(Acquire);
      if !ok {
        result := Compensate();
        return;
      }
      result := SwitchTraffic();
    }

    method SwitchTraffic() returns (result: DeploymentResult)
      requires Before(Begin(Switch), []) && !readOnlyTimedOut && !trafficSwitched
      modifies this, migrator`columns, migrator`readOnly, migrator`executedSQL
      ensures Over(result) && Heard(old(script), script) && Script.Switched(script, |old(script)|, result.phase)
    {
      hide Exec, Smooth, Synced, Traced, Undisturbed, Blamed, Landed, Outcome, SuccessMove, FailureMove, ApprovalMove;
      hide Script.Compensated, Script.WindowClosed;
      ReadOnlyTimer();
      ghost var d0 := dep;
      var ok, g, _ := ExecuteActivity(Switch);
      SwitchLeads(d0, dep, ok, g);
      if ok {
        trafficSwitched := true;
      }
      result := CloseWindow();
    }

    /** The release is always attempted; its outcome is ignored. */
    method CloseWindow() returns (result: DeploymentResult)
      requires Before(Begin(Release), [])
      modifies this, migrator`columns, migrator`readOnly, migrator`executedSQL
      ensures Over(result) && Heard(old(script), script)
      ensures Script.WindowClosed(script, |old(script)|, old(readOnlyTimedOut), old(trafficSwitched), result.phase)
    {
      hide Exec, Smooth, Synced, Traced, Undisturbed, Blamed, Landed, Outcome, SuccessMove, FailureMove, ApprovalMove;
      hide Script.Compensated, Script.Monitored;
      ghost var d0 := dep;
      var released, g, _ := ExecuteActivity(Release);
      ReleaseLeads(d0, dep, released, g);
      if readOnlyTimedOut {
        result := Compensate();
        return;
      }
      if !trafficSwitched {
        result := Compensate();
        return;
      }
      result := Monitor();
    }

    method Monitor() returns (result: DeploymentResult)
      requires Before(Gate(MonitorGate), [Monitoring])
      modifies this, migrator`columns, migrator`readOnly, migrator`executedSQL
      ensures Over(result) && Heard(old(script), script) && Script.Monitored(script, |old(script)|, result.phase)
    {
      hide Exec, Smooth, Synced, Traced, Undisturbed, Blamed, Script.Awaited, Script.Compensated;
      SetPhase(Monitoring);
      var approved := WaitForApproval(MonitorGate);
      if !approved {
        result := Compensate();
        return;
      }
      result := AwaitContract();
    }

    method AwaitContract() returns (result: DeploymentResult)
      requires Before(Begin(CompatFinal), [ContractWait])
      modifies this, migrator`columns, migrator`readOnly, migrator`executedSQL
      ensures Over(result) && Heard(old(script), script) && Script.Awaited(script, |old(script)|, result.phase)
    {
      hide Exec, Smooth, Synced, Traced, Undisturbed, Blamed, Landed, Outcome, SuccessMove, FailureMove, ApprovalMove;
      hide Script.Compensated, Script.ContractReviewed;
      SetPhase(ContractWait);
      ghost var d0 := dep;
      var ok, green, _ := ExecuteActivity(CompatFinal);
      CompatFinalLeads(d0, dep, ok, green);
      if !ok {
        result := Compensate();
        return;
      }
      if !green {
        result := Compensate();
        return;
      }
      result := ReviewContract();
    }

    /** The rest of the phase: the gate before the destructive step. */
    method ReviewContract() returns (result: DeploymentResult)
      requires Before(Gate(ContractGate), [])
      modifies this, migrator`columns, migrator`readOnly, migrator`executedSQL
      ensures Over(result) && Heard(old(script), script)
      ensures Script.ContractReviewed(script, |old(script)|, result.phase)
    {
      hide Exec, Smooth, Synced, Traced, Undisturbed, Blamed, Landed, Outcome, SuccessMove, FailureMove, ApprovalMove;
      hide Script.Compensated, Script.Contracted;
      ghost var d0 := dep;
      var approved := WaitForApproval(ContractGate);
      GateLeads(d0, dep, ContractGate, approved);
      if !approved {
        result := Compensate();
        return;
      }
      result := ContractSchema();
    }

    method ContractSchema() returns (result: DeploymentResult)
      requires Before(Begin(Contract), [Contracting])
      modifies this, migrator`columns, migrator`readOnly, migrator`executedSQL
      ensures Over(result) && Heard(old(script), script) && Script.Contracted(script, |old(script)|, result.phase)
    {
      hide Exec, Smooth, Synced, Traced, Undisturbed, Blamed, Landed, Outcome, SuccessMove, FailureMove, ApprovalMove;
      SetPhase(Contracting);
      ghost var d0 := dep;
      var ok, g1, _ := ExecuteActivity(Contract);
      ContractLeads(d0, dep, ok, g1);
      if !ok {
        result := Close(Failed);
        return;
      }
      // The outcome of the final verification is only logged.
      ghost var d1 := dep;
      var verified, g2, _ := ExecuteActivity(VerifyContract);
      VerifyContractLeads(d1, dep, verified, g2);
      result := Close(Complete);
    }
  }
}
