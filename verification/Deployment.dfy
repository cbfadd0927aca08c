/**
 BlueGreenDeploymentWorkflow as a state machine, one step per statement, query, attempt outcome,
 consumed signal or timer. (internal/bluegreen/workflow.go, activities.go, domain.go)
 */
module Deployment {
  import opened Wrappers
  import opened Schema

  datatype Phase =
    | Pending | PlanReview | Expanding | ExpandVerify | Cutover | Monitoring
    | ContractWait | Contracting | Complete | RolledBack | Failed

  datatype VerifyQuery = VerifyQuery(query: Query, wantCount: int)

  datatype Plan = Plan(
    id: string,
    expandSQL: seq<Statement>,
    contractSQL: seq<Statement>,
    rollbackSQL: seq<Statement>,
    verifyQueries: seq<VerifyQuery>)

  /** The query sets of the running (blue) and the new (green) application version. */
  datatype App = App(blue: seq<Query>, green: seq<Query>)

  /** What the deployments of one database share. */
  datatype Database = Database(columns: Columns, readOnly: bool)

  /** The activities, in program order; compensation has its own release. */
  datatype Activity =
    | Validate | Expand | Verify | CompatPre | Acquire | Switch | Release
    | CompatFinal | Contract | VerifyContract | CompRelease | Rollback

  datatype GateName = PlanGate | VerifyGate | MonitorGate | ContractGate

  /** Where the workflow stands. `Run` is an activity attempt that has done `pos` units of work. */
  datatype Pc =
    | Run(act: Activity, attempt: nat, pos: nat, blueOk: bool, greenOk: bool)
    | Gate(gate: GateName)
    | Notify(final: Phase)
    | Returning(final: Phase)   // the completion has been sent, the workflow has not returned yet
    | Closed(final: Phase)

  /** The parent has been told, or there is none; only returning is left to do. */
  predicate Reported(pc: Pc) { pc.Returning? || pc.Closed? }

  /** The final phase has been entered. */
  predicate Ending(pc: Pc) { pc.Notify? || Reported(pc) }

  /** The effect log: everything observable a run does, in order. */
  datatype Effect =
    | AttemptStarted(act: Activity)
    | Executed(act: Activity, pos: nat)
    | Counted(pos: nat, count: int)
    | Succeeded(act: Activity)
    | AttemptFailed(act: Activity)
    | GreenPassed            // the final check succeeded and green passed
    | Approved(gate: GateName)
    | RollbackTaken(gate: GateName)
    | ReadOnlyTimedOut
    | Entered(phase: Phase)
    | Notified(phase: Phase)

  datatype Dep = Dep(
    plan: Plan,
    hasParent: bool,
    pc: Pc,
    phase: Phase,
    history: seq<Phase>,
    approvals: nat,          // queued approve signals
    rollbacks: nat,          // queued rollback signals
    rollbackRequested: bool,
    readOnlyTimedOut: bool,
    trafficSwitched: bool,
    log: seq<Effect>)

  datatype Event =
    | Advance(count: int)    // one statement or query; `count` is what a verify query returns
    | Interrupt              // the attempt fails here, whatever it has already done
    | Finish                 // the attempt reports its outcome
    | TakeApproval | TakeRollback
    | TimerFires             // the read-only timer
    | SendNotify
    | Return                 // the reply to the completion signal arrives and the workflow returns
    | SignalApprove | SignalRollback  // from outside

  predicate Internal(ev: Event) { !ev.SignalApprove? && !ev.SignalRollback? && !ev.TimerFires? }

  predicate ValidPlan(p: Plan) {
    && p.id != ""
    && |p.expandSQL| != 0 && |p.contractSQL| != 0 && |p.rollbackSQL| != 0
    && forall i | 0 <= i < |p.verifyQueries| :: p.verifyQueries[i].query.text != ""
  }

  function MaxAttempts(act: Activity): nat {
    match act
    case Expand | Contract | Rollback | CompRelease => 2
    case _ => 3
  }

  function SqlOf(act: Activity, plan: Plan): seq<Statement> {
    match act
    case Expand => plan.expandSQL
    case Contract => plan.contractSQL
    case Rollback => plan.rollbackSQL
    case _ => []
  }

  predicate IsSql(act: Activity) { act.Expand? || act.Contract? || act.Rollback? }
  predicate IsCompat(act: Activity) { act.CompatPre? || act.CompatFinal? || act.VerifyContract? }

  /** Units of work in one attempt. */
  function Len(act: Activity, plan: Plan, app: App): nat {
    match act
    case Expand | Contract | Rollback => |SqlOf(act, plan)|
    case Verify => |plan.verifyQueries|
    case CompatPre | CompatFinal | VerifyContract => |app.blue| + |app.green|
    case Acquire | Release | CompRelease => 1
    case Validate | Switch => 0
  }

  // ---- moves: what the workflow code does between two activities or waits ----

  /** `what` happened; a phase may be entered because of it; then the workflow stands at `next`. */
  datatype Move = Move(what: Effect, enter: Option<Phase>, next: Pc)

  function Begin(act: Activity): Pc { Run(act, 0, 0, true, true) }

  function Proceed(what: Effect, act: Activity): Move { Move(what, None, Begin(act)) }

  function EnterAndRun(what: Effect, p: Phase, act: Activity): Move { Move(what, Some(p), Begin(act)) }

  function Park(what: Effect, g: GateName): Move { Move(what, None, Gate(g)) }

  function Conclude(what: Effect, p: Phase): Move { Move(what, Some(p), Notify(p)) }

  function Compensate(what: Effect): Move { Proceed(what, CompRelease) }

  /** After the read-only window has been closed. */
  function AfterWindow(what: Effect, timedOut: bool, switched: bool): Move {
    if timedOut || !switched then Compensate(what) else Move(what, Some(Monitoring), Gate(MonitorGate))
  }

  /** The activity returned without error. */
  function SuccessMove(pc: Pc, timedOut: bool, switched: bool): Move
    requires pc.Run?
  {
    var what := Succeeded(pc.act);
    match pc.act
    case Validate => Park(what, PlanGate)
    case Expand => EnterAndRun(what, ExpandVerify, Verify)
    case Verify => Proceed(what, CompatPre)
    case CompatPre => Park(what, VerifyGate)
    case Acquire => Proceed(what, Switch)
    case Switch => Proceed(what, Release)
    case Release => AfterWindow(what, timedOut, switched)
    case CompatFinal => if pc.greenOk then Park(GreenPassed, ContractGate) else Compensate(what)
    case Contract => Proceed(what, VerifyContract)
    case VerifyContract => Conclude(what, Complete)
    case CompRelease => Proceed(what, Rollback)
    case Rollback => Conclude(what, RolledBack)
  }

  /** An attempt failed: retry, or go on without the activity's result if it was the last attempt. */
  function FailureMove(pc: Pc, timedOut: bool, switched: bool): Move
    requires pc.Run?
  {
    var what := AttemptFailed(pc.act);
    if pc.attempt + 1 < MaxAttempts(pc.act) then Move(what, None, Run(pc.act, pc.attempt + 1, 0, true, true)) else
    match pc.act
    case Validate | Contract => Conclude(what, Failed)
    case Expand | Verify | CompatPre | Acquire | CompatFinal => Compensate(what)
    case Switch => Proceed(what, Release)
    case Release => AfterWindow(what, timedOut, switched)
    case VerifyContract => Conclude(what, Complete)
    case CompRelease => Proceed(what, Rollback)
    case Rollback => Conclude(what, RolledBack)
  }

  /** A gate received an approval. */
  function ApprovalMove(g: GateName, rollbackRequested: bool): Move {
    var what := Approved(g);
    if rollbackRequested then Compensate(what) else
    match g
    case PlanGate => EnterAndRun(what, Expanding, Expand)
    case VerifyGate => EnterAndRun(what, Cutover, Acquire)
    case MonitorGate => EnterAndRun(what, ContractWait, CompatFinal)
    case ContractGate => EnterAndRun(what, Contracting, Contract)
  }

  function RollbackMove(g: GateName): Move { Compensate(RollbackTaken(g)) }

  function EnteredLog(log: seq<Effect>, enter: Option<Phase>): seq<Effect> {
    match enter
    case None => log
    case Some(p) => log + [Entered(p)]
  }

  function StartedLog(log: seq<Effect>, next: Pc): seq<Effect> {
    if next.Run? then log + [AttemptStarted(next.act)] else log
  }

  /** The log after a move: the outcome, the phase entered, the attempt started. */
  function LogAfter(log: seq<Effect>, m: Move): seq<Effect> {
    StartedLog(EnteredLog(log + [m.what], m.enter), m.next)
  }

  function Apply(d: Dep, m: Move): Dep {
    d.(pc := m.next,
       phase := if m.enter.Some? then m.enter.value else d.phase,
       history := if m.enter.Some? then d.history + [m.enter.value] else d.history,
       rollbackRequested := d.rollbackRequested || m.what.RollbackTaken?,
       trafficSwitched := d.trafficSwitched || m.what == Succeeded(Switch),
       log := LogAfter(d.log, m))
  }

  function Start(plan: Plan, hasParent: bool): Dep {
    Dep(plan, hasParent, Begin(Validate), PlanReview, [PlanReview], 0, 0, false, false, false,
        [Entered(PlanReview), AttemptStarted(Validate)])
  }

  // ---- one unit of work ----

  /** The query an app-compatibility check looks at in position `pos`: all of blue, then all of green. */
  function CompatQuery(app: App, pos: nat): Query
    requires pos < |app.blue| + |app.green|
  {
    if pos < |app.blue| then app.blue[pos] else app.green[pos - |app.blue|]
  }

  predicate VerifyHolds(plan: Plan, db: Database, pos: nat, count: int)
    requires pos < |plan.verifyQueries|
  {
    ValidQuery(db.columns, plan.verifyQueries[pos].query) && count == plan.verifyQueries[pos].wantCount
  }

  /** The database after one unit of work; None if that unit is in error. */
  function WorkDb(d: Dep, app: App, db: Database, count: int): Option<Database>
    requires d.pc.Run? && d.pc.pos < Len(d.pc.act, d.plan, app)
  {
    var act := d.pc.act;
    if IsSql(act) then
      match ApplyDdl(db.columns, SqlOf(act, d.plan)[d.pc.pos])
      case None => None
      case Some(c) => Some(db.(columns := c))
    else if act.Acquire? then Some(db.(readOnly := true))
    else if act.Release? || act.CompRelease? then Some(db.(readOnly := false))
    else if act.Verify? && !VerifyHolds(d.plan, db, d.pc.pos, count) then None
    else Some(db)
  }

  /** The program counter after one unit of work that was not in error. */
  function WorkPc(d: Dep, app: App, db: Database): Pc
    requires d.pc.Run? && d.pc.pos < Len(d.pc.act, d.plan, app)
  {
    var pc := d.pc;
    if !IsCompat(pc.act) then pc.(pos := pc.pos + 1)
    else
      var ok := ValidQuery(db.columns, CompatQuery(app, pc.pos));
      if pc.pos < |app.blue| then pc.(pos := pc.pos + 1, blueOk := pc.blueOk && ok)
      else pc.(pos := pc.pos + 1, greenOk := pc.greenOk && ok)
  }

  function WorkLog(d: Dep, count: int): Effect
    requires d.pc.Run?
  {
    if d.pc.act.Verify? then Counted(d.pc.pos, count) else Executed(d.pc.act, d.pc.pos)
  }

  /** Whether an attempt that has done all its work reports success. */
  predicate Reports(d: Dep)
    requires d.pc.Run?
  {
    match d.pc.act
    case Validate => ValidPlan(d.plan)
    case CompatPre => d.pc.blueOk
    case _ => true
  }

  // ---- the machine ----

  predicate Enabled(d: Dep, app: App, ev: Event) {
    match ev
    case Advance(_) => d.pc.Run? && d.pc.pos < Len(d.pc.act, d.plan, app)
    case Interrupt => d.pc.Run?
    case Finish => d.pc.Run? && d.pc.pos == Len(d.pc.act, d.plan, app)
    case TakeApproval => d.pc.Gate? && d.approvals > 0
    case TakeRollback => d.pc.Gate? && d.rollbacks > 0
    case TimerFires => d.pc.Run? && d.pc.act.Switch? && !d.readOnlyTimedOut
    case SendNotify => d.pc.Notify?
    case Return => d.pc.Returning?
    case SignalApprove => !d.pc.Closed?
    case SignalRollback => !d.pc.Closed?
  }

  /** The move an event makes, for the events that make one. */
  function MoveOf(d: Dep, app: App, db: Database, ev: Event): Option<Move>
    requires Enabled(d, app, ev)
  {
    match ev
    case Advance(count) =>
      if WorkDb(d, app, db, count).None? then Some(FailureMove(d.pc, d.readOnlyTimedOut, d.trafficSwitched)) else None
    case Interrupt => Some(FailureMove(d.pc, d.readOnlyTimedOut, d.trafficSwitched))
    case Finish =>
      Some(if Reports(d) then SuccessMove(d.pc, d.readOnlyTimedOut, d.trafficSwitched)
           else FailureMove(d.pc, d.readOnlyTimedOut, d.trafficSwitched))
    case TakeApproval => Some(ApprovalMove(d.pc.gate, d.rollbackRequested))
    case TakeRollback => Some(RollbackMove(d.pc.gate))
    case _ => None
  }

  /** The signal queues after an event. */
  function Queues(d: Dep, ev: Event): (nat, nat) {
    match ev
    case TakeApproval => (if d.approvals > 0 then d.approvals - 1 else 0, d.rollbacks)
    case TakeRollback => (d.approvals, if d.rollbacks > 0 then d.rollbacks - 1 else 0)
    case SignalApprove => (d.approvals + 1, d.rollbacks)
    case SignalRollback => (d.approvals, d.rollbacks + 1)
    case _ => (d.approvals, d.rollbacks)
  }

  /** What the other events do besides the queues. */
  function Quiet(d: Dep, app: App, db: Database, ev: Event): Dep
    requires Enabled(d, app, ev)
  {
    match ev
    case Advance(count) => d.(pc := WorkPc(d, app, db), log := d.log + [WorkLog(d, count)])
    case TimerFires => d.(readOnlyTimedOut := true, log := d.log + [ReadOnlyTimedOut])
    case SendNotify =>
      d.(pc := Returning(d.pc.final), log := if d.hasParent then d.log + [Notified(d.pc.final)] else d.log)
    case Return => d.(pc := Closed(d.pc.final))
    case _ => d
  }

  function StepDep(d: Dep, app: App, db: Database, ev: Event): Dep
    requires Enabled(d, app, ev)
  {
    var m := MoveOf(d, app, db, ev);
    var d' := if m.Some? then Apply(d, m.value) else Quiet(d, app, db, ev);
    d'.(approvals := Queues(d, ev).0, rollbacks := Queues(d, ev).1)
  }

  function StepDb(d: Dep, app: App, db: Database, ev: Event): Database
    requires Enabled(d, app, ev)
  {
    if ev.Advance? && WorkDb(d, app, db, ev.count).Some? then WorkDb(d, app, db, ev.count).value else db
  }

  /** A whole run of one deployment: the states after a sequence of events, None if one is not possible. */
  function Exec(d: Dep, app: App, db: Database, evs: seq<Event>): Option<(Dep, Database)> {
    if evs == [] then Some((d, db))
    else
      match Exec(d, app, db, evs[..|evs| - 1])
      case None => None
      case Some((d', db')) =>
        if Enabled(d', app, evs[|evs| - 1]) then
          var ev := evs[|evs| - 1];
          Some((StepDep(d', app, db', ev), StepDb(d', app, db', ev)))
        else None
  }
}
