/**
 A deployment can wait only at a gate: a bound on the steps it can take by itself, computed from its plan.
 */
module DeploymentWork {
  import opened Wrappers
  import opened Deployment

  /** Program order; compensation comes after everything it can be entered from. */
  function Rank(pc: Pc): nat {
    match pc
    case Run(act, _, _, _, _) => ActRank(act)
    case Gate(g) =>
      (match g
       case PlanGate => 1
       case VerifyGate => 5
       case MonitorGate => 9
       case ContractGate => 11)
    case Notify(_) => 16
    case Returning(_) => 17
    case Closed(_) => 18
  }

  function ActRank(act: Activity): nat {
    match act
    case Validate => 0
    case Expand => 2
    case Verify => 3
    case CompatPre => 4
    case Acquire => 6
    case Switch => 7
    case Release => 8
    case CompatFinal => 10
    case Contract => 12
    case VerifyContract => 13
    case CompRelease => 14
    case Rollback => 15
  }

  function ActAt(r: nat): Option<Activity> {
    if r == 0 then Some(Validate) else if r == 2 then Some(Expand) else if r == 3 then Some(Verify)
    else if r == 4 then Some(CompatPre) else if r == 6 then Some(Acquire) else if r == 7 then Some(Switch)
    else if r == 8 then Some(Release) else if r == 10 then Some(CompatFinal) else if r == 12 then Some(Contract)
    else if r == 13 then Some(VerifyContract) else if r == 14 then Some(CompRelease)
    else if r == 15 then Some(Rollback) else None
  }

  /** n attempts of k steps each; no activity has more than three. */
  function Times(n: nat, k: nat): nat
    requires n <= 3
  {
    if n == 0 then 0 else if n == 1 then k else if n == 2 then k + k else k + k + k
  }

  /** The most steps that can be spent at one place. */
  function Cost(r: nat, plan: Plan, app: App): nat {
    match ActAt(r)
    case Some(act) => Times(MaxAttempts(act), Len(act, plan, app) + 1)
    case None => if r >= 18 then 0 else if r == 16 then 2 else 1
  }

  function BudgetFrom(r: nat, plan: Plan, app: App): nat
    decreases 19 - r
  {
    if r >= 19 then 0 else Cost(r, plan, app) + BudgetFrom(r + 1, plan, app)
  }

  predicate PcFits(d: Dep, app: App) {
    d.pc.Run? ==> d.pc.pos <= Len(d.pc.act, d.plan, app) && d.pc.attempt < MaxAttempts(d.pc.act)
  }

  /** What is left to spend at the current place. */
  function Left(pc: Pc, plan: Plan, app: App): int {
    match pc
    case Run(act, attempt, pos, _, _) =>
      if attempt < MaxAttempts(act) then Times(MaxAttempts(act) - attempt, Len(act, plan, app) + 1) - pos else 0
    case _ => Cost(Rank(pc), plan, app)
  }

  /** The most steps the deployment can still take without a signal. */
  function Work(d: Dep, app: App): int { WorkAt(d.pc, d.plan, app) }

  function WorkAt(pc: Pc, plan: Plan, app: App): int { Left(pc, plan, app) + BudgetFrom(Rank(pc) + 1, plan, app) }

  lemma {:induction false} LaterIsCheaper(r: nat, q: nat, plan: Plan, app: App)
    requires r <= q
    ensures BudgetFrom(r, plan, app) >= BudgetFrom(q, plan, app)
    decreases q - r
  {
    if r < q {
      LaterIsCheaper(r + 1, q, plan, app);
    }
  }

  predicate ForwardMove(pc: Pc, m: Move) {
    && (pc.Run? || pc.Gate?)
    && (|| (Rank(m.next) > Rank(pc) && !Reported(m.next) && (m.next.Run? ==> m.next.attempt == 0 && m.next.pos == 0))
        || (pc.Run? && m.next.Run? && m.next.act == pc.act && m.next.attempt == pc.attempt + 1 < MaxAttempts(pc.act)
            && m.next.pos == 0))
  }

  lemma SuccessGoesForward(pc: Pc, timedOut: bool, switched: bool)
    requires pc.Run?
    ensures ForwardMove(pc, SuccessMove(pc, timedOut, switched))
  {
  }

  lemma FailureGoesForward(pc: Pc, timedOut: bool, switched: bool)
    requires pc.Run?
    ensures ForwardMove(pc, FailureMove(pc, timedOut, switched))
  {
  }

  lemma GateGoesForward(g: GateName, rollbackRequested: bool)
    ensures ForwardMove(Gate(g), ApprovalMove(g, rollbackRequested)) && ForwardMove(Gate(g), RollbackMove(g))
  {
  }

  lemma LeftIsPositive(pc: Pc, plan: Plan, app: App)
    requires !pc.Closed?
    requires pc.Run? ==> pc.pos <= Len(pc.act, plan, app) && pc.attempt < MaxAttempts(pc.act)
    ensures Left(pc, plan, app) >= 1
  {
  }

  lemma LeftOnEntry(pc: Pc, plan: Plan, app: App)
    requires pc.Run? ==> pc.attempt == 0 && pc.pos == 0
    ensures Left(pc, plan, app) == Cost(Rank(pc), plan, app)
  {
  }

  lemma LeftOnRetry(pc: Pc, next: Pc, plan: Plan, app: App)
    requires pc.Run? && next.Run? && next.act == pc.act && next.attempt == pc.attempt + 1 < MaxAttempts(pc.act)
    requires next.pos == 0 && pc.pos <= Len(pc.act, plan, app)
    ensures Left(next, plan, app) < Left(pc, plan, app)
  {
  }

  /** Moving on leaves less to do, and starts within bounds. */
  lemma MoveLeavesLess(pc: Pc, m: Move, plan: Plan, app: App)
    requires ForwardMove(pc, m)
    requires pc.Run? ==> pc.pos <= Len(pc.act, plan, app) && pc.attempt < MaxAttempts(pc.act)
    ensures WorkAt(m.next, plan, app) < WorkAt(pc, plan, app)
  {
    if Rank(m.next) > Rank(pc) {
      LeftOnEntry(m.next, plan, app);
      LeftIsPositive(pc, plan, app);
      RestCoversLater(Rank(pc), Rank(m.next), plan, app);
    } else {
      LeftOnRetry(pc, m.next, plan, app);
      assert Rank(m.next) == Rank(pc);
    }
  }

  lemma RestCoversLater(r: nat, q: nat, plan: Plan, app: App)
    requires r < q <= 18
    ensures Cost(q, plan, app) + BudgetFrom(q + 1, plan, app) <= BudgetFrom(r + 1, plan, app)
  {
    hide BudgetFrom, Cost;
    LaterIsCheaper(r + 1, q, plan, app);
    BudgetStep(q, plan, app);
  }

  lemma BudgetStep(r: nat, plan: Plan, app: App)
    ensures r <= 18 ==> BudgetFrom(r, plan, app) == Cost(r, plan, app) + BudgetFrom(r + 1, plan, app)
  {
  }

  lemma AdvanceLeavesLess(pc: Pc, pc': Pc, plan: Plan, app: App)
    requires pc.Run? && pc'.Run? && pc'.act == pc.act && pc'.attempt == pc.attempt < MaxAttempts(pc.act)
    requires pc'.pos == pc.pos + 1
    ensures WorkAt(pc', plan, app) == WorkAt(pc, plan, app) - 1
  {
  }

  lemma ClosingLeavesLess(final: Phase, plan: Plan, app: App)
    ensures WorkAt(Notify(final), plan, app) == 3
    ensures WorkAt(Returning(final), plan, app) == 1 && WorkAt(Closed(final), plan, app) == 0
  {
    BudgetStep(17, plan, app);
    BudgetStep(18, plan, app);
  }

  /** Every step a deployment takes by itself uses up some of the bound; nothing gives any back. */
  lemma WorkDecreases(d: Dep, app: App, db: Database, ev: Event)
    requires PcFits(d, app) && Enabled(d, app, ev)
    ensures PcFits(StepDep(d, app, db, ev), app)
    ensures Internal(ev) ==> Work(StepDep(d, app, db, ev), app) < Work(d, app)
    ensures !Internal(ev) ==> Work(StepDep(d, app, db, ev), app) == Work(d, app)
  {
    var m := MoveOf(d, app, db, ev);
    var d' := StepDep(d, app, db, ev);
    if m.Some? {
      MoveIsForward(d, app, db, ev);
      MoveLeavesLess(d.pc, m.value, d.plan, app);
      assert d'.pc == m.value.next && d'.plan == d.plan;
    } else {
      QuietWork(d, app, db, ev);
      assert d'.pc == Quiet(d, app, db, ev).pc && d'.plan == d.plan;
    }
  }

  lemma MoveIsForward(d: Dep, app: App, db: Database, ev: Event)
    requires Enabled(d, app, ev) && MoveOf(d, app, db, ev).Some?
    ensures ForwardMove(d.pc, MoveOf(d, app, db, ev).value) && Internal(ev)
  {
    if d.pc.Run? {
      SuccessGoesForward(d.pc, d.readOnlyTimedOut, d.trafficSwitched);
      FailureGoesForward(d.pc, d.readOnlyTimedOut, d.trafficSwitched);
    } else {
      GateGoesForward(d.pc.gate, d.rollbackRequested);
    }
  }

  lemma QuietWork(d: Dep, app: App, db: Database, ev: Event)
    requires PcFits(d, app) && Enabled(d, app, ev) && MoveOf(d, app, db, ev).None?
    ensures PcFits(Quiet(d, app, db, ev), app)
    ensures Internal(ev) ==> WorkAt(Quiet(d, app, db, ev).pc, d.plan, app) < WorkAt(d.pc, d.plan, app)
    ensures !Internal(ev) ==> Quiet(d, app, db, ev).pc == d.pc
  {
    match ev
    case Advance(_) =>
      var pc' := WorkPc(d, app, db);
      assert pc'.Run? && pc'.act == d.pc.act && pc'.attempt == d.pc.attempt && pc'.pos == d.pc.pos + 1;
      AdvanceLeavesLess(d.pc, pc', d.plan, app);
    case SendNotify => ClosingLeavesLess(d.pc.final, d.plan, app);
    case Return => ClosingLeavesLess(d.pc.final, d.plan, app);
    case _ =>
  }

  lemma WorkIsNatural(d: Dep, app: App)
    requires PcFits(d, app)
    ensures Work(d, app) >= 0
    ensures !d.pc.Closed? ==> Work(d, app) > 0
  {
  }

  /** A deployment waits only at a gate with nothing in its queues. */
  predicate Waiting(d: Dep) { d.pc.Gate? && d.approvals == 0 && d.rollbacks == 0 }

  /** It can always go on without losing an attempt: the next unit of work, a report, a signal, the way out. */
  lemma NeverStuck(d: Dep, app: App) returns (ev: Event)
    requires PcFits(d, app) && !d.pc.Closed? && !Waiting(d)
    ensures Internal(ev) && !ev.Interrupt? && Enabled(d, app, ev)
  {
    if d.pc.Run? {
      ev := if d.pc.pos == Len(d.pc.act, d.plan, app) then Finish else Advance(0);
    } else if d.pc.Returning? {
      ev := Return;
    } else if d.pc.Notify? {
      ev := SendNotify;
    } else {
      ev := if d.approvals > 0 then TakeApproval else TakeRollback;
    }
  }

  function InternalSteps(evs: seq<Event>): nat {
    if evs == [] then 0
    else InternalSteps(evs[..|evs| - 1]) + if Internal(evs[|evs| - 1]) then 1 else 0
  }

  /** No run of a deployment, however its attempts fail, takes more steps by itself than its plan allows. */
  lemma {:induction false} RunsAreBounded(d: Dep, app: App, db: Database, evs: seq<Event>, d': Dep, db': Database)
    requires PcFits(d, app) && Exec(d, app, db, evs) == Some((d', db'))
    ensures PcFits(d', app) && InternalSteps(evs) + Work(d', app) <= Work(d, app) && Work(d', app) >= 0
  {
    if evs != [] {
      var mid := Exec(d, app, db, evs[..|evs| - 1]).value;
      RunsAreBounded(d, app, db, evs[..|evs| - 1], mid.0, mid.1);
      WorkDecreases(mid.0, app, mid.1, evs[|evs| - 1]);
    }
    WorkIsNatural(d', app);
  }

  // ---- attempts, in numbers ----

  function Attempts(log: seq<Effect>, act: Activity): nat {
    if log == [] then 0 else Attempts(log[..|log| - 1], act) + if log[|log| - 1] == AttemptStarted(act) then 1 else 0
  }

  lemma AttemptsSnoc(log: seq<Effect>, e: Effect, act: Activity)
    ensures Attempts(log + [e], act) == Attempts(log, act) + if e == AttemptStarted(act) then 1 else 0
  {
    assert (log + [e])[..|log|] == log;
  }

  lemma AttemptsAfterMove(log: seq<Effect>, m: Move, act: Activity)
    requires !m.what.AttemptStarted?
    ensures Attempts(LogAfter(log, m), act) == Attempts(log, act) + if m.next.Run? && m.next.act == act then 1 else 0
  {
    hide Attempts;
    var l := log + [m.what];
    AttemptsSnoc(log, m.what, act);
    if m.enter.Some? {
      AttemptsSnoc(l, Entered(m.enter.value), act);
    }
    if m.next.Run? {
      AttemptsSnoc(EnteredLog(l, m.enter), AttemptStarted(m.next.act), act);
    }
  }

  /** Statements that change the schema, and all of compensation, get two attempts; everything else three. */
  predicate TwoAttempts(act: Activity) { act.Expand? || act.Contract? || act.Rollback? || act.CompRelease? }

  predicate SucceededIn(log: seq<Effect>, act: Activity) {
    Succeeded(act) in log || (act.CompatFinal? && GreenPassed in log)
  }

  /** An activity is attempted within its policy, and given up only when that is exhausted. */
  predicate AttemptsFit(pc: Pc, log: seq<Effect>, act: Activity) {
    && Attempts(log, act) <= (if TwoAttempts(act) then 2 else 3)
    && (ActRank(act) > Rank(pc) ==> Attempts(log, act) == 0)
    && (pc.Run? && pc.act == act ==> Attempts(log, act) == pc.attempt + 1)
    && (ActRank(act) < Rank(pc) && Attempts(log, act) > 0 && !SucceededIn(log, act) ==>
          Attempts(log, act) == if TwoAttempts(act) then 2 else 3)
  }

  lemma RanksDiffer(a: Activity, b: Activity)
    requires ActRank(a) == ActRank(b)
    ensures a == b
  {
  }

  lemma GatesHaveTheirOwnRank(pc: Pc, act: Activity)
    requires Rank(pc) == ActRank(act)
    ensures pc.Run? && pc.act == act
  {
  }

  lemma {:induction false} LogAfterGrows(log: seq<Effect>, m: Move)
    ensures m.what in LogAfter(log, m) && forall e :: e in log ==> e in LogAfter(log, m)
  {
  }

  lemma AttemptsKeptByMove(d: Dep, m: Move, act: Activity)
    requires AttemptsFit(d.pc, d.log, act) && ForwardMove(d.pc, m) && !m.what.AttemptStarted?
    requires d.pc.Run? ==> d.pc.attempt < MaxAttempts(d.pc.act)
    requires d.pc.Run? && Rank(m.next) > Rank(d.pc) && d.pc.attempt + 1 < MaxAttempts(d.pc.act) ==>
               m.what == Succeeded(d.pc.act) || (d.pc.act.CompatFinal? && m.what == GreenPassed)
    ensures AttemptsFit(m.next, LogAfter(d.log, m), act)
  {
    AttemptsAfterMove(d.log, m, act);
    LogAfterGrows(d.log, m);
    if ActRank(act) == Rank(d.pc) {
      GatesHaveTheirOwnRank(d.pc, act);
    }
    if ActRank(act) == Rank(m.next) {
      GatesHaveTheirOwnRank(m.next, act);
    }
    hide Attempts, LogAfter, ActRank;
  }

  lemma OutcomeOfMove(d: Dep, app: App, db: Database, ev: Event)
    requires Enabled(d, app, ev) && MoveOf(d, app, db, ev).Some?
    ensures var m := MoveOf(d, app, db, ev).value;
            && !m.what.AttemptStarted?
            && (d.pc.Run? && Rank(m.next) > Rank(d.pc) && d.pc.attempt + 1 < MaxAttempts(d.pc.act) ==>
                  m.what == Succeeded(d.pc.act) || (d.pc.act.CompatFinal? && m.what == GreenPassed))
  {
  }

  lemma AttemptsKeptByQuiet(d: Dep, app: App, db: Database, ev: Event, act: Activity)
    requires AttemptsFit(d.pc, d.log, act) && Enabled(d, app, ev) && MoveOf(d, app, db, ev).None?
    ensures AttemptsFit(Quiet(d, app, db, ev).pc, Quiet(d, app, db, ev).log, act)
  {
    hide Attempts;
    match ev
    case Advance(count) =>
      AttemptsSnoc(d.log, WorkLog(d, count), act);
      assert WorkPc(d, app, db) == d.pc.(pos := WorkPc(d, app, db).pos, blueOk := WorkPc(d, app, db).blueOk,
                                        greenOk := WorkPc(d, app, db).greenOk);
    case TimerFires => AttemptsSnoc(d.log, ReadOnlyTimedOut, act);
    case SendNotify => AttemptsSnoc(d.log, Notified(d.pc.final), act);
    case _ =>
  }

  lemma AttemptsKept(d: Dep, app: App, db: Database, ev: Event, act: Activity)
    requires AttemptsFit(d.pc, d.log, act) && PcFits(d, app) && Enabled(d, app, ev)
    ensures AttemptsFit(StepDep(d, app, db, ev).pc, StepDep(d, app, db, ev).log, act)
  {
    var m := MoveOf(d, app, db, ev);
    if m.Some? {
      MoveIsForward(d, app, db, ev);
      OutcomeOfMove(d, app, db, ev);
      AttemptsKeptByMove(d, m.value, act);
      hide AttemptsFit, LogAfter;
    } else {
      AttemptsKeptByQuiet(d, app, db, ev, act);
      hide AttemptsFit;
    }
  }

  lemma FirstAttemptCounts(plan: Plan, hasParent: bool, act: Activity)
    ensures AttemptsFit(Begin(Validate), Start(plan, hasParent).log, act)
  {
    var l := [Entered(PlanReview)];
    assert Start(plan, hasParent).log == l + [AttemptStarted(Validate)] && [] + l == l;
    AttemptsSnoc([], l[0], act);
    AttemptsSnoc(l, AttemptStarted(Validate), act);
  }

  /**
   In every run: expand, contract, rollback and the release before it are attempted at most twice, everything else at
   most three times; and what was attempted and is over without success was attempted exactly that often.
   */
  lemma {:induction false} AttemptsAreLimited(plan: Plan, hasParent: bool, app: App, db: Database, evs: seq<Event>,
      d: Dep, db': Database, act: Activity)
    requires Exec(Start(plan, hasParent), app, db, evs) == Some((d, db'))
    ensures AttemptsFit(d.pc, d.log, act) && PcFits(d, app)
  {
    if evs == [] {
      FirstAttemptCounts(plan, hasParent, act);
    } else {
      var mid, ev := Exec(Start(plan, hasParent), app, db, evs[..|evs| - 1]).value, evs[|evs| - 1];
      AttemptsAreLimited(plan, hasParent, app, db, evs[..|evs| - 1], mid.0, mid.1, act);
      AttemptsKept(mid.0, app, mid.1, ev, act);
      WorkDecreases(mid.0, app, mid.1, ev);
      hide AttemptsFit, StepDep, StepDb, Enabled, PcFits;
    }
  }
}
