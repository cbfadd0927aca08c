/**
 What a deployment step does to the shared database: compatibility checks that stay true, exact
 restoration by rollback, the running application's columns, the read-only flag. Every lemma is about
 one step of one deployment that nobody else disturbs; module Protocol shows that nobody does.
 */
module DeploymentData {
  import opened Wrappers
  import opened Schema
  import opened Deployment
  import opened DeploymentFacts
  import opened DeploymentLog

  // ---- compatibility checks ----

  /** Some contract statement of this run has taken effect. */
  predicate ContractRan(log: seq<Effect>) { exists i :: 0 <= i < |log| && log[i].Executed? && log[i].act.Contract? }

  lemma RanSnoc(log: seq<Effect>, e: Effect)
    ensures ContractRan(log + [e]) <==> ContractRan(log) || (e.Executed? && e.act.Contract?)
  {
    var l := log + [e];
    assert l[|log|] == e;
    if ContractRan(log) {
      var i :| 0 <= i < |log| && log[i].Executed? && log[i].act.Contract?;
      assert l[i] == log[i];
    }
  }

  lemma RanAfterMove(log: seq<Effect>, m: Move)
    requires !m.what.Executed?
    ensures ContractRan(LogAfter(log, m)) <==> ContractRan(log)
  {
    hide ContractRan;
    var l := log + [m.what];
    RanSnoc(log, m.what);
    if m.enter.Some? {
      RanSnoc(l, Entered(m.enter.value));
    }
    if m.next.Run? {
      RanSnoc(EnteredLog(l, m.enter), AttemptStarted(m.next.act));
    }
  }

  /** Blue has been checked after the expand and no schema statement has taken effect since. */
  predicate BlueHeld(pc: Pc, ran: bool) {
    match pc
    case Gate(g) => !g.PlanGate?
    case Run(act, _, _, _, _) =>
      act.Acquire? || act.Switch? || act.Release? || act.CompatFinal? || (act.Contract? && !ran)
    case _ => false
  }

  /** Green has been checked before the contract and no contract statement, in any attempt, has taken effect since. */
  predicate GreenHeld(pc: Pc, ran: bool) { pc == Gate(ContractGate) || (pc.Run? && pc.act.Contract? && !ran) }

  function Min(a: int, b: int): int { if a < b then a else b }

  predicate BlueSoFar(app: App, cols: Columns, n: nat) {
    forall i :: 0 <= i < Min(n, |app.blue|) ==> ValidQuery(cols, app.blue[i])
  }

  predicate GreenSoFar(app: App, cols: Columns, n: nat) {
    forall i :: 0 <= i < Min(n - |app.blue|, |app.green|) ==> ValidQuery(cols, app.green[i])
  }

  /** A running check knows exactly what it has looked at. */
  predicate CheckExact(pc: Pc, app: App, cols: Columns) {
    pc.Run? && IsCompat(pc.act) ==>
      && pc.pos <= |app.blue| + |app.green|
      && pc.blueOk == BlueSoFar(app, cols, pc.pos) && pc.greenOk == GreenSoFar(app, cols, pc.pos)
  }

  predicate ChecksHold(pc: Pc, ran: bool, app: App, cols: Columns) {
    && CheckExact(pc, app, cols)
    && (BlueHeld(pc, ran) ==> AllValid(cols, app.blue))
    && (GreenHeld(pc, ran) ==> AllValid(cols, app.green))
  }

  predicate ChecksOk(d: Dep, app: App, cols: Columns) { ChecksHold(d.pc, ContractRan(d.log), app, cols) }

  lemma CheckedQueryCounts(pc: Pc, d: Dep, app: App, db: Database)
    requires pc == d.pc && pc.Run? && IsCompat(pc.act) && pc.pos < |app.blue| + |app.green|
    requires CheckExact(pc, app, db.columns)
    ensures CheckExact(WorkPc(d, app, db), app, db.columns)
  {
  }

  predicate CheckMove(pc: Pc, ran: bool, m: Move) {
    && !m.what.Executed?
    && (m.next.Run? ==> m.next.pos == 0 && m.next.blueOk && m.next.greenOk)
    && (BlueHeld(m.next, ran) ==>
          BlueHeld(pc, ran) || (pc.Run? && pc.act.CompatPre? && pc.blueOk && m.what == Succeeded(CompatPre)))
    && (GreenHeld(m.next, ran) ==>
          GreenHeld(pc, ran) || (pc.Run? && pc.act.CompatFinal? && pc.greenOk && m.what == GreenPassed))
  }

  lemma MovesKeepChecks(d: Dep, app: App, db: Database, ev: Event, ran: bool)
    requires Enabled(d, app, ev) && MoveOf(d, app, db, ev).Some?
    ensures CheckMove(d.pc, ran, MoveOf(d, app, db, ev).value)
  {
    MoveIsOneOf(d, app, db, ev);
    if d.pc.Run? {
      if ev.Finish? && Reports(d) {
        SuccessKeepsChecks(d.pc, ran, d.readOnlyTimedOut, d.trafficSwitched);
      }
      FailureKeepsChecks(d.pc, ran, d.readOnlyTimedOut, d.trafficSwitched);
    } else {
      GateKeepsChecks(d.pc.gate, ran, d.rollbackRequested);
    }
  }

  lemma SuccessKeepsChecks(pc: Pc, ran: bool, timedOut: bool, switched: bool)
    requires pc.Run? && (pc.act.CompatPre? ==> pc.blueOk)
    ensures CheckMove(pc, ran, SuccessMove(pc, timedOut, switched))
  {
  }

  lemma FailureKeepsChecks(pc: Pc, ran: bool, timedOut: bool, switched: bool)
    requires pc.Run?
    ensures CheckMove(pc, ran, FailureMove(pc, timedOut, switched))
  {
  }

  lemma GateKeepsChecks(g: GateName, ran: bool, rollbackRequested: bool)
    ensures CheckMove(Gate(g), ran, ApprovalMove(g, rollbackRequested))
    ensures CheckMove(Gate(g), ran, RollbackMove(g))
  {
  }

  /** Only the three SQL activities change columns. */
  lemma ColumnsChangeOnlyBySql(d: Dep, app: App, db: Database, ev: Event)
    requires Enabled(d, app, ev)
    ensures StepDb(d, app, db, ev).columns != db.columns ==> ev.Advance? && d.pc.Run? && IsSql(d.pc.act)
  {
  }

  /** A check that is complete settles what it checked. */
  lemma FinishedCheck(d: Dep, app: App, db: Database)
    requires d.pc.Run? && IsCompat(d.pc.act) && d.pc.pos == Len(d.pc.act, d.plan, app)
    requires CheckExact(d.pc, app, db.columns)
    ensures d.pc.blueOk == AllValid(db.columns, app.blue) && d.pc.greenOk == AllValid(db.columns, app.green)
  {
  }

  /** The contract gate is reached exactly when green passes. */
  lemma GreenOpensTheGate(d: Dep, app: App, db: Database)
    requires d.pc.Run? && d.pc.act.CompatFinal? && d.pc.pos == Len(d.pc.act, d.plan, app)
    requires CheckExact(d.pc, app, db.columns)
    ensures StepDep(d, app, db, Finish).pc ==
            if AllValid(db.columns, app.green) then Gate(ContractGate) else Begin(CompRelease)
  {
  }

  /**
   The verify gate is reached exactly when blue passes, whatever green does; otherwise the check is retried, and
   compensated when it was the last attempt.
   */
  lemma BlueOpensTheGate(d: Dep, app: App, db: Database)
    requires d.pc.Run? && d.pc.act.CompatPre? && d.pc.pos == Len(d.pc.act, d.plan, app)
    requires CheckExact(d.pc, app, db.columns)
    ensures StepDep(d, app, db, Finish).pc ==
            if AllValid(db.columns, app.blue) then Gate(VerifyGate)
            else if d.pc.attempt + 1 < MaxAttempts(CompatPre) then Run(CompatPre, d.pc.attempt + 1, 0, true, true)
            else Begin(CompRelease)
  {
    FinishedCheck(d, app, db);
  }

  lemma ChecksKeptByMove(d: Dep, app: App, db: Database, ev: Event, ran: bool)
    requires ChecksHold(d.pc, ran, app, db.columns) && Enabled(d, app, ev) && MoveOf(d, app, db, ev).Some?
    ensures ChecksHold(MoveOf(d, app, db, ev).value.next, ran, app, db.columns)
  {
    MovesKeepChecks(d, app, db, ev, ran);
    if d.pc.Run? && IsCompat(d.pc.act) && ev.Finish? {
      FinishedCheck(d, app, db);
    } else {
      MoveIsOneOf(d, app, db, ev);
      UnfinishedMovesPassNothing(d, app, db, ev);
    }
  }

  lemma UnfinishedMovesPassNothing(d: Dep, app: App, db: Database, ev: Event)
    requires Enabled(d, app, ev) && MoveOf(d, app, db, ev).Some?
    requires !(d.pc.Run? && IsCompat(d.pc.act) && ev.Finish?)
    ensures var m := MoveOf(d, app, db, ev).value; m.what != GreenPassed && m.what != Succeeded(CompatPre)
  {
  }

  lemma WorkKeepsChecks(d: Dep, app: App, db: Database, count: int, ran: bool)
    requires ChecksHold(d.pc, ran, app, db.columns) && Enabled(d, app, Advance(count))
    requires WorkDb(d, app, db, count).Some?
    ensures ChecksHold(WorkPc(d, app, db), ran || d.pc.act.Contract?, app, WorkDb(d, app, db, count).value.columns)
  {
    ColumnsChangeOnlyBySql(d, app, db, Advance(count));
    if IsCompat(d.pc.act) {
      CheckedQueryCounts(d.pc, d, app, db);
    } else {
      assert WorkPc(d, app, db) == d.pc.(pos := d.pc.pos + 1);
    }
  }

  lemma ChecksKeptByQuiet(d: Dep, app: App, db: Database, ev: Event)
    requires ChecksOk(d, app, db.columns) && Enabled(d, app, ev) && MoveOf(d, app, db, ev).None?
    ensures ChecksOk(Quiet(d, app, db, ev), app, StepDb(d, app, db, ev).columns)
  {
    hide ContractRan;
    match ev
    case Advance(count) =>
      WorkKeepsChecks(d, app, db, count, ContractRan(d.log));
      RanSnoc(d.log, WorkLog(d, count));
      assert WorkLog(d, count).Executed? <==> !d.pc.act.Verify?;
    case TimerFires => RanSnoc(d.log, ReadOnlyTimedOut);
    case SendNotify => RanSnoc(d.log, Notified(d.pc.final));
    case _ =>
  }

  lemma ChecksKept(d: Dep, app: App, db: Database, ev: Event)
    requires ChecksOk(d, app, db.columns) && Enabled(d, app, ev)
    ensures ChecksOk(StepDep(d, app, db, ev), app, StepDb(d, app, db, ev).columns)
  {
    hide ContractRan, ChecksHold;
    var m := MoveOf(d, app, db, ev);
    if m.Some? {
      ChecksKeptByMove(d, app, db, ev, ContractRan(d.log));
      MovesKeepChecks(d, app, db, ev, ContractRan(d.log));
      RanAfterMove(d.log, m.value);
      ColumnsChangeOnlyBySql(d, app, db, ev);
      assert StepDb(d, app, db, ev).columns == db.columns;
    } else {
      ChecksKeptByQuiet(d, app, db, ev);
    }
  }

  // ---- restoration ----

  /** The plan only adds columns that `start` lacks, and its rollback drops all of them and nothing of `start`. */
  predicate Reversible(plan: Plan, start: Columns) {
    && (forall i :: 0 <= i < |plan.expandSQL| ==>
          match plan.expandSQL[i]
          case AddColumn(n) => n !in start
          case DropColumn(_, _) => false
          case Other => true)
    && (forall i :: 0 <= i < |plan.rollbackSQL| ==>
          match plan.rollbackSQL[i]
          case AddColumn(_) => false
          case DropColumn(n, _) => n !in start
          case Other => true)
    && AddedBy(plan.expandSQL) <= DroppedBy(plan.rollbackSQL)
  }

  /** No schema statement of this run has run yet. */
  predicate Untouched(pc: Pc) { pc == Gate(PlanGate) || (pc.Run? && pc.act.Validate?) }

  /** The first `n` rollback statements have taken effect. */
  predicate DroppedSoFar(plan: Plan, cols: Columns, n: nat) {
    forall i :: 0 <= i < Min(n, |plan.rollbackSQL|) && plan.rollbackSQL[i].DropColumn? ==>
        plan.rollbackSQL[i].name !in cols
  }

  /** The rollback of this run has succeeded. */
  predicate RolledBackCleanly(d: Dep) { Succeeded(Rollback) in d.log }

  predicate RestoreFits(plan: Plan, start: Columns, pc: Pc, clean: bool, cols: Columns) {
    && (clean ==> Ending(pc) && pc.final.RolledBack?)
    && (!ContractSide(pc) ==>
          && start <= cols <= start + AddedBy(plan.expandSQL)
          && (Untouched(pc) ==> cols == start)
          && (pc.Run? && pc.act.Rollback? ==> pc.pos <= |plan.rollbackSQL| && DroppedSoFar(plan, cols, pc.pos))
          && (clean ==> cols == start))
  }

  predicate RestoreOk(d: Dep, start: Columns, cols: Columns) {
    RestoreFits(d.plan, start, d.pc, RolledBackCleanly(d), cols)
  }

  lemma FullyDroppedIsRestored(plan: Plan, start: Columns, cols: Columns)
    requires Reversible(plan, start) && start <= cols <= start + AddedBy(plan.expandSQL)
    requires DroppedSoFar(plan, cols, |plan.rollbackSQL|)
    ensures cols == start
  {
  }

  /** One statement of an expand or a rollback keeps the columns within bounds. */
  lemma StatementKeepsBounds(d: Dep, app: App, db: Database, count: int, start: Columns)
    requires Reversible(d.plan, start) && RestoreOk(d, start, db.columns)
    requires Enabled(d, app, Advance(count)) && WorkDb(d, app, db, count).Some?
    requires d.pc.act.Expand? || d.pc.act.Rollback?
    ensures var cols' := WorkDb(d, app, db, count).value.columns;
            && start <= cols' <= start + AddedBy(d.plan.expandSQL)
            && (d.pc.act.Rollback? ==> DroppedSoFar(d.plan, cols', d.pc.pos + 1))
  {
  }

  predicate RestoreMove(pc: Pc, m: Move) {
    && (Untouched(m.next) ==> Untouched(pc))
    && (ContractSide(pc) ==> ContractSide(m.next))
    && (m.next.Run? ==> m.next.pos == 0)
    && (m.what == Succeeded(Rollback) ==> pc.Run? && pc.act.Rollback? && m.next == Notify(RolledBack))
    && (pc.Run? || pc.Gate?)
  }

  lemma MovesKeepRestoration(d: Dep, app: App, db: Database, ev: Event)
    requires Enabled(d, app, ev) && MoveOf(d, app, db, ev).Some?
    ensures RestoreMove(d.pc, MoveOf(d, app, db, ev).value)
  {
    MovesFitTheLog(d, app, db, ev);
    MoveIsOneOf(d, app, db, ev);
  }

  lemma CleanAfterMove(d: Dep, m: Move)
    ensures RolledBackCleanly(Apply(d, m)) == (RolledBackCleanly(d) || m.what == Succeeded(Rollback))
  {
  }

  lemma RestoreKeptByMove(d: Dep, app: App, db: Database, ev: Event, start: Columns)
    requires Reversible(d.plan, start) && RestoreOk(d, start, db.columns)
    requires Enabled(d, app, ev) && MoveOf(d, app, db, ev).Some?
    ensures RestoreOk(Apply(d, MoveOf(d, app, db, ev).value), start, db.columns)
  {
    var m := MoveOf(d, app, db, ev).value;
    MovesKeepRestoration(d, app, db, ev);
    CleanAfterMove(d, m);
    if m.what == Succeeded(Rollback) {
      SuccessMeansFinished(d, app, db, ev);
      FullyDroppedIsRestored(d.plan, start, db.columns);
    }
  }

  lemma SuccessMeansFinished(d: Dep, app: App, db: Database, ev: Event)
    requires Enabled(d, app, ev) && MoveOf(d, app, db, ev).Some? && MoveOf(d, app, db, ev).value.what.Succeeded?
    ensures d.pc.Run? && d.pc.pos == Len(d.pc.act, d.plan, app)
  {
  }

  lemma RestoreKeptByQuiet(d: Dep, app: App, db: Database, ev: Event, start: Columns)
    requires Reversible(d.plan, start) && RestoreOk(d, start, db.columns)
    requires Enabled(d, app, ev) && MoveOf(d, app, db, ev).None?
    ensures RestoreOk(Quiet(d, app, db, ev), start, StepDb(d, app, db, ev).columns)
  {
    ColumnsChangeOnlyBySql(d, app, db, ev);
    if ev.Advance? {
      assert WorkPc(d, app, db).act == d.pc.act && WorkPc(d, app, db).pos == d.pc.pos + 1;
      if d.pc.act.Expand? || d.pc.act.Rollback? {
        StatementKeepsBounds(d, app, db, ev.count, start);
      }
    }
  }

  lemma RestoreKept(d: Dep, app: App, db: Database, ev: Event, start: Columns)
    requires Reversible(d.plan, start) && RestoreOk(d, start, db.columns) && Enabled(d, app, ev)
    ensures RestoreOk(StepDep(d, app, db, ev), start, StepDb(d, app, db, ev).columns)
  {
    if MoveOf(d, app, db, ev).Some? {
      RestoreKeptByMove(d, app, db, ev, start);
    } else {
      RestoreKeptByQuiet(d, app, db, ev, start);
    }
  }

  // ---- the running application's columns ----

  /** Neither the expand nor the rollback of the plan drops a column that blue refers to. */
  predicate KeepsBlue(plan: Plan, app: App) {
    && (forall i :: 0 <= i < |plan.expandSQL| && plan.expandSQL[i].DropColumn? ==>
          plan.expandSQL[i].name !in Needed(app.blue))
    && (forall i :: 0 <= i < |plan.rollbackSQL| && plan.rollbackSQL[i].DropColumn? ==>
          plan.rollbackSQL[i].name !in Needed(app.blue))
  }

  lemma ReversiblePlansKeepBlue(plan: Plan, app: App, start: Columns)
    requires Reversible(plan, start) && Needed(app.blue) <= start
    ensures KeepsBlue(plan, app)
  {
  }

  lemma NeededColumnsSuffice(cols: Columns, qs: seq<Query>)
    ensures Needed(qs) <= cols <==> AllValid(cols, qs)
  {
  }

  /** A contract statement took effect in this step. */
  predicate ContractStatement(d: Dep, ev: Event) { ev.Advance? && d.pc.Run? && d.pc.act.Contract? }

  lemma BlueColumnsKept(d: Dep, app: App, db: Database, ev: Event)
    requires KeepsBlue(d.plan, app) && Needed(app.blue) <= db.columns && Enabled(d, app, ev)
    requires !ContractStatement(d, ev)
    ensures Needed(app.blue) <= StepDb(d, app, db, ev).columns
  {
  }

  // ---- the read-only flag ----

  /** No release activity has succeeded since the last attempt to make the database read-only. */
  predicate Unreleased(log: seq<Effect>) {
    if log == [] then false
    else
      var e := log[|log| - 1];
      e == AttemptStarted(Acquire)
      || (e != Succeeded(Release) && e != Succeeded(CompRelease) && Unreleased(log[..|log| - 1]))
  }

  lemma UnreleasedSnoc(log: seq<Effect>, e: Effect)
    ensures e == AttemptStarted(Acquire) ==> Unreleased(log + [e])
    ensures e == Succeeded(Release) || e == Succeeded(CompRelease) ==> !Unreleased(log + [e])
    ensures e != AttemptStarted(Acquire) && e != Succeeded(Release) && e != Succeeded(CompRelease) ==>
              Unreleased(log + [e]) == Unreleased(log)
  {
    assert (log + [e])[..|log|] == log;
  }

  lemma UnreleasedAfterMove(log: seq<Effect>, m: Move)
    requires m.what != AttemptStarted(Acquire)
    ensures Unreleased(LogAfter(log, m)) ==
            ((m.next.Run? && m.next.act.Acquire?)
             || (m.what != Succeeded(Release) && m.what != Succeeded(CompRelease) && Unreleased(log)))
  {
    hide Unreleased;
    var l := log + [m.what];
    UnreleasedSnoc(log, m.what);
    if m.enter.Some? {
      UnreleasedSnoc(l, Entered(m.enter.value));
    }
    if m.next.Run? {
      UnreleasedSnoc(EnteredLog(l, m.enter), AttemptStarted(m.next.act));
    }
  }

  /** Inside an acquire attempt the flag may go up; a release attempt that has done its work has it down. */
  predicate FlagFits(pc: Pc, phase: Phase, log: seq<Effect>, readOnly: bool) {
    && (readOnly ==> Unreleased(log))
    && (pc.Run? && pc.act.Acquire? ==> Unreleased(log))
    && (pc.Run? && (pc.act.Release? || pc.act.CompRelease?) && pc.pos > 0 ==> !readOnly)
    && (Unreleased(log) ==>
          || (phase == Cutover && InCutover(pc))
          || AttemptFailed(Release) in log || AttemptFailed(CompRelease) in log)
  }

  predicate InCutover(pc: Pc) {
    pc.Run? && (pc.act.Acquire? || pc.act.Switch? || pc.act.Release? || pc.act.CompRelease?)
  }

  predicate FlagOk(d: Dep, readOnly: bool) { FlagFits(d.pc, d.phase, d.log, readOnly) }

  predicate FlagMove(pc: Pc, m: Move) {
    && m.what != AttemptStarted(Acquire)
    && (m.next.Run? ==> m.next.pos == 0)
    && (m.next.Run? && m.next.act.Acquire? ==> m.what != Succeeded(Release) && m.what != Succeeded(CompRelease))
    && (m.what == Succeeded(Release) || m.what == Succeeded(CompRelease) ==>
          pc.Run? && pc.pos == 1 && (pc.act.Release? || pc.act.CompRelease?))
    && (m.next.Run? && m.next.act.Acquire? ==>
        m.enter == Some(Cutover) || (m.enter.None? && pc.Run? && pc.act.Acquire?))
    && (pc.Run? && (pc.act.Acquire? || pc.act.Switch?) ==> InCutover(m.next) && m.enter.None?)
    && (pc.Run? && (pc.act.Release? || pc.act.CompRelease?) ==>
          m.what == Succeeded(pc.act) || m.what == AttemptFailed(pc.act))
  }

  lemma MovesKeepFlag(d: Dep, app: App, db: Database, ev: Event)
    requires Enabled(d, app, ev) && MoveOf(d, app, db, ev).Some?
    ensures FlagMove(d.pc, MoveOf(d, app, db, ev).value)
  {
    MoveIsOneOf(d, app, db, ev);
    if d.pc.Run? {
      if ev.Finish? && Reports(d) {
        SuccessKeepsFlag(d.plan, app, d.pc, d.readOnlyTimedOut, d.trafficSwitched);
      }
      FailureKeepsFlag(d.pc, d.readOnlyTimedOut, d.trafficSwitched);
    } else {
      GateKeepsFlag(d.pc.gate, d.rollbackRequested);
    }
  }

  lemma SuccessKeepsFlag(plan: Plan, app: App, pc: Pc, timedOut: bool, switched: bool)
    requires pc.Run? && pc.pos == Len(pc.act, plan, app)
    ensures FlagMove(pc, SuccessMove(pc, timedOut, switched))
  {
  }

  lemma FailureKeepsFlag(pc: Pc, timedOut: bool, switched: bool)
    requires pc.Run?
    ensures FlagMove(pc, FailureMove(pc, timedOut, switched))
  {
  }

  lemma GateKeepsFlag(g: GateName, rollbackRequested: bool)
    ensures FlagMove(Gate(g), ApprovalMove(g, rollbackRequested))
    ensures FlagMove(Gate(g), RollbackMove(g))
  {
  }

  lemma FlagFitsAfterMove(pc: Pc, phase: Phase, log: seq<Effect>, readOnly: bool, m: Move)
    requires FlagFits(pc, phase, log, readOnly) && FlagMove(pc, m)
    ensures FlagFits(m.next, if m.enter.Some? then m.enter.value else phase, LogAfter(log, m), readOnly)
  {
    hide Unreleased;
    UnreleasedAfterMove(log, m);
  }

  lemma FlagKeptByQuiet(d: Dep, app: App, db: Database, ev: Event)
    requires FlagOk(d, db.readOnly) && Enabled(d, app, ev) && MoveOf(d, app, db, ev).None?
    ensures FlagOk(Quiet(d, app, db, ev), StepDb(d, app, db, ev).readOnly)
  {
    var d' := Quiet(d, app, db, ev);
    match ev
    case Advance(count) =>
      UnreleasedSnoc(d.log, WorkLog(d, count));
      assert d'.pc.act == d.pc.act;
    case TimerFires => UnreleasedSnoc(d.log, ReadOnlyTimedOut);
    case SendNotify => UnreleasedSnoc(d.log, Notified(d.pc.final));
    case _ =>
  }

  lemma FlagKept(d: Dep, app: App, db: Database, ev: Event)
    requires FlagOk(d, db.readOnly) && Enabled(d, app, ev)
    ensures FlagOk(StepDep(d, app, db, ev), StepDb(d, app, db, ev).readOnly)
  {
    var m := MoveOf(d, app, db, ev);
    if m.Some? {
      MovesKeepFlag(d, app, db, ev);
      FlagFitsAfterMove(d.pc, d.phase, d.log, db.readOnly, m.value);
      assert StepDb(d, app, db, ev) == db;
    } else {
      FlagKeptByQuiet(d, app, db, ev);
    }
  }

  /** Traffic is switched only on a read-only database. */
  predicate WindowFits(pc: Pc, readOnly: bool) {
    pc.Run? && (pc.act.Switch? || (pc.act.Acquire? && pc.pos > 0)) ==> readOnly
  }

  lemma SwitchFollowsAcquire(d: Dep, app: App, db: Database, ev: Event)
    requires WindowFits(d.pc, db.readOnly) && Enabled(d, app, ev) && MoveOf(d, app, db, ev).Some?
    ensures WindowFits(MoveOf(d, app, db, ev).value.next, db.readOnly)
  {
    MoveIsOneOf(d, app, db, ev);
  }

  lemma WindowKept(d: Dep, app: App, db: Database, ev: Event)
    requires WindowFits(d.pc, db.readOnly) && Enabled(d, app, ev)
    ensures WindowFits(StepDep(d, app, db, ev).pc, StepDb(d, app, db, ev).readOnly)
  {
    if MoveOf(d, app, db, ev).Some? {
      SwitchFollowsAcquire(d, app, db, ev);
    } else if ev.Advance? {
      SameAct(d, app, db);
    }
  }

  /** What the log says about the flag does not depend on the flag. */
  lemma FlagHistoryKept(d: Dep, app: App, db: Database, ev: Event)
    requires FlagOk(d, false) && Enabled(d, app, ev)
    ensures FlagOk(StepDep(d, app, db, ev), false)
  {
    var db0 := db.(readOnly := false);
    ColumnsDecide(d, app, db, db0, ev);
    FlagKept(d, app, db0, ev);
  }

  lemma ColumnsDecide(d: Dep, app: App, db: Database, db0: Database, ev: Event)
    requires Enabled(d, app, ev) && db.columns == db0.columns
    ensures StepDep(d, app, db, ev) == StepDep(d, app, db0, ev)
  {
    if ev.Advance? {
      assert WorkDb(d, app, db, ev.count).None? <==> WorkDb(d, app, db0, ev.count).None?;
      assert WorkPc(d, app, db) == WorkPc(d, app, db0);
    }
  }
}
