/**
 The effect log of a deployment run: what must have happened before each effect.
 One predicate, Allowed, collects the rules; LogKept shows that no step of the machine breaks one.
 */
module DeploymentLog {
  import opened Wrappers
  import opened Deployment
  import opened DeploymentFacts

  /** The last attempt to make the database read-only has not yet been answered by a release attempt. */
  predicate Owed(log: seq<Effect>) {
    if log == [] then false
    else
      match log[|log| - 1]
      case AttemptStarted(act) =>
        act.Acquire? || (!act.Release? && !act.CompRelease? && Owed(log[..|log| - 1]))
      case _ => Owed(log[..|log| - 1])
  }

  /** No completion has been sent. */
  predicate Silent(log: seq<Effect>) { forall i :: 0 <= i < |log| ==> !log[i].Notified? }

  /** The first `n` verify queries have each returned the wanted count. */
  predicate CountsRecorded(plan: Plan, log: seq<Effect>, n: nat)
    requires n <= |plan.verifyQueries|
  {
    forall i :: 0 <= i < n ==> Counted(i, plan.verifyQueries[i].wantCount) in log
  }

  predicate Touches(e: Effect, act: Activity) { e == AttemptStarted(act) || (e.Executed? && e.act == act) }

  /** What must have happened before `e`. */
  predicate Allowed(plan: Plan, before: seq<Effect>, e: Effect) {
    && Silent(before)
    && (Touches(e, Contract) ==> OnKeyPath(Keys(before), 11) && AttemptStarted(Rollback) !in before)
    && (Touches(e, Rollback) ==> !Owed(before) && AttemptStarted(Contract) !in before)
    && (e == Entered(Monitoring) || e == Entered(RolledBack) ==> !Owed(before))
    && (e == Succeeded(Verify) ==> CountsRecorded(plan, before, |plan.verifyQueries|))
    && (e.Executed? ==> AttemptStarted(e.act) in before)
    && (e.Notified? ==> before != [] && before[|before| - 1] == Entered(e.phase))
  }

  predicate AllAllowed(plan: Plan, log: seq<Effect>) {
    forall i :: 0 <= i < |log| ==> Allowed(plan, log[..i], log[i])
  }

  lemma AppendAllowed(plan: Plan, log: seq<Effect>, e: Effect)
    requires AllAllowed(plan, log) && Allowed(plan, log, e)
    ensures AllAllowed(plan, log + [e])
  {
    var l := log + [e];
    forall i | 0 <= i < |l| ensures Allowed(plan, l[..i], l[i]) {
      assert l[..i] == log[..i];
    }
  }

  lemma OwedSnoc(log: seq<Effect>, e: Effect)
    ensures e == AttemptStarted(Acquire) ==> Owed(log + [e])
    ensures e == AttemptStarted(Release) || e == AttemptStarted(CompRelease) ==> !Owed(log + [e])
    ensures !(e.AttemptStarted? && (e.act.Acquire? || e.act.Release? || e.act.CompRelease?)) ==>
              Owed(log + [e]) == Owed(log)
  {
    assert (log + [e])[..|log|] == log;
  }

  // ---- the invariant ----

  predicate MayOwe(pc: Pc) { pc.Run? && (pc.act.Acquire? || pc.act.Switch?) }

  predicate ContractSide(pc: Pc) {
    || (pc.Run? && (pc.act.Contract? || pc.act.VerifyContract?))
    || (Ending(pc) && !pc.final.RolledBack?)
  }

  predicate RollbackSide(pc: Pc) {
    || (pc.Run? && pc.act.Rollback?)
    || (Ending(pc) && pc.final.RolledBack?)
  }

  /** What the log may contain, given where the run stands. */
  predicate Sides(pc: Pc, log: seq<Effect>) {
    && (Owed(log) ==> MayOwe(pc))
    && (AttemptStarted(Contract) in log ==> ContractSide(pc))
    && (AttemptStarted(Rollback) in log ==> RollbackSide(pc))
    && (Silent(log) || Reported(pc))
  }

  predicate Tail(plan: Plan, pc: Pc, log: seq<Effect>) {
    && (pc.Run? ==> AttemptStarted(pc.act) in log)
    && (pc.Run? && pc.act.Verify? ==> pc.pos <= |plan.verifyQueries| && CountsRecorded(plan, log, pc.pos))
    && (pc.Notify? ==> log != [] && log[|log| - 1] == Entered(pc.final))
  }

  predicate LogFits(plan: Plan, pc: Pc, log: seq<Effect>) {
    AllAllowed(plan, log) && Sides(pc, log) && Tail(plan, pc, log)
  }

  /** What the invariant needs to know about a move. */
  predicate LogMove(plan: Plan, pc: Pc, m: Move) {
    && (m.what.Succeeded? || m.what.AttemptFailed? || m.what.GreenPassed? || m.what.Approved? || m.what.RollbackTaken?)
    && (m.what == Succeeded(Verify) ==> pc.Run? && pc.act.Verify? && pc.pos == |plan.verifyQueries|)
    && (m.next.Run? ==> m.next.pos == 0)
    && (pc.Run? || pc.Gate?) && !Reported(m.next)
    && (ContractSide(pc) ==> ContractSide(m.next))
    && (RollbackSide(pc) ==> RollbackSide(m.next))
    && (m.enter == Some(Monitoring) || m.enter == Some(RolledBack) ==> !MayOwe(pc))
    && (MayOwe(pc) ==> m.next.Run? && (MayOwe(m.next) || m.next.act.Release? || m.next.act.CompRelease?))
    && (m.next.Run? && m.next.act.Acquire? ==> m.enter.None? || m.enter == Some(Cutover))
    && (m.next.Run? && m.next.act.Contract? ==> !RollbackSide(pc))
    && (m.next.Run? && m.next.act.Rollback? ==> !ContractSide(pc) && !MayOwe(pc))
    && (m.next.Notify? ==> m.enter == Some(m.next.final))
  }

  lemma MovesFitTheLog(d: Dep, app: App, db: Database, ev: Event)
    requires Enabled(d, app, ev) && MoveOf(d, app, db, ev).Some?
    ensures LogMove(d.plan, d.pc, MoveOf(d, app, db, ev).value)
  {
    MoveIsOneOf(d, app, db, ev);
    if d.pc.Run? {
      if ev.Finish? && Reports(d) {
        SuccessFitsTheLog(d.plan, app, d.pc, d.readOnlyTimedOut, d.trafficSwitched);
      }
      FailureFitsTheLog(d.plan, d.pc, d.readOnlyTimedOut, d.trafficSwitched);
    } else {
      GateFitsTheLog(d.plan, d.pc.gate, d.rollbackRequested);
    }
  }

  lemma SuccessFitsTheLog(plan: Plan, app: App, pc: Pc, timedOut: bool, switched: bool)
    requires pc.Run? && pc.pos == Len(pc.act, plan, app)
    ensures LogMove(plan, pc, SuccessMove(pc, timedOut, switched))
  {
  }

  lemma FailureFitsTheLog(plan: Plan, pc: Pc, timedOut: bool, switched: bool)
    requires pc.Run?
    ensures LogMove(plan, pc, FailureMove(pc, timedOut, switched))
  {
  }

  lemma GateFitsTheLog(plan: Plan, g: GateName, rollbackRequested: bool)
    ensures LogMove(plan, Gate(g), ApprovalMove(g, rollbackRequested))
    ensures LogMove(plan, Gate(g), RollbackMove(g))
  {
  }

  /** Appending the effects of a move, one at a time: the outcome, the phase entered, the attempt started. */
  lemma AppendOutcome(plan: Plan, pc: Pc, log: seq<Effect>, m: Move)
    requires LogFits(plan, pc, log) && LogMove(plan, pc, m)
    ensures AllAllowed(plan, log + [m.what]) && Sides(pc, log + [m.what])
  {
    AppendAllowed(plan, log, m.what);
    OwedSnoc(log, m.what);
  }

  lemma AppendPhase(plan: Plan, pc: Pc, log: seq<Effect>, m: Move)
    requires AllAllowed(plan, log) && Sides(pc, log) && LogMove(plan, pc, m) && m.enter.Some?
    ensures AllAllowed(plan, log + [Entered(m.enter.value)]) && Sides(pc, log + [Entered(m.enter.value)])
  {
    AppendAllowed(plan, log, Entered(m.enter.value));
    OwedSnoc(log, Entered(m.enter.value));
  }

  lemma AppendStart(plan: Plan, pc: Pc, log: seq<Effect>, m: Move)
    requires AllAllowed(plan, log) && Sides(pc, log) && LogMove(plan, pc, m) && m.next.Run?
    requires m.next.act.Contract? ==> OnKeyPath(Keys(log), 11)
    ensures AllAllowed(plan, log + [AttemptStarted(m.next.act)]) && Sides(m.next, log + [AttemptStarted(m.next.act)])
  {
    AppendAllowed(plan, log, AttemptStarted(m.next.act));
    OwedSnoc(log, AttemptStarted(m.next.act));
  }

  lemma LogFitsAfterMove(plan: Plan, pc: Pc, log: seq<Effect>, m: Move)
    requires LogFits(plan, pc, log) && LogMove(plan, pc, m)
    requires m.next.Run? && m.next.act.Contract? ==> OnKeyPath(Keys(LogAfter(log, m)), 11)
    ensures LogFits(plan, m.next, LogAfter(log, m))
  {
    hide Keys, AllAllowed, Owed, Allowed;
    var l := log + [m.what];
    AppendOutcome(plan, pc, log, m);
    if m.enter.Some? {
      AppendPhase(plan, pc, l, m);
    }
    if m.next.Run? {
      var l' := EnteredLog(l, m.enter);
      KeysSnoc(l', AttemptStarted(m.next.act));
      AppendStart(plan, pc, l', m);
    }
  }

  predicate LogOk(d: Dep) { LogFits(d.plan, d.pc, d.log) }

  lemma AppendWork(plan: Plan, pc: Pc, pc': Pc, log: seq<Effect>, e: Effect)
    requires LogFits(plan, pc, log) && pc.Run? && pc'.Run? && pc'.act == pc.act && pc'.pos == pc.pos + 1
    requires if pc.act.Verify? then pc.pos < |plan.verifyQueries|
              && e == Counted(pc.pos, plan.verifyQueries[pc.pos].wantCount)
             else e == Executed(pc.act, pc.pos)
    requires pc.act.Contract? ==> OnKeyPath(Keys(log), 11)
    ensures LogFits(plan, pc', log + [e])
  {
    hide Keys, Owed, AllAllowed, OnKeyPath;
    AppendAllowed(plan, log, e);
    OwedSnoc(log, e);
  }

  lemma WorkIsAllowed(d: Dep, app: App, db: Database, count: int)
    requires LogOk(d) && KeysOk(d) && Enabled(d, app, Advance(count)) && WorkDb(d, app, db, count).Some?
    ensures LogFits(d.plan, WorkPc(d, app, db), d.log + [WorkLog(d, count)])
  {
    AppendWork(d.plan, d.pc, WorkPc(d, app, db), d.log, WorkLog(d, count));
  }

  lemma AppendTimeout(plan: Plan, pc: Pc, log: seq<Effect>)
    requires LogFits(plan, pc, log) && pc.Run? && pc.act.Switch?
    ensures LogFits(plan, pc, log + [ReadOnlyTimedOut])
  {
    AppendAllowed(plan, log, ReadOnlyTimedOut);
    OwedSnoc(log, ReadOnlyTimedOut);
  }

  lemma AppendNotification(plan: Plan, final: Phase, log: seq<Effect>)
    requires LogFits(plan, Notify(final), log)
    ensures LogFits(plan, Returning(final), log + [Notified(final)])
  {
    AppendAllowed(plan, log, Notified(final));
    OwedSnoc(log, Notified(final));
  }

  lemma LogKeptByQuiet(d: Dep, app: App, db: Database, ev: Event)
    requires LogOk(d) && KeysOk(d) && Enabled(d, app, ev) && MoveOf(d, app, db, ev).None?
    ensures LogOk(Quiet(d, app, db, ev))
  {
    match ev
    case Advance(count) => WorkIsAllowed(d, app, db, count);
    case TimerFires => AppendTimeout(d.plan, d.pc, d.log);
    case SendNotify => AppendNotification(d.plan, d.pc.final, d.log);
    case _ =>
  }

  lemma LogKeptByMove(d: Dep, m: Move)
    requires LogOk(d) && LogMove(d.plan, d.pc, m) && KeysOk(Apply(d, m))
    ensures LogOk(Apply(d, m))
  {
    hide Keys, AllAllowed, Owed, LogAfter, LogMove, OnKeyPath;
    LogFitsAfterMove(d.plan, d.pc, d.log, m);
  }

  lemma LogKept(d: Dep, app: App, db: Database, ev: Event)
    requires LogOk(d) && KeysOk(d) && Enabled(d, app, ev)
    ensures LogOk(StepDep(d, app, db, ev))
  {
    hide Keys, AllAllowed, Owed, LogAfter, LogMove, OnKeyPath, CountsRecorded;
    var m := MoveOf(d, app, db, ev);
    if m.Some? {
      MovesFitTheLog(d, app, db, ev);
      MovesFollowTheKeys(d, app, db, ev);
      KeysKeptByMove(d, m.value);
      LogKeptByMove(d, m.value);
      SameBut(Apply(d, m.value), StepDep(d, app, db, ev));
    } else {
      LogKeptByQuiet(d, app, db, ev);
      SameBut(Quiet(d, app, db, ev), StepDep(d, app, db, ev));
    }
  }

  /** The log invariant does not look at the signal queues. */
  lemma SameBut(d: Dep, d': Dep)
    requires LogOk(d) && d'.plan == d.plan && d'.pc == d.pc && d'.log == d.log
    ensures LogOk(d')
  {
    hide LogFits;
  }
}
