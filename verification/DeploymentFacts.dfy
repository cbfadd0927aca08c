/**
 What holds of every single deployment run, whatever the database, the attempts and the signals do:
 the phase history, the point of no return, the read-only discipline, the one notification.
 */
module DeploymentFacts {
  import opened Wrappers
  import opened Deployment

  // ---- phase history ----

  function HappyPath(i: nat): Phase
    requires i < 8
  {
    if i == 0 then PlanReview else if i == 1 then Expanding else if i == 2 then ExpandVerify
    else if i == 3 then Cutover else if i == 4 then Monitoring else if i == 5 then ContractWait
    else if i == 6 then Contracting else Complete
  }

  /** The first `n` phases of a history are the first `n` of the happy path. */
  predicate OnPath(h: seq<Phase>, n: nat)
    requires n <= |h| && n <= 8
  {
    forall i :: 0 <= i < n ==> h[i] == HappyPath(i)
  }

  predicate Compensating(pc: Pc) { pc.Run? && (pc.act.CompRelease? || pc.act.Rollback?) }

  /** The part of the run before any compensation and before the end. */
  predicate Forward(pc: Pc) { pc.Gate? || (pc.Run? && !Compensating(pc)) }

  /** How many phases of the happy path have been entered. */
  function PhasesEntered(pc: Pc): nat {
    match pc
    case Run(act, _, _, _, _) =>
      (match act
       case Validate => 1
       case Expand => 2
       case Verify | CompatPre => 3
       case Acquire | Switch | Release => 4
       case CompatFinal => 6
       case Contract | VerifyContract => 7
       case CompRelease | Rollback => 0)
    case Gate(g) =>
      (match g
       case PlanGate => 1
       case VerifyGate => 3
       case MonitorGate => 5
       case ContractGate => 6)
    case Notify(_) | Returning(_) | Closed(_) => 8
  }

  /** The grammar of a finished history. */
  predicate Finished(h: seq<Phase>, final: Phase) {
    && 2 <= |h| <= 8 && h[|h| - 1] == final && OnPath(h, |h| - 1)
    && match final
       case Complete => |h| == 8
       case RolledBack => |h| <= 7
       case Failed => |h| == 2 || |h| == 8
       case _ => false
  }

  predicate HistoryFits(pc: Pc, phase: Phase, h: seq<Phase>) {
    && |h| >= 1 && phase == h[|h| - 1]
    && if Ending(pc) then Finished(h, pc.final)
       else if Compensating(pc) then |h| <= 6 && OnPath(h, |h|)
       else |h| == PhasesEntered(pc) && OnPath(h, |h|)
  }

  predicate HistoryOk(d: Dep) { HistoryFits(d.pc, d.phase, d.history) }

  /** How a move may change the phase count. */
  predicate PathMove(pc: Pc, m: Move) {
    if m.next.Notify? then
      && m.enter == Some(m.next.final)
      && match m.next.final
         case Complete => Forward(pc) && PhasesEntered(pc) == 7
         case RolledBack => Compensating(pc)
         case Failed => Forward(pc) && (PhasesEntered(pc) == 1 || PhasesEntered(pc) == 7)
         case _ => false
    else if Compensating(m.next) then
      m.enter == None && (Compensating(pc) || (Forward(pc) && PhasesEntered(pc) <= 6))
    else
      && Forward(pc) && Forward(m.next)
      && if m.enter.None? then PhasesEntered(m.next) == PhasesEntered(pc)
         else PhasesEntered(m.next) == PhasesEntered(pc) + 1 <= 7 && m.enter.value == HappyPath(PhasesEntered(pc))
  }

  lemma SuccessFollowsThePath(pc: Pc, timedOut: bool, switched: bool)
    requires pc.Run?
    ensures PathMove(pc, SuccessMove(pc, timedOut, switched))
  {
  }

  lemma FailureFollowsThePath(pc: Pc, timedOut: bool, switched: bool)
    requires pc.Run?
    ensures PathMove(pc, FailureMove(pc, timedOut, switched))
  {
  }

  lemma GateFollowsThePath(g: GateName, rollbackRequested: bool)
    ensures PathMove(Gate(g), ApprovalMove(g, rollbackRequested))
    ensures PathMove(Gate(g), RollbackMove(g))
  {
  }

  lemma MoveIsOneOf(d: Dep, app: App, db: Database, ev: Event)
    requires Enabled(d, app, ev) && MoveOf(d, app, db, ev).Some?
    ensures d.pc.Run? || d.pc.Gate?
    ensures d.pc.Run? ==>
              var m := MoveOf(d, app, db, ev).value;
              m == SuccessMove(d.pc, d.readOnlyTimedOut, d.trafficSwitched)
              || m == FailureMove(d.pc, d.readOnlyTimedOut, d.trafficSwitched)
    ensures d.pc.Gate? ==>
              var m := MoveOf(d, app, db, ev).value;
              m == ApprovalMove(d.pc.gate, d.rollbackRequested) || m == RollbackMove(d.pc.gate)
  {
  }

  lemma MovesFollowThePath(d: Dep, app: App, db: Database, ev: Event)
    requires Enabled(d, app, ev) && MoveOf(d, app, db, ev).Some?
    ensures PathMove(d.pc, MoveOf(d, app, db, ev).value)
  {
    MoveIsOneOf(d, app, db, ev);
    if d.pc.Run? {
      SuccessFollowsThePath(d.pc, d.readOnlyTimedOut, d.trafficSwitched);
      FailureFollowsThePath(d.pc, d.readOnlyTimedOut, d.trafficSwitched);
    } else {
      GateFollowsThePath(d.pc.gate, d.rollbackRequested);
    }
  }

  lemma HistoryKeptByMove(d: Dep, m: Move)
    requires HistoryOk(d) && PathMove(d.pc, m)
    ensures HistoryOk(Apply(d, m))
  {
  }

  lemma HistoryKeptByQuiet(d: Dep, app: App, db: Database, ev: Event)
    requires HistoryOk(d) && Enabled(d, app, ev) && MoveOf(d, app, db, ev).None?
    ensures HistoryOk(Quiet(d, app, db, ev))
  {
  }

  lemma HistoryKept(d: Dep, app: App, db: Database, ev: Event)
    requires HistoryOk(d) && Enabled(d, app, ev)
    ensures HistoryOk(StepDep(d, app, db, ev))
  {
    var m := MoveOf(d, app, db, ev);
    if m.Some? {
      MovesFollowThePath(d, app, db, ev);
      HistoryKeptByMove(d, m.value);
    } else {
      HistoryKeptByQuiet(d, app, db, ev);
    }
  }

  // ---- point of no return ----

  /** The events that decide how far a run may go. */
  predicate IsKey(e: Effect) {
    match e
    case Approved(_) | RollbackTaken(_) | ReadOnlyTimedOut | GreenPassed => true
    case Succeeded(act) =>
      act.Validate? || act.Expand? || act.Verify? || act.CompatPre? || act.Acquire? || act.Switch?
    case _ => false
  }

  function Keys(log: seq<Effect>): seq<Effect> {
    if log == [] then []
    else
      var e := log[|log| - 1];
      Keys(log[..|log| - 1]) + if IsKey(e) then [e] else []
  }

  /** The one sequence of decisions that allows the destructive step. */
  function KeyPath(i: nat): Effect
    requires i < 11
  {
    if i == 0 then Succeeded(Validate) else if i == 1 then Approved(PlanGate)
    else if i == 2 then Succeeded(Expand) else if i == 3 then Succeeded(Verify)
    else if i == 4 then Succeeded(CompatPre) else if i == 5 then Approved(VerifyGate)
    else if i == 6 then Succeeded(Acquire) else if i == 7 then Succeeded(Switch)
    else if i == 8 then Approved(MonitorGate) else if i == 9 then GreenPassed
    else Approved(ContractGate)
  }

  predicate OnKeyPath(keys: seq<Effect>, n: nat)
    requires n <= 11
  {
    |keys| == n && forall i :: 0 <= i < n ==> keys[i] == KeyPath(i)
  }

  function KeysPassed(pc: Pc, switched: bool): nat {
    match pc
    case Run(act, _, _, _, _) =>
      (match act
       case Validate => 0
       case Expand => 2
       case Verify => 3
       case CompatPre => 4
       case Acquire => 6
       case Switch => 7
       case Release => if switched then 8 else 7
       case CompatFinal => 9
       case Contract | VerifyContract => 11
       case CompRelease | Rollback => 0)
    case Gate(g) =>
      (match g
       case PlanGate => 1
       case VerifyGate => 5
       case MonitorGate => 8
       case ContractGate => 10)
    case Notify(_) | Returning(_) | Closed(_) => 11
  }

  /** Traffic has not been switched yet on the way forward. */
  predicate BeforeSwitch(pc: Pc) {
    || pc == Gate(PlanGate) || pc == Gate(VerifyGate)
    || (pc.Run? && (pc.act.Validate? || pc.act.Expand? || pc.act.Verify? || pc.act.CompatPre?
                    || pc.act.Acquire? || pc.act.Switch?))
  }

  predicate InWindow(pc: Pc) { pc.Run? && (pc.act.Switch? || pc.act.Release?) }

  predicate KeysFit(pc: Pc, keys: seq<Effect>, timedOut: bool, switched: bool, rollbackRequested: bool) {
    && (Forward(pc) && !timedOut ==> OnKeyPath(keys, KeysPassed(pc, switched)))
    && (Forward(pc) && timedOut ==> InWindow(pc))
    && (BeforeSwitch(pc) ==> !switched)
    && (rollbackRequested ==> !Forward(pc))
  }

  predicate KeysOk(d: Dep) {
    KeysFit(d.pc, Keys(d.log), d.readOnlyTimedOut, d.trafficSwitched, d.rollbackRequested)
  }

  lemma KeysSnoc(log: seq<Effect>, e: Effect)
    ensures Keys(log + [e]) == if IsKey(e) then Keys(log) + [e] else Keys(log)
  {
    assert (log + [e])[..|log|] == log;
    assert Keys(log) + [] == Keys(log);
  }

  /** How a move may change the key events, given whether the read-only window has overrun. */
  predicate KeyMove(pc: Pc, switched: bool, timedOut: bool, m: Move) {
    var switched' := switched || m.what == Succeeded(Switch);
    Forward(m.next) ==>
      && Forward(pc)
      && (timedOut ==> InWindow(m.next) || !InWindow(pc))
      && (BeforeSwitch(m.next) ==> BeforeSwitch(pc) && m.what != Succeeded(Switch))
      && !m.what.RollbackTaken?
      && (if IsKey(m.what) then
            KeysPassed(m.next, switched') == KeysPassed(pc, switched) + 1 <= 11
                && m.what == KeyPath(KeysPassed(pc, switched))
          else KeysPassed(m.next, switched') == KeysPassed(pc, switched))
  }

  lemma SuccessFollowsTheKeys(pc: Pc, timedOut: bool, switched: bool)
    requires pc.Run? && (BeforeSwitch(pc) ==> !switched)
    ensures KeyMove(pc, switched, timedOut, SuccessMove(pc, timedOut, switched))
  {
  }

  lemma FailureFollowsTheKeys(pc: Pc, timedOut: bool, switched: bool)
    requires pc.Run? && (BeforeSwitch(pc) ==> !switched)
    ensures KeyMove(pc, switched, timedOut, FailureMove(pc, timedOut, switched))
  {
  }

  lemma GateFollowsTheKeys(g: GateName, timedOut: bool, switched: bool, rollbackRequested: bool)
    requires BeforeSwitch(Gate(g)) ==> !switched
    ensures KeyMove(Gate(g), switched, timedOut, ApprovalMove(g, rollbackRequested))
    ensures KeyMove(Gate(g), switched, timedOut, RollbackMove(g))
  {
  }

  lemma MovesFollowTheKeys(d: Dep, app: App, db: Database, ev: Event)
    requires KeysOk(d) && Enabled(d, app, ev) && MoveOf(d, app, db, ev).Some?
    ensures KeyMove(d.pc, d.trafficSwitched, d.readOnlyTimedOut, MoveOf(d, app, db, ev).value)
  {
    MoveIsOneOf(d, app, db, ev);
    if d.pc.Run? {
      SuccessFollowsTheKeys(d.pc, d.readOnlyTimedOut, d.trafficSwitched);
      FailureFollowsTheKeys(d.pc, d.readOnlyTimedOut, d.trafficSwitched);
    } else {
      GateFollowsTheKeys(d.pc.gate, d.readOnlyTimedOut, d.trafficSwitched, d.rollbackRequested);
    }
  }

  lemma KeysOfMove(log: seq<Effect>, m: Move)
    ensures Keys(LogAfter(log, m)) == if IsKey(m.what) then Keys(log) + [m.what] else Keys(log)
  {
    hide Keys;
    var l := log + [m.what];
    KeysSnoc(log, m.what);
    if m.enter.Some? {
      KeysSnoc(l, Entered(m.enter.value));
    }
    if m.next.Run? {
      KeysSnoc(EnteredLog(l, m.enter), AttemptStarted(m.next.act));
    }
  }

  lemma KeysFitAfterMove(pc: Pc, keys: seq<Effect>, timedOut: bool, switched: bool, rollbackRequested: bool, m: Move)
    requires KeysFit(pc, keys, timedOut, switched, rollbackRequested) && KeyMove(pc, switched, timedOut, m)
    ensures KeysFit(m.next, if IsKey(m.what) then keys + [m.what] else keys, timedOut,
                    switched || m.what == Succeeded(Switch), rollbackRequested || m.what.RollbackTaken?)
  {
  }

  lemma KeysKeptByMove(d: Dep, m: Move)
    requires KeysOk(d) && KeyMove(d.pc, d.trafficSwitched, d.readOnlyTimedOut, m)
    ensures KeysOk(Apply(d, m))
  {
    hide Keys, LogAfter;
    KeysOfMove(d.log, m);
    KeysFitAfterMove(d.pc, Keys(d.log), d.readOnlyTimedOut, d.trafficSwitched, d.rollbackRequested, m);
  }

  lemma KeysKeptByQuiet(d: Dep, app: App, db: Database, ev: Event)
    requires KeysOk(d) && Enabled(d, app, ev) && MoveOf(d, app, db, ev).None?
    ensures KeysOk(Quiet(d, app, db, ev))
  {
    hide Keys, OnKeyPath, MoveOf;
    match ev
    case Advance(count) =>
      KeysSnoc(d.log, WorkLog(d, count));
      SameAct(d, app, db);
    case TimerFires => KeysSnoc(d.log, ReadOnlyTimedOut);
    case SendNotify => KeysSnoc(d.log, Notified(d.pc.final));
    case _ =>
  }

  lemma SameAct(d: Dep, app: App, db: Database)
    requires d.pc.Run? && d.pc.pos < Len(d.pc.act, d.plan, app)
    ensures WorkPc(d, app, db).Run? && WorkPc(d, app, db).act == d.pc.act
  {
  }

  lemma KeysKept(d: Dep, app: App, db: Database, ev: Event)
    requires KeysOk(d) && Enabled(d, app, ev)
    ensures KeysOk(StepDep(d, app, db, ev))
  {
    var m := MoveOf(d, app, db, ev);
    if m.Some? {
      MovesFollowTheKeys(d, app, db, ev);
      KeysKeptByMove(d, m.value);
    } else {
      KeysKeptByQuiet(d, app, db, ev);
    }
  }
}
