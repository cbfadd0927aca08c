/**
 The promises of a single deployment, read off its invariant: the history grammar, the point of no
 return, the read-only discipline and the one notification, for every run of every plan.
 */
module DeploymentTheorems {
  import opened Wrappers
  import opened Deployment
  import opened DeploymentFacts
  import opened DeploymentLog
  import opened DeploymentData

  /** The completion is sent exactly when a run with a parent has nothing left to do but return. */
  predicate ToldFits(pc: Pc, hasParent: bool, log: seq<Effect>) {
    if Reported(pc) && hasParent then
      |log| >= 2 && log[|log| - 1] == Notified(pc.final) && log[|log| - 2] == Entered(pc.final)
    else Silent(log)
  }

  predicate Told(d: Dep) { ToldFits(d.pc, d.hasParent, d.log) }

  predicate DepInv(d: Dep) { HistoryOk(d) && KeysOk(d) && LogOk(d) && Told(d) && FlagOk(d, false) }

  lemma StartInv(plan: Plan, hasParent: bool)
    ensures DepInv(Start(plan, hasParent))
  {
    StartKeys(plan, hasParent);
    StartLog(plan, hasParent);
    var l := [Entered(PlanReview)];
    assert Start(plan, hasParent).log == l + [AttemptStarted(Validate)] && [] + l == l;
    UnreleasedSnoc([], l[0]);
    UnreleasedSnoc(l, AttemptStarted(Validate));
    hide Keys, Owed, AllAllowed, Unreleased;
  }

  lemma StartKeys(plan: Plan, hasParent: bool)
    ensures KeysOk(Start(plan, hasParent))
  {
    var l := [Entered(PlanReview)];
    assert Start(plan, hasParent).log == l + [AttemptStarted(Validate)] && [] + l == l;
    assert Keys([]) == [];
    hide Keys;
    KeysSnoc([], l[0]);
    KeysSnoc(l, AttemptStarted(Validate));
  }

  lemma StartLog(plan: Plan, hasParent: bool)
    ensures LogOk(Start(plan, hasParent))
  {
    var l := [Entered(PlanReview)];
    assert Start(plan, hasParent).log == l + [AttemptStarted(Validate)] && [] + l == l;
    assert !Owed([]);
    FirstAllowed(plan);
    hide Owed, Keys, Allowed, AllAllowed;
    OwedSnoc([], l[0]);
    OwedSnoc(l, AttemptStarted(Validate));
    AppendAllowed(plan, [], l[0]);
    AppendAllowed(plan, l, AttemptStarted(Validate));
  }

  lemma FirstAllowed(plan: Plan)
    ensures AllAllowed(plan, []) && Allowed(plan, [], Entered(PlanReview))
    ensures Allowed(plan, [Entered(PlanReview)], AttemptStarted(Validate))
  {
    hide Owed, Keys, OnKeyPath;
  }

  lemma MovesAreSilent(plan: Plan, pc: Pc, log: seq<Effect>, m: Move)
    requires Silent(log) && LogMove(plan, pc, m)
    ensures Silent(LogAfter(log, m))
  {
  }

  lemma ToldKept(d: Dep, app: App, db: Database, ev: Event)
    requires Told(d) && LogOk(d) && Enabled(d, app, ev)
    ensures Told(StepDep(d, app, db, ev))
  {
    var m := MoveOf(d, app, db, ev);
    if m.Some? {
      MovesFitTheLog(d, app, db, ev);
      MovesAreSilent(d.plan, d.pc, d.log, m.value);
    } else {
      ToldKeptByQuiet(d, app, db, ev);
    }
  }

  lemma ToldKeptByQuiet(d: Dep, app: App, db: Database, ev: Event)
    requires Told(d) && LogOk(d) && Enabled(d, app, ev) && MoveOf(d, app, db, ev).None?
    ensures Told(Quiet(d, app, db, ev))
  {
    var log := d.log;
    hide AllAllowed, Keys, Owed, CountsRecorded, WorkDb, WorkPc, MoveOf;
    match ev
    case Advance(count) => QuietRuns(d, app, db, ev);
    case SendNotify => assert (log + [Notified(d.pc.final)])[|log|] == Notified(d.pc.final);
    case _ =>
  }

  lemma QuietRuns(d: Dep, app: App, db: Database, ev: Event)
    requires Enabled(d, app, ev) && ev.Advance?
    ensures Quiet(d, app, db, ev).pc.Run? && Quiet(d, app, db, ev).hasParent == d.hasParent
  {
  }

  lemma DepInvKept(d: Dep, app: App, db: Database, ev: Event)
    requires DepInv(d) && Enabled(d, app, ev)
    ensures DepInv(StepDep(d, app, db, ev))
  {
    HistoryKept(d, app, db, ev);
    KeysKept(d, app, db, ev);
    LogKept(d, app, db, ev);
    ToldKept(d, app, db, ev);
    FlagHistoryKept(d, app, db, ev);
  }

  lemma {:induction false} RunsKeepInv(plan: Plan, hasParent: bool, app: App, db: Database, evs: seq<Event>, d: Dep,
      db': Database)
    requires Exec(Start(plan, hasParent), app, db, evs) == Some((d, db'))
    ensures DepInv(d)
  {
    if evs == [] {
      StartInv(plan, hasParent);
    } else {
      var mid := Exec(Start(plan, hasParent), app, db, evs[..|evs| - 1]).value;
      RunsKeepInv(plan, hasParent, app, db, evs[..|evs| - 1], mid.0, mid.1);
      DepInvKept(mid.0, app, mid.1, evs[|evs| - 1]);
      hide DepInv, StepDep, StepDb, Enabled;
    }
  }

  // ---- history ----

  /** What QueryDeploymentState can ever show. */
  predicate HistoryGrammar(d: Dep) {
    var h := d.history;
    && |h| >= 1 && d.phase == h[|h| - 1]
    && (|| (|h| <= 8 && OnPath(h, |h|))
        || (2 <= |h| <= 7 && OnPath(h, |h| - 1) && d.phase == RolledBack)
        || ((|h| == 2 || |h| == 8) && OnPath(h, |h| - 1) && d.phase == Failed))
  }

  lemma HistoryFollowsGrammar(d: Dep)
    requires DepInv(d)
    ensures HistoryGrammar(d)
    ensures Reported(d.pc) ==>
              d.pc.final == d.phase && (d.phase == Complete || d.phase == RolledBack || d.phase == Failed)
  {
    if Ending(d.pc) {
      assert OnPath(d.history, |d.history| - 1);
    }
  }

  // ---- point of no return ----

  lemma {:induction false} KeysComeFromTheLog(log: seq<Effect>, e: Effect)
    requires e in Keys(log)
    ensures e in log
  {
    if log != [] && !(IsKey(log[|log| - 1]) && log[|log| - 1] == e) {
      KeysComeFromTheLog(log[..|log| - 1], e);
    }
  }

  /** Contract statements run only after the full key path, and never in the same run as a rollback. */
  ghost predicate NoReturn(d: Dep) {
    && (forall i, j :: 0 <= i < |d.log| && 0 <= j < |d.log| && Touches(d.log[i], Contract) ==>
          !Touches(d.log[j], Rollback))
    && (forall i :: 0 <= i < |d.log| && Touches(d.log[i], Contract) ==>
          && OnKeyPath(Keys(d.log[..i]), 11)
          && CountsRecorded(d.plan, d.log[..i], |d.plan.verifyQueries|))
  }

  lemma VerifiedBeforeContract(d: Dep, i: nat)
    requires DepInv(d) && i < |d.log| && Touches(d.log[i], Contract)
    ensures OnKeyPath(Keys(d.log[..i]), 11) && CountsRecorded(d.plan, d.log[..i], |d.plan.verifyQueries|)
  {
    var before := d.log[..i];
    assert Allowed(d.plan, before, d.log[i]);
    assert Keys(before)[3] == KeyPath(3) == Succeeded(Verify);
    KeysComeFromTheLog(before, Succeeded(Verify));
    var j :| 0 <= j < i && before[j] == Succeeded(Verify);
    assert Allowed(d.plan, d.log[..j], d.log[j]);
    assert forall e :: e in d.log[..j] ==> e in before;
  }

  lemma NeverBoth(d: Dep, i: nat, j: nat)
    requires DepInv(d) && i < |d.log| && j < |d.log| && Touches(d.log[i], Contract)
    ensures !Touches(d.log[j], Rollback)
  {
    if Touches(d.log[j], Rollback) {
      assert Allowed(d.plan, d.log[..i], d.log[i]) && Allowed(d.plan, d.log[..j], d.log[j]);
      if j < i {
        StartedBefore(d, j, i, Rollback);
      } else {
        StartedBefore(d, i, j, Contract);
      }
    }
  }

  lemma StartedBefore(d: Dep, i: nat, j: nat, act: Activity)
    requires DepInv(d) && i < j < |d.log| && Touches(d.log[i], act)
    ensures AttemptStarted(act) in d.log[..j]
  {
  }

  lemma PointOfNoReturn(d: Dep)
    requires DepInv(d)
    ensures NoReturn(d)
  {
    forall i, j | 0 <= i < |d.log| && 0 <= j < |d.log| && Touches(d.log[i], Contract)
      ensures !Touches(d.log[j], Rollback)
    {
      NeverBoth(d, i, j);
    }
    forall i | 0 <= i < |d.log| && Touches(d.log[i], Contract)
      ensures OnKeyPath(Keys(d.log[..i]), 11) && CountsRecorded(d.plan, d.log[..i], |d.plan.verifyQueries|)
    {
      VerifiedBeforeContract(d, i);
    }
  }

  // ---- read-only discipline ----

  predicate IsReleaseAttempt(e: Effect) { e == AttemptStarted(Release) || e == AttemptStarted(CompRelease) }

  predicate NeedsRelease(e: Effect) { e == Entered(Monitoring) || e == Entered(RolledBack) || Touches(e, Rollback) }

  lemma {:induction false} AcquireIsAnswered(log: seq<Effect>, i: nat)
    requires i < |log| && log[i] == AttemptStarted(Acquire) && !Owed(log)
    ensures exists k :: i < k < |log| && IsReleaseAttempt(log[k])
  {
    var n := |log| - 1;
    if !IsReleaseAttempt(log[n]) {
      AcquireIsAnswered(log[..n], i);
      var k :| i < k < n && IsReleaseAttempt(log[..n][k]);
      assert IsReleaseAttempt(log[k]);
    }
  }

  /** Every attempt to go read-only, even a failed one, is answered by a release attempt in time. */
  ghost predicate ReadOnlyDiscipline(log: seq<Effect>) {
    forall i, j :: 0 <= i < j < |log| && log[i] == AttemptStarted(Acquire) && NeedsRelease(log[j]) ==>
      exists k :: i < k < j && IsReleaseAttempt(log[k])
  }

  lemma WindowIsClosedInTime(d: Dep)
    requires DepInv(d)
    ensures ReadOnlyDiscipline(d.log)
  {
    forall i, j | 0 <= i < j < |d.log| && d.log[i] == AttemptStarted(Acquire) && NeedsRelease(d.log[j])
      ensures exists k :: i < k < j && IsReleaseAttempt(d.log[k])
    {
      var before := d.log[..j];
      assert Allowed(d.plan, before, d.log[j]);
      AcquireIsAnswered(before, i);
      var k :| i < k < j && IsReleaseAttempt(before[k]);
      assert IsReleaseAttempt(d.log[k]);
    }
  }

  // ---- notification ----

  /** A run with a parent that returns or has returned has notified once, last of all, with the phase of its history. */
  predicate NotifiedOnce(d: Dep) {
    && (Reported(d.pc) && d.hasParent ==>
          && |d.history| >= 1 && |d.log| >= 1 && d.log[|d.log| - 1] == Notified(d.phase)
              && d.history[|d.history| - 1] == d.phase
          && Silent(d.log[..|d.log| - 1]))
    && (!Reported(d.pc) || !d.hasParent ==> Silent(d.log))
    && (Reported(d.pc) ==> d.phase == d.pc.final)
  }

  lemma NotificationIsUnique(d: Dep)
    requires DepInv(d)
    ensures NotifiedOnce(d)
  {
  }

  /** Nothing happens after a run has closed. */
  lemma ClosedIsFinal(d: Dep, app: App, ev: Event)
    requires d.pc.Closed?
    ensures !Enabled(d, app, ev)
  {
  }

  // ---- signals ----

  function ApprovalsSent(evs: seq<Event>): nat {
    if evs == [] then 0 else ApprovalsSent(evs[..|evs| - 1]) + if evs[|evs| - 1].SignalApprove? then 1 else 0
  }

  function RollbacksSent(evs: seq<Event>): nat {
    if evs == [] then 0 else RollbacksSent(evs[..|evs| - 1]) + if evs[|evs| - 1].SignalRollback? then 1 else 0
  }

  function ApprovalsUsed(log: seq<Effect>): nat {
    if log == [] then 0 else ApprovalsUsed(log[..|log| - 1]) + if log[|log| - 1].Approved? then 1 else 0
  }

  function RollbacksUsed(log: seq<Effect>): nat {
    if log == [] then 0 else RollbacksUsed(log[..|log| - 1]) + if log[|log| - 1].RollbackTaken? then 1 else 0
  }

  lemma UsedSnoc(log: seq<Effect>, e: Effect)
    ensures ApprovalsUsed(log + [e]) == ApprovalsUsed(log) + if e.Approved? then 1 else 0
    ensures RollbacksUsed(log + [e]) == RollbacksUsed(log) + if e.RollbackTaken? then 1 else 0
  {
    assert (log + [e])[..|log|] == log;
  }

  lemma UsedByMove(log: seq<Effect>, m: Move)
    ensures ApprovalsUsed(LogAfter(log, m)) == ApprovalsUsed(log) + if m.what.Approved? then 1 else 0
    ensures RollbacksUsed(LogAfter(log, m)) == RollbacksUsed(log) + if m.what.RollbackTaken? then 1 else 0
  {
    hide ApprovalsUsed, RollbacksUsed;
    var l := log + [m.what];
    UsedSnoc(log, m.what);
    if m.enter.Some? {
      UsedSnoc(l, Entered(m.enter.value));
    }
    if m.next.Run? {
      UsedSnoc(EnteredLog(l, m.enter), AttemptStarted(m.next.act));
    }
  }

  lemma WhatIsTaken(d: Dep, app: App, db: Database, ev: Event)
    requires Enabled(d, app, ev) && MoveOf(d, app, db, ev).Some?
    ensures var m := MoveOf(d, app, db, ev).value;
            && (m.what.Approved? <==> ev.TakeApproval?) && (m.what.RollbackTaken? <==> ev.TakeRollback?)
            && !ev.SignalApprove? && !ev.SignalRollback?
  {
    MoveIsOneOf(d, app, db, ev);
  }

  /** A gate uses up the signal that it takes, and nothing else does. */
  lemma StepUses(d: Dep, app: App, db: Database, ev: Event)
    requires Enabled(d, app, ev)
    ensures var d' := StepDep(d, app, db, ev);
            && d'.approvals + ApprovalsUsed(d'.log)
               == d.approvals + ApprovalsUsed(d.log) + (if ev.SignalApprove? then 1 else 0)
            && d'.rollbacks + RollbacksUsed(d'.log)
               == d.rollbacks + RollbacksUsed(d.log) + (if ev.SignalRollback? then 1 else 0)
  {
    hide ApprovalsUsed, RollbacksUsed, SuccessMove, FailureMove, ApprovalMove, RollbackMove, WorkDb, WorkPc, LogAfter;
    var m := MoveOf(d, app, db, ev);
    if m.Some? {
      UsedByMove(d.log, m.value);
      WhatIsTaken(d, app, db, ev);
    } else {
      match ev
      case Advance(count) => UsedSnoc(d.log, WorkLog(d, count));
      case TimerFires => UsedSnoc(d.log, ReadOnlyTimedOut);
      case SendNotify => UsedSnoc(d.log, Notified(d.pc.final));
      case _ =>
    }
  }

  /** Every signal sent is still queued or has been taken at one gate, once. */
  lemma {:induction false} SignalsAreConserved(d0: Dep, app: App, db: Database, evs: seq<Event>, d: Dep, db': Database)
    requires Exec(d0, app, db, evs) == Some((d, db'))
    ensures d.approvals + ApprovalsUsed(d.log) == d0.approvals + ApprovalsUsed(d0.log) + ApprovalsSent(evs)
    ensures d.rollbacks + RollbacksUsed(d.log) == d0.rollbacks + RollbacksUsed(d0.log) + RollbacksSent(evs)
  {
    if evs != [] {
      var mid := Exec(d0, app, db, evs[..|evs| - 1]).value;
      SignalsAreConserved(d0, app, db, evs[..|evs| - 1], mid.0, mid.1);
      StepUses(mid.0, app, mid.1, evs[|evs| - 1]);
      hide StepDep, StepDb, Enabled, ApprovalsUsed, RollbacksUsed;
    }
  }

  lemma {:induction false} KeysHoldApprovals(log: seq<Effect>)
    ensures ApprovalsUsed(Keys(log)) == ApprovalsUsed(log)
  {
    if log != [] {
      var front, e := log[..|log| - 1], log[|log| - 1];
      KeysHoldApprovals(front);
      UsedSnoc(Keys(front), e);
      assert Keys(front) + [] == Keys(front);
    }
  }

  lemma {:induction false} MoreIsUsed(log: seq<Effect>, n: nat)
    requires n <= |log|
    ensures ApprovalsUsed(log[..n]) <= ApprovalsUsed(log)
  {
    if n < |log| {
      MoreIsUsed(log[..|log| - 1], n);
      assert log[..|log| - 1][..n] == log[..n];
    } else {
      assert log[..n] == log;
    }
  }

  lemma {:induction false} FourOnThePath(keys: seq<Effect>, n: nat)
    requires n <= 11 && OnKeyPath(keys, n)
    ensures ApprovalsUsed(keys)
            == (if n > 1 then 1 else 0) + (if n > 5 then 1 else 0) + (if n > 8 then 1 else 0) + if n > 10 then 1 else 0
  {
    if n > 0 {
      FourOnThePath(keys[..n - 1], n - 1);
    }
  }

  /** Nothing of the contract is executed before four approvals have been sent. */
  lemma ContractNeedsFourApprovals(plan: Plan, hasParent: bool, app: App, db: Database, evs: seq<Event>, d: Dep,
      db': Database, i: nat)
    requires Exec(Start(plan, hasParent), app, db, evs) == Some((d, db'))
    requires i < |d.log| && Touches(d.log[i], Contract)
    ensures ApprovalsSent(evs) >= 4
  {
    RunsKeepInv(plan, hasParent, app, db, evs, d, db');
    SignalsAreConserved(Start(plan, hasParent), app, db, evs, d, db');
    NothingUsedYet(plan, hasParent);
    VerifiedBeforeContract(d, i);
    FourOnThePath(Keys(d.log[..i]), 11);
    KeysHoldApprovals(d.log[..i]);
    MoreIsUsed(d.log, i);
    hide *;
  }

  lemma NothingUsedYet(plan: Plan, hasParent: bool)
    ensures ApprovalsUsed(Start(plan, hasParent).log) == 0 && RollbacksUsed(Start(plan, hasParent).log) == 0
  {
    var l := [Entered(PlanReview)];
    assert Start(plan, hasParent).log == l + [AttemptStarted(Validate)] && [] + l == l;
    UsedSnoc([], l[0]);
    UsedSnoc(l, AttemptStarted(Validate));
  }
}
