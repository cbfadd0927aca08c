/**
 When a deployment completes. An activity whose attempts are not lost fails only for a reason in the plan, the
 application or the schema; so which plans can complete, and which do if nothing comes in between, can be told from
 the plan, the application and the schema it starts on.
 (internal/bluegreen/workflow.go, internal/bluegreen/activities.go)
 */
module DeploymentCompletion {
  import opened Wrappers
  import opened Schema
  import opened Deployment
  import opened DeploymentFacts
  import opened DeploymentData
  import opened DeploymentSchema
  import opened DeploymentWork

  // ---- why an attempt fails ----

  /** The attempt at hand ends here without success. */
  predicate Fails(d: Dep, app: App, db: Database, ev: Event)
    requires d.pc.Run? && Enabled(d, app, ev)
  {
    var log := StepDep(d, app, db, ev).log;
    |log| > |d.log| && log[|d.log|] == AttemptFailed(d.pc.act)
  }

  /** A plain DROP of a column that is not there. */
  predicate InError(s: Statement, cols: Columns) { s.DropColumn? && !s.ifExists && s.name !in cols }

  predicate StatementInError(stmts: seq<Statement>, pos: nat, cols: Columns) {
    pos < |stmts| && InError(stmts[pos], cols)
  }

  /** What can be wrong with the plan, the application or the schema at the step `ev`. */
  predicate HasReason(d: Dep, app: App, db: Database, ev: Event)
    requires d.pc.Run?
  {
    match d.pc.act
    case Validate => ev.Finish? && !ValidPlan(d.plan)
    case Expand => ev.Advance? && StatementInError(d.plan.expandSQL, d.pc.pos, db.columns)
    case Contract => ev.Advance? && StatementInError(d.plan.contractSQL, d.pc.pos, db.columns)
    case Rollback => ev.Advance? && StatementInError(d.plan.rollbackSQL, d.pc.pos, db.columns)
    case Verify =>
      ev.Advance? && d.pc.pos < |d.plan.verifyQueries|
      && (!ValidQuery(db.columns, d.plan.verifyQueries[d.pc.pos].query)
          || ev.count != d.plan.verifyQueries[d.pc.pos].wantCount)
    case CompatPre => ev.Finish? && !AllValid(db.columns, app.blue)
    case Acquire | Switch | Release | CompatFinal | VerifyContract | CompRelease => false
  }

  /** An attempt that is not lost fails if and only if there is a reason; six of the activities never do. */
  lemma FailsIffReason(d: Dep, app: App, db: Database, ev: Event)
    requires d.pc.Run? && Enabled(d, app, ev) && !ev.Interrupt?
    requires CheckExact(d.pc, app, db.columns)
    ensures Fails(d, app, db, ev) <==> HasReason(d, app, db, ev)
  {
    FailsIffLogged(d, app, db, ev);
    hide StepDep, Fails, HasReason, MoveOf;
    if ev.Finish? {
      FinishFails(d, app, db);
    } else if ev.Advance? {
      WorkFails(d, app, db, ev.count);
    } else {
      NothingFails(d, app, db, ev);
    }
  }

  lemma FinishFails(d: Dep, app: App, db: Database)
    requires d.pc.Run? && Enabled(d, app, Finish) && CheckExact(d.pc, app, db.columns)
    ensures var m := MoveOf(d, app, db, Finish);
            m.Some? && m.value.what == AttemptFailed(d.pc.act) <==> HasReason(d, app, db, Finish)
  {
    if IsCompat(d.pc.act) {
      FinishedCheck(d, app, db);
    }
    hide ValidPlan, CheckExact, AllValid;
  }

  lemma WorkFails(d: Dep, app: App, db: Database, count: int)
    requires d.pc.Run? && Enabled(d, app, Advance(count))
    ensures var m := MoveOf(d, app, db, Advance(count));
            m.Some? && m.value.what == AttemptFailed(d.pc.act) <==> HasReason(d, app, db, Advance(count))
  {
  }

  lemma NothingFails(d: Dep, app: App, db: Database, ev: Event)
    requires d.pc.Run? && Enabled(d, app, ev) && !ev.Finish? && !ev.Advance? && !ev.Interrupt?
    ensures MoveOf(d, app, db, ev).None? && !HasReason(d, app, db, ev)
  {
  }

  lemma FailsIffLogged(d: Dep, app: App, db: Database, ev: Event)
    requires d.pc.Run? && Enabled(d, app, ev)
    ensures Fails(d, app, db, ev) <==>
            MoveOf(d, app, db, ev).Some? && MoveOf(d, app, db, ev).value.what == AttemptFailed(d.pc.act)
  {
    var m := MoveOf(d, app, db, ev);
    if m.Some? {
      assert LogAfter(d.log, m.value)[|d.log|] == m.value.what;
    }
    hide SuccessMove, FailureMove, WorkDb, WorkPc;
  }

  // ---- statement lists that are in error ----

  predicate Runs(cols: Columns, stmts: seq<Statement>) { After(cols, stmts, |stmts|).Some? }

  /** The first attempt is in error at statement `i`. */
  predicate FirstErrorAt(start: Columns, stmts: seq<Statement>, i: nat) {
    i < |stmts| && After(start, stmts, i).Some? && After(start, stmts, i + 1).None?
  }

  lemma {:induction false} FindError(start: Columns, stmts: seq<Statement>, n: nat) returns (i: nat)
    requires n <= |stmts| && After(start, stmts, n).None?
    ensures i < n && FirstErrorAt(start, stmts, i)
  {
    if After(start, stmts, n - 1).Some? {
      i := n - 1;
    } else {
      i := FindError(start, stmts, n - 1);
    }
  }

  lemma {:induction false} PresentInPrefix(cols: Columns, stmts: seq<Statement>, i: nat, n: nat, c: string)
    requires n <= i <= |stmts|
    ensures Present(cols, stmts[..i], n, c) == Present(cols, stmts, n, c)
  {
    if n > 0 {
      PresentInPrefix(cols, stmts, i, n - 1, c);
    }
  }

  /** No attempt has got past the statement at which the first one is in error. */
  ghost predicate NeverPast(stmts: seq<Statement>, start: Columns, cols: Columns, n: nat)
    requires n <= |stmts|
  {
    forall i: nat | FirstErrorAt(start, stmts, i) :: n <= i && PartlyExecuted(stmts[..i], start, cols, n)
  }

  lemma NeverPastTheEnd(stmts: seq<Statement>, start: Columns, cols: Columns)
    requires NeverPast(stmts, start, cols, |stmts|)
    ensures Runs(start, stmts)
  {
    if !Runs(start, stmts) {
      var i := FindError(start, stmts, |stmts|);
    }
  }

  /** Whatever was lost before: an attempt that reaches that statement is in error there again. */
  lemma ErrorComesBack(stmts: seq<Statement>, start: Columns, cols: Columns, i: nat)
    requires FirstErrorAt(start, stmts, i) && PartlyExecuted(stmts[..i], start, cols, i)
    ensures ApplyDdl(cols, stmts[i]).None?
  {
    var c := stmts[i].name;
    AfterIsPresent(start, stmts, i, c);
    PresentInPrefix(start, stmts, i, i, c);
    assert c in cols <==> Present(start, stmts[..i], i, c);
  }

  lemma NeverPastNext(stmts: seq<Statement>, start: Columns, cols: Columns, n: nat)
    requires n < |stmts| && NeverPast(stmts, start, cols, n) && ApplyDdl(cols, stmts[n]).Some?
    ensures NeverPast(stmts, start, ApplyDdl(cols, stmts[n]).value, n + 1)
  {
    hide PartlyExecuted;
    forall i: nat | FirstErrorAt(start, stmts, i)
      ensures n + 1 <= i && PartlyExecuted(stmts[..i], start, ApplyDdl(cols, stmts[n]).value, n + 1)
    {
      if n == i {
        ErrorComesBack(stmts, start, cols, i);
      } else {
        NextStatement(stmts[..i], start, cols, n);
      }
    }
  }

  lemma NeverPastAgain(stmts: seq<Statement>, start: Columns, cols: Columns, n: nat)
    requires n <= |stmts| && NeverPast(stmts, start, cols, n)
    ensures NeverPast(stmts, start, cols, 0)
  {
    hide PartlyExecuted;
    forall i: nat | FirstErrorAt(start, stmts, i) ensures PartlyExecuted(stmts[..i], start, cols, 0) {
      NextAttempt(stmts[..i], start, cols, n);
    }
  }

  lemma NeverPastAtFirst(stmts: seq<Statement>, start: Columns)
    ensures NeverPast(stmts, start, start, 0)
  {
  }

  // ---- what a completed deployment has shown ----

  predicate QueriesValid(plan: Plan, cols: Columns, n: nat)
    requires n <= |plan.verifyQueries|
  {
    forall i :: 0 <= i < n ==> ValidQuery(cols, plan.verifyQueries[i].query)
  }

  /** What it takes, of the plan, the application and the schema it starts on. */
  predicate Completable(plan: Plan, app: App, start: Columns) {
    && ValidPlan(plan) && Runs(start, plan.expandSQL)
    && QueriesValid(plan, Expanded(plan, start), |plan.verifyQueries|)
    && AllValid(Expanded(plan, start), app.blue) && AllValid(Expanded(plan, start), app.green)
    && Runs(Expanded(plan, start), plan.contractSQL)
  }

  /** How many of these a deployment has shown that stands here. */
  function Shown(pc: Pc): nat {
    match pc
    case Run(act, _, _, _, _) =>
      (match act
       case Validate | CompRelease | Rollback => 0
       case Expand => 1
       case Verify => 2
       case CompatPre => 3
       case Acquire | Switch | Release | CompatFinal => 4
       case Contract => 5
       case VerifyContract => 6)
    case Gate(g) => if g.PlanGate? then 1 else if g.ContractGate? then 5 else 4
    case Notify(f) => if f.Complete? then 6 else 0
    case Returning(f) => if f.Complete? then 6 else 0
    case Closed(f) => if f.Complete? then 6 else 0
  }

  predicate ShownFits(plan: Plan, app: App, start: Columns, n: nat) {
    && (n >= 1 ==> ValidPlan(plan))
    && (n >= 2 ==> Runs(start, plan.expandSQL))
    && (n >= 3 ==> QueriesValid(plan, Expanded(plan, start), |plan.verifyQueries|))
    && (n >= 4 ==> AllValid(Expanded(plan, start), app.blue))
    && (n >= 5 ==> AllValid(Expanded(plan, start), app.green))
    && (n >= 6 ==> Runs(Expanded(plan, start), plan.contractSQL))
  }

  /** What the attempt at hand has shown so far. */
  ghost predicate Underway(plan: Plan, start: Columns, pc: Pc, cols: Columns) {
    && (pc.Run? && pc.act.Expand? ==> pc.pos <= |plan.expandSQL| && NeverPast(plan.expandSQL, start, cols, pc.pos))
    && (pc.Run? && pc.act.Contract? ==>
          pc.pos <= |plan.contractSQL| && NeverPast(plan.contractSQL, Expanded(plan, start), cols, pc.pos))
    && (pc.Run? && pc.act.Verify? ==>
          pc.pos <= |plan.verifyQueries| && QueriesValid(plan, Expanded(plan, start), pc.pos))
  }

  ghost predicate ShownOk(d: Dep, app: App, start: Columns, cols: Columns) {
    && ShownFits(d.plan, app, start, Shown(d.pc)) && Underway(d.plan, start, d.pc, cols)
    && SchemaOk(d, start, cols) && ChecksOk(d, app, cols)
  }

  /** A move shows at most one thing more, and that only when the activity has finished. */
  predicate ShowMove(d: Dep, m: Move) {
    && (Shown(m.next) > Shown(d.pc) ==> Shown(m.next) == Shown(d.pc) + 1)
    && (m.next.Run? ==> m.next.pos == 0)
    && (m.next.Run? && m.next.act.Expand? ==> Untouched(d.pc) || (d.pc.Run? && d.pc.act.Expand?))
    && (m.next.Run? && m.next.act.Contract? ==> d.pc == Gate(ContractGate) || (d.pc.Run? && d.pc.act.Contract?))
  }

  lemma SuccessShows(d: Dep)
    requires d.pc.Run?
    ensures ShowMove(d, SuccessMove(d.pc, d.readOnlyTimedOut, d.trafficSwitched))
    ensures var m := SuccessMove(d.pc, d.readOnlyTimedOut, d.trafficSwitched);
            Shown(m.next) > Shown(d.pc) ==>
              || d.pc.act.Validate? || d.pc.act.Expand? || d.pc.act.Verify? || d.pc.act.CompatPre?
              || (d.pc.act.CompatFinal? && d.pc.greenOk) || d.pc.act.Contract?
  {
  }

  lemma FailureShowsNothing(d: Dep)
    requires d.pc.Run?
    ensures var m := FailureMove(d.pc, d.readOnlyTimedOut, d.trafficSwitched);
            ShowMove(d, m) && Shown(m.next) <= Shown(d.pc)
  {
  }

  lemma GateShowsNothing(d: Dep)
    requires d.pc.Gate?
    ensures ShowMove(d, ApprovalMove(d.pc.gate, d.rollbackRequested)) && ShowMove(d, RollbackMove(d.pc.gate))
    ensures Shown(ApprovalMove(d.pc.gate, d.rollbackRequested).next) <= Shown(d.pc)
    ensures Shown(RollbackMove(d.pc.gate).next) <= Shown(d.pc)
  {
  }

  /** An activity that has finished has shown its part. */
  lemma FinishShows(d: Dep, app: App, db: Database, start: Columns)
    requires ShownOk(d, app, start, db.columns) && Enabled(d, app, Finish) && Reports(d)
    ensures ShownFits(d.plan, app, start, Shown(SuccessMove(d.pc, d.readOnlyTimedOut, d.trafficSwitched).next))
  {
    SuccessShows(d);
    hide NeverPast, Expanded, ContractRan, PartlyExecuted, Transformed, Runs, SuccessMove, ValidPlan;
    match d.pc.act
    case Expand => NeverPastTheEnd(d.plan.expandSQL, start, db.columns);
    case Contract => NeverPastTheEnd(d.plan.contractSQL, Expanded(d.plan, start), db.columns);
    case CompatPre => FinishedCheck(d, app, db);
    case CompatFinal => FinishedCheck(d, app, db);
    case Validate => assert ValidPlan(d.plan);
    case _ =>
  }

  lemma MoveShows(d: Dep, app: App, db: Database, ev: Event, start: Columns)
    requires ShownOk(d, app, start, db.columns) && Enabled(d, app, ev) && MoveOf(d, app, db, ev).Some?
    ensures var m := MoveOf(d, app, db, ev).value;
            ShowMove(d, m) && ShownFits(d.plan, app, start, Shown(m.next))
  {
    hide NeverPast, Expanded, ContractRan, PartlyExecuted, Transformed, Runs, SuccessMove, FailureMove, ApprovalMove;
    hide ValidPlan, QueriesValid, SchemaOk, ChecksOk, Underway, Shown, AllValid;
    if d.pc.Run? {
      if ev.Finish? && Reports(d) {
        FinishShows(d, app, db, start);
        SuccessShows(d);
      } else {
        FailureShowsNothing(d);
        FewerShown(d.plan, app, start, Shown(d.pc),
            Shown(FailureMove(d.pc, d.readOnlyTimedOut, d.trafficSwitched).next));
      }
    } else {
      GateShowsNothing(d);
      FewerShown(d.plan, app, start, Shown(d.pc), Shown(ApprovalMove(d.pc.gate, d.rollbackRequested).next));
      FewerShown(d.plan, app, start, Shown(d.pc), Shown(RollbackMove(d.pc.gate).next));
    }
  }

  lemma FewerShown(plan: Plan, app: App, start: Columns, n: nat, m: nat)
    requires ShownFits(plan, app, start, n) && m <= n
    ensures ShownFits(plan, app, start, m)
  {
  }

  lemma UnderwayAfterMove(d: Dep, start: Columns, cols: Columns, m: Move)
    requires Underway(d.plan, start, d.pc, cols) && ShowMove(d, m) && SchemaOk(d, start, cols)
    ensures Underway(d.plan, start, m.next, cols)
  {
    hide NeverPast, Expanded, ContractRan, PartlyExecuted, Transformed;
    if d.pc.Run? && d.pc.act.Expand? {
      NeverPastAgain(d.plan.expandSQL, start, cols, d.pc.pos);
    } else {
      NeverPastAtFirst(d.plan.expandSQL, start);
    }
    if d.pc.Run? && d.pc.act.Contract? {
      NeverPastAgain(d.plan.contractSQL, Expanded(d.plan, start), cols, d.pc.pos);
    } else {
      NeverPastAtFirst(d.plan.contractSQL, Expanded(d.plan, start));
    }
  }

  lemma UnderwayAfterWork(d: Dep, app: App, db: Database, count: int, start: Columns)
    requires Underway(d.plan, start, d.pc, db.columns) && SchemaOk(d, start, db.columns)
    requires Enabled(d, app, Advance(count)) && WorkDb(d, app, db, count).Some?
    ensures Underway(d.plan, start, WorkPc(d, app, db), WorkDb(d, app, db, count).value.columns)
  {
    hide NeverPast, Expanded, ContractRan, PartlyExecuted, Transformed;
    SameAct(d, app, db);
    match d.pc.act
    case Expand =>
      NeverPastNext(d.plan.expandSQL, start, db.columns, d.pc.pos);
      assert WorkPc(d, app, db).pos == d.pc.pos + 1;
    case Contract =>
      NeverPastNext(d.plan.contractSQL, Expanded(d.plan, start), db.columns, d.pc.pos);
      assert WorkPc(d, app, db).pos == d.pc.pos + 1;
    case Verify => assert WorkPc(d, app, db).pos == d.pc.pos + 1;
    case _ =>
  }

  lemma ShownKept(d: Dep, app: App, db: Database, ev: Event, start: Columns)
    requires ShownOk(d, app, start, db.columns) && Enabled(d, app, ev)
    ensures ShownOk(StepDep(d, app, db, ev), app, start, StepDb(d, app, db, ev).columns)
  {
    SchemaKept(d, app, db, ev, start);
    ChecksKept(d, app, db, ev);
    ColumnsChangeOnlyBySql(d, app, db, ev);
    hide NeverPast, ContractRan, SchemaFits, ChecksHold, ShownFits, Underway;
    var m := MoveOf(d, app, db, ev);
    if m.Some? {
      MoveShows(d, app, db, ev, start);
      UnderwayAfterMove(d, start, db.columns, m.value);
      assert StepDb(d, app, db, ev).columns == db.columns;
    } else if ev.Advance? {
      SameAct(d, app, db);
      UnderwayAfterWork(d, app, db, ev.count, start);
    } else {
      QuietShows(d, app, db, ev, start);
    }
  }

  lemma QuietShows(d: Dep, app: App, db: Database, ev: Event, start: Columns)
    requires Enabled(d, app, ev) && MoveOf(d, app, db, ev).None? && !ev.Advance?
    requires ShownFits(d.plan, app, start, Shown(d.pc)) && Underway(d.plan, start, d.pc, db.columns)
    ensures ShownFits(d.plan, app, start, Shown(Quiet(d, app, db, ev).pc))
    ensures Underway(d.plan, start, Quiet(d, app, db, ev).pc, db.columns)
  {
    hide NeverPast, ShownFits;
  }

  lemma StartShown(plan: Plan, hasParent: bool, app: App, cols: Columns)
    ensures ShownOk(Start(plan, hasParent), app, cols, cols) && PcFits(Start(plan, hasParent), app)
  {
  }

  /** Whatever was lost on the way, and whatever else came in between: what has completed was completable. */
  lemma {:induction false} CompletionNeeds(plan: Plan, hasParent: bool, app: App, db: Database, evs: seq<Event>, d: Dep,
      db': Database)
    requires Exec(Start(plan, hasParent), app, db, evs) == Some((d, db'))
    ensures d.plan == plan && ShownOk(d, app, db.columns, db'.columns) && PcFits(d, app)
    ensures Ending(d.pc) && d.pc.final == Complete ==> Completable(plan, app, db.columns)
  {
    hide Underway, SchemaOk, ChecksOk, ValidPlan, Expanded, AllValid, QueriesValid, PcFits;
    if evs == [] {
      StartShown(plan, hasParent, app, db.columns);
    } else {
      var mid, ev := Exec(Start(plan, hasParent), app, db, evs[..|evs| - 1]).value, evs[|evs| - 1];
      CompletionNeeds(plan, hasParent, app, db, evs[..|evs| - 1], mid.0, mid.1);
      ShownKept(mid.0, app, mid.1, ev, db.columns);
      WorkDecreases(mid.0, app, mid.1, ev);
      PlanStays(mid.0, app, mid.1, ev);
      hide StepDep, StepDb, Enabled;
    }
  }

  lemma PlanStays(d: Dep, app: App, db: Database, ev: Event)
    requires Enabled(d, app, ev)
    ensures StepDep(d, app, db, ev).plan == d.plan && StepDep(d, app, db, ev).hasParent == d.hasParent
  {
  }

  /** What a plan needs before anything is done with it. */
  predicate LacksSomething(p: Plan) {
    || p.id == "" || p.expandSQL == [] || p.contractSQL == [] || p.rollbackSQL == []
    || exists i :: 0 <= i < |p.verifyQueries| && p.verifyQueries[i].query.text == ""
  }

  /** A plan that lacks something never touches the schema and never gets to a gate: all it can do is fail. */
  lemma {:induction false} LackingPlansDoNothing(plan: Plan, hasParent: bool, app: App, db: Database, evs: seq<Event>,
      d: Dep, db': Database)
    requires LacksSomething(plan) && Exec(Start(plan, hasParent), app, db, evs) == Some((d, db'))
    ensures d.plan == plan && db' == db
    ensures (d.pc.Run? && d.pc.act.Validate?) || (Ending(d.pc) && d.pc.final.Failed?)
  {
    if evs != [] {
      var mid, ev := Exec(Start(plan, hasParent), app, db, evs[..|evs| - 1]).value, evs[|evs| - 1];
      LackingPlansDoNothing(plan, hasParent, app, db, evs[..|evs| - 1], mid.0, mid.1);
      PlanStays(mid.0, app, mid.1, ev);
      LackingStep(mid.0, app, mid.1, ev);
      hide StepDep, StepDb, Enabled;
    }
  }

  lemma LackingStep(d: Dep, app: App, db: Database, ev: Event)
    requires LacksSomething(d.plan) && Enabled(d, app, ev)
    requires (d.pc.Run? && d.pc.act.Validate?) || (Ending(d.pc) && d.pc.final.Failed?)
    ensures var pc := StepDep(d, app, db, ev).pc;
            (pc.Run? && pc.act.Validate?) || (Ending(pc) && pc.final.Failed?)
    ensures StepDb(d, app, db, ev) == db
  {
    assert !ValidPlan(d.plan);
    hide ValidPlan, LacksSomething;
  }

  // ---- a run in which nothing comes in between ----

  /** A verify query returns the count that the plan wants. */
  predicate Wanted(d: Dep, ev: Event) {
    ev.Advance? && d.pc.Run? && d.pc.act.Verify? && d.pc.pos < |d.plan.verifyQueries| ==>
      ev.count == d.plan.verifyQueries[d.pc.pos].wantCount
  }

  /** No attempt is lost, the read-only timer is silent, no rollback is taken, and counts are as wanted. */
  predicate Calm(d: Dep, ev: Event) { !ev.Interrupt? && !ev.TimerFires? && !ev.TakeRollback? && Wanted(d, ev) }

  predicate Smooth(d: Dep, app: App, db: Database, evs: seq<Event>) {
    evs == [] ||
    (&& Smooth(d, app, db, evs[..|evs| - 1])
     && match Exec(d, app, db, evs[..|evs| - 1])
        case None => true
        case Some((d', _)) => Calm(d', evs[|evs| - 1]))
  }

  /** Ahead, with everything executed so far executed at the first attempt. */
  predicate OnTrack(d: Dep, start: Columns, cols: Columns) {
    && !d.rollbackRequested && !d.readOnlyTimedOut
    && (Forward(d.pc) || (Ending(d.pc) && d.pc.final.Complete?))
    && (d.pc.Run? && d.pc.act.Release? ==> d.trafficSwitched)
    && (d.pc.Run? && d.pc.act.Expand? ==>
          d.pc.pos <= |d.plan.expandSQL| && After(start, d.plan.expandSQL, d.pc.pos) == Some(cols))
    && (d.pc.Run? && d.pc.act.Contract? ==>
          d.pc.pos <= |d.plan.contractSQL|
          && After(Expanded(d.plan, start), d.plan.contractSQL, d.pc.pos) == Some(cols))
  }

  /** The list runs as a whole, so its next statement is not in error. */
  lemma NextRuns(stmts: seq<Statement>, start: Columns, cols: Columns, n: nat)
    requires n < |stmts| && Runs(start, stmts) && After(start, stmts, n) == Some(cols)
    ensures ApplyDdl(cols, stmts[n]).Some? && After(start, stmts, n + 1) == ApplyDdl(cols, stmts[n])
  {
    PrefixesRun(start, stmts, n + 1, |stmts|);
  }

  /** If the deployment can complete, no step of a calm run has a reason to fail. */
  lemma NoReason(d: Dep, app: App, db: Database, ev: Event, start: Columns)
    requires Completable(d.plan, app, start) && OnTrack(d, start, db.columns) && ShownOk(d, app, start, db.columns)
    requires d.pc.Run? && Enabled(d, app, ev) && Calm(d, ev)
    ensures !HasReason(d, app, db, ev)
    ensures ev.Advance? && d.pc.act.Expand? ==>
              After(start, d.plan.expandSQL, d.pc.pos + 1) == ApplyDdl(db.columns, d.plan.expandSQL[d.pc.pos])
    ensures ev.Advance? && d.pc.act.Contract? ==>
              After(Expanded(d.plan, start), d.plan.contractSQL, d.pc.pos + 1)
              == ApplyDdl(db.columns, d.plan.contractSQL[d.pc.pos])
  {
    hide Transformed, PartlyExecuted, NeverPast, ValidPlan, ContractRan;
    if ev.Advance? && d.pc.act.Expand? {
      NextRuns(d.plan.expandSQL, start, db.columns, d.pc.pos);
    } else if ev.Advance? && d.pc.act.Contract? {
      NextRuns(d.plan.contractSQL, Expanded(d.plan, start), db.columns, d.pc.pos);
    }
  }

  /** Without a reason, the step is work done or the end of a successful attempt. */
  lemma Succeeds(d: Dep, app: App, db: Database, ev: Event)
    requires d.pc.Run? && Enabled(d, app, ev) && !ev.Interrupt? && CheckExact(d.pc, app, db.columns)
    requires !HasReason(d, app, db, ev)
    ensures var m := MoveOf(d, app, db, ev);
            m.Some? ==> ev.Finish? && Reports(d)
                        && m.value == SuccessMove(d.pc, d.readOnlyTimedOut, d.trafficSwitched)
    ensures ev.Advance? ==> WorkDb(d, app, db, ev.count).Some?
  {
    if ev.Finish? && IsCompat(d.pc.act) {
      FinishedCheck(d, app, db);
    }
  }

  lemma SuccessStaysOnTrack(d: Dep, app: App, db: Database, start: Columns)
    requires Completable(d.plan, app, start) && OnTrack(d, start, db.columns) && ShownOk(d, app, start, db.columns)
    requires Enabled(d, app, Finish)
    ensures OnTrack(Apply(d, SuccessMove(d.pc, d.readOnlyTimedOut, d.trafficSwitched)), start, db.columns)
  {
    hide Transformed, PartlyExecuted, NeverPast, ValidPlan, ContractRan, LogAfter;
    if IsCompat(d.pc.act) {
      FinishedCheck(d, app, db);
    }
  }

  lemma ApprovalStaysOnTrack(d: Dep, app: App, start: Columns, cols: Columns)
    requires OnTrack(d, start, cols) && ShownOk(d, app, start, cols) && d.pc.Gate?
    ensures OnTrack(Apply(d, ApprovalMove(d.pc.gate, d.rollbackRequested)), start, cols)
  {
    hide Transformed, PartlyExecuted, NeverPast, ValidPlan, ContractRan, LogAfter;
  }

  lemma WorkStaysOnTrack(d: Dep, app: App, db: Database, count: int, start: Columns)
    requires Completable(d.plan, app, start) && OnTrack(d, start, db.columns) && ShownOk(d, app, start, db.columns)
    requires Enabled(d, app, Advance(count)) && Calm(d, Advance(count)) && WorkDb(d, app, db, count).Some?
    ensures OnTrack(Quiet(d, app, db, Advance(count)), start, WorkDb(d, app, db, count).value.columns)
  {
    NoReason(d, app, db, Advance(count), start);
    SameAct(d, app, db);
    hide Transformed, PartlyExecuted, NeverPast, ValidPlan, ContractRan, Expanded, ShownFits, SchemaOk, ChecksOk;
    if IsSql(d.pc.act) {
      assert WorkPc(d, app, db).pos == d.pc.pos + 1;
    }
  }

  /** A calm step of a deployment that can complete keeps it on track. */
  lemma StaysOnTrack(d: Dep, app: App, db: Database, ev: Event, start: Columns)
    requires Completable(d.plan, app, start) && OnTrack(d, start, db.columns) && ShownOk(d, app, start, db.columns)
    requires Enabled(d, app, ev) && Calm(d, ev)
    ensures OnTrack(StepDep(d, app, db, ev), start, StepDb(d, app, db, ev).columns)
  {
    hide Completable, ShownFits, Underway, SchemaOk, WorkDb, WorkPc, SuccessMove, FailureMove, ApprovalMove, LogAfter;
    if d.pc.Run? && (ev.Advance? || ev.Finish?) {
      NoReason(d, app, db, ev, start);
      Succeeds(d, app, db, ev);
      if ev.Finish? {
        SuccessStaysOnTrack(d, app, db, start);
      } else {
        WorkStaysOnTrack(d, app, db, ev.count, start);
      }
    } else if ev.TakeApproval? {
      ApprovalStaysOnTrack(d, app, start, db.columns);
    }
  }

  lemma {:induction false} SmoothStaysOnTrack(plan: Plan, hasParent: bool, app: App, db: Database, evs: seq<Event>,
      d: Dep, db': Database)
    requires Exec(Start(plan, hasParent), app, db, evs) == Some((d, db')) && Completable(plan, app, db.columns)
    requires Smooth(Start(plan, hasParent), app, db, evs)
    ensures OnTrack(d, db.columns, db'.columns)
  {
    if evs != [] {
      var mid, ev := Exec(Start(plan, hasParent), app, db, evs[..|evs| - 1]).value, evs[|evs| - 1];
      SmoothStaysOnTrack(plan, hasParent, app, db, evs[..|evs| - 1], mid.0, mid.1);
      CompletionNeeds(plan, hasParent, app, db, evs[..|evs| - 1], mid.0, mid.1);
      StaysOnTrack(mid.0, app, mid.1, ev, db.columns);
      hide OnTrack, Completable, ShownOk, Enabled, StepDep, StepDb;
    }
  }

  /**
   A run in which nothing comes in between (no attempt lost, timer silent, no rollback taken, counts as wanted) and
   which has ended has completed if and only if the plan, the application and the schema allow it.
   */
  lemma CompletesIff(plan: Plan, hasParent: bool, app: App, db: Database, evs: seq<Event>, d: Dep, db': Database)
    requires Exec(Start(plan, hasParent), app, db, evs) == Some((d, db'))
    requires Smooth(Start(plan, hasParent), app, db, evs) && Ending(d.pc)
    ensures d.pc.final == Complete <==> Completable(plan, app, db.columns)
  {
    CompletionNeeds(plan, hasParent, app, db, evs, d, db');
    if Completable(plan, app, db.columns) {
      SmoothStaysOnTrack(plan, hasParent, app, db, evs, d, db');
    }
    hide Completable, ShownOk;
  }

  // ---- such runs exist ----

  function NextCalm(d: Dep, app: App): Event {
    match d.pc
    case Run(act, _, pos, _, _) =>
      if pos == Len(act, d.plan, app) then Finish
      else Advance(if act.Verify? && pos < |d.plan.verifyQueries| then d.plan.verifyQueries[pos].wantCount else 0)
    case Gate(_) => if d.approvals > 0 then TakeApproval else SignalApprove
    case Notify(_) => SendNotify
    case _ => Return
  }

  lemma NextIsCalm(d: Dep, app: App)
    requires PcFits(d, app) && !d.pc.Closed?
    ensures Enabled(d, app, NextCalm(d, app)) && Calm(d, NextCalm(d, app))
  {
  }

  lemma OneMoreCalm(d0: Dep, app: App, db0: Database, evs: seq<Event>, d: Dep, db: Database, ev: Event)
    requires Exec(d0, app, db0, evs) == Some((d, db)) && Smooth(d0, app, db0, evs) && Enabled(d, app, ev) && Calm(d, ev)
    ensures Exec(d0, app, db0, evs + [ev]) == Some((StepDep(d, app, db, ev), StepDb(d, app, db, ev)))
    ensures Smooth(d0, app, db0, evs + [ev])
  {
    assert (evs + [ev])[..|evs|] == evs;
  }

  /** Any calm run can go on calmly until it has returned. */
  lemma {:induction false} GoesOn(d0: Dep, app: App, db0: Database, evs: seq<Event>, d: Dep, db: Database)
    returns (evs': seq<Event>, d': Dep, db': Database)
    requires Exec(d0, app, db0, evs) == Some((d, db)) && Smooth(d0, app, db0, evs) && PcFits(d, app)
    ensures Exec(d0, app, db0, evs') == Some((d', db')) && Smooth(d0, app, db0, evs') && d'.pc.Closed?
    decreases if PcFits(d, app) then Work(d, app) else 0, if d.approvals == 0 then 1 else 0
  {
    if d.pc.Closed? {
      evs', d', db' := evs, d, db;
    } else {
      var ev := NextCalm(d, app);
      NextIsCalm(d, app);
      OneMoreCalm(d0, app, db0, evs, d, db, ev);
      WorkDecreases(d, app, db, ev);
      WorkIsNatural(d, app);
      WorkIsNatural(StepDep(d, app, db, ev), app);
      SignalsQueue(d, app, db);
      hide StepDep, StepDb, Enabled, Exec, Smooth, Calm, Work;
      evs', d', db' := GoesOn(d0, app, db0, evs + [ev], StepDep(d, app, db, ev), StepDb(d, app, db, ev));
    }
  }

  lemma SignalsQueue(d: Dep, app: App, db: Database)
    requires !d.pc.Closed?
    ensures StepDep(d, app, db, SignalApprove).approvals == d.approvals + 1
  {
  }

  /** Some run, calm or not, ends in complete. */
  ghost predicate CanComplete(plan: Plan, hasParent: bool, app: App, db: Database) {
    exists evs :: Completes(plan, hasParent, app, db, evs)
  }

  predicate Completes(plan: Plan, hasParent: bool, app: App, db: Database, evs: seq<Event>) {
    match Exec(Start(plan, hasParent), app, db, evs)
    case None => false
    case Some((d, _)) => d.pc == Closed(Complete)
  }

  /**
   A deployment can complete if and only if its plan is valid, its expand runs on the schema it starts on, and on what
   that makes of it the verify queries, blue and green are valid and its contract runs. Then a run completes in which
   nothing comes in between. Losing attempts never helps.
   */
  lemma CompletableIff(plan: Plan, hasParent: bool, app: App, db: Database)
    ensures CanComplete(plan, hasParent, app, db) <==> Completable(plan, app, db.columns)
    ensures Completable(plan, app, db.columns) ==>
              exists evs :: Completes(plan, hasParent, app, db, evs) && Smooth(Start(plan, hasParent), app, db, evs)
  {
    hide Completable, Smooth;
    if CanComplete(plan, hasParent, app, db) {
      var evs :| Completes(plan, hasParent, app, db, evs);
      var r := Exec(Start(plan, hasParent), app, db, evs).value;
      CompletionNeeds(plan, hasParent, app, db, evs, r.0, r.1);
    }
    if Completable(plan, app, db.columns) {
      var evs := CompletesCalmly(plan, hasParent, app, db);
    }
  }

  lemma CompletesCalmly(plan: Plan, hasParent: bool, app: App, db: Database) returns (evs: seq<Event>)
    requires Completable(plan, app, db.columns)
    ensures Completes(plan, hasParent, app, db, evs) && Smooth(Start(plan, hasParent), app, db, evs)
  {
    var d0 := Start(plan, hasParent);
    assert Exec(d0, app, db, []) == Some((d0, db)) && Smooth(d0, app, db, []);
    StartShown(plan, hasParent, app, db.columns);
    hide Completable, Smooth, Exec;
    var d, db';
    evs, d, db' := GoesOn(d0, app, db, [], d0, db);
    CompletesIff(plan, hasParent, app, db, evs, d, db');
  }
}
