/**
 What a deployment makes of the schema, however many of its attempts are lost and wherever: from the success of the
 expand until the first contract statement the schema is what the expand list makes of the starting one, and from the
 success of the contract on what the contract list makes of that.
 */
module DeploymentSchema {
  import opened Schema
  import opened Deployment
  import opened DeploymentFacts
  import opened DeploymentData

  /** The expand has succeeded, and no contract statement has taken effect since. */
  predicate PastExpand(pc: Pc, ran: bool) {
    match pc
    case Gate(g) => !g.PlanGate?
    case Run(act, _, _, _, _) =>
      act.Verify? || act.CompatPre? || act.Acquire? || act.Switch? || act.Release? || act.CompatFinal?
      || (act.Contract? && !ran)
    case _ => false
  }

  /** The contract has succeeded. */
  predicate PastContract(pc: Pc) { (pc.Run? && pc.act.VerifyContract?) || (Ending(pc) && pc.final.Complete?) }

  /** The schema after the expand, and after the contract, of a deployment that starts on `start`. */
  function Expanded(plan: Plan, start: Columns): Columns { Transformed(start, plan.expandSQL) }

  function Migrated(plan: Plan, start: Columns): Columns { Transformed(Expanded(plan, start), plan.contractSQL) }

  /**
   The attempt at hand has executed `n` statements. It has settled every column they mention; of the others, earlier
   attempts can have touched only what the list mentions later on.
   */
  ghost predicate PartlyExecuted(stmts: seq<Statement>, start: Columns, cols: Columns, n: nat)
    requires n <= |stmts|
  {
    forall c :: Mentions(stmts, n, c) || !Mentions(stmts, |stmts|, c) ==> (c in cols <==> Present(start, stmts, n, c))
  }

  lemma NextStatement(stmts: seq<Statement>, start: Columns, cols: Columns, n: nat)
    requires n < |stmts| && PartlyExecuted(stmts, start, cols, n) && ApplyDdl(cols, stmts[n]).Some?
    ensures PartlyExecuted(stmts, start, ApplyDdl(cols, stmts[n]).value, n + 1)
  {
    var cols' := ApplyDdl(cols, stmts[n]).value;
    forall c | Mentions(stmts, n + 1, c) || !Mentions(stmts, |stmts|, c)
      ensures c in cols' <==> Present(start, stmts, n + 1, c)
    {
      if stmts[n].Other? || stmts[n].name != c {
        assert Mentions(stmts, n + 1, c) ==> Mentions(stmts, n, c);
      }
    }
  }

  /** A lost attempt leaves the next one what it needs. */
  lemma NextAttempt(stmts: seq<Statement>, start: Columns, cols: Columns, n: nat)
    requires n <= |stmts| && PartlyExecuted(stmts, start, cols, n)
    ensures PartlyExecuted(stmts, start, cols, 0)
  {
    forall c | !Mentions(stmts, |stmts|, c) ensures c in cols <==> c in start {
      UnmentionedStays(start, stmts, n, c);
    }
  }

  lemma FirstAttempt(stmts: seq<Statement>, start: Columns)
    ensures PartlyExecuted(stmts, start, start, 0)
  {
  }

  lemma AttemptEnds(stmts: seq<Statement>, start: Columns, cols: Columns, n: nat)
    requires n <= |stmts| && PartlyExecuted(stmts, start, cols, n)
    ensures PartlyExecuted(stmts, start, cols, 0)
    ensures n == |stmts| ==> cols == Transformed(start, stmts)
  {
    hide PartlyExecuted, Transformed;
    NextAttempt(stmts, start, cols, n);
    if n == |stmts| {
      WhollyExecuted(stmts, start, cols);
    }
  }

  lemma WhollyExecuted(stmts: seq<Statement>, start: Columns, cols: Columns)
    requires PartlyExecuted(stmts, start, cols, |stmts|)
    ensures cols == Transformed(start, stmts)
  {
    forall c ensures c in cols <==> c in Transformed(start, stmts) {
      assert c in cols <==> Present(start, stmts, |stmts|, c);
      if Present(start, stmts, |stmts|, c) {
        PresentHasASource(start, stmts, |stmts|, c);
      }
    }
  }

  ghost predicate SchemaFits(plan: Plan, start: Columns, pc: Pc, ran: bool, cols: Columns) {
    && (Untouched(pc) ==> cols == start)
    && (pc.Run? && pc.act.Expand? ==>
          pc.pos <= |plan.expandSQL| && PartlyExecuted(plan.expandSQL, start, cols, pc.pos))
    && (PastExpand(pc, ran) ==> cols == Expanded(plan, start))
    && (pc.Run? && pc.act.Contract? ==>
          pc.pos <= |plan.contractSQL| && PartlyExecuted(plan.contractSQL, Expanded(plan, start), cols, pc.pos))
    && (PastContract(pc) ==> cols == Migrated(plan, start))
  }

  ghost predicate SchemaOk(d: Dep, start: Columns, cols: Columns) {
    SchemaFits(d.plan, start, d.pc, ContractRan(d.log), cols)
  }

  predicate SchemaMove(plan: Plan, pc: Pc, ran: bool, m: Move) {
    && !m.what.Executed?
    && (Untouched(m.next) ==> Untouched(pc))
    && (m.next.Run? && m.next.act.Expand? ==> m.next.pos == 0 && (Untouched(pc) || (pc.Run? && pc.act.Expand?)))
    && (PastExpand(m.next, ran) ==>
          PastExpand(pc, ran) || (pc.Run? && pc.act.Expand? && pc.pos == |plan.expandSQL|))
    && (m.next.Run? && m.next.act.Contract? ==>
          m.next.pos == 0 && (pc == Gate(ContractGate) || (pc.Run? && pc.act.Contract?)))
    && (PastContract(m.next) ==>
          PastContract(pc) || (pc.Run? && pc.act.Contract? && pc.pos == |plan.contractSQL|))
  }

  lemma SuccessKeepsSchema(plan: Plan, app: App, pc: Pc, ran: bool, timedOut: bool, switched: bool)
    requires pc.Run? && pc.pos == Len(pc.act, plan, app)
    ensures SchemaMove(plan, pc, ran, SuccessMove(pc, timedOut, switched))
  {
  }

  lemma FailureKeepsSchema(plan: Plan, pc: Pc, ran: bool, timedOut: bool, switched: bool)
    requires pc.Run?
    ensures SchemaMove(plan, pc, ran, FailureMove(pc, timedOut, switched))
  {
  }

  lemma GateKeepsSchema(plan: Plan, g: GateName, ran: bool, rollbackRequested: bool)
    ensures SchemaMove(plan, Gate(g), ran, ApprovalMove(g, rollbackRequested))
    ensures SchemaMove(plan, Gate(g), ran, RollbackMove(g))
  {
  }

  lemma MovesKeepSchema(d: Dep, app: App, db: Database, ev: Event, ran: bool)
    requires Enabled(d, app, ev) && MoveOf(d, app, db, ev).Some?
    ensures SchemaMove(d.plan, d.pc, ran, MoveOf(d, app, db, ev).value)
  {
    MoveIsOneOf(d, app, db, ev);
    if d.pc.Run? {
      if ev.Finish? && Reports(d) {
        SuccessKeepsSchema(d.plan, app, d.pc, ran, d.readOnlyTimedOut, d.trafficSwitched);
      }
      FailureKeepsSchema(d.plan, d.pc, ran, d.readOnlyTimedOut, d.trafficSwitched);
    } else {
      GateKeepsSchema(d.plan, d.pc.gate, ran, d.rollbackRequested);
    }
  }

  lemma SchemaFitsAfterMove(plan: Plan, start: Columns, pc: Pc, ran: bool, cols: Columns, m: Move)
    requires SchemaFits(plan, start, pc, ran, cols) && SchemaMove(plan, pc, ran, m)
    ensures SchemaFits(plan, start, m.next, ran, cols)
  {
    hide PartlyExecuted, Transformed;
    if pc.Run? && pc.act.Expand? {
      AttemptEnds(plan.expandSQL, start, cols, pc.pos);
    } else if pc.Run? && pc.act.Contract? {
      AttemptEnds(plan.contractSQL, Expanded(plan, start), cols, pc.pos);
    } else {
      FirstAttempt(plan.expandSQL, start);
      FirstAttempt(plan.contractSQL, Expanded(plan, start));
    }
  }

  lemma SchemaKeptByWork(d: Dep, app: App, db: Database, count: int, start: Columns)
    requires SchemaOk(d, start, db.columns) && Enabled(d, app, Advance(count)) && WorkDb(d, app, db, count).Some?
    ensures SchemaFits(d.plan, start, WorkPc(d, app, db), ContractRan(d.log) || d.pc.act.Contract?,
                       WorkDb(d, app, db, count).value.columns)
  {
    hide PartlyExecuted, Transformed, ContractRan;
    ColumnsChangeOnlyBySql(d, app, db, Advance(count));
    SameAct(d, app, db);
    if d.pc.act.Expand? {
      NextStatement(d.plan.expandSQL, start, db.columns, d.pc.pos);
      assert WorkPc(d, app, db).pos == d.pc.pos + 1;
    } else if d.pc.act.Contract? {
      NextStatement(d.plan.contractSQL, Expanded(d.plan, start), db.columns, d.pc.pos);
      assert WorkPc(d, app, db).pos == d.pc.pos + 1;
    }
  }

  lemma SchemaKeptByQuiet(d: Dep, app: App, db: Database, ev: Event, start: Columns)
    requires SchemaOk(d, start, db.columns) && Enabled(d, app, ev) && MoveOf(d, app, db, ev).None?
    ensures SchemaOk(Quiet(d, app, db, ev), start, StepDb(d, app, db, ev).columns)
  {
    hide ContractRan, SchemaFits;
    match ev
    case Advance(count) =>
      SchemaKeptByWork(d, app, db, count, start);
      RanSnoc(d.log, WorkLog(d, count));
      assert d.pc.act.Contract? ==> WorkLog(d, count).Executed?;
    case TimerFires => RanSnoc(d.log, ReadOnlyTimedOut);
    case SendNotify => SchemaInTheEnd(d.plan, start, d.pc, ContractRan(d.log), db.columns);
    case Return => SchemaInTheEnd(d.plan, start, d.pc, ContractRan(d.log), db.columns);
    case _ =>
  }

  /** Once the final phase has been entered, only that phase matters. */
  lemma SchemaInTheEnd(plan: Plan, start: Columns, pc: Pc, ran: bool, cols: Columns)
    requires Ending(pc) && SchemaFits(plan, start, pc, ran, cols)
    ensures forall ran' :: SchemaFits(plan, start, Returning(pc.final), ran', cols)
    ensures forall ran' :: SchemaFits(plan, start, Closed(pc.final), ran', cols)
  {
  }

  /** Every step keeps the schema what the lists that have been executed make of the starting one. */
  lemma SchemaKept(d: Dep, app: App, db: Database, ev: Event, start: Columns)
    requires SchemaOk(d, start, db.columns) && Enabled(d, app, ev)
    ensures SchemaOk(StepDep(d, app, db, ev), start, StepDb(d, app, db, ev).columns)
  {
    hide ContractRan, SchemaFits;
    var m := MoveOf(d, app, db, ev);
    if m.Some? {
      MovesKeepSchema(d, app, db, ev, ContractRan(d.log));
      SchemaFitsAfterMove(d.plan, start, d.pc, ContractRan(d.log), db.columns, m.value);
      RanAfterMove(d.log, m.value);
      ColumnsChangeOnlyBySql(d, app, db, ev);
      assert StepDb(d, app, db, ev).columns == db.columns;
    } else {
      SchemaKeptByQuiet(d, app, db, ev, start);
    }
  }

  lemma StartSchema(plan: Plan, hasParent: bool, cols: Columns)
    ensures SchemaOk(Start(plan, hasParent), cols, cols)
  {
  }

  lemma ReversibleExpandsOnlyAdd(plan: Plan, start: Columns)
    requires Reversible(plan, start)
    ensures OnlyAdds(plan.expandSQL)
  {
  }
}
