/**
 The invariant of the composed protocol: what every request, failure, signal, timer and deployment step keeps
 of the lock, of every deployment, and of the shared schema.
 */
module ProtocolSafety {
  import opened Wrappers
  import opened Schema
  import opened Deployment
  import opened DeploymentData
  import opened DeploymentSchema
  import opened DeploymentCompletion
  import opened DeploymentTheorems
  import opened Protocol
  import opened ProtocolLock

  /** Every deployment that has ended has released the database again. */
  predicate AllReleased(s: Sys) { forall t | t in s.deps && Reported(s.deps[t].pc) :: !Unreleased(s.deps[t].log) }

  /** Every deployment so far was reversible, and those that ended were rolled back cleanly. */
  predicate AllReversed(s: Sys) {
    forall t | t in s.deps && t in s.starts ::
      Reversible(s.deps[t].plan, s.starts[t]) && (Reported(s.deps[t].pc) ==> RolledBackCleanly(s.deps[t]))
  }

  /** Every deployment that has ended was completed, or was reversible and rolled back cleanly. */
  predicate AllSettled(s: Sys) {
    forall t | t in s.deps && t in s.starts && Reported(s.deps[t].pc) ::
      s.deps[t].pc.final.Complete? || (Reversible(s.deps[t].plan, s.starts[t]) && RolledBackCleanly(s.deps[t]))
  }

  predicate Completed(d: Dep) { Reported(d.pc) && d.pc.final.Complete? }

  /** The schema that the completed ones among the first `n` grants make of the first schema, one after the other. */
  function SchemaAfter(deps: map<nat, Dep>, initial: Columns, n: nat): Columns {
    if n == 0 then initial
    else
      var before := SchemaAfter(deps, initial, n - 1);
      if n - 1 in deps && Completed(deps[n - 1]) then Migrated(deps[n - 1].plan, before) else before
  }

  /** Every plan so far keeps the running application's columns, and none has reached its contract. */
  predicate AllKeepBlue(s: Sys, app: App) {
    forall t | t in s.deps :: KeepsBlue(s.deps[t].plan, app) && !ContractRan(s.deps[t].log)
  }

  predicate EachDep(s: Sys) { forall t | t in s.deps :: DepInv(s.deps[t]) }

  predicate EachCheck(s: Sys, app: App) {
    forall t | t in s.deps :: Running(s, t) ==>
      ChecksOk(s.deps[t], app, s.db.columns) && WindowFits(s.deps[t].pc, s.db.readOnly)
  }

  predicate EachRestore(s: Sys) {
    forall t | t in s.deps && t in s.starts ::
      Latest(s, t) && Reversible(s.deps[t].plan, s.starts[t]) ==> RestoreOk(s.deps[t], s.starts[t], s.db.columns)
  }

  ghost predicate EachSchema(s: Sys) {
    forall t | t in s.deps && t in s.starts :: Latest(s, t) ==> SchemaOk(s.deps[t], s.starts[t], s.db.columns)
  }

  /** What a running deployment has shown, and a completed one has shown in all. */
  ghost predicate EachShown(s: Sys, app: App) {
    forall t | t in s.deps && t in s.starts ::
      && (Running(s, t) ==> ShownOk(s.deps[t], app, s.starts[t], s.db.columns))
      && (Completed(s.deps[t]) ==> Completable(s.deps[t].plan, app, s.starts[t]))
  }

  /** Each deployment starts on what those before it have made of the schema. */
  predicate Lineage(s: Sys, initial: Columns) {
    AllSettled(s) ==>
      && (forall t | t in s.deps && t in s.starts :: s.starts[t] == SchemaAfter(s.deps, initial, t))
      && ((forall t | t in s.deps :: !Running(s, t)) ==> s.db.columns == SchemaAfter(s.deps, initial, s.grants))
  }

  predicate Flags(s: Sys) {
    AllReleased(s) ==>
      && (forall t | t in s.deps :: Running(s, t) ==> FlagOk(s.deps[t], s.db.readOnly))
      && ((forall t | t in s.deps :: !Running(s, t)) ==> !s.db.readOnly)
  }

  predicate Chain(s: Sys, initial: Columns) {
    AllReversed(s) ==>
      && (forall t | t in s.deps && t in s.starts :: Running(s, t) ==> s.starts[t] == initial)
      && ((forall t | t in s.deps :: !Running(s, t)) ==> s.db.columns == initial)
  }

  /** No deployment has started after this one. */
  predicate Latest(s: Sys, t: nat) { forall u | u in s.deps :: u <= t }

  /** The latest deployment leaves blue the columns it found for it, until its first contract statement. */
  predicate EachBlue(s: Sys, app: App) {
    forall t | t in s.deps && t in s.starts ::
      Latest(s, t) && KeepsBlue(s.deps[t].plan, app) && Needed(app.blue) <= s.starts[t]
          && !ContractRan(s.deps[t].log) ==>
        Needed(app.blue) <= s.db.columns
  }

  predicate Blue(s: Sys, app: App, initial: Columns) {
    AllKeepBlue(s, app) && Needed(app.blue) <= initial ==> Needed(app.blue) <= s.db.columns
  }

  /** What holds of each deployment and the schema. */
  ghost predicate Each(s: Sys, app: App) {
    EachDep(s) && EachCheck(s, app) && EachRestore(s) && EachSchema(s) && EachBlue(s, app) && EachShown(s, app)
  }

  /** What holds from one deployment to the next. */
  predicate Overall(s: Sys, app: App, initial: Columns) {
    Flags(s) && Chain(s, initial) && Lineage(s, initial) && Blue(s, app, initial)
  }

  ghost predicate SysInv(s: Sys, app: App, initial: Columns) {
    LockInv(s) && Each(s, app) && Overall(s, app, initial)
  }

  lemma InitInv(app: App, initial: Columns)
    ensures SysInv(Init(initial), app, initial)
  {
    InitLock(initial);
  }

  // ---- events that touch no deployment, and steps of one that has ended ----

  /** The same deployment, or one that has ended and does nothing but return and be signalled. */
  predicate Alike(d: Dep, d': Dep) {
    || d' == d
    || (&& Reported(d.pc) && Reported(d'.pc) && d'.pc.final == d.pc.final
        && d' == d.(pc := d'.pc, approvals := d'.approvals, rollbacks := d'.rollbacks))
  }

  predicate Undisturbed(s: Sys, s': Sys) {
    && s'.deps.Keys == s.deps.Keys && s'.starts == s.starts && s'.db == s.db
    && (s'.grants == s.grants || s'.grants == s.grants + 1)
    && forall t | t in s.deps :: Alike(s.deps[t], s'.deps[t])
  }

  lemma AlikeMeans(s: Sys, s': Sys)
    requires Undisturbed(s, s')
    ensures forall t | t in s.deps ::
              && s'.deps[t].plan == s.deps[t].plan && s'.deps[t].log == s.deps[t].log
              && (Reported(s'.deps[t].pc) <==> Reported(s.deps[t].pc))
              && (Reported(s.deps[t].pc) ==> s'.deps[t].pc.final == s.deps[t].pc.final)
              && (!Reported(s.deps[t].pc) ==> s'.deps[t] == s.deps[t])
    ensures forall t | t in s.deps :: Running(s', t) == Running(s, t) && Latest(s', t) == Latest(s, t)
  {
  }

  /** What is said of the schema after a run does not depend on whether it has returned. */
  lemma AlikeFits(d: Dep, d': Dep, start: Columns, cols: Columns)
    requires Alike(d, d')
    ensures RestoreOk(d, start, cols) ==> RestoreOk(d', start, cols)
    ensures SchemaOk(d, start, cols) ==> SchemaOk(d', start, cols)
  {
  }

  lemma ChecksUndisturbed(s: Sys, s': Sys, app: App)
    requires Undisturbed(s, s') && EachCheck(s, app) && EachBlue(s, app)
    ensures EachCheck(s', app) && EachBlue(s', app)
  {
    AlikeMeans(s, s');
    hide Alike, Running, Latest, ChecksOk, ContractRan, KeepsBlue;
    assert forall t | t in s'.deps :: t in s.deps;
  }

  lemma ShownUndisturbed(s: Sys, s': Sys, app: App)
    requires Undisturbed(s, s') && EachShown(s, app)
    ensures EachShown(s', app)
  {
    AlikeMeans(s, s');
    hide Alike, Running, Latest, ShownOk, Completable;
    assert forall t | t in s'.deps :: t in s.deps;
  }

  lemma SchemaUndisturbed(s: Sys, s': Sys)
    requires Undisturbed(s, s') && EachRestore(s) && EachSchema(s)
    ensures EachRestore(s') && EachSchema(s')
  {
    AlikeMeans(s, s');
    hide Running, Latest, RestoreOk, SchemaOk, Reversible;
    forall t | t in s'.deps && t in s'.starts && Latest(s', t)
      ensures Reversible(s'.deps[t].plan, s'.starts[t]) ==> RestoreOk(s'.deps[t], s'.starts[t], s'.db.columns)
      ensures SchemaOk(s'.deps[t], s'.starts[t], s'.db.columns)
    {
      AlikeFits(s.deps[t], s'.deps[t], s.starts[t], s.db.columns);
    }
  }

  lemma FlagsUndisturbed(s: Sys, s': Sys)
    requires Undisturbed(s, s') && Flags(s)
    ensures Flags(s')
  {
    AlikeMeans(s, s');
    hide Alike, Latest, FlagOk, Unreleased;
    assert AllReleased(s') ==> AllReleased(s);
  }

  lemma ChainUndisturbed(s: Sys, s': Sys, initial: Columns)
    requires Undisturbed(s, s') && Chain(s, initial)
    ensures Chain(s', initial)
  {
    AlikeMeans(s, s');
    hide Alike, Latest, Reversible;
    assert AllReversed(s') ==> AllReversed(s);
  }

  lemma BlueUndisturbed(s: Sys, s': Sys, app: App, initial: Columns)
    requires Undisturbed(s, s') && Blue(s, app, initial)
    ensures Blue(s', app, initial)
  {
    AlikeMeans(s, s');
    hide Alike, Latest, Running, ContractRan, KeepsBlue;
    assert AllKeepBlue(s', app) ==> AllKeepBlue(s, app);
  }

  lemma HistoryUndisturbed(s: Sys, s': Sys, initial: Columns)
    requires Undisturbed(s, s')
    ensures forall n: nat :: SchemaAfter(s'.deps, initial, n) == SchemaAfter(s.deps, initial, n)
  {
    AlikeMeans(s, s');
    hide Alike, Latest, Running;
    forall n: nat ensures SchemaAfter(s'.deps, initial, n) == SchemaAfter(s.deps, initial, n) {
      hide SchemaAfter;
      SameBelow(s.deps, s'.deps, initial, n);
    }
  }

  lemma LineageUndisturbed(s: Sys, s': Sys, initial: Columns)
    requires Undisturbed(s, s') && Lineage(s, initial) && s.grants !in s.deps
    ensures Lineage(s', initial)
  {
    hide SchemaAfter;
    NothingMade(s.deps, initial, s.grants);
    SameRunning(s, s');
    SettledUndisturbed(s, s');
    HistoryUndisturbed(s, s', initial);
    assert s'.deps.Keys == s.deps.Keys && s'.starts == s.starts && s'.db == s.db;
    assert s'.grants == s.grants || s'.grants == s.grants + 1;
    hide Undisturbed, Running, AllSettled, SchemaAfter;
    if AllSettled(s') {
      forall t | t in s'.deps && t in s'.starts ensures s'.starts[t] == SchemaAfter(s'.deps, initial, t) {
        assert s.starts[t] == SchemaAfter(s.deps, initial, t);
      }
      if forall t | t in s'.deps :: !Running(s', t) {
        assert forall t | t in s.deps :: !Running(s, t);
        assert s'.db.columns == SchemaAfter(s'.deps, initial, s'.grants);
      }
    }
  }

  lemma NothingMade(deps: map<nat, Dep>, initial: Columns, n: nat)
    requires n !in deps
    ensures SchemaAfter(deps, initial, n + 1) == SchemaAfter(deps, initial, n)
  {
  }

  lemma SameRunning(s: Sys, s': Sys)
    requires Undisturbed(s, s')
    ensures forall t | t in s.deps :: Running(s', t) == Running(s, t)
  {
    AlikeMeans(s, s');
  }

  lemma SettledUndisturbed(s: Sys, s': Sys)
    requires Undisturbed(s, s')
    ensures AllSettled(s') ==> AllSettled(s)
  {
    AlikeMeans(s, s');
    hide Alike, Latest, Reversible;
  }

  /** What the first `n` grants have made of the schema depends on them alone. */
  lemma {:induction false} SameBelow(deps: map<nat, Dep>, deps': map<nat, Dep>, initial: Columns, n: nat)
    requires forall t: nat | t < n ::
               (t in deps && Completed(deps[t]) <==> t in deps' && Completed(deps'[t]))
               && (t in deps && t in deps' ==> deps'[t].plan == deps[t].plan)
    ensures SchemaAfter(deps', initial, n) == SchemaAfter(deps, initial, n)
  {
    if n > 0 {
      SameBelow(deps, deps', initial, n - 1);
    }
  }

  lemma UndisturbedKeepsAll(s: Sys, s': Sys, app: App, initial: Columns)
    requires SysInv(s, app, initial) && LockInv(s') && EachDep(s') && Undisturbed(s, s')
    ensures SysInv(s', app, initial)
  {
    assert s.grants !in s.deps;
    hide Undisturbed, LockInv, EachDep, EachCheck, EachRestore, EachSchema, EachBlue, EachShown;
    hide Flags, Chain, Lineage, Blue;
    ShownUndisturbed(s, s', app);
    ChecksUndisturbed(s, s', app);
    SchemaUndisturbed(s, s');
    FlagsUndisturbed(s, s');
    ChainUndisturbed(s, s', initial);
    BlueUndisturbed(s, s', app, initial);
    LineageUndisturbed(s, s', initial);
  }

  predicate SameData(s: Sys, s': Sys) {
    && s'.deps == s.deps && s'.starts == s.starts && s'.db == s.db
    && (s'.grants == s.grants || s'.grants == s.grants + 1)
  }

  lemma SameDataKeepsAll(s: Sys, s': Sys, app: App, initial: Columns)
    requires SysInv(s, app, initial) && LockInv(s') && SameData(s, s')
    ensures SysInv(s', app, initial)
  {
    hide SysInv, LockInv;
    EachOf(s, app, initial);
    UndisturbedKeepsAll(s, s', app, initial);
  }

  lemma EachOf(s: Sys, app: App, initial: Columns)
    requires SysInv(s, app, initial)
    ensures LockInv(s) && EachDep(s)
  {
  }

  lemma LingersOn(s: Sys, app: App, t: nat, ev: Event)
    requires EachDep(s) && t in s.deps && Enabled(s.deps[t], app, ev) && Reported(s.deps[t].pc)
    ensures Undisturbed(s, OnDep(s, app, t, ev)) && EachDep(OnDep(s, app, t, ev))
  {
    LingeringStep(s.deps[t], app, s.db, ev);
    DepInvKept(s.deps[t], app, s.db, ev);
    hide StepDep, StepDb, DepInv, Enabled;
  }

  lemma LingeringKeepsAll(s: Sys, app: App, initial: Columns, t: nat, ev: Event)
    requires SysInv(s, app, initial) && t in s.deps && Enabled(s.deps[t], app, ev) && Reported(s.deps[t].pc)
    ensures SysInv(OnDep(s, app, t, ev), app, initial)
  {
    hide SysInv, LockInv, OnDep, StepDep, StepDb, EachDep, Enabled, Undisturbed;
    EachOf(s, app, initial);
    DepKeepsLock(s, app, t, ev);
    LingersOn(s, app, t, ev);
    UndisturbedKeepsAll(s, OnDep(s, app, t, ev), app, initial);
  }

  // ---- a deployment starts: nothing else is running ----

  predicate Started(s: Sys, s': Sys, t: nat, d': Dep) {
    && t !in s.deps && t !in s.starts
    && s'.deps == s.deps[t := d'] && s'.starts == s.starts[t := s.db.columns] && s'.db == s.db
    && !Ending(d'.pc) && s'.grants == s.grants == t + 1
    && (forall u | u in s.deps :: !Running(s, u))
    && (forall u | u in s.deps :: u < t)
  }

  lemma EachAfterStart(s: Sys, s': Sys, t: nat, d': Dep, app: App)
    requires Started(s, s', t, d') && EachDep(s)
    requires DepInv(d') && ChecksOk(d', app, s.db.columns) && RestoreOk(d', s.db.columns, s.db.columns)
    requires SchemaOk(d', s.db.columns, s.db.columns) && WindowFits(d'.pc, s.db.readOnly)
    ensures EachDep(s') && EachCheck(s', app) && EachRestore(s') && EachSchema(s')
  {
  }

  lemma ShownAfterStart(s: Sys, s': Sys, t: nat, d': Dep, app: App)
    requires Started(s, s', t, d') && EachShown(s, app) && ShownOk(d', app, s.db.columns, s.db.columns)
    ensures EachShown(s', app)
  {
    assert forall u | u in s.deps :: s'.deps[u] == s.deps[u] && !Running(s, u);
    hide ShownOk, Completable;
  }

  lemma FlagsAfterStart(s: Sys, s': Sys, t: nat, d': Dep)
    requires Started(s, s', t, d') && Flags(s)
    requires FlagOk(d', false)
    ensures Flags(s')
  {
    assert forall u :: u in s.deps ==> s'.deps[u] == s.deps[u];
    assert Running(s', t);
    assert AllReleased(s') ==> AllReleased(s);
  }

  lemma ChainAfterStart(s: Sys, s': Sys, t: nat, d': Dep, initial: Columns)
    requires Started(s, s', t, d') && Chain(s, initial)
    ensures Chain(s', initial)
  {
    assert forall u :: u in s.deps ==> s'.deps[u] == s.deps[u];
    assert Running(s', t);
    if AllReversed(s') {
      forall u | u in s.deps && u in s.starts
        ensures Reversible(s.deps[u].plan, s.starts[u]) && (Reported(s.deps[u].pc) ==> RolledBackCleanly(s.deps[u]))
      {
        assert s'.starts[u] == s.starts[u];
      }
    }
  }

  lemma LineageAfterStart(s: Sys, s': Sys, t: nat, d': Dep, initial: Columns)
    requires Started(s, s', t, d') && Lineage(s, initial)
    ensures Lineage(s', initial)
  {
    assert Running(s', t);
    if AllSettled(s') {
      forall u | u in s.deps && u in s.starts && Reported(s.deps[u].pc)
        ensures s.deps[u].pc.final.Complete?
                || (Reversible(s.deps[u].plan, s.starts[u]) && RolledBackCleanly(s.deps[u]))
      {
        assert s'.deps[u] == s.deps[u] && s'.starts[u] == s.starts[u];
      }
      forall u | u in s'.deps && u in s'.starts ensures s'.starts[u] == SchemaAfter(s'.deps, initial, u) {
        SameBelow(s.deps, s'.deps, initial, u);
      }
    }
  }

  lemma BlueAfterStart(s: Sys, s': Sys, t: nat, d': Dep, app: App, initial: Columns)
    requires Started(s, s', t, d') && Blue(s, app, initial)
    ensures Blue(s', app, initial)
  {
    assert forall u :: u in s.deps ==> s'.deps[u] == s.deps[u];
  }

  lemma EachBlueAfterStart(s: Sys, s': Sys, t: nat, d': Dep, app: App)
    requires Started(s, s', t, d')
    ensures EachBlue(s', app)
  {
    assert t in s'.deps;
    assert forall u :: u in s'.deps ==> u <= t;
  }

  lemma StartFits(plan: Plan, app: App, cols: Columns)
    ensures var d := Start(plan, true);
            && !Ending(d.pc) && DepInv(d)
            && ChecksOk(d, app, cols) && RestoreOk(d, cols, cols) && SchemaOk(d, cols, cols) && FlagOk(d, false)
            && ShownOk(d, app, cols, cols)
            && forall readOnly :: WindowFits(d.pc, readOnly)
  {
    StartInv(plan, true);
    StartSchema(plan, true, cols);
    StartShown(plan, true, app, cols);
    var d := Start(plan, true);
    assert !RolledBackCleanly(d);
  }

  lemma StartIsLatest(s: Sys, t: nat)
    requires LockInv(s) && t in s.pending
    ensures Started(s, OnStart(s, t), t, Start(s.pending[t], true))
  {
    assert InMode(s, Granted);
  }

  lemma StartKeepsEach(s: Sys, s': Sys, t: nat, plan: Plan, app: App)
    requires Started(s, s', t, Start(plan, true)) && Each(s, app)
    ensures Each(s', app)
  {
    StartFits(plan, app, s.db.columns);
    hide Started, EachDep, EachCheck, EachRestore, EachSchema, EachShown, EachBlue, Start;
    var d' := Start(plan, true);
    EachAfterStart(s, s', t, d', app);
    ShownAfterStart(s, s', t, d', app);
    EachBlueAfterStart(s, s', t, d', app);
  }

  lemma StartKeepsOverall(s: Sys, s': Sys, t: nat, plan: Plan, app: App, initial: Columns)
    requires Started(s, s', t, Start(plan, true)) && Overall(s, app, initial)
    ensures Overall(s', app, initial)
  {
    StartFits(plan, app, s.db.columns);
    hide Started, Flags, Chain, Lineage, Blue, Start;
    var d' := Start(plan, true);
    FlagsAfterStart(s, s', t, d');
    ChainAfterStart(s, s', t, d', initial);
    BlueAfterStart(s, s', t, d', app, initial);
    LineageAfterStart(s, s', t, d', initial);
  }

  lemma StartKeepsAll(s: Sys, app: App, initial: Columns, t: nat)
    requires SysInv(s, app, initial) && t in s.pending && !IDInUse(s, WorkflowID(s.pending[t].id))
    ensures SysInv(OnStart(s, t), app, initial)
  {
    hide LockInv, Each, Overall, OnStart, Started, Start, IDInUse;
    StartKeepsLock(s, t);
    StartIsLatest(s, t);
    StartKeepsEach(s, OnStart(s, t), t, s.pending[t], app);
    StartKeepsOverall(s, OnStart(s, t), t, s.pending[t], app, initial);
  }

  // ---- a deployment steps: it is the only one running ----

  predicate Stepped(s: Sys, s': Sys, t: nat, d': Dep) {
    && t in s.deps && t in s.starts && Running(s, t)
    && s'.deps == s.deps[t := d'] && s'.starts == s.starts && s'.grants == s.grants == t + 1
    && d'.plan == s.deps[t].plan
    && (forall u | u in s.deps :: Running(s, u) ==> u == t)
    && Latest(s, t)
  }

  /** The others are neither running nor the latest. */
  lemma OthersAreOver(s: Sys, s': Sys, t: nat, d': Dep)
    requires Stepped(s, s', t, d')
    ensures s'.deps.Keys == s.deps.Keys && s'.deps[t] == d'
    ensures forall u | u in s.deps && u != t :: s'.deps[u] == s.deps[u] && !Running(s', u) && !Latest(s', u)
  {
    assert t in s'.deps;
  }

  lemma EachAfterStep(s: Sys, s': Sys, t: nat, d': Dep, app: App)
    requires Stepped(s, s', t, d') && EachDep(s) && DepInv(d') && ChecksOk(d', app, s'.db.columns)
    requires WindowFits(d'.pc, s'.db.readOnly)
    ensures EachDep(s') && EachCheck(s', app)
  {
    OthersAreOver(s, s', t, d');
    hide Stepped, Latest, DepInv, ChecksOk;
  }

  lemma SchemaAfterStep(s: Sys, s': Sys, t: nat, d': Dep)
    requires Stepped(s, s', t, d')
    requires Reversible(d'.plan, s.starts[t]) ==> RestoreOk(d', s.starts[t], s'.db.columns)
    requires SchemaOk(d', s.starts[t], s'.db.columns)
    ensures EachRestore(s') && EachSchema(s')
  {
    OthersAreOver(s, s', t, d');
    assert s'.starts == s.starts;
    hide Stepped, Latest, Reversible, RestoreOk, SchemaOk;
  }

  lemma ShownAfterStep(s: Sys, s': Sys, t: nat, d': Dep, app: App)
    requires Stepped(s, s', t, d') && EachShown(s, app) && ShownOk(d', app, s.starts[t], s'.db.columns)
    ensures EachShown(s', app)
  {
    OthersAreOver(s, s', t, d');
    assert s'.starts == s.starts;
    hide Stepped, Latest, ChecksOk, SchemaOk, Underway;
    if Completed(d') {
      assert Completable(d'.plan, app, s.starts[t]);
    }
    hide Completable, ShownOk;
  }

  lemma FlagIsDown(d: Dep, readOnly: bool)
    requires FlagOk(d, readOnly) && !Unreleased(d.log)
    ensures !readOnly
  {
  }

  lemma FlagsAfterStep(s: Sys, s': Sys, t: nat, d': Dep)
    requires Stepped(s, s', t, d') && Flags(s)
    requires FlagOk(s.deps[t], s.db.readOnly) ==> FlagOk(d', s'.db.readOnly)
    ensures Flags(s')
  {
    hide Unreleased, FlagFits;
    assert forall u :: u in s.deps && u != t ==> s'.deps[u] == s.deps[u] && !Running(s', u);
    assert t in s'.deps && s'.deps[t] == d' && (Running(s', t) <==> !Reported(d'.pc));
    if AllReleased(s') {
      assert AllReleased(s);
      assert FlagOk(d', s'.db.readOnly);
      if Reported(d'.pc) {
        assert !Unreleased(s'.deps[t].log);
        FlagIsDown(d', s'.db.readOnly);
      }
    }
  }

  lemma ChainAfterStep(s: Sys, s': Sys, t: nat, d': Dep, initial: Columns)
    requires Stepped(s, s', t, d') && Chain(s, initial)
    requires Reversible(d'.plan, s.starts[t]) ==> RestoreOk(d', s.starts[t], s'.db.columns)
    ensures Chain(s', initial)
  {
  }

  lemma LineageAfterStep(s: Sys, s': Sys, t: nat, d': Dep, initial: Columns)
    requires Stepped(s, s', t, d') && Lineage(s, initial)
    requires Reversible(d'.plan, s.starts[t]) ==> RestoreOk(d', s.starts[t], s'.db.columns)
    requires SchemaOk(d', s.starts[t], s'.db.columns)
    ensures Lineage(s', initial)
  {
    assert forall u :: u in s.deps && u != t ==> s'.deps[u] == s.deps[u];
    if AllSettled(s') {
      assert AllSettled(s);
      forall u | u in s'.deps && u in s'.starts ensures s'.starts[u] == SchemaAfter(s'.deps, initial, u) {
        SameBelow(s.deps, s'.deps, initial, u);
      }
      if Reported(d'.pc) {
        assert s'.deps[t] == d';
        assert s'.db.columns == SchemaAfter(s'.deps, initial, t + 1);
      } else {
        assert Running(s', t);
      }
    }
  }

  lemma BlueAfterStep(s: Sys, s': Sys, t: nat, d': Dep, app: App, initial: Columns)
    requires Stepped(s, s', t, d') && Blue(s, app, initial)
    requires ContractRan(s.deps[t].log) ==> ContractRan(d'.log)
    requires Needed(app.blue) <= s.db.columns && KeepsBlue(d'.plan, app) && !ContractRan(d'.log) ==>
               Needed(app.blue) <= s'.db.columns
    ensures Blue(s', app, initial)
  {
    assert forall u :: u in s.deps && u != t ==> s'.deps[u] == s.deps[u];
    if AllKeepBlue(s', app) {
      assert KeepsBlue(s'.deps[t].plan, app) && !ContractRan(s'.deps[t].log);
      assert AllKeepBlue(s, app);
    }
  }

  lemma EachBlueAfterStep(s: Sys, s': Sys, t: nat, d': Dep, app: App)
    requires Stepped(s, s', t, d') && EachBlue(s, app)
    requires ContractRan(s.deps[t].log) ==> ContractRan(d'.log)
    requires Needed(app.blue) <= s.db.columns && KeepsBlue(d'.plan, app) && !ContractRan(d'.log) ==>
               Needed(app.blue) <= s'.db.columns
    ensures EachBlue(s', app)
  {
    assert t in s'.deps;
    assert forall u :: u in s'.deps ==> u <= t;
  }

  lemma LogsGrow(d: Dep, app: App, db: Database, ev: Event)
    requires Enabled(d, app, ev)
    ensures d.log <= StepDep(d, app, db, ev).log
  {
    hide SuccessMove, FailureMove, ApprovalMove, WorkDb, WorkPc, LogAfter;
    var m := MoveOf(d, app, db, ev);
    if m.Some? {
      LogAfterExtends(d.log, m.value);
    }
  }

  lemma LogAfterExtends(log: seq<Effect>, m: Move)
    ensures log <= LogAfter(log, m)
  {
  }

  lemma BlueStepFits(d: Dep, app: App, db: Database, ev: Event)
    requires Enabled(d, app, ev)
    ensures ContractRan(d.log) ==> ContractRan(StepDep(d, app, db, ev).log)
    ensures Needed(app.blue) <= db.columns && KeepsBlue(d.plan, app) && !ContractRan(StepDep(d, app, db, ev).log) ==>
              Needed(app.blue) <= StepDb(d, app, db, ev).columns
  {
    var d' := StepDep(d, app, db, ev);
    LogsGrow(d, app, db, ev);
    if ContractRan(d.log) {
      var i :| 0 <= i < |d.log| && d.log[i].Executed? && d.log[i].act.Contract?;
      assert d'.log[i] == d.log[i];
    }
    if Needed(app.blue) <= db.columns && KeepsBlue(d.plan, app) {
      if !ContractStatement(d, ev) {
        BlueColumnsKept(d, app, db, ev);
      } else if MoveOf(d, app, db, ev).None? {
        assert d'.log[|d.log|] == Executed(Contract, d.pc.pos);
      }
    }
  }

  lemma StepFits(s: Sys, app: App, t: nat, ev: Event)
    requires LockInv(s) && Running(s, t) && Enabled(s.deps[t], app, ev)
    ensures Stepped(s, OnDep(s, app, t, ev), t, StepDep(s.deps[t], app, s.db, ev))
  {
    DepStepFrame(s.deps[t], app, s.db, ev);
    MutualExclusion(s);
    var mode :| InMode(s, mode);
    assert t == s.grants - 1;
  }

  lemma DepKeepsAll(s: Sys, app: App, initial: Columns, t: nat, ev: Event)
    requires SysInv(s, app, initial) && t in s.deps && Enabled(s.deps[t], app, ev)
    ensures SysInv(OnDep(s, app, t, ev), app, initial)
  {
    if Reported(s.deps[t].pc) {
      LingeringKeepsAll(s, app, initial, t, ev);
    } else {
      RunningKeepsAll(s, app, initial, t, ev);
    }
  }

  lemma RunningKeepsAll(s: Sys, app: App, initial: Columns, t: nat, ev: Event)
    requires SysInv(s, app, initial) && Running(s, t) && Enabled(s.deps[t], app, ev)
    ensures SysInv(OnDep(s, app, t, ev), app, initial)
  {
    DepKeepsLock(s, app, t, ev);
    StepFits(s, app, t, ev);
    DepKeepsData(s, app, initial, t, ev);
    var d := s.deps[t];
    var s', d' := OnDep(s, app, t, ev), StepDep(d, app, s.db, ev);
    FlagStep(d, app, s.db, ev);
    FlagsAfterStep(s, s', t, d');
    ShownKept(d, app, s.db, ev, s.starts[t]);
    ShownAfterStep(s, s', t, d', app);
    BlueStepFits(d, app, s.db, ev);
    BlueAfterStep(s, s', t, d', app, initial);
    EachBlueAfterStep(s, s', t, d', app);
  }

  lemma FlagStep(d: Dep, app: App, db: Database, ev: Event)
    requires Enabled(d, app, ev)
    ensures FlagOk(d, db.readOnly) ==> FlagOk(StepDep(d, app, db, ev), StepDb(d, app, db, ev).readOnly)
  {
    if FlagOk(d, db.readOnly) {
      FlagKept(d, app, db, ev);
    }
  }

  lemma DepKeepsData(s: Sys, app: App, initial: Columns, t: nat, ev: Event)
    requires t in s.deps && Enabled(s.deps[t], app, ev)
    requires Stepped(s, OnDep(s, app, t, ev), t, StepDep(s.deps[t], app, s.db, ev))
    requires EachDep(s) && EachCheck(s, app) && EachRestore(s) && EachSchema(s)
    requires Chain(s, initial) && Lineage(s, initial)
    ensures var s' := OnDep(s, app, t, ev);
            && EachDep(s') && EachCheck(s', app) && EachRestore(s') && EachSchema(s')
            && Chain(s', initial) && Lineage(s', initial)
  {
    var d := s.deps[t];
    var s', d' := OnDep(s, app, t, ev), StepDep(d, app, s.db, ev);
    DepInvKept(d, app, s.db, ev);
    ChecksKept(d, app, s.db, ev);
    WindowKept(d, app, s.db, ev);
    if Reversible(d.plan, s.starts[t]) {
      RestoreKept(d, app, s.db, ev, s.starts[t]);
    }
    SchemaKept(d, app, s.db, ev, s.starts[t]);
    hide StepDep, StepDb, Enabled, EachDep, EachCheck, EachRestore, EachSchema, Chain, Lineage;
    EachAfterStep(s, s', t, d', app);
    SchemaAfterStep(s, s', t, d');
    ChainAfterStep(s, s', t, d', initial);
    LineageAfterStep(s, s', t, d', initial);
  }

  lemma TimeoutKeepsAll(s: Sys, app: App, initial: Columns, m: Timeout, t: nat)
    requires SysInv(s, app, initial) && SysEnabled(s, app, DeliverTimeout(m, t))
    ensures SysInv(SysStep(s, app, DeliverTimeout(m, t)), app, initial)
  {
    hide SysInv, LockInv, OnDep;
    EachOf(s, app, initial);
    LockKept(s, app, DeliverTimeout(m, t));
    DepKeepsAll(s, app, initial, t, SignalRollback);
    SameDataKeepsAll(OnDep(s, app, t, SignalRollback), SysStep(s, app, DeliverTimeout(m, t)), app, initial);
  }

  /** The remaining events move nothing but the lock, its timers and the messages. */
  lemma OtherEventsKeepData(s: Sys, app: App, e: SysEvent)
    requires SysEnabled(s, app, e) && !e.StartRun? && !e.DepStep? && !e.DeliverTimeout?
    ensures SameData(s, SysStep(s, app, e))
  {
    match e
    case RequestLock(plan) => assert SameData(s, OnRequest(s, plan));
    case LoseGrant(t) => assert SameData(s, OnLose(s, t));
    case Deliver(m) => assert SameData(s, OnDeliver(s, m));
    case LockTimerResumes(i) => assert SameData(s, OnTimerResumes(s, i));
    case _ =>
  }

  lemma InvKept(s: Sys, app: App, initial: Columns, e: SysEvent)
    requires SysInv(s, app, initial) && SysEnabled(s, app, e)
    ensures SysInv(SysStep(s, app, e), app, initial)
  {
    hide SysInv, LockInv, OnStart, OnDep, OnRequest, OnLose, OnDeliver, OnTimerResumes, Loop, SameData, Enabled;
    EachOf(s, app, initial);
    match e
    case StartRun(t) => StartKeepsAll(s, app, initial, t);
    case DepStep(t, ev) => DepKeepsAll(s, app, initial, t, ev);
    case DeliverTimeout(m, t) => TimeoutKeepsAll(s, app, initial, m, t);
    case _ =>
      LockKept(s, app, e);
      OtherEventsKeepData(s, app, e);
      SameDataKeepsAll(s, SysStep(s, app, e), app, initial);
  }

  lemma {:induction false} ReachableInv(app: App, initial: Columns, es: seq<SysEvent>, s: Sys)
    requires Execute(Init(initial), app, es) == Some(s)
    ensures SysInv(s, app, initial)
  {
    if es == [] {
      InitInv(app, initial);
    } else {
      var s0 := Execute(Init(initial), app, es[..|es| - 1]).value;
      ReachableInv(app, initial, es[..|es| - 1], s0);
      InvKept(s0, app, initial, es[|es| - 1]);
    }
  }
}
