/**
 The whole protocol of one database: clients that request the lock and then start a deployment, the
 coordinator, the deployments, the signals between them and the schema they share. A transition system
 over unboundedly many requests, plans, deployments and coordinator runs.
 (cmd/blue-green/main.go, internal/bluegreen)
 */
module Protocol {
  import opened Wrappers
  import opened Schema
  import opened Deployment
  import opened Coordinator

  function WorkflowID(planID: string): string { "bg-deploy-" + planID }

  /** A completion on its way. `ticket` only records which grant it answers; the coordinator never sees it. */
  datatype Msg = Msg(ticket: nat, planID: string, workflowID: string, phase: Phase)

  /** A lock timeout's rollback on its way; it is addressed by workflow ID alone, whatever grant armed its timer. */
  datatype Timeout = Timeout(ticket: nat, workflowID: string)

  datatype Sys = Sys(
    coord: Coord,
    armedFor: seq<nat>,           // which grant armed each of this run's lock timers; the coordinator never sees it
    timerFired: bool,             // this run's 24h timer; once fired it stays ready
    iterations: nat,              // of the event loop, over all coordinator runs
    recycled: nat,                // coordinator runs ended by continue-as-new
    grants: nat,                  // locks granted, over all coordinator runs
    processed: nat,               // completions processed, over all coordinator runs
    pending: map<nat, Plan>,      // granted, deployment not started yet, by ticket
    orphans: set<nat>,            // granted, and the client gave up before starting
    deps: map<nat, Dep>,          // started deployments
    starts: map<nat, Columns>,    // the schema each deployment started on
    inflight: multiset<Msg>,      // completions sent and not received
    mail: multiset<Timeout>,      // lock-timeout rollbacks sent and not received
    db: Database)

  function Init(cols: Columns): Sys {
    Sys(FRESH, [], false, 0, 0, 0, 0, map[], {}, map[], map[], multiset{}, multiset{}, Database(cols, false))
  }

  datatype SysEvent =
    | RequestLock(plan: Plan)
    | LoseGrant(ticket: nat)      // the response is lost, or starting the deployment fails
    | StartRun(ticket: nat)
    | RefuseStart(ticket: nat)    // the deployment's ID is taken, and the client gives up
    | DepStep(ticket: nat, ev: Event)
    | Deliver(msg: Msg)
    | ContinueTimerFires
    | SelectContinue              // the loop's selector takes the fired timer
    | LockTimerDue(timer: nat)
    | LockTimerResumes(timer: nat)
    | DeliverTimeout(timeout: Timeout, to: nat)
    | DropTimeout(timeout: Timeout)

  /** A deployment that has work to do or its completion to send. */
  predicate Running(s: Sys, t: nat) { t in s.deps && !Reported(s.deps[t].pc) }

  /** A workflow that has not returned, so that it has its ID and receives signals. */
  predicate Open(s: Sys, t: nat) { t in s.deps && !s.deps[t].pc.Closed? }

  /** Its completion has been sent and it has not returned; the lock may already be someone else's. */
  predicate Lingering(s: Sys, t: nat) { t in s.deps && s.deps[t].pc.Returning? }

  /** A workflow with this ID is open; Temporal then refuses to start another. */
  predicate IDInUse(s: Sys, w: string) { exists t | t in s.deps :: Open(s, t) && WorkflowID(s.deps[t].plan.id) == w }

  predicate SysEnabled(s: Sys, app: App, e: SysEvent) {
    match e
    case RequestLock(_) => true
    case LoseGrant(t) => t in s.pending
    case StartRun(t) => t in s.pending && !IDInUse(s, WorkflowID(s.pending[t].id))
    case RefuseStart(t) => t in s.pending && IDInUse(s, WorkflowID(s.pending[t].id))
    case DepStep(t, ev) => t in s.deps && Enabled(s.deps[t], app, ev)
    case Deliver(m) => m in s.inflight
    case ContinueTimerFires => !s.timerFired
    case SelectContinue => s.timerFired && !s.coord.continueAsNewRequested
    case LockTimerDue(i) => i < |s.coord.timers| && s.coord.timers[i].state.Armed?
    case LockTimerResumes(i) => Resumable(s.coord, i)
    case DeliverTimeout(m, t) => m in s.mail && Open(s, t) && WorkflowID(s.deps[t].plan.id) == m.workflowID
    case DropTimeout(m) => m in s.mail && !IDInUse(s, m.workflowID)
  }

  function OnRequest(s: Sys, plan: Plan): Sys {
    if Accepts(s.coord) then
      s.(coord := Grant(s.coord, plan.id, WorkflowID(plan.id)),
         armedFor := s.armedFor + [s.grants],
         pending := s.pending[s.grants := plan],
         grants := s.grants + 1)
    else s
  }

  function OnLose(s: Sys, t: nat): Sys { s.(pending := s.pending - {t}, orphans := s.orphans + {t}) }

  function OnStart(s: Sys, t: nat): Sys
    requires t in s.pending
  {
    s.(pending := s.pending - {t},
       deps := s.deps[t := Start(s.pending[t], true)],
       starts := s.starts[t := s.db.columns])
  }

  function Sent(d: Dep, t: nat, ev: Event): multiset<Msg> {
    if ev.SendNotify? && d.hasParent && d.pc.Notify? then
      multiset{Msg(t, d.plan.id, WorkflowID(d.plan.id), d.pc.final)}
    else multiset{}
  }

  function OnDep(s: Sys, app: App, t: nat, ev: Event): Sys
    requires t in s.deps && Enabled(s.deps[t], app, ev)
  {
    var d := s.deps[t];
    s.(deps := s.deps[t := StepDep(d, app, s.db, ev)],
       db := StepDb(d, app, s.db, ev),
       inflight := s.inflight + Sent(d, t, ev))
  }

  /** One iteration of the coordinator's loop ends in state `c`. */
  function Loop(s: Sys, c: Coord): Sys {
    s.(coord := AfterSelect(c),
       armedFor := if Recycles(c) then [] else s.armedFor,
       timerFired := s.timerFired && !Recycles(c),
       iterations := s.iterations + 1,
       recycled := s.recycled + if Recycles(c) then 1 else 0)
  }

  function OnDeliver(s: Sys, m: Msg): Sys {
    Loop(s, OnComplete(s.coord, m.planID, m.workflowID, m.phase)).(
      inflight := s.inflight - multiset{m}, processed := s.processed + 1)
  }

  function OnTimerResumes(s: Sys, i: nat): Sys
    requires i < |s.coord.timers|
  {
    s.(coord := Resumes(s.coord, i),
       mail := match TimeoutTarget(s.coord, i)
               case None => s.mail
               case Some(w) => s.mail + multiset{Timeout(if i < |s.armedFor| then s.armedFor[i] else 0, w)})
  }

  function SysStep(s: Sys, app: App, e: SysEvent): Sys
    requires SysEnabled(s, app, e)
  {
    match e
    case RequestLock(plan) => OnRequest(s, plan)
    case LoseGrant(t) => OnLose(s, t)
    case StartRun(t) => OnStart(s, t)
    case RefuseStart(t) => OnLose(s, t)
    case DepStep(t, ev) => OnDep(s, app, t, ev)
    case Deliver(m) => OnDeliver(s, m)
    case ContinueTimerFires => s.(timerFired := true)
    case SelectContinue => Loop(s, s.coord.(continueAsNewRequested := true))
    case LockTimerDue(i) => s.(coord := ComesDue(s.coord, i))
    case LockTimerResumes(i) => OnTimerResumes(s, i)
    case DeliverTimeout(m, t) => OnDep(s, app, t, SignalRollback).(mail := s.mail - multiset{m})
    case DropTimeout(m) => s.(mail := s.mail - multiset{m})
  }

  /** The state after a sequence of events, None if one of them is not possible. */
  function Execute(s: Sys, app: App, es: seq<SysEvent>): Option<Sys> {
    if es == [] then Some(s)
    else
      match Execute(s, app, es[..|es| - 1])
      case None => None
      case Some(s') => if SysEnabled(s', app, es[|es| - 1]) then Some(SysStep(s', app, es[|es| - 1])) else None
  }
}
