/**
 The client half of the lock protocol: start the coordinator, acquire the lock, start the deployment.
 Between its calls anything else the protocol allows may happen. (cmd/blue-green/main.go)
 */
module Client {
  import opened Wrappers
  import opened Schema
  import opened Deployment
  import opened Coordinator
  import opened Protocol
  import opened ProtocolLock
  import opened ProtocolLiveness

  datatype StartResult =
    | Started(workflowID: string)
    | SchemaCurrentlyLocked
    | DeploymentAlreadyExists
    | Unavailable          // any other error

  /**
   What the network does with a call to start a deployment: whether the coordinator can be started or found, the request
   reaches it, its answer comes back, the start reaches the server, and what comes of that comes back.
   */
  datatype Network = Network(up: bool, delivered: bool, answered: bool, startable: bool, confirmed: bool)
  {
    predicate Reaches() { up && delivered }
    predicate Starts() { answered && startable }
  }

  predicate UsesTicket(e: SysEvent, ticket: nat) {
    e == LoseGrant(ticket) || e == StartRun(ticket) || e == RefuseStart(ticket)
  }

  /** A granted ticket waits for its client, whatever the rest of the system does. */
  lemma TicketWaits(s: Sys, app: App, e: SysEvent, ticket: nat)
    requires LockInv(s) && ticket in s.pending && SysEnabled(s, app, e) && !UsesTicket(e, ticket)
    ensures ticket in SysStep(s, app, e).pending && SysStep(s, app, e).pending[ticket] == s.pending[ticket]
  {
    match e
    case RequestLock(plan) =>
    case LoseGrant(t) =>
    case StartRun(t) =>
    case RefuseStart(t) =>
    case Deliver(m) =>
    case LockTimerResumes(i) =>
    case _ =>
  }

  class TemporalWorkflowClient {
    const app: App
    ghost const initial: Columns
    var server: Sys               // what the Temporal server holds, shared with everyone else
    ghost var trace: seq<SysEvent>
    ghost var own: seq<SysEvent>  // the events of this client's current call

    ghost predicate Valid()
      reads this`server, this`trace
    {
      Execute(Init(initial), app, trace) == Some(server) && LockInv(server)
    }

    constructor (app: App, cols: Columns)
      ensures Valid() && server == Init(cols) && initial == cols
    {
      this.app, initial := app, cols;
      server, trace, own := Init(cols), [], [];
      new;
      InitLock(cols);
    }

    method Perform(e: SysEvent)
      requires Valid() && SysEnabled(server, app, e)
      modifies this`server, this`trace
      ensures Valid() && server == SysStep(old(server), app, e) && trace == old(trace) + [e]
    {
      hide SysStep, SysEnabled, LockInv;
      LockKept(server, app, e);
      assert (trace + [e])[..|trace|] == trace;
      trace := trace + [e];
      server := SysStep(server, app, e);
    }

    /** Any number of events of others; a ticket this client holds is nobody else's to use. */
    method Meanwhile(ticket: Option<nat>)
      requires Valid() && (ticket.Some? ==> ticket.value in server.pending)
      modifies this`server, this`trace
      ensures Valid()
      ensures ticket.Some? ==>
                ticket.value in server.pending && server.pending[ticket.value] == old(server).pending[ticket.value]
    {
      var n: nat := *;
      while n > 0
        invariant Valid()
        invariant ticket.Some? ==>
                    ticket.value in server.pending && server.pending[ticket.value] == old(server).pending[ticket.value]
      {
        var e: SysEvent := *;
        if SysEnabled(server, app, e) && (ticket.Some? ==> !UsesTicket(e, ticket.value)) {
          if ticket.Some? {
            TicketWaits(server, app, e, ticket.value);
          }
          Perform(e);
        }
        n := n - 1;
      }
    }

    /** This call was granted the lock under `ticket`, started the deployment, and it is the one that runs. */
    ghost predicate HasStarted(plan: Plan, ticket: nat)
      reads this`server, this`own
    {
      && own == [RequestLock(plan), StartRun(ticket)]
      && server.coord.active == Some(ActiveDeployment(plan.id, WorkflowID(plan.id)))
      && ticket in server.deps && server.deps[ticket] == Start(plan, true)
      && forall t :: Running(server, t) <==> t == ticket
    }

    /** This call was granted the lock under `ticket` and nobody will ever use or release it. */
    ghost predicate HasLeaked(plan: Plan, ticket: nat)
      reads this`server, this`own
    {
      GaveUp(plan, ticket) || (WasRefused(plan, ticket) && server.orphans == {ticket})
    }

    ghost predicate GaveUp(plan: Plan, ticket: nat)
      reads this`server, this`own
    {
      own == [RequestLock(plan), LoseGrant(ticket)] && server.orphans == {ticket}
    }

    /** This call was granted the lock under `ticket`, and the start was refused: one that lingers has its ID. */
    ghost predicate WasRefused(plan: Plan, ticket: nat)
      reads this`server, this`own
    {
      && own == [RequestLock(plan), RefuseStart(ticket)]
      && exists t | t in server.deps :: t < ticket && Lingering(server, t) && server.deps[t].plan.id == plan.id
    }

    /** The client gives up on a lock it has been granted. */
    method GiveUp(plan: Plan, ticket: nat)
      requires Valid() && ticket in server.pending && own == [RequestLock(plan)]
      modifies this`server, this`trace, this`own
      ensures Valid() && GaveUp(plan, ticket)
    {
      assert InMode(server, Granted);
      Perform(LoseGrant(ticket));
      own := own + [LoseGrant(ticket)];
    }

    /** The start is refused; the lock stays with the grant that nobody will use. */
    method StartRefused(plan: Plan, ticket: nat)
      requires Valid() && ticket in server.pending && server.pending[ticket] == plan && own == [RequestLock(plan)]
      requires IDInUse(server, WorkflowID(plan.id))
      modifies this`server, this`trace, this`own
      ensures Valid() && WasRefused(plan, ticket) && HasLeaked(plan, ticket)
    {
      hide Execute;
      assert InMode(server, Granted);
      StartIsRefusedIff(server, app, ticket);
      Perform(RefuseStart(ticket));
      own := own + [RefuseStart(ticket)];
    }

    method StartGranted(plan: Plan, ticket: nat)
      requires Valid() && ticket in server.pending && server.pending[ticket] == plan && own == [RequestLock(plan)]
      requires !IDInUse(server, WorkflowID(plan.id))
      modifies this`server, this`trace, this`own
      ensures Valid() && HasStarted(plan, ticket)
    {
      hide Execute;
      assert InMode(server, Granted);
      Perform(StartRun(ticket));
      own := own + [StartRun(ticket)];
      assert InMode(server, Active);
    }

    /** This call holds no lock, and another deployment does. */
    ghost predicate FoundLocked()
      reads this`server, this`own
    {
      own == [] && server.coord.active.Some?
    }

    /**
     What the call meets decides its answer, and the answer tells what it met: whether a deployment is active when the
     request arrives (`held`), and whether the deployment's ID is in use when it is to be started (`taken`), which means
     that an earlier deployment of the same plan has reported and not returned.

     Every other answer is an error that leaves the lock alone, or the deployment running although its start was not
     confirmed, or the lock taken for good. That is so exactly when a grant was not followed by a start.
     */
    method StartDeployment(plan: Plan, net: Network)
      returns (result: StartResult, ghost ticket: nat, ghost held: bool, ghost taken: bool)
      requires Valid()
      modifies this
      ensures Valid()
      ensures result.SchemaCurrentlyLocked? <==> net.Reaches() && held
      ensures result.Started? <==> net.Reaches() && !held && net.Starts() && !taken && net.confirmed
      ensures result.DeploymentAlreadyExists? <==> net.Reaches() && !held && net.Starts() && taken && net.confirmed
      ensures !net.Reaches() ==> own == []
      ensures net.Reaches() && held ==> FoundLocked()
      ensures net.Reaches() && !held ==>
                if !net.Starts() then GaveUp(plan, ticket)
                else if taken then WasRefused(plan, ticket) && HasLeaked(plan, ticket)
                else HasStarted(plan, ticket)
      ensures result.Started? ==> result.workflowID == WorkflowID(plan.id)
      ensures own != [] && !HasStarted(plan, ticket) ==> !Freeable(server, app)
      ensures Freeable(server, app) <==> server.orphans == {}
    {
      hide Execute;
      own, ticket := [], 0;
      Meanwhile(None);
      held, taken := server.coord.active.Some?, false;
      if !net.up || !net.delivered {
        result := Unavailable;
      } else if !Accepts(server.coord) {
        result := SchemaCurrentlyLocked;
      } else {
        result, ticket, taken := Acquire(plan, net);
      }
      LockIsFreeableIffNotAbandoned(server, app, initial);
    }

    /** The validator has accepted. */
    method Acquire(plan: Plan, net: Network) returns (result: StartResult, ghost ticket: nat, ghost taken: bool)
      requires Valid() && Accepts(server.coord) && own == []
      modifies this`server, this`trace, this`own
      ensures Valid() && !result.SchemaCurrentlyLocked?
      ensures result.Started? <==> net.Starts() && !taken && net.confirmed
      ensures result.DeploymentAlreadyExists? <==> net.Starts() && taken && net.confirmed
      ensures if !net.Starts() then GaveUp(plan, ticket)
              else if taken then WasRefused(plan, ticket) && HasLeaked(plan, ticket)
              else HasStarted(plan, ticket)
      ensures result.Started? ==> result.workflowID == WorkflowID(plan.id)
    {
      hide Execute, Running, Start;
      var granted := server.grants;
      ticket, taken := granted, false;
      Perform(RequestLock(plan));
      own := [RequestLock(plan)];
      assert ticket in server.pending && server.pending[ticket] == plan;
      hide *;
      Meanwhile(Some(granted));
      if !net.answered || !net.startable {
        GiveUp(plan, granted);
        return Unavailable, ticket, taken;
      }
      // What comes of the start can be lost on its way back.
      if IDInUse(server, WorkflowID(plan.id)) {
        StartRefused(plan, granted);
        taken := true;
        result := if net.confirmed then DeploymentAlreadyExists else Unavailable;
        return;
      }
      StartGranted(plan, granted);
      result := if net.confirmed then Started(WorkflowID(plan.id)) else Unavailable;
    }
  }
}
