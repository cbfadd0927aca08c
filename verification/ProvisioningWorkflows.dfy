/**
 The provisioning workflows as they are written, over the in-memory resources: activities retried up to their
 policy, result fields set as steps succeed, compensation that branches on them. Every run is proved to be what
 module Provisioning says of its log. (internal/temporal/workflow.go, internal/temporal/session2_workflow.go,
 internal/connectors/fakes.go, internal/store/memory.go)
 */
module ProvisioningWorkflows {
  import opened Wrappers
  import opened Provisioning
  import opened ProvisioningTheorems
  import opened ProvisioningSuccess
  import Connectors
  import opened ConnectorActivities

  // ---- in-memory resources ----

  /** A list without the first occurrence of an element. */
  function RemoveFirst(s: seq<string>, x: string): seq<string> {
    if s == [] then [] else if s[0] == x then s[1..] else [s[0]] + RemoveFirst(s[1..], x)
  }

  lemma {:induction false} RemoveFirstCounts(s: seq<string>, x: string)
    ensures multiset(RemoveFirst(s, x)) == Less(multiset(s), x, 1)
  {
    if s != [] {
      assert s == [s[0]] + s[1..];
      RemoveFirstCounts(s[1..], x);
    }
  }

  lemma {:induction false} RemoveFirstAt(s: seq<string>, x: string, i: nat)
    requires i < |s| && s[i] == x && x !in s[..i]
    ensures RemoveFirst(s, x) == s[..i] + s[i + 1..]
  {
    if i > 0 {
      assert s[0] == s[..i][0];
      assert s[1..][..i - 1] == s[..i][1..];
      RemoveFirstAt(s[1..], x, i - 1);
    }
  }

  lemma {:induction false} RemoveFirstAbsent(s: seq<string>, x: string)
    requires x !in s
    ensures RemoveFirst(s, x) == s
  {
    if s != [] {
      RemoveFirstAbsent(s[1..], x);
    }
  }

  lemma AppendCounts(s: seq<string>, x: string)
    ensures multiset(s + [x]) == Plus(multiset(s), x, 1)
  {
  }

  class FakeStreamProvisioner {
    var streams: seq<string>

    constructor ()
      ensures streams == []
    {
      streams := [];
    }

    method EnsureStream(key: PipelineKey) returns (id: string)
      modifies this
      ensures id == "stream-" + key.tenant + "-" + key.pipeline && streams == old(streams) + [id]
    {
      id := "stream-" + key.tenant + "-" + key.pipeline;
      streams := streams + [id];
    }

    /** Splices the first match out; deleting what is not there is no error. */
    method DeleteStream(streamID: string)
      modifies this
      ensures streams == RemoveFirst(old(streams), streamID)
    {
      for i := 0 to |streams|
        invariant streams == old(streams) && streamID !in streams[..i]
      {
        if streams[i] == streamID {
          RemoveFirstAt(streams, streamID, i);
          streams := streams[..i] + streams[i + 1..];
          return;
        }
      }
      RemoveFirstAbsent(streams, streamID);
    }
  }

  class FakeSinkProvisioner {
    var sinks: seq<string>
    var calls: nat

    constructor ()
      ensures sinks == []
    {
      sinks, calls := [], 0;
    }

    method EnsureSink(sinkType: string, target: string) returns (id: string)
      modifies this
      ensures id == "sink-" + sinkType + "-" + target && sinks == old(sinks) + [id] && calls == old(calls) + 1
    {
      calls := calls + 1;
      id := "sink-" + sinkType + "-" + target;
      sinks := sinks + [id];
    }

    method DeleteSink(sinkID: string)
      modifies this
      ensures sinks == RemoveFirst(old(sinks), sinkID) && calls == old(calls)
    {
      for i := 0 to |sinks|
        invariant sinks == old(sinks) && calls == old(calls) && sinkID !in sinks[..i]
      {
        if sinks[i] == sinkID {
          RemoveFirstAt(sinks, sinkID, i);
          sinks := sinks[..i] + sinks[i + 1..];
          return;
        }
      }
      RemoveFirstAbsent(sinks, sinkID);
    }
  }

  class FakeCDCProvisioner {
    var captures: seq<string>

    constructor ()
      ensures captures == []
    {
      captures := [];
    }

    method StartCapture(database: string, schema: string) returns (id: string)
      modifies this
      ensures id == "cap-" + database + "-" + schema && captures == old(captures) + [id]
    {
      id := "cap-" + database + "-" + schema;
      captures := captures + [id];
    }
  }

  /** Pipeline specs and states, under the same keys. */
  class InMemoryMetadataStore {
    var pipelines: map<PipelineKey, PipelineSpec>
    var states: map<PipelineKey, PipelineState>

    ghost predicate Valid()
      reads this
    {
      && pipelines.Keys == states.Keys
      && forall k :: k in pipelines ==> pipelines[k].key == k
    }

    constructor ()
      ensures Valid() && pipelines == map[]
    {
      pipelines, states := map[], map[];
    }

    method CreatePipeline(spec: PipelineSpec) returns (ok: bool)
      requires Valid()
      modifies this
      ensures Valid() && ok == (spec.key !in old(pipelines))
      ensures pipelines == if ok then old(pipelines)[spec.key := spec] else old(pipelines)
      ensures states == if ok then old(states)[spec.key := PendingState] else old(states)
    {
      ok := spec.key !in pipelines;
      if ok {
        pipelines := pipelines[spec.key := spec];
        states := states[spec.key := PendingState];
      }
    }

    method UpdatePipeline(spec: PipelineSpec) returns (ok: bool)
      requires Valid()
      modifies this
      ensures Valid() && ok == (spec.key in old(pipelines)) && states == old(states)
      ensures pipelines == if ok then old(pipelines)[spec.key := spec] else old(pipelines)
    {
      ok := spec.key in pipelines;
      if ok {
        pipelines := pipelines[spec.key := spec];
      }
    }

    method SetPipelineState(key: PipelineKey, state: PipelineState) returns (ok: bool)
      requires Valid()
      modifies this`states
      ensures Valid() && ok == (key in old(states))
      ensures states == if ok then old(states)[key := state] else old(states)
    {
      ok := key in pipelines;
      if ok {
        states := states[key := state];
      }
    }

    method GetPipelineState(key: PipelineKey) returns (state: Option<PipelineState>)
      requires Valid()
      ensures state == if key in states then Some(states[key]) else None
    {
      if key !in pipelines {
        return None;
      }
      state := Some(states[key]);
    }
  }

  // ---- the workflows ----

  datatype ProvisionResult = ProvisionResult(streamID: string, sinkID: string, captureID: string, connectorName: string)

  /**
   What the environment does to an attempt: whether it comes to a worker, whether its reply comes back, whether the
   worker is lost between two writes, and what an activity answers that is not part of this model.
   */
  datatype Fate = Fate(reached: bool, answered: bool, torn: bool, accepted: bool)
  {
    predicate Smooth() { reached && answered && !torn && accepted }
  }

  class ProvisioningWorkflow {
    const job: Job
    const fate: (Step, nat) -> Fate   // of each attempt at each activity
    const stream: FakeStreamProvisioner
    const sink: FakeSinkProvisioner
    const cdc: FakeCDCProvisioner
    const metadata: InMemoryMetadataStore
    const session2: Session2Activities

    ghost const origin: Resources   // what this run started on
    ghost var log: seq<Ran>         // what this run has done

    constructor (job: Job, stream: FakeStreamProvisioner, sink: FakeSinkProvisioner, cdc: FakeCDCProvisioner,
                 metadata: InMemoryMetadataStore, session2: Session2Activities, fate: (Step, nat) -> Fate)
      requires metadata.Valid() && session2.alone
      ensures this.job == job && this.fate == fate && log == [] && Recorded() && origin == Res()
    {
      this.job, this.stream, this.sink, this.cdc := job, stream, sink, cdc;
      this.metadata, this.session2, this.fate := metadata, session2, fate;
      origin := Resources(multiset(stream.streams), multiset(sink.sinks), multiset(cdc.captures),
                          session2.kafka.connectors.Keys, session2.store.connectors, metadata.states);
      log := [];
    }

    ghost function Res(): Resources
      reads stream, sink, cdc, metadata, session2.kafka, session2.store
    {
      Resources(multiset(stream.streams), multiset(sink.sinks), multiset(cdc.captures),
                session2.kafka.connectors.Keys, session2.store.connectors, metadata.states)
    }

    /** The resources are what the log makes of the ones this run started on. */
    ghost predicate Recorded()
      reads this`log, stream, sink, cdc, metadata, session2.kafka, session2.store
    {
      && metadata.Valid() && session2.alone
      && Res() == Replay(origin, job, log) && AllPossible(origin, job, log)
    }

    /** Nothing is lost, and what is not part of this model accepts. */
    ghost predicate Smoothly() { forall step, attempt :: fate(step, attempt).Smooth() }

    /** The job's connector is in both registries, and runs. */
    predicate ConnectorRuns()
      reads session2.kafka, session2.store
    {
      && job.connector.name in session2.kafka.connectors && session2.kafka.connectors[job.connector.name].Running?
      && ConnectorKey(job, job.connector.name) in session2.store.connectors
    }

    /** Why an activity fails that nothing has happened to. */
    predicate Refused(step: Step)
      reads metadata, session2.kafka, session2.store
    {
      match step
      case Mark(_) => job.spec.key !in metadata.states
      case CreateConnector =>
        || !Connectors.ValidConfig(job.connector) || job.connector.name in session2.kafka.connectors
        || ConnectorKey(job, job.connector.name) in session2.store.connectors
      case AwaitConnector => !ConnectorRuns()
      case _ => false
    }

    /** The outcome of an attempt: the worker may be lost before the activity, or its reply after it. */
    method Attempt(step: Step, fate: Fate) returns (ok: bool, ghost x: Ran)
      requires metadata.Valid() && session2.alone
      modifies stream, sink, cdc, metadata`states, session2`now, session2.kafka, session2.store
      ensures metadata.Valid()
      ensures x.step == step && x.ok == ok && Possible(old(Res()), job, x) && Res() == Apply(old(Res()), job, x)
      ensures !ok ==> !fate.Smooth() || old(Refused(step))
      ensures ok && step.CreateConnector? ==> ConnectorRuns()
    {
      hide Plus, Less, StreamID, SinkID, CaptureID;
      ghost var r := Res();
      ok, x := false, Ran(step, false, 0, 0);
      NoEffect(r, job, step);
      if !fate.reached {
        return;
      }
      ok := true;
      match step {
        case EnsureStream => x := EnsureStreamActivity();
        case EnsureSink => x := EnsureSinkActivity();
        case StartCapture => x := StartCaptureActivity();
        case DeleteStream(id) => x := DeleteStreamActivity(id);
        case DeleteSink(id) => x := DeleteSinkActivity(id);
        case Mark(state) => ok, x := MarkActivity(state);
        case CreateConnector => ok, x := CreateConnectorActivity(fate.torn);
        case DeleteConnector(name) => ok, x := DeleteConnectorActivity(name, fate.torn);
        case AwaitConnector => ok, x := AwaitConnectorActivity();
        case _ =>
          ok := fate.accepted;
          x := Ran(step, ok, 0, 0);
      }
      ReplyLost(r, x);
      if !fate.answered {
        ok, x := false, x.(ok := false);
      }
    }

    method EnsureStreamActivity() returns (ghost x: Ran)
      modifies stream
      ensures x == Ran(EnsureStream, true, 1, 0) && Res() == Apply(old(Res()), job, x)
    {
      hide Plus, Less;
      x := Ran(EnsureStream, true, 1, 0);
      AppendCounts(stream.streams, StreamID(job.spec));
      var _ := stream.EnsureStream(job.spec.key);
    }

    method EnsureSinkActivity() returns (ghost x: Ran)
      modifies sink
      ensures x == Ran(EnsureSink, true, 1, 0) && Res() == Apply(old(Res()), job, x)
    {
      hide Plus, Less;
      x := Ran(EnsureSink, true, 1, 0);
      AppendCounts(sink.sinks, SinkID(job.spec));
      var _ := sink.EnsureSink(job.spec.sinkType, job.spec.target);
    }

    method StartCaptureActivity() returns (ghost x: Ran)
      modifies cdc
      ensures x == Ran(StartCapture, true, 1, 0) && Res() == Apply(old(Res()), job, x)
    {
      hide Plus, Less;
      x := Ran(StartCapture, true, 1, 0);
      AppendCounts(cdc.captures, CaptureID(job.spec));
      var _ := cdc.StartCapture(job.spec.database, job.spec.schema);
    }

    method DeleteStreamActivity(id: string) returns (ghost x: Ran)
      modifies stream
      ensures x == Ran(DeleteStream(id), true, 1, 0) && Res() == Apply(old(Res()), job, x)
    {
      hide Plus, Less;
      x := Ran(DeleteStream(id), true, 1, 0);
      RemoveFirstCounts(stream.streams, id);
      stream.DeleteStream(id);
    }

    method DeleteSinkActivity(id: string) returns (ghost x: Ran)
      modifies sink
      ensures x == Ran(DeleteSink(id), true, 1, 0) && Res() == Apply(old(Res()), job, x)
    {
      hide Plus, Less;
      x := Ran(DeleteSink(id), true, 1, 0);
      RemoveFirstCounts(sink.sinks, id);
      sink.DeleteSink(id);
    }

    method MarkActivity(state: PipelineState) returns (ok: bool, ghost x: Ran)
      requires metadata.Valid()
      modifies metadata`states
      ensures metadata.Valid() && x.step == Mark(state) && x.ok == ok && Possible(old(Res()), job, x)
      ensures !ok ==> old(Refused(Mark(state)))
      ensures Res() == Apply(old(Res()), job, x)
    {
      hide Plus, Less;
      ok := metadata.SetPipelineState(job.spec.key, state);
      x := Ran(Mark(state), ok, if ok then 1 else 0, 0);
    }

    method CreateConnectorActivity(torn: bool) returns (ok: bool, ghost x: Ran)
      modifies session2.kafka, session2.store
      ensures x.step == CreateConnector && x.ok == ok && Possible(old(Res()), job, x)
                && Res() == Apply(old(Res()), job, x)
      ensures !ok ==> torn || old(Refused(CreateConnector))
      ensures ok ==> ConnectorRuns()
    {
      hide Plus, Less;
      ghost var w := session2.World();
      var key := ConnectorKey(job, job.connector.name);
      ok := session2.CreateConnectorActivity(key, job.connector.config, torn);
      ghost var a := Connectors.Create(key, job.connector.config, torn);
      x := Ran(CreateConnector, ok, if Connectors.KafkaAccepts(w, a) then 1 else 0, if ok then 1 else 0);
    }

    method DeleteConnectorActivity(name: string, torn: bool) returns (ok: bool, ghost x: Ran)
      modifies session2.kafka, session2.store
      ensures x.step == DeleteConnector(name) && x.ok == ok && Possible(old(Res()), job, x)
                && Res() == Apply(old(Res()), job, x)
      ensures ok == !torn
    {
      hide Plus, Less;
      ok := session2.DeleteConnectorActivity(ConnectorKey(job, name), torn);
      x := Ran(DeleteConnector(name), ok, 1, if ok then 1 else 0);
    }

    method AwaitConnectorActivity() returns (ok: bool, ghost x: Ran)
      requires session2.alone
      modifies session2`now, session2.kafka, session2.store
      ensures x.step == AwaitConnector && x.ok == ok && Possible(old(Res()), job, x)
                && Res() == Apply(old(Res()), job, x)
      ensures !ok ==> old(Refused(AwaitConnector))
    {
      hide Plus, Less;
      var key := ConnectorKey(job, job.connector.name);
      var cancelled, polls;
      ghost var seen;
      var lease: nat := *;
      ok, cancelled, polls, seen := session2.WaitForConnectorRunningActivity(key, 3 * SECOND, 300 * SECOND, lease);
      x := Ran(AwaitConnector, ok, 0, if ok then 1 else 0);
    }

    /** The reply to an attempt that did what `x` says is lost. */
    lemma ReplyLost(r: Resources, x: Ran)
      requires Possible(r, job, x)
      ensures Possible(r, job, x.(ok := false)) && Apply(r, job, x.(ok := false)) == Apply(r, job, x)
    {
    }

    function MaxAttempts(step: Step): nat { if step.AwaitConnector? then 1 else 3 }

    lemma OneMore(log: seq<Ran>, x: Ran, r: Resources, r': Resources)
      requires r == Replay(origin, job, log) && AllPossible(origin, job, log)
      requires Possible(r, job, x) && r' == Apply(r, job, x)
      ensures r' == Replay(origin, job, log + [x]) && AllPossible(origin, job, log + [x])
    {
      hide Apply, Possible;
      assert (log + [x])[..|log|] == log;
    }

    /** An activity as Temporal runs it: three attempts, but one wait. */
    method ExecuteActivity(step: Step) returns (ok: bool, tries: nat, ghost x: Ran)
      requires Recorded()
      modifies this`log, stream, sink, cdc, metadata`states, session2`now, session2.kafka, session2.store
      ensures Recorded() && x.step == step && x.ok == ok && log == old(log) + [x]
      ensures Possible(old(Res()), job, x)
      ensures 1 <= tries <= if step.AwaitConnector? then 1 else 3
      ensures !ok ==> tries == if step.AwaitConnector? then 1 else 3
      ensures !ok && Smoothly() ==> old(Refused(step))
      ensures ok && step.CreateConnector? ==> ConnectorRuns()
    {
      hide Possible, Apply, Refused, ConnectorRuns, Replay, AllPossible;
      ghost var r := Res();
      ok, tries, x := false, 0, Ran(step, false, 0, 0);
      NoEffect(r, job, step);
      while !ok && tries < MaxAttempts(step)
        invariant metadata.Valid() && log == old(log) && tries <= MaxAttempts(step) && (ok ==> tries > 0)
        invariant x.step == step && x.ok == ok && Possible(r, job, x) && Res() == Apply(r, job, x)
        invariant tries == 0 ==> Refused(step) == old(Refused(step))
        invariant tries > 0 && !ok && Smoothly() ==> old(Refused(step))
        invariant ok && step.CreateConnector? ==> ConnectorRuns()
      {
        ghost var y;
        ok, y := Attempt(step, fate(step, tries));
        RetryAddsUp(r, job, x, y);
        x := Retried(x, y);
        tries := tries + 1;
      }
      OneMore(log, x, r, Res());
      log := log + [x];
    }

    // ---- going forward ----

    ghost predicate Going(g: Saga, n: nat)
      reads this`log, stream, sink, cdc, metadata, session2.kafka, session2.store
    {
      Recorded() && |log| == n && Ahead(g, n, log)
    }

    ghost predicate Stopped(g: Saga, n: nat)
      reads this`log, stream, sink, cdc, metadata, session2.kafka, session2.store
    {
      Recorded() && n < Length(g) && |log| == n + 1 && Ahead(g, n, log) && log[n].step == StepOf(g, n) && !log[n].ok
    }

    /** Nothing comes in between, the pipeline is known, and a connector that is asked for can be created. */
    ghost predicate Favoured(g: Saga) {
      Smoothly() && job.spec.key in origin.states && (g.CDC? ==> Creatable(origin, job))
    }

    lemma NotRefused(g: Saga, n: nat)
      requires Going(g, n) && n < Length(g) && Favoured(g) && (StepOf(g, n).AwaitConnector? ==> ConnectorRuns())
      ensures !Refused(StepOf(g, n))
    {
      hide Replay, AllPossible, Plus, Less, CaptureID;
      WhatNobodyUndoes(origin, job, log);
      if StepOf(g, n).CreateConnector? {
        NothingTouched(g, n);
      }
      hide StepOf, Ahead;
    }

    lemma NothingTouched(g: Saga, n: nat)
      requires Going(g, n) && n < Length(g) && StepOf(g, n).CreateConnector?
      ensures session2.kafka.connectors.Keys == origin.kafka && session2.store.connectors == origin.records
    {
      ConnectorsUntouched(origin, job, log);
      hide Replay, AllPossible;
    }

    method Step(g: Saga, n: nat) returns (ok: bool, ghost failed: nat)
      requires Going(g, n) && n < Length(g)
      modifies this`log, stream, sink, cdc, metadata`states, session2`now, session2.kafka, session2.store
      ensures failed == n && if ok then Going(g, n + 1) else Stopped(g, n)
      ensures ok && StepOf(g, n).CreateConnector? ==> job.connector.name != "" && ConnectorRuns()
      ensures Favoured(g) && (StepOf(g, n).AwaitConnector? ==> old(ConnectorRuns())) ==> ok
    {
      hide Replay, AllPossible, StepOf, Apply, Refused, ConnectorRuns, Creatable;
      ghost var x;
      failed := n;
      if Favoured(g) && (StepOf(g, n).AwaitConnector? ==> ConnectorRuns()) {
        NotRefused(g, n);
      }
      var tries;
      ok, tries, x := ExecuteActivity(StepOf(g, n));
    }

    /** What the result says when step `n` has been reached. */
    function ResultAt(g: Saga, n: nat): ProvisionResult {
      ProvisionResult(
        if n > 4 then StreamID(job.spec) else "",
        if n > (if g.Pipeline? then 5 else 7) then SinkID(job.spec) else "",
        if g.Pipeline? && n > 6 then CaptureID(job.spec) else "",
        if g.CDC? && n > 5 then job.connector.name else "")
    }

    /** The objects as a successful run leaves them. */
    ghost predicate Provisioned(g: Saga)
      reads this`log, stream, sink, cdc, metadata, session2.kafka, session2.store
    {
      && |log| == Length(g) && log[4].effects > 0 && log[SinkStep(g)].effects > 0
      && job.spec.key in origin.states && metadata.states == origin.states[job.spec.key := ActiveState]
      && Grown(origin.streams, multiset(stream.streams), StreamID(job.spec), log[4].effects)
      && Grown(origin.sinks, multiset(sink.sinks), SinkID(job.spec), log[SinkStep(g)].effects)
      && (g.CDC? ==>
            && Creatable(origin, job)
            && session2.kafka.connectors.Keys == origin.kafka + {job.connector.name}
            && session2.store.connectors
               == origin.records[ConnectorKey(job, job.connector.name) :=
                                   Connectors.Record(job.connector, Connectors.Running)])
      && (g.Pipeline? ==>
            && session2.kafka.connectors.Keys == origin.kafka && session2.store.connectors == origin.records
            && log[6].effects > 0
            && Grown(origin.captures, multiset(cdc.captures), CaptureID(job.spec), log[6].effects))
      && (Clean(log) ==> log[4].effects == log[SinkStep(g)].effects == 1 && (g.Pipeline? ==> log[6].effects == 1))
    }

    lemma SucceededIsProvisioned(g: Saga)
      requires Recorded() && Succeeded(g, log)
      ensures Provisioned(g)
    {
      SuccessLeaves(origin, g, job, log);
      hide Succeeded, AllPossible, Replay, StreamID, SinkID, CaptureID, Creatable, ConnectorKey, Clean;
    }

    /** ProvisionPipelineWorkflow. */
    method ProvisionPipeline() returns (ok: bool, result: ProvisionResult, ghost failed: nat)
      requires Going(Pipeline, 0)
      modifies this`log, stream, sink, cdc, metadata`states, session2`now, session2.kafka, session2.store
      ensures Recorded()
      ensures if ok then Succeeded(Pipeline, log) && result == ResultAt(Pipeline, 8)
              else FailedAt(Pipeline, job, failed, log) && result == ResultAt(Pipeline, failed)
      ensures ok ==> Provisioned(Pipeline)
      ensures Smoothly() ==> (ok <==> job.spec.key in origin.states)
    {
      NoWait();
      hide Replay, AllPossible, Ahead, StepOf, FailedAt, Compensation, Recorded, Provisioned, ConnectorRuns;
      result := ProvisionResult("", "", "", "");
      ok, failed := ReachSource(Pipeline);
      if !ok {
        return;
      }
      ok, failed := Step(Pipeline, 3);
      if !ok {
        Compensate(Pipeline, result, failed);
        return;
      }
      ok, failed := Step(Pipeline, 4);
      if !ok {
        Compensate(Pipeline, result, failed);
        return;
      }
      result := result.(streamID := StreamID(job.spec));
      ok, failed := Step(Pipeline, 5);
      if !ok {
        Compensate(Pipeline, result, failed);
        return;
      }
      result := result.(sinkID := SinkID(job.spec));
      ok, failed := Step(Pipeline, 6);
      if !ok {
        Compensate(Pipeline, result, failed);
        return;
      }
      result := result.(captureID := CaptureID(job.spec));
      ok, failed := Step(Pipeline, 7);
      if !ok {
        Compensate(Pipeline, result, failed);
        return;
      }
      SucceededIsProvisioned(Pipeline);
      KnownBefore(Pipeline);
    }

    lemma NoWait()
      ensures forall n :: StepOf(Pipeline, n) != AwaitConnector
      ensures forall n :: StepOf(CDC, n).AwaitConnector? ==> n == 6
    {
    }

    lemma KnownBefore(g: Saga)
      requires Provisioned(g)
      ensures job.spec.key in origin.states && (g.CDC? ==> Creatable(origin, job))
    {
    }

    /** The steps before anything is created: a failure is returned as it is. */
    method ReachSource(g: Saga) returns (ok: bool, ghost failed: nat)
      requires Going(g, 0)
      modifies this`log, stream, sink, cdc, metadata`states, session2`now, session2.kafka, session2.store
      ensures if ok then Going(g, 3) else failed < 3 && Recorded() && FailedAt(g, job, failed, log)
      ensures Favoured(g) ==> ok
    {
      NoWait();
      hide Replay, AllPossible, Ahead, StepOf, ConnectorRuns;
      ok, failed := Step(g, 0);
      if !ok {
        return;
      }
      ok, failed := Step(g, 1);
      if !ok {
        return;
      }
      ok, failed := Step(g, 2);
    }

    // ---- compensation ----

    /** Runs one compensating activity if `due`; its outcome is ignored. */
    method UndoIf(due: bool, step: Step, ghost n: nat, ghost undo: seq<Step>)
      requires Recorded() && n < |log| && Undone(undo, log[n + 1..])
      modifies this`log, stream, sink, cdc, metadata`states, session2`now, session2.kafka, session2.store
      ensures Recorded() && n < |log| && log[..n + 1] == old(log)[..n + 1]
      ensures Undone(undo + OnlyIf(due, step), log[n + 1..])
    {
      hide Replay, AllPossible, Apply, Possible;
      if due {
        var _, _, x := ExecuteActivity(step);
        assert log[n + 1..] == old(log)[n + 1..] + [x];
      }
    }

    /** compensate and compensateCDC: which activities run depends on the result alone. */
    method Compensate(g: Saga, result: ProvisionResult, ghost n: nat)
      requires Stopped(g, n) && n >= 3 && result == ResultAt(g, n) && (g.CDC? && n > 5 ==> job.connector.name != "")
      modifies this`log, stream, sink, cdc, metadata`states, session2`now, session2.kafka, session2.store
      ensures Recorded() && FailedAt(g, job, n, log)
    {
      hide Replay, AllPossible, Ahead, StepOf;
      ghost var undo: seq<Step> := [];
      ghost var before := log;
      assert log[n + 1..] == [];
      assert Undone(undo, log[n + 1..]);
      UndoIf(result.captureID != "", StopCapture, n, undo);
      undo := undo + OnlyIf(result.captureID != "", StopCapture);
      UndoIf(result.connectorName != "", DeleteConnector(result.connectorName), n, undo);
      undo := undo + OnlyIf(result.connectorName != "", DeleteConnector(result.connectorName));
      UndoIf(result.sinkID != "", DeleteSink(result.sinkID), n, undo);
      undo := undo + OnlyIf(result.sinkID != "", DeleteSink(result.sinkID));
      UndoIf(result.streamID != "", DeleteStream(result.streamID), n, undo);
      undo := undo + OnlyIf(result.streamID != "", DeleteStream(result.streamID));
      UndoIf(true, Mark(ErrorState), n, undo);
      undo := undo + [Mark(ErrorState)];
      CompensationByResult(g, n, result);
      SamePrefixSameFailure(g, n, before, log);
    }

    lemma CompensationByResult(g: Saga, n: nat, result: ProvisionResult)
      requires 3 <= n < Length(g) && result == ResultAt(g, n) && (g.CDC? && n > 5 ==> job.connector.name != "")
      ensures Compensation(job, g, n)
              == [] + OnlyIf(result.captureID != "", StopCapture)
                 + OnlyIf(result.connectorName != "", DeleteConnector(result.connectorName))
                 + OnlyIf(result.sinkID != "", DeleteSink(result.sinkID))
                 + OnlyIf(result.streamID != "", DeleteStream(result.streamID)) + [Mark(ErrorState)]
    {
    }

    lemma SamePrefixSameFailure(g: Saga, n: nat, before: seq<Ran>, after: seq<Ran>)
      requires |before| == n + 1 <= |after| && after[..n + 1] == before
      requires Ahead(g, n, before) && before[n].step == StepOf(g, n) && !before[n].ok
      ensures Ahead(g, n, after) && after[n].step == StepOf(g, n) && !after[n].ok
    {
    }

    // ---- the CDC saga ----

    lemma CreateIsFifth()
      ensures StepOf(CDC, 5).CreateConnector?
    {
    }

    /** ProvisionCDCPipelineWorkflow. */
    method ProvisionCDCPipeline() returns (ok: bool, result: ProvisionResult, ghost failed: nat)
      requires Going(CDC, 0)
      modifies this`log, stream, sink, cdc, metadata`states, session2`now, session2.kafka, session2.store
      ensures Recorded()
      ensures if ok then Succeeded(CDC, log) && result == ResultAt(CDC, 9)
              else FailedAt(CDC, job, failed, log) && result == ResultAt(CDC, failed)
      ensures ok ==> Provisioned(CDC)
      ensures Smoothly() ==> (ok <==> job.spec.key in origin.states && Creatable(origin, job))
    {
      NoWait();
      hide Replay, AllPossible, Ahead, StepOf, FailedAt, Compensation, Recorded, Provisioned, ConnectorRuns, Creatable;
      result := ProvisionResult("", "", "", "");
      ok, failed := ReachSource(CDC);
      if !ok {
        return;
      }
      ok, failed := Step(CDC, 3);
      if !ok {
        Compensate(CDC, result, failed);
        return;
      }
      ok, failed := Step(CDC, 4);
      if !ok {
        Compensate(CDC, result, failed);
        return;
      }
      result := result.(streamID := StreamID(job.spec));
      ok, failed := Step(CDC, 5);
      if !ok {
        Compensate(CDC, result, failed);
        return;
      }
      CreateIsFifth();
      result := result.(connectorName := job.connector.name);
      ok, failed := Step(CDC, 6);
      if !ok {
        Compensate(CDC, result, failed);
        return;
      }
      ok, failed := Step(CDC, 7);
      if !ok {
        Compensate(CDC, result, failed);
        return;
      }
      result := result.(sinkID := SinkID(job.spec));
      ok, failed := Step(CDC, 8);
      if !ok {
        Compensate(CDC, result, failed);
        return;
      }
      SucceededIsProvisioned(CDC);
      KnownBefore(CDC);
    }

    // ---- decommission ----

    /** A run of the first `|log|` of the steps, all of them successful. */
    ghost predicate Descending(steps: seq<Step>)
      reads this`log, stream, sink, cdc, metadata, session2.kafka, session2.store
    {
      Recorded() && Undone(steps, log) && forall i :: 0 <= i < |log| ==> log[i].ok
    }

    /** The last step has failed. */
    ghost predicate Aborted(steps: seq<Step>)
      reads this`log, stream, sink, cdc, metadata, session2.kafka, session2.store
    {
      && Recorded() && |log| > 0 && !log[|log| - 1].ok
      && |log| <= |steps| && Undone(steps[..|log|], log)
    }

    /** The next of `all` steps, if it is due. */
    method DescendIf(due: bool, step: Step, ghost steps: seq<Step>, ghost all: seq<Step>) returns (ok: bool)
      requires Descending(steps) && steps + OnlyIf(due, step) <= all
      modifies this`log, stream, sink, cdc, metadata`states, session2`now, session2.kafka, session2.store
      ensures if ok then Descending(steps + OnlyIf(due, step)) else Aborted(all)
      ensures Smoothly() && (step.Mark? ==> job.spec.key in origin.states) && !step.CreateConnector?
              && !step.AwaitConnector? ==>
                ok
    {
      if step.Mark? {
        WhatNobodyUndoes(origin, job, log);
      }
      hide Replay, AllPossible, Apply, Possible;
      if !due {
        assert steps + [] == steps;
        return true;
      }
      ghost var x;
      var tries;
      ok, tries, x := ExecuteActivity(step);
      assert all[..|log|] == steps + [step];
    }

    lemma DescentLeaves(connectorName: string, streamID: string, sinkID: string)
      requires Descending(Decommission(connectorName, streamID, sinkID))
      ensures session2.kafka.connectors.Keys == origin.kafka - {connectorName}
      ensures session2.store.connectors == origin.records - {ConnectorKey(job, connectorName)}
      ensures job.spec.key in origin.states
      ensures metadata.states == origin.states[job.spec.key := DecommissionedState]
    {
      DecommissionLeaves(origin, job, connectorName, streamID, sinkID, log);
      hide Replay, AllPossible, Decommission, ConnectorKey;
    }

    /** DecommissionCDCPipelineWorkflow: the first failure is returned, and nothing is undone. */
    method DecommissionCDCPipeline(connectorName: string, streamID: string, sinkID: string) returns (ok: bool)
      requires Recorded() && log == []
      modifies this`log, stream, sink, cdc, metadata`states, session2`now, session2.kafka, session2.store
      ensures var steps := Decommission(connectorName, streamID, sinkID);
              if ok then Descending(steps) else Aborted(steps)
      ensures ok ==>
                && session2.kafka.connectors.Keys == origin.kafka - {connectorName}
                && session2.store.connectors == origin.records - {ConnectorKey(job, connectorName)}
                && job.spec.key in origin.states
                && metadata.states == origin.states[job.spec.key := DecommissionedState]
      ensures Smoothly() ==> (ok <==> job.spec.key in origin.states)
    {
      hide Replay, AllPossible, Recorded;
      ghost var s0: seq<Step> := [];
      ghost var s1 := s0 + OnlyIf(true, DeleteConnector(connectorName));
      ghost var s2 := s1 + OnlyIf(sinkID != "", DeleteSink(sinkID));
      ghost var s3 := s2 + OnlyIf(streamID != "", DeleteStream(streamID));
      ghost var s4 := s3 + OnlyIf(true, Mark(DecommissionedState));
      assert s4 == Decommission(connectorName, streamID, sinkID);
      ok := DescendIf(true, DeleteConnector(connectorName), s0, s4);
      if ok {
        ok := DescendIf(sinkID != "", DeleteSink(sinkID), s1, s4);
        if ok {
          ok := DescendIf(streamID != "", DeleteStream(streamID), s2, s4);
          if ok {
            ok := DescendIf(true, Mark(DecommissionedState), s3, s4);
            if ok {
              DescentLeaves(connectorName, streamID, sinkID);
            }
          }
        }
      }
    }
  }

  /** A failed provisioning in which no reply was lost and whose compensation worked has changed nothing else. */
  lemma FailureConserves(w: ProvisioningWorkflow, g: Saga, failed: nat)
    requires w.Recorded() && failed >= 3 && FailedAt(g, w.job, failed, w.log)
    requires Clean(w.log) && UndoWorked(w.origin, w.job, failed, w.log)
    ensures multiset(w.stream.streams) == w.origin.streams && multiset(w.sink.sinks) == w.origin.sinks
    ensures w.session2.kafka.connectors.Keys == w.origin.kafka && w.session2.store.connectors == w.origin.records
    ensures w.metadata.states
              == if w.job.spec.key in w.origin.states then w.origin.states[w.job.spec.key := ErrorState]
                  else w.origin.states
  {
    CleanFailureConserves(w.origin, g, w.job, failed, w.log);
    hide FailedAt, Clean, UndoWorked, Replay, AllPossible;
  }

  /** A decommission that starts where a successful provisioning of the same job has ended. */
  lemma RoundTripRestores(up: ProvisioningWorkflow, log: seq<Ran>, down: ProvisioningWorkflow)
    requires Succeeded(CDC, log) && AllPossible(up.origin, up.job, log)
    requires down.job == up.job && down.origin == Replay(up.origin, up.job, log)
    requires down.Descending(Decommission(up.job.connector.name, StreamID(up.job.spec), SinkID(up.job.spec)))
    ensures down.session2.kafka.connectors.Keys == up.origin.kafka
              && down.session2.store.connectors == up.origin.records
    ensures up.job.spec.key in up.origin.states
    ensures down.metadata.states == up.origin.states[up.job.spec.key := DecommissionedState]
    ensures Clean(log) && Clean(down.log) ==>
              multiset(down.stream.streams) == up.origin.streams && multiset(down.sink.sinks) == up.origin.sinks
  {
    ReplayConcat(up.origin, up.job, log, down.log);
    RoundTrip(up.origin, up.job, log, down.log);
    RoundTripSteps(up.job, log, down.log);
    hide Replay, AllPossible, Succeeded, Decommission, StreamID, SinkID;
  }
}
