/**
 The provisioning sagas as what they leave behind: every activity they run, whether it reported success, and
 how often it took effect, since an attempt whose reply is lost is retried and none of the creating activities
 is idempotent. Module ProvisioningWorkflows proves the workflows against this.
 (internal/temporal/workflow.go, internal/temporal/session2_workflow.go)
 */
module Provisioning {
  import Connectors

  datatype PipelineState =
    | PendingState | ProvisioningState | ActiveState | PausedState | ErrorState | DecommissionedState

  datatype PipelineKey = PipelineKey(tenant: string, pipeline: string)

  datatype PipelineSpec = PipelineSpec(
    key: PipelineKey, sinkType: string, target: string, database: string, schema: string)

  /** A pipeline and the connector it is to have. */
  datatype Job = Job(spec: PipelineSpec, connector: Connectors.Config)

  function StreamID(spec: PipelineSpec): string { "stream-" + spec.key.tenant + "-" + spec.key.pipeline }
  function SinkID(spec: PipelineSpec): string { "sink-" + spec.sinkType + "-" + spec.target }
  function CaptureID(spec: PipelineSpec): string { "cap-" + spec.database + "-" + spec.schema }

  function ConnectorKey(j: Job, name: string): Connectors.Key {
    Connectors.Key(j.spec.key.tenant, j.spec.key.pipeline, name)
  }

  /** Everything the sagas create and delete. */
  datatype Resources = Resources(
    streams: multiset<string>,
    sinks: multiset<string>,
    captures: multiset<string>,
    kafka: set<string>,                              // connector names in Kafka Connect
    records: map<Connectors.Key, Connectors.Record>, // connector records in the store
    states: map<PipelineKey, PipelineState>)

  datatype Step =
    | ValidateSpec | ValidatePolicy | EnsureSchema | PrepareSource
    | EnsureStream | EnsureSink | StartCapture | CreateConnector | AwaitConnector
    | StopCapture | DeleteConnector(name: string) | DeleteSink(sinkID: string) | DeleteStream(streamID: string)
    | Mark(state: PipelineState)

  /**
   An activity that was run, over all its attempts: what it reported, how many attempts took effect, and, for
   the connector activities, how many got through to the connector store.
   */
  datatype Ran = Ran(step: Step, ok: bool, effects: nat, records: nat)

  function Plus(m: multiset<string>, id: string, n: nat): multiset<string> { m[id := m[id] + n] }
  function Less(m: multiset<string>, id: string, n: nat): multiset<string> {
    m[id := if m[id] < n then 0 else m[id] - n]
  }

  lemma PlusPlus(m: multiset<string>, id: string, a: nat, b: nat)
    ensures Plus(Plus(m, id, a), id, b) == Plus(m, id, a + b) && Plus(m, id, 0) == m
  {
  }

  lemma LessLess(m: multiset<string>, id: string, a: nat, b: nat)
    ensures Less(Less(m, id, a), id, b) == Less(m, id, a + b) && Less(m, id, 0) == m
  {
  }

  function Apply(r: Resources, j: Job, x: Ran): Resources {
    match x.step
    case EnsureStream => r.(streams := Plus(r.streams, StreamID(j.spec), x.effects))
    case DeleteStream(id) => r.(streams := Less(r.streams, id, x.effects))
    case EnsureSink => r.(sinks := Plus(r.sinks, SinkID(j.spec), x.effects))
    case DeleteSink(id) => r.(sinks := Less(r.sinks, id, x.effects))
    case StartCapture => r.(captures := Plus(r.captures, CaptureID(j.spec), x.effects))
    case CreateConnector =>
      r.(kafka := if x.effects > 0 then r.kafka + {j.connector.name} else r.kafka,
         records := if x.records > 0 then
                      r.records[ConnectorKey(j, j.connector.name) :=
                                  Connectors.Record(j.connector, Connectors.Unassigned)]
                    else r.records)
    case AwaitConnector =>
      var k := ConnectorKey(j, j.connector.name);
      if x.records > 0 && k in r.records then
        r.(records := r.records[k := r.records[k].(state := Connectors.Running)])
      else r
    case DeleteConnector(name) =>
      r.(kafka := if x.effects > 0 then r.kafka - {name} else r.kafka,
         records := if x.records > 0 then r.records - {ConnectorKey(j, name)} else r.records)
    case Mark(state) =>
      if x.effects > 0 && j.spec.key in r.states then r.(states := r.states[j.spec.key := state]) else r
    case _ => r
  }

  /** What an activity can report and do. */
  predicate Possible(r: Resources, j: Job, x: Ran) {
    match x.step
    case CreateConnector =>
      && x.records <= x.effects <= 1 && (x.ok ==> x.records == 1)
      && (x.effects == 1 ==> Connectors.ValidConfig(j.connector) && j.connector.name !in r.kafka)
      && (x.records == 1 ==> ConnectorKey(j, j.connector.name) !in r.records)
    case AwaitConnector => x.ok ==> x.records > 0 && ConnectorKey(j, j.connector.name) in r.records
    case DeleteConnector(_) => x.records <= x.effects && (x.ok ==> x.records > 0)
    case Mark(_) => x.ok ==> x.effects > 0 && j.spec.key in r.states
    case EnsureStream | EnsureSink | StartCapture | DeleteStream(_) | DeleteSink(_) => x.ok ==> x.effects > 0
    case _ => true
  }

  /** A failed attempt and the ones after it, seen as one. */
  function Retried(x: Ran, y: Ran): Ran { Ran(y.step, y.ok, x.effects + y.effects, x.records + y.records) }

  lemma RetryAddsUp(r: Resources, j: Job, x: Ran, y: Ran)
    requires x.step == y.step && !x.ok && Possible(r, j, x) && Possible(Apply(r, j, x), j, y)
    ensures Apply(Apply(r, j, x), j, y) == Apply(r, j, Retried(x, y))
    ensures Possible(r, j, Retried(x, y))
  {
    if TouchesConnector(x.step) {
      RetriedConnector(r, j, x, y);
    } else if x.step.Mark? {
      hide Plus, Less;
    } else {
      RetriedProvisioning(r, j, x, y);
    }
  }

  lemma RetriedConnector(r: Resources, j: Job, x: Ran, y: Ran)
    requires TouchesConnector(x.step)
    requires x.step == y.step && !x.ok && Possible(r, j, x) && Possible(Apply(r, j, x), j, y)
    ensures Apply(Apply(r, j, x), j, y) == Apply(r, j, Retried(x, y))
    ensures Possible(r, j, Retried(x, y))
  {
    hide Plus, Less, StreamID, SinkID, CaptureID;
  }

  lemma RetriedProvisioning(r: Resources, j: Job, x: Ran, y: Ran)
    requires !TouchesConnector(x.step) && !x.step.Mark?
    requires x.step == y.step && !x.ok && Possible(r, j, x) && Possible(Apply(r, j, x), j, y)
    ensures Apply(Apply(r, j, x), j, y) == Apply(r, j, Retried(x, y))
    ensures Possible(r, j, Retried(x, y))
  {
    hide Plus, Less, StreamID, SinkID, CaptureID;
    match x.step
    case EnsureStream => PlusPlus(r.streams, StreamID(j.spec), x.effects, y.effects);
    case EnsureSink => PlusPlus(r.sinks, SinkID(j.spec), x.effects, y.effects);
    case StartCapture => PlusPlus(r.captures, CaptureID(j.spec), x.effects, y.effects);
    case DeleteStream(id) => LessLess(r.streams, id, x.effects, y.effects);
    case DeleteSink(id) => LessLess(r.sinks, id, x.effects, y.effects);
    case _ =>
  }

  /** An activity none of whose attempts took effect. */
  lemma NoEffect(r: Resources, j: Job, step: Step)
    ensures Apply(r, j, Ran(step, false, 0, 0)) == r && Possible(r, j, Ran(step, false, 0, 0))
  {
  }

  function Replay(r: Resources, j: Job, log: seq<Ran>): Resources {
    if log == [] then r else Apply(Replay(r, j, log[..|log| - 1]), j, log[|log| - 1])
  }

  predicate AllPossible(r: Resources, j: Job, log: seq<Ran>) {
    log == [] || (AllPossible(r, j, log[..|log| - 1]) && Possible(Replay(r, j, log[..|log| - 1]), j, log[|log| - 1]))
  }

  function EffectsOf(log: seq<Ran>, step: Step): nat {
    if log == [] then 0
    else EffectsOf(log[..|log| - 1], step) + if log[|log| - 1].step == step then log[|log| - 1].effects else 0
  }

  lemma {:induction false} NoEffectsUnlessRun(log: seq<Ran>, step: Step)
    requires forall i :: 0 <= i < |log| ==> log[i].step != step
    ensures EffectsOf(log, step) == 0
  {
    if log != [] {
      NoEffectsUnlessRun(log[..|log| - 1], step);
    }
  }

  /** The job's connector can be created: its configuration is valid, and neither registry knows it. */
  predicate Creatable(r: Resources, j: Job) {
    && Connectors.ValidConfig(j.connector)
    && j.connector.name !in r.kafka && ConnectorKey(j, j.connector.name) !in r.records
  }

  // ---- the shape of a saga ----

  /** ProvisionPipelineWorkflow and ProvisionCDCPipelineWorkflow. */
  datatype Saga = Pipeline | CDC

  function Length(g: Saga): nat { if g.Pipeline? then 8 else 9 }

  /** Step `n`, counted from zero. */
  function StepOf(g: Saga, n: nat): Step {
    if n == 0 then ValidateSpec
    else if n == 1 then ValidatePolicy
    else if n == 2 then EnsureSchema
    else if n == 3 then PrepareSource
    else if n == 4 then EnsureStream
    else if n == 5 then (if g.Pipeline? then EnsureSink else CreateConnector)
    else if n == 6 then (if g.Pipeline? then StartCapture else AwaitConnector)
    else if n == 7 && g.CDC? then EnsureSink
    else Mark(ActiveState)
  }

  function OnlyIf(b: bool, s: Step): seq<Step> { if b then [s] else [] }

  /** compensate and compensateCDC, when step `n` has failed. */
  function Compensation(j: Job, g: Saga, n: nat): seq<Step> {
    if n < 3 then []
    else if g.Pipeline? then
      OnlyIf(n > 6, StopCapture) + OnlyIf(n > 5, DeleteSink(SinkID(j.spec)))
      + OnlyIf(n > 4, DeleteStream(StreamID(j.spec))) + [Mark(ErrorState)]
    else
      OnlyIf(n > 5, DeleteConnector(j.connector.name)) + OnlyIf(n > 7, DeleteSink(SinkID(j.spec)))
      + OnlyIf(n > 4, DeleteStream(StreamID(j.spec))) + [Mark(ErrorState)]
  }

  /** DecommissionCDCPipelineWorkflow. */
  function Decommission(name: string, streamID: string, sinkID: string): seq<Step> {
    [DeleteConnector(name)] + OnlyIf(sinkID != "", DeleteSink(sinkID)) + OnlyIf(streamID != "", DeleteStream(streamID))
    + [Mark(DecommissionedState)]
  }

  /** The first `n` steps have succeeded. */
  predicate Ahead(g: Saga, n: nat, log: seq<Ran>) {
    n <= |log| && forall i | 0 <= i < n :: log[i].step == StepOf(g, i) && log[i].ok
  }

  predicate Succeeded(g: Saga, log: seq<Ran>) { |log| == Length(g) && Ahead(g, Length(g), log) }

  predicate Undone(undo: seq<Step>, tail: seq<Ran>) {
    |tail| == |undo| && forall i | 0 <= i < |undo| :: tail[i].step == undo[i]
  }

  /** Step `n` has failed, and then the compensation was run, whatever came of it. */
  predicate FailedAt(g: Saga, j: Job, n: nat, log: seq<Ran>) {
    && n < Length(g) && n < |log| && Ahead(g, n, log)
    && log[n].step == StepOf(g, n) && !log[n].ok
    && Undone(Compensation(j, g, n), log[n + 1..])
  }

  // ---- compensation in reverse ----

  /** What undoes a step, in terms of the resource it made. */
  function UndoOf(j: Job, s: Step): seq<Step> {
    match s
    case EnsureStream => [DeleteStream(StreamID(j.spec))]
    case EnsureSink => [DeleteSink(SinkID(j.spec))]
    case StartCapture => [StopCapture]
    case CreateConnector => [DeleteConnector(j.connector.name)]
    case _ => []
  }

  /** The undoing of the first `n` steps, last step first. */
  function ReverseUndo(j: Job, g: Saga, n: nat): seq<Step> {
    if n == 0 then [] else UndoOf(j, StepOf(g, n - 1)) + ReverseUndo(j, g, n - 1)
  }

  lemma NextUndo(j: Job, g: Saga, n: nat)
    ensures ReverseUndo(j, g, n + 1) == UndoOf(j, StepOf(g, n)) + ReverseUndo(j, g, n)
    ensures ReverseUndo(j, g, 0) == []
  {
  }

  lemma NothingToUndo(j: Job, g: Saga)
    ensures ReverseUndo(j, g, 3) == [] && ReverseUndo(j, g, 4) == []
  {
    hide StreamID, SinkID;
    NextUndo(j, g, 0);
    NextUndo(j, g, 1);
    NextUndo(j, g, 2);
    NextUndo(j, g, 3);
    hide *;
  }

  lemma ReverseUndoOf(j: Job, g: Saga, stream: Step, sink: Step, connector: Step)
    requires UndoOf(j, EnsureStream) == [stream] && UndoOf(j, EnsureSink) == [sink]
              && UndoOf(j, CreateConnector) == [connector]
    ensures ReverseUndo(j, g, 3) == [] && ReverseUndo(j, g, 4) == []
    ensures ReverseUndo(j, g, 5) == [stream]
    ensures ReverseUndo(j, g, 6) == if g.Pipeline? then [sink, stream] else [connector, stream]
    ensures ReverseUndo(j, g, 7) == if g.Pipeline? then [StopCapture, sink, stream] else [connector, stream]
    ensures g.CDC? ==> ReverseUndo(j, g, 8) == [sink, connector, stream]
  {
    NothingToUndo(j, g);
    UndoSteps(j, g, sink, connector);
    NextUndo(j, g, 4);
    NextUndo(j, g, 5);
    NextUndo(j, g, 6);
    NextUndo(j, g, 7);
    hide *;
    assert ReverseUndo(j, g, 5) == [stream];
    if g.Pipeline? {
      assert ReverseUndo(j, g, 6) == [sink, stream];
    } else {
      assert ReverseUndo(j, g, 6) == [connector, stream] && ReverseUndo(j, g, 7) == [connector, stream];
    }
  }

  lemma UndoSteps(j: Job, g: Saga, sink: Step, connector: Step)
    requires UndoOf(j, EnsureSink) == [sink] && UndoOf(j, CreateConnector) == [connector]
    ensures StepOf(g, 4) == EnsureStream
    ensures UndoOf(j, StepOf(g, 5)) == if g.Pipeline? then [sink] else [connector]
    ensures UndoOf(j, StepOf(g, 6)) == if g.Pipeline? then [StopCapture] else []
    ensures g.CDC? ==> UndoOf(j, StepOf(g, 7)) == [sink]
  {
    hide StreamID, SinkID;
  }

  lemma CompensationOf(j: Job, g: Saga, n: nat, stream: Step, sink: Step, connector: Step)
    requires 3 <= n < Length(g)
    requires UndoOf(j, EnsureStream) == [stream] && UndoOf(j, EnsureSink) == [sink]
              && UndoOf(j, CreateConnector) == [connector]
    ensures Compensation(j, g, n)
            == (if n <= 4 then []
                else if n == 5 then [stream]
                else if g.CDC? then (if n == 8 then [connector, sink, stream] else [connector, stream])
                else if n == 6 then [sink, stream] else [StopCapture, sink, stream]) + [Mark(ErrorState)]
  {
  }

  /**
   compensate deletes in the exact reverse of creation order. compensateCDC does not when both the connector
   and the sink have to go, and only then.
   */
  lemma CompensationIsReverseIff(j: Job, g: Saga, n: nat)
    requires 3 <= n < Length(g)
    ensures Compensation(j, g, n) == ReverseUndo(j, g, n) + [Mark(ErrorState)] <==> g.Pipeline? || n <= 7
  {
    var stream, sink, connector := DeleteStream(StreamID(j.spec)), DeleteSink(SinkID(j.spec)),
        DeleteConnector(j.connector.name);
    ReverseUndoOf(j, g, stream, sink, connector);
    CompensationOf(j, g, n, stream, sink, connector);
    hide *;
    if n == 8 {
      assert Compensation(j, g, n)[0] == connector;
      assert (ReverseUndo(j, g, n) + [Mark(ErrorState)])[0] == sink;
    }
  }

  // ---- accounting ----

  /** Nothing is created any more once deletion of its kind has begun, and only the saga's own things are deleted. */
  predicate BuildsThenDeletes(log: seq<Ran>, make: Step, remove: Step) {
    forall i, k :: 0 <= i < k < |log| && log[i].step == remove ==> log[k].step != make
  }

  predicate OwnStreams(log: seq<Ran>, id: string) {
    forall i | 0 <= i < |log| :: log[i].step.DeleteStream? ==> log[i].step.streamID == id
  }
  predicate OwnSinks(log: seq<Ran>, id: string) {
    forall i | 0 <= i < |log| :: log[i].step.DeleteSink? ==> log[i].step.sinkID == id
  }

  /** One more entry in the books. */
  lemma BooksStep(m: multiset<string>, id: string, made: nat, removed: nat, effects: nat)
    ensures Less(Less(Plus(m, id, made), id, removed), id, effects) == Less(Plus(m, id, made), id, removed + effects)
    ensures removed == 0 ==>
              Plus(Less(Plus(m, id, made), id, removed), id, effects) == Less(Plus(m, id, made + effects), id, removed)
  {
    hide Plus, Less;
    PlusPlus(m, id, made, effects);
    LessLess(Plus(m, id, made), id, removed, effects);
    LessLess(Plus(m, id, made), id, 0, 0);
    LessLess(Plus(m, id, made + effects), id, 0, 0);
  }

  lemma StreamsAfter(r: Resources, j: Job, x: Ran)
    ensures Apply(r, j, x).streams ==
            match x.step
            case EnsureStream => Plus(r.streams, StreamID(j.spec), x.effects)
            case DeleteStream(id) => Less(r.streams, id, x.effects)
            case _ => r.streams
  {
  }

  /** The books: what is there in the end is what was there, what was made, less what was removed. */
  lemma {:induction false} StreamsBalance(r: Resources, j: Job, log: seq<Ran>)
    requires OwnStreams(log, StreamID(j.spec))
    requires BuildsThenDeletes(log, EnsureStream, DeleteStream(StreamID(j.spec)))
    ensures Replay(r, j, log).streams
            == Less(Plus(r.streams, StreamID(j.spec), EffectsOf(log, EnsureStream)), StreamID(j.spec),
                    EffectsOf(log, DeleteStream(StreamID(j.spec))))
  {
    hide Plus, Less, StreamID, Apply;
    var id, n := StreamID(j.spec), |log| - 1;
    if log == [] {
      PlusPlus(r.streams, id, 0, 0);
      LessLess(r.streams, id, 0, 0);
    } else {
      assert forall i :: 0 <= i < n ==> log[..n][i] == log[i];
      StreamsBalance(r, j, log[..n]);
      StreamsAfter(Replay(r, j, log[..n]), j, log[n]);
      if log[n].step == EnsureStream {
        NoEffectsUnlessRun(log[..n], DeleteStream(id));
      }
      var made, removed := EffectsOf(log[..n], EnsureStream), EffectsOf(log[..n], DeleteStream(id));
      BooksStep(r.streams, id, made, removed, log[n].effects);
    }
  }

  lemma SinksAfter(r: Resources, j: Job, x: Ran)
    ensures Apply(r, j, x).sinks ==
            match x.step
            case EnsureSink => Plus(r.sinks, SinkID(j.spec), x.effects)
            case DeleteSink(id) => Less(r.sinks, id, x.effects)
            case _ => r.sinks
  {
  }

  lemma {:induction false} SinksBalance(r: Resources, j: Job, log: seq<Ran>)
    requires OwnSinks(log, SinkID(j.spec))
    requires BuildsThenDeletes(log, EnsureSink, DeleteSink(SinkID(j.spec)))
    ensures Replay(r, j, log).sinks
            == Less(Plus(r.sinks, SinkID(j.spec), EffectsOf(log, EnsureSink)), SinkID(j.spec),
                    EffectsOf(log, DeleteSink(SinkID(j.spec))))
  {
    hide Plus, Less, SinkID, Apply;
    var id, n := SinkID(j.spec), |log| - 1;
    if log == [] {
      PlusPlus(r.sinks, id, 0, 0);
      LessLess(r.sinks, id, 0, 0);
    } else {
      assert forall i :: 0 <= i < n ==> log[..n][i] == log[i];
      SinksBalance(r, j, log[..n]);
      SinksAfter(Replay(r, j, log[..n]), j, log[n]);
      if log[n].step == EnsureSink {
        NoEffectsUnlessRun(log[..n], DeleteSink(id));
      }
      var made, removed := EffectsOf(log[..n], EnsureSink), EffectsOf(log[..n], DeleteSink(id));
      BooksStep(r.sinks, id, made, removed, log[n].effects);
    }
  }

  /** When the books are even. */
  lemma BalancedIff(m: multiset<string>, id: string, made: nat, removed: nat)
    ensures Less(Plus(m, id, made), id, removed) == m <==> made == removed || (m[id] == 0 && made <= removed)
  {
  }

  /** Captures are only ever added; the other pipelines' states are never touched. */
  lemma {:induction false} WhatNobodyUndoes(r: Resources, j: Job, log: seq<Ran>)
    ensures Replay(r, j, log).captures == Plus(r.captures, CaptureID(j.spec), EffectsOf(log, StartCapture))
    ensures Replay(r, j, log).states.Keys == r.states.Keys
    ensures forall k :: k in r.states && k != j.spec.key ==> Replay(r, j, log).states[k] == r.states[k]
  {
    hide Plus, Less, CaptureID, Apply;
    PlusPlus(r.captures, CaptureID(j.spec), 0, 0);
    if log != [] {
      var n := |log| - 1;
      WhatNobodyUndoes(r, j, log[..n]);
      CapturesAndStatesAfter(Replay(r, j, log[..n]), j, log[n]);
      PlusPlus(r.captures, CaptureID(j.spec), EffectsOf(log[..n], StartCapture), log[n].effects);
    }
  }

  lemma CapturesAndStatesAfter(r: Resources, j: Job, x: Ran)
    ensures Apply(r, j, x).captures ==
            if x.step.StartCapture? then Plus(r.captures, CaptureID(j.spec), x.effects) else r.captures
    ensures Apply(r, j, x).states.Keys == r.states.Keys
    ensures forall k :: k in r.states && k != j.spec.key ==> Apply(r, j, x).states[k] == r.states[k]
  {
    hide Plus, Less, StreamID, SinkID, CaptureID;
  }

  /** A marking that ends a run decides the state of an existing pipeline. */
  lemma LastMarkDecides(r: Resources, j: Job, log: seq<Ran>, state: PipelineState)
    requires |log| > 0 && log[|log| - 1].step == Mark(state) && log[|log| - 1].effects > 0
    ensures j.spec.key in r.states ==> Replay(r, j, log).states == r.states[j.spec.key := state]
    ensures j.spec.key !in r.states ==> Replay(r, j, log).states == r.states
  {
    WhatNobodyUndoes(r, j, log[..|log| - 1]);
  }

  // ---- connectors ----

  /** Only the saga's own connector is deleted. */
  predicate OwnConnector(log: seq<Ran>, name: string) {
    forall i | 0 <= i < |log| :: log[i].step.DeleteConnector? ==> log[i].step.name == name
  }

  lemma {:induction false} OtherConnectorsStay(r: Resources, j: Job, log: seq<Ran>)
    requires OwnConnector(log, j.connector.name)
    ensures forall name :: name != j.connector.name ==> (name in Replay(r, j, log).kafka <==> name in r.kafka)
    ensures Replay(r, j, log).records - {ConnectorKey(j, j.connector.name)}
              == r.records - {ConnectorKey(j, j.connector.name)}
  {
    if log != [] {
      var n := |log| - 1;
      assert forall i :: 0 <= i < n ==> log[..n][i] == log[i];
      OtherConnectorsStay(r, j, log[..n]);
      ConnectorFrame(Replay(r, j, log[..n]), j, log[n]);
    }
  }

  lemma ConnectorFrame(r: Resources, j: Job, x: Ran)
    requires x.step.DeleteConnector? ==> x.step.name == j.connector.name
    ensures forall name :: name != j.connector.name ==> (name in Apply(r, j, x).kafka <==> name in r.kafka)
    ensures Apply(r, j, x).records - {ConnectorKey(j, j.connector.name)}
              == r.records - {ConnectorKey(j, j.connector.name)}
  {
    hide Plus, Less;
  }

  predicate TouchesConnector(s: Step) { s.CreateConnector? || s.AwaitConnector? || s.DeleteConnector? }

  lemma {:induction false} ConnectorsUntouched(r: Resources, j: Job, log: seq<Ran>)
    requires forall i :: 0 <= i < |log| ==> !TouchesConnector(log[i].step)
    ensures Replay(r, j, log).kafka == r.kafka && Replay(r, j, log).records == r.records
  {
    if log != [] {
      ConnectorsUntouched(r, j, log[..|log| - 1]);
    }
  }

  lemma {:induction false} ReplayConcat(r: Resources, j: Job, a: seq<Ran>, b: seq<Ran>)
    ensures Replay(r, j, a + b) == Replay(Replay(r, j, a), j, b)
    ensures AllPossible(r, j, a + b) <==> AllPossible(r, j, a) && AllPossible(Replay(r, j, a), j, b)
  {
    if b == [] {
      assert a + b == a;
    } else {
      ReplayConcat(r, j, a, b[..|b| - 1]);
      assert (a + b)[..|a + b| - 1] == a + b[..|b| - 1];
    }
  }

  /** After a delete that got through to the store, and nothing more about connectors, the record is gone. */
  lemma {:induction false} DeletedIsGone(r: Resources, j: Job, log: seq<Ran>, d: nat)
    requires d < |log| && OwnConnector(log, j.connector.name)
    requires log[d].step.DeleteConnector? && log[d].records > 0
    requires forall i :: d < i < |log| ==> !TouchesConnector(log[i].step)
    ensures Replay(r, j, log).records == r.records - {ConnectorKey(j, j.connector.name)}
  {
    hide Apply, ConnectorKey;
    var n, front := |log| - 1, log[..|log| - 1];
    assert forall i :: 0 <= i < n ==> front[i] == log[i];
    if d == n {
      OtherConnectorsStay(r, j, front);
      DeleteTakesTheRecord(Replay(r, j, front), j, log[n]);
    } else {
      DeletedIsGone(r, j, front, d);
      UntouchedStep(Replay(r, j, front), j, log[n]);
    }
  }

  lemma UntouchedStep(r: Resources, j: Job, x: Ran)
    requires !TouchesConnector(x.step)
    ensures Apply(r, j, x).kafka == r.kafka && Apply(r, j, x).records == r.records
  {
    hide Plus, Less, StreamID, SinkID, CaptureID;
  }

  lemma DeleteTakesTheRecord(r: Resources, j: Job, x: Ran)
    requires x.step == DeleteConnector(j.connector.name) && x.records > 0
    ensures Apply(r, j, x).records == r.records - {ConnectorKey(j, j.connector.name)}
  {
  }

  lemma {:induction false} PrefixPossible(r: Resources, j: Job, log: seq<Ran>, n: nat)
    requires n <= |log| && AllPossible(r, j, log)
    ensures AllPossible(r, j, log[..n])
  {
    if n < |log| {
      PrefixPossible(r, j, log[..|log| - 1], n);
      assert log[..|log| - 1][..n] == log[..n];
    } else {
      assert log[..n] == log;
    }
  }
}
