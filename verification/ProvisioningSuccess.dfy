/**
 What a successful provisioning leaves behind, what a decommission takes away, in which order things are made, and
 that a failure before anything is made changes nothing.
 (internal/temporal/workflow.go, internal/temporal/session2_workflow.go)
 */
module ProvisioningSuccess {
  import Connectors
  import opened Provisioning
  import opened ProvisioningTheorems

  /** `id` is there `n` times more than before, and everything else as often as before. */
  predicate Grown(before: multiset<string>, after: multiset<string>, id: string, n: nat) {
    after == before[id := before[id] + n]
  }

  // ---- the order of things ----

  /** The steps of a run of `n` steps, in the words of the workflows. */
  predicate InOrder(g: Saga, n: nat, log: seq<Ran>) {
    && n <= |log|
    && (n > 0 ==> log[0].step == ValidateSpec) && (n > 1 ==> log[1].step == ValidatePolicy)
    && (n > 2 ==> log[2].step == EnsureSchema) && (n > 3 ==> log[3].step == PrepareSource)
    && (n > 4 ==> log[4].step == EnsureStream)
    && (g.Pipeline? ==>
          && (n > 5 ==> log[5].step == EnsureSink) && (n > 6 ==> log[6].step == StartCapture)
          && (n > 7 ==> log[7].step == Mark(ActiveState)))
    && (g.CDC? ==>
          && (n > 5 ==> log[5].step == CreateConnector) && (n > 6 ==> log[6].step == AwaitConnector)
          && (n > 7 ==> log[7].step == EnsureSink) && (n > 8 ==> log[8].step == Mark(ActiveState)))
  }

  lemma RunsAreInOrder(g: Saga, j: Job, n: nat, log: seq<Ran>)
    ensures Succeeded(g, log) ==> InOrder(g, Length(g), log)
    ensures FailedAt(g, j, n, log) ==> InOrder(g, n + 1, log)
  {
  }

  /** What has to have succeeded before a thing is made or the pipeline is active. */
  predicate Grounds(s: Step, g: Saga, before: set<Step>) {
    && (Makes(s) ==> {ValidateSpec, ValidatePolicy, EnsureSchema, PrepareSource} <= before)
    && (s.StartCapture? ==> {EnsureStream, EnsureSink} <= before)
    && (s.AwaitConnector? ==> {EnsureStream, CreateConnector} <= before)
    && (s.EnsureSink? ==> EnsureStream in before && (g.CDC? ==> AwaitConnector in before))
    && (s == Mark(ActiveState) ==>
          && EnsureStream in before && EnsureSink in before
          && if g.Pipeline? then StartCapture in before else {CreateConnector, AwaitConnector} <= before)
  }

  function SucceededBefore(log: seq<Ran>, i: nat): set<Step>
    requires i <= |log|
  {
    set k | 0 <= k < i && log[k].ok :: log[k].step
  }

  /**
   In every run, successful or not: nothing is made before spec, policy, schema and source have been dealt with, no sink
   before the stream and, in the CDC saga, before the connector runs, no capture before both, and the pipeline is not
   active before everything is there.
   */
  lemma NothingTooEarly(g: Saga, j: Job, n: nat, log: seq<Ran>, i: nat)
    requires i < |log| && i <= n && ((Succeeded(g, log) && n == Length(g)) || FailedAt(g, j, n, log))
    ensures Grounds(log[i].step, g, SucceededBefore(log, i))
  {
    RunsAreInOrder(g, j, n, log);
    var before := SucceededBefore(log, i);
    forall k | 0 <= k < i ensures log[k].step in before {
      assert log[k].ok;
    }
    assert n < (if g.Pipeline? then 8 else 9) || Succeeded(g, log);
    hide *;
    if g.Pipeline? {
      PipelineGrounds(n, log, i, before);
    } else {
      CDCGrounds(n, log, i, before);
    }
  }

  lemma PipelineGrounds(n: nat, log: seq<Ran>, i: nat, before: set<Step>)
    requires i < |log| && i <= n
    requires (n < 8 && InOrder(Pipeline, n + 1, log)) || (n == 8 && i < n && InOrder(Pipeline, n, log))
    requires forall k :: 0 <= k < i ==> log[k].step in before
    ensures Grounds(log[i].step, Pipeline, before)
  {
    assert (i > 0 ==> log[0].step in before) && (i > 1 ==> log[1].step in before) && (i > 2 ==> log[2].step in before);
    assert (i > 3 ==> log[3].step in before) && (i > 4 ==> log[4].step in before) && (i > 5 ==> log[5].step in before);
    assert i > 6 ==> log[6].step in before;
  }

  lemma CDCGrounds(n: nat, log: seq<Ran>, i: nat, before: set<Step>)
    requires i < |log| && i <= n && ((n < 9 && InOrder(CDC, n + 1, log)) || (n == 9 && i < n && InOrder(CDC, n, log)))
    requires forall k :: 0 <= k < i ==> log[k].step in before
    ensures Grounds(log[i].step, CDC, before)
  {
    assert (i > 0 ==> log[0].step in before) && (i > 1 ==> log[1].step in before) && (i > 2 ==> log[2].step in before);
    assert (i > 3 ==> log[3].step in before) && (i > 4 ==> log[4].step in before) && (i > 5 ==> log[5].step in before);
    assert (i > 6 ==> log[6].step in before) && (i > 7 ==> log[7].step in before);
  }

  /** Nothing is made or marked by a run that fails in its first three steps, and nothing more is run. */
  lemma EarlyFailureChangesNothing(r: Resources, g: Saga, j: Job, n: nat, log: seq<Ran>)
    requires FailedAt(g, j, n, log) && n < 3
    ensures Replay(r, j, log) == r && |log| == n + 1
  {
    RunsAreInOrder(g, j, n, log);
    assert |log| == n + 1;
    NothingReplays(r, j, log);
  }

  lemma {:induction false} NothingReplays(r: Resources, j: Job, log: seq<Ran>)
    requires forall i :: 0 <= i < |log| ==>
               log[i].step == ValidateSpec || log[i].step == ValidatePolicy || log[i].step == EnsureSchema
    ensures Replay(r, j, log) == r
  {
    if log != [] {
      NothingReplays(r, j, log[..|log| - 1]);
    }
  }

  // ---- what success leaves ----

  /** The steps that a successful run repeats nothing of. */
  lemma SuccessSteps(g: Saga, log: seq<Ran>)
    requires Succeeded(g, log)
    ensures |log| == (if g.Pipeline? then 8 else 9) && InOrder(g, |log|, log)
    ensures forall i :: 0 <= i < |log| ==> log[i].ok && !Deletes(log[i].step)
    ensures forall i :: 0 <= i < |log| && i != 4 ==> log[i].step != EnsureStream
    ensures forall i :: 0 <= i < |log| && i != SinkStep(g) ==> log[i].step != EnsureSink
    ensures forall i :: 0 <= i < |log| && (g.CDC? || i != 6) ==> log[i].step != StartCapture
  {
  }

  lemma {:induction false} OkIsPossible(r: Resources, j: Job, log: seq<Ran>, i: nat)
    requires i < |log| && AllPossible(r, j, log)
    ensures Possible(Replay(r, j, log[..i]), j, log[i])
  {
    PrefixPossible(r, j, log, i + 1);
    assert log[..i + 1][..i] == log[..i];
  }

  lemma ReplayStep(r: Resources, j: Job, log: seq<Ran>, i: nat)
    requires i < |log|
    ensures Replay(r, j, log[..i + 1]) == Apply(Replay(r, j, log[..i]), j, log[i])
    ensures Replay(r, j, log[..0]) == r
  {
    assert log[..i + 1][..i] == log[..i];
  }

  lemma LessNothing(m: multiset<string>, id: string)
    ensures Less(m, id, 0) == m
  {
  }

  lemma StreamsGrow(r: Resources, g: Saga, j: Job, log: seq<Ran>)
    requires Succeeded(g, log) && AllPossible(r, j, log)
    ensures log[4].effects > 0 && Grown(r.streams, Replay(r, j, log).streams, StreamID(j.spec), log[4].effects)
  {
    SuccessSteps(g, log);
    OkIsPossible(r, j, log, 4);
    TwoPartsIsOrdered(j, |log|, log);
    StreamsBalance(r, j, log);
    EffectsOfOnly(log, 4);
    NoEffectsUnlessRun(log, DeleteStream(StreamID(j.spec)));
    LessNothing(Plus(r.streams, StreamID(j.spec), log[4].effects), StreamID(j.spec));
    hide Succeeded, AllPossible, Replay, StreamID, Less;
  }

  lemma SinksGrow(r: Resources, g: Saga, j: Job, log: seq<Ran>)
    requires Succeeded(g, log) && AllPossible(r, j, log)
    ensures var x := log[SinkStep(g)];
            x.effects > 0 && Grown(r.sinks, Replay(r, j, log).sinks, SinkID(j.spec), x.effects)
  {
    SuccessSteps(g, log);
    OkIsPossible(r, j, log, SinkStep(g));
    TwoPartsIsOrdered(j, |log|, log);
    SinksBalance(r, j, log);
    EffectsOfOnly(log, SinkStep(g));
    NoEffectsUnlessRun(log, DeleteSink(SinkID(j.spec)));
    LessNothing(Plus(r.sinks, SinkID(j.spec), log[SinkStep(g)].effects), SinkID(j.spec));
    hide Succeeded, AllPossible, Replay, SinkID, Less;
  }

  lemma CapturesGrow(r: Resources, g: Saga, j: Job, log: seq<Ran>)
    requires Succeeded(g, log) && AllPossible(r, j, log)
    ensures g.CDC? ==> Replay(r, j, log).captures == r.captures
    ensures g.Pipeline? ==>
              log[6].effects > 0 && Grown(r.captures, Replay(r, j, log).captures, CaptureID(j.spec), log[6].effects)
  {
    SuccessSteps(g, log);
    OkIsPossible(r, j, log, 6);
    WhatNobodyUndoes(r, j, log);
    if g.Pipeline? {
      EffectsOfOnly(log, 6);
    } else {
      NoEffectsUnlessRun(log, StartCapture);
      PlusPlus(r.captures, CaptureID(j.spec), 0, 0);
    }
    hide Succeeded, AllPossible, Replay, CaptureID;
  }

  lemma BecomesActive(r: Resources, g: Saga, j: Job, log: seq<Ran>)
    requires Succeeded(g, log) && AllPossible(r, j, log)
    ensures j.spec.key in r.states && Replay(r, j, log).states == r.states[j.spec.key := ActiveState]
  {
    SuccessSteps(g, log);
    OkIsPossible(r, j, log, |log| - 1);
    WhatNobodyUndoes(r, j, log[..|log| - 1]);
    LastMarkDecides(r, j, log, ActiveState);
    hide Succeeded, AllPossible, Replay;
  }

  /** The connector was not there before; now it is in both registries, and runs. */
  predicate ConnectorAdded(r: Resources, j: Job, end: Resources) {
    var key := ConnectorKey(j, j.connector.name);
    && Creatable(r, j)
    && end.kafka == r.kafka + {j.connector.name}
    && end.records == r.records[key := Connectors.Record(j.connector, Connectors.Running)]
  }

  lemma CreatedAndRunning(r: Resources, j: Job, create: Ran, await: Ran)
    requires create.step == CreateConnector && create.ok && Possible(r, j, create)
    requires await.step == AwaitConnector && await.ok && Possible(Apply(r, j, create), j, await)
    ensures ConnectorAdded(r, j, Apply(Apply(r, j, create), j, await))
  {
    hide Plus, Less, StreamID, SinkID, CaptureID;
  }

  /** Four steps from resources whose connectors are those of `r`. */
  lemma CreatedInFourSteps(r: Resources, r5: Resources, j: Job, create: Ran, await: Ran, x: Ran, y: Ran)
    requires r5.kafka == r.kafka && r5.records == r.records
    requires create.step == CreateConnector && create.ok && Possible(r5, j, create)
    requires await.step == AwaitConnector && await.ok && Possible(Apply(r5, j, create), j, await)
    requires !TouchesConnector(x.step) && !TouchesConnector(y.step)
    ensures ConnectorAdded(r, j, Apply(Apply(Apply(Apply(r5, j, create), j, await), j, x), j, y))
  {
    CreatedAndRunning(r5, j, create, await);
    var r7 := Apply(Apply(r5, j, create), j, await);
    hide Apply, Possible;
    UntouchedStep(r7, j, x);
    UntouchedStep(Apply(r7, j, x), j, y);
  }

  lemma LastFour(r: Resources, j: Job, log: seq<Ran>)
    requires |log| == 9
    ensures var r5 := Replay(r, j, log[..5]);
            && Replay(r, j, log[..6]) == Apply(r5, j, log[5])
            && Replay(r, j, log) == Apply(Apply(Apply(Apply(r5, j, log[5]), j, log[6]), j, log[7]), j, log[8])
  {
    hide Apply, Replay;
    ReplayStep(r, j, log, 5);
    ReplayStep(r, j, log, 6);
    ReplayStep(r, j, log, 7);
    ReplayStep(r, j, log, 8);
    assert log[..9] == log;
  }

  lemma ConnectorSteps(r: Resources, j: Job, log: seq<Ran>)
    requires Succeeded(CDC, log) && AllPossible(r, j, log)
    ensures |log| == 9 && log[5].step == CreateConnector && log[6].step == AwaitConnector && log[5].ok && log[6].ok
    ensures !TouchesConnector(log[7].step) && !TouchesConnector(log[8].step)
    ensures Replay(r, j, log[..5]).kafka == r.kafka && Replay(r, j, log[..5]).records == r.records
    ensures Possible(Replay(r, j, log[..5]), j, log[5]) && Possible(Replay(r, j, log[..6]), j, log[6])
  {
    SuccessSteps(CDC, log);
    hide Succeeded, AllPossible, Replay, Possible, Apply;
    OkIsPossible(r, j, log, 5);
    OkIsPossible(r, j, log, 6);
    ConnectorsUntouched(r, j, log[..5]);
  }

  lemma ConnectorsGrow(r: Resources, j: Job, log: seq<Ran>)
    requires Succeeded(CDC, log) && AllPossible(r, j, log)
    ensures ConnectorAdded(r, j, Replay(r, j, log))
  {
    hide Succeeded, AllPossible, Apply, Possible, Replay, ConnectorAdded;
    ConnectorSteps(r, j, log);
    LastFour(r, j, log);
    CreatedInFourSteps(r, Replay(r, j, log[..5]), j, log[5], log[6], log[7], log[8]);
  }

  /**
   A successful provisioning leaves the pipeline ACTIVE, which it must have known before, and a stream and a sink more,
   or several if replies were lost. The plain saga leaves a capture more and touches no connector; the CDC saga
   leaves its connector, that was not there before, running in both registries, and no capture. Nothing else changes.
   */
  lemma SuccessLeaves(r: Resources, g: Saga, j: Job, log: seq<Ran>)
    requires Succeeded(g, log) && AllPossible(r, j, log)
    ensures var end, sink := Replay(r, j, log), log[SinkStep(g)].effects;
            && j.spec.key in r.states && end.states == r.states[j.spec.key := ActiveState]
            && log[4].effects > 0 && Grown(r.streams, end.streams, StreamID(j.spec), log[4].effects)
            && sink > 0 && Grown(r.sinks, end.sinks, SinkID(j.spec), sink)
            && (g.CDC? ==> ConnectorAdded(r, j, end) && end.captures == r.captures)
            && (g.Pipeline? ==>
                  && end.kafka == r.kafka && end.records == r.records
                  && log[6].effects > 0 && Grown(r.captures, end.captures, CaptureID(j.spec), log[6].effects))
    ensures Clean(log) ==>
              log[4].effects == 1 && log[SinkStep(g)].effects == 1 && (g.Pipeline? ==> log[6].effects == 1)
  {
    SuccessSteps(g, log);
    BecomesActive(r, g, j, log);
    StreamsGrow(r, g, j, log);
    SinksGrow(r, g, j, log);
    CapturesGrow(r, g, j, log);
    if g.CDC? {
      ConnectorsGrow(r, j, log);
    } else {
      ConnectorsUntouched(r, j, log);
    }
    hide Succeeded, AllPossible, Replay, StreamID, SinkID, CaptureID;
  }

  // ---- what a decommission takes away ----

  /** A decommission of anything, every step of which succeeded. */
  predicate Descended(name: string, streamID: string, sinkID: string, log: seq<Ran>) {
    Undone(Decommission(name, streamID, sinkID), log) && forall i | 0 <= i < |log| :: log[i].ok
  }

  /** `id` is there `n` times less than before, or not at all any more; everything else as often as before. */
  predicate Shrunk(before: multiset<string>, after: multiset<string>, id: string, n: nat) {
    after == before[id := if before[id] < n then 0 else before[id] - n]
  }

  /** Which step of a decommission deletes the sink, and which the stream. */
  function StreamAt(sinkID: string): nat { if sinkID != "" then 2 else 1 }

  lemma DescentSteps(name: string, streamID: string, sinkID: string, log: seq<Ran>)
    requires Descended(name, streamID, sinkID, log)
    ensures |log| == 2 + (if sinkID != "" then 1 else 0) + (if streamID != "" then 1 else 0)
    ensures log[0].step == DeleteConnector(name) && log[|log| - 1].step == Mark(DecommissionedState)
    ensures sinkID != "" ==> |log| > 2 && log[1].step == DeleteSink(sinkID)
    ensures streamID != "" ==> |log| > StreamAt(sinkID) + 1 && log[StreamAt(sinkID)].step == DeleteStream(streamID)
    ensures forall i :: 0 <= i < |log| ==> log[i].ok
  {
  }

  /** What one successful step of a decommission does. */
  lemma DescentStep(r: Resources, j: Job, x: Ran)
    requires Possible(r, j, x) && x.ok
    ensures var r' := Apply(r, j, x);
            match x.step
            case DeleteConnector(name) =>
              x.effects > 0 && r' == r.(kafka := r.kafka - {name}, records := r.records - {ConnectorKey(j, name)})
            case DeleteSink(id) =>
              x.effects > 0 && r' == r.(sinks := r'.sinks) && Shrunk(r.sinks, r'.sinks, id, x.effects)
            case DeleteStream(id) =>
              x.effects > 0 && r' == r.(streams := r'.streams) && Shrunk(r.streams, r'.streams, id, x.effects)
            case Mark(state) => j.spec.key in r.states && r' == r.(states := r.states[j.spec.key := state])
            case _ => true
  {
  }

  /**
   A successful decommission, of whatever it is given: the connector is in neither registry any more, the pipeline is
   DECOMMISSIONED, the stream and the sink are there once less, or several times if replies were lost, and not touched
   if no identifier was given. Nothing else changes.
   */
  lemma DecommissionLeaves(r: Resources, j: Job, name: string, streamID: string, sinkID: string, log: seq<Ran>)
    requires Descended(name, streamID, sinkID, log) && AllPossible(r, j, log)
    ensures var end := Replay(r, j, log);
            && end.kafka == r.kafka - {name} && end.records == r.records - {ConnectorKey(j, name)}
            && j.spec.key in r.states && end.states == r.states[j.spec.key := DecommissionedState]
            && end.captures == r.captures
            && (if sinkID == "" then end.sinks == r.sinks
                else |log| > 2 && log[1].effects > 0 && Shrunk(r.sinks, end.sinks, sinkID, log[1].effects))
            && (if streamID == "" then end.streams == r.streams
                else |log| > StreamAt(sinkID) && log[StreamAt(sinkID)].effects > 0
                     && Shrunk(r.streams, end.streams, streamID, log[StreamAt(sinkID)].effects))
  {
    DescentSteps(name, streamID, sinkID, log);
    forall i | 0 <= i < |log|
      ensures Possible(Replay(r, j, log[..i]), j, log[i])
      ensures Replay(r, j, log[..i + 1]) == Apply(Replay(r, j, log[..i]), j, log[i])
    {
      OkIsPossible(r, j, log, i);
      ReplayStep(r, j, log, i);
    }
    assert log[..|log|] == log && Replay(r, j, log[..0]) == r;
    DescentStep(Replay(r, j, log[..0]), j, log[0]);
    DescentStep(Replay(r, j, log[..1]), j, log[1]);
    if |log| > 2 {
      DescentStep(Replay(r, j, log[..2]), j, log[2]);
    }
    if |log| > 3 {
      DescentStep(Replay(r, j, log[..3]), j, log[3]);
    }
    hide Descended, AllPossible, Possible, Apply, Replay, Shrunk, ConnectorKey;
  }
}
