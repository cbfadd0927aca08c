/**
 Runs of the sagas in which a reply is lost, on any resources and for any job, and what they leave behind.
 (internal/temporal/activities.go, internal/temporal/session2_activities.go)
 */
module ProvisioningWitnesses {
  import opened Provisioning
  import opened ProvisioningTheorems
  import Connectors

  lemma OneMorePossible(r: Resources, j: Job, log: seq<Ran>, x: Ran)
    requires AllPossible(r, j, log) && Possible(Replay(r, j, log), j, x)
    ensures AllPossible(r, j, log + [x])
  {
    assert (log + [x])[..|log|] == log;
  }

  /** Whether a pipeline can be marked does not change. */
  lemma MarkPossible(r: Resources, j: Job, log: seq<Ran>, state: PipelineState)
    ensures Possible(Replay(r, j, log), j, Marked(r, j, state))
  {
    WhatNobodyUndoes(r, j, log);
  }

  function Done(s: Step): Ran { Ran(s, true, 1, 1) }

  function Marked(r: Resources, j: Job, state: PipelineState): Ran {
    if j.spec.key in r.states then Ran(Mark(state), true, 1, 0) else Ran(Mark(state), false, 0, 0)
  }

  function Beginning(): seq<Ran> { [Done(ValidateSpec), Done(ValidatePolicy), Done(EnsureSchema), Done(PrepareSource)] }

  lemma BeginningIsPossible(r: Resources, j: Job)
    ensures AllPossible(r, j, Beginning())
    ensures Replay(r, j, Beginning()) == r
  {
    var l1, l2, l3 := [Done(ValidateSpec)], [Done(ValidateSpec), Done(ValidatePolicy)],
                      [Done(ValidateSpec), Done(ValidatePolicy), Done(EnsureSchema)];
    assert l1[..0] == [] && l2[..1] == l1 && l3[..2] == l2 && Beginning()[..3] == l3;
    assert Replay(r, j, []) == r && Replay(r, j, l1) == r && Replay(r, j, l2) == r && Replay(r, j, l3) == r;
    assert AllPossible(r, j, []) && AllPossible(r, j, l1) && AllPossible(r, j, l2) && AllPossible(r, j, l3);
  }

  // ---- a stream ----

  /** Creating the stream takes effect twice, since the first reply is lost; creating the sink fails. */
  function TwoStreams(r: Resources, j: Job): seq<Ran> {
    Beginning() + [Ran(EnsureStream, true, 2, 0)] + [Ran(EnsureSink, false, 0, 0)]
    + [Ran(DeleteStream(StreamID(j.spec)), true, 1, 0)] + [Marked(r, j, ErrorState)]
  }

  lemma TwoStreamsIsARun(r: Resources, j: Job)
    ensures FailedAt(Pipeline, j, 5, TwoStreams(r, j))
  {
    CompensationOf(j, Pipeline, 5, DeleteStream(StreamID(j.spec)), DeleteSink(SinkID(j.spec)),
        DeleteConnector(j.connector.name));
    hide StreamID, SinkID, Compensation;
  }

  lemma TwoStreamsIsPossible(r: Resources, j: Job)
    ensures AllPossible(r, j, TwoStreams(r, j))
  {
    BeginningIsPossible(r, j);
    hide Replay, AllPossible, StreamID, SinkID, Beginning, Plus, Less;
    var l4 := Beginning();
    var l5 := l4 + [Ran(EnsureStream, true, 2, 0)];
    var l6 := l5 + [Ran(EnsureSink, false, 0, 0)];
    var l7 := l6 + [Ran(DeleteStream(StreamID(j.spec)), true, 1, 0)];
    OneMorePossible(r, j, l4, Ran(EnsureStream, true, 2, 0));
    OneMorePossible(r, j, l5, Ran(EnsureSink, false, 0, 0));
    OneMorePossible(r, j, l6, Ran(DeleteStream(StreamID(j.spec)), true, 1, 0));
    MarkPossible(r, j, l7, ErrorState);
    OneMorePossible(r, j, l7, Marked(r, j, ErrorState));
  }

  /** On any resources, a lost reply of the stream's creation leaves a stream that compensation does not remove. */
  lemma LostReplyLeavesAStream(r: Resources, j: Job)
    ensures FailedAt(Pipeline, j, 5, TwoStreams(r, j)) && AllPossible(r, j, TwoStreams(r, j))
    ensures forall i :: 5 < i < |TwoStreams(r, j)| ==>
              TwoStreams(r, j)[i].ok || (TwoStreams(r, j)[i].step.Mark? && j.spec.key !in r.states)
    ensures Replay(r, j, TwoStreams(r, j)).streams != r.streams
  {
    var log := TwoStreams(r, j);
    TwoStreamsIsARun(r, j);
    TwoStreamsIsPossible(r, j);
    ConservedIff(r, Pipeline, j, 5, log);
    TwoStreamsCounts(r, j, DeleteStream(StreamID(j.spec)));
    hide *;
  }

  lemma TwoStreamsCounts(r: Resources, j: Job, remove: Step)
    requires remove == DeleteStream(StreamID(j.spec))
    ensures EffectsOf(TwoStreams(r, j), EnsureStream) == 2 && EffectsOf(TwoStreams(r, j), remove) == 1
    ensures forall i :: 5 < i < |TwoStreams(r, j)| ==>
              TwoStreams(r, j)[i].ok || (TwoStreams(r, j)[i].step.Mark? && j.spec.key !in r.states)
  {
    hide StreamID, SinkID, EffectsOf;
    var log := TwoStreams(r, j);
    assert |log| == 8 && log[4] == Ran(EnsureStream, true, 2, 0) && log[6] == Ran(remove, true, 1, 0);
    EffectsOfOnly(log, 4);
    EffectsOfOnly(log, 6);
  }

  // ---- a connector ----

  /** Both writes of the connector's creation are done, and the reply is lost; the retry finds the name taken. */
  function LostConnector(r: Resources, j: Job): seq<Ran> {
    Beginning() + [Ran(EnsureStream, true, 1, 0)] + [Ran(CreateConnector, false, 1, 1)]
    + [Ran(DeleteStream(StreamID(j.spec)), true, 1, 0)] + [Marked(r, j, ErrorState)]
  }

  lemma LostConnectorIsARun(r: Resources, j: Job)
    ensures FailedAt(CDC, j, 5, LostConnector(r, j))
  {
    CompensationOf(j, CDC, 5, DeleteStream(StreamID(j.spec)), DeleteSink(SinkID(j.spec)),
        DeleteConnector(j.connector.name));
    hide StreamID, SinkID, Compensation;
  }

  lemma LostConnectorIsPossible(r: Resources, j: Job)
    requires Creatable(r, j)
    ensures AllPossible(r, j, LostConnector(r, j))
  {
    BeginningIsPossible(r, j);
    hide AllPossible, StreamID, SinkID, Beginning, Plus, Less;
    var l4 := Beginning();
    var l5 := l4 + [Ran(EnsureStream, true, 1, 0)];
    var l6 := l5 + [Ran(CreateConnector, false, 1, 1)];
    var l7 := l6 + [Ran(DeleteStream(StreamID(j.spec)), true, 1, 0)];
    assert l5[..|l4|] == l4;
    assert Creatable(Replay(r, j, l5), j);
    hide Replay;
    OneMorePossible(r, j, l4, Ran(EnsureStream, true, 1, 0));
    OneMorePossible(r, j, l5, Ran(CreateConnector, false, 1, 1));
    OneMorePossible(r, j, l6, Ran(DeleteStream(StreamID(j.spec)), true, 1, 0));
    MarkPossible(r, j, l7, ErrorState);
    OneMorePossible(r, j, l7, Marked(r, j, ErrorState));
  }

  /** A lost reply of a connector's creation leaves the connector in both registries, and nothing deletes it. */
  lemma LostReplyLeavesAConnector(r: Resources, j: Job)
    requires Creatable(r, j)
    ensures FailedAt(CDC, j, 5, LostConnector(r, j)) && AllPossible(r, j, LostConnector(r, j))
    ensures forall i :: 5 < i < |LostConnector(r, j)| ==> !LostConnector(r, j)[i].step.DeleteConnector?
    ensures Replay(r, j, LostConnector(r, j)).kafka != r.kafka
    ensures Replay(r, j, LostConnector(r, j)).records != r.records
  {
    var log := LostConnector(r, j);
    LostConnectorIsARun(r, j);
    LostConnectorIsPossible(r, j);
    hide Replay, AllPossible, FailedAt, StreamID, SinkID;
    assert |log| == 8 && log[5] == Ran(CreateConnector, false, 1, 1);
    ConnectorConservedIff(r, j, 5, log);
    RecordConservedIff(r, j, 5, log);
  }
}
