/**
 What a failed provisioning leaves behind, and what a decommissioned one does: exactly, counting every attempt
 whose reply was lost, and as conservation when none was.
 */
module ProvisioningTheorems {
  import opened Provisioning

  // ---- what a run is made of ----

  predicate Makes(s: Step) {
    s.EnsureStream? || s.EnsureSink? || s.StartCapture? || s.CreateConnector? || s.AwaitConnector?
  }

  /** A step that undoes, and only what this job has made. */
  predicate OwnUndo(j: Job, s: Step) {
    || s.StopCapture? || s == DeleteConnector(j.connector.name) || s == DeleteSink(SinkID(j.spec))
    || s == DeleteStream(StreamID(j.spec)) || s == Mark(ErrorState) || s == Mark(DecommissionedState)
  }

  predicate Deletes(s: Step) { s.DeleteStream? || s.DeleteSink? || s.DeleteConnector? }

  /** First `m` steps that delete nothing, then steps that undo. */
  predicate TwoParts(j: Job, m: nat, log: seq<Ran>) {
    && m <= |log|
    && (forall i | 0 <= i < m :: !Deletes(log[i].step))
    && (forall i | m <= i < |log| :: OwnUndo(j, log[i].step) && !Makes(log[i].step))
  }

  lemma TwoPartsIsOrdered(j: Job, m: nat, log: seq<Ran>)
    requires TwoParts(j, m, log)
    ensures OwnStreams(log, StreamID(j.spec)) && OwnSinks(log, SinkID(j.spec)) && OwnConnector(log, j.connector.name)
    ensures BuildsThenDeletes(log, EnsureStream, DeleteStream(StreamID(j.spec)))
    ensures BuildsThenDeletes(log, EnsureSink, DeleteSink(SinkID(j.spec)))
  {
  }

  lemma CompensationUndoes(j: Job, g: Saga, n: nat)
    requires n < Length(g)
    ensures var undo := Compensation(j, g, n);
            && (forall i :: 0 <= i < |undo| ==> OwnUndo(j, undo[i]) && !Makes(undo[i]))
            && (n >= 3 ==> |undo| > 0 && undo[|undo| - 1] == Mark(ErrorState))
            && (g.CDC? && n > 5 ==>
                  && |undo| > 1 && undo[0] == DeleteConnector(j.connector.name)
                  && forall i :: 0 < i < |undo| ==> !undo[i].DeleteConnector?)
            && (g.Pipeline? || n <= 5 ==> forall i :: 0 <= i < |undo| ==> !undo[i].DeleteConnector?)
  {
    if n >= 3 {
      var stream, sink := DeleteStream(StreamID(j.spec)), DeleteSink(SinkID(j.spec));
      CompensationOf(j, g, n, stream, sink, DeleteConnector(j.connector.name));
      assert OwnUndo(j, stream) && OwnUndo(j, sink) && OwnUndo(j, DeleteConnector(j.connector.name));
      hide StreamID, SinkID, Compensation;
      hide OwnUndo;
      assert OwnUndo(j, StopCapture) && OwnUndo(j, Mark(ErrorState)) by {
        OwnEnds(j);
      }
    }
  }

  lemma OwnEnds(j: Job)
    ensures OwnUndo(j, StopCapture) && OwnUndo(j, Mark(ErrorState))
  {
  }

  lemma FailedRunHasTwoParts(g: Saga, j: Job, n: nat, log: seq<Ran>)
    requires FailedAt(g, j, n, log)
    ensures TwoParts(j, n + 1, log)
  {
    CompensationUndoes(j, g, n);
    hide Compensation, OwnUndo;
    assert forall i :: n < i < |log| ==> log[i] == log[n + 1..][i - n - 1];
  }

  // ---- the books of a failed run ----

  /**
   Conservation of streams and sinks, exactly: a kind is conserved if and only if as many were deleted as were
   made, where every attempt that took effect counts, also one whose reply was lost.
   */
  lemma ConservedIff(r: Resources, g: Saga, j: Job, n: nat, log: seq<Ran>)
    requires FailedAt(g, j, n, log)
    ensures var made, removed := EffectsOf(log, EnsureStream), EffectsOf(log, DeleteStream(StreamID(j.spec)));
            Replay(r, j, log).streams == r.streams <==>
                made == removed || (r.streams[StreamID(j.spec)] == 0 && made <= removed)
    ensures var made, removed := EffectsOf(log, EnsureSink), EffectsOf(log, DeleteSink(SinkID(j.spec)));
            Replay(r, j, log).sinks == r.sinks <==> made == removed || (r.sinks[SinkID(j.spec)] == 0 && made <= removed)
    ensures forall id :: id != StreamID(j.spec) ==> Replay(r, j, log).streams[id] == r.streams[id]
    ensures forall id :: id != SinkID(j.spec) ==> Replay(r, j, log).sinks[id] == r.sinks[id]
  {
    FailedRunHasTwoParts(g, j, n, log);
    TwoPartsIsOrdered(j, n + 1, log);
    Books(r, j, log);
  }

  lemma Books(r: Resources, j: Job, log: seq<Ran>)
    requires OwnStreams(log, StreamID(j.spec)) && OwnSinks(log, SinkID(j.spec))
    requires BuildsThenDeletes(log, EnsureStream, DeleteStream(StreamID(j.spec)))
    requires BuildsThenDeletes(log, EnsureSink, DeleteSink(SinkID(j.spec)))
    ensures var made, removed := EffectsOf(log, EnsureStream), EffectsOf(log, DeleteStream(StreamID(j.spec)));
            Replay(r, j, log).streams == r.streams <==>
                made == removed || (r.streams[StreamID(j.spec)] == 0 && made <= removed)
    ensures var made, removed := EffectsOf(log, EnsureSink), EffectsOf(log, DeleteSink(SinkID(j.spec)));
            Replay(r, j, log).sinks == r.sinks <==> made == removed || (r.sinks[SinkID(j.spec)] == 0 && made <= removed)
    ensures forall id :: id != StreamID(j.spec) ==> Replay(r, j, log).streams[id] == r.streams[id]
    ensures forall id :: id != SinkID(j.spec) ==> Replay(r, j, log).sinks[id] == r.sinks[id]
  {
    StreamsBalance(r, j, log);
    SinksBalance(r, j, log);
    BalancedIff(r.streams, StreamID(j.spec), EffectsOf(log, EnsureStream),
        EffectsOf(log, DeleteStream(StreamID(j.spec))));
    BalancedIff(r.sinks, SinkID(j.spec), EffectsOf(log, EnsureSink), EffectsOf(log, DeleteSink(SinkID(j.spec))));
    hide Replay, EffectsOf, StreamID, SinkID;
  }

  lemma {:induction false} EffectsUpTo(log: seq<Ran>, step: Step, n: nat)
    requires n < |log| && forall i :: n <= i < |log| ==> log[i].step != step || i == n
    ensures EffectsOf(log, step) == EffectsOf(log[..n], step) + if log[n].step == step then log[n].effects else 0
  {
    if n < |log| - 1 {
      EffectsUpTo(log[..|log| - 1], step, n);
      assert log[..|log| - 1][..n] == log[..n];
    }
  }

  /** A step that occurs once has the effects of that once. */
  lemma EffectsOfOnly(log: seq<Ran>, n: nat)
    requires n < |log| && forall i :: 0 <= i < |log| && i != n ==> log[i].step != log[n].step
    ensures EffectsOf(log, log[n].step) == log[n].effects
  {
    EffectsUpTo(log, log[n].step, n);
    NoEffectsUnlessRun(log[..n], log[n].step);
  }

  // ---- connectors ----

  predicate Decides(s: Step) { s.CreateConnector? || s.DeleteConnector? }

  /** Whether Kafka Connect has the job's connector after a run. */
  predicate Named(log: seq<Ran>, was: bool) {
    if log == [] then was
    else
      var x := log[|log| - 1];
      match x.step
      case CreateConnector => x.effects > 0 || Named(log[..|log| - 1], was)
      case DeleteConnector(_) => x.effects == 0 && Named(log[..|log| - 1], was)
      case _ => Named(log[..|log| - 1], was)
  }

  lemma {:induction false} KafkaIsNamed(r: Resources, j: Job, log: seq<Ran>)
    requires OwnConnector(log, j.connector.name)
    ensures j.connector.name in Replay(r, j, log).kafka <==> Named(log, j.connector.name in r.kafka)
  {
    hide Plus, Less, StreamID, SinkID, CaptureID;
    if log != [] {
      assert forall i :: 0 <= i < |log| - 1 ==> log[..|log| - 1][i] == log[i];
      KafkaIsNamed(r, j, log[..|log| - 1]);
    }
  }

  /** The last step that decides has the last word. */
  lemma {:induction false} LastWord(log: seq<Ran>, was: bool, d: nat)
    requires d <= |log| && forall i :: d <= i < |log| ==> !Decides(log[i].step)
    ensures Named(log, was) == Named(log[..d], was)
  {
    if d < |log| {
      LastWord(log[..|log| - 1], was, d);
      assert log[..|log| - 1][..d] == log[..d];
    } else {
      assert log[..d] == log;
    }
  }

  lemma NamedAfter(log: seq<Ran>, was: bool, d: nat)
    requires d < |log| && forall i :: d < i < |log| ==> !Decides(log[i].step)
    ensures log[d].step.CreateConnector? ==> Named(log, was) == (log[d].effects > 0 || Named(log[..d], was))
    ensures log[d].step.DeleteConnector? ==> Named(log, was) == (log[d].effects == 0 && Named(log[..d], was))
  {
    LastWord(log, was, d + 1);
    assert log[..d + 1][..d] == log[..d];
  }

  /** Where a failed CDC run touches connectors. */
  lemma DecidingSteps(j: Job, n: nat, log: seq<Ran>)
    requires FailedAt(CDC, j, n, log)
    ensures n >= 5 ==> log[5].step.CreateConnector? && (n > 5 ==> log[5].ok)
    ensures n > 5 ==> n + 1 < |log| && log[n + 1].step == DeleteConnector(j.connector.name)
    ensures forall i :: 0 <= i < |log| && i != 5 && i != n + 1 ==> !Decides(log[i].step)
    ensures n <= 5 && n + 1 < |log| ==> !Decides(log[n + 1].step)
    ensures n < 5 && |log| > 5 ==> !Decides(log[5].step)
    ensures forall i :: 0 <= i < 5 && i < |log| ==> !TouchesConnector(log[i].step)
  {
  }

  lemma NamedInFailedRun(j: Job, n: nat, log: seq<Ran>, was: bool)
    requires FailedAt(CDC, j, n, log)
    requires n >= 5 ==> (log[5].effects > 0 ==> !was) && (log[5].ok ==> log[5].effects > 0)
    ensures Named(log, was) == was <==> n < 5 || (n == 5 && log[5].effects == 0) || (n > 5 && log[n + 1].effects > 0)
  {
    DecidingSteps(j, n, log);
    hide FailedAt, Named;
    if n < 5 {
      LastWord(log, was, 0);
      assert log[..0] == [];
    } else if n == 5 {
      NamedAfter(log, was, 5);
      LastWord(log[..5], was, 0);
      assert log[..5][..0] == log[..0] == [];
    } else {
      NamedAfter(log, was, n + 1);
      NamedAfter(log[..n + 1], was, 5);
    }
    NamedAtFirst(was);
  }

  lemma NamedAtFirst(was: bool)
    ensures Named([], was) == was
  {
  }

  /** The connectors of Kafka Connect are conserved by a failed CDC run in exactly these cases. */
  lemma ConnectorConservedIff(r: Resources, j: Job, n: nat, log: seq<Ran>)
    requires FailedAt(CDC, j, n, log) && AllPossible(r, j, log)
    ensures Replay(r, j, log).kafka == r.kafka <==>
            n < 5 || (n == 5 && log[5].effects == 0) || (n > 5 && log[n + 1].effects > 0)
    ensures n > 5 ==> log[n + 1].step == DeleteConnector(j.connector.name)
  {
    DecidingSteps(j, n, log);
    FailedRunHasTwoParts(CDC, j, n, log);
    TwoPartsIsOrdered(j, n + 1, log);
    KafkaIsNamed(r, j, log);
    OtherConnectorsStay(r, j, log);
    if n >= 5 {
      CreatesOnlyIfAbsent(r, j, log);
    }
    NamedInFailedRun(j, n, log, j.connector.name in r.kafka);
    hide *;
  }

  /** Kafka Connect creates a connector only under a free name. */
  lemma CreatesOnlyIfAbsent(r: Resources, j: Job, log: seq<Ran>)
    requires |log| > 5 && AllPossible(r, j, log) && log[5].step.CreateConnector?
    requires forall i :: 0 <= i < 5 ==> !TouchesConnector(log[i].step)
    ensures log[5].effects > 0 ==> j.connector.name !in r.kafka
    ensures log[5].ok ==> log[5].effects > 0 && log[5].records > 0
    ensures log[5].records > 0 ==> ConnectorKey(j, j.connector.name) !in r.records
  {
    PrefixPossible(r, j, log, 6);
    assert log[..6][..5] == log[..5];
    ConnectorsUntouched(r, j, log[..5]);
  }

  /** Steps that do not get through to the store leave it alone. */
  lemma {:induction false} StoreUntouched(r: Resources, j: Job, log: seq<Ran>)
    requires forall i :: 0 <= i < |log| && TouchesConnector(log[i].step) ==> log[i].records == 0
    ensures Replay(r, j, log).records == r.records
  {
    hide Plus, Less, StreamID, SinkID, CaptureID;
    if log != [] {
      StoreUntouched(r, j, log[..|log| - 1]);
    }
  }

  /** A record that was written stays until a deletion gets through to the store. */
  lemma {:induction false} RecordStays(r: Resources, j: Job, log: seq<Ran>, c: nat)
    requires c < |log| && log[c].step.CreateConnector? && log[c].records > 0
    requires forall i :: c < i < |log| && log[i].step.DeleteConnector? ==> log[i].records == 0
    ensures ConnectorKey(j, j.connector.name) in Replay(r, j, log).records
  {
    hide Plus, Less, StreamID, SinkID, CaptureID;
    if c < |log| - 1 {
      RecordStays(r, j, log[..|log| - 1], c);
    }
  }

  /** And the connector store's records in exactly these. */
  lemma RecordConservedIff(r: Resources, j: Job, n: nat, log: seq<Ran>)
    requires FailedAt(CDC, j, n, log) && AllPossible(r, j, log)
    ensures n > 5 ==> log[n + 1].step == DeleteConnector(j.connector.name)
    ensures Replay(r, j, log).records == r.records <==>
            n < 5 || (n == 5 && log[5].records == 0) || (n > 5 && log[n + 1].records > 0)
  {
    DecidingSteps(j, n, log);
    AwaitOnlyAfterCreate(j, n, log);
    FailedRunHasTwoParts(CDC, j, n, log);
    TwoPartsIsOrdered(j, n + 1, log);
    if n >= 5 {
      CreatesOnlyIfAbsent(r, j, log);
    }
    RecordConserved(r, j, n, log);
    hide *;
  }

  lemma RecordConserved(r: Resources, j: Job, n: nat, log: seq<Ran>)
    requires n < |log| && OwnConnector(log, j.connector.name)
    requires n >= 5 ==> log[5].step.CreateConnector? && (n > 5 ==> log[5].ok)
    requires n > 5 ==> n + 1 < |log| && log[n + 1].step == DeleteConnector(j.connector.name)
    requires forall i :: 0 <= i < |log| && i != 5 && i != n + 1 ==> !Decides(log[i].step)
    requires n <= 5 && n + 1 < |log| ==> !Decides(log[n + 1].step)
    requires forall i :: 0 <= i < |log| && log[i].step.AwaitConnector? ==> i == 6 && n >= 6
    requires n >= 5 && log[5].records > 0 ==> ConnectorKey(j, j.connector.name) !in r.records
    requires n >= 5 && log[5].ok ==> log[5].records > 0
    requires n < 5 && |log| > 5 ==> !Decides(log[5].step)
    ensures Replay(r, j, log).records == r.records <==>
            n < 5 || (n == 5 && log[5].records == 0) || (n > 5 && log[n + 1].records > 0)
  {
    hide Replay, OwnConnector;
    if n < 5 || (n == 5 && log[5].records == 0) {
      StoreUntouched(r, j, log);
    } else if n == 5 || log[n + 1].records == 0 {
      RecordStays(r, j, log, 5);
    } else {
      DeletedIsGone(r, j, log, n + 1);
    }
  }

  // ---- clean runs ----

  /** No reply was lost: what failed did nothing, what succeeded took effect once. */
  predicate Clean(log: seq<Ran>) {
    forall i | 0 <= i < |log| :: if log[i].ok then log[i].effects == 1 else log[i].effects == 0 && log[i].records == 0
  }

  /** The compensating deletes, and the marking of an existing pipeline, succeeded. */
  predicate UndoWorked(r: Resources, j: Job, n: nat, log: seq<Ran>) {
    forall i | n < i < |log| :: (log[i].step.Mark? ==> j.spec.key in r.states) ==> log[i].ok
  }

  predicate SinkMade(g: Saga, n: nat) { if g.Pipeline? then n > 5 else n > 7 }

  /** Where compensation deletes the stream and the sink, and that it ends with the marking. */
  lemma UndoShape(j: Job, g: Saga, n: nat)
    requires n < Length(g)
    ensures var undo, m := Compensation(j, g, n), |Compensation(j, g, n)|;
            && (n >= 3 ==> m > 0 && undo[m - 1] == Mark(ErrorState))
            && (n > 4 ==> m > 1 && undo[m - 2] == DeleteStream(StreamID(j.spec)))
            && (SinkMade(g, n) ==> m > 2 && undo[m - 3] == DeleteSink(SinkID(j.spec)))
            && (forall i :: 0 <= i < m && (n <= 4 || i != m - 2) ==> undo[i] != DeleteStream(StreamID(j.spec)))
            && (forall i :: 0 <= i < m && (!SinkMade(g, n) || i != m - 3) ==> undo[i] != DeleteSink(SinkID(j.spec)))
            && (forall i :: 0 <= i < m ==> !undo[i].EnsureStream? && !undo[i].EnsureSink?)
  {
    if n >= 3 {
      CompensationOf(j, g, n, DeleteStream(StreamID(j.spec)), DeleteSink(SinkID(j.spec)),
          DeleteConnector(j.connector.name));
      hide StreamID, SinkID, Compensation;
    }
  }

  lemma TailSteps(g: Saga, j: Job, n: nat, log: seq<Ran>)
    requires FailedAt(g, j, n, log)
    ensures |log| == n + 1 + |Compensation(j, g, n)|
    ensures forall i :: n < i < |log| ==> log[i].step == Compensation(j, g, n)[i - n - 1]
    ensures forall i :: 0 <= i <= n ==> log[i].step == StepOf(g, i) && (i < n ==> log[i].ok)
  {
    hide Compensation, StepOf;
    assert forall i :: n < i < |log| ==> log[i] == log[n + 1..][i - n - 1];
  }

  /** Where a failed run makes and deletes its stream: once each. */
  lemma StreamSteps(g: Saga, j: Job, n: nat, log: seq<Ran>)
    requires FailedAt(g, j, n, log)
    ensures n > 4 ==> |log| - 2 > n && log[|log| - 2].step == DeleteStream(StreamID(j.spec))
    ensures n > 4 ==> log[4].step == EnsureStream && log[4].ok
    ensures forall i :: 0 <= i < |log| && i != 4 ==> log[i].step != EnsureStream
    ensures forall i :: 0 <= i < |log| && (n <= 4 || i != |log| - 2) ==> log[i].step != DeleteStream(StreamID(j.spec))
    ensures n >= 3 ==> |log| - 1 > n && log[|log| - 1].step == Mark(ErrorState)
  {
    UndoShape(j, g, n);
    TailSteps(g, j, n, log);
    hide StreamID, SinkID, Compensation, FailedAt;
  }

  function SinkStep(g: Saga): nat { if g.Pipeline? then 5 else 7 }

  /** And its sink. */
  lemma SinkSteps(g: Saga, j: Job, n: nat, log: seq<Ran>)
    requires FailedAt(g, j, n, log)
    ensures SinkMade(g, n) ==> |log| - 3 > n && log[|log| - 3].step == DeleteSink(SinkID(j.spec))
    ensures SinkMade(g, n) ==> log[SinkStep(g)].step == EnsureSink && log[SinkStep(g)].ok
    ensures forall i :: 0 <= i < |log| && i != SinkStep(g) ==> log[i].step != EnsureSink
    ensures forall i :: 0 <= i < |log| && (!SinkMade(g, n) || i != |log| - 3) ==>
              log[i].step != DeleteSink(SinkID(j.spec))
  {
    UndoShape(j, g, n);
    TailSteps(g, j, n, log);
    hide StreamID, SinkID, Compensation, FailedAt;
  }

  /** The effects of a step that is run at most once, in a clean run. */
  lemma CleanEffects(log: seq<Ran>, step: Step, i: nat)
    requires Clean(log)
    requires forall k :: 0 <= k < |log| && k != i ==> log[k].step != step
    ensures EffectsOf(log, step) == if i < |log| && log[i].step == step && log[i].ok then 1 else 0
  {
  }

  lemma CleanBooks(r: Resources, g: Saga, j: Job, n: nat, log: seq<Ran>)
    requires FailedAt(g, j, n, log) && Clean(log) && UndoWorked(r, j, n, log)
    ensures Replay(r, j, log).streams == r.streams && Replay(r, j, log).sinks == r.sinks
  {
    StreamSteps(g, j, n, log);
    SinkSteps(g, j, n, log);
    ConservedIff(r, g, j, n, log);
    hide FailedAt, Replay, EffectsOf, StreamID, SinkID;
    CleanEffects(log, EnsureStream, 4);
    CleanEffects(log, DeleteStream(StreamID(j.spec)), if n > 4 then |log| - 2 else |log|);
    CleanEffects(log, EnsureSink, SinkStep(g));
    CleanEffects(log, DeleteSink(SinkID(j.spec)), if SinkMade(g, n) then |log| - 3 else |log|);
  }

  lemma NothingRecorded(r: Resources, j: Job, log: seq<Ran>, c: nat)
    requires c < |log| && log[c].step.CreateConnector? && log[c].effects == 0 && log[c].records == 0
    requires forall i :: 0 <= i < |log| && i != c ==> !TouchesConnector(log[i].step)
    ensures Replay(r, j, log).kafka == r.kafka && Replay(r, j, log).records == r.records
  {
    var head, tail := log[..c + 1], log[c + 1..];
    assert log == head + tail;
    ReplayConcat(r, j, head, tail);
    assert head[..c] == log[..c];
    ConnectorsUntouched(r, j, log[..c]);
    hide Plus, Less, StreamID, SinkID, CaptureID;
    ConnectorsUntouched(Replay(r, j, head), j, tail);
  }

  lemma CleanPipelineConnectors(r: Resources, j: Job, n: nat, log: seq<Ran>)
    requires FailedAt(Pipeline, j, n, log)
    ensures Replay(r, j, log).kafka == r.kafka && Replay(r, j, log).records == r.records
  {
    CompensationUndoes(j, Pipeline, n);
    hide Compensation, OwnUndo, Makes;
    assert forall i :: n < i < |log| ==> log[i] == log[n + 1..][i - n - 1];
    assert forall i :: 0 <= i < |log| ==> !TouchesConnector(log[i].step) by {
      CompensationMakesNothing(j, Pipeline, n);
    }
    hide FailedAt;
    ConnectorsUntouched(r, j, log);
  }

  lemma CompensationMakesNothing(j: Job, g: Saga, n: nat)
    requires n < Length(g)
    ensures forall i :: 0 <= i < |Compensation(j, g, n)| ==>
              !Compensation(j, g, n)[i].CreateConnector? && !Compensation(j, g, n)[i].AwaitConnector?
  {
  }

  lemma CleanCDCConnectors(r: Resources, j: Job, n: nat, log: seq<Ran>)
    requires FailedAt(CDC, j, n, log) && Clean(log) && UndoWorked(r, j, n, log) && AllPossible(r, j, log)
    ensures Replay(r, j, log).kafka == r.kafka && Replay(r, j, log).records == r.records
  {
    DecidingSteps(j, n, log);
    ConnectorConservedIff(r, j, n, log);
    AwaitOnlyAfterCreate(j, n, log);
    if n < 5 {
      ConnectorsUntouched(r, j, log);
    } else if n == 5 {
      NothingRecorded(r, j, log, 5);
    } else {
      FailedRunHasTwoParts(CDC, j, n, log);
      TwoPartsIsOrdered(j, n + 1, log);
      CreatesOnlyIfAbsent(r, j, log);
      DeleteRecorded(r, j, log, n + 1);
      hide Replay, FailedAt;
      DeletedIsGone(r, j, log, n + 1);
    }
  }

  lemma AwaitOnlyAfterCreate(j: Job, n: nat, log: seq<Ran>)
    requires FailedAt(CDC, j, n, log)
    ensures forall i :: 0 <= i < |log| && log[i].step.AwaitConnector? ==> i == 6 && n >= 6
  {
  }

  lemma DeleteRecorded(r: Resources, j: Job, log: seq<Ran>, d: nat)
    requires d < |log| && AllPossible(r, j, log) && log[d].step.DeleteConnector? && log[d].ok
    ensures log[d].effects > 0 && log[d].records > 0
  {
  }

  /**
   Conservation: a failed run whose compensation works, and in which no reply was lost, leaves everything as it
   was, but for captures, which are never removed, and for the pipeline's state, which is now ERROR.
   */
  lemma CleanFailureConserves(r: Resources, g: Saga, j: Job, n: nat, log: seq<Ran>)
    requires n >= 3 && FailedAt(g, j, n, log) && AllPossible(r, j, log)
    requires Clean(log) && UndoWorked(r, j, n, log)
    ensures Replay(r, j, log)
            == r.(captures := Plus(r.captures, CaptureID(j.spec), EffectsOf(log, StartCapture)),
                  states := if j.spec.key in r.states then r.states[j.spec.key := ErrorState] else r.states)
  {
    CleanBooks(r, g, j, n, log);
    if g.Pipeline? {
      CleanPipelineConnectors(r, j, n, log);
    } else {
      CleanCDCConnectors(r, j, n, log);
    }
    WhatNobodyUndoes(r, j, log);
    StreamSteps(g, j, n, log);
    hide Replay, FailedAt, EffectsOf, Plus, CaptureID, StreamID, SinkID;
    if j.spec.key in r.states {
      LastMarkDecides(r, j, log, ErrorState);
    } else {
      assert Replay(r, j, log).states == r.states;
    }
  }

  // ---- provision, then decommission ----

  /** A decommission with what the provisioning has returned, every step of which succeeded. */
  predicate Decommissioned(j: Job, log: seq<Ran>) {
    && Undone(Decommission(j.connector.name, StreamID(j.spec), SinkID(j.spec)), log)
    && forall i | 0 <= i < |log| :: log[i].ok
  }

  lemma RoundTripSteps(j: Job, up: seq<Ran>, down: seq<Ran>)
    requires Succeeded(CDC, up) && Decommissioned(j, down)
    ensures var log := up + down;
            && |log| == 13 && (forall i :: 0 <= i < |log| ==> log[i].ok) && TwoParts(j, 9, log)
            && (forall i :: 0 <= i < 9 ==> log[i].step == StepOf(CDC, i))
            && log[9].step == DeleteConnector(j.connector.name) && log[10].step == DeleteSink(SinkID(j.spec))
            && log[11].step == DeleteStream(StreamID(j.spec)) && log[12].step == Mark(DecommissionedState)
  {
  }

  /**
   Provision and decommission: Kafka Connect and the connector store are as before, the pipeline is
   DECOMMISSIONED, and streams and sinks are as before if and only if as many were deleted as were made.
   */
  lemma RoundTrip(r: Resources, j: Job, up: seq<Ran>, down: seq<Ran>)
    requires Succeeded(CDC, up) && Decommissioned(j, down) && AllPossible(r, j, up + down)
    ensures var end, log := Replay(r, j, up + down), up + down;
            && end.kafka == r.kafka && end.records == r.records && end.captures == r.captures
            && j.spec.key in r.states && end.states == r.states[j.spec.key := DecommissionedState]
            && (end.streams == r.streams <==>
                  || log[4].effects == log[11].effects
                  || (r.streams[StreamID(j.spec)] == 0 && log[4].effects <= log[11].effects))
            && (end.sinks == r.sinks <==>
                  || log[7].effects == log[10].effects
                  || (r.sinks[SinkID(j.spec)] == 0 && log[7].effects <= log[10].effects))
  {
    RoundTripSteps(j, up, down);
    RoundTripOf(r, j, up + down);
  }

  lemma RoundTripOf(r: Resources, j: Job, log: seq<Ran>)
    requires |log| == 13 && (forall i :: 0 <= i < |log| ==> log[i].ok) && TwoParts(j, 9, log) && AllPossible(r, j, log)
    requires forall i :: 0 <= i < 9 ==> log[i].step == StepOf(CDC, i)
    requires log[9].step == DeleteConnector(j.connector.name) && log[10].step == DeleteSink(SinkID(j.spec))
    requires log[11].step == DeleteStream(StreamID(j.spec)) && log[12].step == Mark(DecommissionedState)
    ensures var end := Replay(r, j, log);
            && end.kafka == r.kafka && end.records == r.records && end.captures == r.captures
            && j.spec.key in r.states && end.states == r.states[j.spec.key := DecommissionedState]
            && (end.streams == r.streams <==>
                  || log[4].effects == log[11].effects
                  || (r.streams[StreamID(j.spec)] == 0 && log[4].effects <= log[11].effects))
            && (end.sinks == r.sinks <==>
                  || log[7].effects == log[10].effects
                  || (r.sinks[SinkID(j.spec)] == 0 && log[7].effects <= log[10].effects))
  {
    TwoPartsIsOrdered(j, 9, log);
    RoundTripMakes(log);
    hide *;
    RoundTripConnectors(r, j, log);
    RoundTripState(r, j, log);
    Books(r, j, log);
    EffectsOfOnly(log, 4);
    EffectsOfOnly(log, 7);
    EffectsOfOnly(log, 10);
    EffectsOfOnly(log, 11);
  }

  lemma RoundTripMakes(log: seq<Ran>)
    requires |log| == 13 && forall i :: 0 <= i < 9 ==> log[i].step == StepOf(CDC, i)
    ensures log[4].step == EnsureStream && log[7].step == EnsureSink
    ensures forall i :: 0 <= i < 9 ==>
              !log[i].step.StartCapture? && !log[i].step.DeleteStream? && !log[i].step.DeleteSink?
    ensures forall i :: 0 <= i < 9 && i != 4 ==> !log[i].step.EnsureStream?
    ensures forall i :: 0 <= i < 9 && i != 7 ==> !log[i].step.EnsureSink?
  {
  }

  lemma RoundTripConnectors(r: Resources, j: Job, log: seq<Ran>)
    requires |log| == 13 && (forall i :: 0 <= i < |log| ==> log[i].ok) && TwoParts(j, 9, log) && AllPossible(r, j, log)
    requires forall i :: 0 <= i < 9 ==> log[i].step == StepOf(CDC, i)
    requires log[9].step == DeleteConnector(j.connector.name) && OwnConnector(log, j.connector.name)
    requires forall i :: 10 <= i < 13 ==> !log[i].step.DeleteConnector?
    ensures Replay(r, j, log).kafka == r.kafka && Replay(r, j, log).records == r.records
  {
    var was := j.connector.name in r.kafka;
    CreatesOnlyIfAbsent(r, j, log);
    DeleteRecorded(r, j, log, 9);
    DeletedIsGone(r, j, log, 9);
    KafkaIsNamed(r, j, log);
    OtherConnectorsStay(r, j, log);
    NamedAfter(log, was, 9);
    hide *;
  }

  lemma RoundTripState(r: Resources, j: Job, log: seq<Ran>)
    requires |log| == 13 && log[12].ok && log[12].step == Mark(DecommissionedState) && AllPossible(r, j, log)
    requires forall i :: 0 <= i < 13 ==> !log[i].step.StartCapture?
    ensures j.spec.key in r.states && Replay(r, j, log).states == r.states[j.spec.key := DecommissionedState]
    ensures Replay(r, j, log).captures == r.captures
  {
    WhatNobodyUndoes(r, j, log[..12]);
    WhatNobodyUndoes(r, j, log);
    NoEffectsUnlessRun(log, StartCapture);
    PlusPlus(r.captures, CaptureID(j.spec), 0, 0);
    hide Plus, Less, StreamID, SinkID, CaptureID;
    LastMarkDecides(r, j, log, DecommissionedState);
  }
}
