/**
 The connector activities as they are written, over two objects that are updated one after the other, and the
 polling loop that waits for a connector. Proved against the functions of module Connectors.
 (internal/temporal/session2_activities.go, internal/connectors/kafkaconnect_fake.go,
     internal/store/connector_memory.go)
 */
module ConnectorActivities {
  import opened Wrappers
  import opened Connectors

  class FakeKafkaConnectClient {
    var connectors: map<string, ConnectorState>

    constructor ()
      ensures connectors == map[]
    {
      connectors := map[];
    }

    method CreateConnector(cfg: Config) returns (ok: bool)
      modifies this
      ensures ok == (cfg.name !in old(connectors))
      ensures connectors == if ok then old(connectors)[cfg.name := Running] else old(connectors)
    {
      ok := cfg.name !in connectors;
      if ok {
        connectors := connectors[cfg.name := Running];
      }
    }

    method GetConnectorStatus(name: string) returns (status: Option<ConnectorState>)
      ensures status == if name in connectors then Some(connectors[name]) else None
    {
      status := if name in connectors then Some(connectors[name]) else None;
    }

    method DeleteConnector(name: string)
      modifies this
      ensures connectors == old(connectors) - {name}
    {
      connectors := connectors - {name};
    }

    /** PauseConnector and ResumeConnector. */
    method SetRunState(name: string, state: ConnectorState) returns (ok: bool)
      modifies this
      ensures ok == (name in old(connectors))
      ensures connectors == if ok then old(connectors)[name := state] else old(connectors)
    {
      ok := name in connectors;
      if ok {
        connectors := connectors[name := state];
      }
    }

    /** Visits the map in any order; every name comes out once. */
    method ListConnectors() returns (names: seq<string>)
      ensures multiset(names) == multiset(connectors.Keys)
    {
      names := [];
      var todo := connectors.Keys;
      while todo != {}
        invariant todo <= connectors.Keys && multiset(names) == multiset(connectors.Keys - todo)
      {
        var n :| n in todo;
        assert connectors.Keys - (todo - {n}) == connectors.Keys - todo + {n};
        names, todo := names + [n], todo - {n};
      }
      assert connectors.Keys - {} == connectors.Keys;
    }
  }

  class InMemoryConnectorStore {
    var connectors: map<Key, Record>

    constructor ()
      ensures connectors == map[]
    {
      connectors := map[];
    }

    method CreateConnector(k: Key, rec: Record) returns (ok: bool)
      modifies this
      ensures ok == (k !in old(connectors))
      ensures connectors == if ok then old(connectors)[k := rec] else old(connectors)
    {
      ok := k !in connectors;
      if ok {
        connectors := connectors[k := rec];
      }
    }

    method UpdateConnectorState(k: Key, state: ConnectorState) returns (ok: bool)
      modifies this
      ensures ok == (k in old(connectors))
      ensures connectors == if ok then old(connectors)[k := old(connectors)[k].(state := state)] else old(connectors)
    {
      ok := k in connectors;
      if ok {
        connectors := connectors[k := connectors[k].(state := state)];
      }
    }

    method DeleteConnector(k: Key)
      modifies this
      ensures connectors == old(connectors) - {k}
    {
      connectors := connectors - {k};
    }

    /** The records of one pipeline, in any order and each once. */
    method ListConnectors(tenant: string, pipeline: string) returns (keys: seq<Key>, recs: seq<Record>)
      ensures |recs| == |keys| && forall i :: 0 <= i < |keys| ==>
                keys[i] in connectors && recs[i] == connectors[keys[i]]
      ensures multiset(keys) == multiset(set k | k in connectors && k.tenant == tenant && k.pipeline == pipeline)
    {
      keys, recs := [], [];
      var todo := connectors.Keys;
      ghost var all := set k | k in connectors && k.tenant == tenant && k.pipeline == pipeline;
      while todo != {}
        invariant todo <= connectors.Keys
        invariant |recs| == |keys| && forall i :: 0 <= i < |keys| ==>
            keys[i] in connectors && recs[i] == connectors[keys[i]]
        invariant multiset(keys) == multiset(all - todo)
      {
        var k :| k in todo;
        if k.tenant == tenant && k.pipeline == pipeline {
          assert all - (todo - {k}) == all - todo + {k};
          keys, recs := keys + [k], recs + [connectors[k]];
        } else {
          assert all - (todo - {k}) == all - todo;
        }
        todo := todo - {k};
      }
      assert all - {} == all;
    }
  }

  const SECOND := 1_000_000_000

  class Session2Activities {
    const kafka: FakeKafkaConnectClient
    const store: InMemoryConnectorStore
    const alone: bool   // nobody else creates or deletes connectors meanwhile
    var now: int        // nanoseconds

    constructor (kafka: FakeKafkaConnectClient, store: InMemoryConnectorStore, alone: bool)
      ensures this.kafka == kafka && this.store == store && this.alone == alone
    {
      this.kafka, this.store, this.alone, now := kafka, store, alone, 0;
    }

    function World(): World
      reads kafka, store
    {
      Connectors.World(kafka.connectors, store.connectors)
    }

    method ValidateConnectorConfig(c: Config) returns (ok: bool)
      ensures ok == ValidConfig(c)
    {
      if c.name == "" || |c.config| == 0 {
        return false;
      }
      ok := "connector.class" in c.config && c.config["connector.class"] != "";
    }

    /** `torn` is the loss of the worker between the two writes. */
    method CreateConnectorActivity(key: Key, config: map<string, string>, torn: bool) returns (ok: bool)
      modifies kafka, store
      ensures World() == Perform(old(World()), Create(key, config, torn))
      ensures ok == Succeeds(old(World()), Create(key, config, torn))
      ensures ok ==>
                && key.name in kafka.connectors && kafka.connectors[key.name] == Running
                && key in store.connectors && store.connectors[key] == Record(Config(key.name, config), Unassigned)
      ensures !ok ==> store.connectors == old(store.connectors)
    {
      var cfg := Config(key.name, config);
      ok := ValidateConnectorConfig(cfg);
      if !ok {
        return;
      }
      ok := kafka.CreateConnector(cfg);
      if !ok || torn {
        return false;
      }
      ok := store.CreateConnector(key, Record(cfg, Unassigned));
    }

    method DeleteConnectorActivity(key: Key, torn: bool) returns (ok: bool)
      modifies kafka, store
      ensures World() == Perform(old(World()), Delete(key, torn))
      ensures ok == Succeeds(old(World()), Delete(key, torn))
      ensures key.name !in kafka.connectors && (ok ==> key !in store.connectors)
    {
      kafka.DeleteConnector(key.name);
      if torn {
        return false;
      }
      store.DeleteConnector(key);
      ok := true;
    }

    method PauseConnectorActivity(key: Key, torn: bool) returns (ok: bool)
      modifies kafka, store
      ensures World() == Perform(old(World()), Pause(key, torn))
      ensures ok == Succeeds(old(World()), Pause(key, torn))
      ensures ok ==>
                && key.name in kafka.connectors && kafka.connectors[key.name] == Paused
                && key in store.connectors && store.connectors[key].state == Paused
    {
      ok := kafka.SetRunState(key.name, Paused);
      if !ok || torn {
        return false;
      }
      ok := store.UpdateConnectorState(key, Paused);
    }

    method ResumeConnectorActivity(key: Key, torn: bool) returns (ok: bool)
      modifies kafka, store
      ensures World() == Perform(old(World()), Resume(key, torn))
      ensures ok == Succeeds(old(World()), Resume(key, torn))
      ensures ok ==>
                && key.name in kafka.connectors && kafka.connectors[key.name] == Running
                && key in store.connectors && store.connectors[key].state == Running
    {
      ok := kafka.SetRunState(key.name, Running);
      if !ok || torn {
        return false;
      }
      ok := store.UpdateConnectorState(key, Running);
    }

    /** While the activity sleeps the clock moves on and Kafka Connect's connectors change as they like. */
    method Sleep(interval: int)
      modifies this`now, kafka
      ensures now >= old(now) + if interval > 0 then interval else 0
      ensures alone ==> kafka.connectors.Keys == old(kafka.connectors.Keys)
    {
      var late: int := *;
      now := now + (if interval > 0 then interval else 0) + if late < 0 then 0 else late;
      var drifted: map<string, ConnectorState> := *;
      if !alone || drifted.Keys == kafka.connectors.Keys {
        kafka.connectors := drifted;
      }
    }

    /** A call takes time. */
    method Tick()
      modifies this`now
      ensures now >= old(now)
    {
      var d: int := *;
      now := now + if d < 0 then 0 else d;
    }

    /**
     Polls until the connector runs, fails or is gone, the deadline has passed, or the activity is cancelled. The
     time it may take bounds its polls, unless the interval is negative: then it does not pause, and only its
     context, which is cancelled after `lease` sleeps, bounds them. It succeeds only on a poll that saw RUNNING, and
     has then told the store; unless cancelled it leaves what Await leaves of the world that its last poll saw. It gives
     up only if that poll saw nothing, or FAILED, or RUNNING but no record, or came back after the deadline.
     */
    method WaitForConnectorRunningActivity(key: Key, pollInterval: int, waitLimit: int, lease: nat)
      returns (ok: bool, cancelled: bool, polls: nat, ghost seen: World)
      modifies this`now, kafka, store
      ensures 1 <= polls <= lease + 1
      ensures var interval := if pollInterval == 0 then 2 * SECOND else pollInterval;
              var timeout := if waitLimit == 0 then 120 * SECOND else waitLimit;
              interval > 0 ==> polls <= (if timeout < 0 then 0 else timeout / interval) + 2
      ensures seen.store == old(store.connectors)
      ensures ok == (!cancelled && Succeeds(seen, Await(key, false)))
      ensures !cancelled ==> World() == Perform(seen, Await(key, false))
      ensures cancelled ==> store.connectors == old(store.connectors) && !ok && polls == lease + 1
      ensures ok ==>
                && key.name in kafka.connectors && kafka.connectors[key.name] == Running
                && key in store.connectors && store.connectors[key].state == Running
      ensures key.name in old(kafka.connectors) && old(kafka.connectors)[key.name].Running?
              && key in old(store.connectors) ==>
                ok && !cancelled && polls == 1
      ensures !ok && !cancelled ==>
                || key.name !in seen.kafka || seen.kafka[key.name] == FailedState
                || (seen.kafka[key.name] == Running && key !in seen.store)
                || (!seen.kafka[key.name].Running?
                    && now > old(now) + if waitLimit == 0 then 120 * SECOND else waitLimit)
      ensures alone ==> kafka.connectors.Keys == old(kafka.connectors.Keys)
    {
      var interval := if pollInterval == 0 then 2 * SECOND else pollInterval;
      var timeout := if waitLimit == 0 then 120 * SECOND else waitLimit;
      ghost var start := now;
      ghost var slept: int := 0;   // the time of `polls` full sleeps
      var deadline := now + timeout;
      polls := 0;
      NextSleep(0, interval);
      hide Sleeps;
      while true
        invariant polls <= lease && slept == Sleeps(polls, interval)
        invariant interval > 0 ==> now >= start + slept && (polls > 0 ==> start + slept - interval <= deadline)
        invariant if polls == 0 then unchanged(kafka) else
                    key.name in old(kafka.connectors) && !old(kafka.connectors)[key.name].Running?
        invariant unchanged(store) && (alone ==> kafka.connectors.Keys == old(kafka.connectors.Keys))
        decreases lease - polls
      {
        Tick();
        var status := kafka.GetConnectorStatus(key.name);
        seen := World();
        polls := polls + 1;
        if interval > 0 {
          PollsWithin(polls - 1, interval, timeout);
        }
        if status.None? {
          return false, false, polls, seen;
        }
        if status.value.Running? {
          ok := store.UpdateConnectorState(key, Running);
          return ok, false, polls, seen;
        }
        if status.value.FailedState? {
          return false, false, polls, seen;
        }
        Tick();
        if now > deadline {
          return false, false, polls, seen;
        }
        if polls > lease {
          return false, true, polls, seen;
        }
        NextSleep(polls - 1, interval);
        slept := slept + interval;
        Sleep(interval);
      }
    }
  }

  function Sleeps(n: nat, interval: int): int { n * interval }

  lemma NextSleep(n: nat, interval: int)
    ensures Sleeps(0, interval) == 0 && Sleeps(n + 1, interval) == Sleeps(n, interval) + interval
  {
  }

  /** As many full sleeps as fit into the time limit, and the one that oversteps it. */
  lemma PollsWithin(sleeps: nat, interval: int, timeout: int)
    requires interval > 0 && (sleeps > 0 ==> Sleeps(sleeps, interval) - interval <= timeout)
    ensures sleeps <= (if timeout < 0 then 0 else timeout / interval) + 1
  {
    if sleeps > 1 {
      var q := timeout / interval;
      assert timeout < (q + 1) * interval;
      assert (sleeps - 1) * interval == sleeps * interval - interval;
      LessByFactor(sleeps - 1, q + 1, interval);
    }
  }

  lemma LessByFactor(a: int, b: int, factor: int)
    requires factor > 0 && a * factor < b * factor
    ensures a < b
  {
  }
}
