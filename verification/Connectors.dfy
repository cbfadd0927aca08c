/**
 The two registries of connectors, Kafka Connect's by name and the store's by tenant, pipeline and name, and
 the activities that write first the one and then the other.
 (internal/temporal/session2_activities.go, internal/connectors/kafkaconnect_fake.go,
     internal/store/connector_memory.go)
 */
module Connectors {
  import opened Wrappers

  datatype ConnectorState = Unassigned | Running | Paused | FailedState | Stopped

  datatype Key = Key(tenant: string, pipeline: string, name: string)

  datatype Config = Config(name: string, config: map<string, string>)

  datatype Record = Record(config: Config, state: ConnectorState)

  datatype World = World(kafka: map<string, ConnectorState>, store: map<Key, Record>)

  const EMPTY := World(map[], map[])

  predicate ValidConfig(c: Config) {
    && c.name != "" && |c.config| != 0
    && "connector.class" in c.config && c.config["connector.class"] != ""
  }

  /** An activity attempt. `torn` means that the worker was lost between its two writes. */
  datatype Act =
    | Create(key: Key, config: map<string, string>, torn: bool)
    | Await(key: Key, torn: bool)      // the poll that ends the wait, and what follows
    | Pause(key: Key, torn: bool)
    | Resume(key: Key, torn: bool)
    | Delete(key: Key, torn: bool)

  function ConfigOf(a: Act): Config
    requires a.Create?
  {
    Config(a.key.name, a.config)
  }

  /** The first write, or what takes its place: whether Kafka Connect let the activity go on. */
  predicate KafkaAccepts(w: World, a: Act) {
    match a
    case Create(k, _, _) => ValidConfig(ConfigOf(a)) && k.name !in w.kafka
    case Await(k, _) => k.name in w.kafka && w.kafka[k.name].Running?
    case Pause(k, _) => k.name in w.kafka
    case Resume(k, _) => k.name in w.kafka
    case Delete(_, _) => true
  }

  function OnKafka(w: World, a: Act): World {
    if !KafkaAccepts(w, a) then w
    else
      match a
      case Create(k, _, _) => w.(kafka := w.kafka[k.name := Running])
      case Await(_, _) => w
      case Pause(k, _) => w.(kafka := w.kafka[k.name := Paused])
      case Resume(k, _) => w.(kafka := w.kafka[k.name := Running])
      case Delete(k, _) => w.(kafka := w.kafka - {k.name})
  }

  /** The second write. */
  predicate StoreAccepts(w: World, a: Act) {
    match a
    case Create(k, _, _) => k !in w.store
    case Delete(_, _) => true
    case _ => a.key in w.store
  }

  function OnStore(w: World, a: Act): World {
    if !StoreAccepts(w, a) then w
    else
      match a
      case Create(k, _, _) => w.(store := w.store[k := Record(ConfigOf(a), Unassigned)])
      case Await(k, _) => w.(store := w.store[k := w.store[k].(state := Running)])
      case Pause(k, _) => w.(store := w.store[k := w.store[k].(state := Paused)])
      case Resume(k, _) => w.(store := w.store[k := w.store[k].(state := Running)])
      case Delete(k, _) => w.(store := w.store - {k})
  }

  predicate Succeeds(w: World, a: Act) { KafkaAccepts(w, a) && !a.torn && StoreAccepts(w, a) }

  function Perform(w: World, a: Act): World {
    if KafkaAccepts(w, a) && !a.torn then OnStore(OnKafka(w, a), a) else OnKafka(w, a)
  }

  function PerformAll(acts: seq<Act>): World {
    if acts == [] then EMPTY else Perform(PerformAll(acts[..|acts| - 1]), acts[|acts| - 1])
  }

  /** Every name is used through one pipeline only. */
  predicate OneOwner(acts: seq<Act>) {
    forall i, j | 0 <= i < |acts| && 0 <= j < |acts| :: acts[i].key.name == acts[j].key.name ==>
        acts[i].key == acts[j].key
  }

  predicate NoneTorn(acts: seq<Act>) { forall i | 0 <= i < |acts| :: !acts[i].torn }

  // ---- the life of one name ----

  /** Which of the registries know a name. */
  datatype Life = Absent | Both | OnlyKafka | OnlyStore

  function NextLife(l: Life, a: Act): Life {
    match a
    case Create(_, _, torn) =>
      if !ValidConfig(ConfigOf(a)) || l.Both? || l.OnlyKafka? then l
      else if l.OnlyStore? then Both              // the store refuses, and has it already
      else if torn then OnlyKafka
      else Both
    case Delete(_, torn) =>
      if !torn then Absent
      else if l.Both? || l.OnlyStore? then OnlyStore
      else Absent
    case _ => l
  }

  function LifeOf(acts: seq<Act>, name: string): Life {
    if acts == [] then Absent
    else
      var l := LifeOf(acts[..|acts| - 1], name);
      if acts[|acts| - 1].key.name == name then NextLife(l, acts[|acts| - 1]) else l
  }

  predicate InKafka(l: Life) { l.Both? || l.OnlyKafka? }
  predicate InStore(l: Life) { l.Both? || l.OnlyStore? }

  /** What one attempt does to its own name, and that it does nothing to any other. */
  lemma PerformOnName(w: World, a: Act, l: Life)
    requires a.key.name in w.kafka <==> InKafka(l)
    requires a.key in w.store <==> InStore(l)
    ensures a.key.name in Perform(w, a).kafka <==> InKafka(NextLife(l, a))
    ensures a.key in Perform(w, a).store <==> InStore(NextLife(l, a))
    ensures forall name :: name != a.key.name ==> (name in Perform(w, a).kafka <==> name in w.kafka)
    ensures forall k :: k != a.key ==> (k in Perform(w, a).store <==> k in w.store)
    ensures forall name :: name != a.key.name && name in w.kafka ==> Perform(w, a).kafka[name] == w.kafka[name]
    ensures forall k :: k != a.key && k in w.store ==> Perform(w, a).store[k] == w.store[k]
  {
  }

  /** The registries hold exactly what the lives say, whatever has been torn. */
  lemma {:induction false} RegistriesFollowLives(acts: seq<Act>, key: Key)
    requires OneOwner(acts)
    requires forall i :: 0 <= i < |acts| && acts[i].key.name == key.name ==> acts[i].key == key
    ensures key.name in PerformAll(acts).kafka <==> InKafka(LifeOf(acts, key.name))
    ensures key in PerformAll(acts).store <==> InStore(LifeOf(acts, key.name))
  {
    if acts != [] {
      var n := |acts| - 1;
      RegistriesFollowLives(acts[..n], key);
      var w := PerformAll(acts[..n]);
      if acts[n].key.name == key.name {
        PerformOnName(w, acts[n], LifeOf(acts[..n], key.name));
      } else {
        RegistriesFollowLives(acts[..n], acts[n].key);
        PerformOnName(w, acts[n], LifeOf(acts[..n], acts[n].key.name));
      }
    }
  }

  lemma {:induction false} StoredKeysWereUsed(acts: seq<Act>, key: Key)
    requires key in PerformAll(acts).store
    ensures exists i :: 0 <= i < |acts| && acts[i].key == key
  {
    var n := |acts| - 1;
    if acts[n].key != key {
      assert key in PerformAll(acts[..n]).store;
      StoredKeysWereUsed(acts[..n], key);
      var i :| 0 <= i < n && acts[..n][i].key == key;
      assert acts[i].key == key;
    }
  }

  lemma {:induction false} KafkaNamesWereUsed(acts: seq<Act>, name: string)
    requires name in PerformAll(acts).kafka
    ensures exists i :: 0 <= i < |acts| && acts[i].key.name == name
  {
    var n := |acts| - 1;
    if acts[n].key.name != name {
      assert name in PerformAll(acts[..n]).kafka;
      KafkaNamesWereUsed(acts[..n], name);
      var i :| 0 <= i < n && acts[..n][i].key.name == name;
      assert acts[i].key.name == name;
    }
  }

  // ---- agreement ----

  function NamesOf(store: map<Key, Record>): set<string> { set k | k in store :: k.name }

  /** The names that only one registry knows. */
  ghost predicate Agree(acts: seq<Act>) {
    forall i :: 0 <= i < |acts| ==>
      LifeOf(acts, acts[i].key.name).Absent? || LifeOf(acts, acts[i].key.name).Both?
  }

  lemma {:induction false} WholeLives(acts: seq<Act>, name: string)
    requires NoneTorn(acts)
    ensures LifeOf(acts, name).Absent? || LifeOf(acts, name).Both?
  {
    if acts != [] {
      WholeLives(acts[..|acts| - 1], name);
    }
  }

  /** The registries know the same names if and only if no name's life is left half. */
  lemma AgreementIff(acts: seq<Act>)
    requires OneOwner(acts)
    ensures PerformAll(acts).kafka.Keys == NamesOf(PerformAll(acts).store) <==> Agree(acts)
  {
    var w := PerformAll(acts);
    forall i | 0 <= i < |acts|
      ensures acts[i].key.name in w.kafka <==> InKafka(LifeOf(acts, acts[i].key.name))
      ensures acts[i].key.name in NamesOf(w.store) <==> InStore(LifeOf(acts, acts[i].key.name))
    {
      RegistriesFollowLives(acts, acts[i].key);
      forall k | k in w.store && k.name == acts[i].key.name ensures k == acts[i].key {
        StoredKeysWereUsed(acts, k);
      }
    }
    forall name | name in w.kafka || name in NamesOf(w.store)
      ensures exists i :: 0 <= i < |acts| && acts[i].key.name == name
    {
      if name in w.kafka {
        KafkaNamesWereUsed(acts, name);
      } else {
        var k :| k in w.store && k.name == name;
        StoredKeysWereUsed(acts, k);
      }
    }
  }

  /** As long as no worker is lost between two writes, the registries know the same names. */
  lemma RegistriesAgree(acts: seq<Act>)
    requires OneOwner(acts) && NoneTorn(acts)
    ensures PerformAll(acts).kafka.Keys == NamesOf(PerformAll(acts).store)
  {
    forall i | 0 <= i < |acts|
      ensures LifeOf(acts, acts[i].key.name).Absent? || LifeOf(acts, acts[i].key.name).Both?
    {
      WholeLives(acts, acts[i].key.name);
    }
    AgreementIff(acts);
  }

  lemma OwnerOfNext(acts: seq<Act>, a: Act)
    requires OneOwner(acts + [a])
    ensures OneOwner(acts)
    ensures forall i :: 0 <= i < |acts| && acts[i].key.name == a.key.name ==> acts[i].key == a.key
  {
    assert forall i :: 0 <= i < |acts| ==> (acts + [a])[i] == acts[i];
    assert (acts + [a])[|acts|] == a;
  }

  /** A creation torn between its two writes leaves a connector that only Kafka Connect knows. */
  lemma TornCreationDisagrees(key: Key) returns (a: Act)
    requires key.name != ""
    ensures a.Create? && a.key == key && a.torn && OneOwner([a])
    ensures LifeOf([a], key.name).OnlyKafka?
    ensures PerformAll([a]).kafka.Keys == {key.name} && NamesOf(PerformAll([a]).store) == {}
  {
    a := Create(key, map["connector.class" := "PostgresConnector"], true);
    assert "connector.class" in a.config;
    assert [a][..0] == [];
  }

  /** The store refuses a record whose connector Kafka Connect has just created only after a torn delete. */
  lemma HalfCreatedIff(acts: seq<Act>, a: Act)
    requires OneOwner(acts + [a]) && a.Create? && KafkaAccepts(PerformAll(acts), a)
    ensures !StoreAccepts(OnKafka(PerformAll(acts), a), a) <==> LifeOf(acts, a.key.name).OnlyStore?
    ensures NoneTorn(acts) ==> StoreAccepts(OnKafka(PerformAll(acts), a), a)
  {
    OwnerOfNext(acts, a);
    RegistriesFollowLives(acts, a.key);
    if NoneTorn(acts) {
      WholeLives(acts, a.key.name);
    }
  }

  /** A torn create can never be retried; a delete that gets through both writes repairs anything. */
  lemma OnlyDeleteRepairs(acts: seq<Act>, a: Act)
    requires OneOwner(acts + [a]) && LifeOf(acts, a.key.name).OnlyKafka?
    ensures !a.Delete? ==> !Succeeds(PerformAll(acts), a) && LifeOf(acts + [a], a.key.name).OnlyKafka?
    ensures a.Delete? && !a.torn ==> Succeeds(PerformAll(acts), a) && LifeOf(acts + [a], a.key.name).Absent?
  {
    OwnerOfNext(acts, a);
    RegistriesFollowLives(acts, a.key);
    assert (acts + [a])[..|acts|] == acts;
  }

  // ---- states ----

  /** The state that the last act on `name` that Kafka Connect has accepted set there, told from the acts alone. */
  function KafkaState(acts: seq<Act>, name: string): Option<ConnectorState> {
    if acts == [] then None
    else
      var a, before := acts[|acts| - 1], KafkaState(acts[..|acts| - 1], name);
      if a.key.name != name then before
      else
        match a
        case Create(_, _, _) => if before.None? && ValidConfig(ConfigOf(a)) then Some(Running) else before
        case Await(_, _) => before
        case Pause(_, _) => if before.Some? then Some(Paused) else None
        case Resume(_, _) => if before.Some? then Some(Running) else None
        case Delete(_, _) => None
  }

  /** The same for the store, which only hears of what Kafka Connect has accepted, and not if the worker is lost. */
  function StoreState(acts: seq<Act>, name: string): Option<ConnectorState> {
    if acts == [] then None
    else
      var a, before := acts[|acts| - 1], StoreState(acts[..|acts| - 1], name);
      var kafka := KafkaState(acts[..|acts| - 1], name);
      if a.key.name != name || a.torn then before
      else
        match a
        case Create(_, _, _) =>
          if kafka.None? && ValidConfig(ConfigOf(a)) && before.None? then Some(Unassigned) else before
        case Await(_, _) => if kafka == Some(Running) && before.Some? then Some(Running) else before
        case Pause(_, _) => if kafka.Some? && before.Some? then Some(Paused) else before
        case Resume(_, _) => if kafka.Some? && before.Some? then Some(Running) else before
        case Delete(_, _) => None
  }

  /** Over any history, also with torn attempts, each registry has for a name what the last accepted act has set. */
  lemma {:induction false} StatesFollowActs(acts: seq<Act>, key: Key)
    requires OneOwner(acts)
    requires forall i :: 0 <= i < |acts| && acts[i].key.name == key.name ==> acts[i].key == key
    ensures var w := PerformAll(acts);
            && KafkaState(acts, key.name) == (if key.name in w.kafka then Some(w.kafka[key.name]) else None)
            && StoreState(acts, key.name) == (if key in w.store then Some(w.store[key].state) else None)
  {
    if acts != [] {
      var front, a := acts[..|acts| - 1], acts[|acts| - 1];
      StatesFollowActs(front, key);
      if a.key.name != key.name {
        OthersStay(PerformAll(front), a, key);
      } else {
        assert a.key == key;
      }
    }
  }

  lemma OthersStay(w: World, a: Act, key: Key)
    requires a.key.name != key.name
    ensures var w' := Perform(w, a);
            && (key.name in w'.kafka <==> key.name in w.kafka)
            && (key.name in w.kafka ==> w'.kafka[key.name] == w.kafka[key.name])
            && (key in w'.store <==> key in w.store) && (key in w.store ==> w'.store[key] == w.store[key])
  {
  }

  /** Which acts succeed. */
  lemma SucceedsIff(w: World, a: Act)
    ensures Succeeds(w, a) <==>
            && !a.torn
            && match a
               case Create(k, config, _) =>
                 && k.name != "" && "connector.class" in config && config["connector.class"] != ""
                 && k.name !in w.kafka && k !in w.store
               case Await(k, _) => k.name in w.kafka && w.kafka[k.name] == Running && k in w.store
               case Pause(k, _) => k.name in w.kafka && k in w.store
               case Resume(k, _) => k.name in w.kafka && k in w.store
               case Delete(_, _) => true
    ensures a.Create? && (a.key.name == "" || "connector.class" !in a.config || a.config["connector.class"] == "") ==>
              Perform(w, a) == w
  {
  }

  /** What a successful act leaves of its own name, in both registries. */
  lemma SuccessSets(w: World, a: Act)
    requires Succeeds(w, a)
    ensures var w', k := Perform(w, a), a.key;
            match a
            case Create(_, config, _) =>
              && k.name in w'.kafka && w'.kafka[k.name] == Running
              && k in w'.store && w'.store[k] == Record(Config(k.name, config), Unassigned)
            case Await(_, _) =>
              && k.name in w'.kafka && w'.kafka[k.name] == Running && k in w'.store && w'.store[k].state == Running
            case Pause(_, _) =>
              && k.name in w'.kafka && w'.kafka[k.name] == Paused && k in w'.store && w'.store[k].state == Paused
            case Resume(_, _) =>
              && k.name in w'.kafka && w'.kafka[k.name] == Running && k in w'.store && w'.store[k].state == Running
            case Delete(_, _) => k.name !in w'.kafka && k !in w'.store
    ensures a.key in w.store && !a.Delete? ==> Perform(w, a).store[a.key].config == w.store[a.key].config
  {
  }

  predicate StatesFit(w: World) {
    forall k | k in w.store && k.name in w.kafka ::
      w.store[k].state.Unassigned? || w.store[k].state == w.kafka[k.name]
  }

  lemma {:induction false} StoredStatesFit(acts: seq<Act>)
    requires OneOwner(acts) && NoneTorn(acts)
    ensures StatesFit(PerformAll(acts))
  {
    if acts != [] {
      var n := |acts| - 1;
      var a, w := acts[n], PerformAll(acts[..n]);
      StoredStatesFit(acts[..n]);
      assert acts == acts[..n] + [a];
      OwnerOfNext(acts[..n], a);
      RegistriesFollowLives(acts[..n], a.key);
      WholeLives(acts[..n], a.key.name);
      PerformOnName(w, a, LifeOf(acts[..n], a.key.name));
      forall k | k in w.store && k != a.key ensures k.name != a.key.name {
        StoredKeysWereUsed(acts[..n], k);
      }
      WholeStep(w, a);
    }
  }

  /** An attempt that is not torn leaves a fitting state behind. */
  lemma WholeStep(w: World, a: Act)
    requires StatesFit(w) && !a.torn
    requires a.key.name in w.kafka <==> a.key in w.store
    requires forall k :: k in w.store && k != a.key ==> k.name != a.key.name
    ensures StatesFit(Perform(w, a))
  {
  }
}
