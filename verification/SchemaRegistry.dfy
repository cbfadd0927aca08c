/**
 InMemorySchemaRegistry with its BACKWARD rule, and the pre-flight check in front of it.
 (internal/connectors/schema.go, internal/temporal/activities.go)
 */
module SchemaRegistry {
  import opened Wrappers

  datatype Field = Field(name: string, required: bool)

  /** A schema text and what a JSON parser makes of it; the empty text is never parsed. */
  datatype Schema = Schema(text: string, json: Option<seq<Field>>)

  /** Field name to whether it is required. */
  type Fields = map<string, bool>

  datatype Entry = Entry(id: nat, schema: Schema, fields: Fields)

  datatype Registry = Registry(counter: nat, subjects: map<string, seq<Entry>>)

  const EMPTY := Registry(0, map[])

  /** A field that occurs twice counts as it occurs last. */
  function FieldsOf(fs: seq<Field>): Fields {
    if fs == [] then map[] else FieldsOf(fs[..|fs| - 1])[fs[|fs| - 1].name := fs[|fs| - 1].required]
  }

  lemma {:induction false} LastOccurrenceWins(fs: seq<Field>, name: string)
    ensures name in FieldsOf(fs) <==> exists i :: 0 <= i < |fs| && fs[i].name == name
    ensures name in FieldsOf(fs) ==>
              exists i :: 0 <= i < |fs| && fs[i] == Field(name, FieldsOf(fs)[name])
                          && forall j :: i < j < |fs| ==> fs[j].name != name
  {
    if fs != [] {
      var n := |fs| - 1;
      LastOccurrenceWins(fs[..n], name);
      if fs[n].name == name {
        assert fs[n] == Field(name, FieldsOf(fs)[name]);
      } else if name in FieldsOf(fs) {
        var i :| 0 <= i < n && fs[..n][i] == Field(name, FieldsOf(fs[..n])[name])
                 && forall j :: i < j < n ==> fs[..n][j].name != name;
        assert fs[i] == Field(name, FieldsOf(fs)[name]);
        assert forall j :: i < j < n ==> fs[j] == fs[..n][j];
      }
    }
  }

  function Parse(s: Schema): Option<Fields> {
    if s.text == "" then Some(map[])
    else
      match s.json
      case None => None
      case Some(fs) => Some(FieldsOf(fs))
  }

  // ---- the BACKWARD rule ----

  predicate Compatible(prev: Fields, next: Fields) {
    && prev.Keys <= next.Keys
    && forall name | name in next :: name in prev || !next[name]
  }

  function Required(m: Fields): set<string> { set name | name in m && m[name] }

  /** A record, as the set of its fields, that a producer with these fields may write. */
  predicate Writes(m: Fields, record: set<string>) { Required(m) <= record <= m.Keys }

  /** A consumer needs its required fields and ignores the rest. */
  predicate Reads(m: Fields, record: set<string>) { Required(m) <= record }

  ghost predicate ReadsAllOf(next: Fields, prev: Fields) {
    forall record :: Writes(prev, record) ==> Reads(next, record)
  }

  /** No field that the two share turns from optional to required. */
  predicate NoneTightened(prev: Fields, next: Fields) {
    forall name | name in prev && name in next :: prev[name] || !next[name]
  }

  /**
   The rule is meant to say that the new schema can read what the old one wrote. What it accepts does so exactly
   when no optional field has become required, a case that the rule's own description rejects and its code does not.
   */
  lemma AcceptedIsReadableIff(prev: Fields, next: Fields)
    requires Compatible(prev, next)
    ensures ReadsAllOf(next, prev) <==> NoneTightened(prev, next)
  {
    if ReadsAllOf(next, prev) {
      assert Writes(prev, Required(prev));
      assert Required(next) <= Required(prev);
      assert forall name :: name in prev && name in next && next[name] ==> name in Required(next);
    } else {
      var record :| Writes(prev, record) && !Reads(next, record);
      var name :| name in Required(next) && name !in record;
      assert name in prev && !prev[name] by {
        assert name !in Required(prev);
      }
    }
  }

  /** What the rule accepts: no field is lost, and a record with all of the old fields can be read. */
  lemma CompatibleIff(prev: Fields, next: Fields)
    ensures Compatible(prev, next) <==> prev.Keys <= next.Keys && Reads(next, prev.Keys)
    ensures Compatible(prev, next) ==> Writes(prev, prev.Keys)
  {
    if prev.Keys <= next.Keys && Reads(next, prev.Keys) {
      forall name | name in next && next[name] ensures name in prev {
        assert name in Required(next);
      }
    }
  }

  lemma OptionalMadeRequiredIsAccepted()
    ensures exists prev: Fields, next: Fields :: Compatible(prev, next) && !ReadsAllOf(next, prev)
  {
    var prev: Fields, next: Fields := map["email" := false], map["email" := true];
    assert Compatible(prev, next);
    assert "email" in prev && "email" in next && !prev["email"] && next["email"];
    AcceptedIsReadableIff(prev, next);
  }

  // ---- one call ----

  function Versions(r: Registry, subject: string): seq<Entry> {
    if subject in r.subjects then r.subjects[subject] else []
  }

  datatype Call = Call(subject: string, schema: Schema, backward: bool)

  predicate Accepted(r: Registry, c: Call) {
    var vs := Versions(r, c.subject);
    && Parse(c.schema).Some?
    && (|vs| > 0 && c.backward ==> Compatible(vs[|vs| - 1].fields, Parse(c.schema).value))
  }

  function Registered(r: Registry, c: Call): Registry {
    if !Accepted(r, c) then r
    else
      var id := r.counter + 1;
      Registry(id, r.subjects[c.subject := Versions(r, c.subject) + [Entry(id, c.schema, Parse(c.schema).value)]])
  }

  function RunCalls(cs: seq<Call>): Registry {
    if cs == [] then EMPTY else Registered(RunCalls(cs[..|cs| - 1]), cs[|cs| - 1])
  }

  /** The `k`-th version of `subject` carries `id`. */
  predicate Carries(r: Registry, id: nat, subject: string, k: nat) {
    k < |Versions(r, subject)| && Versions(r, subject)[k].id == id
  }

  ghost predicate Used(r: Registry, id: nat) { exists subject, k :: Carries(r, id, subject, k) }

  ghost predicate IdsOk(r: Registry) {
    && (forall id: nat :: 1 <= id <= r.counter ==> Used(r, id))
    && (forall id: nat, subject, k :: Carries(r, id, subject, k) ==> 1 <= id <= r.counter)
    && (forall id: nat, s1, k1, s2, k2 :: Carries(r, id, s1, k1) && Carries(r, id, s2, k2) ==> s1 == s2 && k1 == k2)
    && (forall subject, i, j :: 0 <= i < j < |Versions(r, subject)| ==>
          Versions(r, subject)[i].id < Versions(r, subject)[j].id)
  }

  lemma IdsKept(r: Registry, c: Call)
    requires IdsOk(r)
    ensures IdsOk(Registered(r, c))
  {
    if Accepted(r, c) {
      var r' := Registered(r, c);
      var n := |Versions(r, c.subject)|;
      assert forall s :: s != c.subject ==> Versions(r', s) == Versions(r, s);
      assert Carries(r', r'.counter, c.subject, n);
      forall id: nat | 1 <= id <= r'.counter ensures Used(r', id) {
        if id <= r.counter {
          assert Used(r, id);
          var subject, k :| Carries(r, id, subject, k);
          assert Carries(r', id, subject, k);
        }
      }
      forall id: nat, subject, k | Carries(r', id, subject, k)
        ensures if id == r'.counter then subject == c.subject && k == n else Carries(r, id, subject, k)
      {
        assert (subject == c.subject && k == n) || Carries(r, id, subject, k);
      }
      forall subject, i, j | 0 <= i < j < |Versions(r', subject)|
        ensures Versions(r', subject)[i].id < Versions(r', subject)[j].id
      {
        assert Carries(r, Versions(r', subject)[i].id, subject, i);
      }
    }
  }

  /** Over any history of calls the identifiers are 1, 2, 3, ..., each used once, and grow within a subject. */
  lemma {:induction false} IdsAreUnique(cs: seq<Call>)
    ensures IdsOk(RunCalls(cs))
  {
    if cs != [] {
      IdsAreUnique(cs[..|cs| - 1]);
      IdsKept(RunCalls(cs[..|cs| - 1]), cs[|cs| - 1]);
    }
  }

  // ---- evolution of a subject ----

  predicate BackwardOnly(cs: seq<Call>, subject: string) {
    forall i | 0 <= i < |cs| :: cs[i].subject == subject ==> cs[i].backward
  }

  predicate Stepwise(vs: seq<Entry>) {
    forall i | 0 < i < |vs| :: Compatible(vs[i - 1].fields, vs[i].fields)
  }

  lemma {:induction false} BackwardIsStepwise(cs: seq<Call>, subject: string)
    requires BackwardOnly(cs, subject)
    ensures Stepwise(Versions(RunCalls(cs), subject))
  {
    if cs != [] {
      var n := |cs| - 1;
      assert forall i :: 0 <= i < n ==> cs[..n][i] == cs[i];
      BackwardIsStepwise(cs[..n], subject);
      var before, after := Versions(RunCalls(cs[..n]), subject), Versions(RunCalls(cs), subject);
      assert after == before || after[..|before|] == before;
    }
  }

  lemma {:induction false} FieldsGrow(vs: seq<Entry>, i: nat, j: nat)
    requires Stepwise(vs) && i <= j < |vs|
    ensures vs[i].fields.Keys <= vs[j].fields.Keys
  {
    if i < j {
      FieldsGrow(vs, i, j - 1);
      assert Compatible(vs[j - 1].fields, vs[j].fields);
    }
  }

  /** The version where a field that version `i` lacks and version `j` has comes in. */
  function FirstWith(vs: seq<Entry>, i: nat, j: nat, name: string): (k: nat)
    requires i < j < |vs| && name !in vs[i].fields && name in vs[j].fields
    ensures i < k <= j && name in vs[k].fields && name !in vs[k - 1].fields
    decreases j
  {
    if name !in vs[j - 1].fields then j else FirstWith(vs, i, j - 1, name)
  }

  /**
   A subject that is only ever registered under BACKWARD never loses a field, between any two versions and not
   just adjacent ones, and a field that comes in later comes in as optional.
   */
  lemma BackwardEvolution(cs: seq<Call>, subject: string, i: nat, j: nat)
    requires BackwardOnly(cs, subject) && i < j < |Versions(RunCalls(cs), subject)|
    ensures var vs := Versions(RunCalls(cs), subject);
            && vs[i].fields.Keys <= vs[j].fields.Keys
            && forall name :: name in vs[j].fields && name !in vs[i].fields ==>
                 !vs[FirstWith(vs, i, j, name)].fields[name]
  {
    var vs := Versions(RunCalls(cs), subject);
    BackwardIsStepwise(cs, subject);
    FieldsGrow(vs, i, j);
    forall name | name in vs[j].fields && name !in vs[i].fields
      ensures !vs[FirstWith(vs, i, j, name)].fields[name]
    {
      var k := FirstWith(vs, i, j, name);
      assert Compatible(vs[k - 1].fields, vs[k].fields);
    }
  }

  lemma {:induction false} RequiredShrinks(vs: seq<Entry>, i: nat, j: nat)
    requires Stepwise(vs) && i <= j < |vs|
    requires forall k :: i < k <= j ==> NoneTightened(vs[k - 1].fields, vs[k].fields)
    ensures Required(vs[j].fields) <= Required(vs[i].fields)
  {
    if i < j {
      RequiredShrinks(vs, i, j - 1);
      assert Compatible(vs[j - 1].fields, vs[j].fields) && NoneTightened(vs[j - 1].fields, vs[j].fields);
    }
  }

  /** If no step tightens a field, every version reads what any earlier version wrote. */
  lemma EveryVersionReadsItsPast(cs: seq<Call>, subject: string, i: nat, j: nat)
    requires BackwardOnly(cs, subject) && i <= j < |Versions(RunCalls(cs), subject)|
    requires var vs := Versions(RunCalls(cs), subject);
             forall k :: i < k <= j ==> NoneTightened(vs[k - 1].fields, vs[k].fields)
    ensures ReadsAllOf(Versions(RunCalls(cs), subject)[j].fields, Versions(RunCalls(cs), subject)[i].fields)
  {
    BackwardIsStepwise(cs, subject);
    RequiredShrinks(Versions(RunCalls(cs), subject), i, j);
  }

  /** The last accepted call for a subject. */
  function LastAccepted(cs: seq<Call>, subject: string): (k: Option<nat>)
    ensures k.Some? ==>
              && k.value < |cs| && cs[k.value].subject == subject
              && Accepted(RunCalls(cs[..k.value]), cs[k.value])
  {
    if cs == [] then None
    else
      var n := |cs| - 1;
      if cs[n].subject == subject && Accepted(RunCalls(cs[..n]), cs[n]) then Some(n)
      else
        var k := LastAccepted(cs[..n], subject);
        assert k.Some? ==> cs[..n][..k.value] == cs[..k.value];
        k
  }

  /** The newest version of a subject is its last accepted registration; rejected ones leave no trace. */
  lemma {:induction false} LatestIsLastAccepted(cs: seq<Call>, subject: string)
    ensures var vs := Versions(RunCalls(cs), subject);
            if LastAccepted(cs, subject).Some? then
              |vs| > 0 && vs[|vs| - 1].schema == cs[LastAccepted(cs, subject).value].schema
            else vs == []
  {
    if cs != [] {
      LatestIsLastAccepted(cs[..|cs| - 1], subject);
    }
  }

  // ---- the pre-flight check ----

  const BACKWARD := "BACKWARD"

  const VALIDATE_SUFFIX := ".__validate__"

  /** What EnsureSchemaSubjectActivity asks of the registry: no mode means BACKWARD. */
  function RegistrationCall(subject: string, schema: Schema, mode: string): Call {
    Call(subject, schema, mode == "" || mode == BACKWARD)
  }

  /** What ValidateSchemaPolicyActivity asks of it: a subject of its own, and the mode as it is, even if empty. */
  function PreflightCall(subject: string, schema: Schema, mode: string): Call {
    Call(subject + VALIDATE_SUFFIX, schema, mode == BACKWARD)
  }

  predicate Registers(r: Registry, subject: string, schema: Schema, mode: string) {
    Accepted(r, RegistrationCall(subject, schema, mode))
  }

  /** It asks nothing if the real subject has no version. */
  predicate PreflightSkips(r: Registry, subject: string, schema: Schema) {
    subject == "" || schema.text == "" || Versions(r, subject) == []
  }

  predicate PreflightPasses(r: Registry, subject: string, schema: Schema, mode: string) {
    PreflightSkips(r, subject, schema) || Accepted(r, PreflightCall(subject, schema, mode))
  }

  function Preflight(r: Registry, subject: string, schema: Schema, mode: string): Registry {
    if PreflightSkips(r, subject, schema) then r else Registered(r, PreflightCall(subject, schema, mode))
  }

  lemma ShadowIsAnother(s: string)
    ensures s + VALIDATE_SUFFIX != s
  {
  }

  /** The pre-flight check leaves the subject it checks as it is, and says nothing about its registration. */
  lemma PreflightDecidesNothing(r: Registry, subject: string, schema: Schema, mode: string)
    ensures Versions(Preflight(r, subject, schema, mode), subject) == Versions(r, subject)
    ensures forall next, m :: Registers(Preflight(r, subject, schema, mode), subject, next, m) ==
                              Registers(r, subject, next, m)
  {
  }

  /**
   It leaves a mark all the same: what it looks at and lets through becomes the newest version of its own subject, under
   the next identifier, and the next schema is compared with that. What it rejects or skips leaves none.
   */
  lemma PreflightLeavesItsMark(r: Registry, subject: string, schema: Schema, mode: string)
    ensures var r', own := Preflight(r, subject, schema, mode), subject + VALIDATE_SUFFIX;
            if subject == "" || schema.text == "" || Versions(r, subject) == []
               || !PreflightPasses(r, subject, schema, mode) then r' == r
            else
              && r'.counter == r.counter + 1 && |Versions(r', own)| == |Versions(r, own)| + 1
              && Versions(r', own)[..|Versions(r, own)|] == Versions(r, own)
              && Parse(schema).Some?
              && Versions(r', own)[|Versions(r, own)|] == Entry(r.counter + 1, schema, Parse(schema).value)
              && forall s :: s != own ==> Versions(r', s) == Versions(r, s)
  {
  }

  /** A registry with one version of the subject, with a required field, and as many of its shadow as asked for. */
  lemma OneVersion(subject: string, withShadow: bool) returns (cs: seq<Call>)
    ensures var fields := map["id" := true];
            var r := RunCalls(cs);
            && Versions(r, subject) != [] && Versions(r, subject)[|Versions(r, subject)| - 1].fields == fields
            && if withShadow then ShadowInStep(r, subject) else Versions(r, subject + VALIDATE_SUFFIX) == []
  {
    ShadowIsAnother(subject);
    var v1 := Schema("v1", Some([Field("id", true)]));
    assert FieldsOf([Field("id", true)]) == map["id" := true] by {
      assert FieldsOf([Field("id", true)][..0]) == map[];
    }
    var first, second := Call(subject, v1, true), Call(subject + VALIDATE_SUFFIX, v1, true);
    assert RunCalls([first][..0]) == EMPTY;
    assert [first, second][..1] == [first];
    cs := if withShadow then [first, second] else [first];
  }

  /**
   The first schema of a subject always passes; a subject's second schema passes whatever it is, if it parses. So for
   every subject, in the modes under which registration applies the rule, some schema passes and is then rejected.
   */
  lemma PreflightPassesWhatRegistrationRejects(subject: string, mode: string) returns (cs: seq<Call>, schema: Schema)
    requires subject != "" && (mode == "" || mode == BACKWARD)
    ensures PreflightPasses(RunCalls(cs), subject, schema, mode) && !Registers(RunCalls(cs), subject, schema, mode)
  {
    cs := OneVersion(subject, false);
    schema := Schema("v2", Some([]));
    assert "id" in map["id" := true];
  }

  /** Without a mode even a shadow that is in step does not help: pre-flight does not apply the rule. */
  lemma NoModeIsNotBackward(subject: string) returns (cs: seq<Call>, schema: Schema)
    requires subject != ""
    ensures ShadowInStep(RunCalls(cs), subject)
    ensures PreflightPasses(RunCalls(cs), subject, schema, "") && !Registers(RunCalls(cs), subject, schema, "")
  {
    cs := OneVersion(subject, true);
    schema := Schema("v2", Some([]));
    assert "id" in map["id" := true];
  }

  // ---- exactly when the pre-flight check is right ----

  /** Every set of fields is that of some schema text. */
  lemma {:induction false} Spell(m: Fields) returns (fs: seq<Field>)
    ensures FieldsOf(fs) == m
    decreases |m|
  {
    if m == map[] {
      fs := [];
    } else {
      var name :| name in m;
      var rest := m - {name};
      assert rest.Keys == m.Keys - {name};
      var front := Spell(rest);
      fs := front + [Field(name, m[name])];
      assert fs[..|front|] == front;
      assert m == rest[name := m[name]];
    }
  }

  ghost predicate AtLeastAsStrict(shadow: Fields, latest: Fields) {
    forall next :: Compatible(shadow, next) ==> Compatible(latest, next)
  }

  /** The rule looks at the names of the fields before alone. */
  lemma SameNamesSameVerdict(shadow: Fields, latest: Fields)
    ensures AtLeastAsStrict(shadow, latest) <==> shadow.Keys == latest.Keys
  {
    if shadow.Keys != latest.Keys {
      assert Compatible(shadow, shadow);
      if Compatible(latest, shadow) {
        var name :| name in shadow && name !in latest;
        var next := shadow[name := true];
        assert Compatible(shadow, next) && !Compatible(latest, next);
      }
    }
  }

  /** Whatever passes pre-flight is registered: for all schemas that pre-flight looks at. */
  ghost predicate PreflightIsRight(r: Registry, subject: string, mode: string) {
    forall schema: Schema | schema.text != "" ::
      PreflightPasses(r, subject, schema, mode) ==> Registers(r, subject, schema, mode)
  }

  /** The shadow subject has a version, and its latest has the field names of the real one's. */
  predicate ShadowInStep(r: Registry, subject: string) {
    var vs, shadow := Versions(r, subject), Versions(r, subject + VALIDATE_SUFFIX);
    |vs| > 0 && |shadow| > 0 && shadow[|shadow| - 1].fields.Keys == vs[|vs| - 1].fields.Keys
  }

  /**
   For a subject that has versions, in every mode: pre-flight lets through only what registration accepts if and only
   if the mode is BACKWARD and its own subject is in step with the real one, or the mode is one that knows no rule. It
   is never right when no mode is given. Where it is right, the two agree on every schema.
   */
  lemma PreflightIsRightIff(r: Registry, subject: string, mode: string)
    requires subject != "" && Versions(r, subject) != []
    ensures PreflightIsRight(r, subject, mode) <==>
            (mode == BACKWARD && ShadowInStep(r, subject)) || (mode != "" && mode != BACKWARD)
    ensures PreflightIsRight(r, subject, mode) ==>
              forall schema: Schema | schema.text != "" ::
                PreflightPasses(r, subject, schema, mode) <==> Registers(r, subject, schema, mode)
  {
    var vs, shadow := Versions(r, subject), Versions(r, subject + VALIDATE_SUFFIX);
    if mode == "" || (mode == BACKWARD && !ShadowInStep(r, subject)) {
      var latest := vs[|vs| - 1].fields;
      var fs := Refuted(latest, if |shadow| > 0 && mode == BACKWARD then Some(shadow[|shadow| - 1].fields) else None);
      var schema := Schema("schema", Some(fs));
      assert PreflightPasses(r, subject, schema, mode) && !Registers(r, subject, schema, mode);
    }
  }

  /** A schema that pre-flight lets through and registration does not. */
  lemma Refuted(latest: Fields, shadow: Option<Fields>) returns (fs: seq<Field>)
    requires shadow.Some? ==> shadow.value.Keys != latest.Keys
    ensures shadow.Some? ==> Compatible(shadow.value, FieldsOf(fs))
    ensures !Compatible(latest, FieldsOf(fs))
  {
    match shadow
    case None =>
      if latest == map[] {
        fs := Spell(map["id" := true]);
        assert "id" in FieldsOf(fs);
      } else {
        fs := [];
        var name :| name in latest;
        assert name in latest.Keys && name !in FieldsOf(fs);
      }
    case Some(s) =>
      SameNamesSameVerdict(s, latest);
      var next :| Compatible(s, next) && !Compatible(latest, next);
      fs := Spell(next);
  }

  /** Of a subject without versions it lets everything through, and registration what parses. */
  lemma PreflightOfAFirstVersion(r: Registry, subject: string, schema: Schema, mode: string)
    requires Versions(r, subject) == []
    ensures PreflightPasses(r, subject, schema, mode)
    ensures Registers(r, subject, schema, mode) <==> Parse(schema).Some?
  {
  }

  /** The empty text is let through too; where registration applies the rule, only a subject without fields takes it. */
  lemma PreflightOfTheEmptyText(r: Registry, subject: string, schema: Schema, mode: string)
    requires schema.text == ""
    ensures PreflightPasses(r, subject, schema, mode)
    ensures Registers(r, subject, schema, mode) <==>
            var vs := Versions(r, subject);
            |vs| > 0 && (mode == "" || mode == BACKWARD) ==> vs[|vs| - 1].fields.Keys == {}
  {
  }

  /** A registration that was accepted but whose reply was lost is accepted again when retried. */
  lemma RetriedRegistrationIsAccepted(r: Registry, c: Call)
    requires Accepted(r, c)
    ensures Accepted(Registered(r, c), c)
    ensures Registered(Registered(r, c), c).counter == r.counter + 2
  {
  }

  // ---- the registry as written ----

  datatype Incompatible = Removed(name: string) | RequiredAndNew(name: string)

  method ParseFields(s: Schema) returns (m: Option<Fields>)
    ensures m == Parse(s)
  {
    if s.text == "" {
      return Some(map[]);
    }
    if s.json.None? {
      return None;
    }
    var fields: Fields := map[];
    for i := 0 to |s.json.value|
      invariant fields == FieldsOf(s.json.value[..i])
    {
      var f := s.json.value[i];
      assert s.json.value[..i + 1][..i] == s.json.value[..i];
      fields := fields[f.name := f.required];
    }
    assert s.json.value[..|s.json.value|] == s.json.value;
    m := Some(fields);
  }

  /** Both maps are visited in any order; a removed field is reported before a new required one. */
  method CheckBackwardCompat(prev: Fields, next: Fields) returns (err: Option<Incompatible>)
    ensures err.None? <==> Compatible(prev, next)
    ensures err.Some? && err.value.Removed? ==> err.value.name in prev && err.value.name !in next
    ensures err.Some? && err.value.RequiredAndNew? ==>
              prev.Keys <= next.Keys && err.value.name in next && err.value.name !in prev && next[err.value.name]
  {
    var todo := prev.Keys;
    while todo != {}
      invariant todo <= prev.Keys && forall name :: name in prev && name !in todo ==> name in next
    {
      var name :| name in todo;
      if name !in next {
        return Some(Removed(name));
      }
      todo := todo - {name};
    }
    todo := next.Keys;
    while todo != {}
      invariant todo <= next.Keys && forall name :: name in next && name !in todo ==> name in prev || !next[name]
    {
      var name :| name in todo;
      if name !in prev && next[name] {
        return Some(RequiredAndNew(name));
      }
      todo := todo - {name};
    }
    err := None;
  }

  class InMemorySchemaRegistry {
    var counter: nat
    var subjects: map<string, seq<Entry>>

    constructor ()
      ensures State() == EMPTY
    {
      counter, subjects := 0, map[];
    }

    function State(): Registry
      reads this
    {
      Registry(counter, subjects)
    }

    /** None is an error: the text does not parse, or the rule rejects it. */
    method Register(subject: string, schema: Schema, backward: bool) returns (id: Option<nat>)
      modifies this
      ensures State() == Registered(old(State()), Call(subject, schema, backward))
      ensures id.Some? <==> Accepted(old(State()), Call(subject, schema, backward))
      ensures id.Some? ==>
                var vs := Versions(State(), subject);
                |vs| > 0 && vs[|vs| - 1].id == id.value && vs[|vs| - 1].schema == schema && id.value == counter
    {
      var fields := ParseFields(schema);
      if fields.None? {
        return None;
      }
      var versions := if subject in subjects then subjects[subject] else [];
      if |versions| > 0 && backward {
        var err := CheckBackwardCompat(versions[|versions| - 1].fields, fields.value);
        if err.Some? {
          return None;
        }
      }
      counter := counter + 1;
      subjects := subjects[subject := versions + [Entry(counter, schema, fields.value)]];
      id := Some(counter);
    }

    /** None is ErrNotFound. */
    method GetLatest(subject: string) returns (latest: Option<(Schema, nat)>)
      ensures latest.None? <==> Versions(State(), subject) == []
      ensures latest.Some? ==>
                var vs := Versions(State(), subject);
                |vs| > 0 && latest.value == (vs[|vs| - 1].schema, vs[|vs| - 1].id)
    {
      var versions := if subject in subjects then subjects[subject] else [];
      if |versions| == 0 {
        return None;
      }
      latest := Some((versions[|versions| - 1].schema, versions[|versions| - 1].id));
    }

    /** ValidateSchemaPolicyActivity: the mode is passed on as it is, even if it is empty. */
    method ValidateSchemaPolicy(subject: string, schema: Schema, mode: string) returns (ok: bool)
      modifies this
      ensures State() == Preflight(old(State()), subject, schema, mode)
      ensures ok == PreflightPasses(old(State()), subject, schema, mode)
    {
      if subject == "" || schema.text == "" {
        return true;
      }
      var latest := GetLatest(subject);
      if latest.None? {
        return true;
      }
      var id := Register(subject + VALIDATE_SUFFIX, schema, mode == BACKWARD);
      ok := id.Some?;
    }

    /** EnsureSchemaSubjectActivity: an empty mode means BACKWARD; an empty subject is skipped. */
    method EnsureSchemaSubject(subject: string, schema: Schema, mode: string) returns (id: Option<nat>)
      modifies this
      ensures subject == "" ==> id == Some(0) && State() == old(State())
      ensures subject != "" ==>
                && State() == Registered(old(State()), RegistrationCall(subject, schema, mode))
                && (id.Some? <==> Registers(old(State()), subject, schema, mode))
    {
      if subject == "" {
        return Some(0);
      }
      var m := if mode == "" then BACKWARD else mode;
      id := Register(subject, schema, m == BACKWARD);
    }
  }
}
