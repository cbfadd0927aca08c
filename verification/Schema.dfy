/**
 The meaning of the SQL a migration plan carries: a set of column names, the three kinds of
 statement that matter to it, and queries that need columns.
 (internal/bluegreen/migrator_fake.go)
 */
module Schema {
  import opened Wrappers

  /** A statement after parsing. Anything that neither adds nor drops a column is `Other`. */
  datatype Statement =
    | AddColumn(name: string)
    | DropColumn(name: string, ifExists: bool)
    | Other

  /** A query after parsing: its text and the columns it refers to. */
  datatype Query = Query(text: string, columns: seq<string>)

  type Columns = set<string>

  /** One DDL statement. None is the error "column does not exist". */
  function ApplyDdl(cols: Columns, s: Statement): Option<Columns> {
    match s
    case AddColumn(name) => Some(cols + {name})
    case DropColumn(name, ifExists) =>
      if name in cols then Some(cols - {name})
      else if ifExists then Some(cols)
      else None
    case Other => Some(cols)
  }

  /** The columns after the first `n` statements of a list, if none of them is in error. */
  function After(cols: Columns, stmts: seq<Statement>, n: nat): Option<Columns>
    requires n <= |stmts|
  {
    if n == 0 then Some(cols)
    else
      match After(cols, stmts, n - 1)
      case None => None
      case Some(c) => ApplyDdl(c, stmts[n - 1])
  }

  predicate ValidQuery(cols: Columns, q: Query) {
    forall c | c in q.columns :: c in cols
  }

  predicate AllValid(cols: Columns, qs: seq<Query>) {
    forall i | 0 <= i < |qs| :: ValidQuery(cols, qs[i])
  }

  /** Adding columns never invalidates a query. */
  lemma ValidityIsMonotone(small: Columns, big: Columns, qs: seq<Query>)
    requires small <= big && AllValid(small, qs)
    ensures AllValid(big, qs)
  {
  }

  function Needed(qs: seq<Query>): Columns {
    set i, c | 0 <= i < |qs| && c in qs[i].columns :: c
  }

  function AddedBy(stmts: seq<Statement>): Columns {
    set i | 0 <= i < |stmts| && stmts[i].AddColumn? :: stmts[i].name
  }

  function DroppedBy(stmts: seq<Statement>): Columns {
    set i | 0 <= i < |stmts| && stmts[i].DropColumn? :: stmts[i].name
  }

  // ---- what a statement list makes of a schema ----

  /** Whether column `c` is there after the first `n` statements, if none is in error. */
  predicate Present(cols: Columns, stmts: seq<Statement>, n: nat, c: string)
    requires n <= |stmts|
  {
    if n == 0 then c in cols
    else
      match stmts[n - 1]
      case AddColumn(m) => m == c || Present(cols, stmts, n - 1, c)
      case DropColumn(m, _) => m != c && Present(cols, stmts, n - 1, c)
      case Other => Present(cols, stmts, n - 1, c)
  }

  lemma {:induction false} AfterIsPresent(cols: Columns, stmts: seq<Statement>, n: nat, c: string)
    requires n <= |stmts| && After(cols, stmts, n).Some?
    ensures c in After(cols, stmts, n).value <==> Present(cols, stmts, n, c)
  {
    if n > 0 {
      AfterIsPresent(cols, stmts, n - 1, c);
    }
  }

  /** What a list makes of a schema, read column by column. */
  function Transformed(cols: Columns, stmts: seq<Statement>): Columns {
    set c | c in cols + AddedBy(stmts) && Present(cols, stmts, |stmts|, c)
  }

  lemma {:induction false} PresentHasASource(cols: Columns, stmts: seq<Statement>, n: nat, c: string)
    requires n <= |stmts| && Present(cols, stmts, n, c)
    ensures c in cols + AddedBy(stmts)
  {
    if n > 0 && stmts[n - 1] != AddColumn(c) {
      PresentHasASource(cols, stmts, n - 1, c);
    }
  }

  /** Executing a list and reading it column by column agree. */
  lemma AfterIsTransformed(cols: Columns, stmts: seq<Statement>)
    requires After(cols, stmts, |stmts|).Some?
    ensures After(cols, stmts, |stmts|).value == Transformed(cols, stmts)
  {
    forall c ensures c in After(cols, stmts, |stmts|).value <==> c in Transformed(cols, stmts) {
      AfterIsPresent(cols, stmts, |stmts|, c);
      if Present(cols, stmts, |stmts|, c) {
        PresentHasASource(cols, stmts, |stmts|, c);
      }
    }
  }

  predicate OnlyAdds(stmts: seq<Statement>) { forall i | 0 <= i < |stmts| :: !stmts[i].DropColumn? }

  lemma {:induction false} PresentIfOnlyAdded(cols: Columns, stmts: seq<Statement>, n: nat, c: string)
    requires OnlyAdds(stmts) && n <= |stmts|
    ensures Present(cols, stmts, n, c) <==> c in cols || exists i :: 0 <= i < n && stmts[i] == AddColumn(c)
  {
    if n > 0 {
      PresentIfOnlyAdded(cols, stmts, n - 1, c);
    }
  }

  lemma OnlyAdding(cols: Columns, stmts: seq<Statement>)
    requires OnlyAdds(stmts)
    ensures Transformed(cols, stmts) == cols + AddedBy(stmts)
  {
    forall c | c in cols + AddedBy(stmts) ensures Present(cols, stmts, |stmts|, c) {
      PresentIfOnlyAdded(cols, stmts, |stmts|, c);
    }
  }

  /** One of the first `n` statements adds or drops column `c`. */
  predicate Mentions(stmts: seq<Statement>, n: nat, c: string)
    requires n <= |stmts|
  {
    exists i :: 0 <= i < n && !stmts[i].Other? && stmts[i].name == c
  }

  lemma {:induction false} UnmentionedStays(cols: Columns, stmts: seq<Statement>, n: nat, c: string)
    requires n <= |stmts| && !Mentions(stmts, n, c)
    ensures Present(cols, stmts, n, c) <==> c in cols
  {
    if n > 0 {
      UnmentionedStays(cols, stmts, n - 1, c);
    }
  }

  // ---- statement lists under retries ----

  lemma {:induction false} PresentIsMonotone(small: Columns, big: Columns, stmts: seq<Statement>, n: nat, c: string)
    requires small <= big && n <= |stmts| && Present(small, stmts, n, c)
    ensures Present(big, stmts, n, c)
  {
    if n > 0 && Present(small, stmts, n - 1, c) {
      PresentIsMonotone(small, big, stmts, n - 1, c);
    }
  }

  /** Every DROP without IF EXISTS drops a column that the list itself has added before. */
  predicate RetrySafe(stmts: seq<Statement>) {
    forall i :: 0 <= i < |stmts| && stmts[i].DropColumn? && !stmts[i].ifExists ==> Present({}, stmts, i, stmts[i].name)
  }

  lemma {:induction false} SafeListsRun(cols: Columns, stmts: seq<Statement>, n: nat)
    requires RetrySafe(stmts) && n <= |stmts|
    ensures After(cols, stmts, n).Some?
  {
    if n > 0 {
      SafeListsRun(cols, stmts, n - 1);
      var s := stmts[n - 1];
      if s.DropColumn? && !s.ifExists {
        PresentIsMonotone({}, cols, stmts, n - 1, s.name);
        AfterIsPresent(cols, stmts, n - 1, s.name);
      }
    }
  }

  lemma {:induction false} PrefixesRun(cols: Columns, stmts: seq<Statement>, n: nat, m: nat)
    requires n <= m <= |stmts| && After(cols, stmts, m).Some?
    ensures After(cols, stmts, n).Some?
  {
    if n < m {
      PrefixesRun(cols, stmts, n, m - 1);
    }
  }

  /** A list runs without error on every schema if and only if it is retry-safe. */
  lemma RunsEverywhereIffSafe(stmts: seq<Statement>)
    ensures RetrySafe(stmts) <==> forall cols :: After(cols, stmts, |stmts|).Some?
  {
    if RetrySafe(stmts) {
      forall cols ensures After(cols, stmts, |stmts|).Some? {
        SafeListsRun(cols, stmts, |stmts|);
      }
    } else {
      var none: Columns := {};
      var i :| 0 <= i < |stmts| && stmts[i].DropColumn? && !stmts[i].ifExists && !Present({}, stmts, i, stmts[i].name);
      UnsafeDropFails(none, stmts, i);
      assert !After(none, stmts, |stmts|).Some?;
    }
  }

  /** Whether a column is there later depends on the start only through whether it was there. */
  lemma {:induction false} PresentDependsOnItself(cols: Columns, cols': Columns, stmts: seq<Statement>, n: nat,
      c: string)
    requires n <= |stmts| && (c in cols <==> c in cols')
    ensures Present(cols, stmts, n, c) <==> Present(cols', stmts, n, c)
  {
    if n > 0 {
      PresentDependsOnItself(cols, cols', stmts, n - 1, c);
    }
  }

  /** What attempts that are lost one after the other leave behind: the `k`-th after `cuts[k]` statements. */
  function Lost(cols: Columns, stmts: seq<Statement>, cuts: seq<nat>): Option<Columns> {
    if cuts == [] then Some(cols)
    else
      match Lost(cols, stmts, cuts[..|cuts| - 1])
      case None => None
      case Some(c) => if cuts[|cuts| - 1] <= |stmts| then After(c, stmts, cuts[|cuts| - 1]) else None
  }

  /** The next attempt succeeds, however many earlier ones were lost and wherever. */
  ghost predicate Retriable(cols: Columns, stmts: seq<Statement>) {
    forall cuts :: Lost(cols, stmts, cuts).Some? ==> After(Lost(cols, stmts, cuts).value, stmts, |stmts|).Some?
  }

  /**
   A list that runs on a schema can be retried there after lost attempts if and only if it is retry-safe, and
   one lost attempt decides as much as many.
   */
  lemma RetriesSucceedIffSafe(cols: Columns, stmts: seq<Statement>)
    requires After(cols, stmts, |stmts|).Some?
    ensures Retriable(cols, stmts) <==> RetrySafe(stmts)
    ensures Retriable(cols, stmts) <==>
            forall n: nat | n <= |stmts| && After(cols, stmts, n).Some? ::
              After(After(cols, stmts, n).value, stmts, |stmts|).Some?
  {
    if RetrySafe(stmts) {
      forall c: Columns ensures After(c, stmts, |stmts|).Some? {
        SafeListsRun(c, stmts, |stmts|);
      }
    } else {
      var i :| 0 <= i < |stmts| && stmts[i].DropColumn? && !stmts[i].ifExists && !Present({}, stmts, i, stmts[i].name);
      LostDropFails(cols, stmts, i);
      assert [i + 1][..0] == [];
      assert Lost(cols, stmts, [i + 1]) == After(cols, stmts, i + 1);
    }
  }

  /** A plain drop of a column that the list has not added is lost after it has taken effect. */
  lemma LostDropFails(cols: Columns, stmts: seq<Statement>, i: nat)
    requires After(cols, stmts, |stmts|).Some? && i < |stmts|
    requires stmts[i].DropColumn? && !stmts[i].ifExists && !Present({}, stmts, i, stmts[i].name)
    ensures After(cols, stmts, i + 1).Some?
    ensures After(After(cols, stmts, i + 1).value, stmts, |stmts|).None?
  {
    PrefixesRun(cols, stmts, i + 1, |stmts|);
    var left := After(cols, stmts, i + 1).value;
    var none: Columns := {};
    PresentDependsOnItself(none, left, stmts, i, stmts[i].name);
    UnsafeDropFails(left, stmts, i);
  }

  lemma UnsafeDropFails(cols: Columns, stmts: seq<Statement>, i: nat)
    requires i < |stmts| && stmts[i].DropColumn? && !stmts[i].ifExists && !Present(cols, stmts, i, stmts[i].name)
    ensures After(cols, stmts, |stmts|).None?
  {
    if After(cols, stmts, |stmts|).Some? {
      PrefixesRun(cols, stmts, i + 1, |stmts|);
      AfterIsPresent(cols, stmts, i, stmts[i].name);
    }
  }
}
