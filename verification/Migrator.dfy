/**
 FakeDatabaseMigrator and the application-compatibility check that reads it.
 (internal/bluegreen/migrator_fake.go, internal/bluegreen/appsim.go)
 */
module Migrator {
  import opened Wrappers
  import opened Schema
  import opened Deployment

  datatype CompatResult = CompatResult(
    bluePass: bool, greenPass: bool, blueErrors: seq<Query>, greenErrors: seq<Query>)

  /** The queries of a list that the schema does not support, in order. */
  function Failing(cols: Columns, qs: seq<Query>): (r: seq<Query>)
    ensures r == [] <==> AllValid(cols, qs)
    ensures forall q :: q in r <==> q in qs && !ValidQuery(cols, q)
  {
    if qs == [] then []
    else
      var n := |qs| - 1;
      assert forall q :: q in qs <==> q in qs[..n] || q == qs[n];
      Failing(cols, qs[..n]) + if ValidQuery(cols, qs[n]) then [] else [qs[n]]
  }

  lemma OneMoreQuery(cols: Columns, qs: seq<Query>, n: nat)
    requires n < |qs|
    ensures AllValid(cols, qs[..n + 1]) <==> AllValid(cols, qs[..n]) && ValidQuery(cols, qs[n])
    ensures Failing(cols, qs[..n + 1]) == Failing(cols, qs[..n]) + if ValidQuery(cols, qs[n]) then [] else [qs[n]]
  {
    hide ValidQuery;
    var front, all := qs[..n], qs[..n + 1];
    assert all == front + [qs[n]] && all[..n] == front;
  }

  class FakeDatabaseMigrator {
    var columns: Columns
    var readOnly: bool
    var executedSQL: seq<Statement>
    var queryCounts: map<string, int>

    constructor (cols: Columns, counts: map<string, int>)
      ensures columns == cols && !readOnly && executedSQL == [] && queryCounts == counts
    {
      columns, readOnly, executedSQL, queryCounts := cols, false, [], counts;
    }

    function Db(): Database
      reads this
    {
      Database(columns, readOnly)
    }

    /** One statement; the error is "column does not exist". */
    method ApplyDdl(s: Statement) returns (ok: bool)
      modifies this`columns
      ensures ok == Schema.ApplyDdl(old(columns), s).Some?
      ensures columns == if ok then Schema.ApplyDdl(old(columns), s).value else old(columns)
    {
      match s
      case AddColumn(name) =>
        columns := columns + {name};
        ok := true;
      case DropColumn(name, ifExists) =>
        if name !in columns {
          return ifExists;
        }
        columns := columns - {name};
        ok := true;
      case Other =>
        ok := true;
    }

    /**
     Statements in order, stopping at the first error. The worker may be lost after `cut` statements;
     what has been executed by then stays executed. `done` statements take effect.
     */
    method ExecuteSQL(statements: seq<Statement>, cut: nat) returns (ok: bool, ghost done: nat)
      modifies this`columns, this`executedSQL
      ensures done <= |statements| && done <= cut
      ensures After(old(columns), statements, done) == Some(columns)
      ensures ok <==> done == |statements| && done < cut
      ensures !ok && done < |statements| && done < cut ==> After(old(columns), statements, done + 1) == None
      ensures executedSQL == old(executedSQL) + statements[..if ok || done == cut then done else done + 1]
    {
      done := 0;
      var i := 0;
      while i < |statements|
        invariant 0 <= i == done <= |statements| && done <= cut
        invariant After(old(columns), statements, i) == Some(columns)
        invariant executedSQL == old(executedSQL) + statements[..i]
      {
        if i == cut {
          return false, done;
        }
        executedSQL := executedSQL + [statements[i]];
        var applied := ApplyDdl(statements[i]);
        if !applied {
          return false, done;
        }
        i, done := i + 1, done + 1;
      }
      ok := i < cut;
    }

    /** Every column the query refers to exists. */
    method ValidateQuery(q: Query) returns (ok: bool)
      ensures ok == ValidQuery(columns, q)
    {
      for i := 0 to |q.columns|
        invariant forall j :: 0 <= j < i ==> q.columns[j] in columns
      {
        if q.columns[i] !in columns {
          return false;
        }
      }
      ok := true;
    }

    /** None is the error; otherwise the count fixed for this text, or zero. */
    method QueryCheck(q: Query) returns (count: Option<int>)
      ensures count.Some? <==> ValidQuery(columns, q)
      ensures count.Some? ==> count.value == if q.text in queryCounts then queryCounts[q.text] else 0
    {
      var ok := ValidateQuery(q);
      if !ok {
        return None;
      }
      count := Some(if q.text in queryCounts then queryCounts[q.text] else 0);
    }

    method SetReadOnly(flag: bool)
      modifies this`readOnly
      ensures readOnly == flag
    {
      readOnly := flag;
    }

    method RunAppCompat(app: App) returns (result: CompatResult)
      ensures result.blueErrors == Failing(columns, app.blue) && result.greenErrors == Failing(columns, app.green)
      ensures result.bluePass == AllValid(columns, app.blue) && result.greenPass == AllValid(columns, app.green)
    {
      var bluePass, blueErrors := CheckAll(app.blue);
      var greenPass, greenErrors := CheckAll(app.green);
      result := CompatResult(bluePass, greenPass, blueErrors, greenErrors);
    }

    method CheckAll(qs: seq<Query>) returns (pass: bool, errors: seq<Query>)
      ensures pass == AllValid(columns, qs) && errors == Failing(columns, qs)
    {
      pass, errors := true, [];
      for i := 0 to |qs|
        invariant pass == AllValid(columns, qs[..i]) && errors == Failing(columns, qs[..i])
      {
        var ok := ValidateQuery(qs[i]);
        OneMoreQuery(columns, qs, i);
        if !ok {
          pass := false;
          errors := errors + [qs[i]];
        }
      }
      assert qs[..|qs|] == qs;
    }
  }
}
