/**
 The workshop scenario: renaming full_name to display_name and adding phone. Every theorem about reversible
 plans and living applications applies to it. (internal/bluegreen/appsim.go, internal/bluegreen/migrator_fake.go,
 internal/bluegreen/domain_test.go)
 */
module Workshop {
  import opened Wrappers
  import opened Schema
  import opened Deployment
  import opened DeploymentData
  import opened DeploymentSchema
  import opened DeploymentCompletion

  /** inventory.customers before any migration. */
  const CUSTOMERS: Columns := {"id", "email", "full_name", "status", "created_at", "search_key"}

  /** CustomerApp: v1 refers to full_name, v2 to display_name and phone. */
  const CUSTOMER_APP := App(
    [Query("GetCustomer", ["id", "email", "full_name", "status"]),
     Query("InsertCustomer", ["email", "full_name"]),
     Query("UpdateName", ["full_name", "id"])],
    [Query("GetCustomer", ["id", "email", "display_name", "phone", "status"]),
     Query("InsertCustomer", ["email", "display_name", "phone"]),
     Query("UpdateName", ["display_name", "id"])])

  /** Blue runs on exactly the schemas that have its four columns, green on those that have its five. */
  lemma CustomerAppNeeds(cols: Columns)
    ensures AllValid(cols, CUSTOMER_APP.blue) <==> {"id", "email", "full_name", "status"} <= cols
    ensures AllValid(cols, CUSTOMER_APP.green) <==> {"id", "email", "display_name", "phone", "status"} <= cols
  {
    assert AllValid(cols, CUSTOMER_APP.blue) ==> ValidQuery(cols, CUSTOMER_APP.blue[0]);
    assert AllValid(cols, CUSTOMER_APP.green) ==> ValidQuery(cols, CUSTOMER_APP.green[0]);
    var b, g := CUSTOMER_APP.blue[0].columns, CUSTOMER_APP.green[0].columns;
    assert b[0] == "id" && b[1] == "email" && b[2] == "full_name" && b[3] == "status";
    assert g[0] == "id" && g[1] == "email" && g[2] == "display_name" && g[3] == "phone" && g[4] == "status";
  }

  const CUSTOMER_PLAN := Plan(
    "deploy-rename-full-name",
    [AddColumn("display_name"), Other, AddColumn("phone")],
    [DropColumn("search_key", false), DropColumn("full_name", false), AddColumn("search_key")],
    [DropColumn("display_name", true), DropColumn("phone", true)],
    [VerifyQuery(Query("backfill", ["display_name"]), 0)])

  /**
   The contract of the workshop plan does not survive a lost attempt: once its first two statements have run,
   every retry is in error at once, because its drops do not say IF EXISTS. Expand and rollback do survive.
   */
  lemma WorkshopContractIsNotRetrySafe(cols: Columns)
    requires After(cols, CUSTOMER_PLAN.contractSQL, 2).Some?
    ensures !RetrySafe(CUSTOMER_PLAN.contractSQL)
    ensures After(After(cols, CUSTOMER_PLAN.contractSQL, 2).value, CUSTOMER_PLAN.contractSQL, 1) == None
    ensures RetrySafe(CUSTOMER_PLAN.expandSQL) && RetrySafe(CUSTOMER_PLAN.rollbackSQL)
  {
  }

  lemma CustomerColumns(cols: Columns, n: nat)
    requires n <= 3
    ensures After(cols, CUSTOMER_PLAN.expandSQL, n)
            == Some(if n == 0 then cols else if n < 3 then cols + {"display_name"}
                else cols + {"display_name"} + {"phone"})
  {
  }

  /** The plan is valid and reversible on the original schema, blue lives on it, and expanding makes green live too. */
  lemma CustomerPlanFits()
    ensures ValidPlan(CUSTOMER_PLAN) && Reversible(CUSTOMER_PLAN, CUSTOMERS) && KeepsBlue(CUSTOMER_PLAN, CUSTOMER_APP)
    ensures AllValid(CUSTOMERS, CUSTOMER_APP.blue) && !AllValid(CUSTOMERS, CUSTOMER_APP.green)
    ensures var expanded := After(CUSTOMERS, CUSTOMER_PLAN.expandSQL, 3);
            expanded.Some? && AllValid(expanded.value, CUSTOMER_APP.blue)
                && AllValid(expanded.value, CUSTOMER_APP.green)
    ensures RetrySafe(CUSTOMER_PLAN.expandSQL) && RetrySafe(CUSTOMER_PLAN.rollbackSQL)
  {
    CustomerAppNeeds(CUSTOMERS);
    CustomerColumns(CUSTOMERS, 3);
    CustomerAppNeeds(After(CUSTOMERS, CUSTOMER_PLAN.expandSQL, 3).value);
    CustomerPlanIsReversible();
    NeededColumnsSuffice(CUSTOMERS, CUSTOMER_APP.blue);
    ReversiblePlansKeepBlue(CUSTOMER_PLAN, CUSTOMER_APP, CUSTOMERS);
  }

  /** What the plan makes of the schema: both versions work after the expand, only green after the contract. */
  lemma CustomerPlanMigrates()
    ensures Expanded(CUSTOMER_PLAN, CUSTOMERS) == CUSTOMERS + {"display_name", "phone"}
    ensures Migrated(CUSTOMER_PLAN, CUSTOMERS)
            == {"id", "email", "display_name", "phone", "status", "created_at", "search_key"}
    ensures Needed(CUSTOMER_APP.blue) + Needed(CUSTOMER_APP.green) <= Expanded(CUSTOMER_PLAN, CUSTOMERS)
    ensures Needed(CUSTOMER_APP.green) <= Migrated(CUSTOMER_PLAN, CUSTOMERS)
    ensures !(Needed(CUSTOMER_APP.blue) <= Migrated(CUSTOMER_PLAN, CUSTOMERS))
  {
    var both := CUSTOMERS + {"display_name", "phone"};
    CustomerColumns(CUSTOMERS, 3);
    AfterIsTransformed(CUSTOMERS, CUSTOMER_PLAN.expandSQL);
    CustomerContract(both);
    AfterIsTransformed(both, CUSTOMER_PLAN.contractSQL);
    var migrated := Migrated(CUSTOMER_PLAN, CUSTOMERS);
    CustomerAppNeeds(both);
    CustomerAppNeeds(migrated);
    NeededColumnsSuffice(both, CUSTOMER_APP.blue);
    NeededColumnsSuffice(both, CUSTOMER_APP.green);
    NeededColumnsSuffice(migrated, CUSTOMER_APP.blue);
    NeededColumnsSuffice(migrated, CUSTOMER_APP.green);
  }

  /** Started on the original schema it can complete, and does if nothing comes in between. */
  lemma CustomerPlanCompletes(db: Database)
    requires db.columns == CUSTOMERS
    ensures CanComplete(CUSTOMER_PLAN, true, CUSTOMER_APP, db)
    ensures exists evs :: Completes(CUSTOMER_PLAN, true, CUSTOMER_APP, db, evs)
                          && Smooth(Start(CUSTOMER_PLAN, true), CUSTOMER_APP, db, evs)
  {
    CustomerPlanFits();
    CustomerPlanMigrates();
    CustomerContract(Expanded(CUSTOMER_PLAN, CUSTOMERS));
    var expanded := Expanded(CUSTOMER_PLAN, CUSTOMERS);
    CustomerColumns(CUSTOMERS, 3);
    NeededColumnsSuffice(expanded, CUSTOMER_APP.blue);
    NeededColumnsSuffice(expanded, CUSTOMER_APP.green);
    assert Completable(CUSTOMER_PLAN, CUSTOMER_APP, CUSTOMERS) by {
      assert CUSTOMER_PLAN.verifyQueries[0].query.columns == ["display_name"];
      assert QueriesValid(CUSTOMER_PLAN, expanded, 1);
    }
    CompletableIff(CUSTOMER_PLAN, true, CUSTOMER_APP, db);
  }

  lemma CustomerContract(cols: Columns)
    requires {"search_key", "full_name"} <= cols
    ensures After(cols, CUSTOMER_PLAN.contractSQL, 3) == Some(cols - {"full_name"})
  {
    var stmts := CUSTOMER_PLAN.contractSQL;
    assert After(cols, stmts, 1) == Some(cols - {"search_key"});
    assert After(cols, stmts, 2) == Some(cols - {"search_key"} - {"full_name"});
    assert cols - {"search_key"} - {"full_name"} + {"search_key"} == cols - {"full_name"};
  }

  lemma CustomerPlanIsReversible()
    ensures Reversible(CUSTOMER_PLAN, CUSTOMERS)
  {
    var up, down := CUSTOMER_PLAN.expandSQL, CUSTOMER_PLAN.rollbackSQL;
    assert down[0] == DropColumn("display_name", true) && down[1] == DropColumn("phone", true);
    assert "display_name" in DroppedBy(down) && "phone" in DroppedBy(down);
    forall c | c in AddedBy(up) ensures c in DroppedBy(down) {
      var i :| 0 <= i < |up| && up[i].AddColumn? && up[i].name == c;
    }
  }
}
