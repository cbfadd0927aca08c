/**
 BlueGreenDeploymentWorkflow seen from outside its activities: what each activity and each gate answered, and
 what the workflow makes of it. One predicate for each part of the workflow says which answers it may have got
 from position `k` on, in which order, and in which phase it then ends. (internal/bluegreen/workflow.go)
 */
module Script {
  import opened Deployment

  /** What the workflow was told: by an activity after its last attempt, by a gate, by the read-only timer. */
  datatype Verdict =
    | Ended(act: Activity, ok: bool, green: bool)
    | Answered(gate: GateName, approved: bool)
    | Overran(timedOut: bool)

  predicate FromActivity(vs: seq<Verdict>, k: nat, act: Activity) { k < |vs| && vs[k].Ended? && vs[k].act == act }

  predicate FromGate(vs: seq<Verdict>, k: nat, gate: GateName) { k < |vs| && vs[k].Answered? && vs[k].gate == gate }

  /** Release and roll back are always both attempted; what comes of them does not matter. */
  predicate Compensated(vs: seq<Verdict>, k: nat, final: Phase) {
    |vs| == k + 2 && FromActivity(vs, k, CompRelease) && FromActivity(vs, k + 1, Rollback) && final == RolledBack
  }

  /** An invalid plan fails at once; a rollback at the gate compensates. */
  predicate Reviewed(vs: seq<Verdict>, k: nat, final: Phase) {
    && FromActivity(vs, k, Validate)
    && if !vs[k].ok then |vs| == k + 1 && final == Failed
       else
         && FromGate(vs, k + 1, PlanGate)
         && if vs[k + 1].approved then Expanded(vs, k + 2, final) else Compensated(vs, k + 2, final)
  }

  /** A failed expand compensates. */
  predicate Expanded(vs: seq<Verdict>, k: nat, final: Phase) {
    && FromActivity(vs, k, Expand)
    && if vs[k].ok then Verified(vs, k + 1, final) else Compensated(vs, k + 1, final)
  }

  /** A failed verification compensates. */
  predicate Verified(vs: seq<Verdict>, k: nat, final: Phase) {
    && FromActivity(vs, k, Verify)
    && if vs[k].ok then Checked(vs, k + 1, final) else Compensated(vs, k + 1, final)
  }

  /** A failed check of blue and a rollback at the gate each compensate. */
  predicate Checked(vs: seq<Verdict>, k: nat, final: Phase) {
    && FromActivity(vs, k, CompatPre)
    && if !vs[k].ok then Compensated(vs, k + 1, final)
       else
         && FromGate(vs, k + 1, VerifyGate)
         && if vs[k + 1].approved then CutOver(vs, k + 2, final) else Compensated(vs, k + 2, final)
  }

  /** A failed acquisition compensates. */
  predicate CutOver(vs: seq<Verdict>, k: nat, final: Phase) {
    && FromActivity(vs, k, Acquire)
    && if vs[k].ok then Switched(vs, k + 1, final) else Compensated(vs, k + 1, final)
  }

  /** Whatever the timer and the switch say, the window is closed next. */
  predicate Switched(vs: seq<Verdict>, k: nat, final: Phase) {
    && k < |vs| && vs[k].Overran? && FromActivity(vs, k + 1, Switch)
    && WindowClosed(vs, k + 2, vs[k].timedOut, vs[k + 1].ok, final)
  }

  /** Release is always attempted; an overrun window or a failed switch then compensates. */
  predicate WindowClosed(vs: seq<Verdict>, k: nat, timedOut: bool, switched: bool, final: Phase) {
    && FromActivity(vs, k, Release)
    && if !timedOut && switched then Monitored(vs, k + 1, final) else Compensated(vs, k + 1, final)
  }

  /** A rollback during monitoring compensates. */
  predicate Monitored(vs: seq<Verdict>, k: nat, final: Phase) {
    && FromGate(vs, k, MonitorGate)
    && if vs[k].approved then Awaited(vs, k + 1, final) else Compensated(vs, k + 1, final)
  }

  /** An error of the final check and a failing green each compensate. */
  predicate Awaited(vs: seq<Verdict>, k: nat, final: Phase) {
    && FromActivity(vs, k, CompatFinal)
    && if vs[k].ok && vs[k].green then ContractReviewed(vs, k + 1, final) else Compensated(vs, k + 1, final)
  }

  /** A rollback at the contract gate compensates. */
  predicate ContractReviewed(vs: seq<Verdict>, k: nat, final: Phase) {
    && FromGate(vs, k, ContractGate)
    && if vs[k].approved then Contracted(vs, k + 1, final) else Compensated(vs, k + 1, final)
  }

  /** A failed contract ends in failed and nothing is undone; what the last verification says does not matter. */
  predicate Contracted(vs: seq<Verdict>, k: nat, final: Phase) {
    && FromActivity(vs, k, Contract)
    && if !vs[k].ok then |vs| == k + 1 && final == Failed
       else |vs| == k + 2 && FromActivity(vs, k + 1, VerifyContract) && final == Complete
  }

  // ---- what a whole script tells ----

  /** The phase that the last verdict leads to. */
  function EndOf(v: Verdict): Phase {
    if v.Ended? && v.act.Rollback? then RolledBack
    else if v.Ended? && v.act.VerifyContract? then Complete
    else Failed
  }

  predicate Is(v: Verdict, act: Activity) { v.Ended? && v.act == act }

  /**
   From `k` on: it ends as its last verdict says, in rolled back exactly if a rollback was attempted, and it does
   not both run the contract and roll back.
   */
  predicate Sound(vs: seq<Verdict>, k: nat, final: Phase) {
    && k < |vs| && final == EndOf(vs[|vs| - 1])
    && (final == RolledBack <==> exists i :: k <= i < |vs| && Is(vs[i], Rollback))
    && forall i, j :: k <= i < |vs| && k <= j < |vs| && Is(vs[i], Contract) ==> !Is(vs[j], Rollback)
  }

  // ---- what it takes to complete ----

  /** The activities whose failure the workflow does not forgive. */
  predicate Decisive(act: Activity) {
    !act.Release? && !act.VerifyContract? && !act.CompRelease? && !act.Rollback?
  }

  predicate Yes(v: Verdict, act: Activity) { Is(v, act) && v.ok && (act.CompatFinal? ==> v.green) }

  predicate Succeeded(vs: seq<Verdict>, k: nat, act: Activity) { exists i :: k <= i < |vs| && Yes(vs[i], act) }

  predicate Approved(vs: seq<Verdict>, k: nat, gate: GateName) {
    exists i :: k <= i < |vs| && vs[i] == Answered(gate, true)
  }

  predicate Overrun(vs: seq<Verdict>, k: nat) { exists i :: k <= i < |vs| && vs[i] == Overran(true) }

  /** Every decisive activity succeeded, green passed the last check, all gates approved, the window was kept. */
  predicate AllWell(vs: seq<Verdict>, k: nat) {
    && (forall act :: Decisive(act) ==> Succeeded(vs, k, act))
    && (forall gate :: Approved(vs, k, gate))
    && !Overrun(vs, k)
  }

  /** Up to and without the verdict on the contract, nothing stopped the workflow. */
  predicate Smooth(vs: seq<Verdict>, k: nat) {
    && |vs| >= k + 13
    && Yes(vs[k], Validate) && vs[k + 1] == Answered(PlanGate, true)
    && Yes(vs[k + 2], Expand) && Yes(vs[k + 3], Verify) && Yes(vs[k + 4], CompatPre)
    && vs[k + 5] == Answered(VerifyGate, true) && Yes(vs[k + 6], Acquire) && vs[k + 7] == Overran(false)
    && Yes(vs[k + 8], Switch) && Is(vs[k + 9], Release) && vs[k + 10] == Answered(MonitorGate, true)
    && Yes(vs[k + 11], CompatFinal) && vs[k + 12] == Answered(ContractGate, true)
  }

  /** It failed at once, or got as far as the contract. */
  predicate WentThrough(vs: seq<Verdict>, k: nat, final: Phase) {
    || (|vs| == k + 1 && Is(vs[k], Validate) && final == Failed)
    || (|vs| == k + 14 && Smooth(vs, k) && Is(vs[k + 13], Contract) && !vs[k + 13].ok && final == Failed)
    || (|vs| == k + 15 && Smooth(vs, k) && Yes(vs[k + 13], Contract) && Is(vs[k + 14], VerifyContract)
        && final == Complete)
  }

  /** It asked for the rollback last and for the release before it, and for nothing of the contract. */
  predicate Undone(vs: seq<Verdict>, k: nat, final: Phase) {
    && k + 3 <= |vs| <= k + 15 && Compensated(vs, |vs| - 2, final)
    && forall i :: k <= i < |vs| - 2 ==> !Is(vs[i], Contract) && !Is(vs[i], Rollback)
  }

  /** There are only two ways through the workflow. */
  lemma TwoWays(vs: seq<Verdict>, k: nat, final: Phase)
    requires Reviewed(vs, k, final)
    ensures if final == RolledBack then Undone(vs, k, final) else WentThrough(vs, k, final)
  {
    if final == RolledBack {
      UndoneIfRolledBack(vs, k, final);
    }
  }

  lemma UndoneIfRolledBack(vs: seq<Verdict>, k: nat, final: Phase)
    requires Reviewed(vs, k, final) && final == RolledBack
    ensures Undone(vs, k, final)
  {
  }

  lemma Fifteen(k: nat, i: nat)
    requires k <= i < k + 15
    ensures || i == k || i == k + 1 || i == k + 2 || i == k + 3 || i == k + 4 || i == k + 5 || i == k + 6 || i == k + 7
            || i == k + 8 || i == k + 9 || i == k + 10 || i == k + 11 || i == k + 12 || i == k + 13 || i == k + 14
  {
  }

  lemma SmoothHasNoRollback(vs: seq<Verdict>, k: nat)
    requires Smooth(vs, k)
    requires forall i :: k + 13 <= i < |vs| ==> !Is(vs[i], Rollback)
    ensures forall i :: k <= i < |vs| ==> !Is(vs[i], Rollback)
  {
    forall i | k <= i < k + 13 ensures !Is(vs[i], Rollback) {
      Fifteen(k, i);
    }
  }

  /** Every script ends as its last verdict says; it never both contracts and rolls back. */
  lemma ReviewedIsSound(vs: seq<Verdict>, k: nat, final: Phase)
    requires Reviewed(vs, k, final)
    ensures Sound(vs, k, final)
  {
    hide Reviewed;
    TwoWays(vs, k, final);
    if final == RolledBack {
      assert Is(vs[|vs| - 1], Rollback);
    } else if |vs| > k + 1 {
      SmoothHasNoRollback(vs, k);
      hide Smooth;
    }
  }

  lemma SmoothIsWell(vs: seq<Verdict>, k: nat)
    requires Smooth(vs, k) && |vs| == k + 15 && Yes(vs[k + 13], Contract) && Is(vs[k + 14], VerifyContract)
    ensures AllWell(vs, k)
  {
    forall act | Decisive(act) ensures Succeeded(vs, k, act) {
      match act
      case Validate => assert Yes(vs[k], act);
      case Expand => assert Yes(vs[k + 2], act);
      case Verify => assert Yes(vs[k + 3], act);
      case CompatPre => assert Yes(vs[k + 4], act);
      case Acquire => assert Yes(vs[k + 6], act);
      case Switch => assert Yes(vs[k + 8], act);
      case CompatFinal => assert Yes(vs[k + 11], act);
      case Contract => assert Yes(vs[k + 13], act);
    }
    forall gate ensures Approved(vs, k, gate) {
      match gate
      case PlanGate => assert vs[k + 1] == Answered(gate, true);
      case VerifyGate => assert vs[k + 5] == Answered(gate, true);
      case MonitorGate => assert vs[k + 10] == Answered(gate, true);
      case ContractGate => assert vs[k + 12] == Answered(gate, true);
    }
    forall i | k <= i < |vs| ensures vs[i] != Overran(true) {
      Fifteen(k, i);
    }
  }

  lemma RefusedContract(vs: seq<Verdict>, k: nat)
    requires |vs| == k + 14 && Smooth(vs, k) && Is(vs[k + 13], Contract) && !vs[k + 13].ok
    ensures !Succeeded(vs, k, Contract)
  {
    forall i | k <= i < |vs| ensures !Yes(vs[i], Contract) {
      Fifteen(k, i);
    }
  }

  /** A successful contract completes the run. */
  lemma ContractDecides(vs: seq<Verdict>, k: nat, final: Phase)
    requires Reviewed(vs, k, final) && Succeeded(vs, k, Contract)
    ensures final == Complete
  {
    hide Reviewed;
    ReviewedIsSound(vs, k, final);
    TwoWays(vs, k, final);
    var i :| k <= i < |vs| && Yes(vs[i], Contract);
    assert Is(vs[i], Contract);
    if |vs| == k + 14 {
      RefusedContract(vs, k);
    }
  }

  /**
   A run completes if and only if every activity up to the contract succeeded, green passed the last check, all four
   gates were approved and the read-only window was not overrun; the release alone is allowed to fail.
   */
  lemma CompleteIff(vs: seq<Verdict>, k: nat, final: Phase)
    requires Reviewed(vs, k, final)
    ensures final == Complete <==> AllWell(vs, k)
  {
    hide Reviewed;
    TwoWays(vs, k, final);
    if final == Complete {
      SmoothIsWell(vs, k);
    } else if AllWell(vs, k) {
      assert Succeeded(vs, k, Contract);
      ContractDecides(vs, k, final);
      assert false;
    }
  }

  predicate Denied(vs: seq<Verdict>, k: nat, act: Activity) {
    exists i :: k <= i < |vs| && Is(vs[i], act) && !vs[i].ok
  }

  /** A run fails if and only if its validation or its contract failed; every other failure rolls back. */
  lemma FailedIff(vs: seq<Verdict>, k: nat, final: Phase)
    requires Reviewed(vs, k, final)
    ensures final == Failed <==> Denied(vs, k, Validate) || Denied(vs, k, Contract)
  {
    hide Reviewed, Smooth;
    TwoWays(vs, k, final);
    if final == Failed {
      if |vs| == k + 1 {
        RefusedAtOnce(vs, k, final);
      }
      assert |vs| == k + 14 ==> Is(vs[k + 13], Contract) && !vs[k + 13].ok;
    } else {
      NeitherDenied(vs, k, final);
    }
  }

  lemma RefusedAtOnce(vs: seq<Verdict>, k: nat, final: Phase)
    requires Reviewed(vs, k, final) && final == Failed && |vs| == k + 1
    ensures !vs[k].ok
  {
  }

  lemma NeitherDenied(vs: seq<Verdict>, k: nat, final: Phase)
    requires Reviewed(vs, k, final) && final != Failed
    ensures !Denied(vs, k, Validate) && !Denied(vs, k, Contract)
  {
  }
}
