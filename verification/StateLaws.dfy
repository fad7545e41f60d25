/** When each transition of a proposed action is possible and what it makes of the action, in plain terms. */
module StateLaws {
  import opened Wrappers
  import opened StateMachine

  /** Approval: a pending proposal of the last 48 hours, by an owner or admin other than its author. */
  lemma ApprovedExactlyWhen(a: Action, approver: string, role: string, now: int, allowSelf: bool)
    ensures var r := Approve(a, approver, role, now, allowSelf);
            && (r.Ok? <==>
                  && a.status == Pending && role in {"owner", "admin"} && now - a.requestedAt <= 48 * 3600
                  && (allowSelf || a.requestedBy != Some(approver)))
            && (r.Ok? ==> r.value == a.(status := Approved, approvedBy := Some(approver), approvedAt := Some(now)))
  {
  }

  lemma RejectedExactlyWhen(a: Action, actor: string, now: int, reason: string)
    ensures Reject(a, actor, now, reason).Ok? <==> a.status in {Pending, Approved}
    ensures Reject(a, actor, now, reason).Ok? ==> Reject(a, actor, now, reason).value.status == Rejected
  {
  }

  lemma ExpiredExactlyWhen(a: Action, now: int)
    ensures Expire(a, now).Ok? <==> a.status in {Pending, Approved} && now - a.requestedAt > 48 * 3600
    ensures Expire(a, now).Ok? ==> Expire(a, now).value == a.(status := Expired)
  {
  }

  /** An attempt on an approved action: applied when the call went through and the value read is the proposal's baseline, if both are known. */
  lemma AppliedExactlyWhen(a: Action, now: int, live: Option<Value>, apiOk: bool, error: string, drift: string)
    ensures var r := Apply(a, now, live, apiOk, error, drift);
            && (r.Ok? <==> a.status == Approved)
            && (r.Ok? ==>
                  && (r.value.status == Applied <==> apiOk && (a.before == None || live == None || live == a.before))
                  && (r.value.status == Applied ==> r.value.appliedAt == Some(now))
                  && (r.value.status != Applied ==> r.value.status == Failed && r.value.error.Some? && r.value.before == a.before && r.value.appliedAt == a.appliedAt)
                  && (r.value.status != Applied && !apiOk && error != "" ==> r.value.error == Some(error))
                  && (r.value.status != Applied && apiOk ==> r.value.error == Some(drift)))
  {
  }

  /** Verification: an applied action, seven days on, with one of five outcomes. */
  lemma VerifiedExactlyWhen(a: Action, now: int, outcome: string)
    ensures var r := Verify(a, now, outcome);
            && (r.Ok? <==>
                  && a.status == Applied && a.appliedAt.Some? && now - a.appliedAt.value >= 7 * 24 * 3600
                  && outcome in {"improved", "worsened", "neutral", "inconclusive", "drifted"})
            && (r.Ok? ==> r.value == a.(status := Verified, verifiedAt := Some(now), outcome := Some(outcome)))
  {
  }

  /** Rollback: an applied action whose baseline is known; a refused call leaves it applied. */
  lemma RolledBackExactlyWhen(a: Action, now: int, apiOk: bool)
    ensures var r := Rollback(a, now, apiOk);
            && (r.Ok? <==> a.status == Applied && a.before.Some?)
            && (r.Ok? && apiOk ==> r.value == a.(status := RolledBack, rolledBackAt := Some(now)))
            && (r.Ok? && !apiOk ==> r.value.status == Applied && r.value.error.Some?)
  {
  }

  lemma RetriedExactlyWhen(a: Action)
    ensures Retry(a).Ok? <==> a.status == Failed
    ensures Retry(a).Ok? ==> Retry(a).value == a.(status := Pending, error := None, approvedBy := None, approvedAt := None)
  {
  }
}
