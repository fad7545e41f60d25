/**
 What a decision on a proposal needs, what a failure leads to, and when a proposal is taken up, stated on the rows.
 */
module ActionLaws {
  import opened Wrappers
  import opened StateMachine
  import opened ActionLifecycle

  /** Another proposal for the entity is pending or approved. */
  ghost predicate LiveRival(s: State, id: Id, row: Row) {
    exists other | other in s.rows ::
      && other != id && s.rows[other].entityType == row.entityType && s.rows[other].entityId == row.entityId
      && s.rows[other].kind != "flag" && s.rows[other].action.status in {Pending, Approved}
  }

  /** Another change of the entity went live less than 72 hours ago. */
  ghost predicate FreshChange(s: State, id: Id, row: Row, now: int) {
    exists other | other in s.rows ::
      && other != id && s.rows[other].entityType == row.entityType && s.rows[other].entityId == row.entityId
      && s.rows[other].kind != "flag" && s.rows[other].action.status in {Applied, Verified, RolledBack}
      && s.rows[other].action.appliedAt.Some? && now - s.rows[other].action.appliedAt.value < 72 * 3600
  }

  lemma ContestedIs(s: State, id: Id, row: Row)
    ensures Contested(s, id, row) <==> LiveRival(s, id, row)
  {
  }

  lemma ChangedRecentlyIs(s: State, id: Id, row: Row, now: int)
    ensures ChangedRecently(s, id, row, now) <==> FreshChange(s, id, row, now)
  {
  }

  /** A proposal is decided exactly when an owner or admin decides it in time, and approved only if nothing else touches its entity. */
  lemma DecidedExactlyWhen(s: State, id: Id, user: string, role: string, approving: bool, context: Context, now: int)
    ensures var (t, failure) := Decide(s, id, user, role, approving, context, now);
            && (failure.None? <==>
                  && role in {"owner", "admin"}
                  && id in s.rows && s.rows[id].kind != "flag" && s.rows[id].action.status == Pending && now < s.rows[id].expiresAt
                  && (approving ==> context.supported && !context.outsideChange && !LiveRival(s, id, s.rows[id]) && !FreshChange(s, id, s.rows[id], now)))
            && (failure.Some? ==> t == s)
            && (failure.None? ==>
                  && id in t.rows && t.rows.Keys == s.rows.Keys && (forall other | other in s.rows && other != id :: t.rows[other] == s.rows[other])
                  && t.rows[id].action.status == (if approving then Approved else Rejected)
                  && t.rows[id].action.after == s.rows[id].action.after && t.rows[id].decidedBy == Some(user)
                  && (approving ==> t.rows[id].action.approvedBy == Some(user) && t.rows[id].action.approvedAt == Some(now)))
  {
    hide Contested, ChangedRecently, LiveRival, FreshChange;
    if id in s.rows {
      ContestedIs(s, id, s.rows[id]);
      ChangedRecentlyIs(s, id, s.rows[id], now);
    }
  }

  /** A new proposal is taken up unless its entity already has a live one; a finding always is. */
  lemma ProposedExactlyWhen(s: State, id: Id, row: Row)
    requires id !in s.rows && id !in s.trail
    ensures var t := Propose(s, id, row);
            if row.kind == "flag" || !LiveRival(s, id, row) then t.rows == s.rows[id := row] && t.trail == s.trail[id := [Proposed]] else t == s
  {
    hide Contested, LiveRival;
    ContestedIs(s, id, row);
    var none: seq<Entry> := [];
    assert none + [Proposed] == [Proposed];
  }

  /** Seconds before try number n + 1: one minute, doubled each time, an hour at most. */
  function Backoff(n: nat): nat
    requires n > 0
  {
    if n <= 6 then [60, 120, 240, 480, 960, 1920][n - 1] else 3600
  }

  lemma {:induction false} PowersGrow(n: nat)
    requires n >= 6
    ensures Pow2(n) >= 64
  {
    if n > 6 {
      PowersGrow(n - 1);
    } else {
      assert Pow2(3) == 8;
      assert Pow2(6) == 2 * Pow2(5) == 4 * Pow2(4) == 8 * Pow2(3);
    }
  }

  lemma DelayIs(n: nat, spread: nat)
    requires n > 0
    ensures Backoff(n) <= Delay(n, spread) <= Backoff(n) + 30
  {
    if n > 6 {
      PowersGrow(n - 1);
    } else {
      assert Pow2(3) == 8;
      assert Pow2(5) == 2 * Pow2(4) == 4 * Pow2(3);
    }
  }

  /**
   A failed attempt is counted. While it is transient and tries are left, the row comes due again after the backoff, unless its
   entity has another live proposal by then; else it is set aside at once and never due.
   */
  lemma FailureLaw(s: State, id: Id, provider: Provider, now: int, p: Policies, later: int)
    requires id in s.rows && s.rows[id].action.status == Approved && Execute(s, id, provider, now, p).0.rows[id].action.status == Failed
    ensures var t := Execute(s, id, provider, now, p).0;
            var (was, row) := (s.rows[id], t.rows[id]);
            && row.retryCount == was.retryCount + 1 && row.failureClass == Some(p.classify(row.action.error))
            && row.maxRetries == was.maxRetries
            && if row.failureClass == Some(Transient) && row.retryCount <= row.maxRetries then
                 && row.deadLetteredAt == None && row.nextAttemptAt.Some?
                 && now + Backoff(row.retryCount) <= row.nextAttemptAt.value <= now + Backoff(row.retryCount) + 30
                 && (Due(t, id, later) <==> row.nextAttemptAt.value <= later && !LiveRival(t, id, row))
               else row.nextAttemptAt == None && row.deadLetteredAt == Some(now) && !Due(t, id, later)
  {
    hide Delay, Contested, LiveRival, Backoff;
    var t := Execute(s, id, provider, now, p).0;
    DelayIs(s.rows[id].retryCount + 1, p.spread);
    ContestedIs(t, id, t.rows[id]);
  }
}
