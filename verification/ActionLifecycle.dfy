/**
 Proposed actions of one tenant, from proposal to verification: the decision taken on the
 web, the worker that calls the provider, the failure policy of the database, release of
 due retries, dead letters, verification and rollback. Each is one transaction.
 */
module ActionLifecycle {
  import opened Wrappers
  import opened StateMachine

  type Id = string

  datatype FailureClass = Transient | Permanent | Drift | Authorization | Capability | Unknown

  datatype Row = Row(
    entityType: string, entityId: string, kind: string, expiresAt: int, action: Action, decidedBy: Option<string>,
    maxRetries: nat, retryCount: nat, nextAttemptAt: Option<int>, failureClass: Option<FailureClass>,
    deadLetteredAt: Option<int>, replayCount: nat)

  /** What happened to one action, as the audit rows and the provider saw it. */
  datatype Entry =
    | Proposed
    | WasApproved(user: string, role: string, at: int)
    | WasRejected(user: string, role: string)
    | WasExpired(at: int)
    | Wrote(value: Value)
    | WasApplied(at: int)
    | WasFailed
    | Released
    | Replayed(actor: string, role: string)
    | Requeued
    | WasVerified(at: int)
    | WasRolledBack(at: int)

  datatype State = State(rows: map<Id, Row>, trail: map<Id, seq<Entry>>)

  datatype Error =
    | NotManager | Unsupported | Collision | Missing | IsFlag | AlreadyDecided | TooOld
    | Refused(why: TransitionError) | NotDeadLettered | NotUnique

  /** Classification of error texts, which is a list of regular expressions in the source. */
  type Classifier = Option<string> -> FailureClass

  // ------------------------------------------------------------- the table

  predicate Active(r: Row) {
    r.kind != "flag" && (r.action.status.Pending? || r.action.status.Approved?)
  }

  predicate SameEntity(a: Row, b: Row) {
    a.entityType == b.entityType && a.entityId == b.entityId
  }

  /** Another live proposal for the same entity; the unique index allows one. */
  predicate Contested(s: State, id: Id, row: Row) {
    exists other | other in s.rows :: other != id && SameEntity(s.rows[other], row) && Active(s.rows[other])
  }

  const COLLISION_WINDOW := 3 * DAY

  predicate ChangedRecently(s: State, id: Id, row: Row, now: int) {
    exists other | other in s.rows ::
      && other != id && SameEntity(s.rows[other], row) && s.rows[other].kind != "flag"
      && (var st := s.rows[other].action.status; st.Applied? || st.Verified? || st.RolledBack?)
      && s.rows[other].action.appliedAt.Some? && s.rows[other].action.appliedAt.value > now - COLLISION_WINDOW
  }

  function Put(s: State, id: Id, row: Row, entries: seq<Entry>): State {
    State(s.rows[id := row], s.trail[id := (if id in s.trail then s.trail[id] else []) + entries])
  }

  // --------------------------------------------------------- the decision

  /** A new proposal; one for an entity that already has a live proposal is not inserted. */
  function Propose(s: State, id: Id, row: Row): State {
    if row.kind != "flag" && Contested(s, id, row) then s else Put(s, id, row, [Proposed])
  }

  predicate Fresh(row: Row) {
    row.action.status.Pending? && row.action.appliedAt.None? && row.action.rolledBackAt.None? && row.action.verifiedAt.None?
    && row.retryCount == 0 && row.replayCount == 0 && row.deadLetteredAt.None? && row.maxRetries <= 10
  }

  /** What the web knows outside the table: provider support and recorded outside changes. */
  datatype Context = Context(supported: bool, outsideChange: bool)

  function Refusal(s: State, id: Id, approving: bool, context: Context, now: int): Option<Error> {
    if approving && id in s.rows && s.rows[id].action.status.Pending? && !context.supported then Some(Unsupported)
    else if approving && id in s.rows && s.rows[id].action.status.Pending?
            && (Contested(s, id, s.rows[id]) || context.outsideChange || ChangedRecently(s, id, s.rows[id], now)) then Some(Collision)
    else if id !in s.rows then Some(Missing)
    else if s.rows[id].kind == "flag" then Some(IsFlag)
    else if !s.rows[id].action.status.Pending? then Some(AlreadyDecided)
    else if s.rows[id].expiresAt <= now then Some(TooOld)
    else None
  }

  /** Approval or rejection of a pending proposal by an owner or admin of the tenant. */
  function Decide(s: State, id: Id, user: string, role: string, approving: bool, context: Context, now: int): (State, Option<Error>) {
    if !Approver(role) then (s, Some(NotManager))
    else if Refusal(s, id, approving, context, now).Some? then (s, Refusal(s, id, approving, context, now))
    else
      var row := s.rows[id];
      var action :=
        if approving then row.action.(status := Approved, approvedBy := Some(user), approvedAt := Some(now))
        else row.action.(status := Rejected);
      (Put(s, id, row.(action := action, decidedBy := Some(user)),
           [if approving then WasApproved(user, role, now) else WasRejected(user, role)]), None)
  }

  // ----------------------------------------------------------- the worker

  /** What the provider would answer to the read and to the write; either may raise. */
  datatype Provider = Provider(read: Result<Option<Value>, string>, write: Result<Value, string>)

  const DRIFT := "drift: live value no longer matches the proposed baseline; requires re-evaluation"

  /** The action after an attempt; the write is asked for whenever the read came back. */
  function Attempt(a: Action, provider: Provider, now: int): Result<Action, TransitionError> {
    if provider.read.Err? then Apply(a, now, a.before, false, provider.read.error, DRIFT)
    else if provider.write.Err? then Apply(a, now, a.before, false, provider.write.error, DRIFT)
    else Apply(a, now, provider.read.value, true, "", DRIFT)
  }

  function Pow2(n: nat): nat {
    if n == 0 then 1 else 2 * Pow2(n - 1)
  }

  /** Seconds to wait after failure number n; the spread comes from a hash of the id. */
  function Delay(n: nat, spread: nat): nat
    requires n > 0
  {
    (if 60 * Pow2(n - 1) < 3600 then 60 * Pow2(n - 1) else 3600) + spread % 31
  }

  /** The database's reaction to a row that becomes failed. */
  function Policy(row: Row, classify: Classifier, now: int, spread: nat): Row {
    var n := row.retryCount + 1;
    var cls := classify(row.action.error);
    if cls.Transient? && n <= row.maxRetries then
      row.(retryCount := n, failureClass := Some(cls), nextAttemptAt := Some(now + Delay(n, spread)), deadLetteredAt := None)
    else
      row.(retryCount := n, failureClass := Some(cls), nextAttemptAt := None, deadLetteredAt := Some(now))
  }

  function Saved(row: Row, action: Action, classify: Classifier, now: int, spread: nat): Row {
    var saved := row.(action := action);
    if action.status.Failed? && !row.action.status.Failed? then Policy(saved, classify, now, spread) else saved
  }

  function Outcome(action: Action, now: int): Entry {
    if action.status.Applied? then WasApplied(now) else WasFailed
  }

  datatype Policies = Policies(classify: Classifier, spread: nat)

  /** One approved action against the provider. */
  function Execute(s: State, id: Id, provider: Provider, now: int, p: Policies): (State, Option<Error>) {
    if id !in s.rows then (s, Some(Missing))
    else if !s.rows[id].action.status.Approved? then (s, Some(Refused(Illegal)))
    else
      match Attempt(s.rows[id].action, provider, now)
      case Err(e) => (s, Some(Refused(e)))
      case Ok(a) =>
        var written := if provider.read.Ok? then [Wrote(a.after)] else [];
        (Put(s, id, Saved(s.rows[id], a, p.classify, now, p.spread), written + [Outcome(a, now)]), None)
  }

  /** An approved action that a check stops before any provider call. */
  function Block(s: State, id: Id, error: string, now: int, p: Policies): (State, Option<Error>) {
    if id !in s.rows then (s, Some(Missing))
    else
      match Apply(s.rows[id].action, now, s.rows[id].action.before, false, "guardrail: " + error, DRIFT)
      case Err(e) => (s, Some(Refused(e)))
      case Ok(a) => (Put(s, id, Saved(s.rows[id], a, p.classify, now, p.spread), [WasFailed]), None)
  }

  // ------------------------------------------- expiry, verification, rollback

  function Lapse(s: State, id: Id, now: int): (State, Option<Error>) {
    if id !in s.rows then (s, Some(Missing))
    else
      match Expire(s.rows[id].action, now)
      case Err(e) => (s, Some(Refused(e)))
      case Ok(a) => (Put(s, id, s.rows[id].(action := a), [WasExpired(now)]), None)
  }

  function Judge(s: State, id: Id, outcome: string, now: int): (State, Option<Error>) {
    if id !in s.rows then (s, Some(Missing))
    else
      match Verify(s.rows[id].action, now, outcome)
      case Err(e) => (s, Some(Refused(e)))
      case Ok(a) => (Put(s, id, s.rows[id].(action := a), [WasVerified(now)]), None)
  }

  /** The provider's rollback may raise, and then the text replaces the error. */
  function Undo(s: State, id: Id, provider: Result<Value, string>, now: int): (State, Option<Error>) {
    if id !in s.rows then (s, Some(Missing))
    else
      match Rollback(s.rows[id].action, now, provider.Ok?)
      case Err(e) => (s, Some(Refused(e)))
      case Ok(a) =>
        if provider.Ok? then (Put(s, id, s.rows[id].(action := a), [WasRolledBack(now)]), None)
        else (Put(s, id, s.rows[id].(action := a.(error := Some(provider.error))), []), None)
  }

  // -------------------------------------------------------------- retries

  predicate Due(s: State, id: Id, now: int) {
    && id in s.rows
    && var r := s.rows[id];
    && r.action.status.Failed? && r.deadLetteredAt.None? && r.failureClass == Some(Transient)
    && r.nextAttemptAt.Some? && r.nextAttemptAt.value <= now
    && !Contested(s, id, r)
  }

  function Waiting(a: Action): Action {
    a.(status := Pending, approvedBy := None, approvedAt := None)
  }

  /** One due failure back to pending; the unique index refuses a second live proposal. */
  function Release(s: State, id: Id): Result<State, Error> {
    if id !in s.rows then Err(Missing)
    else if !s.rows[id].action.status.Failed? then Ok(s)
    else if s.rows[id].kind != "flag" && Contested(s, id, s.rows[id]) then Err(NotUnique)
    else Ok(Put(s, id, s.rows[id].(action := Waiting(s.rows[id].action), nextAttemptAt := None), [Released]))
  }

  /** A batch of releases is one transaction. */
  function ReleaseAll(s: State, ids: seq<Id>): Result<State, Error> {
    if ids == [] then Ok(s)
    else
      match ReleaseAll(s, ids[..|ids| - 1])
      case Err(e) => Err(e)
      case Ok(t) => Release(t, ids[|ids| - 1])
  }

  function Replay(s: State, id: Id, actor: string, role: string): (State, Option<Error>) {
    if !Approver(role) then (s, Some(NotManager))
    else if !(id in s.rows && s.rows[id].action.status.Failed? && s.rows[id].deadLetteredAt.Some?) then (s, Some(NotDeadLettered))
    else
      var row := s.rows[id];
      if row.kind != "flag" && Contested(s, id, row) then (s, Some(NotUnique))
      else
        (Put(s, id, row.(action := Waiting(row.action), nextAttemptAt := None, deadLetteredAt := None, replayCount := row.replayCount + 1),
             [Replayed(actor, role)]), None)
  }

  /** The manual retry, which leaves the retry columns as they are. */
  function Requeue(s: State, id: Id): (State, Option<Error>) {
    if id !in s.rows then (s, Some(Missing))
    else
      match Retry(s.rows[id].action)
      case Err(e) => (s, Some(Refused(e)))
      case Ok(a) =>
        if s.rows[id].kind != "flag" && Contested(s, id, s.rows[id]) then (s, Some(NotUnique))
        else (Put(s, id, s.rows[id].(action := a), [Requeued]), None)
  }

  /** One fetched row: the check that blocks it, if any, and the provider's answers. */
  datatype Plan = Plan(id: Id, blocked: Option<string>, provider: Provider, spread: nat)

  /** The client of a run: none is needed for a dry run, one may be passed, and else it is loaded, which may fail. */
  datatype Client = Rehearsing | Passed | Loaded(failure: Option<string>)

  predicate Unavailable(client: Client) {
    client.Loaded? && client.failure.Some?
  }

  ghost predicate Batch(s: State, plans: seq<Plan>) {
    && (forall i | 0 <= i < |plans| :: plans[i].id in s.rows && s.rows[plans[i].id].action.status.Approved?)
    && (forall i, j | 0 <= i < j < |plans| :: plans[i].id != plans[j].id)
  }

  /** What the provider is asked to write for a row: nothing when it is blocked or cannot be read. */
  function Writes(row: Row, plan: Plan): seq<Entry> {
    if plan.blocked.None? && plan.provider.read.Ok? then [Wrote(row.action.after)] else []
  }

  /** An approved row ends applied or failed: failed when it is blocked, applied when both calls succeed and the baseline
      still holds. */
  ghost predicate Done(s: State, t: State, plan: Plan, now: int)
    requires plan.id in s.rows && plan.id in s.trail
  {
    && plan.id in t.rows && plan.id in t.trail
    && var (row, status) := (s.rows[plan.id], t.rows[plan.id].action.status);
    && (status.Applied? || status.Failed?)
    && t.trail[plan.id] == s.trail[plan.id] + Writes(row, plan) + [Outcome(t.rows[plan.id].action, now)]
    && (status.Applied? <==> plan.blocked.None? && plan.provider.read.Ok? && plan.provider.write.Ok?
                             && !Drifted(row.action.before, plan.provider.read.value))
  }

  predicate SameRow(s: State, t: State, id: Id)
    requires id in s.rows && id in s.trail
  {
    id in t.rows && id in t.trail && t.rows[id] == s.rows[id] && t.trail[id] == s.trail[id]
  }

  lemma BlockDone(s: State, plan: Plan, now: int, classify: Classifier)
    requires plan.id in s.rows && plan.id in s.trail && s.rows[plan.id].action.status.Approved? && plan.blocked.Some?
    ensures var (t, failure) := Block(s, plan.id, plan.blocked.value, now, Policies(classify, plan.spread));
            failure.None? && Done(s, t, plan, now) && t.rows[plan.id].action.status.Failed?
            && t.rows.Keys == s.rows.Keys && t.trail.Keys == s.trail.Keys
            && forall id | id in s.rows && id in s.trail && id != plan.id :: SameRow(s, t, id)
  {
    hide Delay;
  }

  /** Applied exactly when both calls succeed and the baseline still holds; the write happens either way. */
  lemma ExecuteDone(s: State, plan: Plan, now: int, classify: Classifier)
    requires plan.id in s.rows && plan.id in s.trail && s.rows[plan.id].action.status.Approved? && plan.blocked.None?
    ensures var (t, failure) := Execute(s, plan.id, plan.provider, now, Policies(classify, plan.spread));
            failure.None? && Done(s, t, plan, now)
            && (Wrote(s.rows[plan.id].action.after) in t.trail[plan.id][|s.trail[plan.id]|..] <==> plan.provider.read.Ok?)
            && t.rows.Keys == s.rows.Keys && t.trail.Keys == s.trail.Keys
            && forall id | id in s.rows && id in s.trail && id != plan.id :: SameRow(s, t, id)
  {
    hide Delay;
    var t := Execute(s, plan.id, plan.provider, now, Policies(classify, plan.spread)).0;
    var a := Attempt(s.rows[plan.id].action, plan.provider, now).value;
    var written := if plan.provider.read.Ok? then [Wrote(a.after)] else [];
    assert t.trail[plan.id][|s.trail[plan.id]|..] == written + [Outcome(a, now)];
    if plan.provider.read.Ok? {
      assert (written + [Outcome(a, now)])[0] == Wrote(a.after);
    }
  }

  // ------------------------------------------------------------- the store

  class Store {
    var rows: map<Id, Row>
    var trail: map<Id, seq<Entry>>

    function Tables(): State
      reads this
    {
      State(rows, trail)
    }

    constructor ()
      ensures Tables() == State(map[], map[])
    {
      rows, trail := map[], map[];
    }

    method Save(id: Id, row: Row, entries: seq<Entry>)
      modifies this
      ensures Tables() == Put(old(Tables()), id, row, entries)
    {
      rows := rows[id := row];
      trail := trail[id := (if id in trail then trail[id] else []) + entries];
    }

    /** The failure policy, which the database runs before it writes the row. */
    method Trigger(row: Row, was: Status, now: int, p: Policies) returns (saved: Row)
      ensures saved == if row.action.status.Failed? && !was.Failed? then Policy(row, p.classify, now, p.spread) else row
    {
      saved := row;
      if row.action.status.Failed? && !was.Failed? {
        var n := row.retryCount + 1;
        var cls := p.classify(row.action.error);
        if cls.Transient? && n <= row.maxRetries {
          saved := row.(retryCount := n, failureClass := Some(cls), nextAttemptAt := Some(now + Delay(n, p.spread)), deadLetteredAt := None);
        } else {
          saved := row.(retryCount := n, failureClass := Some(cls), nextAttemptAt := None, deadLetteredAt := Some(now));
        }
      }
    }

    method DecideAction(id: Id, user: string, role: string, approving: bool, context: Context, now: int) returns (failure: Option<Error>)
      modifies this
      ensures (Tables(), failure) == Decide(old(Tables()), id, user, role, approving, context, now)
    {
      if !Approver(role) {
        return Some(NotManager);
      }
      if approving && id in rows && rows[id].action.status.Pending? {
        if !context.supported {
          return Some(Unsupported);
        }
        if Contested(Tables(), id, rows[id]) || context.outsideChange || ChangedRecently(Tables(), id, rows[id], now) {
          return Some(Collision);
        }
      }
      if id in rows && rows[id].action.status.Pending? && rows[id].expiresAt > now && rows[id].kind != "flag" {
        var row := rows[id];
        if approving {
          row := row.(action := row.action.(status := Approved, approvedBy := Some(user), approvedAt := Some(now)));
        } else {
          row := row.(action := row.action.(status := Rejected));
        }
        Save(id, row.(decidedBy := Some(user)), [if approving then WasApproved(user, role, now) else WasRejected(user, role)]);
        return None;
      }
      if id !in rows {
        return Some(Missing);
      }
      if rows[id].kind == "flag" {
        return Some(IsFlag);
      }
      if !rows[id].action.status.Pending? {
        return Some(AlreadyDecided);
      }
      return Some(TooOld);
    }

    /** Reads, then writes, and only then compares the baseline with what was read. */
    method ExecuteAction(id: Id, provider: Provider, now: int, p: Policies) returns (failure: Option<Error>)
      modifies this
      ensures (Tables(), failure) == Execute(old(Tables()), id, provider, now, p)
    {
      if id !in rows {
        return Some(Missing);
      }
      if !rows[id].action.status.Approved? {
        return Some(Refused(Illegal));
      }
      var row := rows[id];
      var subject := new ActionObject(row.action);
      var written: seq<Entry> := [];
      var refused;
      if provider.read.Err? {
        refused := subject.ApplyIt(now, row.action.before, false, provider.read.error, DRIFT);
      } else {
        written := [Wrote(row.action.after)];
        if provider.write.Err? {
          refused := subject.ApplyIt(now, row.action.before, false, provider.write.error, DRIFT);
        } else {
          refused := subject.ApplyIt(now, provider.read.value, true, "", DRIFT);
        }
      }
      if refused.Some? {
        return Some(Refused(refused.value));
      }
      var saved := Trigger(row.(action := subject.Current()), row.action.status, now, p);
      Save(id, saved, written + [Outcome(subject.Current(), now)]);
      return None;
    }

    method BlockAction(id: Id, error: string, now: int, p: Policies) returns (failure: Option<Error>)
      modifies this
      ensures (Tables(), failure) == Block(old(Tables()), id, error, now, p)
    {
      if id !in rows {
        return Some(Missing);
      }
      var row := rows[id];
      var subject := new ActionObject(row.action);
      var refused := subject.ApplyIt(now, row.action.before, false, "guardrail: " + error, DRIFT);
      if refused.Some? {
        return Some(Refused(refused.value));
      }
      var saved := Trigger(row.(action := subject.Current()), row.action.status, now, p);
      Save(id, saved, [WasFailed]);
      return None;
    }

    /** The first pass: blocked rows fail without a client. */
    method FailBlocked(plans: seq<Plan>, now: int, classify: Classifier) returns (failed: nat)
      requires Batch(Tables(), plans) && rows.Keys == trail.Keys
      modifies this
      ensures failed == Blocked(plans)
      ensures Progress(old(Tables()), Tables(), plans, 0, true, now)
    {
      hide Done, SameRow, Execute, Block, Progress, Batch;
      failed := 0;
      ghost var start := Tables();
      Begin(start, plans, now);
      var i := 0;
      while i < |plans|
        invariant i <= |plans| && failed == Blocked(plans[..i])
        invariant Progress(start, Tables(), plans, i, false, now)
      {
        BlockedGrows(plans, i);
        if plans[i].blocked.None? {
          Skip(start, Tables(), plans, i, false, now);
        } else {
          ghost var mid := Tables();
          Unhandled(start, mid, plans, i, false, now);
          BlockDone(mid, plans[i], now, classify);
          var refused := BlockAction(plans[i].id, plans[i].blocked.value, now, Policies(classify, plans[i].spread));
          AfterOne(start, mid, Tables(), plans, i, false, now);
          failed := failed + 1;
        }
        i := i + 1;
      }
      SecondPass(start, Tables(), plans, now);
      assert plans[..|plans|] == plans;
    }

    /** The second pass: the other rows go to the provider one by one. */
    method SendRest(ghost start: State, plans: seq<Plan>, now: int, classify: Classifier) returns (applied: nat, failed: nat)
      requires Progress(start, Tables(), plans, 0, true, now)
      modifies this
      ensures applied + failed + Blocked(plans) == |plans|
      ensures Progress(start, Tables(), plans, |plans|, true, now)
    {
      hide Done, SameRow, Execute, Block, Progress, Batch;
      applied, failed := 0, 0;
      var i := 0;
      while i < |plans|
        invariant i <= |plans| && applied + failed == i - Blocked(plans[..i])
        invariant Progress(start, Tables(), plans, i, true, now)
      {
        BlockedGrows(plans, i);
        if plans[i].blocked.Some? {
          Skip(start, Tables(), plans, i, true, now);
        } else {
          ghost var mid := Tables();
          Unhandled(start, mid, plans, i, true, now);
          ExecuteDone(mid, plans[i], now, classify);
          var refused := ExecuteAction(plans[i].id, plans[i].provider, now, Policies(classify, plans[i].spread));
          AfterOne(start, mid, Tables(), plans, i, true, now);
          if rows[plans[i].id].action.status.Applied? {
            applied := applied + 1;
          } else {
            failed := failed + 1;
          }
        }
        i := i + 1;
      }
      assert plans[..|plans|] == plans;
    }

    /**
     A worker pass: first the blocked rows fail, then the others go to the provider one by one. Without the client's
     credentials the pass ends in between, and the others stay approved.
     */
    method RunBatch(plans: seq<Plan>, client: Client, now: int, classify: Classifier) returns (applied: nat, failed: nat)
      requires Batch(Tables(), plans) && rows.Keys == trail.Keys
      modifies this
      ensures !(client.Loaded? && client.failure.Some?) ==> applied + failed == |plans|
      ensures client.Loaded? && client.failure.Some? ==> applied == 0 && failed == Blocked(plans)
      ensures rows.Keys == trail.Keys == old(rows).Keys
      ensures forall i | 0 <= i < |plans| ::
                if plans[i].blocked.None? && Unavailable(client) then SameRow(old(Tables()), Tables(), plans[i].id)
                else Done(old(Tables()), Tables(), plans[i], now)
      ensures forall id | id in old(rows) && (forall i | 0 <= i < |plans| :: plans[i].id != id) :: SameRow(old(Tables()), Tables(), id)
    {
      hide Done, SameRow, Progress;
      applied := 0;
      failed := FailBlocked(plans, now, classify);
      if Unavailable(client) {
        Ended(old(Tables()), Tables(), plans, 0, now);
        return;
      }
      var more;
      applied, more := SendRest(old(Tables()), plans, now, classify);
      failed := failed + more;
      Ended(old(Tables()), Tables(), plans, |plans|, now);
    }

    method JudgeAction(id: Id, outcome: string, now: int) returns (failure: Option<Error>)
      modifies this
      ensures (Tables(), failure) == Judge(old(Tables()), id, outcome, now)
    {
      if id !in rows {
        return Some(Missing);
      }
      var subject := new ActionObject(rows[id].action);
      var refused := subject.VerifyIt(now, outcome);
      if refused.Some? {
        return Some(Refused(refused.value));
      }
      Save(id, rows[id].(action := subject.Current()), [WasVerified(now)]);
      return None;
    }

    method UndoAction(id: Id, provider: Result<Value, string>, now: int) returns (failure: Option<Error>)
      modifies this
      ensures (Tables(), failure) == Undo(old(Tables()), id, provider, now)
    {
      if id !in rows {
        return Some(Missing);
      }
      var subject := new ActionObject(rows[id].action);
      var refused := subject.RollbackIt(now, provider.Ok?);
      if refused.Some? {
        return Some(Refused(refused.value));
      }
      if provider.Ok? {
        Save(id, rows[id].(action := subject.Current()), [WasRolledBack(now)]);
      } else {
        Save(id, rows[id].(action := subject.Current().(error := Some(provider.error))), []);
      }
      return None;
    }

    /** Rows chosen as due; an error undoes the batch. */
    method ReleaseDue(ids: seq<Id>) returns (failure: Option<Error>)
      modifies this
      ensures match ReleaseAll(old(Tables()), ids)
              case Ok(t) => failure == None && Tables() == t
              case Err(e) => failure == Some(e) && Tables() == old(Tables())
    {
      var before, beforeTrail := rows, trail;
      for i := 0 to |ids|
        invariant ReleaseAll(old(Tables()), ids[..i]) == Ok(Tables())
      {
        assert ids[..i + 1][..i] == ids[..i];
        var id := ids[i];
        assert ReleaseAll(old(Tables()), ids[..i + 1]) == Release(Tables(), id);
        if id !in rows || (rows[id].action.status.Failed? && rows[id].kind != "flag" && Contested(Tables(), id, rows[id])) {
          failure := Some(if id !in rows then Missing else NotUnique);
          ErrorStays(old(Tables()), ids, i + 1);
          rows, trail := before, beforeTrail;
          return;
        }
        if rows[id].action.status.Failed? {
          Save(id, rows[id].(action := Waiting(rows[id].action), nextAttemptAt := None), [Released]);
        }
      }
      assert ids[..|ids|] == ids;
      return None;
    }

    method ReplayAction(id: Id, actor: string, role: string) returns (failure: Option<Error>)
      modifies this
      ensures (Tables(), failure) == Replay(old(Tables()), id, actor, role)
    {
      if !Approver(role) {
        return Some(NotManager);
      }
      if !(id in rows && rows[id].action.status.Failed? && rows[id].deadLetteredAt.Some?) {
        return Some(NotDeadLettered);
      }
      var row := rows[id];
      if row.kind != "flag" && Contested(Tables(), id, row) {
        return Some(NotUnique);
      }
      Save(id, row.(action := Waiting(row.action), nextAttemptAt := None, deadLetteredAt := None, replayCount := row.replayCount + 1),
           [Replayed(actor, role)]);
      return None;
    }

    method RequeueAction(id: Id) returns (failure: Option<Error>)
      modifies this
      ensures (Tables(), failure) == Requeue(old(Tables()), id)
    {
      if id !in rows {
        return Some(Missing);
      }
      var subject := new ActionObject(rows[id].action);
      var refused := subject.RetryIt();
      if refused.Some? {
        return Some(Refused(refused.value));
      }
      if rows[id].kind != "flag" && Contested(Tables(), id, rows[id]) {
        return Some(NotUnique);
      }
      Save(id, rows[id].(action := subject.Current()), [Requeued]);
      return None;
    }
  }

  /** A batch that fails at some row fails as a whole. */
  lemma {:induction false} ErrorStays(s: State, ids: seq<Id>, i: nat)
    requires i <= |ids| && ReleaseAll(s, ids[..i]).Err?
    ensures ReleaseAll(s, ids) == ReleaseAll(s, ids[..i])
    decreases |ids|
  {
    hide Release;
    if i < |ids| {
      assert ids[..|ids| - 1][..i] == ids[..i];
      ErrorStays(s, ids[..|ids| - 1], i);
    } else {
      assert ids[..i] == ids;
    }
  }

  function Blocked(plans: seq<Plan>): nat {
    if plans == [] then 0 else Blocked(plans[..|plans| - 1]) + if plans[|plans| - 1].blocked.Some? then 1 else 0
  }

  lemma BlockedGrows(plans: seq<Plan>, i: nat)
    requires i < |plans|
    ensures Blocked(plans[..i + 1]) == Blocked(plans[..i]) + if plans[i].blocked.Some? then 1 else 0
  {
    assert plans[..i + 1][..i] == plans[..i];
  }

  /** The first pass handles the blocked rows, the second one the others. */
  predicate Handled(plan: Plan, k: nat, i: nat, second: bool) {
    if plan.blocked.Some? then second || k < i else second && k < i
  }

  /** How far a pass has come: handled rows are done and all others are as they were. */
  ghost predicate Progress(start: State, t: State, plans: seq<Plan>, i: nat, second: bool, now: int) {
    && Batch(start, plans) && start.rows.Keys == start.trail.Keys == t.rows.Keys == t.trail.Keys
    && (forall k | 0 <= k < |plans| :: if Handled(plans[k], k, i, second) then Done(start, t, plans[k], now) else SameRow(start, t, plans[k].id))
    && (forall id | id in start.rows && (forall k | 0 <= k < |plans| :: plans[k].id != id) :: SameRow(start, t, id))
  }

  lemma Begin(s: State, plans: seq<Plan>, now: int)
    requires Batch(s, plans) && s.rows.Keys == s.trail.Keys
    ensures Progress(s, s, plans, 0, false, now)
  {
  }

  lemma SecondPass(start: State, t: State, plans: seq<Plan>, now: int)
    requires Progress(start, t, plans, |plans|, false, now)
    ensures Progress(start, t, plans, 0, true, now)
  {
    hide Done, SameRow;
  }

  /** Where the second pass starts and where it ends. */
  lemma Ended(start: State, t: State, plans: seq<Plan>, i: nat, now: int)
    requires Progress(start, t, plans, i, true, now) && (i == 0 || i == |plans|)
    ensures t.rows.Keys == t.trail.Keys == start.rows.Keys == start.trail.Keys && Batch(start, plans)
    ensures forall k | 0 <= k < |plans| ::
              if plans[k].blocked.None? && i == 0 then SameRow(start, t, plans[k].id) else Done(start, t, plans[k], now)
    ensures forall id | id in start.rows && (forall k | 0 <= k < |plans| :: plans[k].id != id) :: SameRow(start, t, id)
  {
    hide Done, SameRow;
  }

  lemma Skip(start: State, t: State, plans: seq<Plan>, i: nat, second: bool, now: int)
    requires i < |plans| && Progress(start, t, plans, i, second, now) && plans[i].blocked.Some? == second
    ensures Progress(start, t, plans, i + 1, second, now)
  {
    hide Done, SameRow;
  }

  lemma Unhandled(start: State, t: State, plans: seq<Plan>, i: nat, second: bool, now: int)
    requires i < |plans| && Progress(start, t, plans, i, second, now) && plans[i].blocked.Some? != second
    ensures var id := plans[i].id;
            && id in start.rows && id in start.trail && SameRow(start, t, id)
            && id in t.rows && id in t.trail && t.rows[id].action.status.Approved?
  {
    hide Done;
  }

  /** One handled row leaves what was done to the others as it was. */
  lemma AfterOne(start: State, mid: State, end: State, plans: seq<Plan>, i: nat, second: bool, now: int)
    requires i < |plans| && Progress(start, mid, plans, i, second, now) && plans[i].blocked.Some? != second
    requires mid.rows.Keys == end.rows.Keys && mid.trail.Keys == end.trail.Keys
    requires plans[i].id in mid.rows && plans[i].id in mid.trail && Done(mid, end, plans[i], now)
    requires forall id | id in mid.rows && id in mid.trail && id != plans[i].id :: SameRow(mid, end, id)
    ensures Progress(start, end, plans, i + 1, second, now)
  {
    hide Done;
    forall k | 0 <= k < |plans|
      ensures if Handled(plans[k], k, i + 1, second) then Done(start, end, plans[k], now) else SameRow(start, end, plans[k].id)
    {
      if k == i {
        DoneFrom(start, mid, end, plans[k], now);
      } else {
        assert plans[k].id != plans[i].id by {
          assert k < i ==> plans[k].id != plans[i].id;
        }
        assert SameRow(mid, end, plans[k].id);
        if Handled(plans[k], k, i, second) {
          DoneStays(start, mid, end, plans[k], now);
        }
      }
    }
  }

  lemma DoneFrom(start: State, mid: State, end: State, plan: Plan, now: int)
    requires plan.id in start.rows && plan.id in start.trail && SameRow(start, mid, plan.id) && Done(mid, end, plan, now)
    ensures Done(start, end, plan, now)
  {
  }

  lemma DoneStays(start: State, mid: State, end: State, plan: Plan, now: int)
    requires plan.id in start.rows && plan.id in start.trail && Done(start, mid, plan, now) && SameRow(mid, end, plan.id)
    ensures Done(start, end, plan, now)
  {
  }
}
