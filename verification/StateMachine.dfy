/**
 The transitions of one proposed action. The object is updated in place; each method is
 proved against a function on the object's value, which either gives the new value or
 the error that leaves the object alone.
 */
module StateMachine {
  import opened Wrappers

  datatype Status = Pending | Approved | Applied | Verified | Rejected | Expired | Failed | RolledBack

  /** A JSON object; the empty one is false in a condition. */
  type Value = map<string, string>

  datatype Action = Action(
    requestedBy: Option<string>, requestedAt: int, after: Value,
    status: Status, before: Option<Value>, approvedBy: Option<string>, approvedAt: Option<int>, appliedAt: Option<int>,
    verifiedAt: Option<int>, rolledBackAt: Option<int>, outcome: Option<string>, error: Option<string>)

  datatype TransitionError = Illegal | NotApprover | ProposalExpired | SelfApproval | NotYetExpired | TooEarly | UnknownOutcome | NoBaseline

  const DAY := 86400
  const PROPOSAL_TTL := 2 * DAY
  const VERIFY_AFTER := 7 * DAY

  predicate Terminal(s: Status) {
    s.Verified? || s.Rejected? || s.Expired? || s.RolledBack?
  }

  predicate Allowed(s: Status, target: Status) {
    match s
    case Pending => target.Approved? || target.Rejected? || target.Expired?
    case Approved => target.Applied? || target.Failed? || target.Rejected? || target.Expired?
    case Applied => target.Verified? || target.RolledBack?
    case Failed => target.Pending?
    case _ => false
  }

  predicate Approver(role: string) {
    role == "owner" || role == "admin"
  }

  predicate KnownOutcome(outcome: string) {
    outcome in {"improved", "worsened", "neutral", "inconclusive", "drifted"}
  }

  predicate Drifted(before: Option<Value>, live: Option<Value>) {
    before.Some? && live.Some? && live.value != before.value
  }

  // -------------------------------------------------------- what they mean

  function Approve(a: Action, approver: string, role: string, now: int, allowSelf: bool): Result<Action, TransitionError> {
    if !Allowed(a.status, Approved) then Err(Illegal)
    else if !Approver(role) then Err(NotApprover)
    else if now > a.requestedAt + PROPOSAL_TTL then Err(ProposalExpired)
    else if !allowSelf && a.requestedBy == Some(approver) then Err(SelfApproval)
    else Ok(a.(status := Approved, approvedBy := Some(approver), approvedAt := Some(now)))
  }

  function Reject(a: Action, actor: string, now: int, reason: string): Result<Action, TransitionError> {
    if !Allowed(a.status, Rejected) then Err(Illegal)
    else Ok(a.(status := Rejected, approvedBy := Some(actor), approvedAt := Some(now), error := if reason == "" then None else Some(reason)))
  }

  function Expire(a: Action, now: int): Result<Action, TransitionError> {
    if !Allowed(a.status, Expired) then Err(Illegal)
    else if now <= a.requestedAt + PROPOSAL_TTL then Err(NotYetExpired)
    else Ok(a.(status := Expired))
  }

  function Apply(a: Action, now: int, live: Option<Value>, apiOk: bool, error: string, drift: string): Result<Action, TransitionError> {
    if !Allowed(a.status, if apiOk then Applied else Failed) then Err(Illegal)
    else if apiOk && Drifted(a.before, live) then Ok(a.(status := Failed, error := Some(drift)))
    else if !apiOk then Ok(a.(status := Failed, error := Some(if error == "" then "amazon api call failed" else error)))
    else Ok(a.(before := if live.Some? && live.value != map[] then live else a.before, status := Applied, appliedAt := Some(now)))
  }

  function Verify(a: Action, now: int, outcome: string): Result<Action, TransitionError> {
    if !Allowed(a.status, Verified) || a.appliedAt.None? then Err(Illegal)
    else if now - a.appliedAt.value < VERIFY_AFTER then Err(TooEarly)
    else if !KnownOutcome(outcome) then Err(UnknownOutcome)
    else Ok(a.(status := Verified, verifiedAt := Some(now), outcome := Some(outcome)))
  }

  function Rollback(a: Action, now: int, apiOk: bool): Result<Action, TransitionError> {
    if !Allowed(a.status, RolledBack) then Err(Illegal)
    else if a.before.None? then Err(NoBaseline)
    else if !apiOk then Ok(a.(error := Some("rollback api call failed")))
    else Ok(a.(status := RolledBack, rolledBackAt := Some(now)))
  }

  function Retry(a: Action): Result<Action, TransitionError> {
    if !Allowed(a.status, Pending) then Err(Illegal)
    else Ok(a.(status := Pending, error := None, approvedBy := None, approvedAt := None))
  }

  // ------------------------------------------------------------ the object

  class ActionObject {
    const requestedBy: Option<string>
    const requestedAt: int
    const after: Value
    var status: Status
    var before: Option<Value>
    var approvedBy: Option<string>
    var approvedAt: Option<int>
    var appliedAt: Option<int>
    var verifiedAt: Option<int>
    var rolledBackAt: Option<int>
    var outcome: Option<string>
    var error: Option<string>

    function Current(): Action
      reads this
    {
      Action(requestedBy, requestedAt, after, status, before, approvedBy, approvedAt, appliedAt, verifiedAt, rolledBackAt, outcome, error)
    }

    constructor (a: Action)
      ensures Current() == a
    {
      requestedBy, requestedAt, after := a.requestedBy, a.requestedAt, a.after;
      status, before, approvedBy, approvedAt, appliedAt := a.status, a.before, a.approvedBy, a.approvedAt, a.appliedAt;
      verifiedAt, rolledBackAt, outcome, error := a.verifiedAt, a.rolledBackAt, a.outcome, a.error;
    }

    /** The value after a transition: the new one, or the old one after an error. */
    ghost predicate Became(was: Action, r: Result<Action, TransitionError>, failure: Option<TransitionError>)
      reads this
    {
      if r.Ok? then failure == None && Current() == r.value else failure == Some(r.error) && Current() == was
    }

    method ApproveIt(approver: string, role: string, now: int, allowSelf: bool) returns (failure: Option<TransitionError>)
      modifies this
      ensures Became(old(Current()), Approve(old(Current()), approver, role, now, allowSelf), failure)
    {
      if !Allowed(status, Approved) {
        return Some(Illegal);
      }
      if !Approver(role) {
        return Some(NotApprover);
      }
      if now > requestedAt + PROPOSAL_TTL {
        return Some(ProposalExpired);
      }
      if !allowSelf && requestedBy == Some(approver) {
        return Some(SelfApproval);
      }
      status, approvedBy, approvedAt := Approved, Some(approver), Some(now);
      return None;
    }

    method RejectIt(actor: string, now: int, reason: string) returns (failure: Option<TransitionError>)
      modifies this
      ensures Became(old(Current()), Reject(old(Current()), actor, now, reason), failure)
    {
      if !Allowed(status, Rejected) {
        return Some(Illegal);
      }
      status, approvedBy, approvedAt := Rejected, Some(actor), Some(now);
      error := if reason == "" then None else Some(reason);
      return None;
    }

    method ExpireIt(now: int) returns (failure: Option<TransitionError>)
      modifies this
      ensures Became(old(Current()), Expire(old(Current()), now), failure)
    {
      if !Allowed(status, Expired) {
        return Some(Illegal);
      }
      if now <= requestedAt + PROPOSAL_TTL {
        return Some(NotYetExpired);
      }
      status := Expired;
      return None;
    }

    method ApplyIt(now: int, live: Option<Value>, apiOk: bool, message: string, drift: string) returns (failure: Option<TransitionError>)
      modifies this
      ensures Became(old(Current()), Apply(old(Current()), now, live, apiOk, message, drift), failure)
    {
      if !Allowed(status, if apiOk then Applied else Failed) {
        return Some(Illegal);
      }
      if apiOk && live.Some? && before.Some? {
        if live.value != before.value {
          status, error := Failed, Some(drift);
          return None;
        }
      }
      if !apiOk {
        status, error := Failed, Some(if message == "" then "amazon api call failed" else message);
        return None;
      }
      before := if live.Some? && live.value != map[] then live else before;
      status, appliedAt := Applied, Some(now);
      return None;
    }

    method VerifyIt(now: int, result: string) returns (failure: Option<TransitionError>)
      modifies this
      ensures Became(old(Current()), Verify(old(Current()), now, result), failure)
    {
      if !Allowed(status, Verified) || appliedAt.None? {
        return Some(Illegal);
      }
      if now - appliedAt.value < VERIFY_AFTER {
        return Some(TooEarly);
      }
      if !KnownOutcome(result) {
        return Some(UnknownOutcome);
      }
      status, verifiedAt, outcome := Verified, Some(now), Some(result);
      return None;
    }

    method RollbackIt(now: int, apiOk: bool) returns (failure: Option<TransitionError>)
      modifies this
      ensures Became(old(Current()), Rollback(old(Current()), now, apiOk), failure)
    {
      if !Allowed(status, RolledBack) {
        return Some(Illegal);
      }
      if before.None? {
        return Some(NoBaseline);
      }
      if !apiOk {
        error := Some("rollback api call failed");
        return None;
      }
      status, rolledBackAt := RolledBack, Some(now);
      return None;
    }

    method RetryIt() returns (failure: Option<TransitionError>)
      modifies this
      ensures Became(old(Current()), Retry(old(Current())), failure)
    {
      if !Allowed(status, Pending) {
        return Some(Illegal);
      }
      status, error, approvedBy, approvedAt := Pending, None, None, None;
      return None;
    }
  }
}
