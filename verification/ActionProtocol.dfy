/**
 What the action lifecycle keeps over every run of decisions, worker passes, expiries,
 verifications, rollbacks and retries.
 */
module ActionProtocol {
  import opened Wrappers
  import opened StateMachine
  import opened ActionLifecycle

  datatype Step =
    | Offer(id: Id, row: Row)
    | Choose(id: Id, user: string, role: string, approving: bool, context: Context, now: int)
    | Run(id: Id, provider: Provider, now: int, p: Policies)
    | Stop(id: Id, error: string, now: int, p: Policies)
    | Drop(id: Id, now: int)
    | Check(id: Id, outcome: string, now: int)
    | Revert(id: Id, answer: Result<Value, string>, now: int)
    | Free(ids: seq<Id>, now: int)
    | Resume(id: Id, actor: string, role: string)
    | Restart(id: Id)

  /** New proposals get fresh ids, and only due rows are released, each once. */
  ghost predicate Enabled(s: State, step: Step) {
    match step
    case Offer(id, row) => id !in s.rows && Fresh(row)
    case Free(ids, now) => (forall id | id in ids :: Due(s, id, now)) && forall i, j | 0 <= i < j < |ids| :: ids[i] != ids[j]
    case _ => true
  }

  function Next(s: State, step: Step): State {
    match step
    case Offer(id, row) => Propose(s, id, row)
    case Choose(id, user, role, approving, context, now) => Decide(s, id, user, role, approving, context, now).0
    case Run(id, provider, now, p) => Execute(s, id, provider, now, p).0
    case Stop(id, error, now, p) => Block(s, id, error, now, p).0
    case Drop(id, now) => Lapse(s, id, now).0
    case Check(id, outcome, now) => Judge(s, id, outcome, now).0
    case Revert(id, answer, now) => Undo(s, id, answer, now).0
    case Free(ids, _) => (match ReleaseAll(s, ids) case Ok(t) => t case Err(_) => s)
    case Resume(id, actor, role) => Replay(s, id, actor, role).0
    case Restart(id) => Requeue(s, id).0
  }

  /** Whatever a user or the worker does to an action is a step, at any time. */
  lemma AnyTransaction(s: State, id: Id, user: string, role: string, approving: bool, context: Context, provider: Provider, p: Policies,
                       text: string, answer: Result<Value, string>, now: int)
    ensures Enabled(s, Choose(id, user, role, approving, context, now)) && Enabled(s, Run(id, provider, now, p)) && Enabled(s, Stop(id, text, now, p))
    ensures Enabled(s, Drop(id, now)) && Enabled(s, Check(id, text, now)) && Enabled(s, Revert(id, answer, now))
    ensures Enabled(s, Resume(id, user, role)) && Enabled(s, Restart(id)) && (Due(s, id, now) ==> Enabled(s, Free([id], now)))
    ensures Next(s, Choose(id, user, role, approving, context, now)) == Decide(s, id, user, role, approving, context, now).0
    ensures Next(s, Run(id, provider, now, p)) == Execute(s, id, provider, now, p).0
  {
    hide Due, Decide, Execute;
  }

  ghost predicate Follows(s: State, t: State) {
    exists step :: Enabled(s, step) && t == Next(s, step)
  }

  ghost predicate Reached(states: seq<State>) {
    && states != [] && states[0] == State(map[], map[])
    && forall i | 0 < i < |states| :: Follows(states[i - 1], states[i])
  }

  // ----------------------------------------------------- one action's trail

  /** The action waits for a decision after these. */
  predicate Waits(e: Entry) {
    e.Proposed? || e.Released? || e.Replayed? || e.Requeued?
  }

  predicate EntryAt(h: seq<Entry>, i: nat)
    requires i < |h|
  {
    match h[i]
    case Proposed => i == 0
    case WasApproved(_, role, _) => i > 0 && Waits(h[i - 1]) && Approver(role)
    case WasRejected(_, role) => i > 0 && Waits(h[i - 1]) && Approver(role)
    case WasExpired(_) => i > 0 && (Waits(h[i - 1]) || h[i - 1].WasApproved?)
    case Wrote(_) => i > 0 && h[i - 1].WasApproved?
    case WasApplied(_) => i > 0 && h[i - 1].Wrote?
    case WasFailed => i > 0 && (h[i - 1].Wrote? || h[i - 1].WasApproved?)
    case Released => i > 0 && h[i - 1].WasFailed?
    case Replayed(_, role) => i > 0 && h[i - 1].WasFailed? && Approver(role)
    case Requeued => i > 0 && h[i - 1].WasFailed?
    case WasVerified(at) => i > 0 && h[i - 1].WasApplied? && at - h[i - 1].at >= VERIFY_AFTER
    case WasRolledBack(_) => i > 0 && h[i - 1].WasApplied?
  }

  ghost predicate Legal(h: seq<Entry>) {
    forall i: nat | i < |h| :: EntryAt(h, i)
  }

  function StatusAfter(e: Entry): Status {
    match e
    case WasApproved(_, _, _) => Approved
    case Wrote(_) => Approved
    case WasRejected(_, _) => Rejected
    case WasExpired(_) => Expired
    case WasApplied(_) => Applied
    case WasFailed => Failed
    case WasVerified(_) => Verified
    case WasRolledBack(_) => RolledBack
    case _ => Pending
  }

  function Failures(h: seq<Entry>): nat {
    if h == [] then 0 else Failures(h[..|h| - 1]) + if h[|h| - 1].WasFailed? then 1 else 0
  }

  function Releases(h: seq<Entry>): nat {
    if h == [] then 0 else Releases(h[..|h| - 1]) + if h[|h| - 1].Released? then 1 else 0
  }

  /** Times the action went back to the queue, for whatever reason. */
  function Returns(h: seq<Entry>): nat {
    if h == [] then 0
    else
      var e := h[|h| - 1];
      Returns(h[..|h| - 1]) + if e.Released? || e.Replayed? || e.Requeued? then 1 else 0
  }

  /** Times the status changed after the proposal. */
  function Changes(h: seq<Entry>): nat {
    if h == [] then 0
    else
      var e := h[|h| - 1];
      Changes(h[..|h| - 1]) + if e.Proposed? || e.Wrote? then 0 else 1
  }

  // --------------------------------------------------------- the invariant

  /** Findings are never approved, approvals are in time, and what is written is what was proposed. */
  ghost predicate EntriesOk(h: seq<Entry>, row: Row) {
    && (forall i | 0 <= i < |h| && h[i].WasApproved? :: h[i].at < row.expiresAt && row.kind != "flag")
    && (forall i | 0 <= i < |h| && h[i].Wrote? :: h[i].value == row.action.after)
  }

  ghost predicate TrailOk(h: seq<Entry>, row: Row) {
    && h != [] && Legal(h) && !h[|h| - 1].Wrote? && StatusAfter(h[|h| - 1]) == row.action.status
    && EntriesOk(h, row)
    && (row.action.status.Applied? ==> row.action.appliedAt == Some(h[|h| - 1].at))
  }

  predicate StatusOk(row: Row) {
    var a := row.action;
    && (row.kind == "flag" ==> a.status.Pending? || a.status.Rejected? || a.status.Expired?)
    && (a.status.Verified? ==> a.appliedAt.Some? && a.verifiedAt.Some? && a.verifiedAt.value - a.appliedAt.value >= VERIFY_AFTER)
    && (a.status.RolledBack? ==> a.before.Some? && a.appliedAt.Some?)
    && (a.status.Applied? ==> a.appliedAt.Some?)
  }

  predicate RetriesOk(h: seq<Entry>, row: Row) {
    && row.retryCount == Failures(h)
    && (row.action.status.Failed? && row.deadLetteredAt.None? ==> row.retryCount <= row.maxRetries)
    && Releases(h) <= row.maxRetries
    && Releases(h) + (if row.action.status.Failed? then 1 else 0) <= row.retryCount
  }

  ghost predicate RowOk(h: seq<Entry>, row: Row) {
    TrailOk(h, row) && StatusOk(row) && RetriesOk(h, row)
  }

  ghost predicate RowsOk(s: State) {
    s.rows.Keys == s.trail.Keys && forall id | id in s.rows :: RowOk(s.trail[id], s.rows[id])
  }

  ghost predicate OneActive(s: State) {
    forall a, b | a in s.rows && b in s.rows && Active(s.rows[a]) && Active(s.rows[b]) && SameEntity(s.rows[a], s.rows[b]) :: a == b
  }

  ghost predicate Inv(s: State) {
    RowsOk(s) && OneActive(s)
  }

  lemma LegalGrows(h: seq<Entry>, e: Entry)
    requires Legal(h) && EntryAt(h + [e], |h|)
    ensures Legal(h + [e])
  {
    var all := h + [e];
    forall i: nat | i < |all|
      ensures EntryAt(all, i)
    {
      if i < |h| {
        assert EntryAt(h, i);
        assert i > 0 ==> all[i - 1] == h[i - 1];
      }
    }
  }

  lemma CountsGrow(h: seq<Entry>, e: Entry)
    ensures Failures(h + [e]) == Failures(h) + (if e.WasFailed? then 1 else 0)
    ensures Releases(h + [e]) == Releases(h) + (if e.Released? then 1 else 0)
  {
  }

  /** A row may move to a new state that its trail allows. */
  ghost predicate MayMove(h: seq<Entry>, row: Row, e: Entry, moved: Row) {
    && EntryAt(h + [e], |h|) && !e.Wrote? && StatusAfter(e) == moved.action.status
    && moved.expiresAt == row.expiresAt && moved.kind == row.kind && moved.action.after == row.action.after
    && (e.WasApproved? ==> e.at < row.expiresAt && row.kind != "flag")
    && (moved.action.status.Applied? ==> moved.action.appliedAt == Some(e.at))
  }

  lemma TrailMoves(h: seq<Entry>, row: Row, e: Entry, moved: Row)
    requires Legal(h) && EntriesOk(h, row)
    requires MayMove(h, row, e, moved)
    ensures TrailOk(h + [e], moved)
  {
    hide EntryAt, StatusAfter;
    LegalGrows(h, e);
  }

  lemma PutKeeps(s: State, id: Id, row: Row, entries: seq<Entry>)
    requires Inv(s)
    requires RowOk((if id in s.trail then s.trail[id] else []) + entries, row)
    requires Active(row) ==> !Contested(s, id, row)
    ensures Inv(Put(s, id, row, entries))
  {
    hide RowOk, Active, SameEntity;
    var t := Put(s, id, row, entries);
    forall a, b | a in t.rows && b in t.rows && Active(t.rows[a]) && Active(t.rows[b]) && SameEntity(t.rows[a], t.rows[b])
      ensures a == b
    {
      SameEntitySymmetric();
    }
  }

  lemma SameEntitySymmetric()
    ensures forall a, b :: SameEntity(a, b) <==> SameEntity(b, a)
  {
  }

  // -------------------------------------------------------------- one step

  lemma OfferKeeps(s: State, id: Id, row: Row)
    requires Inv(s) && id !in s.rows && Fresh(row)
    ensures Inv(Propose(s, id, row))
  {
    hide OneActive, RowOk, SameEntity;
    if Propose(s, id, row) != s {
      FirstEntry(row);
      var none: seq<Entry> := [];
      assert none + [Proposed] == [Proposed];
      PutKeeps(s, id, row, [Proposed]);
    }
  }

  lemma FirstEntry(row: Row)
    requires Fresh(row)
    ensures RowOk([Proposed], row)
  {
  }

  lemma Decidable(h: seq<Entry>, row: Row, e: Entry, moved: Row)
    requires RowOk(h, row) && row.action.status.Pending? && row.kind != "flag"
    requires && moved.expiresAt == row.expiresAt && moved.kind == row.kind && moved.action.after == row.action.after && moved.retryCount == row.retryCount
             && moved.maxRetries == row.maxRetries && moved.deadLetteredAt == row.deadLetteredAt
    requires || (e.WasApproved? && Approver(e.role) && e.at < row.expiresAt && moved.action.status.Approved?)
             || (e.WasRejected? && Approver(e.role) && moved.action.status.Rejected?)
    ensures RowOk(h + [e], moved)
  {
    hide Approver;
    assert EntryAt(h, |h| - 1);
    CountsGrow(h, e);
    TrailMoves(h, row, e, moved);
  }

  lemma DecideKeeps(s: State, id: Id, user: string, role: string, approving: bool, context: Context, now: int)
    requires Inv(s)
    ensures Inv(Decide(s, id, user, role, approving, context, now).0)
  {
    hide OneActive, RowOk, ChangedRecently, Approver;
    var (t, failure) := Decide(s, id, user, role, approving, context, now);
    if failure.None? {
      var row := s.rows[id];
      var e := if approving then WasApproved(user, role, now) else WasRejected(user, role);
      Decidable(s.trail[id], row, e, t.rows[id]);
      if approving {
        MovedIsUncontested(s, id, t.rows[id]);
      }
      PutKeeps(s, id, t.rows[id], [e]);
    }
  }

  lemma FailureKept(h: seq<Entry>, row: Row, written: seq<Entry>, saved: Row)
    requires RowOk(h, row) && row.action.status.Approved?
    requires written == [] || written == [Wrote(row.action.after)]
    requires saved.action.status.Failed? && saved.action.after == row.action.after && saved.kind == row.kind && saved.expiresAt == row.expiresAt && saved.maxRetries == row.maxRetries
    requires saved.retryCount == row.retryCount + 1 && (saved.deadLetteredAt.None? ==> saved.retryCount <= saved.maxRetries)
    ensures RowOk(h + (written + [WasFailed]), saved)
  {
    assert EntryAt(h, |h| - 1);
    if written != [] {
      LegalGrows(h, written[0]);
      CountsGrow(h, written[0]);
      assert h + written == h + [written[0]];
    } else {
      assert h + written == h;
    }
    CountsGrow(h + written, WasFailed);
    TrailMoves(h + written, row, WasFailed, saved);
    assert h + (written + [WasFailed]) == h + written + [WasFailed];
  }

  lemma SuccessKept(h: seq<Entry>, row: Row, v: Value, at: int, saved: Row)
    requires RowOk(h, row) && row.action.status.Approved? && v == row.action.after
    requires saved.action.status.Applied? && saved.action.after == row.action.after && saved.kind == row.kind && saved.expiresAt == row.expiresAt && saved.maxRetries == row.maxRetries
    requires saved.retryCount == row.retryCount && saved.deadLetteredAt == row.deadLetteredAt && saved.action.appliedAt == Some(at)
    ensures RowOk(h + ([Wrote(v)] + [WasApplied(at)]), saved)
  {
    assert EntryAt(h, |h| - 1);
    LegalGrows(h, Wrote(v));
    CountsGrow(h, Wrote(v));
    var mid := h + [Wrote(v)];
    CountsGrow(mid, WasApplied(at));
    TrailMoves(mid, row, WasApplied(at), saved);
    assert h + ([Wrote(v)] + [WasApplied(at)]) == mid + [WasApplied(at)];
  }

  lemma PolicyShape(row: Row, action: Action, classify: Classifier, now: int, spread: nat)
    requires !row.action.status.Failed?
    ensures var saved := Saved(row, action, classify, now, spread);
            && saved.action == action && saved.kind == row.kind && saved.expiresAt == row.expiresAt && saved.maxRetries == row.maxRetries
            && SameEntity(saved, row)
            && (action.status.Failed? ==> saved.retryCount == row.retryCount + 1 && (saved.deadLetteredAt.None? ==> saved.retryCount <= saved.maxRetries))
            && (!action.status.Failed? ==> saved.retryCount == row.retryCount && saved.deadLetteredAt == row.deadLetteredAt)
  {
    hide Delay;
  }

  lemma ExecuteKeeps(s: State, id: Id, provider: Provider, now: int, p: Policies)
    requires Inv(s)
    ensures Inv(Execute(s, id, provider, now, p).0)
  {
    hide OneActive, SameEntity, RowOk, Saved;
    var (t, failure) := Execute(s, id, provider, now, p);
    if failure.None? {
      var row := s.rows[id];
      var a := Attempt(row.action, provider, now).value;
      PolicyShape(row, a, p.classify, now, p.spread);
      var written := if provider.read.Ok? then [Wrote(a.after)] else [];
      if a.status.Applied? {
        SuccessKept(s.trail[id], row, a.after, now, t.rows[id]);
      } else {
        FailureKept(s.trail[id], row, written, t.rows[id]);
      }
      PutKeeps(s, id, t.rows[id], written + [Outcome(a, now)]);
    }
  }

  lemma BlockKeeps(s: State, id: Id, error: string, now: int, p: Policies)
    requires Inv(s)
    ensures Inv(Block(s, id, error, now, p).0)
  {
    hide OneActive, SameEntity, RowOk, Saved;
    var (t, failure) := Block(s, id, error, now, p);
    if failure.None? {
      var row := s.rows[id];
      var a := Apply(row.action, now, row.action.before, false, "guardrail: " + error, DRIFT).value;
      PolicyShape(row, a, p.classify, now, p.spread);
      FailureKept(s.trail[id], row, [], t.rows[id]);
      assert [] + [WasFailed] == [WasFailed];
      PutKeeps(s, id, t.rows[id], [WasFailed]);
    }
  }

  lemma EndKept(h: seq<Entry>, row: Row, e: Entry, moved: Row)
    requires RowOk(h, row) && moved == row.(action := moved.action) && moved.action.after == row.action.after
    requires || (e.WasExpired? && (row.action.status.Pending? || row.action.status.Approved?) && moved.action.status.Expired?)
             || (e.WasVerified? && row.action.status.Applied? && moved.action.status.Verified? && moved.action.appliedAt == row.action.appliedAt
                 && moved.action.verifiedAt == Some(e.at) && e.at - row.action.appliedAt.value >= VERIFY_AFTER)
             || (e.WasRolledBack? && row.action.status.Applied? && moved.action.status.RolledBack? && moved.action.before.Some?
                 && moved.action.appliedAt == row.action.appliedAt)
    ensures RowOk(h + [e], moved)
  {
    assert EntryAt(h, |h| - 1);
    CountsGrow(h, e);
    TrailMoves(h, row, e, moved);
  }

  lemma LapseKeeps(s: State, id: Id, now: int)
    requires Inv(s)
    ensures Inv(Lapse(s, id, now).0)
  {
    hide OneActive, SameEntity, RowOk;
    var (t, failure) := Lapse(s, id, now);
    if failure.None? {
      EndKept(s.trail[id], s.rows[id], WasExpired(now), t.rows[id]);
      PutKeeps(s, id, t.rows[id], [WasExpired(now)]);
    }
  }

  lemma JudgeKeeps(s: State, id: Id, outcome: string, now: int)
    requires Inv(s)
    ensures Inv(Judge(s, id, outcome, now).0)
  {
    hide OneActive, SameEntity, RowOk, KnownOutcome;
    var (t, failure) := Judge(s, id, outcome, now);
    if failure.None? {
      EndKept(s.trail[id], s.rows[id], WasVerified(now), t.rows[id]);
      PutKeeps(s, id, t.rows[id], [WasVerified(now)]);
    }
  }

  lemma UndoKeeps(s: State, id: Id, answer: Result<Value, string>, now: int)
    requires Inv(s)
    ensures Inv(Undo(s, id, answer, now).0)
  {
    hide OneActive, SameEntity, RowOk;
    var (t, failure) := Undo(s, id, answer, now);
    if failure.None? {
      if answer.Ok? {
        EndKept(s.trail[id], s.rows[id], WasRolledBack(now), t.rows[id]);
        PutKeeps(s, id, t.rows[id], [WasRolledBack(now)]);
      } else {
        OnlyErrorChanged(s.trail[id], s.rows[id], t.rows[id]);
        assert s.trail[id] + [] == s.trail[id];
        PutKeeps(s, id, t.rows[id], []);
      }
    }
  }

  lemma OnlyErrorChanged(h: seq<Entry>, row: Row, moved: Row)
    requires RowOk(h, row) && moved == row.(action := row.action.(error := moved.action.error))
    ensures RowOk(h, moved)
  {
  }

  lemma ReturnKept(h: seq<Entry>, row: Row, e: Entry, moved: Row)
    requires RowOk(h, row) && row.action.status.Failed?
    requires && moved.action.status.Pending? && moved.action.after == row.action.after && moved.kind == row.kind && moved.expiresAt == row.expiresAt && moved.maxRetries == row.maxRetries
             && moved.retryCount == row.retryCount
    requires (e.Released? && row.deadLetteredAt.None?) || (e.Replayed? && Approver(e.role)) || e.Requeued?
    ensures RowOk(h + [e], moved)
  {
    hide Approver;
    assert EntryAt(h, |h| - 1);
    CountsGrow(h, e);
    TrailMoves(h, row, e, moved);
  }

  lemma ReplayKeeps(s: State, id: Id, actor: string, role: string)
    requires Inv(s)
    ensures Inv(Replay(s, id, actor, role).0)
  {
    hide OneActive, SameEntity, RowOk, Approver;
    var (t, failure) := Replay(s, id, actor, role);
    if failure.None? {
      ReturnKept(s.trail[id], s.rows[id], Replayed(actor, role), t.rows[id]);
      FlagNeverFails(s.trail[id], s.rows[id]);
      MovedIsUncontested(s, id, t.rows[id]);
      PutKeeps(s, id, t.rows[id], [Replayed(actor, role)]);
    }
  }

  lemma FlagNeverFails(h: seq<Entry>, row: Row)
    requires RowOk(h, row) && row.action.status.Failed?
    ensures row.kind != "flag"
  {
  }

  lemma MovedIsUncontested(s: State, id: Id, moved: Row)
    requires id in s.rows && !Contested(s, id, s.rows[id]) && SameEntity(moved, s.rows[id])
    ensures !Contested(s, id, moved)
  {
  }

  lemma RequeueKeeps(s: State, id: Id)
    requires Inv(s)
    ensures Inv(Requeue(s, id).0)
  {
    hide OneActive, RowOk;
    var (t, failure) := Requeue(s, id);
    if failure.None? {
      ReturnKept(s.trail[id], s.rows[id], Requeued, t.rows[id]);
      FlagNeverFails(s.trail[id], s.rows[id]);
      MovedIsUncontested(s, id, t.rows[id]);
      PutKeeps(s, id, t.rows[id], [Requeued]);
    }
  }

  lemma ReleaseKeeps(s: State, id: Id)
    requires Inv(s) && (id in s.rows && s.rows[id].action.status.Failed? ==> s.rows[id].deadLetteredAt.None?)
    ensures Release(s, id).Ok? ==> Inv(Release(s, id).value)
  {
    hide OneActive, RowOk;
    var r := Release(s, id);
    if r.Ok? && r.value != s {
      ReturnKept(s.trail[id], s.rows[id], Released, r.value.rows[id]);
      FlagNeverFails(s.trail[id], s.rows[id]);
      MovedIsUncontested(s, id, r.value.rows[id]);
      PutKeeps(s, id, r.value.rows[id], [Released]);
    }
  }

  /** A release batch touches only its rows, and leaves the others due. */
  lemma {:induction false} BatchKeeps(s: State, ids: seq<Id>, now: int)
    requires Inv(s) && (forall id | id in ids :: Due(s, id, now)) && forall i, j | 0 <= i < j < |ids| :: ids[i] != ids[j]
    ensures var r := ReleaseAll(s, ids);
            r.Ok? ==> Inv(r.value) && forall id | id in s.rows && id !in ids :: id in r.value.rows && r.value.rows[id] == s.rows[id]
  {
    hide Inv, Release;
    if ids != [] {
      var front, last := ids[..|ids| - 1], ids[|ids| - 1];
      assert forall id | id in front :: id in ids;
      BatchKeeps(s, front, now);
      assert last in ids && last !in front;
      if ReleaseAll(s, ids).Ok? {
        var t := ReleaseAll(s, front).value;
        assert t.rows[last] == s.rows[last];
        ReleaseKeeps(t, last);
        ReleaseTouchesOne(t, last);
      }
    }
  }

  lemma ReleaseTouchesOne(s: State, id: Id)
    ensures Release(s, id).Ok? ==> forall other | other in s.rows && other != id ::
                                      other in Release(s, id).value.rows && Release(s, id).value.rows[other] == s.rows[other]
  {
  }

  /** Every step keeps the invariant. */
  lemma StepKeeps(s: State, step: Step)
    requires Inv(s) && Enabled(s, step)
    ensures Inv(Next(s, step))
  {
    hide Inv, Propose, Decide, Execute, Block, Lapse, Judge, Undo, Replay, Requeue, Due;
    match step
    case Offer(id, row) => OfferKeeps(s, id, row);
    case Choose(id, user, role, approving, context, now) => DecideKeeps(s, id, user, role, approving, context, now);
    case Run(id, provider, now, p) => ExecuteKeeps(s, id, provider, now, p);
    case Stop(id, error, now, p) => BlockKeeps(s, id, error, now, p);
    case Drop(id, now) => LapseKeeps(s, id, now);
    case Check(id, outcome, now) => JudgeKeeps(s, id, outcome, now);
    case Revert(id, answer, now) => UndoKeeps(s, id, answer, now);
    case Free(ids, now) => BatchKeeps(s, ids, now);
    case Resume(id, actor, role) => ReplayKeeps(s, id, actor, role);
    case Restart(id) => RequeueKeeps(s, id);
  }

  // ------------------------------------------------------------- every run

  /** Every state of every run satisfies the invariant. */
  lemma {:induction false} Always(states: seq<State>, i: nat)
    requires Reached(states) && i < |states|
    ensures Inv(states[i])
  {
    hide Next, Enabled, RowOk;
    if i > 0 {
      Always(states, i - 1);
      assert Follows(states[i - 1], states[i]);
      var step :| Enabled(states[i - 1], step) && states[i] == Next(states[i - 1], step);
      StepKeeps(states[i - 1], step);
    }
  }

  /** What the provider is asked to write was proposed, is no finding, and was just approved by an owner or admin, in time. */
  lemma WritesAreApproved(states: seq<State>, i: nat, id: Id, k: nat)
    requires Reached(states) && i < |states| && id in states[i].rows && id in states[i].trail
    requires k < |states[i].trail[id]| && states[i].trail[id][k].Wrote?
    ensures var h := states[i].trail[id];
            && k > 1 && h[k - 1].WasApproved? && h[k - 1].role in {"owner", "admin"} && h[k - 1].at < states[i].rows[id].expiresAt
            && (h[k - 2].Proposed? || h[k - 2].Released? || h[k - 2].Replayed? || h[k - 2].Requeued?)
            && h[k].value == states[i].rows[id].action.after
    ensures states[i].rows[id].kind != "flag"
  {
    Always(states, i);
    var h := states[i].trail[id];
    assert RowOk(h, states[i].rows[id]);
    assert EntryAt(h, k) && EntryAt(h, k - 1);
  }

  /** Dates, baselines and retry counts of every row. */
  lemma RowFacts(states: seq<State>, i: nat, id: Id)
    requires Reached(states) && i < |states| && id in states[i].rows
    ensures id in states[i].trail
    ensures var row, h := states[i].rows[id], states[i].trail[id];
            && (row.action.status.Verified? ==> row.action.appliedAt.Some? && row.action.verifiedAt.Some?
                                                && row.action.verifiedAt.value - row.action.appliedAt.value >= 7 * 24 * 3600)
            && (row.action.status.RolledBack? ==> row.action.before.Some?)
            && row.retryCount == Failures(h) && Releases(h) <= row.maxRetries
            && h != [] && StatusAfter(h[|h| - 1]) == row.action.status
  {
    hide EntryAt;
    Always(states, i);
    assert RowOk(states[i].trail[id], states[i].rows[id]);
  }

  lemma OneProposalPerEntity(states: seq<State>, i: nat, a: Id, b: Id)
    requires Reached(states) && i < |states| && a in states[i].rows && b in states[i].rows
    requires Active(states[i].rows[a]) && Active(states[i].rows[b]) && SameEntity(states[i].rows[a], states[i].rows[b])
    ensures a == b
  {
    hide RowsOk, Active, SameEntity;
    Always(states, i);
  }

  // ------------------------------------------------------- bounded changes

  function Level(e: Entry): nat {
    if Waits(e) then 0
    else if e.WasApproved? || e.Wrote? || e.WasRejected? then 1
    else if e.WasVerified? || e.WasRolledBack? then 3
    else 2
  }

  lemma {:induction false} ChangesByLevel(h: seq<Entry>)
    requires Legal(h) && h != []
    ensures Changes(h) <= 3 * Returns(h) + Level(h[|h| - 1])
  {
    hide Approver;
    var front := h[..|h| - 1];
    assert EntryAt(h, |h| - 1);
    if front != [] {
      forall i: nat | i < |front|
        ensures EntryAt(front, i)
      {
        assert EntryAt(h, i);
      }
      ChangesByLevel(front);
    }
  }

  /** A status changes at most three times, and three times more for each return to the queue. */
  lemma FewChanges(states: seq<State>, i: nat, id: Id)
    requires Reached(states) && i < |states| && id in states[i].rows
    ensures id in states[i].trail
    ensures Changes(states[i].trail[id]) <= 3 + 3 * Returns(states[i].trail[id])
  {
    hide EntryAt;
    Always(states, i);
    assert RowOk(states[i].trail[id], states[i].rows[id]);
    ChangesByLevel(states[i].trail[id]);
  }

  // --------------------------------------------------------------- finality

  /** Trails only grow, and a terminal row stays exactly as it is. */
  ghost predicate Later(s: State, t: State) {
    && (forall id | id in s.rows :: id in t.rows && (Terminal(s.rows[id].action.status) ==> t.rows[id] == s.rows[id]))
    && (forall id | id in s.trail :: id in t.trail && s.trail[id] <= t.trail[id]
                                     && (id in s.rows && Terminal(s.rows[id].action.status) ==> t.trail[id] == s.trail[id]))
  }

  lemma PutLater(s: State, id: Id, row: Row, entries: seq<Entry>)
    requires id in s.rows ==> !Terminal(s.rows[id].action.status)
    ensures Later(s, Put(s, id, row, entries))
  {
  }

  lemma LaterSelf(s: State)
    ensures Later(s, s)
  {
  }

  lemma LaterTransitive(s: State, t: State, u: State)
    requires Later(s, t) && Later(t, u)
    ensures Later(s, u)
  {
  }

  lemma {:induction false} BatchLater(s: State, ids: seq<Id>)
    ensures ReleaseAll(s, ids).Ok? ==> Later(s, ReleaseAll(s, ids).value)
  {
    hide Later, Put, Contested;
    LaterSelf(s);
    if ids != [] {
      BatchLater(s, ids[..|ids| - 1]);
      if ReleaseAll(s, ids).Ok? {
        var t := ReleaseAll(s, ids[..|ids| - 1]).value;
        ReleaseLater(t, ids[|ids| - 1]);
        LaterTransitive(s, t, ReleaseAll(s, ids).value);
      }
    }
  }

  lemma ReleaseLater(s: State, id: Id)
    ensures Release(s, id).Ok? ==> Later(s, Release(s, id).value)
  {
    hide Later, Put, Contested;
    LaterSelf(s);
    var r := Release(s, id);
    if r.Ok? && r.value != s {
      PutLater(s, id, s.rows[id].(action := Waiting(s.rows[id].action), nextAttemptAt := None), [Released]);
    }
  }

  lemma DecideLater(s: State, id: Id, user: string, role: string, approving: bool, context: Context, now: int)
    ensures Later(s, Decide(s, id, user, role, approving, context, now).0)
  {
    hide Later, Contested, ChangedRecently, Approver;
    LaterSelf(s);
    var (t, failure) := Decide(s, id, user, role, approving, context, now);
    if failure.None? {
      PutLater(s, id, t.rows[id], [if approving then WasApproved(user, role, now) else WasRejected(user, role)]);
    }
  }

  lemma ReplayLater(s: State, id: Id, actor: string, role: string)
    ensures Later(s, Replay(s, id, actor, role).0)
  {
    hide Later, Contested, Approver;
    LaterSelf(s);
    var (t, failure) := Replay(s, id, actor, role);
    if failure.None? {
      PutLater(s, id, t.rows[id], [Replayed(actor, role)]);
    }
  }

  lemma RequeueLater(s: State, id: Id)
    ensures Later(s, Requeue(s, id).0)
  {
    hide Later, Contested;
    LaterSelf(s);
    var (t, failure) := Requeue(s, id);
    if failure.None? {
      PutLater(s, id, t.rows[id], [Requeued]);
    }
  }

  lemma LapseLater(s: State, id: Id, now: int)
    ensures Later(s, Lapse(s, id, now).0)
  {
    hide Later;
    LaterSelf(s);
    var (t, failure) := Lapse(s, id, now);
    if failure.None? {
      PutLater(s, id, t.rows[id], [WasExpired(now)]);
    }
  }

  lemma JudgeLater(s: State, id: Id, outcome: string, now: int)
    ensures Later(s, Judge(s, id, outcome, now).0)
  {
    hide Later, KnownOutcome;
    LaterSelf(s);
    var (t, failure) := Judge(s, id, outcome, now);
    if failure.None? {
      PutLater(s, id, t.rows[id], [WasVerified(now)]);
    }
  }

  lemma UndoLater(s: State, id: Id, answer: Result<Value, string>, now: int)
    ensures Later(s, Undo(s, id, answer, now).0)
  {
    hide Later;
    LaterSelf(s);
    var (t, failure) := Undo(s, id, answer, now);
    if failure.None? {
      PutLater(s, id, t.rows[id], if answer.Ok? then [WasRolledBack(now)] else []);
    }
  }

  lemma BlockLater(s: State, id: Id, error: string, now: int, p: Policies)
    ensures Later(s, Block(s, id, error, now, p).0)
  {
    hide Later, Saved;
    LaterSelf(s);
    var (t, failure) := Block(s, id, error, now, p);
    if failure.None? {
      PutLater(s, id, t.rows[id], [WasFailed]);
    }
  }

  lemma ExecuteLater(s: State, id: Id, provider: Provider, now: int, p: Policies)
    ensures Later(s, Execute(s, id, provider, now, p).0)
  {
    hide Later, Saved;
    LaterSelf(s);
    var (t, failure) := Execute(s, id, provider, now, p);
    if failure.None? {
      PutLater(s, id, t.rows[id], (if provider.read.Ok? then [Wrote(s.rows[id].action.after)] else []) + [Outcome(Attempt(s.rows[id].action, provider, now).value, now)]);
    }
  }

  lemma StepLater(s: State, step: Step)
    requires Enabled(s, step)
    ensures Later(s, Next(s, step))
  {
    hide Later, Put, ReleaseAll, Contested, Due, Decide, Execute, Block, Lapse, Judge, Undo, Replay, Requeue;
    LaterSelf(s);
    match step
    case Offer(id, row) => PutLater(s, id, row, [Proposed]);
    case Choose(id, user, role, approving, context, now) => DecideLater(s, id, user, role, approving, context, now);
    case Run(id, provider, now, p) => ExecuteLater(s, id, provider, now, p);
    case Stop(id, error, now, p) => BlockLater(s, id, error, now, p);
    case Drop(id, now) => LapseLater(s, id, now);
    case Check(id, outcome, now) => JudgeLater(s, id, outcome, now);
    case Revert(id, answer, now) => UndoLater(s, id, answer, now);
    case Free(ids, now) => BatchLater(s, ids);
    case Resume(id, actor, role) => ReplayLater(s, id, actor, role);
    case Restart(id) => RequeueLater(s, id);
  }

  /** Verified, rejected, expired and rolled back are final: nothing later touches such a row. */
  lemma {:induction false} TerminalIsFinal(states: seq<State>, i: nat, j: nat)
    requires Reached(states) && i <= j < |states|
    ensures Later(states[i], states[j])
  {
    hide Next, Enabled, Later;
    if i == j {
      LaterSelf(states[i]);
    } else {
      TerminalIsFinal(states, i, j - 1);
      assert Follows(states[j - 1], states[j]);
      var step :| Enabled(states[j - 1], step) && states[j] == Next(states[j - 1], step);
      StepLater(states[j - 1], step);
      LaterTransitive(states[i], states[j - 1], states[j]);
    }
  }

  // ----------------------------------------------------- drift and batches

  /** Drift does not keep the provider from being written to; it only makes the action end failed. */
  lemma DriftIsNoticedTooLate(s: State, id: Id, provider: Provider, now: int, p: Policies)
    requires id in s.rows && id in s.trail && s.rows[id].action.status.Approved?
    requires provider.read.Ok? && provider.write.Ok? && Drifted(s.rows[id].action.before, provider.read.value)
    ensures var t := Execute(s, id, provider, now, p).0;
            && t.trail[id] == s.trail[id] + [Wrote(s.rows[id].action.after), WasFailed]
            && t.rows[id].action.status.Failed? && t.rows[id].action.before == s.rows[id].action.before
  {
    hide Delay;
  }

  /** Two due rows for one entity. */
  ghost predicate Clash(s: State, ids: seq<Id>) {
    exists i, j | 0 <= i < j < |ids| :: ids[i] in s.rows && ids[j] in s.rows && SameEntity(s.rows[ids[i]], s.rows[ids[j]])
  }

  /** A batch of due rows is refused, and undone as a whole, exactly when two of them are for one entity. */
  lemma {:induction false} BatchRefused(s: State, ids: seq<Id>, now: int)
    requires Inv(s) && (forall id | id in ids :: Due(s, id, now)) && forall i, j | 0 <= i < j < |ids| :: ids[i] != ids[j]
    ensures ReleaseAll(s, ids).Err? <==> Clash(s, ids)
    ensures ReleaseAll(s, ids).Ok? ==> Batched(s, ReleaseAll(s, ids).value, ids)
  {
    hide Inv, Due, Release, Clash, Batched;
    if ids == [] {
      NoClash(s);
    } else {
      var front, last := ids[..|ids| - 1], ids[|ids| - 1];
      assert forall id | id in front :: id in ids;
      BatchRefused(s, front, now);
      assert last in ids && last !in front;
      ClashGrows(s, ids);
      if ReleaseAll(s, front).Ok? {
        var t := ReleaseAll(s, front).value;
        LastReleased(s, t, front, last, now);
        assert front + [last] == ids;
      }
    }
  }

  /** The rows of a batch wait again, all others are as they were. */
  ghost predicate Batched(s: State, t: State, ids: seq<Id>) {
    && t.rows.Keys == s.rows.Keys
    && (forall id | id in s.rows && id !in ids :: t.rows[id] == s.rows[id])
    && (forall id | id in s.rows && id in ids :: Active(t.rows[id]) && SameEntity(t.rows[id], s.rows[id]))
  }

  ghost predicate ClashWith(s: State, ids: seq<Id>, last: Id) {
    exists i | 0 <= i < |ids| :: ids[i] in s.rows && last in s.rows && SameEntity(s.rows[ids[i]], s.rows[last])
  }

  lemma NoClash(s: State)
    ensures !Clash(s, []) && Batched(s, s, [])
  {
  }

  lemma ClashGrows(s: State, ids: seq<Id>)
    requires ids != []
    ensures Clash(s, ids) <==> Clash(s, ids[..|ids| - 1]) || ClashWith(s, ids[..|ids| - 1], ids[|ids| - 1])
  {
  }

  lemma LastReleased(s: State, t: State, front: seq<Id>, last: Id, now: int)
    requires Inv(s) && Due(s, last, now) && last !in front && Batched(s, t, front)
    ensures Release(t, last).Err? <==> ClashWith(s, front, last)
    ensures Release(t, last).Ok? ==> Batched(s, Release(t, last).value, front + [last])
  {
    hide RowOk, OneActive, Active, SameEntity, Contested, ClashWith;
    FlagNeverFails(s.trail[last], s.rows[last]);
    ContestedByBatch(s, t, front, last, now);
    WaitingIsActive(t.rows[last]);
  }

  /** After part of a batch a due row is contested exactly when the part holds a row for its entity. */
  lemma ContestedByBatch(s: State, t: State, front: seq<Id>, last: Id, now: int)
    requires Due(s, last, now) && last !in front && Batched(s, t, front)
    ensures t.rows[last] == s.rows[last] && (Contested(t, last, t.rows[last]) <==> ClashWith(s, front, last))
  {
    hide Active, SameEntity;
    SameEntityWorks();
    if Contested(t, last, t.rows[last]) {
      var other :| other in t.rows && other != last && SameEntity(t.rows[other], t.rows[last]) && Active(t.rows[other]);
      assert other in front;
      var i :| 0 <= i < |front| && front[i] == other;
      assert ClashWith(s, front, last);
    }
    if ClashWith(s, front, last) {
      var i :| 0 <= i < |front| && front[i] in s.rows && SameEntity(s.rows[front[i]], s.rows[last]);
      assert front[i] in front;
    }
  }

  lemma SameEntityWorks()
    ensures forall a, b :: SameEntity(a, b) <==> SameEntity(b, a)
    ensures forall a, b, c :: SameEntity(a, b) && SameEntity(b, c) ==> SameEntity(a, c)
  {
  }

  lemma WaitingIsActive(row: Row)
    requires row.kind != "flag"
    ensures var w := row.(action := Waiting(row.action), nextAttemptAt := None); Active(w) && SameEntity(w, row)
  {
  }
}
