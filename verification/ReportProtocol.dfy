/**
 What the report queue keeps over every run: any number of users and workers, their
 transactions in any order.
 */
module ReportProtocol {
  import opened Texts
  import opened Wrappers
  import opened ReportJobs

  datatype Step =
    | Request(id: Id, key: string, asked: Scope, definition: Option<Definition>, now: int)
    | Take(id: Id, worker: string, now: int, locked: set<Id>)
    | Work(id: Id, worker: string, outcome: Outcome, retention: int, now: int)
    | GiveUp(id: Id, worker: string, error: string, now: int)
    | Again(id: Id, actor: string, nextAttemptAt: int)

  /** New rows get fresh ids, and only a due queued row can be claimed. */
  predicate Enabled(s: State, step: Step) {
    match step
    case Request(id, _, _, _, _) => id !in s.jobs
    case Take(id, _, now, locked) => Claimable(s, id, now, locked)
    case _ => true
  }

  function Next(s: State, step: Step): State
    requires Enabled(s, step)
  {
    match step
    case Request(id, key, asked, definition, now) => Enqueue(s, id, key, asked, definition, now).0
    case Take(id, worker, now, _) => Claim(s, id, worker, now)
    case Work(id, worker, outcome, retention, now) => RenderOrFail(s, id, worker, outcome, retention, now).0
    case GiveUp(id, worker, error, now) => Fail(s, id, worker, error, now).0
    case Again(id, actor, next) => Retry(s, id, actor, next).0
  }

  /** Whatever a user or worker does to the queue is a step, at any time. */
  lemma AnyTransaction(s: State, id: Id, key: string, asked: Scope, definition: Option<Definition>, worker: string, outcome: Outcome,
                       retention: int, error: string, locked: set<Id>, now: int)
    ensures Next(s, Work(id, worker, outcome, retention, now)) == RenderOrFail(s, id, worker, outcome, retention, now).0
    ensures Next(s, GiveUp(id, worker, error, now)) == Fail(s, id, worker, error, now).0
    ensures Next(s, Again(id, worker, now)) == Retry(s, id, worker, now).0
    ensures id !in s.jobs ==> Next(s, Request(id, key, asked, definition, now)) == Enqueue(s, id, key, asked, definition, now).0
    ensures Claimable(s, id, now, locked) ==> Next(s, Take(id, worker, now, locked)) == Claim(s, id, worker, now)
  {
  }

  const EMPTY := State(map[], map[], [], map[])

  /** A run is a list of states, each one step after the one before. */
  ghost predicate Run(states: seq<State>) {
    && states != [] && states[0] == EMPTY
    && forall i | 0 < i < |states| :: Follows(states[i - 1], states[i])
  }

  ghost predicate Follows(s: State, t: State) {
    exists step :: Enabled(s, step) && t == Next(s, step)
  }

  // -------------------------------------------------------------- the log

  /** The events of one job, in order. */
  function LogOf(events: seq<Event>, id: Id): seq<Event> {
    if events == [] then []
    else
      var last := events[|events| - 1];
      LogOf(events[..|events| - 1], id) + if last.job == id then [last] else []
  }

  /** The one event a job can have at each place of its log. */
  predicate EventAt(log: seq<Event>, i: nat)
    requires i < |log|
  {
    var e := log[i];
    if i == 0 then
      e.kind == WasQueued && e.previous == None && e.next == Queued && e.attempt == 0 && e.dedupe == ForEnqueue
    else
      var attempt := (i - 1) / 3 + 1;
      && e.attempt == attempt
      && match (i - 1) % 3
         case 0 => e.kind == WasStarted && e.previous == Some(Queued) && e.next == Running && e.dedupe == ForAttempt(attempt, "start")
         case 1 =>
           && e.previous == Some(Running) && e.actor == log[i - 1].actor
           && (|| (e.kind == WasFailed && e.next == Failed && e.dedupe == ForAttempt(attempt, Tag(Failed)))
               || (e.kind == WasSucceeded && e.next == Succeeded && e.dedupe == ForAttempt(attempt, Tag(Succeeded)) && i == |log| - 1))
         case _ => e.kind == WasRetried && e.previous == Some(Failed) && e.next == Queued && e.dedupe == ForAttempt(attempt, "retry")
  }

  ghost predicate Shape(log: seq<Event>) {
    forall i: nat | i < |log| :: EventAt(log, i)
  }

  // -------------------------------------------------------- the invariant

  /** A row agrees with its own log, its bounds and its artifact. */
  ghost predicate JobOk(job: Job, log: seq<Event>, stored: bool) {
    && log != [] && Shape(log)
    && log[|log| - 1].next == job.status && log[|log| - 1].attempt == job.attempt
    && 1 <= job.scope.maxAttempts <= 10
    && job.attempt <= job.scope.maxAttempts
    && (job.status.Queued? ==> job.attempt < job.scope.maxAttempts)
    && (job.status.Running? ==> job.worker == Some(log[|log| - 1].actor))
    && (stored <==> job.status.Succeeded?)
    && job.scope.format in {"csv", "xlsx", "pdf"} && job.scope.dateFrom <= job.scope.dateTo && !Blank(job.key)
  }

  ghost predicate JobsOk(s: State) {
    forall id | id in s.jobs :: JobOk(s.jobs[id], LogOf(s.events, id), id in s.artifacts)
  }

  ghost predicate KeysOk(s: State) {
    && (forall k | k in s.byKey :: s.byKey[k] in s.jobs && s.jobs[s.byKey[k]].key == k)
    && (forall id | id in s.jobs :: s.jobs[id].key in s.byKey && s.byKey[s.jobs[id].key] == id)
  }

  ghost predicate Owned(s: State) {
    && (forall e | e in s.events :: e.job in s.jobs)
    && s.artifacts.Keys <= s.jobs.Keys
  }

  ghost predicate StorageOk(s: State) {
    && (forall a, b | a in s.artifacts && b in s.artifacts && s.artifacts[a].storageKey == s.artifacts[b].storageKey :: a == b)
    && (forall a | a in s.artifacts :: !Blank(s.artifacts[a].storageKey) && !HasUrl(s.artifacts[a].storageKey)
                                       && s.artifacts[a].createdAt < s.artifacts[a].expiresAt)
  }

  ghost predicate Inv(s: State) {
    JobsOk(s) && KeysOk(s) && Owned(s) && StorageOk(s)
  }

  lemma LogOfAppend(events: seq<Event>, e: Event, id: Id)
    ensures LogOf(events + [e], id) == LogOf(events, id) + if e.job == id then [e] else []
  {
  }

  lemma {:induction false} KnownInLog(events: seq<Event>, e: Event)
    ensures Known(events, e) <==> Known(LogOf(events, e.job), e)
  {
    if events != [] {
      var front, last := events[..|events| - 1], events[|events| - 1];
      KnownInLog(front, e);
      KnownAppend(front, last, e);
      KnownAppend(LogOf(front, e.job), last, e);
      assert last.job != e.job ==> LogOf(events, e.job) == LogOf(front, e.job);
      assert front + [last] == events;
    }
  }

  lemma KnownAppend(events: seq<Event>, last: Event, e: Event)
    ensures Known(events + [last], e) <==> Known(events, e) || SameIdentity(last, e)
  {
    var all := events + [last];
    if Known(events, e) {
      var i :| 0 <= i < |events| && SameIdentity(events[i], e);
      assert SameIdentity(all[i], e);
    }
    if SameIdentity(last, e) {
      assert SameIdentity(all[|events|], e);
    }
    if Known(all, e) {
      var i :| 0 <= i < |all| && SameIdentity(all[i], e);
      assert i < |events| ==> SameIdentity(events[i], e);
    }
  }

  lemma {:induction false} LogMembers(events: seq<Event>, id: Id)
    ensures forall e :: e in LogOf(events, id) <==> e in events && e.job == id
  {
    if events != [] {
      LogMembers(events[..|events| - 1], id);
      assert events == events[..|events| - 1] + [events[|events| - 1]];
    }
  }

  /** The next event of a well-formed log is never one it already has. */
  lemma NextIsNew(log: seq<Event>, e: Event)
    requires log != [] && Shape(log) && !log[|log| - 1].kind.WasSucceeded?
    requires EventAt(log + [e], |log|)
    ensures Shape(log + [e]) && !Known(log, e)
  {
    var all := log + [e];
    forall i: nat | i < |all|
      ensures EventAt(all, i)
    {
      if i < |log| {
        assert EventAt(log, i);
        assert i > 0 ==> all[i - 1] == log[i - 1];
      }
    }
    forall i: nat | i < |log|
      ensures !SameIdentity(log[i], e)
    {
      assert EventAt(log, i);
      PlaceFromEvent(log, i, all);
    }
  }

  lemma PlaceFromEvent(log: seq<Event>, i: nat, all: seq<Event>)
    requires i < |log| && EventAt(log, i)
    requires |all| == |log| + 1 && EventAt(all, |log|) && log != []
    ensures !(log[i].kind == all[|log|].kind && log[i].attempt == all[|log|].attempt)
  {
  }

  // -------------------------------------------------------------- one step

  /** A change of one row that its log allows. */
  ghost predicate MayMove(job: Job, log: seq<Event>, changed: Job, e: Event) {
    && !job.status.Succeeded?
    && changed.scope == job.scope && changed.key == job.key
    && EventAt(log + [e], |log|)
    && e.next == changed.status && e.attempt == changed.attempt && changed.attempt <= changed.scope.maxAttempts
    && (changed.status.Queued? ==> changed.attempt < changed.scope.maxAttempts)
    && (changed.status.Running? ==> changed.worker == Some(e.actor))
  }

  lemma JobMoves(job: Job, log: seq<Event>, stored: bool, changed: Job, e: Event)
    requires JobOk(job, log, stored) && MayMove(job, log, changed, e)
    ensures JobOk(changed, log + [e], changed.status.Succeeded?) && !stored && !Known(log, e)
  {
    hide EventAt, Blank, Known;
    LastNotSucceeded(log);
    NextIsNew(log, e);
  }

  lemma LastNotSucceeded(log: seq<Event>)
    requires log != [] && Shape(log)
    ensures log[|log| - 1].kind.WasSucceeded? <==> log[|log| - 1].next.Succeeded?
  {
    assert EventAt(log, |log| - 1);
  }

  /** An artifact whose insertion the unique indexes and checks accept. */
  ghost predicate Storable(s: State, a: Artifact) {
    !StoredUnder(s.artifacts, a.storageKey) && !Blank(a.storageKey) && !HasUrl(a.storageKey) && a.createdAt < a.expiresAt
  }

  /** A row, its log and possibly its artifact move together. */
  function Moved(s: State, changed: Job, e: Event, stored: Option<Artifact>): State {
    State(s.jobs[e.job := changed], s.byKey, Record(s.events, e),
          if stored.Some? then s.artifacts[e.job := stored.value] else s.artifacts)
  }

  ghost predicate Movable(s: State, changed: Job, e: Event, stored: Option<Artifact>) {
    && e.job in s.jobs && MayMove(s.jobs[e.job], LogOf(s.events, e.job), changed, e)
    && (stored.Some? <==> changed.status.Succeeded?)
    && (stored.Some? ==> Storable(s, stored.value))
  }

  lemma MoveRecords(s: State, changed: Job, e: Event, stored: Option<Artifact>)
    requires JobsOk(s) && Movable(s, changed, e, stored)
    ensures Moved(s, changed, e, stored).events == s.events + [e]
    ensures JobOk(changed, LogOf(s.events, e.job) + [e], changed.status.Succeeded?) && e.job !in s.artifacts
  {
    hide JobOk, MayMove, Storable, Known;
    JobMoves(s.jobs[e.job], LogOf(s.events, e.job), e.job in s.artifacts, changed, e);
    KnownInLog(s.events, e);
  }

  lemma MoveJobs(s: State, changed: Job, e: Event, stored: Option<Artifact>)
    requires JobsOk(s) && Movable(s, changed, e, stored)
    ensures JobsOk(Moved(s, changed, e, stored))
  {
    hide JobOk, MayMove, Storable, Record;
    MoveRecords(s, changed, e, stored);
    var t := Moved(s, changed, e, stored);
    forall id | id in t.jobs
      ensures JobOk(t.jobs[id], LogOf(t.events, id), id in t.artifacts)
    {
      LogOfAppend(s.events, e, id);
      if id != e.job {
        assert LogOf(t.events, id) == LogOf(s.events, id);
      }
    }
  }

  lemma MoveTables(s: State, changed: Job, e: Event, stored: Option<Artifact>)
    requires KeysOk(s) && Owned(s) && e.job in s.jobs && changed.key == s.jobs[e.job].key
    ensures KeysOk(Moved(s, changed, e, stored)) && Owned(Moved(s, changed, e, stored))
  {
  }

  lemma MoveStorage(s: State, changed: Job, e: Event, stored: Option<Artifact>)
    requires StorageOk(s) && (stored.Some? ==> Storable(s, stored.value) && e.job !in s.artifacts)
    ensures StorageOk(Moved(s, changed, e, stored))
  {
    hide Blank, HasUrl, Record;
  }

  lemma MoveKeeps(s: State, changed: Job, e: Event, stored: Option<Artifact>)
    requires Inv(s) && Movable(s, changed, e, stored)
    ensures Inv(Moved(s, changed, e, stored)) && |Moved(s, changed, e, stored).events| == |s.events| + 1
  {
    hide JobsOk, KeysOk, Owned, StorageOk, Storable, Record;
    MoveRecords(s, changed, e, stored);
    MoveJobs(s, changed, e, stored);
    MoveTables(s, changed, e, stored);
    MoveStorage(s, changed, e, stored);
  }

  lemma MayClaim(job: Job, log: seq<Event>, stored: bool, worker: string, changed: Job, e: Event)
    requires JobOk(job, log, stored) && job.status.Queued?
    requires changed.scope == job.scope && changed.key == job.key && changed.status.Running? && changed.attempt == job.attempt + 1
    requires changed.worker == Some(worker)
    requires e == Event(e.job, WasStarted, Some(Queued), Running, job.attempt + 1, worker, ForAttempt(job.attempt + 1, "start"))
    ensures MayMove(job, log, changed, e)
  {
    hide Blank;
    assert EventAt(log, |log| - 1);
  }

  lemma MayFinish(job: Job, log: seq<Event>, stored: bool, worker: string, changed: Job, e: Event)
    requires JobOk(job, log, stored) && job.status.Running? && job.worker == Some(worker)
    requires changed.scope == job.scope && changed.key == job.key && changed.attempt == job.attempt
    requires changed.status.Succeeded? || changed.status.Failed?
    requires e == Event(e.job, if changed.status.Succeeded? then WasSucceeded else WasFailed, Some(Running), changed.status, job.attempt, worker,
                        ForAttempt(job.attempt, Tag(changed.status)))
    ensures MayMove(job, log, changed, e)
  {
    hide Blank, Tag;
    assert EventAt(log, |log| - 1);
  }

  lemma MayRetry(job: Job, log: seq<Event>, stored: bool, actor: string, changed: Job, e: Event)
    requires JobOk(job, log, stored) && job.status.Failed? && job.attempt < job.scope.maxAttempts
    requires changed.scope == job.scope && changed.key == job.key && changed.attempt == job.attempt && changed.status.Queued?
    requires e == Event(e.job, WasRetried, Some(Failed), Queued, job.attempt, actor, ForAttempt(job.attempt, "retry"))
    ensures MayMove(job, log, changed, e)
  {
    hide Blank;
    assert EventAt(log, |log| - 1);
  }

  lemma ClaimKeeps(s: State, id: Id, worker: string, now: int)
    requires Inv(s) && id in s.jobs && s.jobs[id].status.Queued?
    ensures Inv(Claim(s, id, worker, now)) && |Claim(s, id, worker, now).events| == |s.events| + 1
  {
    hide MayMove, JobOk, Record, KeysOk, Owned, StorageOk;
    var job := s.jobs[id];
    var changed := Claim(s, id, worker, now).jobs[id];
    var e := Event(id, WasStarted, Some(Queued), Running, job.attempt + 1, worker, ForAttempt(job.attempt + 1, "start"));
    MayClaim(job, LogOf(s.events, id), id in s.artifacts, worker, changed, e);
    MoveKeeps(s, changed, e, None);
  }

  lemma FinishKeeps(s: State, id: Id, worker: string, target: Status, error: Option<string>, now: int, stored: Option<Artifact>)
    requires Inv(s) && (target.Succeeded? || target.Failed?) && RunningFor(s, id, worker)
    requires stored.Some? <==> target.Succeeded?
    requires stored.Some? ==> Storable(s, stored.value)
    ensures var t := Finish(if stored.Some? then s.(artifacts := s.artifacts[id := stored.value]) else s, id, worker, target, error, now).0;
            Inv(t) && |t.events| == |s.events| + 1
  {
    hide MayMove, JobOk, Record, KeysOk, Owned, StorageOk, Storable;
    var job := s.jobs[id];
    var changed := job.(status := target, finishedAt := Some(now), error := error);
    var e := Event(id, if target.Succeeded? then WasSucceeded else WasFailed, Some(Running), target, job.attempt, worker,
                   ForAttempt(job.attempt, Tag(target)));
    MayFinish(job, LogOf(s.events, id), id in s.artifacts, worker, changed, e);
    MoveKeeps(s, changed, e, stored);
  }

  lemma RetryKeeps(s: State, id: Id, actor: string, next: int)
    requires Inv(s) && Retry(s, id, actor, next).1.Ok?
    ensures Inv(Retry(s, id, actor, next).0) && |Retry(s, id, actor, next).0.events| == |s.events| + 1
  {
    hide MayMove, JobOk, Record, KeysOk, Owned, StorageOk;
    var job := s.jobs[id];
    var changed := Retry(s, id, actor, next).0.jobs[id];
    var e := Event(id, WasRetried, Some(Failed), Queued, job.attempt, actor, ForAttempt(job.attempt, "retry"));
    MayRetry(job, LogOf(s.events, id), id in s.artifacts, actor, changed, e);
    MoveKeeps(s, changed, e, None);
  }

  /** The tables after a new row. */
  function Added(s: State, id: Id, job: Job, e: Event): State {
    s.(jobs := s.jobs[id := job], byKey := s.byKey[job.key := id], events := Record(s.events, e))
  }

  lemma AddedJobs(s: State, id: Id, job: Job, e: Event)
    requires JobsOk(s) && Owned(s) && id !in s.jobs && e.job == id && JobOk(job, [e], false)
    ensures JobsOk(Added(s, id, job, e)) && Added(s, id, job, e).events == s.events + [e]
  {
    hide JobOk;
    assert !Known(s.events, e);
    NoLog(s, id);
    var t := Added(s, id, job, e);
    forall other | other in t.jobs
      ensures JobOk(t.jobs[other], LogOf(t.events, other), other in t.artifacts)
    {
      LogOfAppend(s.events, e, other);
      assert other != id ==> LogOf(t.events, other) == LogOf(s.events, other);
      assert other == id ==> LogOf(t.events, other) == [e];
    }
  }

  lemma NoLog(s: State, id: Id)
    requires Owned(s) && id !in s.jobs
    ensures LogOf(s.events, id) == []
  {
    LogMembers(s.events, id);
    if LogOf(s.events, id) != [] {
      SomeMember(LogOf(s.events, id));
      assert false;
    }
  }

  lemma SomeMember(log: seq<Event>)
    requires log != []
    ensures exists e :: e in log
  {
    assert log[0] in log;
  }

  lemma AddedKeys(s: State, id: Id, job: Job, e: Event)
    requires KeysOk(s) && Owned(s) && StorageOk(s) && id !in s.jobs && e.job == id && job.key !in s.byKey
    ensures KeysOk(Added(s, id, job, e)) && Owned(Added(s, id, job, e)) && StorageOk(Added(s, id, job, e))
  {
    hide Blank, HasUrl;
  }

  lemma FirstEvent(scope: Scope, key: string, definition: Definition, now: int, id: Id)
    requires Complaint(scope, key, Some(definition)).None?
    ensures JobOk(Enqueued(scope, key, definition, now), [Event(id, WasQueued, None, Queued, 0, scope.requestedBy, ForEnqueue)], false)
  {
    hide Blank;
  }

  lemma EnqueueKeeps(s: State, id: Id, key: string, asked: Scope, definition: Option<Definition>, now: int)
    requires Inv(s) && id !in s.jobs
    ensures var (t, r) := Enqueue(s, id, key, asked, definition, now);
            Inv(t) && (t == s || |t.events| == |s.events| + 1)
  {
    hide Lower, JobOk, JobsOk, KeysOk, Owned, StorageOk, Record, Complaint, Enqueued;
    var scope := asked.(format := Lower(asked.format));
    if Complaint(scope, key, definition).None? {
      Accepted(scope, key, definition);
      var job := Enqueued(scope, key, definition.value, now);
      var e := Event(id, WasQueued, None, Queued, 0, asked.requestedBy, ForEnqueue);
      if key !in s.byKey {
        EnqueuedKey(scope, key, definition.value, now);
        FirstEvent(scope, key, definition.value, now, id);
        AddedJobs(s, id, job, e);
        AddedKeys(s, id, job, e);
      }
    }
  }

  lemma Accepted(scope: Scope, key: string, definition: Option<Definition>)
    ensures Complaint(scope, key, definition).None? ==> definition.Some?
  {
    hide Blank;
  }

  lemma EnqueuedKey(scope: Scope, key: string, definition: Definition, now: int)
    ensures Enqueued(scope, key, definition, now).key == key
  {
  }

  lemma RenderKeeps(s: State, id: Id, worker: string, outcome: Outcome, retention: int, now: int)
    requires Inv(s) && Render(s, id, worker, outcome, retention, now).1.Ok?
    ensures Inv(Render(s, id, worker, outcome, retention, now).0)
    ensures |Render(s, id, worker, outcome, retention, now).0.events| == |s.events| + 1
  {
    hide Inv, Blank, HasUrl, Record, StoredUnder;
    var (content, storageKey) := outcome.value;
    var artifact := Artifact(storageKey, content, now, now + retention * SECONDS_PER_DAY);
    FinishKeeps(s, id, worker, Succeeded, None, now, Some(artifact));
  }

  lemma FailKeeps(s: State, id: Id, worker: string, error: string, now: int)
    requires Inv(s)
    ensures var t := Fail(s, id, worker, error, now).0; Inv(t) && (t == s || |t.events| == |s.events| + 1)
  {
    hide Inv, Blank, Record;
    if RunningFor(s, id, worker) {
      FinishKeeps(s, id, worker, Failed, Some(error), now, None);
    }
  }

  /** Every step keeps the tables consistent, and a step that changes them records exactly one event. */
  lemma StepKeeps(s: State, step: Step)
    requires Inv(s) && Enabled(s, step)
    ensures Inv(Next(s, step))
    ensures Next(s, step) == s || |Next(s, step).events| == |s.events| + 1
  {
    hide Inv, Render, Fail, Retry, Enqueue, Claim;
    match step
    case Request(id, key, asked, definition, now) => EnqueueKeeps(s, id, key, asked, definition, now);
    case Take(id, worker, now, _) => ClaimKeeps(s, id, worker, now);
    case GiveUp(id, worker, error, now) => FailKeeps(s, id, worker, error, now);
    case Work(id, worker, outcome, retention, now) =>
      var done := Render(s, id, worker, outcome, retention, now);
      if done.1.Ok? {
        RenderKeeps(s, id, worker, outcome, retention, now);
      } else {
        FailKeeps(s, id, worker, Described(done.1.error), now);
      }
    case Again(id, actor, next) =>
      if Retry(s, id, actor, next).1.Ok? {
        RetryKeeps(s, id, actor, next);
      } else {
        RetryRefused(s, id, actor, next);
      }
  }

  lemma RetryRefused(s: State, id: Id, actor: string, next: int)
    requires Retry(s, id, actor, next).1.Err?
    ensures Retry(s, id, actor, next).0 == s
  {
  }

  // ------------------------------------------------------------- every run

  lemma EmptyInv()
    ensures Inv(EMPTY)
  {
  }

  /** Every state of every run satisfies the invariant. */
  lemma {:induction false} Always(states: seq<State>, i: nat)
    requires Run(states) && i < |states|
    ensures Inv(states[i])
  {
    hide Inv, Next, Enabled;
    if i == 0 {
      EmptyInv();
    } else {
      Always(states, i - 1);
      assert Follows(states[i - 1], states[i]);
      var step :| Enabled(states[i - 1], step) && states[i] == Next(states[i - 1], step);
      StepKeeps(states[i - 1], step);
    }
  }

  /** What can never be undone: rows keep their scope and key, the log only grows, success is final. */
  ghost predicate Later(s: State, t: State) {
    && (forall id | id in s.jobs :: id in t.jobs && t.jobs[id].scope == s.jobs[id].scope && t.jobs[id].key == s.jobs[id].key)
    && (forall id | id in s.jobs && s.jobs[id].status.Succeeded? :: t.jobs[id] == s.jobs[id])
    && (forall id | id in s.artifacts :: id in t.artifacts && t.artifacts[id] == s.artifacts[id])
    && (forall k | k in s.byKey :: k in t.byKey && t.byKey[k] == s.byKey[k])
    && s.events <= t.events
  }

  lemma RecordGrows(events: seq<Event>, e: Event)
    ensures events <= Record(events, e)
  {
  }

  lemma RowLater(s: State, id: Id, changed: Job, events: seq<Event>)
    requires id in s.jobs && !s.jobs[id].status.Succeeded? && changed.scope == s.jobs[id].scope && changed.key == s.jobs[id].key
    requires s.events <= events
    ensures Later(s, s.(jobs := s.jobs[id := changed], events := events))
  {
  }

  lemma FinishLater(s: State, id: Id, worker: string, target: Status, error: Option<string>, now: int)
    requires target.Succeeded? || target.Failed?
    ensures Later(s, Finish(s, id, worker, target, error, now).0)
  {
    hide Record, Later;
    LaterSelf(s);
    if RunningFor(s, id, worker) {
      var job := s.jobs[id];
      var e := Event(id, if target.Succeeded? then WasSucceeded else WasFailed, Some(Running), target, job.attempt, worker,
                     ForAttempt(job.attempt, Tag(target)));
      RecordGrows(s.events, e);
      RowLater(s, id, job.(status := target, finishedAt := Some(now), error := error), Record(s.events, e));
    }
  }

  lemma RenderLater(s: State, id: Id, worker: string, outcome: Outcome, retention: int, now: int)
    ensures Later(s, Render(s, id, worker, outcome, retention, now).0)
  {
    hide Known, Blank, HasUrl, StoredUnder, Finish, Later;
    var r := Render(s, id, worker, outcome, retention, now);
    if r.0 == s {
      assert Later(s, s) by { LaterSelf(s); }
    } else if outcome.Ok? {
      var artifact := Artifact(outcome.value.1, outcome.value.0, now, now + retention * SECONDS_PER_DAY);
      var mid := s.(artifacts := s.artifacts[id := artifact]);
      FinishLater(mid, id, worker, Succeeded, None, now);
      if id !in s.artifacts {
        WithArtifact(s, id, artifact);
        LaterTransitive(s, mid, r.0);
      }
    }
  }

  lemma WithArtifact(s: State, id: Id, artifact: Artifact)
    requires id !in s.artifacts
    ensures Later(s, s.(artifacts := s.artifacts[id := artifact]))
  {
  }

  lemma LaterSelf(s: State)
    ensures Later(s, s)
  {
  }

  lemma LaterTransitive(s: State, t: State, u: State)
    requires Later(s, t) && Later(t, u)
    ensures Later(s, u)
  {
  }

  lemma AddedLater(s: State, id: Id, job: Job, events: seq<Event>)
    requires id !in s.jobs && job.key !in s.byKey && s.events <= events
    ensures Later(s, s.(jobs := s.jobs[id := job], byKey := s.byKey[job.key := id], events := events))
  {
  }

  lemma EnqueueLater(s: State, id: Id, key: string, asked: Scope, definition: Option<Definition>, now: int)
    requires id !in s.jobs
    ensures Later(s, Enqueue(s, id, key, asked, definition, now).0)
  {
    hide Record, Complaint, Lower, Later, Enqueued;
    LaterSelf(s);
    var scope := asked.(format := Lower(asked.format));
    Accepted(scope, key, definition);
    if Complaint(scope, key, definition).None? && key !in s.byKey {
      var e := Event(id, WasQueued, None, Queued, 0, scope.requestedBy, ForEnqueue);
      RecordGrows(s.events, e);
      EnqueuedKey(scope, key, definition.value, now);
      AddedLater(s, id, Enqueued(scope, key, definition.value, now), Record(s.events, e));
    }
  }

  lemma ClaimLater(s: State, id: Id, worker: string, now: int)
    requires id in s.jobs && s.jobs[id].status.Queued?
    ensures Later(s, Claim(s, id, worker, now))
  {
  }

  lemma FailLater(s: State, id: Id, worker: string, error: string, now: int)
    ensures Later(s, Fail(s, id, worker, error, now).0)
  {
    hide Later, Finish;
    LaterSelf(s);
    FinishLater(s, id, worker, Failed, Some(error), now);
  }

  lemma RetryLater(s: State, id: Id, actor: string, next: int)
    ensures Later(s, Retry(s, id, actor, next).0)
  {
    hide Blank;
  }

  lemma StepLater(s: State, step: Step)
    requires Enabled(s, step)
    ensures Later(s, Next(s, step))
  {
    hide Later, Claim, Fail, Retry, Render, Enqueue;
    match step
    case Request(id, key, asked, definition, now) => EnqueueLater(s, id, key, asked, definition, now);
    case Take(id, worker, now, _) => ClaimLater(s, id, worker, now);
    case GiveUp(id, worker, error, now) => FailLater(s, id, worker, error, now);
    case Work(id, worker, outcome, retention, now) =>
      var done := Render(s, id, worker, outcome, retention, now);
      if done.1.Ok? {
        RenderLater(s, id, worker, outcome, retention, now);
      } else {
        FailLater(s, id, worker, Described(done.1.error), now);
      }
    case Again(id, actor, next) => RetryLater(s, id, actor, next);
  }

  /** Success, artifacts, keys, scopes and the log survive everything that follows. */
  lemma {:induction false} NothingUndone(states: seq<State>, i: nat, j: nat)
    requires Run(states) && i <= j < |states|
    ensures Later(states[i], states[j])
  {
    hide Inv, Next, Enabled, Later;
    if i == j {
      LaterSelf(states[i]);
    } else {
      NothingUndone(states, i, j - 1);
      assert Follows(states[j - 1], states[j]);
      var step :| Enabled(states[j - 1], step) && states[j] == Next(states[j - 1], step);
      StepLater(states[j - 1], step);
      LaterTransitive(states[i], states[j - 1], states[j]);
    }
  }

  // ------------------------------------------------------- what this means

  /** Attempts stay within bounds, and succeeded rows are exactly those with an artifact. */
  lemma RowBounds(states: seq<State>, i: nat, id: Id)
    requires Run(states) && i < |states| && id in states[i].jobs
    ensures var job := states[i].jobs[id];
            && job.attempt <= job.scope.maxAttempts <= 10
            && (job.status.Queued? ==> job.attempt < job.scope.maxAttempts)
            && (job.status.Succeeded? <==> id in states[i].artifacts)
            && !job.status.Canceled?
  {
    hide EventAt, Blank;
    Always(states, i);
    var log := LogOf(states[i].events, id);
    assert JobOk(states[i].jobs[id], log, id in states[i].artifacts);
    assert EventAt(log, |log| - 1);
    NeverCanceled(log, |log| - 1);
  }

  lemma NeverCanceled(log: seq<Event>, i: nat)
    requires i < |log| && EventAt(log, i)
    ensures !log[i].next.Canceled?
  {
  }

  /** Status and attempt of a job as its last event left them. */
  function Replayed(events: seq<Event>, id: Id): Option<(Status, nat)> {
    if events == [] then None
    else
      var last := events[|events| - 1];
      if last.job == id then Some((last.next, last.attempt)) else Replayed(events[..|events| - 1], id)
  }

  lemma {:induction false} ReplayReadsLog(events: seq<Event>, id: Id)
    ensures var log := LogOf(events, id);
            Replayed(events, id) == if log == [] then None else Some((log[|log| - 1].next, log[|log| - 1].attempt))
  {
    if events != [] {
      ReplayReadsLog(events[..|events| - 1], id);
    }
  }

  /** Replaying the event log gives every row's status and attempt. */
  lemma LogGivesStatus(states: seq<State>, i: nat, id: Id)
    requires Run(states) && i < |states|
    ensures Replayed(states[i].events, id) ==
            if id in states[i].jobs then Some((states[i].jobs[id].status, states[i].jobs[id].attempt)) else None
  {
    hide EventAt, Blank, Shape;
    var s := states[i];
    Always(states, i);
    ReplayReadsLog(s.events, id);
    if id in s.jobs {
      assert JobOk(s.jobs[id], LogOf(s.events, id), id in s.artifacts);
    } else {
      NoLog(s, id);
    }
  }

  predicate Terminal(e: Event) {
    e.kind.WasSucceeded? || e.kind.WasFailed?
  }

  lemma EventAtAll(states: seq<State>, i: nat, id: Id)
    requires Run(states) && i < |states| && id in states[i].jobs
    ensures var log := LogOf(states[i].events, id);
            Shape(log) && log != [] && log[|log| - 1].attempt <= states[i].jobs[id].scope.maxAttempts
            && (log[|log| - 1].next.Queued? ==> log[|log| - 1].attempt < states[i].jobs[id].scope.maxAttempts)
  {
    hide Blank, EventAt;
    Always(states, i);
    assert JobOk(states[i].jobs[id], LogOf(states[i].events, id), id in states[i].artifacts);
  }

  lemma OutcomePlace(log: seq<Event>, a: nat)
    requires Shape(log) && a < |log| && Terminal(log[a])
    ensures a == 3 * log[a].attempt - 1
    ensures a > 0 && log[a - 1].kind.WasStarted? && log[a - 1].attempt == log[a].attempt && log[a - 1].actor == log[a].actor
  {
    assert EventAt(log, a) && (a > 0 ==> EventAt(log, a - 1));
  }

  /** Each attempt ends at most once, by the worker that started it. */
  lemma OneOutcomePerAttempt(states: seq<State>, i: nat, id: Id, a: nat, b: nat)
    requires Run(states) && i < |states| && id in states[i].jobs
    requires var log := LogOf(states[i].events, id); a <= b < |log| && Terminal(log[a]) && Terminal(log[b]) && log[a].attempt == log[b].attempt
    ensures a == b
    ensures var log := LogOf(states[i].events, id);
            a > 0 && log[a - 1].kind.WasStarted? && log[a - 1].attempt == log[a].attempt && log[a - 1].actor == log[a].actor
  {
    hide Run, Terminal, Shape;
    EventAtAll(states, i, id);
    OutcomePlace(LogOf(states[i].events, id), a);
    OutcomePlace(LogOf(states[i].events, id), b);
  }

  lemma LastPlace(log: seq<Event>)
    requires Shape(log) && log != []
    ensures |log| <= 3 * log[|log| - 1].attempt + if log[|log| - 1].next.Queued? then 1 else 0
  {
    assert EventAt(log, |log| - 1);
  }

  /** A job has at most three events per attempt. */
  lemma LogIsShort(states: seq<State>, i: nat, id: Id)
    requires Run(states) && i < |states| && id in states[i].jobs
    ensures |LogOf(states[i].events, id)| <= 3 * states[i].jobs[id].scope.maxAttempts
  {
    hide Run, Shape;
    EventAtAll(states, i, id);
    LastPlace(LogOf(states[i].events, id));
  }

  /** One key means one job, for good: asking again for the same thing finds it and changes nothing. */
  lemma AskingAgain(states: seq<State>, i: nat, j: nat, id: Id, other: Id, key: string, asked: Scope,
                    definition: Option<Definition>, later: Option<Definition>, now: int, after: int)
    requires Run(states) && i < j < |states| && id !in states[i].jobs && later.Some?
    requires Enqueue(states[i], id, key, asked, definition, now).1.Ok?
    requires states[i + 1] == Enqueue(states[i], id, key, asked, definition, now).0
    ensures var first := Enqueue(states[i], id, key, asked, definition, now).1.value;
            var again := Enqueue(states[j], other, key, asked, later, after);
            again.0 == states[j] && again.1.Ok? && again.1.value.id == first.id && !again.1.value.created
  {
    hide Inv, Blank, Known, Lower, Record;
    NothingUndone(states, i + 1, j);
    KeyBound(states[i], id, key, asked, definition, now);
  }

  lemma KeyBound(s: State, id: Id, key: string, asked: Scope, definition: Option<Definition>, now: int)
    requires Enqueue(s, id, key, asked, definition, now).1.Ok?
    ensures var (t, r) := Enqueue(s, id, key, asked, definition, now);
            key in t.byKey && t.byKey[key] == r.value.id && r.value.id in t.jobs
            && t.jobs[r.value.id].scope == asked.(format := Lower(asked.format))
            && Complaint(asked.(format := Lower(asked.format)), key, definition).None?
  {
    hide Blank, Known, Lower;
  }

  lemma SameKeySameJob(states: seq<State>, i: nat, a: Id, b: Id)
    requires Run(states) && i < |states| && a in states[i].jobs && b in states[i].jobs
    requires states[i].jobs[a].key == states[i].jobs[b].key
    ensures a == b
  {
    hide JobsOk, StorageOk, Owned;
    Always(states, i);
  }

  /** The clause that drops duplicate events never drops one: what changes a row is recorded. */
  lemma EveryChangeRecorded(states: seq<State>, i: nat)
    requires Run(states) && i + 1 < |states| && states[i + 1] != states[i]
    ensures |states[i + 1].events| == |states[i].events| + 1
  {
    hide Inv, Next, Enabled;
    Always(states, i);
    assert Follows(states[i], states[i + 1]);
    var step :| Enabled(states[i], step) && states[i + 1] == Next(states[i], step);
    StepKeeps(states[i], step);
  }
}
