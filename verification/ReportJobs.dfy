/**
 The report queue of one tenant: enqueue, claim, render, finish and retry, each one
 transaction. A class holds the tables; its methods are proved against functions on
 the whole state, and the protocol's promises are proved of every run of those steps.
 */
module ReportJobs {
  import opened Texts
  import opened Wrappers

  type Id = string

  datatype Status = Queued | Running | Succeeded | Failed | Canceled

  datatype Scope = Scope(
    code: string, version: int, requestedBy: string, dateFrom: int, dateTo: int,
    filters: map<string, string>, format: string, maxAttempts: int)

  datatype Definition = Definition(title: string, contract: string, renderVersion: int, body: string)

  datatype Job = Job(
    scope: Scope, key: string, snapshot: Definition, status: Status, attempt: nat, worker: Option<string>,
    queuedAt: int, nextAttemptAt: int, startedAt: Option<int>, finishedAt: Option<int>, error: Option<string>)

  datatype Kind = WasQueued | WasStarted | WasSucceeded | WasFailed | WasRetried

  datatype Dedupe = ForEnqueue | ForAttempt(attempt: nat, tag: string)

  datatype Event = Event(
    job: Id, kind: Kind, previous: Option<Status>, next: Status, attempt: nat, actor: string, dedupe: Dedupe)

  datatype Artifact = Artifact(storageKey: string, content: string, createdAt: int, expiresAt: int)

  /** The tables, with the unique index from idempotency keys to jobs. */
  datatype State = State(
    jobs: map<Id, Job>, byKey: map<string, Id>, events: seq<Event>, artifacts: map<Id, Artifact>)

  datatype JobRef = JobRef(id: Id, status: Status, attempt: nat, created: bool)

  datatype Error =
    | UnsupportedFormat | DatesReversed | KeyMissing | BadMaxAttempts | NoDefinition | IdempotencyConflict
    | NotRunningForWorker | ErrorMissing | NotRetryable | BadRetention | BadStorageKey | NotUnique
    | Raised(exception: Exception)

  datatype Exception = Exception(text: string, typeName: string)

  const MAX_RETENTION := 3650
  const SECONDS_PER_DAY := 86400

  // ----------------------------------------------------------- the event log

  predicate SameIdentity(a: Event, b: Event) {
    a.job == b.job && a.kind == b.kind && a.attempt == b.attempt && a.dedupe == b.dedupe
  }

  predicate Known(events: seq<Event>, e: Event) {
    exists i | 0 <= i < |events| :: SameIdentity(events[i], e)
  }

  /** Appending an event does nothing when one with its identity is already there. */
  function Record(events: seq<Event>, e: Event): seq<Event> {
    if Known(events, e) then events else events + [e]
  }

  // -------------------------------------------------------- the transactions

  function Enqueued(scope: Scope, key: string, definition: Definition, now: int): Job {
    Job(scope, key, definition, Queued, 0, None, now, now, None, None, None)
  }

  /** What is wrong with a request, in the order the code looks. */
  function Complaint(scope: Scope, key: string, definition: Option<Definition>): Option<Error> {
    if scope.format !in {"csv", "xlsx", "pdf"} then Some(UnsupportedFormat)
    else if scope.dateFrom > scope.dateTo then Some(DatesReversed)
    else if Blank(key) then Some(KeyMissing)
    else if !(1 <= scope.maxAttempts <= 10) then Some(BadMaxAttempts)
    else if definition.None? then Some(NoDefinition)
    else None
  }

  /** One request: a new job under an unused key, the existing job for the same scope, or a conflict. */
  function Enqueue(s: State, id: Id, key: string, asked: Scope, definition: Option<Definition>, now: int): (State, Result<JobRef, Error>) {
    var scope := asked.(format := Lower(asked.format));
    var complaint := Complaint(scope, key, definition);
    if complaint.Some? then (s, Err(complaint.value))
    else if key !in s.byKey then
      (s.(jobs := s.jobs[id := Enqueued(scope, key, definition.value, now)],
          byKey := s.byKey[key := id],
          events := Record(s.events, Event(id, WasQueued, None, Queued, 0, scope.requestedBy, ForEnqueue))),
       Ok(JobRef(id, Queued, 0, true)))
    else
      var existing := s.byKey[key];
      if existing !in s.jobs || s.jobs[existing].scope != scope then (s, Err(IdempotencyConflict))
      else (s, Ok(JobRef(existing, s.jobs[existing].status, s.jobs[existing].attempt, false)))
  }

  predicate Claimable(s: State, id: Id, now: int, locked: set<Id>) {
    id in s.jobs && s.jobs[id].status.Queued? && s.jobs[id].nextAttemptAt <= now && id !in locked
  }

  predicate NotAfter(a: Job, b: Job) {
    a.nextAttemptAt < b.nextAttemptAt || (a.nextAttemptAt == b.nextAttemptAt && a.queuedAt <= b.queuedAt)
  }

  /** The claim of one queued job by one worker. */
  function Claim(s: State, id: Id, worker: string, now: int): State
    requires id in s.jobs
  {
    var job := s.jobs[id];
    var attempt := job.attempt + 1;
    s.(jobs := s.jobs[id := job.(status := Running, attempt := attempt, worker := Some(worker), startedAt := Some(now), finishedAt := None, error := None)],
       events := Record(s.events, Event(id, WasStarted, Some(Queued), Running, attempt, worker, ForAttempt(attempt, "start"))))
  }

  predicate RunningFor(s: State, id: Id, worker: string) {
    id in s.jobs && s.jobs[id].status.Running? && s.jobs[id].worker == Some(worker)
  }

  function Tag(target: Status): string {
    if target.Succeeded? then "succeeded" else "failed"
  }

  /** A running job ends, for the worker that claimed it and for nobody else. */
  function Finish(s: State, id: Id, worker: string, target: Status, error: Option<string>, now: int): (State, Result<JobRef, Error>)
    requires target.Succeeded? || target.Failed?
  {
    if !RunningFor(s, id, worker) then (s, Err(NotRunningForWorker))
    else
      var job := s.jobs[id];
      (s.(jobs := s.jobs[id := job.(status := target, finishedAt := Some(now), error := error)],
          events := Record(s.events, Event(id, if target.Succeeded? then WasSucceeded else WasFailed, Some(Running), target, job.attempt, worker,
                                           ForAttempt(job.attempt, Tag(target))))),
       Ok(JobRef(id, target, job.attempt, false)))
  }

  function Fail(s: State, id: Id, worker: string, error: string, now: int): (State, Result<JobRef, Error>) {
    if Blank(error) then (s, Err(ErrorMissing)) else Finish(s, id, worker, Failed, Some(error), now)
  }

  function Retry(s: State, id: Id, actor: string, nextAttemptAt: int): (State, Result<JobRef, Error>) {
    if !(id in s.jobs && s.jobs[id].status.Failed? && s.jobs[id].attempt < s.jobs[id].scope.maxAttempts) then (s, Err(NotRetryable))
    else
      var job := s.jobs[id];
      (s.(jobs := s.jobs[id := job.(status := Queued, queuedAt := nextAttemptAt, nextAttemptAt := nextAttemptAt,
                                    startedAt := None, finishedAt := None, worker := None, error := None)],
          events := Record(s.events, Event(id, WasRetried, Some(Failed), Queued, job.attempt, actor, ForAttempt(job.attempt, "retry")))),
       Ok(JobRef(id, Queued, job.attempt, false)))
  }

  predicate HasUrl(s: string) {
    exists i | 0 <= i <= |s| - 3 :: s[i..][..3] == "://"
  }

  predicate StoredUnder(artifacts: map<Id, Artifact>, storageKey: string) {
    exists id | id in artifacts :: artifacts[id].storageKey == storageKey
  }

  /** What rendering and private storage gave: content and its key, or an exception. */
  type Outcome = Result<(string, string), Exception>

  /** Render, store, record the artifact and succeed, in one transaction that an error undoes. */
  function Render(s: State, id: Id, worker: string, outcome: Outcome, retention: int, now: int): (State, Result<JobRef, Error>) {
    if !(1 <= retention <= MAX_RETENTION) then (s, Err(BadRetention))
    else if !RunningFor(s, id, worker) then (s, Err(NotRunningForWorker))
    else if outcome.Err? then (s, Err(Raised(outcome.error)))
    else
      var (content, storageKey) := outcome.value;
      if Blank(storageKey) || HasUrl(storageKey) then (s, Err(BadStorageKey))
      else if id in s.artifacts || StoredUnder(s.artifacts, storageKey) then (s, Err(NotUnique))
      else
        var artifact := Artifact(storageKey, content, now, now + retention * SECONDS_PER_DAY);
        Finish(s.(artifacts := s.artifacts[id := artifact]), id, worker, Succeeded, None, now)
  }

  function Described(e: Error): string {
    match e
    case Raised(Exception(text, typeName)) => if text == "" then typeName else if |text| > 2000 then text[..2000] else text
    case BadRetention => "retention_days must be between 1 and 3650"
    case NotRunningForWorker => "claimed report job not found for worker and tenant"
    case BadStorageKey => "artifact store must return an opaque private storage key, not a URL"
    case NotUnique => "duplicate key value violates unique constraint"
    case _ => "error"
  }

  /** The worker's second transaction: render, or after an error record the failure. */
  function RenderOrFail(s: State, id: Id, worker: string, outcome: Outcome, retention: int, now: int): (State, Result<JobRef, Error>) {
    var done := Render(s, id, worker, outcome, retention, now);
    if done.1.Ok? then done else Fail(s, id, worker, Described(done.1.error), now)
  }

  lemma RenderUndone(s: State, id: Id, worker: string, outcome: Outcome, retention: int, now: int)
    ensures var done := Render(s, id, worker, outcome, retention, now); done.1.Err? ==> done.0 == s
  {
    hide Blank, HasUrl;
  }

  // ------------------------------------------------------------- the tables

  class Queue {
    var jobs: map<Id, Job>
    var byKey: map<string, Id>
    var events: seq<Event>
    var artifacts: map<Id, Artifact>

    function Tables(): State
      reads this
    {
      State(jobs, byKey, events, artifacts)
    }

    constructor ()
      ensures Tables() == State(map[], map[], [], map[])
    {
      jobs, byKey, events, artifacts := map[], map[], [], map[];
    }

    method Append(e: Event)
      modifies this`events
      ensures events == Record(old(events), e)
    {
      var i := 0;
      while i < |events|
        invariant 0 <= i <= |events|
        invariant forall k | 0 <= k < i :: !SameIdentity(events[k], e)
      {
        if SameIdentity(events[i], e) {
          return;
        }
        i := i + 1;
      }
      events := events + [e];
    }

    /** The id of a new row is a fresh UUID. */
    method EnqueueJob(id: Id, key: string, asked: Scope, definition: Option<Definition>, now: int) returns (r: Result<JobRef, Error>)
      requires id !in jobs
      modifies this
      ensures (Tables(), r) == Enqueue(old(Tables()), id, key, asked, definition, now)
    {
      var scope := asked.(format := Lower(asked.format));
      if scope.format !in {"csv", "xlsx", "pdf"} {
        return Err(UnsupportedFormat);
      }
      if scope.dateFrom > scope.dateTo {
        return Err(DatesReversed);
      }
      if Blank(key) {
        return Err(KeyMissing);
      }
      if !(1 <= scope.maxAttempts <= 10) {
        return Err(BadMaxAttempts);
      }
      if definition.None? {
        return Err(NoDefinition);
      }
      if key !in byKey {
        jobs := jobs[id := Enqueued(scope, key, definition.value, now)];
        byKey := byKey[key := id];
        Append(Event(id, WasQueued, None, Queued, 0, scope.requestedBy, ForEnqueue));
        return Ok(JobRef(id, Queued, 0, true));
      }
      var existing := byKey[key];
      if existing !in jobs || jobs[existing].scope != scope {
        return Err(IdempotencyConflict);
      }
      return Ok(JobRef(existing, jobs[existing].status, jobs[existing].attempt, false));
    }

    /** Claims the due job that has waited longest, past the rows other transactions hold. */
    method ClaimNext(worker: string, now: int, locked: set<Id>) returns (r: Option<JobRef>)
      modifies this
      ensures r.None? <==> forall id :: !Claimable(old(Tables()), id, now, locked)
      ensures r.None? ==> Tables() == old(Tables())
      ensures r.Some? ==>
                && Claimable(old(Tables()), r.value.id, now, locked)
                && (forall other | Claimable(old(Tables()), other, now, locked) :: NotAfter(old(jobs)[r.value.id], old(jobs)[other]))
                && Tables() == Claim(old(Tables()), r.value.id, worker, now)
                && r.value == JobRef(r.value.id, Running, old(jobs)[r.value.id].attempt + 1, false)
    {
      var best: Option<Id> := None;
      var left := jobs.Keys;
      while left != {}
        invariant left <= jobs.Keys && Tables() == old(Tables())
        invariant best.None? ==> forall id | id in jobs.Keys - left :: !Claimable(Tables(), id, now, locked)
        invariant best.Some? ==> Claimable(Tables(), best.value, now, locked)
        invariant best.Some? ==> forall id | id in jobs.Keys - left && Claimable(Tables(), id, now, locked) :: NotAfter(jobs[best.value], jobs[id])
        decreases left
      {
        var id :| id in left;
        if Claimable(Tables(), id, now, locked) && (best.None? || !NotAfter(jobs[best.value], jobs[id])) {
          best := Some(id);
        }
        left := left - {id};
      }
      if best.None? {
        return None;
      }
      var id := best.value;
      var job := jobs[id];
      var attempt := job.attempt + 1;
      jobs := jobs[id := job.(status := Running, attempt := attempt, worker := Some(worker), startedAt := Some(now), finishedAt := None, error := None)];
      Append(Event(id, WasStarted, Some(Queued), Running, attempt, worker, ForAttempt(attempt, "start")));
      return Some(JobRef(id, Running, attempt, false));
    }

    method FinishJob(id: Id, worker: string, target: Status, error: Option<string>, now: int) returns (r: Result<JobRef, Error>)
      requires target.Succeeded? || target.Failed?
      modifies this
      ensures (Tables(), r) == Finish(old(Tables()), id, worker, target, error, now)
    {
      if !RunningFor(Tables(), id, worker) {
        return Err(NotRunningForWorker);
      }
      var job := jobs[id];
      jobs := jobs[id := job.(status := target, finishedAt := Some(now), error := error)];
      Append(Event(id, if target.Succeeded? then WasSucceeded else WasFailed, Some(Running), target, job.attempt, worker,
                   ForAttempt(job.attempt, Tag(target))));
      return Ok(JobRef(id, target, job.attempt, false));
    }

    method FailJob(id: Id, worker: string, error: string, now: int) returns (r: Result<JobRef, Error>)
      modifies this
      ensures (Tables(), r) == Fail(old(Tables()), id, worker, error, now)
    {
      if Blank(error) {
        return Err(ErrorMissing);
      }
      r := FinishJob(id, worker, Failed, Some(error), now);
    }

    method RetryJob(id: Id, actor: string, nextAttemptAt: int) returns (r: Result<JobRef, Error>)
      modifies this
      ensures (Tables(), r) == Retry(old(Tables()), id, actor, nextAttemptAt)
    {
      if !(id in jobs && jobs[id].status.Failed? && jobs[id].attempt < jobs[id].scope.maxAttempts) {
        return Err(NotRetryable);
      }
      var job := jobs[id];
      jobs := jobs[id := job.(status := Queued, queuedAt := nextAttemptAt, nextAttemptAt := nextAttemptAt,
                              startedAt := None, finishedAt := None, worker := None, error := None)];
      Append(Event(id, WasRetried, Some(Failed), Queued, job.attempt, actor, ForAttempt(job.attempt, "retry")));
      return Ok(JobRef(id, Queued, job.attempt, false));
    }

    /** Artifact and success together; every error comes before the first write. */
    method RenderClaimedJob(id: Id, worker: string, outcome: Outcome, retention: int, now: int) returns (r: Result<JobRef, Error>)
      modifies this
      ensures (Tables(), r) == Render(old(Tables()), id, worker, outcome, retention, now)
    {
      if !(1 <= retention <= MAX_RETENTION) {
        return Err(BadRetention);
      }
      if !RunningFor(Tables(), id, worker) {
        return Err(NotRunningForWorker);
      }
      if outcome.Err? {
        return Err(Raised(outcome.error));
      }
      var (content, storageKey) := outcome.value;
      if Blank(storageKey) || HasUrl(storageKey) {
        return Err(BadStorageKey);
      }
      if id in artifacts || StoredUnder(artifacts, storageKey) {
        return Err(NotUnique);
      }
      artifacts := artifacts[id := Artifact(storageKey, content, now, now + retention * SECONDS_PER_DAY)];
      r := FinishJob(id, worker, Succeeded, None, now);
    }

    /** The worker's second transaction, after the claim was committed. */
    method RenderOrFailJob(id: Id, worker: string, outcome: Outcome, retention: int, now: int) returns (r: Result<JobRef, Error>)
      modifies this
      ensures (Tables(), r) == RenderOrFail(old(Tables()), id, worker, outcome, retention, now)
    {
      hide Render, Fail, Described;
      RenderUndone(Tables(), id, worker, outcome, retention, now);
      r := RenderClaimedJob(id, worker, outcome, retention, now);
      if r.Err? {
        r := FailJob(id, worker, Described(r.error), now);
      }
    }
  }
}
