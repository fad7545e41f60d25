/** What each transaction of the report queue asks for and leaves behind, field by field. */
module JobLaws {
  import opened Texts
  import opened Wrappers
  import opened ReportJobs

  /** An event is dropped exactly when one of the same job, kind, attempt and tag is there. */
  lemma RecordLaw(events: seq<Event>, e: Event)
    ensures Record(events, e) ==
            if exists i | 0 <= i < |events| ::
                 events[i].job == e.job && events[i].kind == e.kind && events[i].attempt == e.attempt && events[i].dedupe == e.dedupe
            then events else events + [e]
  {
    if Known(events, e) {
      var i :| 0 <= i < |events| && SameIdentity(events[i], e);
    }
    if i :| 0 <= i < |events| && events[i].job == e.job && events[i].kind == e.kind && events[i].attempt == e.attempt && events[i].dedupe == e.dedupe {
      assert SameIdentity(events[i], e);
    }
  }

  /** A request that can be met: a known format, dates in order, a key, one to ten attempts and an active definition. */
  predicate Sound(asked: Scope, key: string, definition: Option<Definition>) {
    && Lower(asked.format) in {"csv", "xlsx", "pdf"} && asked.dateFrom <= asked.dateTo
    && (exists i | 0 <= i < |key| :: !Space(key[i]))
    && 1 <= asked.maxAttempts <= 10 && definition.Some?
  }

  /** A sound request under an unused key becomes a queued job; under a used one it finds the job if that asks for the same. */
  lemma EnqueueLaw(s: State, id: Id, key: string, asked: Scope, definition: Option<Definition>, now: int)
    ensures var (t, r) := Enqueue(s, id, key, asked, definition, now);
            var scope := asked.(format := Lower(asked.format));
            && (r.Ok? <==> Sound(asked, key, definition) && (key in s.byKey ==> s.byKey[key] in s.jobs && s.jobs[s.byKey[key]].scope == scope))
            && (r.Err? ==> t == s)
            && (r.Ok? && key in s.byKey ==>
                  t == s && r.value == JobRef(s.byKey[key], s.jobs[s.byKey[key]].status, s.jobs[s.byKey[key]].attempt, false))
            && (r.Ok? && key !in s.byKey ==>
                  && r.value == JobRef(id, Queued, 0, true) && t.byKey == s.byKey[key := id] && t.artifacts == s.artifacts
                  && t.jobs == s.jobs[id := Job(scope, key, definition.value, Queued, 0, None, now, now, None, None, None)]
                  && t.events == Record(s.events, Event(id, WasQueued, None, Queued, 0, asked.requestedBy, ForEnqueue)))
  {
    hide Record, Lower;
    if Blank(key) {
      forall i | 0 <= i < |key|
        ensures Space(key[i])
      {
        assert key[i] in key;
      }
    }
  }

  /** A queued job can be claimed from its instant on, unless another worker has it locked; the one that waited longest goes first. */
  lemma ClaimableLaw(s: State, id: Id, now: int, locked: set<Id>)
    ensures Claimable(s, id, now, locked) <==> id in s.jobs && id !in locked && s.jobs[id].status == Queued && now >= s.jobs[id].nextAttemptAt
    ensures forall a: Job, b: Job :: NotAfter(a, b) && NotAfter(b, a) ==> a.nextAttemptAt == b.nextAttemptAt && a.queuedAt == b.queuedAt
    ensures forall a: Job, b: Job | a.nextAttemptAt < b.nextAttemptAt :: NotAfter(a, b)
    ensures forall a: Job, b: Job | a.nextAttemptAt == b.nextAttemptAt && a.queuedAt < b.queuedAt :: NotAfter(a, b)
  {
  }

  /** A claim starts one more attempt of the job for the worker. */
  lemma ClaimLaw(s: State, id: Id, worker: string, now: int)
    requires id in s.jobs
    ensures var (t, was) := (Claim(s, id, worker, now), s.jobs[id]);
            && t.jobs.Keys == s.jobs.Keys && (forall other | other in s.jobs && other != id :: t.jobs[other] == s.jobs[other])
            && t.jobs[id] == Job(was.scope, was.key, was.snapshot, Running, was.attempt + 1, Some(worker), was.queuedAt, was.nextAttemptAt, Some(now),
                                 None, None)
            && t.byKey == s.byKey && t.artifacts == s.artifacts
            && t.events == Record(s.events, Event(id, WasStarted, Some(Queued), Running, was.attempt + 1, worker, ForAttempt(was.attempt + 1, "start")))
  {
    hide Record;
  }

  /** Only the worker that runs a job can fail it, and only with a reason. */
  lemma FailLaw(s: State, id: Id, worker: string, error: string, now: int)
    ensures var (t, r) := Fail(s, id, worker, error, now);
            && (r.Ok? <==> !Blank(error) && id in s.jobs && s.jobs[id].status == Running && s.jobs[id].worker == Some(worker))
            && (r.Err? ==> t == s)
            && (r.Ok? ==>
                  var was := s.jobs[id];
                  && t.jobs == s.jobs[id := Job(was.scope, was.key, was.snapshot, Failed, was.attempt, was.worker, was.queuedAt, was.nextAttemptAt,
                                                was.startedAt, Some(now), Some(error))]
                  && t.byKey == s.byKey && t.artifacts == s.artifacts
                  && t.events == Record(s.events, Event(id, WasFailed, Some(Running), Failed, was.attempt, worker, ForAttempt(was.attempt, "failed"))))
  {
    hide Record, Blank;
  }

  /** A failed job with attempts left can be queued again, for everybody and from the given instant on. */
  lemma RetryLaw(s: State, id: Id, actor: string, next: int)
    ensures var (t, r) := Retry(s, id, actor, next);
            && (r.Ok? <==> id in s.jobs && s.jobs[id].status == Failed && s.jobs[id].attempt < s.jobs[id].scope.maxAttempts)
            && (r.Err? ==> t == s)
            && (r.Ok? ==>
                  var was := s.jobs[id];
                  && t.jobs == s.jobs[id := Job(was.scope, was.key, was.snapshot, Queued, was.attempt, None, next, next, None, None, None)]
                  && t.byKey == s.byKey && t.artifacts == s.artifacts
                  && t.events == Record(s.events, Event(id, WasRetried, Some(Failed), Queued, was.attempt, actor, ForAttempt(was.attempt, "retry"))))
  {
    hide Record;
  }

  /** A private storage key: not blank, no URL, and not in use. */
  predicate Private(s: State, storageKey: string) {
    && (exists i | 0 <= i < |storageKey| :: !Space(storageKey[i]))
    && (forall i | 0 <= i < |storageKey| - 2 :: !(storageKey[i] == ':' && storageKey[i + 1] == '/' && storageKey[i + 2] == '/'))
    && forall id | id in s.artifacts :: s.artifacts[id].storageKey != storageKey
  }

  lemma PrivateIs(s: State, storageKey: string)
    ensures Private(s, storageKey) <==> !Blank(storageKey) && !HasUrl(storageKey) && !StoredUnder(s.artifacts, storageKey)
  {
    assert Blank(storageKey) <==> forall i | 0 <= i < |storageKey| :: Space(storageKey[i]) by {
      if Blank(storageKey) {
        assert forall i | 0 <= i < |storageKey| :: storageKey[i] in storageKey;
      }
    }
    if HasUrl(storageKey) {
      var i :| 0 <= i <= |storageKey| - 3 && storageKey[i..][..3] == "://";
      assert storageKey[i] == storageKey[i..][..3][0] && storageKey[i + 1] == storageKey[i..][..3][1] && storageKey[i + 2] == storageKey[i..][..3][2];
    }
    if i :| 0 <= i < |storageKey| - 2 && storageKey[i] == ':' && storageKey[i + 1] == '/' && storageKey[i + 2] == '/' {
      assert storageKey[i..][..3] == "://";
    }
  }

  /** Rendering succeeds with its artifact, kept for so many days, or changes nothing. */
  lemma RenderLaw(s: State, id: Id, worker: string, outcome: Outcome, retention: int, now: int)
    ensures var (t, r) := Render(s, id, worker, outcome, retention, now);
            && (r.Ok? <==>
                  && 1 <= retention <= 3650 && id in s.jobs && s.jobs[id].status == Running && s.jobs[id].worker == Some(worker)
                  && outcome.Ok? && Private(s, outcome.value.1) && id !in s.artifacts)
            && (r.Err? ==> t == s)
            && (r.Ok? ==>
                  var was := s.jobs[id];
                  && t.artifacts == s.artifacts[id := Artifact(outcome.value.1, outcome.value.0, now, now + retention * 86400)]
                  && t.jobs == s.jobs[id := Job(was.scope, was.key, was.snapshot, Succeeded, was.attempt, was.worker, was.queuedAt, was.nextAttemptAt,
                                                was.startedAt, Some(now), None)]
                  && t.byKey == s.byKey
                  && t.events == Record(s.events, Event(id, WasSucceeded, Some(Running), Succeeded, was.attempt, worker,
                                                        ForAttempt(was.attempt, "succeeded"))))
  {
    hide Record, Blank, HasUrl, StoredUnder, Private;
    if outcome.Ok? {
      PrivateIs(s, outcome.value.1);
    }
  }

  /** The recorded text of a raised exception: its own, at most 2000 characters of it, or its type's name when it has none. */
  lemma DescribedLaw(e: Exception)
    ensures var text := Described(Raised(e));
            && |text| <= (if e.text == "" then |e.typeName| else 2000)
            && (e.text == "" ==> text == e.typeName) && (e.text != "" ==> text <= e.text)
            && (e.text != "" && |e.text| <= 2000 ==> text == e.text) && (|e.text| > 2000 ==> |text| == 2000)
  {
  }
}
