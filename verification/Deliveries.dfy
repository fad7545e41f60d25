/**
 Scheduled reports: every due schedule gets one run row for its slot, a report job unless
 its recipient has left the tenant, and then its next slot.
 */
module Deliveries {
  import opened Wrappers
  import Jobs = ReportJobs
  import Protocol = ReportProtocol
  import Slots = ScheduleSlots

  type Id = string

  /** firstRunAt is the slot the schedule started with. */
  datatype Schedule = Schedule(
    spec: Slots.Spec, nextRunAt: int, enabled: bool, firstRunAt: int, code: string, version: int,
    definition: Jobs.Definition, recipient: string, windowDays: int, filters: map<string, string>, format: string)

  /** A run without a job was blocked because its recipient is no member. */
  datatype RunRow = RunRow(job: Option<Jobs.Id>)

  datatype State = State(schedules: map<Id, Schedule>, runs: map<(Id, int), RunRow>, queue: Jobs.State)

  datatype Error = BadSchedule(why: Slots.Error) | NotQueued(error: Jobs.Error) | NoSchedule

  /** The text of an idempotency key; distinct slots have distinct keys. */
  type KeyOf = (Id, int) -> string

  ghost predicate Injective(key: KeyOf) {
    forall a, t, b, u | key(a, t) == key(b, u) :: a == b && t == u
  }

  function ScopeFor(s: Schedule): Jobs.Scope {
    var dateTo := s.nextRunAt / Slots.DAY - 1;
    Jobs.Scope(s.code, s.version, s.recipient, dateTo - (s.windowDays - 1), dateTo, s.filters, s.format, 3)
  }

  function AddRun(runs: map<(Id, int), RunRow>, id: Id, t: int, row: RunRow): map<(Id, int), RunRow> {
    if (id, t) in runs then runs else runs[(id, t) := row]
  }

  /** One due schedule; the flag says whether a job was created. */
  function Visit(d: State, id: Id, jobId: Jobs.Id, members: set<string>, now: int, key: KeyOf): Result<(State, bool), Error> {
    if id !in d.schedules then Err(NoSchedule)
    else
      var s := d.schedules[id];
      var t := s.nextRunAt;
      var trouble := Slots.Trouble(s.spec, Slots.Aware(t));
      if trouble.Some? then Err(BadSchedule(trouble.value))
      else
        var schedules := d.schedules[id := s.(nextRunAt := Slots.Following(s.spec, t))];
        if s.recipient !in members then
          Ok((State(schedules, AddRun(d.runs, id, t, RunRow(None)), d.queue), false))
        else
          match Jobs.Enqueue(d.queue, jobId, key(id, t), ScopeFor(s), Some(s.definition), now)
          case (_, Err(e)) => Err(NotQueued(e))
          case (queue, Ok(job)) => Ok((State(schedules, AddRun(d.runs, id, t, RunRow(Some(job.id))), queue), job.created))
  }

  /** A batch is one transaction: the first error undoes it. */
  function VisitAll(d: State, ids: seq<Id>, jobIds: seq<Jobs.Id>, members: set<string>, now: int, key: KeyOf): Result<(State, nat), Error>
    requires |jobIds| == |ids|
  {
    if ids == [] then Ok((d, 0))
    else
      var n := |ids| - 1;
      match VisitAll(d, ids[..n], jobIds[..n], members, now, key)
      case Err(e) => Err(e)
      case Ok((mid, created)) =>
        match Visit(mid, ids[n], jobIds[n], members, now, key)
        case Err(e) => Err(e)
        case Ok((end, one)) => Ok((end, created + if one then 1 else 0))
  }

  class Store {
    var schedules: map<Id, Schedule>
    var runs: map<(Id, int), RunRow>
    const queue: Jobs.Queue

    function Tables(): State
      reads this, queue
    {
      State(schedules, runs, queue.Tables())
    }

    constructor (queue: Jobs.Queue)
      ensures this.queue == queue && Tables() == State(map[], map[], queue.Tables())
    {
      schedules, runs, this.queue := map[], map[], queue;
    }

    method VisitOne(id: Id, jobId: Jobs.Id, members: set<string>, now: int, key: KeyOf) returns (r: Result<bool, Error>)
      requires id in schedules && Slots.ValidTime(schedules[id].spec) && jobId !in queue.jobs
      modifies this, queue
      ensures match Visit(old(Tables()), id, jobId, members, now, key)
              case Err(e) => r == Err(e)
              case Ok((t, created)) => r == Ok(created) && Tables() == t
    {
      hide Slots.Trouble, Slots.Following;
      var s := schedules[id];
      var scheduledFor := s.nextRunAt;
      var following := Slots.NextRun(s.spec, Slots.Aware(scheduledFor));
      if following.Err? {
        return Err(BadSchedule(following.error));
      }
      var created := false;
      if s.recipient !in members {
        runs := AddRun(runs, id, scheduledFor, RunRow(None));
      } else {
        var job := queue.EnqueueJob(jobId, key(id, scheduledFor), ScopeFor(s), Some(s.definition), now);
        if job.Err? {
          return Err(NotQueued(job.error));
        }
        runs := AddRun(runs, id, scheduledFor, RunRow(Some(job.value.id)));
        created := job.value.created;
      }
      schedules := schedules[id := s.(nextRunAt := following.value)];
      return Ok(created);
    }

    /** The due schedules, oldest slot first; an error puts all tables back. */
    method EnqueueDue(picked: seq<Id>, jobIds: seq<Jobs.Id>, members: set<string>, now: int, key: KeyOf) returns (r: Result<nat, Error>)
      requires |jobIds| == |picked|
      requires forall id | id in picked :: id in schedules && Slots.ValidTime(schedules[id].spec)
      requires (forall j | j in jobIds :: j !in queue.jobs) && forall i, j | 0 <= i < j < |jobIds| :: jobIds[i] != jobIds[j]
      modifies this, queue
      ensures match VisitAll(old(Tables()), picked, jobIds, members, now, key)
              case Err(e) => r == Err(e) && Tables() == old(Tables())
              case Ok((t, created)) => r == Ok(created) && Tables() == t
    {
      hide Visit, VisitAll, Slots.ValidTime;
      ghost var start := Tables();
      var schedules0, runs0 := schedules, runs;
      var jobs0, byKey0, events0, artifacts0 := queue.jobs, queue.byKey, queue.events, queue.artifacts;
      var created := 0;
      NoneVisited(start, members, now, key);
      for i := 0 to |picked|
        invariant VisitAll(start, picked[..i], jobIds[..i], members, now, key) == Ok((Tables(), created))
        invariant forall id | id in picked :: id in schedules && Slots.ValidTime(schedules[id].spec)
        invariant forall k | i <= k < |jobIds| :: jobIds[k] !in queue.jobs
      {
        OneMoreVisited(start, Tables(), created, picked, jobIds, i, members, now, key);
        VisitFrame(Tables(), picked[i], jobIds[i], members, now, key);
        assert picked[i] in picked;
        var one := VisitOne(picked[i], jobIds[i], members, now, key);
        if one.Err? {
          ErrorStays(start, picked, jobIds, i + 1, members, now, key);
          schedules, runs := schedules0, runs0;
          queue.jobs, queue.byKey, queue.events, queue.artifacts := jobs0, byKey0, events0, artifacts0;
          return Err(one.error);
        }
        created := created + if one.value then 1 else 0;
      }
      assert picked[..|picked|] == picked && jobIds[..|jobIds|] == jobIds;
      return Ok(created);
    }
  }

  lemma NoneVisited(d: State, members: set<string>, now: int, key: KeyOf)
    ensures VisitAll(d, [], [], members, now, key) == Ok((d, 0))
  {
  }

  lemma OneMoreVisited(d: State, mid: State, created: nat, ids: seq<Id>, jobIds: seq<Jobs.Id>, i: nat, members: set<string>, now: int, key: KeyOf)
    requires |jobIds| == |ids| && i < |ids| && VisitAll(d, ids[..i], jobIds[..i], members, now, key) == Ok((mid, created))
    ensures VisitAll(d, ids[..i + 1], jobIds[..i + 1], members, now, key) ==
            match Visit(mid, ids[i], jobIds[i], members, now, key)
            case Err(e) => Err(e)
            case Ok((end, one)) => Ok((end, created + if one then 1 else 0))
  {
    hide Visit;
    assert ids[..i + 1][..i] == ids[..i] && jobIds[..i + 1][..i] == jobIds[..i];
  }

  /** A visit adds no row but its own, and leaves every schedule's plan alone. */
  lemma VisitFrame(d: State, id: Id, jobId: Jobs.Id, members: set<string>, now: int, key: KeyOf)
    ensures Visit(d, id, jobId, members, now, key).Ok? ==>
              var t := Visit(d, id, jobId, members, now, key).value.0;
              && t.schedules.Keys == d.schedules.Keys
              && (forall other | other in d.schedules :: t.schedules[other].spec == d.schedules[other].spec)
              && t.queue.jobs.Keys <= d.queue.jobs.Keys + {jobId}
  {
    hide Slots.Trouble, Slots.Following, Jobs.Record, Jobs.Complaint;
  }

  /** A batch that fails at some schedule fails as a whole. */
  lemma {:induction false} ErrorStays(d: State, ids: seq<Id>, jobIds: seq<Jobs.Id>, i: nat, members: set<string>, now: int, key: KeyOf)
    requires |jobIds| == |ids| && i <= |ids| && VisitAll(d, ids[..i], jobIds[..i], members, now, key).Err?
    ensures VisitAll(d, ids, jobIds, members, now, key) == VisitAll(d, ids[..i], jobIds[..i], members, now, key)
    decreases |ids|
  {
    hide Visit;
    if i < |ids| {
      var n := |ids| - 1;
      assert ids[..n][..i] == ids[..i] && jobIds[..n][..i] == jobIds[..i];
      ErrorStays(d, ids[..n], jobIds[..n], i, members, now, key);
    } else {
      assert ids[..i] == ids && jobIds[..i] == jobIds;
    }
  }

  /**
   What a visit asks the queue for: a report for the schedule's recipient of the days of its window, the last of them the day
   before the slot; the schedule then waits for its next slot, and a recipient who left gets a run without a job.
   */
  lemma VisitLaw(d: State, id: Id, jobId: Jobs.Id, members: set<string>, now: int, key: KeyOf)
    requires id in d.schedules && Visit(d, id, jobId, members, now, key).Ok? && (id, d.schedules[id].nextRunAt) !in d.runs
    ensures var (t, created) := Visit(d, id, jobId, members, now, key).value;
            var s := d.schedules[id];
            var day := s.nextRunAt / 86_400_000_000;
            var scope := Jobs.Scope(s.code, s.version, s.recipient, day - s.windowDays, day - 1, s.filters, s.format, 3);
            && Slots.Trouble(s.spec, Slots.Aware(s.nextRunAt)).None?
            && t.schedules == d.schedules[id := s.(nextRunAt := Slots.Following(s.spec, s.nextRunAt))]
            && if s.recipient !in members then
                 !created && t.queue == d.queue && t.runs == d.runs[(id, s.nextRunAt) := RunRow(None)]
               else
                 var (queue, asked) := Jobs.Enqueue(d.queue, jobId, key(id, s.nextRunAt), scope, Some(s.definition), now);
                 && asked.Ok? && created == asked.value.created && t.queue == queue
                 && t.runs == d.runs[(id, s.nextRunAt) := RunRow(Some(asked.value.id))]
  {
    hide Slots.Trouble, Slots.Following, Jobs.Enqueue;
  }

  // ---------------------------------------------------------- what is kept

  /** A schedule has run at every one of its slots from its first up to its next, and at no other instant. */
  ghost predicate Complete(d: State) {
    && (forall id | id in d.schedules ::
          && Slots.ValidTime(d.schedules[id].spec)
          && Slots.Slot(d.schedules[id].spec, d.schedules[id].nextRunAt)
          && Slots.Trouble(d.schedules[id].spec, Slots.Aware(d.schedules[id].nextRunAt)).None?
          && d.schedules[id].firstRunAt <= d.schedules[id].nextRunAt)
    && (forall id, t :: (id, t) in d.runs <==> Ran(d, id, t))
  }

  ghost predicate Ran(d: State, id: Id, t: int) {
    id in d.schedules && Slots.Slot(d.schedules[id].spec, t) && d.schedules[id].firstRunAt <= t < d.schedules[id].nextRunAt
  }

  /** The job of a run is the one with the key of its slot. */
  ghost predicate JobsMatch(d: State, key: KeyOf) {
    forall id, t | (id, t) in d.runs && d.runs[(id, t)].job.Some? ::
      d.runs[(id, t)].job.value in d.queue.jobs && d.queue.jobs[d.runs[(id, t)].job.value].key == key(id, t)
  }

  ghost predicate Inv(d: State, key: KeyOf) {
    Complete(d) && JobsMatch(d, key) && Protocol.Inv(d.queue)
  }

  lemma SlotTrouble(spec: Slots.Spec, after: int)
    requires Slots.ValidTime(spec) && Slots.Trouble(spec, Slots.Aware(after)).None?
    ensures var t := Slots.Following(spec, after);
            Slots.LeastAfter(spec, after, t) && Slots.Trouble(spec, Slots.Aware(t)).None?
  {
    hide Slots.Following;
    Slots.FollowingIsLeast(spec, after);
  }

  lemma VisitComplete(d: State, id: Id, jobId: Jobs.Id, members: set<string>, now: int, key: KeyOf)
    requires Complete(d) && Visit(d, id, jobId, members, now, key).Ok?
    ensures Complete(Visit(d, id, jobId, members, now, key).value.0)
  {
    hide Slots.Trouble, Slots.Following, Slots.Slot, Slots.ValidTime, Jobs.Enqueue;
    var t := Visit(d, id, jobId, members, now, key).value.0;
    var s := d.schedules[id];
    SlotTrouble(s.spec, s.nextRunAt);
    forall other, u
      ensures (other, u) in t.runs <==> Ran(t, other, u)
    {
      assert (other, u) in d.runs <==> Ran(d, other, u);
    }
  }

  lemma VisitJobs(d: State, id: Id, jobId: Jobs.Id, members: set<string>, now: int, key: KeyOf)
    requires Inv(d, key) && jobId !in d.queue.jobs && Visit(d, id, jobId, members, now, key).Ok?
    ensures var t := Visit(d, id, jobId, members, now, key).value.0;
            JobsMatch(t, key) && Protocol.Inv(t.queue)
  {
    hide Slots.Trouble, Slots.Following, Jobs.Enqueue, Complete, Protocol.Inv;
    var s := d.schedules[id];
    var k := key(id, s.nextRunAt);
    Protocol.EnqueueKeeps(d.queue, jobId, k, ScopeFor(s), Some(s.definition), now);
    Protocol.EnqueueLater(d.queue, jobId, k, ScopeFor(s), Some(s.definition), now);
    KeyOfJob(d.queue, jobId, k, ScopeFor(s), Some(s.definition), now);
  }

  lemma KeyOfJob(q: Jobs.State, id: Jobs.Id, k: string, scope: Jobs.Scope, definition: Option<Jobs.Definition>, now: int)
    requires Protocol.Inv(q)
    ensures var (t, r) := Jobs.Enqueue(q, id, k, scope, definition, now);
            r.Ok? ==> r.value.id in t.jobs && t.jobs[r.value.id].key == k
  {
    hide Protocol.JobsOk, Protocol.StorageOk, Jobs.Record, Jobs.Complaint;
  }

  lemma {:induction false} BatchKeeps(d: State, ids: seq<Id>, jobIds: seq<Jobs.Id>, members: set<string>, now: int, key: KeyOf)
    requires Inv(d, key) && |jobIds| == |ids|
    requires (forall j | j in jobIds :: j !in d.queue.jobs) && forall i, j | 0 <= i < j < |jobIds| :: jobIds[i] != jobIds[j]
    ensures var r := VisitAll(d, ids, jobIds, members, now, key);
            r.Ok? ==> Inv(r.value.0, key) && forall j | j in r.value.0.queue.jobs :: j in d.queue.jobs || j in jobIds
  {
    hide Visit, Inv;
    if ids != [] {
      var n := |ids| - 1;
      assert forall j | j in jobIds[..n] :: j in jobIds;
      assert jobIds[n] in jobIds && jobIds[n] !in jobIds[..n];
      BatchKeeps(d, ids[..n], jobIds[..n], members, now, key);
      if VisitAll(d, ids, jobIds, members, now, key).Ok? {
        var mid := VisitAll(d, ids[..n], jobIds[..n], members, now, key).value.0;
        VisitKeeps(mid, ids[n], jobIds[n], members, now, key);
        VisitFrame(mid, ids[n], jobIds[n], members, now, key);
      }
    }
  }

  lemma VisitKeeps(d: State, id: Id, jobId: Jobs.Id, members: set<string>, now: int, key: KeyOf)
    requires Inv(d, key) && jobId !in d.queue.jobs && Visit(d, id, jobId, members, now, key).Ok?
    ensures Inv(Visit(d, id, jobId, members, now, key).value.0, key)
  {
    hide Visit, Complete, JobsMatch, Protocol.Inv;
    VisitComplete(d, id, jobId, members, now, key);
    VisitJobs(d, id, jobId, members, now, key);
  }

  // ------------------------------------------------------------- every run

  datatype Step =
    | Create(id: Id, schedule: Schedule, now: int)
    | Deliver(ids: seq<Id>, jobIds: seq<Jobs.Id>, members: set<string>, at: int)
    | QueueStep(step: Protocol.Step)

  ghost predicate Enabled(d: State, step: Step) {
    match step
    case Create(id, s, now) =>
      && id !in d.schedules && (forall t :: (id, t) !in d.runs)
      && Slots.ValidTime(s.spec) && Slots.Trouble(s.spec, Slots.Aware(now)).None?
    case Deliver(ids, jobIds, _, _) =>
      && |ids| == |jobIds|
      && (forall j | j in jobIds :: j !in d.queue.jobs) && forall i, j | 0 <= i < j < |jobIds| :: jobIds[i] != jobIds[j]
    case QueueStep(step) => Protocol.Enabled(d.queue, step)
  }

  ghost function Next(d: State, step: Step, key: KeyOf): State
    requires Enabled(d, step)
  {
    match step
    case Create(id, s, now) =>
      var first := Slots.Following(s.spec, now);
      d.(schedules := d.schedules[id := s.(firstRunAt := first, nextRunAt := first)])
    case Deliver(ids, jobIds, members, at) =>
      (match VisitAll(d, ids, jobIds, members, at, key) case Ok((t, _)) => t case Err(_) => d)
    case QueueStep(step) => d.(queue := Protocol.Next(d.queue, step))
  }

  /** Any batch of schedules under fresh job ids is a step, and so is any step of the queue. */
  lemma AnyTransaction(d: State, ids: seq<Id>, jobIds: seq<Jobs.Id>, members: set<string>, at: int, key: KeyOf, step: Protocol.Step)
    requires |jobIds| == |ids| && forall i | 0 <= i < |jobIds| :: jobIds[i] !in d.queue.jobs && jobIds[i] !in jobIds[..i]
    ensures Enabled(d, Deliver(ids, jobIds, members, at))
    ensures Next(d, Deliver(ids, jobIds, members, at), key)
         == match VisitAll(d, ids, jobIds, members, at, key) case Ok((t, _)) => t case Err(_) => d
    ensures Protocol.Enabled(d.queue, step) ==>
              Enabled(d, QueueStep(step)) && Next(d, QueueStep(step), key) == d.(queue := Protocol.Next(d.queue, step))
  {
    hide VisitAll, Protocol.Enabled, Protocol.Next;
    forall i, j | 0 <= i < j < |jobIds|
      ensures jobIds[i] != jobIds[j]
    {
      assert jobIds[i] in jobIds[..j];
    }
  }

  ghost predicate Follows(d: State, t: State, key: KeyOf) {
    exists step :: Enabled(d, step) && t == Next(d, step, key)
  }

  ghost predicate Run(states: seq<State>, key: KeyOf) {
    && states != [] && states[0] == State(map[], map[], Protocol.EMPTY)
    && forall i | 0 < i < |states| :: Follows(states[i - 1], states[i], key)
  }

  lemma CreateKeeps(d: State, id: Id, s: Schedule, now: int, key: KeyOf)
    requires Inv(d, key) && Enabled(d, Create(id, s, now))
    ensures Inv(Next(d, Create(id, s, now), key), key)
  {
    hide Slots.Trouble, Slots.Following, Slots.Slot, Slots.ValidTime, Protocol.Inv;
    SlotTrouble(s.spec, now);
    var t := Next(d, Create(id, s, now), key);
    forall other, u
      ensures (other, u) in t.runs <==> Ran(t, other, u)
    {
      assert (other, u) in d.runs <==> Ran(d, other, u);
    }
  }

  lemma QueueKeeps(d: State, step: Protocol.Step, key: KeyOf)
    requires Inv(d, key) && Protocol.Enabled(d.queue, step)
    ensures Inv(d.(queue := Protocol.Next(d.queue, step)), key)
  {
    hide Protocol.Inv, Protocol.Next, Protocol.Enabled, Slots.Slot, Slots.Trouble, Slots.ValidTime;
    Protocol.StepKeeps(d.queue, step);
    Protocol.StepLater(d.queue, step);
    var t := d.(queue := Protocol.Next(d.queue, step));
    assert forall id, u :: Ran(t, id, u) <==> Ran(d, id, u);
  }

  /** Every state of every run is complete. */
  lemma {:induction false} Always(states: seq<State>, i: nat, key: KeyOf)
    requires Run(states, key) && i < |states|
    ensures Inv(states[i], key)
  {
    hide Inv, VisitAll;
    if i == 0 {
      Start(key);
    } else {
      Always(states, i - 1, key);
      var d := states[i - 1];
      assert Follows(d, states[i], key);
      var step :| Enabled(d, step) && states[i] == Next(d, step, key);
      match step
      case Create(id, s, now) => CreateKeeps(d, id, s, now, key);
      case Deliver(ids, jobIds, members, at) => BatchKeeps(d, ids, jobIds, members, at, key);
      case QueueStep(inner) => QueueKeeps(d, inner, key);
    }
  }

  lemma Start(key: KeyOf)
    ensures Inv(State(map[], map[], Protocol.EMPTY), key)
  {
  }

  /** Slots are visited one after another: between its first slot and its next one, a schedule has skipped none. */
  lemma NoSlotSkipped(states: seq<State>, i: nat, key: KeyOf, id: Id, t: int)
    requires Run(states, key) && i < |states| && id in states[i].schedules
    requires Slots.Slot(states[i].schedules[id].spec, t)
    requires states[i].schedules[id].firstRunAt <= t
    ensures (id, t) in states[i].runs <==> t < states[i].schedules[id].nextRunAt
  {
    hide Slots.Slot, Slots.Trouble, JobsMatch, Protocol.Inv;
    Always(states, i, key);
    assert (id, t) in states[i].runs <==> Ran(states[i], id, t);
  }

  /** Two runs never share a report job. */
  lemma OneJobPerSlot(states: seq<State>, i: nat, key: KeyOf, a: Id, t: int, b: Id, u: int)
    requires Run(states, key) && i < |states| && Injective(key)
    requires (a, t) in states[i].runs && (b, u) in states[i].runs
    requires states[i].runs[(a, t)].job.Some? && states[i].runs[(a, t)].job == states[i].runs[(b, u)].job
    ensures a == b && t == u
  {
    hide Complete, Protocol.Inv;
    Always(states, i, key);
  }
}
