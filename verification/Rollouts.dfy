/**
 Rolling a simulated configuration out: canaries, wider exposure, completion as a new tenant
 override, and rollback. One transaction each; an error undoes it.
 */
module Rollouts {
  import opened Wrappers
  import opened Texts
  import opened Configuration
  import opened Overrides
  import C = Canary

  datatype State = InCanary | Expanded | Completed | RolledBack

  datatype Event = Event(state: State, pct: real, ids: seq<string>, applied: Option<string>, prior: Option<string>)

  datatype Plan = Plan(proposed: Values, affected: seq<string>, fingerprint: string)

  datatype Tables = Tables(overrides: seq<Override>, events: map<string, seq<Event>>)

  datatype Problem =
    | InvalidTransition | NotManager | NoSimulation | BadPercentage | ChangedSince | PriorMissing | OnlyExpandedCompletes
    | OverrideRefused | EventRefused

  /** Who asks for what. */
  datatype Ask = Ask(simulation: string, state: string, pct: real, reason: string, user: string, role: Option<string>, newId: string)

  /** A percentage as the column keeps it, with two decimals. */
  function Kept(pct: real): real {
    (pct * 100.0 + 0.5).Floor as real / 100.0
  }

  function EventsOf(t: Tables, id: string): seq<Event> {
    if id in t.events then t.events[id] else []
  }

  /** What the database accepts after the events so far. */
  predicate MayFollow(es: seq<Event>, e: Event) {
    if es == [] then e.state.InCanary? && e.pct < 100.0
    else
      var last := es[|es| - 1];
      match e.state
      case InCanary => false
      case Expanded => (last.state.InCanary? || last.state.Expanded?) && last.pct < e.pct < 100.0
      case Completed => (last.state.InCanary? || last.state.Expanded?) && e.pct == 100.0 && e.applied.Some?
      case RolledBack => !last.state.RolledBack? && (last.state.Completed? ==> e.applied.Some?)
  }

  /** A tenant override as the rollout appends it: nothing for a detach, something valid otherwise. */
  function Append(overrides: seq<Override>, definitions: seq<Definition>, tenant: string, ask: Ask, operation: Operation,
                  values: Values, rollbackOf: Option<string>): Result<seq<Override>, Problem> {
    if operation.DetachOp? != (values == map[]) || !ValidValues(definitions, values) then Err(OverrideRefused)
    else
      Ok(overrides + [Override(ask.newId, "tenant", tenant, NextVersion(overrides, "tenant", tenant), operation, values,
                               Supersedes(overrides, "tenant", tenant), rollbackOf, ask.reason, ask.user)])
  }

  function Record(t: Tables, overrides: seq<Override>, id: string, e: Event): Result<Tables, Problem> {
    if MayFollow(EventsOf(t, id), e) then Ok(Tables(overrides, t.events[id := EventsOf(t, id) + [e]])) else Err(EventRefused)
  }

  function Trouble(ask: Ask, plans: map<string, Plan>): Option<Problem> {
    if ask.simulation == "" || Blank(ask.reason) || ask.state !in {"CANARY", "EXPANDED", "ROLLED_BACK"} then Some(InvalidTransition)
    else if !Manager(ask.role) then Some(NotManager)
    else if ask.simulation !in plans then Some(NoSimulation)
    else None
  }

  /** Undoing a rollout; only a completed one has a configuration to restore. */
  function RollBack(t: Tables, definitions: seq<Definition>, tenant: string, ask: Ask): Result<Tables, Problem> {
    var es := EventsOf(t, ask.simulation);
    if es == [] || !es[|es| - 1].state.Completed? then
      Record(t, t.overrides, ask.simulation, Event(RolledBack, 0.0, [], None, if es == [] then None else es[|es| - 1].prior))
    else
      var last := es[|es| - 1];
      var current := Latest(t.overrides, "tenant", tenant);
      if current.None? || Some(current.value.id) != last.applied then Err(ChangedSince)
      else
        var restored :=
          if last.prior.None? then Append(t.overrides, definitions, tenant, ask, DetachOp, map[], None)
          else
            match ById(t.overrides, last.prior.value)
            case None => Err(PriorMissing)
            case Some(prior) =>
              if prior.operation.DetachOp? then Append(t.overrides, definitions, tenant, ask, DetachOp, map[], None)
              else Append(t.overrides, definitions, tenant, ask, RollbackOp, prior.values, Some(prior.id));
        match restored
        case Err(e) => Err(e)
        case Ok(os) => Record(t, os, ask.simulation, Event(RolledBack, 0.0, [], Some(ask.newId), last.prior))
  }

  /** Widening a rollout; the last step makes the proposal the tenant's override. */
  function Advance(t: Tables, definitions: seq<Definition>, tenant: string, ask: Ask, plan: Plan, digest: C.Digest): Result<Tables, Problem> {
    match C.CanaryIds(plan.affected, plan.fingerprint, ask.pct, digest)
    case Err(_) => Err(BadPercentage)
    case Ok(ids) =>
      if ask.pct < 100.0 then
        Record(t, t.overrides, ask.simulation,
               Event(if ask.state == "CANARY" then InCanary else Expanded, Kept(ask.pct), ids, None, None))
      else if ask.state != "EXPANDED" then Err(OnlyExpandedCompletes)
      else
        match Append(t.overrides, definitions, tenant, ask, ApplyOp, plan.proposed, None)
        case Err(e) => Err(e)
        case Ok(os) =>
          Record(t, os, ask.simulation, Event(Completed, 100.0, ids, Some(ask.newId), Supersedes(t.overrides, "tenant", tenant)))
  }

  function Transition(t: Tables, definitions: seq<Definition>, tenant: string, plans: map<string, Plan>, ask: Ask, digest: C.Digest): Result<Tables, Problem> {
    if Trouble(ask, plans).Some? then Err(Trouble(ask, plans).value)
    else if ask.state == "ROLLED_BACK" then RollBack(t, definitions, tenant, ask)
    else Advance(t, definitions, tenant, ask, plans[ask.simulation], digest)
  }

  class Store {
    var overrides: seq<Override>
    var events: map<string, seq<Event>>

    function Current(): Tables
      reads this
    {
      Tables(overrides, events)
    }

    constructor ()
      ensures Current() == Tables([], map[])
    {
      overrides, events := [], map[];
    }

    method Insert(id: string, e: Event) returns (failure: Option<Problem>)
      modifies this`events
      ensures match Record(old(Current()), overrides, id, e)
              case Ok(t) => failure == None && Current() == t
              case Err(p) => failure == Some(p) && Current() == old(Current())
    {
      var es := if id in events then events[id] else [];
      if !MayFollow(es, e) {
        return Some(EventRefused);
      }
      events := events[id := es + [e]];
      return None;
    }

    method AppendOverride(definitions: seq<Definition>, tenant: string, ask: Ask, operation: Operation, values: Values, rollbackOf: Option<string>)
      returns (failure: Option<Problem>)
      modifies this`overrides
      ensures match Append(old(overrides), definitions, tenant, ask, operation, values, rollbackOf)
              case Ok(os) => failure == None && overrides == os
              case Err(p) => failure == Some(p) && overrides == old(overrides)
    {
      var previous := Latest(overrides, "tenant", tenant);
      var version := if previous.Some? then previous.value.version + 1 else 1;
      if operation.DetachOp? != (values == map[]) || !ValidValues(definitions, values) {
        return Some(OverrideRefused);
      }
      overrides := overrides + [Override(ask.newId, "tenant", tenant, version, operation, values,
                                         if previous.Some? then Some(previous.value.id) else None, rollbackOf, ask.reason, ask.user)];
      return None;
    }

    method TransitionRollout(definitions: seq<Definition>, tenant: string, plans: map<string, Plan>, ask: Ask, digest: C.Digest)
      returns (failure: Option<Problem>)
      modifies this
      ensures match Transition(old(Current()), definitions, tenant, plans, ask, digest)
              case Ok(t) => failure == None && Current() == t
              case Err(p) => failure == Some(p) && Current() == old(Current())
    {
      hide ValidValues, Latest, ById, MayFollow, NextVersion, Supersedes, C.CanaryIds, Append;
      if Trouble(ask, plans).Some? {
        return Trouble(ask, plans);
      }
      var before := overrides;
      var es := if ask.simulation in events then events[ask.simulation] else [];
      if ask.state == "ROLLED_BACK" {
        var restored: Option<string> := None;
        if es != [] && es[|es| - 1].state.Completed? {
          var last := es[|es| - 1];
          var current := Latest(overrides, "tenant", tenant);
          if current.None? || Some(current.value.id) != last.applied {
            return Some(ChangedSince);
          }
          if last.prior.Some? {
            var prior := ById(overrides, last.prior.value);
            if prior.None? {
              return Some(PriorMissing);
            }
            if prior.value.operation.DetachOp? {
              failure := AppendOverride(definitions, tenant, ask, DetachOp, map[], None);
            } else {
              failure := AppendOverride(definitions, tenant, ask, RollbackOp, prior.value.values, Some(prior.value.id));
            }
          } else {
            failure := AppendOverride(definitions, tenant, ask, DetachOp, map[], None);
          }
          if failure.Some? {
            return;
          }
          restored := Some(ask.newId);
        }
        failure := Insert(ask.simulation, Event(RolledBack, 0.0, [], restored, if es == [] then None else es[|es| - 1].prior));
      } else {
        failure := Widen(definitions, tenant, ask, plans[ask.simulation], digest);
      }
      if failure.Some? {
        overrides := before;
      }
    }

    method Widen(definitions: seq<Definition>, tenant: string, ask: Ask, plan: Plan, digest: C.Digest) returns (failure: Option<Problem>)
      modifies this
      ensures match Advance(old(Current()), definitions, tenant, ask, plan, digest)
              case Ok(t) => failure == None && Current() == t
              case Err(p) => failure == Some(p) && events == old(events)
    {
      hide ValidValues, MayFollow, NextVersion, C.CanaryIds, Append;
      var ids := C.CanaryIds(plan.affected, plan.fingerprint, ask.pct, digest);
      if ids.Err? {
        return Some(BadPercentage);
      }
      if ask.pct < 100.0 {
        failure := Insert(ask.simulation, Event(if ask.state == "CANARY" then InCanary else Expanded, Kept(ask.pct), ids.value, None, None));
        return;
      }
      if ask.state != "EXPANDED" {
        return Some(OnlyExpandedCompletes);
      }
      var prior := Latest(overrides, "tenant", tenant);
      failure := AppendOverride(definitions, tenant, ask, ApplyOp, plan.proposed, None);
      if failure.Some? {
        return;
      }
      failure := Insert(ask.simulation, Event(Completed, 100.0, ids.value, Some(ask.newId), if prior.Some? then Some(prior.value.id) else None));
    }
  }

  // -------------------------------------------------------- the event order

  ghost predicate Legal(es: seq<Event>) {
    forall i: nat | i < |es| :: MayFollow(es[..i], es[i])
  }

  lemma LegalGrows(es: seq<Event>, e: Event)
    requires Legal(es) && MayFollow(es, e)
    ensures Legal(es + [e])
  {
  }

  /** A transition records one event of one rollout, and only an event that may follow. */
  lemma TransitionKeepsOrder(t: Tables, definitions: seq<Definition>, tenant: string, plans: map<string, Plan>, ask: Ask, digest: C.Digest, id: string)
    requires Legal(EventsOf(t, id)) && Transition(t, definitions, tenant, plans, ask, digest).Ok?
    ensures var u := Transition(t, definitions, tenant, plans, ask, digest).value;
            && Legal(EventsOf(u, id)) && t.overrides <= u.overrides
            && |EventsOf(u, id)| == |EventsOf(t, id)| + if id == ask.simulation then 1 else 0
  {
    hide Legal, MayFollow, Trouble, Kept, C.CanaryIds, ValidValues, Latest, ById, NextVersion, Supersedes;
    var u := Transition(t, definitions, tenant, plans, ask, digest).value;
    var es := EventsOf(t, ask.simulation);
    assert EventsOf(u, ask.simulation) == es + [EventsOf(u, ask.simulation)[|es|]] && MayFollow(es, EventsOf(u, ask.simulation)[|es|]);
    if id == ask.simulation {
      LegalGrows(es, EventsOf(u, id)[|es|]);
    }
  }

  /** Exposure only grows until completion, completion is followed only by rollback, and rollback by nothing. */
  lemma {:induction false} ExposureGrows(es: seq<Event>, i: nat, j: nat)
    requires Legal(es) && i < j < |es|
    ensures !es[i].state.RolledBack? && !es[j].state.InCanary?
    ensures es[i].state.Completed? ==> j == i + 1 && es[j].state.RolledBack?
    ensures !es[j].state.RolledBack? ==> es[i].pct < es[j].pct <= 100.0
    decreases j
  {
    assert MayFollow(es[..j], es[j]);
    assert es[..j][j - 1] == es[j - 1];
    if i < j - 1 {
      ExposureGrows(es, i, j - 1);
    } else {
      assert MayFollow(es[..i], es[i]);
    }
  }

  // --------------------------------------------------- undoing a completion

  /** Every row has values exactly when it is no detach. */
  ghost predicate WellFormed(overrides: seq<Override>) {
    forall o | o in overrides :: o.operation.DetachOp? <==> o.values == map[]
  }

  lemma CompletionAdds(t: Tables, definitions: seq<Definition>, tenant: string, plans: map<string, Plan>, ask: Ask, digest: C.Digest)
    requires ask.state == "EXPANDED" && ask.pct == 100.0 && Transition(t, definitions, tenant, plans, ask, digest).Ok?
    ensures var u := Transition(t, definitions, tenant, plans, ask, digest).value;
            && t.overrides <= u.overrides
            && EventsOf(u, ask.simulation) != []
            && var last := EventsOf(u, ask.simulation)[|EventsOf(u, ask.simulation)| - 1];
            && last.state.Completed? && last.applied == Some(ask.newId) && last.prior == Supersedes(t.overrides, "tenant", tenant)
  {
    hide MayFollow, Trouble, Kept, C.CanaryIds, ValidValues, Latest, NextVersion, Supersedes;
  }

  /** The tenant's layer as the resolution sees it. */
  function TenantLayer(overrides: seq<Override>, tenant: string): Option<Override> {
    Attached(overrides, map["tenant" := tenant], "tenant")
  }

  lemma AppendedLayer(overrides: seq<Override>, definitions: seq<Definition>, tenant: string, ask: Ask, operation: Operation,
                      values: Values, rollbackOf: Option<string>, scopeType: string, scopeId: string)
    requires Append(overrides, definitions, tenant, ask, operation, values, rollbackOf).Ok?
    ensures var os := Append(overrides, definitions, tenant, ask, operation, values, rollbackOf).value;
            && (if operation.DetachOp? then TenantLayer(os, tenant) == None
                else TenantLayer(os, tenant).Some? && TenantLayer(os, tenant).value.values == values)
            && (scopeType != "tenant" || scopeId != tenant ==> Latest(os, scopeType, scopeId) == Latest(overrides, scopeType, scopeId))
  {
  }

  /**
   Rolling a completed rollout back succeeds exactly when no other override of the tenant came in
   between, and then the tenant's layer says what it said before the completion.
   */
  lemma RollbackUndoesCompletion(t: Tables, u: Tables, definitions: seq<Definition>, tenant: string, plans: map<string, Plan>, done: Ask, undo: Ask,
                                 digest: C.Digest, scopeType: string, scopeId: string)
    requires done.state == "EXPANDED" && done.pct == 100.0 && Transition(t, definitions, tenant, plans, done, digest).Ok?
    requires var mid := Transition(t, definitions, tenant, plans, done, digest).value;
             mid.overrides <= u.overrides && EventsOf(u, done.simulation) == EventsOf(mid, done.simulation)
    requires UniqueIds(u.overrides) && WellFormed(u.overrides) && AllValid(definitions, u.overrides)
    requires undo.simulation == done.simulation && undo.state == "ROLLED_BACK" && Trouble(undo, plans).None?
    ensures Transition(u, definitions, tenant, plans, undo, digest).Ok? <==>
            Latest(u.overrides, "tenant", tenant).Some? && Latest(u.overrides, "tenant", tenant).value.id == done.newId
    ensures Transition(u, definitions, tenant, plans, undo, digest).Ok? ==>
              var end := Transition(u, definitions, tenant, plans, undo, digest).value;
              && SameLayer(TenantLayer(t.overrides, tenant), TenantLayer(end.overrides, tenant))
              && (scopeType != "tenant" || scopeId != tenant ==> Latest(end.overrides, scopeType, scopeId) == Latest(u.overrides, scopeType, scopeId))
  {
    hide Trouble, ValidValues, Latest, ById, NextVersion, Advance, Append;
    CompletionAdds(t, definitions, tenant, plans, done, digest);
    var before := Latest(t.overrides, "tenant", tenant);
    LatestIsHighest(t.overrides, "tenant", tenant);
    NothingIsValid(definitions);
    if before.Some? {
      assert before.value in t.overrides;
      Prefixes(t.overrides, Transition(t, definitions, tenant, plans, done, digest).value.overrides, u.overrides, before.value);
      FoundById(u.overrides, before.value);
    }
    var operation := if before.None? || before.value.operation.DetachOp? then DetachOp else RollbackOp;
    var values := if operation.DetachOp? then map[] else before.value.values;
    var rollbackOf := if operation.DetachOp? then None else Some(before.value.id);
    AppendAccepts(u.overrides, definitions, tenant, undo, operation, values, rollbackOf);
    AppendedLayer(u.overrides, definitions, tenant, undo, operation, values, rollbackOf, scopeType, scopeId);
  }

  lemma NothingIsValid(definitions: seq<Definition>)
    ensures ValidValues(definitions, map[])
  {
  }

  lemma Prefixes(a: seq<Override>, b: seq<Override>, c: seq<Override>, o: Override)
    requires a <= b <= c && o in a
    ensures o in c
  {
  }

  lemma AppendAccepts(overrides: seq<Override>, definitions: seq<Definition>, tenant: string, ask: Ask, operation: Operation,
                      values: Values, rollbackOf: Option<string>)
    requires operation.DetachOp? == (values == map[]) && ValidValues(definitions, values)
    ensures Append(overrides, definitions, tenant, ask, operation, values, rollbackOf).Ok?
  {
  }
}
