/** When a rollout is widened, completed or turned back, in terms of its last event. */
module RolloutLaws {
  import opened Wrappers
  import opened Texts
  import opened Configuration
  import opened Overrides
  import opened Rollouts
  import C = Canary

  /** An owner or admin asks, with a reason, for something a rollout of a known simulation can do. */
  predicate Asked(ask: Ask, plans: map<string, Plan>) {
    && ask.simulation != "" && !Blank(ask.reason) && ask.state in {"CANARY", "EXPANDED", "ROLLED_BACK"}
    && (ask.role == Some("owner") || ask.role == Some("admin")) && ask.simulation in plans
  }

  lemma AskedIs(ask: Ask, plans: map<string, Plan>)
    ensures Trouble(ask, plans).None? <==> Asked(ask, plans)
    ensures Asked(ask, plans) ==> ask.simulation in plans
  {
    hide Blank;
  }

  /** The nearest hundredth, and the higher of two. */
  lemma KeptLaw(pct: real)
    ensures exists n: int :: Hundredths(pct, n)
  {
    assert Hundredths(pct, (pct * 100.0 + 0.5).Floor);
  }

  predicate Hundredths(pct: real, n: int) {
    Kept(pct) == n as real / 100.0 && n as real - 0.5 <= pct * 100.0 < n as real + 0.5
  }

  /** A rollout below one hundred percent: first a canary, then ever more, as the column keeps the percentage. */
  lemma WidenedExactlyWhen(t: Tables, definitions: seq<Definition>, tenant: string, plans: map<string, Plan>, ask: Ask, digest: C.Digest)
    requires ask.state in {"CANARY", "EXPANDED"} && ask.pct < 100.0
    ensures var es := EventsOf(t, ask.simulation);
            var r := Transition(t, definitions, tenant, plans, ask, digest);
            && (r.Ok? <==>
                  && Asked(ask, plans) && ask.pct > 0.0 && Kept(ask.pct) < 100.0
                  && if es == [] then ask.state == "CANARY"
                     else ask.state == "EXPANDED" && es[|es| - 1].state in {InCanary, Expanded} && es[|es| - 1].pct < Kept(ask.pct))
            && (r.Ok? ==>
                  var ids := C.CanaryIds(plans[ask.simulation].affected, plans[ask.simulation].fingerprint, ask.pct, digest).value;
                  && r.value.overrides == t.overrides
                  && r.value.events == t.events[ask.simulation :=
                       es + [Event(if ask.state == "CANARY" then InCanary else Expanded, Kept(ask.pct), ids, None, None)]])
  {
    hide Asked, Trouble, Kept;
    AskedIs(ask, plans);
  }

  /** Completion: from a canary or an expansion at all of one hundred percent, with the proposal as the tenant's next override. */
  lemma CompletedExactlyWhen(t: Tables, definitions: seq<Definition>, tenant: string, plans: map<string, Plan>, ask: Ask, digest: C.Digest)
    requires ask.state in {"CANARY", "EXPANDED"} && ask.pct >= 100.0
    ensures var es := EventsOf(t, ask.simulation);
            var r := Transition(t, definitions, tenant, plans, ask, digest);
            && (r.Ok? <==>
                  && Asked(ask, plans) && ask.pct == 100.0 && ask.state == "EXPANDED"
                  && es != [] && es[|es| - 1].state in {InCanary, Expanded}
                  && plans[ask.simulation].proposed != map[]
                  && forall k | k in plans[ask.simulation].proposed :: Acceptable(definitions, k, plans[ask.simulation].proposed[k]))
    ensures var es := EventsOf(t, ask.simulation);
            var r := Transition(t, definitions, tenant, plans, ask, digest);
            (r.Ok? ==>
                  && |r.value.overrides| == |t.overrides| + 1 && t.overrides <= r.value.overrides
                  && var (row, done) := (r.value.overrides[|t.overrides|], EventsOf(r.value, ask.simulation));
                  && row.id == ask.newId && row.scopeType == "tenant" && row.scopeId == tenant && row.operation == ApplyOp
                  && row.values == plans[ask.simulation].proposed
                  && |done| == |es| + 1 && done[|es|].state == Completed && done[|es|].pct == 100.0 && done[|es|].applied == Some(ask.newId)
                  && done[|es|].prior == row.supersedes)
  {
    hide Asked, Trouble, ValidValues, Acceptable, NextVersion, Supersedes;
    AskedIs(ask, plans);
    if ask.simulation in plans {
      var proposed := plans[ask.simulation].proposed;
      ValidIs(definitions, proposed);
    }
  }

  /** Turning back a rollout that was not completed changes no configuration; it is refused only when it was turned back before or never began. */
  lemma TurnedBackExactlyWhen(t: Tables, definitions: seq<Definition>, tenant: string, plans: map<string, Plan>, ask: Ask, digest: C.Digest)
    requires ask.state == "ROLLED_BACK"
    requires var es := EventsOf(t, ask.simulation); es == [] || es[|es| - 1].state != Completed
    ensures var es := EventsOf(t, ask.simulation);
            var r := Transition(t, definitions, tenant, plans, ask, digest);
            && (r.Ok? <==> Asked(ask, plans) && es != [] && es[|es| - 1].state in {InCanary, Expanded})
            && (r.Ok? ==>
                  && r.value.overrides == t.overrides
                  && r.value.events == t.events[ask.simulation := es + [Event(RolledBack, 0.0, [], None, es[|es| - 1].prior)]])
  {
    hide Asked, Trouble;
    AskedIs(ask, plans);
  }
}
