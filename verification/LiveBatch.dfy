/**
 One worker run, from the rows it fetched to what the provider was asked to write: human control, current consent and
 the guardrails over the whole batch decide which rows stop, and the others are sent.
 */
module LiveBatch {
  import opened Wrappers
  import opened ApplyGuardrails
  import G = Guardrails
  import L = ActionLifecycle
  import M = StateMachine

  /** A run is a rehearsal, or live under the tenant's present settings, which may withhold consent. */
  datatype Mode = Rehearsal | Live(consent: Result<G.Config, string>)

  datatype Candidate = Candidate(control: Option<string>, item: Item)

  // ------------------------------------------------------- which rows stop

  predicate Passes(c: Candidate, sent: seq<Item>, mode: Mode, now: int, today: Today) {
    && c.control.None?
    && match mode
       case Rehearsal => true
       case Live(Err(_)) => false
       case Live(Ok(cfg)) => Admissible(c.item, cfg, now, today, |sent|, TotalIncrease(sent))
  }

  /** The items that are not stopped, in order. */
  function Sent(cs: seq<Candidate>, mode: Mode, now: int, today: Today): seq<Item> {
    if cs == [] then []
    else
      var before, last := Sent(cs[..|cs| - 1], mode, now, today), cs[|cs| - 1];
      if Passes(last, before, mode, now, today) then before + [last.item] else before
  }

  /** The items no human has taken control of. */
  function Free(cs: seq<Candidate>): seq<Item> {
    if cs == [] then [] else Free(cs[..|cs| - 1]) + if cs[|cs| - 1].control.None? then [cs[|cs| - 1].item] else []
  }

  lemma {:induction false} SentIsEligible(cs: seq<Candidate>, cfg: G.Config, now: int, today: Today)
    ensures Sent(cs, Live(Ok(cfg)), now, today) == Eligible(Free(cs), cfg, now, today)
  {
    hide Admissible;
    if cs != [] {
      var front, last := cs[..|cs| - 1], cs[|cs| - 1];
      SentIsEligible(front, cfg, now, today);
      if last.control.None? {
        assert Free(cs)[..|Free(cs)| - 1] == Free(front);
      } else {
        assert Free(cs) == Free(front);
      }
    }
  }

  /** Control is asked of every row first; then, in a live run, consent once, and the guardrails row by row. */
  method Screen(cs: seq<Candidate>, mode: Mode, now: int, today: Today, text: Refusal -> string) returns (stops: seq<Option<string>>)
    ensures |stops| == |cs|
    ensures forall i | 0 <= i < |cs| :: stops[i].None? <==> Passes(cs[i], Sent(cs[..i], mode, now, today), mode, now, today)
  {
    hide Admissible, TotalIncrease;
    stops := seq(|cs|, i requires 0 <= i < |cs| => cs[i].control);
    if mode.Rehearsal? {
      return;
    }
    if mode.consent.Err? {
      for i := 0 to |cs|
        invariant |stops| == |cs| && (forall k | i <= k < |cs| :: stops[k] == cs[k].control) && forall k | 0 <= k < i :: stops[k].Some?
      {
        if stops[i].None? {
          stops := stops[i := Some(mode.consent.error)];
        }
      }
      return;
    }
    var changes, increase := 0, 0.0;
    NothingSent(mode, now, today);
    for i := 0 to |cs|
      invariant |stops| == |cs| && forall k | i <= k < |cs| :: stops[k] == cs[k].control
      invariant var sent := Sent(cs[..i], mode, now, today); changes == |sent| && increase == TotalIncrease(sent)
      invariant forall k | 0 <= k < i :: stops[k].None? <==> Passes(cs[k], Sent(cs[..k], mode, now, today), mode, now, today)
    {
      SentNext(cs, i, mode, now, today);
      if stops[i].None? {
        var r := Validate(cs[i].item, mode.consent.value, now, today, changes, increase);
        if r.Err? {
          stops := stops[i := Some(text(r.error))];
        } else {
          AddedToTotals(Sent(cs[..i], mode, now, today), cs[i].item);
          changes, increase := changes + 1, increase + r.value;
        }
      }
    }
  }

  lemma NothingSent(mode: Mode, now: int, today: Today)
    ensures Sent([], mode, now, today) == [] && TotalIncrease([]) == 0.0
  {
  }

  lemma SentNext(cs: seq<Candidate>, i: nat, mode: Mode, now: int, today: Today)
    requires i < |cs|
    ensures var before := Sent(cs[..i], mode, now, today);
            Sent(cs[..i + 1], mode, now, today) == if Passes(cs[i], before, mode, now, today) then before + [cs[i].item] else before
  {
    hide Passes;
    assert cs[..i + 1][..i] == cs[..i];
  }

  // --------------------------------------------------------- what is written

  /** The items for which a flag is up. */
  function Picked(cs: seq<Candidate>, flags: seq<bool>): seq<Item>
    requires |flags| == |cs|
  {
    if cs == [] then []
    else Picked(cs[..|cs| - 1], flags[..|cs| - 1]) + if flags[|cs| - 1] then [cs[|cs| - 1].item] else []
  }

  /** Items picked among those sent add up to no more, and are among them. */
  lemma {:induction false} PickedFewer(cs: seq<Candidate>, flags: seq<bool>, mode: Mode, now: int, today: Today)
    requires |flags| == |cs|
    requires forall i | 0 <= i < |cs| && flags[i] :: Passes(cs[i], Sent(cs[..i], mode, now, today), mode, now, today)
    ensures var some, all := Picked(cs, flags), Sent(cs, mode, now, today);
            && Changes(some) <= Changes(all) && 0.0 <= TotalIncrease(some) <= TotalIncrease(all)
            && forall item | item in some :: item in all
  {
    hide Passes, Changes, TotalIncrease;
    if cs == [] {
      NothingAdds();
    } else {
      var n := |cs| - 1;
      var front, first, last := cs[..n], flags[..n], cs[n].item;
      assert cs[..n + 1] == cs;
      forall i | 0 <= i < n && first[i]
        ensures Passes(front[i], Sent(front[..i], mode, now, today), mode, now, today)
      {
        assert flags[i] && front[..i] == cs[..i];
      }
      PickedFewer(front, first, mode, now, today);
      SentNext(cs, n, mode, now, today);
      AddedToTotals(Picked(front, first), last);
      AddedToTotals(Sent(front, mode, now, today), last);
      IncreaseIsPositive(last);
      assert Picked(cs, flags) == if flags[n] then Picked(front, first) + [last] else Picked(front, first);
    }
  }

  lemma NothingAdds()
    ensures Changes([]) == 0 && TotalIncrease([]) == 0.0
  {
  }

  lemma IncreaseIsPositive(item: Item)
    ensures G.Increase(item.kind, item.before, item.after) >= 0.0
  {
  }

  /** A fetched row, with the human control over it, its evaluation evidence, and what the provider would answer. */
  datatype Fetched = Fetched(id: L.Id, control: Option<string>, evidence: Option<Evidence>, provider: L.Provider, spread: nat)

  type Numeral = string -> Option<real>

  predicate Legible(v: M.Value, number: Numeral) {
    "value" in v ==> number(v["value"]).Some?
  }

  function Amount(v: M.Value, number: Numeral): Option<real> {
    if "value" in v then number(v["value"]) else None
  }

  /** A value that is no number leaves nothing to judge the row by. */
  function ItemOf(row: L.Row, evidence: Option<Evidence>, number: Numeral): Item {
    var before := if row.action.before.Some? then row.action.before.value else map[];
    Item(row.kind, Amount(before, number), Amount(row.action.after, number),
         if Legible(before, number) && Legible(row.action.after, number) then evidence else None)
  }

  ghost predicate Approved(s: L.State, batch: seq<Fetched>) {
    && s.rows.Keys == s.trail.Keys
    && (forall i | 0 <= i < |batch| :: batch[i].id in s.rows && s.rows[batch[i].id].action.status.Approved?)
    && (forall i, j | 0 <= i < j < |batch| :: batch[i].id != batch[j].id)
  }

  function Candidates(s: L.State, batch: seq<Fetched>, number: Numeral): (cs: seq<Candidate>)
    requires forall i | 0 <= i < |batch| :: batch[i].id in s.rows
    ensures |cs| == |batch|
  {
    seq(|batch|, i requires 0 <= i < |batch| => Candidate(batch[i].control, ItemOf(s.rows[batch[i].id], batch[i].evidence, number)))
  }

  /** Since `s` the provider has been asked to write for a row. */
  predicate WrittenTo(s: L.State, t: L.State, id: L.Id) {
    && id in s.trail && id in t.trail
    && exists i | |s.trail[id]| <= i < |t.trail[id]| :: t.trail[id][i].Wrote?
  }

  function Flags(s: L.State, t: L.State, batch: seq<Fetched>): (flags: seq<bool>)
    ensures |flags| == |batch| && forall i | 0 <= i < |batch| :: flags[i] <==> WrittenTo(s, t, batch[i].id)
  {
    seq(|batch|, i requires 0 <= i < |batch| => WrittenTo(s, t, batch[i].id))
  }

  /** The items the provider was asked to write in a run. */
  function Written(s: L.State, t: L.State, batch: seq<Fetched>, number: Numeral): seq<Item>
    requires forall i | 0 <= i < |batch| :: batch[i].id in s.rows
  {
    Picked(Candidates(s, batch, number), Flags(s, t, batch))
  }

  /** The caps and bounds a live run has to keep. */
  ghost predicate WithinLimits(items: seq<Item>, cfg: G.Config, today: Today) {
    && (Changes(items) > 0 ==> today.changes + Changes(items) <= cfg.maxChangesPerDay)
    && (TotalIncrease(items) > 0.0 ==> today.budget + TotalIncrease(items) <= cfg.maxBudgetIncrease)
    && forall item | item in items && G.Priced(item.kind) && item.after.Some? :: Sound(item, cfg)
  }

  predicate Sound(item: Item, cfg: G.Config)
    requires item.after.Some?
  {
    var value := item.after.value;
    && G.Cents(value) == value
    && (item.kind == "set_bid" ==> cfg.minBid <= value <= cfg.maxBid)
    && (item.kind == "set_budget" ==> value <= cfg.maxDailyBudget)
    && (item.before.Some? && item.before.value > 0.0 ==>
          -(item.before.value * cfg.maxChangePct) <= value - item.before.value <= item.before.value * cfg.maxChangePct)
  }

  lemma PickedWithinLimits(cs: seq<Candidate>, flags: seq<bool>, cfg: G.Config, now: int, today: Today)
    requires |flags| == |cs|
    requires var mode := Live(Ok(cfg)); forall i | 0 <= i < |cs| && flags[i] :: Passes(cs[i], Sent(cs[..i], mode, now, today), mode, now, today)
    ensures WithinLimits(Picked(cs, flags), cfg, today)
  {
    hide Passes, Changes, TotalIncrease, Eligible, Sent, Picked, G.Cents;
    PickedFewer(cs, flags, Live(Ok(cfg)), now, today);
    SentIsEligible(cs, cfg, now, today);
    DailyChangesKept(Free(cs), cfg, now, today);
    DailyBudgetKept(Free(cs), cfg, now, today);
    forall item | item in Picked(cs, flags) && G.Priced(item.kind) && item.after.Some?
      ensures Sound(item, cfg)
    {
      LivePricesAreSound(Free(cs), cfg, now, today, item);
    }
  }

  /** Without consent nothing passes. */
  lemma {:induction false} NonePicked(cs: seq<Candidate>, flags: seq<bool>)
    requires |flags| == |cs| && forall i | 0 <= i < |cs| :: !flags[i]
    ensures Picked(cs, flags) == []
  {
    if cs != [] {
      NonePicked(cs[..|cs| - 1], flags[..|cs| - 1]);
    }
  }

  /** A price that goes live, as it stands in the row: whole cents, in bounds, and within the allowed change of what it was. */
  predicate SoundRow(row: L.Row, cfg: G.Config, number: Numeral) {
    row.kind in {"set_bid", "set_budget"} && "value" in row.action.after ==>
      && number(row.action.after["value"]).Some?
      && var value := number(row.action.after["value"]).value;
      && G.Cents(value) == value
      && (row.kind == "set_bid" ==> cfg.minBid <= value <= cfg.maxBid)
      && (row.kind == "set_budget" ==> value <= cfg.maxDailyBudget)
      && (row.action.before.Some? && "value" in row.action.before.value ==>
            && number(row.action.before.value["value"]).Some?
            && var before := number(row.action.before.value["value"]).value;
            (before > 0.0 ==> -(before * cfg.maxChangePct) <= value - before <= before * cfg.maxChangePct))
  }

  lemma RowIsSound(c: Candidate, row: L.Row, evidence: Option<Evidence>, sent: seq<Item>, cfg: G.Config, now: int, today: Today, number: Numeral)
    requires c.item == ItemOf(row, evidence, number) && Passes(c, sent, Live(Ok(cfg)), now, today)
    ensures SoundRow(row, cfg, number)
  {
    hide Admissible, G.Cents, G.InRange, TotalIncrease;
    assert Admissible(c.item, cfg, now, today, |sent|, TotalIncrease(sent));
    HasEvidence(c.item, cfg, now, today, |sent|, TotalIncrease(sent));
    if G.Priced(row.kind) && c.item.after.Some? {
      UnalteredPrice(c.item, cfg, now, today, |sent|, TotalIncrease(sent));
      RangeMeans(row.kind, c.item.before, c.item.after.value, cfg);
    }
  }

  lemma HasEvidence(item: Item, cfg: G.Config, now: int, today: Today, changes: int, budget: real)
    requires Admissible(item, cfg, now, today, changes, budget)
    ensures item.evidence.Some?
  {
  }

  lemma RangeMeans(kind: string, before: Option<real>, value: real, cfg: G.Config)
    requires G.Priced(kind) && G.InRange(kind, before, value, cfg)
    ensures (kind == "set_bid" ==> cfg.minBid <= value <= cfg.maxBid) && (kind == "set_budget" ==> value <= cfg.maxDailyBudget)
    ensures before.Some? && before.value > 0.0 ==> -(before.value * cfg.maxChangePct) <= value - before.value <= before.value * cfg.maxChangePct
  {
  }

  /** What became of a fetched row: sent to the provider when it passes, failed when it does not, and left alone without a client. */
  ghost predicate Ran(s: L.State, t: L.State, row: Fetched, passes: bool, client: L.Client, now: int)
    requires row.id in s.rows && row.id in s.trail
  {
    if passes && client.Loaded? && client.failure.Some? then L.SameRow(s, t, row.id)
    else if passes then L.Done(s, t, L.Plan(row.id, None, row.provider, row.spread), now)
    else exists why :: L.Done(s, t, L.Plan(row.id, Some(why), row.provider, row.spread), now)
  }

  lemma OnlyUnblockedWritten(s: L.State, t: L.State, plan: L.Plan, now: int)
    requires plan.id in s.rows && plan.id in s.trail
    requires L.SameRow(s, t, plan.id) || L.Done(s, t, plan, now)
    ensures WrittenTo(s, t, plan.id) ==> plan.blocked.None? && plan.provider.read.Ok?
  {
  }

  /**
   A whole run. What the provider is asked to write in a live run keeps the day's changes and budget within their caps
   and every price in bounds; without consent, or without credentials, it is asked to write nothing.
   */
  method RunOnce(store: L.Store, batch: seq<Fetched>, mode: Mode, client: L.Client, now: int, today: Today, number: Numeral,
                 text: Refusal -> string, classify: L.Classifier) returns (applied: nat, failed: nat)
    requires Approved(store.Tables(), batch)
    modifies store
    ensures var written := Written(old(store.Tables()), store.Tables(), batch, number);
            && (mode.Live? && mode.consent.Ok? ==> WithinLimits(written, mode.consent.value, today))
            && ((mode.Live? && mode.consent.Err?) || (client.Loaded? && client.failure.Some?) ==> written == [])
    ensures !(client.Loaded? && client.failure.Some?) ==> applied + failed == |batch|
    ensures store.rows.Keys == store.trail.Keys == old(store.rows).Keys
    ensures mode.Live? && mode.consent.Ok? ==>
              forall i | 0 <= i < |batch| && WrittenTo(old(store.Tables()), store.Tables(), batch[i].id) ::
                SoundRow(old(store.rows)[batch[i].id], mode.consent.value, number)
    ensures var cs := Candidates(old(store.Tables()), batch, number);
            forall i | 0 <= i < |batch| ::
              Ran(old(store.Tables()), store.Tables(), batch[i], Passes(cs[i], Sent(cs[..i], mode, now, today), mode, now, today), client, now)
    ensures forall id | id in old(store.rows) && (forall i | 0 <= i < |batch| :: batch[i].id != id) ::
              L.SameRow(old(store.Tables()), store.Tables(), id)
  {
    hide Passes, L.Done, WrittenTo, WithinLimits, Picked, Candidates, Sent, SoundRow, ItemOf, Screened, Ran, Written;
    ghost var start := store.Tables();
    var cs := Candidates(store.Tables(), batch, number);
    var stops := Screen(cs, mode, now, today, text);
    var plans := seq(|batch|, i requires 0 <= i < |batch| => L.Plan(batch[i].id, stops[i], batch[i].provider, batch[i].spread));
    AreScreened(batch, cs, plans, mode, now, today);
    applied, failed := store.RunBatch(plans, client, now, classify);
    ghost var end := store.Tables();
    assert forall i | 0 <= i < |batch| :: batch[i].id == plans[i].id;
    forall i | 0 <= i < |batch|
      ensures Ran(start, end, batch[i], Passes(cs[i], Sent(cs[..i], mode, now, today), mode, now, today), client, now)
    {
      RowRan(start, end, batch, cs, plans, mode, client, now, today, i);
    }
    WrittenIsSafe(start, end, batch, cs, mode, client, now, today, number);
  }

  /** The plans are for the fetched rows, and stop exactly those that do not pass. */
  ghost predicate Screened(batch: seq<Fetched>, cs: seq<Candidate>, plans: seq<L.Plan>, mode: Mode, now: int, today: Today) {
    && |cs| == |plans| == |batch|
    && (forall i | 0 <= i < |batch| :: plans[i].id == batch[i].id && plans[i].provider == batch[i].provider && plans[i].spread == batch[i].spread)
    && (forall i | 0 <= i < |batch| :: plans[i].blocked.None? <==> Passes(cs[i], Sent(cs[..i], mode, now, today), mode, now, today))
  }

  lemma AreScreened(batch: seq<Fetched>, cs: seq<Candidate>, plans: seq<L.Plan>, mode: Mode, now: int, today: Today)
    requires |cs| == |plans| == |batch|
    requires forall i | 0 <= i < |batch| :: plans[i].id == batch[i].id && plans[i].provider == batch[i].provider && plans[i].spread == batch[i].spread
    requires forall i | 0 <= i < |batch| :: plans[i].blocked.None? <==> Passes(cs[i], Sent(cs[..i], mode, now, today), mode, now, today)
    ensures Screened(batch, cs, plans, mode, now, today)
  {
    hide Passes, Sent;
  }

  lemma RowRan(s: L.State, t: L.State, batch: seq<Fetched>, cs: seq<Candidate>, plans: seq<L.Plan>, mode: Mode, client: L.Client,
               now: int, today: Today, i: nat)
    requires Screened(batch, cs, plans, mode, now, today) && i < |batch| && batch[i].id in s.rows && batch[i].id in s.trail
    requires if plans[i].blocked.None? && L.Unavailable(client) then L.SameRow(s, t, batch[i].id) else L.Done(s, t, plans[i], now)
    ensures Ran(s, t, batch[i], Passes(cs[i], Sent(cs[..i], mode, now, today), mode, now, today), client, now)
  {
    hide Passes, Sent, L.Done;
    var plan := plans[i];
    assert plan == L.Plan(batch[i].id, plan.blocked, batch[i].provider, batch[i].spread);
  }

  /** Only what passes is written, and only with a client. */
  lemma RanWritten(s: L.State, t: L.State, row: Fetched, passes: bool, client: L.Client, now: int)
    requires row.id in s.rows && row.id in s.trail && Ran(s, t, row, passes, client, now)
    ensures WrittenTo(s, t, row.id) ==> passes && !L.Unavailable(client)
  {
    hide L.Done, WrittenTo;
    if passes && L.Unavailable(client) {
      NothingNew(s, t, row.id);
    } else if !passes {
      var why :| L.Done(s, t, L.Plan(row.id, Some(why), row.provider, row.spread), now);
      OnlyUnblockedWritten(s, t, L.Plan(row.id, Some(why), row.provider, row.spread), now);
    }
  }

  lemma WrittenIsSafe(s: L.State, t: L.State, batch: seq<Fetched>, cs: seq<Candidate>, mode: Mode, client: L.Client, now: int, today: Today,
                      number: Numeral)
    requires Approved(s, batch) && cs == Candidates(s, batch, number)
    requires forall i | 0 <= i < |batch| ::
               Ran(s, t, batch[i], Passes(cs[i], Sent(cs[..i], mode, now, today), mode, now, today), client, now)
    ensures var written := Written(s, t, batch, number);
            && (mode.Live? && mode.consent.Ok? ==> WithinLimits(written, mode.consent.value, today))
            && ((mode.Live? && mode.consent.Err?) || L.Unavailable(client) ==> written == [])
    ensures mode.Live? && mode.consent.Ok? ==>
              forall i | 0 <= i < |batch| && WrittenTo(s, t, batch[i].id) :: SoundRow(s.rows[batch[i].id], mode.consent.value, number)
  {
    hide Passes, WrittenTo, WithinLimits, Picked, Candidates, Sent, SoundRow, ItemOf, Ran;
    var flags := Flags(s, t, batch);
    forall i | 0 <= i < |batch|
      ensures flags[i] ==> Passes(cs[i], Sent(cs[..i], mode, now, today), mode, now, today) && !L.Unavailable(client)
    {
      RanWritten(s, t, batch[i], Passes(cs[i], Sent(cs[..i], mode, now, today), mode, now, today), client, now);
    }
    if mode.Live? && mode.consent.Ok? {
      forall i | 0 <= i < |batch| && WrittenTo(s, t, batch[i].id)
        ensures SoundRow(s.rows[batch[i].id], mode.consent.value, number)
      {
        CandidateAt(s, batch, number, i);
        RowIsSound(cs[i], s.rows[batch[i].id], batch[i].evidence, Sent(cs[..i], mode, now, today), mode.consent.value, now, today, number);
      }
      PickedWithinLimits(cs, flags, mode.consent.value, now, today);
    }
    if (mode.Live? && mode.consent.Err?) || L.Unavailable(client) {
      forall i | 0 <= i < |cs|
        ensures !flags[i]
      {
        if mode.Live? && mode.consent.Err? {
          ConsentWithheld(cs[i], Sent(cs[..i], mode, now, today), mode, now, today);
        }
      }
      NonePicked(cs, flags);
    }
  }

  lemma CandidateAt(s: L.State, batch: seq<Fetched>, number: Numeral, i: nat)
    requires (forall k | 0 <= k < |batch| :: batch[k].id in s.rows) && i < |batch|
    ensures Candidates(s, batch, number)[i] == Candidate(batch[i].control, ItemOf(s.rows[batch[i].id], batch[i].evidence, number))
  {
    hide ItemOf;
  }

  lemma ConsentWithheld(c: Candidate, sent: seq<Item>, mode: Mode, now: int, today: Today)
    requires mode.Live? && mode.consent.Err?
    ensures !Passes(c, sent, mode, now, today)
  {
  }

  lemma NothingNew(s: L.State, t: L.State, id: L.Id)
    requires id in s.rows && id in s.trail && L.SameRow(s, t, id)
    ensures !WrittenTo(s, t, id)
  {
  }
}
