/**
 Layered configuration: defaults, then the tenant's, a marketplace's and an entity's
 overrides, capped by hard guards; and the append-only history of overrides.
 */
module Configuration {
  import opened Wrappers
  import opened Ordering
  import opened Texts

  datatype Value = Number(n: real) | Flag(on: bool) | Text(s: string)

  type Values = map<string, Value>

  datatype Definition = Definition(
    key: string, version: int, initial: Value, hard: bool, whole: bool, minimum: Option<real>, maximum: Option<real>)

  datatype Operation = ApplyOp | DetachOp | RollbackOp

  datatype Override = Override(
    id: string, scopeType: string, scopeId: string, version: int, operation: Operation, values: Values,
    supersedes: Option<string>, rollbackOf: Option<string>, reason: string, author: string)

  datatype Source = Source(level: string, id: string, version: int, hard: bool)

  datatype Effective = Effective(values: Values, sources: map<string, Source>)

  datatype Error =
    | UnsupportedScope | WrongTenant | BlankScope | ReplacesHardGuard | UnknownKey | NotComparable | MinExceedsMax
    | ReasonMissing | DetachWithValues | ValuesMissing | NotAdmin | NoTarget | OtherScope | BadValue

  // ------------------------------------------------------------- the scopes

  predicate ScopeType(t: string) {
    t == "tenant" || t == "marketplace" || t == "entity"
  }

  function Normalized(scopes: map<string, string>): map<string, string> {
    map t | t in scopes :: Strip(scopes[t])
  }

  function ScopeTrouble(tenant: string, scopes: map<string, string>): Option<Error> {
    if exists t | t in scopes :: !ScopeType(t) then Some(UnsupportedScope)
    else if "tenant" !in scopes || Strip(scopes["tenant"]) != tenant then Some(WrongTenant)
    else if exists t | t in scopes :: Strip(scopes[t]) == "" then Some(BlankScope)
    else None
  }

  // ------------------------------------------------------------- the layers

  predicate OfScope(o: Override, scopeType: string, scopeId: string) {
    o.scopeType == scopeType && o.scopeId == scopeId
  }

  /** The highest version of a scope. */
  function Latest(overrides: seq<Override>, scopeType: string, scopeId: string): Option<Override> {
    if overrides == [] then None
    else
      var last := overrides[|overrides| - 1];
      var before := Latest(overrides[..|overrides| - 1], scopeType, scopeId);
      if OfScope(last, scopeType, scopeId) && (before.None? || last.version > before.value.version) then Some(last) else before
  }

  /** The override a scope contributes, if it is asked for and not detached. */
  function Attached(overrides: seq<Override>, scopes: map<string, string>, scopeType: string): Option<Override> {
    if scopeType !in scopes then None
    else
      var latest := Latest(overrides, scopeType, scopes[scopeType]);
      if latest.None? || latest.value.operation.DetachOp? then None else latest
  }

  predicate Defined(definitions: seq<Definition>, key: string) {
    exists d | d in definitions :: d.key == key
  }

  predicate HardKey(definitions: seq<Definition>, key: string) {
    exists d | d in definitions :: d.key == key && d.hard
  }

  /** Only known keys that are no hard guards may be overridden. */
  predicate Overridable(definitions: seq<Definition>, values: Values) {
    forall k | k in values :: Defined(definitions, k) && !HardKey(definitions, k)
  }

  /** One definition a key. */
  ghost predicate OnePerKey(definitions: seq<Definition>) {
    forall i, j | 0 <= i < j < |definitions| :: definitions[i].key != definitions[j].key
  }

  // ----------------------------------------------------------- comparing

  function AsNumber(v: Value): real
    requires !v.Text?
  {
    match v
    case Number(n) => n
    case Flag(on) => if on then 1.0 else 0.0
  }

  /** Greater than, for two numbers or two texts. */
  function Exceeds(a: Value, b: Value): Option<bool> {
    if a.Text? && b.Text? then Some(!StrLeq(a.s, b.s))
    else if a.Text? || b.Text? then None
    else Some(AsNumber(a) > AsNumber(b))
  }

  /** A local limit and the guard that caps it, in the order they are looked at. */
  function Caps(): seq<(string, string)> {
    [("max_bid", "absolute_max_bid"), ("max_daily_budget", "absolute_max_daily_budget"),
     ("max_changes_per_day", "absolute_max_changes_per_day")]
  }

  function CapOne(e: Effective, local: string, cap: string): Result<Effective, Error> {
    if local in e.values && cap in e.values && cap in e.sources then
      match Exceeds(e.values[local], e.values[cap])
      case None => Err(NotComparable)
      case Some(false) => Ok(e)
      case Some(true) => Ok(Effective(e.values[local := e.values[cap]], e.sources[local := e.sources[cap]]))
    else Ok(e)
  }

  /** Whether the bids are in order; a missing lower bid counts as zero and a missing upper one as no limit. */
  function BidTrouble(values: Values): Option<Error> {
    var low := if "min_bid" in values then values["min_bid"] else Number(0.0);
    if "max_bid" !in values then if low.Text? then Some(NotComparable) else None
    else
      match Exceeds(low, values["max_bid"])
      case None => Some(NotComparable)
      case Some(true) => Some(MinExceedsMax)
      case Some(false) => None
  }

  // ---------------------------------------------------------- what results

  /** The defaults with their origin. */
  function BaseOf(definitions: seq<Definition>): Effective {
    if definitions == [] then Effective(map[], map[])
    else
      var d := definitions[|definitions| - 1];
      var before := BaseOf(definitions[..|definitions| - 1]);
      Effective(before.values[d.key := d.initial], before.sources[d.key := Source("system", d.key, d.version, d.hard)])
  }

  function Layered(e: Effective, layer: Option<Override>): Effective {
    if layer.None? then e
    else
      var o := layer.value;
      Effective(e.values + o.values, e.sources + map k | k in o.values :: Source(o.scopeType, o.scopeId, o.version, false))
  }

  function AllLayers(e: Effective, overrides: seq<Override>, scopes: map<string, string>): Effective {
    Layered(Layered(Layered(e, Attached(overrides, scopes, "tenant")), Attached(overrides, scopes, "marketplace")),
            Attached(overrides, scopes, "entity"))
  }

  predicate LayerFits(definitions: seq<Definition>, layer: Option<Override>) {
    layer.Some? ==> Overridable(definitions, layer.value.values)
  }

  predicate LayersFit(definitions: seq<Definition>, overrides: seq<Override>, scopes: map<string, string>) {
    && LayerFits(definitions, Attached(overrides, scopes, "tenant"))
    && LayerFits(definitions, Attached(overrides, scopes, "marketplace"))
    && LayerFits(definitions, Attached(overrides, scopes, "entity"))
  }

  function CapAll(e: Effective, caps: seq<(string, string)>): Result<Effective, Error> {
    if caps == [] then Ok(e)
    else
      var last := caps[|caps| - 1];
      match CapAll(e, caps[..|caps| - 1])
      case Err(error) => Err(error)
      case Ok(capped) => CapOne(capped, last.0, last.1)
  }

  method Collect(definitions: seq<Definition>) returns (e: Effective, hard: set<string>)
    ensures e == BaseOf(definitions)
    ensures forall k :: k in hard <==> HardKey(definitions, k)
  {
    var values: Values := map[];
    var sources: map<string, Source> := map[];
    hard := {};
    for i := 0 to |definitions|
      invariant Effective(values, sources) == BaseOf(definitions[..i])
      invariant forall k :: k in hard <==> exists j | 0 <= j < i :: definitions[j].key == k && definitions[j].hard
    {
      assert definitions[..i + 1][..i] == definitions[..i];
      var d := definitions[i];
      values := values[d.key := d.initial];
      sources := sources[d.key := Source("system", d.key, d.version, d.hard)];
      if d.hard {
        hard := hard + {d.key};
      }
    }
    assert definitions[..|definitions|] == definitions;
    e := Effective(values, sources);
  }

  /** Every value of the layer and every other value as it was, with its source. */
  ghost predicate Merged(e: Effective, o: Override, done: set<string>, values: Values, sources: map<string, Source>) {
    && values.Keys == e.values.Keys
    && (forall k | k in values :: values[k] == if k in done && k in o.values then o.values[k] else e.values[k])
    && sources.Keys == e.sources.Keys + done
    && (forall k | k in sources && k in done :: sources[k] == Source(o.scopeType, o.scopeId, o.version, false))
    && (forall k | k in e.sources && k !in done :: sources[k] == e.sources[k])
  }

  lemma MergeMore(e: Effective, o: Override, done: set<string>, values: Values, sources: map<string, Source>, k: string)
    requires Merged(e, o, done, values, sources) && k in o.values && k in values && k !in done
    ensures Merged(e, o, done + {k}, values[k := o.values[k]], sources[k := Source(o.scopeType, o.scopeId, o.version, false)])
  {
  }

  lemma MergeAll(e: Effective, o: Override, values: Values, sources: map<string, Source>)
    requires Merged(e, o, o.values.Keys, values, sources) && o.values.Keys <= values.Keys
    ensures Effective(values, sources) == Layered(e, Some(o))
  {
    var l := Layered(e, Some(o));
    assert values == l.values;
    assert sources == l.sources;
  }

  /** Puts one layer over the values; a key that may not be overridden stops everything. */
  method Overlay(e: Effective, hard: set<string>, layer: Option<Override>) returns (r: Result<Effective, Error>)
    ensures r.Ok? <==> (layer.Some? ==> forall k | k in layer.value.values :: k in e.values && k !in hard)
    ensures r.Ok? ==> r.value == Layered(e, layer) && r.value.values.Keys == e.values.Keys
    ensures r.Err? ==> r.error.ReplacesHardGuard? || r.error.UnknownKey?
  {
    hide Merged;
    if layer.None? {
      return Ok(e);
    }
    var o := layer.value;
    var values, sources := e.values, e.sources;
    var left := o.values.Keys;
    ghost var done: set<string> := {};
    NothingMerged(e, o);
    while left != {}
      invariant left !! done && left + done == o.values.Keys
      invariant forall k | k in done :: k in e.values && k !in hard
      invariant Merged(e, o, done, values, sources) && values.Keys == e.values.Keys
      decreases left
    {
      var k :| k in left;
      if k in hard {
        return Err(ReplacesHardGuard);
      }
      if k !in values {
        return Err(UnknownKey);
      }
      MergeMore(e, o, done, values, sources, k);
      values := values[k := o.values[k]];
      sources := sources[k := Source(o.scopeType, o.scopeId, o.version, false)];
      left, done := left - {k}, done + {k};
    }
    MergeAll(e, o, values, sources);
    r := Ok(Effective(values, sources));
  }

  lemma NothingMerged(e: Effective, o: Override)
    ensures Merged(e, o, {}, e.values, e.sources)
  {
  }

  // ------------------------------------------------------------- resolving

  /** The effective configuration of the scopes, when nothing in the way of it. */
  ghost predicate Resolves(e: Effective, definitions: seq<Definition>, overrides: seq<Override>, tenant: string, scopes: map<string, string>) {
    && ScopeTrouble(tenant, scopes).None?
    && LayersFit(definitions, overrides, Normalized(scopes))
    && CapAll(AllLayers(BaseOf(definitions), overrides, Normalized(scopes)), Caps()) == Ok(e)
    && BidTrouble(e.values).None?
  }

  method CapValues(e: Effective) returns (r: Result<Effective, Error>)
    ensures r == CapAll(e, Caps())
  {
    hide CapOne, Caps;
    var caps := Caps();
    var capped := e;
    for i := 0 to |caps|
      invariant CapAll(e, caps[..i]) == Ok(capped)
    {
      assert caps[..i + 1][..i] == caps[..i];
      var one := CapOne(capped, caps[i].0, caps[i].1);
      if one.Err? {
        CapErrorStays(e, caps, i + 1);
        return Err(one.error);
      }
      capped := one.value;
    }
    assert caps[..|caps|] == caps;
    return Ok(capped);
  }

  lemma {:induction false} CapErrorStays(e: Effective, caps: seq<(string, string)>, i: nat)
    requires i <= |caps| && CapAll(e, caps[..i]).Err?
    ensures CapAll(e, caps) == CapAll(e, caps[..i])
    decreases |caps|
  {
    hide CapOne;
    if i < |caps| {
      assert caps[..|caps| - 1][..i] == caps[..i];
      CapErrorStays(e, caps[..|caps| - 1], i);
    } else {
      assert caps[..i] == caps;
    }
  }

  lemma {:induction false} BaseKeys(definitions: seq<Definition>)
    ensures BaseOf(definitions).values.Keys == BaseOf(definitions).sources.Keys
    ensures forall k :: k in BaseOf(definitions).values <==> Defined(definitions, k)
  {
    if definitions != [] {
      var n := |definitions| - 1;
      BaseKeys(definitions[..n]);
      assert definitions == definitions[..n] + [definitions[n]];
      forall k
        ensures Defined(definitions, k) <==> Defined(definitions[..n], k) || definitions[n].key == k
      {
      }
    }
  }

  method Resolve(definitions: seq<Definition>, overrides: seq<Override>, tenant: string, scopes: map<string, string>) returns (r: Result<Effective, Error>)
    ensures r.Ok? ==> Resolves(r.value, definitions, overrides, tenant, scopes)
    ensures r.Err? ==> forall e :: !Resolves(e, definitions, overrides, tenant, scopes)
  {
    hide ScopeTrouble, Layered, CapAll, BidTrouble, BaseOf, Attached, Defined, HardKey, Caps;
    if ScopeTrouble(tenant, scopes).Some? {
      return Err(ScopeTrouble(tenant, scopes).value);
    }
    var normalized := Normalized(scopes);
    var e, hard := Collect(definitions);
    BaseKeys(definitions);
    var one := Overlay(e, hard, Attached(overrides, normalized, "tenant"));
    if one.Err? {
      return Err(one.error);
    }
    var two := Overlay(one.value, hard, Attached(overrides, normalized, "marketplace"));
    if two.Err? {
      return Err(two.error);
    }
    var three := Overlay(two.value, hard, Attached(overrides, normalized, "entity"));
    if three.Err? {
      return Err(three.error);
    }
    var capped := CapValues(three.value);
    if capped.Err? {
      return Err(capped.error);
    }
    if BidTrouble(capped.value.values).Some? {
      return Err(BidTrouble(capped.value.values).value);
    }
    return Ok(capped.value);
  }

  // ------------------------------------------------------- what it promises

  /** The layer a key's value comes from, the most specific first. */
  function Supplier(overrides: seq<Override>, scopes: map<string, string>, key: string): Option<Override> {
    var tenant, marketplace, entity :=
      Attached(overrides, scopes, "tenant"), Attached(overrides, scopes, "marketplace"), Attached(overrides, scopes, "entity");
    if entity.Some? && key in entity.value.values then entity
    else if marketplace.Some? && key in marketplace.value.values then marketplace
    else if tenant.Some? && key in tenant.value.values then tenant
    else None
  }

  /** A value and the source that is recorded for it belong together. */
  ghost predicate Supplied(definitions: seq<Definition>, supplier: Option<Override>, key: string, value: Value, source: Source) {
    if supplier.Some? then
      key in supplier.value.values && value == supplier.value.values[key]
      && source == Source(supplier.value.scopeType, supplier.value.scopeId, supplier.value.version, false)
    else exists d | d in definitions :: d.key == key && value == d.initial && source == Source("system", key, d.version, d.hard)
  }

  lemma {:induction false} BaseSupplied(definitions: seq<Definition>, key: string)
    requires key in BaseOf(definitions).values
    ensures key in BaseOf(definitions).sources
    ensures Supplied(definitions, None, key, BaseOf(definitions).values[key], BaseOf(definitions).sources[key])
  {
    BaseKeys(definitions);
    if definitions != [] {
      var n := |definitions| - 1;
      if definitions[n].key != key {
        BaseSupplied(definitions[..n], key);
        var d :| d in definitions[..n] && d.key == key && BaseOf(definitions[..n]).values[key] == d.initial
                 && BaseOf(definitions[..n]).sources[key] == Source("system", key, d.version, d.hard);
        assert d in definitions;
      }
    }
  }

  lemma LayersSupply(definitions: seq<Definition>, overrides: seq<Override>, scopes: map<string, string>, key: string)
    requires LayersFit(definitions, overrides, scopes)
    ensures var e := AllLayers(BaseOf(definitions), overrides, scopes);
            && (key in e.values <==> Defined(definitions, key)) && (key in e.sources <==> key in e.values)
            && (key in e.values ==> Supplied(definitions, Supplier(overrides, scopes, key), key, e.values[key], e.sources[key]))
  {
    hide Attached, HardKey, BaseOf, Layered, Overridable, Defined;
    BaseKeys(definitions);
    if key in BaseOf(definitions).values {
      BaseSupplied(definitions, key);
    }
    var tenant, marketplace := Attached(overrides, scopes, "tenant"), Attached(overrides, scopes, "marketplace");
    var base := BaseOf(definitions);
    var over := Layered(base, tenant);
    LayerSupplies(definitions, base, tenant, key);
    LayerSupplies(definitions, over, marketplace, key);
    LayerSupplies(definitions, Layered(over, marketplace), Attached(overrides, scopes, "entity"), key);
  }

  /** One layer over the others. */
  lemma LayerSupplies(definitions: seq<Definition>, e: Effective, layer: Option<Override>, key: string)
    requires LayerFits(definitions, layer) && e.values.Keys == e.sources.Keys
    ensures var f := Layered(e, layer);
            && f.values.Keys == f.sources.Keys
            && if layer.Some? && key in layer.value.values then
                 && Defined(definitions, key) && key in f.values && f.values[key] == layer.value.values[key]
                 && f.sources[key] == Source(layer.value.scopeType, layer.value.scopeId, layer.value.version, false)
               else (key in f.values <==> key in e.values) && (key in f.values ==> f.values[key] == e.values[key] && f.sources[key] == e.sources[key])
  {
    hide HardKey;
  }

  ghost predicate GoodCaps(caps: seq<(string, string)>) {
    && (forall i, j | 0 <= i < j < |caps| :: caps[i].0 != caps[j].0)
    && (forall i, j | 0 <= i < |caps| && 0 <= j < |caps| :: caps[i].0 != caps[j].1)
  }

  predicate LocalOf(caps: seq<(string, string)>, key: string) {
    exists i | 0 <= i < |caps| :: caps[i].0 == key
  }

  predicate Paired(e: Effective, f: Effective) {
    e.values.Keys == e.sources.Keys == f.values.Keys == f.sources.Keys
  }

  predicate SameAt(e: Effective, f: Effective, key: string)
    requires Paired(e, f)
  {
    key in e.values ==> f.values[key] == e.values[key] && f.sources[key] == e.sources[key]
  }

  ghost predicate CappedBy(e: Effective, f: Effective, local: string, cap: string)
    requires Paired(e, f) && local in e.values
  {
    if cap !in e.values then f.values[local] == e.values[local] && f.sources[local] == e.sources[local]
    else if Exceeds(e.values[local], e.values[cap]) == Some(true) then f.values[local] == e.values[cap] && f.sources[local] == e.sources[cap]
    else Exceeds(e.values[local], e.values[cap]) == Some(false) && f.values[local] == e.values[local] && f.sources[local] == e.sources[local]
  }

  lemma CapOneWorks(e: Effective, local: string, cap: string)
    requires e.values.Keys == e.sources.Keys && local != cap && CapOne(e, local, cap).Ok?
    ensures var f := CapOne(e, local, cap).value;
            && Paired(e, f) && (forall k | k != local :: SameAt(e, f, k)) && (local in e.values ==> CappedBy(e, f, local, cap))
  {
    hide Exceeds;
  }

  lemma CappedAcross(e: Effective, g: Effective, f: Effective, local: string, cap: string)
    requires Paired(e, g) && Paired(g, f) && local in e.values
    requires (CappedBy(e, g, local, cap) && SameAt(g, f, local)) || (SameAt(e, g, local) && SameAt(e, g, cap) && CappedBy(g, f, local, cap))
    ensures CappedBy(e, f, local, cap)
  {
    hide Exceeds;
  }

  /** A capped value is its own or its guard's, whichever is smaller; all others are untouched. */
  lemma {:induction false} CapsWork(e: Effective, caps: seq<(string, string)>)
    requires GoodCaps(caps) && e.values.Keys == e.sources.Keys && CapAll(e, caps).Ok?
    ensures var f := CapAll(e, caps).value;
            && Paired(e, f)
            && (forall k | !LocalOf(caps, k) :: SameAt(e, f, k))
            && (forall i | 0 <= i < |caps| && caps[i].0 in e.values :: CappedBy(e, f, caps[i].0, caps[i].1))
  {
    hide CapOne, CappedBy, SameAt;
    if caps == [] {
      Unmoved(e);
    } else {
      var n := |caps| - 1;
      CapsWork(e, caps[..n]);
      var g := CapAll(e, caps[..n]).value;
      CapOneWorks(g, caps[n].0, caps[n].1);
      var f := CapAll(e, caps).value;
      forall k | !LocalOf(caps, k)
        ensures SameAt(e, f, k)
      {
        assert caps[n].0 != k;
        assert !LocalOf(caps[..n], k);
        SameTwice(e, g, f, k);
      }
      assert !LocalOf(caps[..n], caps[n].0) && !LocalOf(caps[..n], caps[n].1);
      forall i | 0 <= i < |caps| && caps[i].0 in e.values
        ensures CappedBy(e, f, caps[i].0, caps[i].1)
      {
        if i < n {
          assert caps[..n][i] == caps[i];
          assert CappedBy(e, g, caps[i].0, caps[i].1);
        }
        CappedAcross(e, g, f, caps[i].0, caps[i].1);
      }
    }
  }

  lemma Unmoved(e: Effective)
    requires e.values.Keys == e.sources.Keys
    ensures Paired(e, e) && forall k :: SameAt(e, e, k)
  {
  }

  lemma SameTwice(e: Effective, g: Effective, f: Effective, k: string)
    requires Paired(e, g) && Paired(g, f) && SameAt(e, g, k) && SameAt(g, f, k)
    ensures SameAt(e, f, k)
  {
  }

  lemma CapsAreGood()
    ensures GoodCaps(Caps())
  {
  }

  /** Only tenant, marketplace and entity are scopes, each with an identifier, and the tenant's is its own. */
  lemma ScopesAccepted(e: Effective, definitions: seq<Definition>, overrides: seq<Override>, tenant: string, scopes: map<string, string>)
    requires Resolves(e, definitions, overrides, tenant, scopes)
    ensures scopes.Keys <= {"tenant", "marketplace", "entity"} && "tenant" in scopes && Strip(scopes["tenant"]) == tenant
    ensures forall t | t in scopes :: Strip(scopes[t]) != ""
  {
    hide LayersFit, CapAll, AllLayers, BaseOf, BidTrouble, Normalized, Strip;
  }

  /** The keys with a cap, and the guard that caps each. */
  predicate CapPair(local: string, cap: string) {
    || (local == "max_bid" && cap == "absolute_max_bid")
    || (local == "max_daily_budget" && cap == "absolute_max_daily_budget")
    || (local == "max_changes_per_day" && cap == "absolute_max_changes_per_day")
  }

  /** Two values of one kind, the first no greater than the second; a flag counts as one or zero. */
  predicate AtMost(a: Value, b: Value) {
    match (a, b)
    case (Number(x), Number(y)) => x <= y
    case (Number(x), Flag(on)) => x <= if on then 1.0 else 0.0
    case (Flag(on), Number(y)) => (if on then 1.0 else 0.0) <= y
    case (Flag(on), Flag(off)) => on ==> off
    case (Text(s), Text(t)) => StrLeq(s, t)
    case _ => false
  }

  lemma ExceedsMeans(a: Value, b: Value)
    ensures Exceeds(a, b) == Some(false) <==> AtMost(a, b)
    ensures Exceeds(a, b) == Some(true) <==> a.Text? == b.Text? && !AtMost(a, b)
  {
  }

  lemma CapsAre(local: string, cap: string)
    ensures (exists i | 0 <= i < |Caps()| :: Caps()[i] == (local, cap)) <==> CapPair(local, cap)
    ensures LocalOf(Caps(), local) <==> local in {"max_bid", "max_daily_budget", "max_changes_per_day"}
  {
    var caps := Caps();
    assert caps[0] == ("max_bid", "absolute_max_bid") && caps[1] == ("max_daily_budget", "absolute_max_daily_budget")
        && caps[2] == ("max_changes_per_day", "absolute_max_changes_per_day");
  }

  /** Every value without a cap is the one its recorded source supplies. */
  lemma SourcesSupply(e: Effective, definitions: seq<Definition>, overrides: seq<Override>, tenant: string, scopes: map<string, string>, key: string)
    requires Resolves(e, definitions, overrides, tenant, scopes)
    ensures key in e.values <==> Defined(definitions, key)
    ensures key in e.sources <==> key in e.values
    ensures key in e.values && key !in {"max_bid", "max_daily_budget", "max_changes_per_day"} ==>
              Supplied(definitions, Supplier(overrides, Normalized(scopes), key), key, e.values[key], e.sources[key])
  {
    hide Attached, HardKey, BaseOf, Supplied, Supplier, Caps, CapAll, LayersFit, AllLayers, Exceeds, Normalized, LocalOf;
    var n := Normalized(scopes);
    var base := AllLayers(BaseOf(definitions), overrides, n);
    LayersKeys(definitions, overrides, n);
    LayersSupply(definitions, overrides, n, key);
    CapsAre(key, key);
    CapsAreGood();
    CapsWork(base, Caps());
  }

  /** What its layer supplies for a key and what the layer of its cap supplies, and which of the two stands. */
  ghost predicate Capped(e: Effective, definitions: seq<Definition>, overrides: seq<Override>, scopes: map<string, string>,
                         local: string, cap: string, value: Value, source: Source)
    requires local in e.values && cap in e.values && local in e.sources && cap in e.sources
  {
    && Supplied(definitions, Supplier(overrides, scopes, local), local, value, source)
    && Supplied(definitions, Supplier(overrides, scopes, cap), cap, e.values[cap], e.sources[cap])
    && if AtMost(value, e.values[cap]) then e.values[local] == value && e.sources[local] == source
       else e.values[local] == e.values[cap] && e.sources[local] == e.sources[cap]
  }

  /** A capped value is the supplied one, or the guard's with the guard's source when that is smaller. */
  lemma CappedSupply(e: Effective, definitions: seq<Definition>, overrides: seq<Override>, tenant: string, scopes: map<string, string>,
                     local: string, cap: string)
    requires Resolves(e, definitions, overrides, tenant, scopes) && CapPair(local, cap)
    ensures e.sources.Keys == e.values.Keys
    ensures local in e.values && cap in e.values ==>
              AtMost(e.values[local], e.values[cap])
              && exists value, source :: Capped(e, definitions, overrides, Normalized(scopes), local, cap, value, source)
    ensures local in e.values && cap !in e.values ==>
              Supplied(definitions, Supplier(overrides, Normalized(scopes), local), local, e.values[local], e.sources[local])
  {
    hide Attached, HardKey, BaseOf, Supplied, Supplier, Caps, CapAll, LayersFit, AllLayers, Exceeds, Normalized, LocalOf, AtMost;
    var n := Normalized(scopes);
    var base := AllLayers(BaseOf(definitions), overrides, n);
    LayersKeys(definitions, overrides, n);
    LayersSupply(definitions, overrides, n, local);
    LayersSupply(definitions, overrides, n, cap);
    CapsAre(local, cap);
    CapsAre(cap, cap);
    CapsAreGood();
    CapsWork(base, Caps());
    if local in e.values {
      assert CappedBy(base, e, local, cap);
    }
    if local in e.values && cap in e.values {
      assert SameAt(base, e, cap);
      ExceedsMeans(base.values[local], e.values[cap]);
      NotMoreThanItself(e.values[cap]);
      ExceedsMeans(e.values[cap], e.values[cap]);
      assert Capped(e, definitions, overrides, n, local, cap, base.values[local], base.sources[local]);
    }
  }

  /** No override changes a hard guard. */
  lemma HardGuardsStand(e: Effective, definitions: seq<Definition>, overrides: seq<Override>, tenant: string, scopes: map<string, string>, key: string)
    requires Resolves(e, definitions, overrides, tenant, scopes) && OnePerKey(definitions)
    requires HardKey(definitions, key) && key !in {"max_bid", "max_daily_budget", "max_changes_per_day"}
    ensures key in e.values && key in e.sources && exists d | d in definitions ::
              d.key == key && e.values[key] == d.initial && e.sources[key] == Source("system", key, d.version, true)
  {
    hide Attached, Caps, CapAll, BidTrouble, ScopeTrouble, Normalized, BaseOf;
    SourcesSupply(e, definitions, overrides, tenant, scopes, key);
    NotInLayers(definitions, overrides, Normalized(scopes), key);
    var d :| d in definitions && d.key == key && e.values[key] == d.initial && e.sources[key] == Source("system", key, d.version, d.hard);
    var h :| h in definitions && h.key == key && h.hard;
    var i :| 0 <= i < |definitions| && definitions[i] == d;
    var j :| 0 <= j < |definitions| && definitions[j] == h;
    assert i == j;
  }

  lemma NotInLayers(definitions: seq<Definition>, overrides: seq<Override>, scopes: map<string, string>, key: string)
    requires LayersFit(definitions, overrides, scopes) && HardKey(definitions, key)
    ensures Supplier(overrides, scopes, key).None?
  {
    hide Attached, HardKey, Defined;
  }

  /** Capped values are within their caps and the bids are in order. */
  lemma LimitsHold(e: Effective, definitions: seq<Definition>, overrides: seq<Override>, tenant: string, scopes: map<string, string>)
    requires Resolves(e, definitions, overrides, tenant, scopes)
    ensures "max_bid" in e.values && "absolute_max_bid" in e.values ==> AtMost(e.values["max_bid"], e.values["absolute_max_bid"])
    ensures "max_daily_budget" in e.values && "absolute_max_daily_budget" in e.values ==>
              AtMost(e.values["max_daily_budget"], e.values["absolute_max_daily_budget"])
    ensures "max_changes_per_day" in e.values && "absolute_max_changes_per_day" in e.values ==>
              AtMost(e.values["max_changes_per_day"], e.values["absolute_max_changes_per_day"])
    ensures "min_bid" in e.values && "max_bid" in e.values ==> AtMost(e.values["min_bid"], e.values["max_bid"])
    ensures "min_bid" !in e.values && "max_bid" in e.values ==> AtMost(Number(0.0), e.values["max_bid"])
  {
    hide Resolves, AtMost, Capped, Supplied, Supplier;
    CappedSupply(e, definitions, overrides, tenant, scopes, "max_bid", "absolute_max_bid");
    CappedSupply(e, definitions, overrides, tenant, scopes, "max_daily_budget", "absolute_max_daily_budget");
    CappedSupply(e, definitions, overrides, tenant, scopes, "max_changes_per_day", "absolute_max_changes_per_day");
    if "max_bid" in e.values {
      BidsInOrder(e, definitions, overrides, tenant, scopes);
    }
  }

  lemma BidsInOrder(e: Effective, definitions: seq<Definition>, overrides: seq<Override>, tenant: string, scopes: map<string, string>)
    requires Resolves(e, definitions, overrides, tenant, scopes) && "max_bid" in e.values
    ensures AtMost(if "min_bid" in e.values then e.values["min_bid"] else Number(0.0), e.values["max_bid"])
  {
    hide LayersFit, CapAll, AllLayers, BaseOf, ScopeTrouble, Exceeds, AtMost, Normalized;
    ExceedsMeans(if "min_bid" in e.values then e.values["min_bid"] else Number(0.0), e.values["max_bid"]);
  }

  lemma LayersKeys(definitions: seq<Definition>, overrides: seq<Override>, scopes: map<string, string>)
    requires LayersFit(definitions, overrides, scopes)
    ensures var e := AllLayers(BaseOf(definitions), overrides, scopes); e.values.Keys == e.sources.Keys
  {
    hide LayersFit, AllLayers, Supplied, Supplier;
    forall k
      ensures var e := AllLayers(BaseOf(definitions), overrides, scopes); k in e.values <==> k in e.sources
    {
      LayersSupply(definitions, overrides, scopes, k);
    }
  }

  lemma NotMoreThanItself(v: Value)
    ensures Exceeds(v, v) == Some(false)
  {
    if v.Text? {
      StrTotal(v.s, v.s);
    }
  }
}
