/** The append-only history of configuration overrides, and going back to an earlier one. */
module Overrides {
  import opened Wrappers
  import opened Configuration
  import opened Texts

  // ------------------------------------------------------- what a row may be

  predicate TypeFits(d: Definition, v: Value) {
    match d.initial
    case Number(_) => v.Number?
    case Flag(_) => v.Flag?
    case Text(_) => v.Text?
  }

  predicate ValueFits(d: Definition, v: Value) {
    && TypeFits(d, v)
    && (v.Number? ==>
          && (d.whole ==> v.n.Floor as real == v.n)
          && (d.minimum.Some? ==> d.minimum.value <= v.n)
          && (d.maximum.Some? ==> v.n <= d.maximum.value))
  }

  /** What the database accepts as values of an override. */
  predicate ValidValues(definitions: seq<Definition>, values: Values) {
    && Overridable(definitions, values)
    && forall k, d | k in values && d in definitions && d.key == k :: ValueFits(d, values[k])
  }

  ghost predicate AllValid(definitions: seq<Definition>, overrides: seq<Override>) {
    forall o | o in overrides :: ValidValues(definitions, o.values)
  }

  predicate Manager(role: Option<string>) {
    role == Some("owner") || role == Some("admin")
  }

  function NextVersion(overrides: seq<Override>, scopeType: string, scopeId: string): int {
    var latest := Latest(overrides, scopeType, scopeId);
    if latest.Some? then latest.value.version + 1 else 1
  }

  function Supersedes(overrides: seq<Override>, scopeType: string, scopeId: string): Option<string> {
    var latest := Latest(overrides, scopeType, scopeId);
    if latest.Some? then Some(latest.value.id) else None
  }

  /** A request to change the override of a scope. */
  datatype Change = Change(
    scopeType: string, scopeId: string, values: Values, author: string, role: Option<string>, reason: string,
    operation: Operation, rollbackOf: Option<string>)

  function Refusal(tenant: string, c: Change): Option<Error> {
    var trouble := ScopeTrouble(tenant, map["tenant" := tenant][c.scopeType := c.scopeId]);
    if trouble.Some? then trouble
    else if Strip(c.reason) == "" then Some(ReasonMissing)
    else if c.operation.DetachOp? && c.values != map[] then Some(DetachWithValues)
    else if !c.operation.DetachOp? && c.values == map[] then Some(ValuesMissing)
    else if !Manager(c.role) then Some(NotAdmin)
    else None
  }

  function RowFor(overrides: seq<Override>, c: Change, id: string): Override {
    var scopeId := Strip(c.scopeId);
    Override(id, c.scopeType, scopeId, NextVersion(overrides, c.scopeType, scopeId), c.operation, c.values,
             Supersedes(overrides, c.scopeType, scopeId), c.rollbackOf, Strip(c.reason), c.author)
  }

  /** A new version at the end of the history, or a reason why not. */
  function Publish(overrides: seq<Override>, definitions: seq<Definition>, tenant: string, c: Change, id: string): Result<seq<Override>, Error> {
    if Refusal(tenant, c).Some? then Err(Refusal(tenant, c).value)
    else if !ValidValues(definitions, c.values) then Err(BadValue)
    else Ok(overrides + [RowFor(overrides, c, id)])
  }

  function ById(overrides: seq<Override>, id: string): Option<Override> {
    if overrides == [] then None
    else if overrides[|overrides| - 1].id == id then Some(overrides[|overrides| - 1])
    else ById(overrides[..|overrides| - 1], id)
  }

  /** The same values again under a new version. */
  function GoBack(overrides: seq<Override>, definitions: seq<Definition>, tenant: string, target: string, c: Change, id: string): Result<seq<Override>, Error> {
    var row := ById(overrides, target);
    if row.None? then Err(NoTarget)
    else if row.value.scopeType != c.scopeType || row.value.scopeId != c.scopeId then Err(OtherScope)
    else Publish(overrides, definitions, tenant, c.(values := row.value.values, operation := RollbackOp, rollbackOf := Some(target)), id)
  }

  class History {
    var overrides: seq<Override>

    constructor ()
      ensures overrides == []
    {
      overrides := [];
    }

    method PublishOverride(definitions: seq<Definition>, tenant: string, c: Change, id: string) returns (failure: Option<Error>)
      modifies this
      ensures match Publish(old(overrides), definitions, tenant, c, id)
              case Ok(os) => failure == None && overrides == os
              case Err(e) => failure == Some(e) && overrides == old(overrides)
    {
      if Refusal(tenant, c).Some? {
        return Refusal(tenant, c);
      }
      var scopeId := Strip(c.scopeId);
      var previous := Latest(overrides, c.scopeType, scopeId);
      var version := (if previous.Some? then previous.value.version else 0) + 1;
      var row := Override(id, c.scopeType, scopeId, version, c.operation, c.values,
                          if previous.Some? then Some(previous.value.id) else None, c.rollbackOf, Strip(c.reason), c.author);
      if !ValidValues(definitions, c.values) {
        return Some(BadValue);
      }
      overrides := overrides + [row];
      return None;
    }

    method RollbackOverride(definitions: seq<Definition>, tenant: string, target: string, c: Change, id: string) returns (failure: Option<Error>)
      modifies this
      ensures match GoBack(old(overrides), definitions, tenant, target, c, id)
              case Ok(os) => failure == None && overrides == os
              case Err(e) => failure == Some(e) && overrides == old(overrides)
    {
      var row := ById(overrides, target);
      if row.None? {
        return Some(NoTarget);
      }
      if row.value.scopeType != c.scopeType || row.value.scopeId != c.scopeId {
        return Some(OtherScope);
      }
      failure := PublishOverride(definitions, tenant, c.(values := row.value.values, operation := RollbackOp, rollbackOf := Some(target)), id);
    }
  }

  // ---------------------------------------------------- what is published

  /** A value of the kind, wholeness and range that every definition of its key asks for, and no hard guard. */
  predicate Acceptable(definitions: seq<Definition>, key: string, v: Value) {
    && (exists d | d in definitions :: d.key == key)
    && forall d | d in definitions && d.key == key ::
         && !d.hard
         && (d.initial.Number? == v.Number? && d.initial.Flag? == v.Flag?)
         && (v.Number? && d.whole ==> v.n == v.n.Floor as real)
         && (v.Number? && d.minimum.Some? ==> v.n >= d.minimum.value)
         && (v.Number? && d.maximum.Some? ==> v.n <= d.maximum.value)
  }

  lemma ValidIs(definitions: seq<Definition>, values: Values)
    ensures ValidValues(definitions, values) <==> forall k | k in values :: Acceptable(definitions, k, values[k])
  {
  }

  /** A change is published exactly when its scope is the tenant's, it gives a reason, an owner or admin makes it, and its values are
      acceptable, none for a detachment and some otherwise. */
  lemma PublishedExactlyWhen(overrides: seq<Override>, definitions: seq<Definition>, tenant: string, c: Change, id: string)
    ensures Publish(overrides, definitions, tenant, c, id).Ok? <==>
            && c.scopeType in {"tenant", "marketplace", "entity"}
            && (if c.scopeType == "tenant" then Strip(c.scopeId) == tenant else Strip(tenant) == tenant)
            && Strip(c.scopeId) != "" && tenant != "" && Strip(c.reason) != ""
            && (c.operation.DetachOp? <==> c.values == map[])
            && (c.role == Some("owner") || c.role == Some("admin"))
            && forall k | k in c.values :: Acceptable(definitions, k, c.values[k])
  {
    hide ValidValues, Strip, Acceptable;
    ValidIs(definitions, c.values);
    ScopeIs(tenant, c);
  }

  lemma ScopeIs(tenant: string, c: Change)
    ensures ScopeTrouble(tenant, map["tenant" := tenant][c.scopeType := c.scopeId]).None? <==>
            && c.scopeType in {"tenant", "marketplace", "entity"}
            && (if c.scopeType == "tenant" then Strip(c.scopeId) == tenant else Strip(tenant) == tenant)
            && Strip(c.scopeId) != "" && tenant != ""
  {
    hide Strip;
    var scopes := map["tenant" := tenant][c.scopeType := c.scopeId];
    assert c.scopeType in scopes && "tenant" in scopes;
  }

  /** The version published: the next number of its scope, after the one it supersedes, with the change's values, author and reason. */
  lemma PublishedRow(overrides: seq<Override>, definitions: seq<Definition>, tenant: string, c: Change, id: string)
    requires Publish(overrides, definitions, tenant, c, id).Ok?
    ensures var os := Publish(overrides, definitions, tenant, c, id).value;
            && |os| == |overrides| + 1 && overrides <= os
            && var row := os[|overrides|];
            && row.id == id && row.scopeType == c.scopeType && row.scopeId == Strip(c.scopeId)
            && row.operation == c.operation && row.values == c.values && row.rollbackOf == c.rollbackOf
            && row.reason == Strip(c.reason) && row.author == c.author
            && (forall o | o in overrides && o.scopeType == c.scopeType && o.scopeId == Strip(c.scopeId) :: o.version < row.version)
            && if row.supersedes.None? then row.version == 1 && (forall o | o in overrides :: !(o.scopeType == c.scopeType && o.scopeId == Strip(c.scopeId)))
               else exists o | o in overrides ::
                      o.scopeType == c.scopeType && o.scopeId == Strip(c.scopeId) && row.supersedes == Some(o.id) && row.version == o.version + 1
  {
    hide Refusal, ValidValues, Strip, Latest;
    LatestIsHighest(overrides, c.scopeType, Strip(c.scopeId));
  }

  // ------------------------------------------------------------- the latest

  /** The latest override is one of the scope's and has the highest version of all. */
  lemma {:induction false} LatestIsHighest(overrides: seq<Override>, scopeType: string, scopeId: string)
    ensures var latest := Latest(overrides, scopeType, scopeId);
            && (latest.Some? ==> latest.value in overrides && OfScope(latest.value, scopeType, scopeId))
            && forall o | o in overrides && OfScope(o, scopeType, scopeId) :: latest.Some? && o.version <= latest.value.version
  {
    if overrides != [] {
      var n := |overrides| - 1;
      LatestIsHighest(overrides[..n], scopeType, scopeId);
      assert overrides == overrides[..n] + [overrides[n]];
    }
  }

  /** A published version is the new latest of its scope, and leaves all other scopes alone. */
  lemma PublishedIsLatest(overrides: seq<Override>, definitions: seq<Definition>, tenant: string, c: Change, id: string, scopeType: string, scopeId: string)
    requires Publish(overrides, definitions, tenant, c, id).Ok?
    ensures var os := Publish(overrides, definitions, tenant, c, id).value;
            var latest := Latest(os, scopeType, scopeId);
            && overrides <= os
            && (if scopeType == c.scopeType && scopeId == Strip(c.scopeId) then latest == Some(RowFor(overrides, c, id))
                else latest == Latest(overrides, scopeType, scopeId))
  {
  }

  /** Versions of one scope are never used twice. */
  lemma VersionsGrow(overrides: seq<Override>, definitions: seq<Definition>, tenant: string, c: Change, id: string, o: Override)
    requires Publish(overrides, definitions, tenant, c, id).Ok? && o in overrides && OfScope(o, c.scopeType, Strip(c.scopeId))
    ensures o.version < RowFor(overrides, c, id).version
  {
    hide Refusal, ValidValues, Strip, Latest;
    LatestIsHighest(overrides, c.scopeType, Strip(c.scopeId));
  }

  // ----------------------------------------------------------- going back

  /** Two layers that say the same. */
  predicate SameLayer(a: Option<Override>, b: Option<Override>) {
    a.Some? == b.Some? && (a.Some? ==> a.value.values == b.value.values)
  }

  lemma SameLayersSameValues(e: Effective, f: Effective, a: Option<Override>, b: Option<Override>)
    requires e.values == f.values && e.sources.Keys == f.sources.Keys && SameLayer(a, b)
    ensures Layered(e, a).values == Layered(f, b).values && Layered(e, a).sources.Keys == Layered(f, b).sources.Keys
  {
  }

  lemma {:induction false} SameCaps(e: Effective, f: Effective, caps: seq<(string, string)>)
    requires e.values == f.values && e.sources.Keys == f.sources.Keys
    ensures CapAll(e, caps).Ok? == CapAll(f, caps).Ok?
    ensures CapAll(e, caps).Ok? ==> CapAll(e, caps).value.values == CapAll(f, caps).value.values
                                    && CapAll(e, caps).value.sources.Keys == CapAll(f, caps).value.sources.Keys
  {
    hide Exceeds;
    if caps != [] {
      SameCaps(e, f, caps[..|caps| - 1]);
    }
  }

  /** Histories whose scopes say the same give the same effective values. */
  lemma SameLayersResolveAlike(e: Effective, definitions: seq<Definition>, os: seq<Override>, ps: seq<Override>, tenant: string, scopes: map<string, string>)
    requires Resolves(e, definitions, os, tenant, scopes)
    requires var n := Normalized(scopes);
             && SameLayer(Attached(os, n, "tenant"), Attached(ps, n, "tenant"))
             && SameLayer(Attached(os, n, "marketplace"), Attached(ps, n, "marketplace"))
             && SameLayer(Attached(os, n, "entity"), Attached(ps, n, "entity"))
    ensures exists f :: Resolves(f, definitions, ps, tenant, scopes) && f.values == e.values
  {
    hide Attached, ScopeTrouble, Overridable, Caps, CapAll, BidTrouble, BaseOf, Layered, Normalized;
    var n := Normalized(scopes);
    var base := BaseOf(definitions);
    var a1, b1 := Layered(base, Attached(os, n, "tenant")), Layered(base, Attached(ps, n, "tenant"));
    SameLayersSameValues(base, base, Attached(os, n, "tenant"), Attached(ps, n, "tenant"));
    var a2, b2 := Layered(a1, Attached(os, n, "marketplace")), Layered(b1, Attached(ps, n, "marketplace"));
    SameLayersSameValues(a1, b1, Attached(os, n, "marketplace"), Attached(ps, n, "marketplace"));
    var a3, b3 := Layered(a2, Attached(os, n, "entity")), Layered(b2, Attached(ps, n, "entity"));
    SameLayersSameValues(a2, b2, Attached(os, n, "entity"), Attached(ps, n, "entity"));
    SameCaps(a3, b3, Caps());
    assert Resolves(CapAll(b3, Caps()).value, definitions, ps, tenant, scopes);
  }

  ghost predicate UniqueIds(overrides: seq<Override>) {
    forall a, b | a in overrides && b in overrides && a.id == b.id :: a == b
  }

  lemma {:induction false} FoundById(overrides: seq<Override>, o: Override)
    requires UniqueIds(overrides) && o in overrides
    ensures ById(overrides, o.id) == Some(o)
  {
    var n := |overrides| - 1;
    assert overrides == overrides[..n] + [overrides[n]];
    if overrides[n].id != o.id {
      FoundById(overrides[..n], o);
    }
  }

  /**
   Going back to an attached version restores the configuration that was in force when it was its
   scope's latest, if the other scopes are as they were then.
   */
  lemma GoingBackRestores(e: Effective, definitions: seq<Definition>, earlier: seq<Override>, overrides: seq<Override>, tenant: string,
                          scopes: map<string, string>, target: Override, c: Change, id: string)
    requires c.scopeType in scopes && Normalized(scopes)[c.scopeType] == c.scopeId == Strip(c.scopeId)
    requires Latest(earlier, c.scopeType, c.scopeId) == Some(target) && !target.operation.DetachOp?
    requires UniqueIds(overrides) && target in overrides
    requires forall t | t in scopes && t != c.scopeType :: Latest(earlier, t, Normalized(scopes)[t]) == Latest(overrides, t, Normalized(scopes)[t])
    requires Resolves(e, definitions, earlier, tenant, scopes)
    requires GoBack(overrides, definitions, tenant, target.id, c, id).Ok?
    ensures exists f :: Resolves(f, definitions, GoBack(overrides, definitions, tenant, target.id, c, id).value, tenant, scopes) && f.values == e.values
  {
    hide Resolves, Refusal, ValidValues, Latest, Strip, ById;
    FoundById(overrides, target);
    LatestIsHighest(earlier, c.scopeType, c.scopeId);
    var os := GoBack(overrides, definitions, tenant, target.id, c, id).value;
    var change := c.(values := target.values, operation := RollbackOp, rollbackOf := Some(target.id));
    var n := Normalized(scopes);
    forall t | t in scopes
      ensures Latest(os, t, n[t]) == if t == c.scopeType then Some(RowFor(overrides, change, id)) else Latest(overrides, t, n[t])
    {
      PublishedIsLatest(overrides, definitions, tenant, change, id, t, n[t]);
    }
    SameLayersResolveAlike(e, definitions, earlier, os, tenant, scopes);
  }

  /** There is no going back to a detached version: it has no values to restore. */
  lemma NoGoingBackToDetached(definitions: seq<Definition>, overrides: seq<Override>, tenant: string, target: Override, c: Change, id: string)
    requires UniqueIds(overrides) && target in overrides && target.values == map[]
    ensures GoBack(overrides, definitions, tenant, target.id, c, id).Err?
  {
    hide ScopeTrouble, Strip;
    FoundById(overrides, target);
  }
}
