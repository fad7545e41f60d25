/** Bounded exposure: which entities a configuration change affects, and which of them see it first. */
module Canary {
  import opened Wrappers
  import opened Ordering

  datatype Candidate = Candidate(id: string, current: real, proposed: real, isProtected: bool)

  datatype Simulation = Simulation(
    fingerprint: string, entityCount: nat, affected: seq<string>, exempt: seq<string>, spend: real, delta: real, risk: real)

  datatype Error = NegativeLimit | TooMuchExposure | BadPercentage

  /** A digest in hexadecimal; two texts with one digest are a collision. */
  type Digest = string -> string

  predicate ById(a: Candidate, b: Candidate) {
    StrLeq(a.id, b.id)
  }

  predicate Affected(c: Candidate) {
    !c.isProtected && c.proposed != c.current
  }

  predicate Exempt(c: Candidate) {
    c.isProtected
  }

  function Ids(rows: seq<Candidate>, keep: Candidate -> bool): seq<string> {
    if rows == [] then []
    else Ids(rows[..|rows| - 1], keep) + if keep(rows[|rows| - 1]) then [rows[|rows| - 1].id] else []
  }

  function SpendOf(rows: seq<Candidate>, amount: Candidate -> real): real {
    if rows == [] then 0.0
    else SpendOf(rows[..|rows| - 1], amount) + if rows[|rows| - 1].isProtected then 0.0 else amount(rows[|rows| - 1])
  }

  function Current(c: Candidate): real {
    c.current
  }

  function Difference(c: Candidate): real {
    c.proposed - c.current
  }

  function Abs(x: real): real {
    if x < 0.0 then -x else x
  }

  function RiskOf(spend: real, delta: real): real {
    if spend == 0.0 then 0.0 else if Abs(delta) / spend < 1.0 then Abs(delta) / spend else 1.0
  }

  /** A frozen candidate set replayed without changing anything. */
  function Simulate(candidates: seq<Candidate>, limit: int, fingerprintOf: seq<Candidate> -> string): Result<Simulation, Error> {
    if limit < 0 then Err(NegativeLimit)
    else
      var rows := Sort(ById, candidates);
      var affected := Ids(rows, Affected);
      if |affected| > limit then Err(TooMuchExposure)
      else
        var spend := SpendOf(rows, Current);
        var delta := SpendOf(rows, Difference);
        Ok(Simulation(fingerprintOf(rows), |rows|, affected, Ids(rows, Exempt), spend, delta, RiskOf(spend, delta)))
  }

  function Ceiling(x: real): int {
    -((-x).Floor)
  }

  function Count(n: nat, pct: real): int {
    Ceiling(n as real * pct / 100.0)
  }

  function ByDigest(fingerprint: string, digest: Digest): (string, string) -> bool {
    (a: string, b: string) => StrLeq(digest(fingerprint + ":" + a), digest(fingerprint + ":" + b))
  }

  predicate ValidPct(pct: real) {
    0.0 < pct <= 100.0
  }

  lemma CountBounds(n: nat, pct: real)
    requires ValidPct(pct)
    ensures 0 <= Count(n, pct) <= n
    ensures n > 0 ==> Count(n, pct) > 0
  {
    Product(n as real, pct);
  }

  lemma Product(n: real, pct: real)
    requires 0.0 <= n && 0.0 < pct <= 100.0
    ensures 0.0 <= n * pct / 100.0 <= n
    ensures n > 0.0 ==> n * pct / 100.0 > 0.0
  {
  }

  /** The entities that see a change first. */
  function CanaryIds(ids: seq<string>, fingerprint: string, pct: real, digest: Digest): (r: Result<seq<string>, Error>)
    ensures r.Ok? <==> 0.0 < pct <= 100.0
  {
    if !ValidPct(pct) then Err(BadPercentage)
    else
      CountBounds(|ids|, pct);
      SortedSize(ids, fingerprint, digest);
      Ok(Sort(ByDigest(fingerprint, digest), ids)[..Count(|ids|, pct)])
  }

  lemma DigestOrder(fingerprint: string, digest: Digest)
    ensures Total(ByDigest(fingerprint, digest))
  {
    var leq := ByDigest(fingerprint, digest);
    forall a, b
      ensures leq(a, b) || leq(b, a)
    {
      StrTotal(digest(fingerprint + ":" + a), digest(fingerprint + ":" + b));
    }
    forall a, b, c | leq(a, b) && leq(b, c)
      ensures leq(a, c)
    {
      StrTransitive(digest(fingerprint + ":" + a), digest(fingerprint + ":" + b), digest(fingerprint + ":" + c));
    }
  }

  lemma SortedSize(ids: seq<string>, fingerprint: string, digest: Digest)
    ensures var sorted := Sort(ByDigest(fingerprint, digest), ids); |sorted| == |ids| && multiset(sorted) == multiset(ids)
  {
    DigestOrder(fingerprint, digest);
    SortWorks(ByDigest(fingerprint, digest), ids);
  }

  // ---------------------------------------------------------- the selection

  /** Ceil of the percentage, never none of a non-empty set, and all of it at one hundred. */
  lemma CanarySize(ids: seq<string>, fingerprint: string, pct: real, digest: Digest)
    requires ValidPct(pct)
    ensures var chosen := CanaryIds(ids, fingerprint, pct, digest).value;
            && |chosen| <= |ids| && |chosen| as real - 1.0 < |ids| as real * pct / 100.0 <= |chosen| as real
            && (ids != [] ==> chosen != [])
            && (forall id | id in chosen :: id in ids)
            && (pct == 100.0 ==> multiset(chosen) == multiset(ids))
  {
    hide Sort;
    CountBounds(|ids|, pct);
    SortedSize(ids, fingerprint, digest);
    var sorted := Sort(ByDigest(fingerprint, digest), ids);
    SameMembers(sorted, ids);
    if pct == 100.0 {
      CountAll(|ids|);
      assert sorted[..|sorted|] == sorted;
    }
  }

  ghost predicate DigestsAscend(ids: seq<string>, fingerprint: string, digest: Digest) {
    forall i, j | 0 <= i < j < |ids| :: StrLeq(digest(fingerprint + ":" + ids[i]), digest(fingerprint + ":" + ids[j]))
  }

  /** Those with the least digests come first, and nobody left out has a smaller one. */
  lemma CanariesByDigest(ids: seq<string>, fingerprint: string, pct: real, digest: Digest)
    requires 0.0 < pct <= 100.0
    ensures var chosen := CanaryIds(ids, fingerprint, pct, digest).value;
            exists all :: multiset(all) == multiset(ids) && chosen <= all && DigestsAscend(all, fingerprint, digest)
  {
    hide Sort, Count;
    CountBounds(|ids|, pct);
    SortedSize(ids, fingerprint, digest);
    DigestOrder(fingerprint, digest);
    SortWorks(ByDigest(fingerprint, digest), ids);
    assert DigestsAscend(Sort(ByDigest(fingerprint, digest), ids), fingerprint, digest);
  }

  lemma CountAll(n: nat)
    ensures Count(n, 100.0) == n
  {
  }

  /** A larger percentage only adds entities, after the ones already chosen. */
  lemma CanariesGrow(ids: seq<string>, fingerprint: string, pct: real, more: real, digest: Digest)
    requires ValidPct(pct) && ValidPct(more) && pct <= more
    ensures CanaryIds(ids, fingerprint, pct, digest).value <= CanaryIds(ids, fingerprint, more, digest).value
  {
    hide Sort, Count;
    CountBounds(|ids|, pct);
    CountBounds(|ids|, more);
    CountGrows(|ids|, pct, more);
    SortedSize(ids, fingerprint, digest);
  }

  lemma CountGrows(n: nat, pct: real, more: real)
    requires pct <= more
    ensures Count(n, pct) <= Count(n, more)
  {
    Larger(n as real, pct, more);
  }

  lemma Larger(n: real, pct: real, more: real)
    requires n >= 0.0 && pct <= more
    ensures n * pct / 100.0 <= n * more / 100.0
  {
  }

  /** Without collisions the order in which the entities come does not matter. */
  lemma CanaryIgnoresOrder(ids: seq<string>, others: seq<string>, fingerprint: string, pct: real, digest: Digest)
    requires multiset(ids) == multiset(others)
    requires forall a, b | a in ids && b in ids && digest(fingerprint + ":" + a) == digest(fingerprint + ":" + b) :: a == b
    ensures CanaryIds(ids, fingerprint, pct, digest) == CanaryIds(others, fingerprint, pct, digest)
  {
    hide Sort, Count;
    assert |multiset(ids)| == |multiset(others)|;
    DigestOrder(fingerprint, digest);
    NoDigestTies(ids, fingerprint, digest);
    SortIgnoresOrder(ByDigest(fingerprint, digest), ids, others);
  }

  lemma NoDigestTies(ids: seq<string>, fingerprint: string, digest: Digest)
    requires forall a, b | a in ids && b in ids && digest(fingerprint + ":" + a) == digest(fingerprint + ":" + b) :: a == b
    ensures NoTies(ByDigest(fingerprint, digest), ids)
  {
    forall a, b | a in ids && b in ids && ByDigest(fingerprint, digest)(a, b) && ByDigest(fingerprint, digest)(b, a)
      ensures a == b
    {
      StrTotal(digest(fingerprint + ":" + a), digest(fingerprint + ":" + b));
    }
  }

  // --------------------------------------------------------- the simulation

  lemma IdOrder()
    ensures Total(ById)
  {
    forall a, b
      ensures ById(a, b) || ById(b, a)
    {
      StrTotal(a.id, b.id);
    }
    forall a, b, c | ById(a, b) && ById(b, c)
      ensures ById(a, c)
    {
      StrTransitive(a.id, b.id, c.id);
    }
  }

  lemma {:induction false} IdsAre(rows: seq<Candidate>, keep: Candidate -> bool)
    ensures forall id :: id in Ids(rows, keep) <==> exists c | c in rows :: keep(c) && c.id == id
  {
    if rows != [] {
      var front, last := rows[..|rows| - 1], rows[|rows| - 1];
      IdsAre(front, keep);
      assert rows == front + [last];
      assert forall c :: c in rows <==> c in front || c == last;
    }
  }

  /** Exactly the unprotected entities whose spend would change are affected, and they are within the limit. */
  lemma SimulationAffects(candidates: seq<Candidate>, limit: int, fingerprintOf: seq<Candidate> -> string)
    requires Simulate(candidates, limit, fingerprintOf).Ok?
    ensures var s := Simulate(candidates, limit, fingerprintOf).value;
            && |s.affected| <= limit
            && (forall id :: id in s.affected <==> exists c | c in candidates :: !c.isProtected && c.proposed != c.current && c.id == id)
            && (forall id :: id in s.exempt <==> exists c | c in candidates :: c.isProtected && c.id == id)
  {
    hide Sort;
    IdOrder();
    SortWorks(ById, candidates);
    var rows := Sort(ById, candidates);
    SameMembers(rows, candidates);
    IdsAre(rows, Affected);
    IdsAre(rows, Exempt);
  }

  function Moved(c: Candidate): real { if !c.isProtected && c.proposed != c.current then 1.0 else 0.0 }
  function Spent(c: Candidate): real { if c.isProtected then 0.0 else c.current }
  function Change(c: Candidate): real { if c.isProtected then 0.0 else c.proposed - c.current }

  lemma {:induction false} IdsCounted(rows: seq<Candidate>)
    ensures |Ids(rows, Affected)| as real == SumOf(rows, Moved)
  {
    hide SumOf;
    if rows == [] {
      NothingSummed();
    } else {
      var front, last := rows[..|rows| - 1], rows[|rows| - 1];
      IdsCounted(front);
      assert rows == front + [last];
      SumOfLast(front, last, Moved);
    }
  }

  lemma NothingSummed()
    ensures forall amount: Candidate -> real :: SumOf([], amount) == 0.0
  {
  }

  lemma {:induction false} SpendSummed(rows: seq<Candidate>, amount: Candidate -> real, counted: Candidate -> real)
    requires forall c :: counted(c) == if c.isProtected then 0.0 else amount(c)
    ensures SpendOf(rows, amount) == SumOf(rows, counted)
  {
    hide SumOf;
    if rows == [] {
      NothingSummed();
    } else {
      var front, last := rows[..|rows| - 1], rows[|rows| - 1];
      SpendSummed(front, amount, counted);
      assert rows == front + [last];
      SumOfLast(front, last, counted);
    }
  }

  /** A simulation is refused exactly when the limit is negative or exceeded, and else sums up what is unprotected. */
  lemma SimulationSums(candidates: seq<Candidate>, limit: int, fingerprintOf: seq<Candidate> -> string)
    ensures var r := Simulate(candidates, limit, fingerprintOf);
            && (r.Ok? <==> limit >= 0 && SumOf(candidates, Moved) <= limit as real)
            && (r.Ok? ==>
                  var s := r.value;
                  && s.entityCount == |candidates|
                  && s.spend == SumOf(candidates, Spent) && s.delta == SumOf(candidates, Change)
                  && ShareOfSpend(s.risk, s.spend, s.delta))
  {
    hide Sort, SumOf, SpendOf, RiskOf, ShareOfSpend;
    var rows := Sort(ById, candidates);
    IdOrder();
    SortWorks(ById, candidates);
    assert |multiset(rows)| == |multiset(candidates)|;
    SumOfSorted(ById, candidates, Moved);
    SumOfSorted(ById, candidates, Spent);
    SumOfSorted(ById, candidates, Change);
    IdsCounted(rows);
    SpendIs(rows);
    RiskIsShare(SpendOf(rows, Current), SpendOf(rows, Difference));
  }

  lemma SpendIs(rows: seq<Candidate>)
    ensures SpendOf(rows, Current) == SumOf(rows, Spent) && SpendOf(rows, Difference) == SumOf(rows, Change)
  {
    hide SpendOf, SumOf;
    SpendSummed(rows, Current, Spent);
    SpendSummed(rows, Difference, Change);
  }

  /** The part of the spend that changes either way, all of it at most, and none of nothing. */
  predicate ShareOfSpend(risk: real, spend: real, delta: real) {
    && (spend == 0.0 ==> risk == 0.0)
    && (spend > 0.0 && -spend < delta < spend ==> risk * spend == if delta < 0.0 then -delta else delta)
    && (spend > 0.0 && !(-spend < delta < spend) ==> risk == 1.0)
    && (spend < 0.0 ==> risk * spend == if delta < 0.0 then -delta else delta)
  }

  lemma RiskIsShare(spend: real, delta: real)
    ensures ShareOfSpend(RiskOf(spend, delta), spend, delta)
  {
    var size := if delta < 0.0 then -delta else delta;
    if spend != 0.0 {
      var share := size / spend;
      assert share * spend == size;
      if spend > 0.0 {
        Below(share, spend);
      } else {
        Negative(share, spend);
      }
    }
  }

  lemma Below(share: real, spend: real)
    requires spend > 0.0
    ensures share < 1.0 <==> share * spend < spend
  {
  }

  lemma Negative(share: real, spend: real)
    requires spend < 0.0 && share * spend >= 0.0
    ensures share <= 0.0
  {
  }

  ghost predicate UniqueIds(candidates: seq<Candidate>) {
    forall a, b | a in candidates && b in candidates && a.id == b.id :: a == b
  }

  /** No canary is protected, and never are there more of them than the limit. */
  lemma CanariesAreSafe(candidates: seq<Candidate>, limit: int, fingerprintOf: seq<Candidate> -> string, pct: real, digest: Digest, c: Candidate)
    requires UniqueIds(candidates) && Simulate(candidates, limit, fingerprintOf).Ok? && ValidPct(pct)
    ensures var s := Simulate(candidates, limit, fingerprintOf).value;
            var chosen := CanaryIds(s.affected, s.fingerprint, pct, digest).value;
            |chosen| <= limit && (c in candidates && c.id in chosen ==> !c.isProtected && c.proposed != c.current)
  {
    hide CanaryIds, Simulate;
    var s := Simulate(candidates, limit, fingerprintOf).value;
    SimulationAffects(candidates, limit, fingerprintOf);
    CanarySize(s.affected, s.fingerprint, pct, digest);
  }

  /** The simulation, and so its canaries, do not depend on the order of the candidates. */
  lemma SimulationIgnoresOrder(candidates: seq<Candidate>, others: seq<Candidate>, limit: int, fingerprintOf: seq<Candidate> -> string)
    requires multiset(candidates) == multiset(others) && UniqueIds(candidates)
    ensures Simulate(candidates, limit, fingerprintOf) == Simulate(others, limit, fingerprintOf)
  {
    hide Sort;
    IdOrder();
    forall a, b | a in candidates && b in candidates && ById(a, b) && ById(b, a)
      ensures a == b
    {
      StrTotal(a.id, b.id);
    }
    SortIgnoresOrder(ById, candidates, others);
  }
}
