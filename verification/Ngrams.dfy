/**
 Negative n-gram analysis: queries aggregated from rows, an inverted index from
 phrases to queries, a verdict for every wasteful phrase, and a pass that drops
 phrases a shorter negative already covers. Rows come tokenised; sums are exact, and
 the exponential and the roundings are parameters.
 */
module Ngrams {
  import opened Wrappers
  import opened Ordering
  import opened Texts

  /** The words of a query or of a part of one. */
  type Phrase = seq<string>

  const MAX_N := 3

  datatype Totals = Totals(clicks: int, impressions: int, cost: real, orders: int, sales: real)

  const NOTHING := Totals(0, 0, 0.0, 0, 0.0)

  function Plus(a: Totals, b: Totals): Totals {
    Totals(a.clicks + b.clicks, a.impressions + b.impressions, a.cost + b.cost, a.orders + b.orders, a.sales + b.sales)
  }

  datatype Row = Row(tokens: Phrase, totals: Totals)

  datatype Protection = Protection(id: string, tokens: Phrase)

  datatype Thresholds =
    Thresholds(reviewMinClicks: int, minClicks: int, minCost: real, minQueries: int, autoMinN: int, maxChance: real)

  /** The functions of a real number the source takes from its libraries. */
  datatype Library = Library(exp: real -> real, round4: real -> real, round6: real -> real)

  datatype Decision = ManualReview | NegativePhrase | Protected | Covered

  datatype Reason = LowVolume | FewQueries | SingleWord | GenericTokens | LowConfidence | ProtectedTerm | CoveredBy(cover: Phrase)

  datatype Finding = Finding(
    ngram: Phrase, queryCount: nat, totals: Totals, chance: Option<real>,
    decision: Decision, reasons: seq<Reason>, protection: Option<string>)

  // -------------------------------------------------------------- phrases

  predicate OccursAt(outer: Phrase, inner: Phrase, i: nat) {
    i + |inner| <= |outer| && outer[i..i + |inner|] == inner
  }

  predicate Contains(outer: Phrase, inner: Phrase) {
    |inner| > 0 && exists i: nat | i < |outer| :: OccursAt(outer, inner, i)
  }

  function Slice(tokens: Phrase, i: nat, n: nat): Phrase
    requires i + n <= |tokens|
  {
    tokens[i..i + n]
  }

  /** Contiguous phrases of one to three words. */
  function Phrases(tokens: Phrase): set<Phrase> {
    set n: nat, i: nat | 1 <= n <= MAX_N && i < |tokens| && i + n <= |tokens| :: Slice(tokens, i, n)
  }

  /** The phrases of a query are exactly the short phrases it contains. */
  lemma PhrasesAreContained(tokens: Phrase, p: Phrase)
    ensures p in Phrases(tokens) <==> 1 <= |p| <= MAX_N && Contains(tokens, p)
  {
    if 1 <= |p| <= MAX_N && Contains(tokens, p) {
      var i: nat :| i < |tokens| && OccursAt(tokens, p, i);
      assert Slice(tokens, i, |p|) == p;
    }
    if p in Phrases(tokens) {
      var n: nat, i: nat :| 1 <= n <= MAX_N && i < |tokens| && i + n <= |tokens| && Slice(tokens, i, n) == p;
      assert OccursAt(tokens, p, i);
    }
  }

  lemma ContainsTransitive(a: Phrase, b: Phrase, c: Phrase)
    requires Contains(a, b) && Contains(b, c)
    ensures Contains(a, c)
  {
    var i: nat :| i < |a| && OccursAt(a, b, i);
    var k: nat :| k < |b| && OccursAt(b, c, k);
    var at := i + k;
    assert a[at..at + |c|] == a[i..i + |b|][k..k + |c|] == c;
    assert OccursAt(a, c, at);
  }

  lemma ContainsSameLength(a: Phrase, b: Phrase)
    requires Contains(a, b)
    ensures |b| <= |a| && (|a| == |b| ==> a == b)
  {
    var i: nat :| i < |a| && OccursAt(a, b, i);
  }

  // ---------------------------------------------------------- aggregation

  /** The totals of the rows whose query is one of these. */
  function Among(rows: seq<Row>, ks: set<Phrase>): Totals {
    if rows == [] then NOTHING
    else
      var last := rows[|rows| - 1];
      var t := Among(rows[..|rows| - 1], ks);
      if last.tokens in ks then Plus(t, last.totals) else t
  }

  /** The direct scan: all rows that contain the phrase. */
  function Scan(rows: seq<Row>, p: Phrase): Totals {
    if rows == [] then NOTHING
    else
      var last := rows[|rows| - 1];
      var t := Scan(rows[..|rows| - 1], p);
      if Contains(last.tokens, p) then Plus(t, last.totals) else t
  }

  /** The distinct non-empty queries. */
  function Queries(rows: seq<Row>): set<Phrase> {
    set r | r in rows && r.tokens != [] :: r.tokens
  }

  function QueriesWith(rows: seq<Row>, p: Phrase): set<Phrase> {
    set k | k in Queries(rows) && p in Phrases(k)
  }

  function AllPhrases(rows: seq<Row>): set<Phrase> {
    set k, p | k in Queries(rows) && p in Phrases(k) :: p
  }

  method Aggregate(rows: seq<Row>) returns (queries: map<Phrase, Totals>)
    ensures queries.Keys == Queries(rows)
    ensures forall k | k in queries :: queries[k] == Among(rows, {k})
  {
    queries := map[];
    for i := 0 to |rows|
      invariant queries.Keys == Queries(rows[..i])
      invariant forall k | k in queries :: queries[k] == Among(rows[..i], {k})
    {
      var row := rows[i];
      QueriesGrow(rows, i);
      assert rows[..i + 1][..i] == rows[..i];
      if row.tokens != [] {
        UnseenQuery(rows[..i], row.tokens);
        var t := if row.tokens in queries then queries[row.tokens] else NOTHING;
        queries := queries[row.tokens := Plus(t, row.totals)];
      }
    }
    assert rows[..|rows|] == rows;
  }

  lemma QueriesGrow(rows: seq<Row>, i: nat)
    requires i < |rows|
    ensures Queries(rows[..i + 1]) == Queries(rows[..i]) + (if rows[i].tokens != [] then {rows[i].tokens} else {})
  {
    assert rows[..i + 1] == rows[..i] + [rows[i]];
    assert forall r :: r in rows[..i + 1] <==> r in rows[..i] || r == rows[i];
  }

  lemma {:induction false} UnseenQuery(rows: seq<Row>, k: Phrase)
    ensures k != [] && k !in Queries(rows) ==> Among(rows, {k}) == NOTHING
  {
    if rows != [] {
      UnseenQuery(rows[..|rows| - 1], k);
      assert rows[|rows| - 1] in rows;
      assert forall r :: r in rows[..|rows| - 1] ==> r in rows;
    }
  }

  /** The inverted index: for each phrase, the queries that contain it. */
  method Index(queries: set<Phrase>) returns (members: map<Phrase, set<Phrase>>)
    ensures forall p :: p in members <==> exists k | k in queries :: p in Phrases(k)
    ensures forall p | p in members :: members[p] == set k | k in queries && p in Phrases(k)
  {
    hide Phrases;
    members := map[];
    var left := queries;
    while left != {}
      invariant left <= queries
      invariant forall p :: p in members <==> exists k | k in queries - left :: p in Phrases(k)
      invariant forall p | p in members :: members[p] == set k | k in queries - left && p in Phrases(k)
      decreases left
    {
      var q :| q in left;
      var more := AddQuery(members, q);
      IndexStep(queries, left - {q}, queries - left, q, members, more);
      members, left := more, left - {q};
    }
  }

  method AddQuery(members: map<Phrase, set<Phrase>>, q: Phrase) returns (more: map<Phrase, set<Phrase>>)
    ensures forall p :: p in more <==> p in members || p in Phrases(q)
    ensures forall p | p in more :: more[p] == (if p in members then members[p] else {}) + (if p in Phrases(q) then {q} else {})
  {
    hide Phrases;
    more := members;
    var left := Phrases(q);
    while left != {}
      invariant left <= Phrases(q)
      invariant forall p :: p in more <==> p in members || p in Phrases(q) - left
      invariant forall p | p in more ::
                  more[p] == (if p in members then members[p] else {}) + (if p in Phrases(q) - left then {q} else {})
      decreases left
    {
      var p :| p in left;
      more := more[p := (if p in more then more[p] else {}) + {q}];
      left := left - {p};
    }
  }

  lemma IndexStep(queries: set<Phrase>, left: set<Phrase>, done: set<Phrase>, q: Phrase,
                  before: map<Phrase, set<Phrase>>, members: map<Phrase, set<Phrase>>)
    requires queries - left == done + {q}
    requires forall p :: p in before <==> exists k | k in done :: p in Phrases(k)
    requires forall p | p in before :: before[p] == set k | k in done && p in Phrases(k)
    requires forall p :: p in members <==> p in before || p in Phrases(q)
    requires forall p | p in members :: members[p] == (if p in before then before[p] else {}) + (if p in Phrases(q) then {q} else {})
    ensures forall p :: p in members <==> exists k | k in queries - left :: p in Phrases(k)
    ensures forall p | p in members :: members[p] == set k | k in queries - left && p in Phrases(k)
  {
    hide Phrases;
    forall p
      ensures p in members <==> exists k | k in queries - left :: p in Phrases(k)
    {
      assert q in queries - left;
    }
    forall p | p in members
      ensures members[p] == set k | k in queries - left && p in Phrases(k)
    {
      if p !in before {
        assert forall k | k in done :: p !in Phrases(k);
      }
    }
  }

  method SumOver(ghost rows: seq<Row>, queries: map<Phrase, Totals>, ks: set<Phrase>) returns (t: Totals)
    requires ks <= queries.Keys
    requires forall k | k in queries :: queries[k] == Among(rows, {k})
    ensures t == Among(rows, ks)
  {
    t := NOTHING;
    AmongNone(rows);
    var left := ks;
    ghost var done: set<Phrase> := {};
    while left != {}
      invariant left !! done && left + done == ks
      invariant t == Among(rows, done)
      decreases left
    {
      var k :| k in left;
      AmongGrows(rows, done, k);
      t := Plus(t, queries[k]);
      left, done := left - {k}, done + {k};
    }
  }

  lemma {:induction false} AmongNone(rows: seq<Row>)
    ensures Among(rows, {}) == NOTHING
  {
    if rows != [] {
      AmongNone(rows[..|rows| - 1]);
    }
  }

  lemma {:induction false} AmongGrows(rows: seq<Row>, ks: set<Phrase>, k: Phrase)
    requires k !in ks
    ensures Among(rows, ks + {k}) == Plus(Among(rows, ks), Among(rows, {k}))
  {
    if rows != [] {
      AmongGrows(rows[..|rows| - 1], ks, k);
    }
  }

  /** Summing the indexed queries of a phrase is the same as scanning every row. */
  lemma IndexAgreesWithScan(rows: seq<Row>, p: Phrase)
    requires 1 <= |p| <= MAX_N
    ensures Among(rows, QueriesWith(rows, p)) == Scan(rows, p)
  {
    forall r | r in rows
      ensures r.tokens in QueriesWith(rows, p) <==> Contains(r.tokens, p)
    {
      PhrasesAreContained(r.tokens, p);
    }
    SameRowsSameSum(rows, QueriesWith(rows, p), p);
  }

  lemma {:induction false} SameRowsSameSum(rows: seq<Row>, ks: set<Phrase>, p: Phrase)
    requires forall r | r in rows :: r.tokens in ks <==> Contains(r.tokens, p)
    ensures Among(rows, ks) == Scan(rows, p)
  {
    if rows != [] {
      assert rows[|rows| - 1] in rows;
      SameRowsSameSum(rows[..|rows| - 1], ks, p);
    }
  }

  // ------------------------------------------------------- classification

  predicate Stopword(word: string) {
    word in {"a", "an", "and", "are", "as", "at", "be", "by", "for", "from", "in", "into", "is", "it", "of", "on", "or",
             "the", "to", "with", "without"}
  }

  predicate Generic(p: Phrase) {
    forall w | w in p :: Stopword(w) || |w| < 3 || forall c | c in w :: '0' <= c <= '9'
  }

  predicate Overlaps(p: Phrase, protection: Protection) {
    Contains(protection.tokens, p) || Contains(p, protection.tokens)
  }

  /** The first protected term that overlaps the phrase; an empty id counts as none. */
  function ProtectionFor(p: Phrase, protections: seq<Protection>): Option<string> {
    if protections == [] then None
    else if Overlaps(p, protections[0]) then if protections[0].id == "" then None else Some(protections[0].id)
    else ProtectionFor(p, protections[1..])
  }

  /** The account's orders per click, when it has both. */
  function Rate(account: Totals): Option<real> {
    if account.clicks != 0 && account.orders != 0 then Some(account.orders as real / account.clicks as real) else None
  }

  predicate Candidate(t: Totals, limits: Thresholds) {
    t.orders <= 0 && t.clicks >= limits.reviewMinClicks
  }

  function When(c: bool, reason: Reason): seq<Reason> {
    if c then [reason] else []
  }

  /** The chance of seeing no order after so many clicks, when the account has a rate. */
  function Chance(clicks: int, rate: Option<real>, lib: Library): Option<real> {
    if rate.None? then None else Some(lib.exp(-(clicks as real) * rate.value))
  }

  /** The reasons a candidate needs a human, in the order they are recorded. */
  function Doubts(p: Phrase, count: nat, t: Totals, chance: Option<real>, limits: Thresholds, lib: Library): seq<Reason> {
    When(t.clicks < limits.minClicks || lib.round4(t.cost) < limits.minCost, LowVolume)
    + When(count < limits.minQueries, FewQueries)
    + When(|p| < limits.autoMinN, SingleWord)
    + When(Generic(p), GenericTokens)
    + When(chance.None? || chance.value > limits.maxChance, LowConfidence)
  }

  function Judge(p: Phrase, count: nat, t: Totals, rate: Option<real>, protections: seq<Protection>,
                 limits: Thresholds, lib: Library): Finding {
    var chance := Chance(t.clicks, rate, lib);
    var doubts := Doubts(p, count, t, chance, limits, lib);
    var protection := ProtectionFor(p, protections);
    Finding(
      p, count, Totals(t.clicks, t.impressions, lib.round4(t.cost), 0, lib.round4(t.sales)),
      if chance.None? then None else Some(lib.round6(chance.value)),
      if protection.Some? then Protected else if doubts == [] then NegativePhrase else ManualReview,
      if protection.Some? then doubts + [ProtectedTerm] else doubts,
      protection)
  }

  datatype Settings = Settings(protections: seq<Protection>, limits: Thresholds, lib: Library)

  /** What the rows alone say about a phrase. */
  function Verdict(rows: seq<Row>, p: Phrase, s: Settings): Finding {
    Judge(p, |QueriesWith(rows, p)|, Scan(rows, p), Rate(Among(rows, Queries(rows))), s.protections, s.limits, s.lib)
  }

  /** One finding for every candidate among some phrases, in any order. */
  ghost predicate FindingsAmong(found: seq<Finding>, rows: seq<Row>, s: Settings, phrases: set<Phrase>) {
    && (forall f | f in found :: f == Verdict(rows, f.ngram, s) && f.ngram in phrases && Candidate(Scan(rows, f.ngram), s.limits))
    && (forall p | p in phrases && Candidate(Scan(rows, p), s.limits) :: Verdict(rows, p, s) in found)
    && (forall i, j | 0 <= i < j < |found| :: found[i].ngram != found[j].ngram)
  }

  /** One finding for every candidate phrase of the rows. */
  ghost predicate FindingsOf(found: seq<Finding>, rows: seq<Row>, s: Settings) {
    FindingsAmong(found, rows, s, AllPhrases(rows))
  }

  lemma NoFindings(rows: seq<Row>, s: Settings)
    ensures FindingsAmong([], rows, s, {})
  {
  }

  lemma PhraseLengths(rows: seq<Row>, p: Phrase)
    requires p in AllPhrases(rows)
    ensures 1 <= |p| <= MAX_N
  {
    var k :| k in Queries(rows) && p in Phrases(k);
    PhrasesAreContained(k, p);
  }

  method Findings(rows: seq<Row>, s: Settings) returns (found: seq<Finding>)
    ensures FindingsOf(found, rows, s)
  {
    hide Phrases, Contains, Doubts, Judge, ProtectionFor, Rate, Scan, Among, Candidate, FindingsAmong;
    NoFindings(rows, s);
    var queries := Aggregate(rows);
    var account := SumOver(rows, queries, queries.Keys);
    var members := Index(queries.Keys);
    found := [];
    var left := members.Keys;
    assert left == AllPhrases(rows) && members.Keys - left == {};
    while left != {}
      invariant left <= members.Keys == AllPhrases(rows)
      invariant FindingsAmong(found, rows, s, members.Keys - left)
      decreases left
    {
      var p :| p in left;
      ghost var was := found;
      assert members[p] == QueriesWith(rows, p);
      PhraseLengths(rows, p);
      IndexAgreesWithScan(rows, p);
      var t := SumOver(rows, queries, members[p]);
      if Candidate(t, s.limits) {
        found := found + [Judge(p, |members[p]|, t, Rate(account), s.protections, s.limits, s.lib)];
      }
      OneMoreFinding(was, found, rows, s, members.Keys - left, p);
      assert members.Keys - (left - {p}) == members.Keys - left + {p};
      left := left - {p};
    }
    assert members.Keys - left == AllPhrases(rows);
  }

  /** One more phrase looked at: its finding if it is a candidate, or none. */
  lemma OneMoreFinding(was: seq<Finding>, found: seq<Finding>, rows: seq<Row>, s: Settings, done: set<Phrase>, p: Phrase)
    requires FindingsAmong(was, rows, s, done) && p !in done
    requires found == if Candidate(Scan(rows, p), s.limits) then was + [Verdict(rows, p, s)] else was
    ensures FindingsAmong(found, rows, s, done + {p})
  {
    hide Candidate, Scan, Verdict;
    JudgeKeepsPhrase(rows, p, s);
  }

  lemma JudgeKeepsPhrase(rows: seq<Row>, p: Phrase, s: Settings)
    ensures Verdict(rows, p, s).ngram == p
  {
  }

  // ------------------------------------------------------ order and cover

  function Joined(p: Phrase): string {
    Join(" ", p)
  }

  lemma JoinedLast(p: Phrase)
    requires |p| > 1
    ensures Joined(p) == Joined(p[..|p| - 1]) + " " + p[|p| - 1]
  {
    var front := p[..|p| - 1];
    assert p == front + [p[|p| - 1]];
    JoinConcat(" ", front, [p[|p| - 1]]);
  }

  predicate Earlier(f: Finding, g: Finding) {
    |f.ngram| < |g.ngram| || (|f.ngram| == |g.ngram| && StrLeq(Joined(f.ngram), Joined(g.ngram)))
  }

  function FirstCover(negated: seq<Phrase>, p: Phrase): Option<Phrase> {
    if negated == [] then None
    else if Contains(p, negated[0]) then Some(negated[0])
    else FirstCover(negated[1..], p)
  }

  /** The phrases that stay negative, in order. */
  function Negated(fs: seq<Finding>): seq<Phrase> {
    if fs == [] then []
    else
      var last := fs[|fs| - 1];
      var before := Negated(fs[..|fs| - 1]);
      if last.decision.NegativePhrase? && FirstCover(before, last.ngram).None? then before + [last.ngram] else before
  }

  function MarkOne(negated: seq<Phrase>, f: Finding): Finding {
    if !f.decision.NegativePhrase? then f
    else
      match FirstCover(negated, f.ngram)
      case None => f
      case Some(c) => f.(decision := Covered, reasons := f.reasons + [CoveredBy(c)])
  }

  /** The findings after the cover pass. */
  function Marked(fs: seq<Finding>): seq<Finding> {
    if fs == [] then []
    else Marked(fs[..|fs| - 1]) + [MarkOne(Negated(fs[..|fs| - 1]), fs[|fs| - 1])]
  }

  /** What the analysis may answer for these rows. */
  ghost predicate Analysis(findings: seq<Finding>, rows: seq<Row>, s: Settings) {
    exists found :: FindingsOf(found, rows, s) && findings == Marked(Sort(Earlier, found))
  }

  method Analyze(rows: seq<Row>, s: Settings) returns (findings: seq<Finding>)
    ensures Analysis(findings, rows, s)
  {
    hide FindingsOf, Contains, FirstCover, Negated, Marked, Sort;
    PassStart();
    var found := Findings(rows, s);
    findings := Sort(Earlier, found);
    ghost var sorted := findings;
    var negated: seq<Phrase> := [];
    for i := 0 to |findings|
      invariant |findings| == |sorted| && findings[i..] == sorted[i..]
      invariant findings[..i] == Marked(sorted[..i]) && negated == Negated(sorted[..i])
    {
      PassStep(sorted, i);
      assert findings[i] == findings[i..][0] == sorted[i..][0] == sorted[i];
      if findings[i].decision.NegativePhrase? {
        var cover := FirstCover(negated, findings[i].ngram);
        if cover.Some? {
          findings := findings[i := findings[i].(decision := Covered, reasons := findings[i].reasons + [CoveredBy(cover.value)])];
        } else {
          negated := negated + [findings[i].ngram];
        }
      }
    }
    assert findings[..|sorted|] == findings && sorted[..|sorted|] == sorted;
  }

  lemma PassStart()
    ensures Marked([]) == [] && Negated([]) == []
  {
  }

  lemma PassStep(fs: seq<Finding>, i: nat)
    requires i < |fs|
    ensures Marked(fs[..i + 1]) == Marked(fs[..i]) + [MarkOne(Negated(fs[..i]), fs[i])]
    ensures Negated(fs[..i + 1]) ==
            Negated(fs[..i]) + if fs[i].decision.NegativePhrase? && FirstCover(Negated(fs[..i]), fs[i].ngram).None? then [fs[i].ngram] else []
  {
    assert fs[..i + 1][..i] == fs[..i];
  }

  // ---------------------------------------------------------- the results

  lemma {:induction false} FirstCoverWorks(negated: seq<Phrase>, p: Phrase)
    ensures var c := FirstCover(negated, p);
            if c.Some? then c.value in negated && Contains(p, c.value) else forall n | n in negated :: !Contains(p, n)
  {
    if negated != [] {
      FirstCoverWorks(negated[1..], p);
      assert negated == [negated[0]] + negated[1..];
    }
  }

  ghost predicate Ascending(fs: seq<Finding>) {
    forall i, j | 0 <= i < j < |fs| :: |fs[i].ngram| <= |fs[j].ngram|
  }

  function Negatives(fs: seq<Finding>): set<Phrase> {
    set f | f in fs && f.decision.NegativePhrase? :: f.ngram
  }

  lemma {:induction false} NegatedAreNegatives(fs: seq<Finding>)
    ensures forall p | p in Negated(fs) :: p in Negatives(fs)
  {
    if fs != [] {
      NegatedAreNegatives(fs[..|fs| - 1]);
      assert fs[|fs| - 1] in fs;
      assert forall f | f in fs[..|fs| - 1] :: f in fs;
    }
  }

  /** No phrase that stays negative contains another one. */
  lemma {:induction false} Antichain(fs: seq<Finding>)
    requires Ascending(fs)
    ensures forall a, b | a in Negated(fs) && b in Negated(fs) && a != b :: !Contains(a, b)
  {
    hide Contains;
    if fs != [] {
      var front, last := fs[..|fs| - 1], fs[|fs| - 1].ngram;
      Antichain(front);
      FirstCoverWorks(Negated(front), last);
      forall c | c in Negated(front) && c != last
        ensures !Contains(c, last)
      {
        NegatedAreNegatives(front);
        var f :| f in front && f.ngram == c;
        var i :| 0 <= i < |front| && front[i] == f;
        assert |fs[i].ngram| <= |fs[|fs| - 1].ngram|;
        if Contains(c, last) {
          ContainsSameLength(c, last);
        }
      }
    }
  }

  /** The marked findings that stay negative are exactly the negated phrases. */
  lemma {:induction false} MarkedNegatives(fs: seq<Finding>)
    ensures forall p :: p in Negatives(Marked(fs)) <==> p in Negated(fs)
  {
    hide FirstCover;
    if fs != [] {
      var front := fs[..|fs| - 1];
      var one := MarkOne(Negated(front), fs[|fs| - 1]);
      MarkedNegatives(front);
      assert Marked(fs) == Marked(front) + [one];
      assert forall f :: f in Marked(fs) <==> f in Marked(front) || f == one;
      assert Negatives(Marked(fs)) == Negatives(Marked(front)) + if one.decision.NegativePhrase? then {one.ngram} else {};
    }
  }

  /** A query is blocked by a set of phrases when it contains one of them. */
  ghost predicate Blocked(query: Phrase, negatives: set<Phrase>) {
    exists p | p in negatives :: Contains(query, p)
  }

  lemma {:induction false} CoverBlocks(fs: seq<Finding>, query: Phrase)
    ensures Blocked(query, Negatives(fs)) <==> Blocked(query, Negatives(Marked(fs)))
  {
    hide Contains;
    MarkedNegatives(fs);
    if fs != [] {
      var front, last := fs[..|fs| - 1], fs[|fs| - 1];
      CoverBlocks(front, query);
      MarkedNegatives(front);
      NegativesGrow(fs);
      FirstCoverWorks(Negated(front), last.ngram);
      NegatedAreNegatives(fs);
      var cover := FirstCover(Negated(front), last.ngram);
      if last.decision.NegativePhrase? && cover.Some? && Contains(query, last.ngram) {
        ContainsTransitive(query, last.ngram, cover.value);
        assert cover.value in Negatives(Marked(fs));
      }
    }
  }

  lemma NegativesGrow(fs: seq<Finding>)
    requires fs != []
    ensures var last := fs[|fs| - 1];
            Negatives(fs) == Negatives(fs[..|fs| - 1]) + if last.decision.NegativePhrase? then {last.ngram} else {}
  {
    assert fs == fs[..|fs| - 1] + [fs[|fs| - 1]];
  }

  lemma {:induction false} MarkedAt(fs: seq<Finding>, i: nat)
    requires i < |fs|
    ensures |Marked(fs)| == |fs| && Marked(fs)[i] == MarkOne(Negated(fs[..i]), fs[i])
  {
    var front := fs[..|fs| - 1];
    if i < |front| {
      MarkedAt(front, i);
      assert front[..i] == fs[..i];
    } else if front != [] {
      MarkedAt(front, 0);
    }
  }

  lemma EarlierIsTotal()
    ensures Total(Earlier)
  {
    forall f, g
      ensures Earlier(f, g) || Earlier(g, f)
    {
      StrTotal(Joined(f.ngram), Joined(g.ngram));
    }
    forall f, g, h | Earlier(f, g) && Earlier(g, h)
      ensures Earlier(f, h)
    {
      if |f.ngram| == |h.ngram| {
        StrTransitive(Joined(f.ngram), Joined(g.ngram), Joined(h.ngram));
      }
    }
  }

  lemma SortedFindings(found: seq<Finding>)
    ensures Ascending(Sort(Earlier, found)) && (forall f :: f in Sort(Earlier, found) <==> f in found)
  {
    EarlierIsTotal();
    SortWorks(Earlier, found);
    SameMembers(Sort(Earlier, found), found);
    var fs := Sort(Earlier, found);
    forall i, j | 0 <= i < j < |fs|
      ensures |fs[i].ngram| <= |fs[j].ngram|
    {
      assert Earlier(fs[i], fs[j]);
    }
  }

  /** The phrases left negative by an analysis never contain one another. */
  lemma NegativesAreAnAntichain(findings: seq<Finding>, rows: seq<Row>, s: Settings)
    requires Analysis(findings, rows, s)
    ensures forall a, b | a in Negatives(findings) && b in Negatives(findings) && a != b :: !Contains(a, b)
  {
    hide Contains, FindingsOf;
    var found :| FindingsOf(found, rows, s) && findings == Marked(Sort(Earlier, found));
    SortedFindings(found);
    Antichain(Sort(Earlier, found));
    MarkedNegatives(Sort(Earlier, found));
  }

  /** The candidate phrases that no doubt and no protection keeps from being negative. */
  ghost function Condemned(rows: seq<Row>, s: Settings): set<Phrase> {
    set p | p in AllPhrases(rows) && Candidate(Scan(rows, p), s.limits) && Verdict(rows, p, s).decision.NegativePhrase?
  }

  /** Dropping covered phrases blocks exactly the same queries. */
  lemma CoverLosesNothing(findings: seq<Finding>, rows: seq<Row>, s: Settings, query: Phrase)
    requires Analysis(findings, rows, s)
    ensures Blocked(query, Negatives(findings)) <==> Blocked(query, Condemned(rows, s))
  {
    hide Contains, Scan, Judge;
    var found :| FindingsOf(found, rows, s) && findings == Marked(Sort(Earlier, found));
    SortedFindings(found);
    CoverBlocks(Sort(Earlier, found), query);
    forall p
      ensures p in Condemned(rows, s) <==> p in Negatives(found)
    {
      JudgeKeepsPhrase(rows, p, s);
    }
    assert Negatives(Sort(Earlier, found)) == Negatives(found) == Condemned(rows, s);
  }

  /** A finding is the verdict on its phrase, up to the cover pass. */
  lemma FindingIsVerdict(findings: seq<Finding>, rows: seq<Row>, s: Settings, f: Finding)
    requires Analysis(findings, rows, s) && f in findings
    ensures f.ngram in AllPhrases(rows) && Candidate(Scan(rows, f.ngram), s.limits)
    ensures var v := Verdict(rows, f.ngram, s);
            && f.(decision := v.decision, reasons := v.reasons) == v
            && (f == v || (f.decision.Covered? && v.decision.NegativePhrase?))
  {
    hide Contains, Scan, Verdict, AllPhrases, Candidate, FindingsOf, Sort, Marked, MarkOne;
    var found :| FindingsOf(found, rows, s) && findings == Marked(Sort(Earlier, found));
    SortedFindings(found);
    var fs := Sort(Earlier, found);
    var i :| 0 <= i < |findings| && findings[i] == f;
    MarkedSize(fs);
    MarkedAt(fs, i);
    assert fs[i] in found;
    FoundIsVerdict(found, rows, s, fs[i]);
    MarkOneKeeps(Negated(fs[..i]), fs[i]);
  }

  lemma {:induction false} MarkedSize(fs: seq<Finding>)
    ensures |Marked(fs)| == |fs|
  {
    hide MarkOne;
    if fs != [] {
      MarkedSize(fs[..|fs| - 1]);
    }
  }

  lemma FoundIsVerdict(found: seq<Finding>, rows: seq<Row>, s: Settings, v: Finding)
    requires FindingsOf(found, rows, s) && v in found
    ensures v == Verdict(rows, v.ngram, s) && v.ngram in AllPhrases(rows) && Candidate(Scan(rows, v.ngram), s.limits)
  {
    hide Verdict, AllPhrases, Candidate, Scan;
  }

  lemma MarkOneKeeps(cover: seq<Phrase>, v: Finding)
    ensures var f := MarkOne(cover, v);
            && f.ngram == v.ngram && f.(decision := v.decision, reasons := v.reasons) == v
            && (f == v || (f.decision.Covered? && v.decision.NegativePhrase?))
  {
    hide FirstCover;
  }

  lemma {:induction false} ScanAtLeast(rows: seq<Row>, p: Phrase, row: Row)
    requires row in rows && Contains(row.tokens, p)
    requires forall r | r in rows :: r.totals.orders >= 0
    ensures Scan(rows, p).orders >= row.totals.orders
  {
    hide Contains;
    ScanNonNegative(rows, p);
    var front, last := rows[..|rows| - 1], rows[|rows| - 1];
    ScanNonNegative(front, p);
    assert rows == front + [last];
    if row in front {
      ScanAtLeast(front, p, row);
    }
  }

  lemma {:induction false} ScanNonNegative(rows: seq<Row>, p: Phrase)
    requires forall r | r in rows :: r.totals.orders >= 0
    ensures Scan(rows, p).orders >= 0
  {
    hide Contains;
    if rows != [] {
      ScanNonNegative(rows[..|rows| - 1], p);
      assert rows[|rows| - 1] in rows;
    }
  }

  /** No phrase that is reported occurs in a query with orders. */
  lemma NothingConverting(findings: seq<Finding>, rows: seq<Row>, s: Settings, f: Finding, row: Row)
    requires Analysis(findings, rows, s) && f in findings
    requires row in rows && Contains(row.tokens, f.ngram)
    requires forall r | r in rows :: r.totals.orders >= 0
    ensures row.totals.orders == 0
  {
    FindingIsVerdict(findings, rows, s, f);
    ScanAtLeast(rows, f.ngram, row);
  }

  lemma {:induction false} ProtectionWorks(p: Phrase, protections: seq<Protection>)
    requires forall x | x in protections :: x.id != ""
    ensures ProtectionFor(p, protections).None? <==> forall x | x in protections :: !Overlaps(p, x)
  {
    hide Overlaps;
    if protections != [] {
      ProtectionWorks(p, protections[1..]);
      assert protections == [protections[0]] + protections[1..];
    }
  }

  /** No phrase that is to be negated overlaps a protected term in either direction. */
  lemma ProtectedNeverNegated(findings: seq<Finding>, rows: seq<Row>, s: Settings, f: Finding, protection: Protection)
    requires Analysis(findings, rows, s) && f in findings
    requires protection in s.protections && forall x | x in s.protections :: x.id != ""
    requires Overlaps(f.ngram, protection)
    ensures f.decision.Protected?
  {
    hide Contains, Scan, Doubts;
    FindingIsVerdict(findings, rows, s, f);
    ProtectionWorks(f.ngram, s.protections);
  }

  lemma NoDoubts(p: Phrase, count: nat, t: Totals, chance: Option<real>, limits: Thresholds, lib: Library)
    ensures Doubts(p, count, t, chance, limits, lib) == [] <==>
            && t.clicks >= limits.minClicks && lib.round4(t.cost) >= limits.minCost
            && count >= limits.minQueries
            && |p| >= limits.autoMinN
            && !Generic(p)
            && chance.Some? && chance.value <= limits.maxChance
  {
    hide Generic;
    var volume := When(t.clicks < limits.minClicks || lib.round4(t.cost) < limits.minCost, LowVolume);
    var queries := When(count < limits.minQueries, FewQueries);
    var word := When(|p| < limits.autoMinN, SingleWord);
    var generic := When(Generic(p), GenericTokens);
    var confidence := When(chance.None? || chance.value > limits.maxChance, LowConfidence);
    assert Doubts(p, count, t, chance, limits, lib) == volume + queries + word + generic + confidence;
    assert |volume + queries + word + generic + confidence| == |volume| + |queries| + |word| + |generic| + |confidence|;
  }

  // ---------------------------------------------------- order of the rows

  /** Words as the tokeniser makes them have no spaces in them. */
  predicate Words(p: Phrase) {
    forall w | w in p :: ' ' !in w
  }

  lemma LastWord(a: string, u: string, b: string, v: string)
    requires a + " " + u == b + " " + v && ' ' !in u && ' ' !in v
    ensures a == b && u == v
  {
    var all := a + " " + u;
    LastSpace(a, u);
    LastSpace(b, v);
    assert |a| == |b|;
    assert all[..|a|] == a && all[..|b|] == b && all[|a| + 1..] == u && all[|b| + 1..] == v;
  }

  lemma LastSpace(a: string, u: string)
    requires ' ' !in u
    ensures var all := a + " " + u; all[|a|] == ' ' && forall k | |a| < k < |all| :: all[k] != ' '
  {
    var all := a + " " + u;
    forall k | |a| < k < |all|
      ensures all[k] != ' '
    {
      assert all[k] == u[k - |a| - 1];
    }
  }

  lemma {:induction false} JoinedInjective(p: Phrase, q: Phrase)
    requires Words(p) && Words(q) && |p| == |q| && Joined(p) == Joined(q)
    ensures p == q
  {
    if |p| > 1 {
      var n := |p| - 1;
      JoinedLast(p);
      JoinedLast(q);
      LastWord(Joined(p[..n]), p[n], Joined(q[..n]), q[n]);
      JoinedInjective(p[..n], q[..n]);
      assert p == p[..n] + [p[n]] && q == q[..n] + [q[n]];
    }
  }

  lemma AmongOneMore(rows: seq<Row>, row: Row, ks: set<Phrase>)
    ensures Among(rows + [row], ks) == Plus(Among(rows, ks), Share(row, ks))
  {
    assert (rows + [row])[..|rows|] == rows;
  }

  function Share(row: Row, ks: set<Phrase>): Totals {
    if row.tokens in ks then row.totals else NOTHING
  }

  lemma {:induction false} AmongSplits(a: seq<Row>, b: seq<Row>, ks: set<Phrase>)
    ensures Among(a + b, ks) == Plus(Among(a, ks), Among(b, ks))
  {
    hide Among, Share;
    if b == [] {
      assert a + b == a;
      AmongEmpty(ks);
    } else {
      var front, last := b[..|b| - 1], b[|b| - 1];
      AmongSplits(a, front, ks);
      AmongOneMore(front, last, ks);
      AmongOneMore(a + front, last, ks);
      assert front + [last] == b && a + front + [last] == a + b;
    }
  }

  lemma AmongEmpty(ks: set<Phrase>)
    ensures Among([], ks) == NOTHING
  {
  }

  lemma {:induction false} AmongPermuted(rows: seq<Row>, rows': seq<Row>, ks: set<Phrase>)
    requires multiset(rows) == multiset(rows')
    ensures Among(rows, ks) == Among(rows', ks)
  {
    hide Among;
    assert |multiset(rows)| == |multiset(rows')|;
    if rows != [] {
      var n := |rows| - 1;
      var before, after := TakeOut(rows, rows');
      AmongSplits(rows[..n], [rows[n]], ks);
      AmongSplits(before, [rows[n]] + after, ks);
      AmongSplits([rows[n]], after, ks);
      AmongSplits(before, after, ks);
      AmongPermuted(rows[..n], before + after, ks);
    }
  }

  lemma VerdictPermuted(rows: seq<Row>, rows': seq<Row>, p: Phrase, s: Settings)
    requires multiset(rows) == multiset(rows') && 1 <= |p| <= MAX_N
    ensures Scan(rows, p) == Scan(rows', p) && Verdict(rows, p, s) == Verdict(rows', p, s)
  {
    hide Contains, Scan, Among, Judge, Phrases;
    SameMembers(rows, rows');
    assert Queries(rows) == Queries(rows');
    assert QueriesWith(rows, p) == QueriesWith(rows', p);
    AmongPermuted(rows, rows', QueriesWith(rows, p));
    AmongPermuted(rows, rows', Queries(rows));
    IndexAgreesWithScan(rows, p);
    IndexAgreesWithScan(rows', p);
  }

  /** The analysis is a function of the rows as a bag: their order changes nothing. */
  lemma RowOrderIrrelevant(findings: seq<Finding>, findings': seq<Finding>, rows: seq<Row>, rows': seq<Row>, s: Settings)
    requires multiset(rows) == multiset(rows') && forall r | r in rows :: Words(r.tokens)
    requires Analysis(findings, rows, s) && Analysis(findings', rows', s)
    ensures findings == findings'
  {
    hide Contains, FindingsOf, Marked, Sort;
    var found :| FindingsOf(found, rows, s) && findings == Marked(Sort(Earlier, found));
    var found' :| FindingsOf(found', rows', s) && findings' == Marked(Sort(Earlier, found'));
    SameFindings(found, found', rows, rows', s);
    SameFindings(found', found, rows', rows, s);
    FoundDistinct(found, rows, s);
    FoundDistinct(found', rows', s);
    DistinctPermutation(found, found');
    EarlierIsTotal();
    NoTiesFound(found, rows, s);
    SortIgnoresOrder(Earlier, found, found');
  }

  lemma FoundDistinct(found: seq<Finding>, rows: seq<Row>, s: Settings)
    requires FindingsOf(found, rows, s)
    ensures forall i, j | 0 <= i < j < |found| :: found[i] != found[j]
  {
    hide Verdict, Candidate, AllPhrases;
    forall i, j | 0 <= i < j < |found|
      ensures found[i] != found[j]
    {
      assert found[i].ngram != found[j].ngram;
    }
  }

  lemma SameFindings(found: seq<Finding>, found': seq<Finding>, rows: seq<Row>, rows': seq<Row>, s: Settings)
    requires multiset(rows) == multiset(rows')
    requires FindingsOf(found, rows, s) && FindingsOf(found', rows', s)
    ensures forall f | f in found :: f in found'
  {
    hide Verdict, Candidate, Phrases;
    forall f | f in found
      ensures f in found'
    {
      PhraseLengths(rows, f.ngram);
      VerdictPermuted(rows, rows', f.ngram, s);
      SameMembers(rows, rows');
      assert Queries(rows) == Queries(rows');
      assert AllPhrases(rows) == AllPhrases(rows');
    }
  }

  lemma NoTiesFound(found: seq<Finding>, rows: seq<Row>, s: Settings)
    requires FindingsOf(found, rows, s) && forall r | r in rows :: Words(r.tokens)
    ensures NoTies(Earlier, found)
  {
    hide Verdict, Candidate, Joined;
    forall f, g | f in found && g in found && Earlier(f, g) && Earlier(g, f)
      ensures f == g
    {
      StrTotal(Joined(f.ngram), Joined(g.ngram));
      WordsOfPhrases(rows, f.ngram);
      WordsOfPhrases(rows, g.ngram);
      JoinedInjective(f.ngram, g.ngram);
    }
  }

  lemma WordsOfPhrases(rows: seq<Row>, p: Phrase)
    requires p in AllPhrases(rows) && forall r | r in rows :: Words(r.tokens)
    ensures Words(p)
  {
    var k :| k in Queries(rows) && p in Phrases(k);
    PhrasesAreContained(k, p);
    var i: nat :| i < |k| && OccursAt(k, p, i);
  }
}
