/**
 What the n-gram analysis answers, read off the rows alone: which phrases are reported, the sums and the chance
 that come with them, and why each is decided as it is.
 */
module NgramLaws {
  import opened Wrappers
  import opened Ordering
  import opened Ngrams
  import T = Texts

  // ----------------------------------------------------------------- sums

  type Amount = Row -> real

  function Clicks(r: Row): real { r.totals.clicks as real }
  function Impressions(r: Row): real { r.totals.impressions as real }
  function Cost(r: Row): real { r.totals.cost }
  function Orders(r: Row): real { r.totals.orders as real }
  function Sales(r: Row): real { r.totals.sales }

  /** Over the rows that contain a phrase. */
  function SumWith(rows: seq<Row>, p: Phrase, amount: Amount): real {
    if rows == [] then 0.0 else (if Contains(rows[0].tokens, p) then amount(rows[0]) else 0.0) + SumWith(rows[1..], p, amount)
  }

  /** Over the rows that have any word at all. */
  function SumAll(rows: seq<Row>, amount: Amount): real {
    if rows == [] then 0.0 else (if rows[0].tokens != [] then amount(rows[0]) else 0.0) + SumAll(rows[1..], amount)
  }

  lemma {:induction false} SumWithLast(rows: seq<Row>, p: Phrase, amount: Amount)
    requires rows != []
    ensures var n := |rows| - 1;
            SumWith(rows, p, amount) == SumWith(rows[..n], p, amount) + if Contains(rows[n].tokens, p) then amount(rows[n]) else 0.0
  {
    hide Contains;
    var n := |rows| - 1;
    if n > 0 {
      var front, rest := rows[..n], rows[1..];
      SumWithLast(rest, p, amount);
      assert rest[..n - 1] == front[1..];
    } else {
      assert rows[..0] == [] && rows[1..] == [];
    }
  }

  lemma {:induction false} SumAllLast(rows: seq<Row>, amount: Amount)
    requires rows != []
    ensures var n := |rows| - 1;
            SumAll(rows, amount) == SumAll(rows[..n], amount) + if rows[n].tokens != [] then amount(rows[n]) else 0.0
  {
    var n := |rows| - 1;
    if n > 0 {
      var front, rest := rows[..n], rows[1..];
      SumAllLast(rest, amount);
      assert rest[..n - 1] == front[1..];
    } else {
      assert rows[..0] == [] && rows[1..] == [];
    }
  }

  /** The scan of the model is those sums. */
  lemma {:induction false} ScanIsSums(rows: seq<Row>, p: Phrase)
    ensures var t := Scan(rows, p);
            && t.clicks as real == SumWith(rows, p, Clicks) && t.impressions as real == SumWith(rows, p, Impressions)
            && t.cost == SumWith(rows, p, Cost) && t.orders as real == SumWith(rows, p, Orders) && t.sales == SumWith(rows, p, Sales)
  {
    hide Contains, SumWith;
    if rows == [] {
      NoSums(p);
    } else {
      ScanIsSums(rows[..|rows| - 1], p);
      SumWithLast(rows, p, Clicks);
      SumWithLast(rows, p, Impressions);
      SumWithLast(rows, p, Cost);
      SumWithLast(rows, p, Orders);
      SumWithLast(rows, p, Sales);
    }
  }

  lemma NoSums(p: Phrase)
    ensures forall amount: Amount :: SumWith([], p, amount) == 0.0 && SumAll([], amount) == 0.0
  {
  }

  lemma {:induction false} AccountIsSums(rows: seq<Row>, ks: set<Phrase>)
    requires forall r | r in rows :: r.tokens in ks <==> r.tokens != []
    ensures var t := Among(rows, ks); t.clicks as real == SumAll(rows, Clicks) && t.orders as real == SumAll(rows, Orders)
  {
    hide SumAll;
    if rows == [] {
      NoSums([]);
    } else {
      assert rows[|rows| - 1] in rows;
      AccountIsSums(rows[..|rows| - 1], ks);
      SumAllLast(rows, Clicks);
      SumAllLast(rows, Orders);
    }
  }

  // ----------------------------------------------------- what is reported

  /** One of the rows contains the phrase. */
  ghost predicate Occurs(rows: seq<Row>, p: Phrase) {
    exists i | 0 <= i < |rows| :: Contains(rows[i].tokens, p)
  }

  lemma PhrasesOfRows(rows: seq<Row>, p: Phrase)
    ensures p in AllPhrases(rows) <==> 1 <= |p| <= 3 && Occurs(rows, p)
  {
    hide Contains, Phrases;
    if p in AllPhrases(rows) {
      var k :| k in Queries(rows) && p in Phrases(k);
      var r :| r in rows && r.tokens == k;
      PhrasesAreContained(k, p);
      var i :| 0 <= i < |rows| && rows[i] == r;
    }
    if 1 <= |p| <= 3 && Occurs(rows, p) {
      var i :| 0 <= i < |rows| && Contains(rows[i].tokens, p);
      PhrasesAreContained(rows[i].tokens, p);
      ContainsSameLength(rows[i].tokens, p);
      assert rows[i] in rows && rows[i].tokens in Queries(rows);
    }
  }

  lemma QueriesAre(rows: seq<Row>, p: Phrase)
    requires 1 <= |p| <= 3
    ensures QueriesWith(rows, p) == set r | r in rows && Contains(r.tokens, p) :: r.tokens
  {
    hide Contains, Phrases;
    forall k
      ensures k in QueriesWith(rows, p) <==> exists r :: r in rows && Contains(r.tokens, p) && r.tokens == k
    {
      PhrasesAreContained(k, p);
      if Contains(k, p) {
        ContainsSameLength(k, p);
      }
    }
  }

  /** The phrases reported, each once: those of one to three words in some row, with no orders and enough clicks. */
  lemma ReportedExactlyWhen(findings: seq<Finding>, rows: seq<Row>, s: Settings, p: Phrase)
    requires Analysis(findings, rows, s)
    ensures (exists f :: f in findings && f.ngram == p)
            <==> 1 <= |p| <= 3 && Occurs(rows, p) && SumWith(rows, p, Orders) <= 0.0
                 && SumWith(rows, p, Clicks) >= s.limits.reviewMinClicks as real
  {
    hide Contains, Verdict, Scan, FindingsOf, Sort, Marked, MarkOne, Occurs, SumWith, AllPhrases;
    PhrasesOfRows(rows, p);
    ScanIsSums(rows, p);
    var found :| FindingsOf(found, rows, s) && findings == Marked(Sort(Earlier, found));
    var fs := Sort(Earlier, found);
    SortedFindings(found);
    MarkedSize(fs);
    if f :| f in findings && f.ngram == p {
      FindingIsVerdict(findings, rows, s, f);
    }
    if p in AllPhrases(rows) && Candidate(Scan(rows, p), s.limits) {
      Present(found, rows, s, p);
      var v := Verdict(rows, p, s);
      JudgeKeepsPhrase(rows, p, s);
      var i :| 0 <= i < |fs| && fs[i] == v;
      MarkedAt(fs, i);
      MarkOneKeeps(Negated(fs[..i]), v);
      assert findings[i].ngram == p && findings[i] in findings;
    }
  }

  lemma Present(found: seq<Finding>, rows: seq<Row>, s: Settings, p: Phrase)
    requires FindingsOf(found, rows, s) && p in AllPhrases(rows) && Candidate(Scan(rows, p), s.limits)
    ensures Verdict(rows, p, s) in found
  {
    hide Verdict, Scan, AllPhrases, Candidate;
  }

  // --------------------------------------------------- what is said of it

  /** The chance that a phrase's clicks bring no order at the account's orders per click; none without clicks or orders. */
  function ZeroOrderChance(rows: seq<Row>, p: Phrase, lib: Library): Option<real> {
    NoOrderChance(SumWith(rows, p, Clicks), SumAll(rows, Clicks), SumAll(rows, Orders), lib)
  }

  function NoOrderChance(clicks: real, allClicks: real, allOrders: real, lib: Library): Option<real> {
    if allClicks == 0.0 || allOrders == 0.0 then None else Some(lib.exp(-clicks * (allOrders / allClicks)))
  }

  /** The numbers of a finding: sums over its rows, and the chance of no order at the account's orders per click. */
  lemma FindingCounts(findings: seq<Finding>, rows: seq<Row>, s: Settings, f: Finding)
    requires Analysis(findings, rows, s) && f in findings
    ensures f.queryCount == |set r | r in rows && Contains(r.tokens, f.ngram) :: r.tokens|
    ensures f.totals.clicks as real == SumWith(rows, f.ngram, Clicks)
    ensures f.totals.impressions as real == SumWith(rows, f.ngram, Impressions)
    ensures f.totals.cost == s.lib.round4(SumWith(rows, f.ngram, Cost)) && f.totals.sales == s.lib.round4(SumWith(rows, f.ngram, Sales))
    ensures f.totals.orders == 0
    ensures f.chance == match ZeroOrderChance(rows, f.ngram, s.lib)
                        case None => None
                        case Some(chance) => Some(s.lib.round6(chance))
  {
    hide ZeroOrderChance, Contains, Scan, SumWith, SumAll, AllPhrases, QueriesWith, Queries, Analysis, Doubts, ProtectionFor, Among, Chance, Rate;
    FindingIsVerdict(findings, rows, s, f);
    PhraseLengths(rows, f.ngram);
    QueriesAre(rows, f.ngram);
    ScanIsSums(rows, f.ngram);
    ChanceIs(rows, f.ngram, s.lib);
  }

  lemma ChanceIs(rows: seq<Row>, p: Phrase, lib: Library)
    ensures Chance(Scan(rows, p).clicks, Rate(Among(rows, Queries(rows))), lib) == ZeroOrderChance(rows, p, lib)
  {
    hide Contains, Scan, SumWith, SumAll, Among, Rate, Chance, NoOrderChance;
    ScanIsSums(rows, p);
    AccountIsSums(rows, Queries(rows));
    ChanceOfCounts(Scan(rows, p).clicks, Among(rows, Queries(rows)), lib);
  }

  lemma ChanceOfCounts(clicks: int, account: Totals, lib: Library)
    ensures Chance(clicks, Rate(account), lib) == NoOrderChance(clicks as real, account.clicks as real, account.orders as real, lib)
  {
    hide NoOrderChance, Chance;
    var a, b := account.clicks as real, account.orders as real;
    var x := if a != 0.0 && b != 0.0 then -(clicks as real) * (b / a) else 0.0;
    ChanceAt(clicks, Rate(account), lib, x);
    NoOrderChanceAt(clicks as real, a, b, lib, x);
  }

  lemma ChanceAt(clicks: int, rate: Option<real>, lib: Library, x: real)
    requires rate.Some? ==> x == -(clicks as real) * rate.value
    ensures Chance(clicks, rate, lib) == if rate.None? then None else Some(lib.exp(x))
  {
  }

  lemma NoOrderChanceAt(clicks: real, allClicks: real, allOrders: real, lib: Library, x: real)
    requires allClicks != 0.0 && allOrders != 0.0 ==> x == -clicks * (allOrders / allClicks)
    ensures NoOrderChance(clicks, allClicks, allOrders, lib) == if allClicks == 0.0 || allOrders == 0.0 then None else Some(lib.exp(x))
  {
  }

  /** A query contains a phrase when the phrase is a part of it, word for word. */
  lemma ContainsMeans(outer: Phrase, inner: Phrase)
    ensures Contains(outer, inner) <==> inner != [] && exists before: Phrase, after: Phrase :: outer == before + inner + after
  {
    if Contains(outer, inner) {
      var i: nat :| i < |outer| && OccursAt(outer, inner, i);
      assert outer == outer[..i] + inner + outer[i + |inner|..];
    }
    if before: Phrase, after: Phrase :| inner != [] && outer == before + inner + after {
      assert OccursAt(outer, inner, |before|);
    }
  }

  // ------------------------------------------------------ why it is decided

  /** Words that say nothing: stopwords, numbers and words of one or two letters. */
  predicate Empty(p: Phrase) {
    forall w | w in p :: EmptyWord(w)
  }

  predicate EmptyWord(w: string) {
    || w in ["a", "an", "and", "are", "as", "at", "be", "by", "for", "from", "in", "into", "is", "it", "of", "on", "or", "the", "to",
             "with", "without"]
    || |w| < 3
    || forall i | 0 <= i < |w| :: '0' <= w[i] <= '9'
  }

  lemma GenericIsEmpty(p: Phrase)
    ensures Generic(p) <==> Empty(p)
  {
    hide EmptyWord, Stopword;
    forall w | w in p
      ensures EmptyWord(w) <==> Stopword(w) || |w| < 3 || forall c | c in w :: '0' <= c <= '9'
    {
      EmptyIs(w);
    }
  }

  lemma EmptyIs(w: string)
    ensures EmptyWord(w) <==> Stopword(w) || |w| < 3 || forall c | c in w :: '0' <= c <= '9'
  {
    if |w| >= 3 {
      AllDigits(w);
    }
  }

  lemma AllDigits(w: string)
    ensures (forall c | c in w :: '0' <= c <= '9') <==> forall i | 0 <= i < |w| :: '0' <= w[i] <= '9'
  {
    assert forall i | 0 <= i < |w| :: w[i] in w;
  }

  /** Exactly when a phrase is condemned: enough evidence in the rows, some word that says something, no protected term
      within it or around it. */
  lemma CondemnedExactlyWhen(rows: seq<Row>, s: Settings, p: Phrase)
    requires forall x | x in s.protections :: x.id != ""
    ensures p in Condemned(rows, s) <==>
            && 1 <= |p| <= 3 && Occurs(rows, p) && SumWith(rows, p, Orders) <= 0.0
            && SumWith(rows, p, Clicks) >= s.limits.reviewMinClicks as real && SumWith(rows, p, Clicks) >= s.limits.minClicks as real
            && s.lib.round4(SumWith(rows, p, Cost)) >= s.limits.minCost
            && |set r | r in rows && Contains(r.tokens, p) :: r.tokens| >= s.limits.minQueries
            && |p| >= s.limits.autoMinN
            && !Empty(p)
            && (var chance := ZeroOrderChance(rows, p, s.lib); chance.Some? && chance.value <= s.limits.maxChance)
            && forall x | x in s.protections :: !Contains(x.tokens, p) && !Contains(p, x.tokens)
  {
    hide ZeroOrderChance, Contains, Scan, SumWith, SumAll, AllPhrases, QueriesWith, Queries, Occurs, Empty, Generic, Among, Chance, Rate, Doubts, ProtectionFor;
    PhrasesOfRows(rows, p);
    ScanIsSums(rows, p);
    ChanceIs(rows, p, s.lib);
    GenericIsEmpty(p);
    ProtectionWorks(p, s.protections);
    NoDoubts(p, |QueriesWith(rows, p)|, Scan(rows, p), Chance(Scan(rows, p).clicks, Rate(Among(rows, Queries(rows))), s.lib), s.limits, s.lib);
    if 1 <= |p| <= 3 {
      QueriesAre(rows, p);
    }
  }

  /** Negative or covered when condemned, protected when a protected term overlaps it, and a human's matter otherwise. */
  lemma DecidedExactlyWhen(findings: seq<Finding>, rows: seq<Row>, s: Settings, f: Finding)
    requires Analysis(findings, rows, s) && f in findings && forall x | x in s.protections :: x.id != ""
    ensures f.decision.NegativePhrase? || f.decision.Covered? <==> f.ngram in Condemned(rows, s)
    ensures f.decision.Protected? <==> exists x | x in s.protections :: Contains(x.tokens, f.ngram) || Contains(f.ngram, x.tokens)
  {
    hide Contains, Scan, AllPhrases, Analysis, Candidate, Doubts, Chance, Rate, Among, QueriesWith, ProtectionFor;
    FindingIsVerdict(findings, rows, s, f);
    ProtectionWorks(f.ngram, s.protections);
  }

  /** Each reason is given exactly when it applies. */
  lemma ReasonsGiven(findings: seq<Finding>, rows: seq<Row>, s: Settings, f: Finding)
    requires Analysis(findings, rows, s) && f in findings
    ensures LowVolume in f.reasons <==>
            SumWith(rows, f.ngram, Clicks) < s.limits.minClicks as real || s.lib.round4(SumWith(rows, f.ngram, Cost)) < s.limits.minCost
    ensures FewQueries in f.reasons <==> f.queryCount < s.limits.minQueries
    ensures SingleWord in f.reasons <==> |f.ngram| < s.limits.autoMinN
    ensures GenericTokens in f.reasons <==> Empty(f.ngram)
    ensures var chance := ZeroOrderChance(rows, f.ngram, s.lib);
            LowConfidence in f.reasons <==> chance.None? || chance.value > s.limits.maxChance
    ensures ProtectedTerm in f.reasons <==> f.decision.Protected?
  {
    hide ZeroOrderChance, Contains, Scan, SumWith, SumAll, AllPhrases, QueriesWith, Queries, Analysis, Among, Chance, Rate, Empty, Generic, Candidate, Doubts;
    FindingMarked(findings, rows, s, f);
    GenericIsEmpty(f.ngram);
    ScanIsSums(rows, f.ngram);
    ChanceIs(rows, f.ngram, s.lib);
    DoubtsAre(f.ngram, |QueriesWith(rows, f.ngram)|, Scan(rows, f.ngram),
              Chance(Scan(rows, f.ngram).clicks, Rate(Among(rows, Queries(rows))), s.lib), s.limits, s.lib);
  }

  /** A finding is its verdict, or that with the cover added to its reasons. */
  lemma FindingMarked(findings: seq<Finding>, rows: seq<Row>, s: Settings, f: Finding)
    requires Analysis(findings, rows, s) && f in findings
    ensures var v := Verdict(rows, f.ngram, s);
            || f == v
            || (v.decision.NegativePhrase? && exists c ::
                  && f == v.(decision := Covered, reasons := v.reasons + [CoveredBy(c)]) && Contains(f.ngram, c))
  {
    hide Contains, Scan, Verdict, AllPhrases, Candidate, FindingsOf, Sort, Marked;
    var found :| FindingsOf(found, rows, s) && findings == Marked(Sort(Earlier, found));
    SortedFindings(found);
    var fs := Sort(Earlier, found);
    var i :| 0 <= i < |findings| && findings[i] == f;
    MarkedSize(fs);
    MarkedAt(fs, i);
    assert fs[i] in found;
    FoundIsVerdict(found, rows, s, fs[i]);
    FirstCoverWorks(Negated(fs[..i]), fs[i].ngram);
  }

  lemma DoubtsAre(p: Phrase, count: nat, t: Totals, chance: Option<real>, limits: Thresholds, lib: Library)
    ensures var doubts := Doubts(p, count, t, chance, limits, lib);
            && (LowVolume in doubts <==> t.clicks < limits.minClicks || lib.round4(t.cost) < limits.minCost)
            && (FewQueries in doubts <==> count < limits.minQueries) && (SingleWord in doubts <==> |p| < limits.autoMinN)
            && (GenericTokens in doubts <==> Generic(p))
            && (LowConfidence in doubts <==> chance.None? || chance.value > limits.maxChance)
            && ProtectedTerm !in doubts
  {
    hide Generic, When;
    forall c: bool, r: Reason, x: Reason
      ensures x in When(c, r) <==> c && x == r
    {
      Given(c, r, x);
    }
  }

  lemma Given(c: bool, r: Reason, x: Reason)
    ensures x in When(c, r) <==> c && x == r
  {
  }

  /** Shorter phrases come first, and those of one length in dictionary order. */
  lemma FindingsInOrder(findings: seq<Finding>, rows: seq<Row>, s: Settings, i: nat, j: nat)
    requires Analysis(findings, rows, s) && i < j < |findings|
    ensures var p, q := findings[i].ngram, findings[j].ngram;
            |p| < |q| || (|p| == |q| && p != q && StrLeq(T.Join(" ", p), T.Join(" ", q)))
  {
    hide Contains, Scan, Verdict, AllPhrases, Candidate, Sort, Marked, MarkOne;
    var found :| FindingsOf(found, rows, s) && findings == Marked(Sort(Earlier, found));
    var fs := Sort(Earlier, found);
    EarlierIsTotal();
    SortWorks(Earlier, found);
    MarkedSize(fs);
    MarkedAt(fs, i);
    MarkedAt(fs, j);
    MarkOneKeeps(Negated(fs[..i]), fs[i]);
    MarkOneKeeps(Negated(fs[..j]), fs[j]);
    DistinctStay(found, fs, i, j);
  }

  lemma DistinctStay(found: seq<Finding>, fs: seq<Finding>, i: nat, j: nat)
    requires multiset(found) == multiset(fs) && i < j < |fs|
    requires forall a, b | 0 <= a < b < |found| :: found[a].ngram != found[b].ngram
    ensures fs[i].ngram != fs[j].ngram
  {
    SameMembers(fs, found);
    assert fs[i] in found && fs[j] in found;
    var a :| 0 <= a < |found| && found[a] == fs[i];
    var b :| 0 <= b < |found| && found[b] == fs[j];
    if a == b {
      CountTwice(fs, i, j);
      CountOnce(found, found[a]);
    }
  }

  lemma {:induction false} CountOnce(found: seq<Finding>, f: Finding)
    requires forall a, b | 0 <= a < b < |found| :: found[a].ngram != found[b].ngram
    ensures multiset(found)[f] <= 1
  {
    if found != [] {
      var front, last := found[..|found| - 1], found[|found| - 1];
      CountOnce(front, f);
      assert found == front + [last];
      if last == f {
        assert f !in front;
      }
    }
  }
}
