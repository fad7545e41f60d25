/** Stable sorting by a total order, and the dictionary order on strings. */
module Ordering {

  predicate StrLeq(s: string, t: string) {
    s == "" || (t != "" && (s[0] < t[0] || (s[0] == t[0] && StrLeq(s[1..], t[1..]))))
  }

  lemma {:induction false} StrTotal(s: string, t: string)
    ensures StrLeq(s, t) || StrLeq(t, s)
    ensures StrLeq(s, t) && StrLeq(t, s) ==> s == t
  {
    if s != "" && t != "" && s[0] == t[0] {
      StrTotal(s[1..], t[1..]);
      assert s == [s[0]] + s[1..] && t == [t[0]] + t[1..];
    }
  }

  lemma {:induction false} StrPrefix(s: string, t: string)
    requires s <= t
    ensures StrLeq(s, t)
  {
    if s != "" {
      StrPrefix(s[1..], t[1..]);
    }
  }

  lemma {:induction false} StrSmaller(s: string, t: string, i: nat)
    requires i < |s| && i < |t| && s[..i] == t[..i] && s[i] < t[i]
    ensures StrLeq(s, t)
  {
    if i > 0 {
      assert s[0] == s[..i][0] == t[..i][0] == t[0];
      assert s[1..][..i - 1] == s[..i][1..] && t[1..][..i - 1] == t[..i][1..];
      StrSmaller(s[1..], t[1..], i - 1);
    }
  }

  lemma {:induction false} StrDiffers(s: string, t: string) returns (i: nat)
    requires StrLeq(s, t) && !(s <= t)
    ensures i < |s| && i < |t| && s[..i] == t[..i] && s[i] < t[i]
  {
    if s[0] < t[0] {
      i := 0;
    } else {
      var a, b := s[1..], t[1..];
      assert s == [s[0]] + a && t == [t[0]] + b;
      var k := StrDiffers(a, b);
      i := k + 1;
      assert s[..i] == [s[0]] + a[..k] && t[..i] == [t[0]] + b[..k];
    }
  }

  /** A prefix, or smaller at the first place where they differ. */
  lemma StrLeqMeans(s: string, t: string)
    ensures StrLeq(s, t) <==> s <= t || exists i | 0 <= i < |s| && i < |t| :: s[..i] == t[..i] && s[i] < t[i]
  {
    hide StrLeq;
    if s <= t {
      StrPrefix(s, t);
    } else if StrLeq(s, t) {
      var i := StrDiffers(s, t);
    }
    if i: nat :| i < |s| && i < |t| && s[..i] == t[..i] && s[i] < t[i] {
      StrSmaller(s, t, i);
    }
  }

  lemma {:induction false} StrTransitive(s: string, t: string, u: string)
    requires StrLeq(s, t) && StrLeq(t, u)
    ensures StrLeq(s, u)
  {
    if s != "" && t != "" && u != "" && s[0] == t[0] == u[0] {
      StrTransitive(s[1..], t[1..], u[1..]);
    }
  }

  ghost predicate Total<T(!new)>(leq: (T, T) -> bool) {
    && (forall x, y :: leq(x, y) || leq(y, x))
    && (forall x, y, z :: leq(x, y) && leq(y, z) ==> leq(x, z))
  }

  ghost predicate Sorted<T>(leq: (T, T) -> bool, s: seq<T>) {
    forall i, j | 0 <= i < j < |s| :: leq(s[i], s[j])
  }

  /** Distinct elements are never tied. */
  ghost predicate NoTies<T>(leq: (T, T) -> bool, s: seq<T>) {
    forall x, y | x in s && y in s && leq(x, y) && leq(y, x) :: x == y
  }

  function Insert<T>(leq: (T, T) -> bool, s: seq<T>, x: T): seq<T> {
    if s == [] || leq(s[|s| - 1], x) then s + [x]
    else Insert(leq, s[..|s| - 1], x) + [s[|s| - 1]]
  }

  function Sort<T>(leq: (T, T) -> bool, s: seq<T>): seq<T> {
    if s == [] then [] else Insert(leq, Sort(leq, s[..|s| - 1]), s[|s| - 1])
  }

  lemma {:induction false} InsertMembers<T>(leq: (T, T) -> bool, s: seq<T>, x: T)
    ensures multiset(Insert(leq, s, x)) == multiset(s) + multiset{x}
  {
    if s != [] && !leq(s[|s| - 1], x) {
      var before, last := s[..|s| - 1], s[|s| - 1];
      InsertMembers(leq, before, x);
      assert s == before + [last];
    }
  }

  lemma {:induction false} InsertSorted<T(!new)>(leq: (T, T) -> bool, s: seq<T>, x: T)
    requires Total(leq) && Sorted(leq, s)
    ensures Sorted(leq, Insert(leq, s, x))
  {
    if s != [] {
      var before, last := s[..|s| - 1], s[|s| - 1];
      if leq(last, x) {
        forall i | 0 <= i < |s|
          ensures leq(s[i], x)
        {
          assert i < |s| - 1 ==> leq(s[i], last);
        }
      } else {
        InsertSorted(leq, before, x);
        InsertMembers(leq, before, x);
        var all := Insert(leq, before, x);
        forall i | 0 <= i < |all|
          ensures leq(all[i], last)
        {
          assert all[i] in multiset(all);
          if all[i] != x {
            assert all[i] in multiset(before);
            var k :| 0 <= k < |before| && before[k] == all[i];
            assert leq(s[k], s[|s| - 1]);
          }
        }
      }
    }
  }

  /** Sorting keeps the elements and puts them in order. */
  lemma {:induction false} SortWorks<T(!new)>(leq: (T, T) -> bool, s: seq<T>)
    requires Total(leq)
    ensures Sorted(leq, Sort(leq, s)) && multiset(Sort(leq, s)) == multiset(s) && |Sort(leq, s)| == |s|
  {
    if s != [] {
      var before, last := s[..|s| - 1], s[|s| - 1];
      SortWorks(leq, before);
      InsertSorted(leq, Sort(leq, before), last);
      InsertMembers(leq, Sort(leq, before), last);
      assert s == before + [last];
      assert |multiset(Sort(leq, s))| == |multiset(s)|;
    }
  }

  /** Elements that only tie with themselves have one sorted arrangement. */
  lemma {:induction false} SortedUnique<T(!new)>(leq: (T, T) -> bool, s: seq<T>, t: seq<T>)
    requires Total(leq) && Sorted(leq, s) && Sorted(leq, t) && multiset(s) == multiset(t)
    requires NoTies(leq, s)
    ensures s == t
  {
    hide Total, Sorted, NoTies;
    assert |multiset(s)| == |multiset(t)|;
    if s != [] {
      var x, y := s[|s| - 1], t[|t| - 1];
      SameMembers(s, t);
      LastIsGreatest(leq, s);
      LastIsGreatest(leq, t);
      WithoutLast(leq, s);
      WithoutLast(leq, t);
      SameLast(leq, s, x, y);
      FewerTies(leq, s, s[..|s| - 1]);
      SortedUnique(leq, s[..|s| - 1], t[..|t| - 1]);
    }
  }

  lemma SameLast<T>(leq: (T, T) -> bool, s: seq<T>, x: T, y: T)
    requires NoTies(leq, s) && x in s && y in s && leq(x, y) && leq(y, x)
    ensures x == y
  {
  }

  lemma FewerTies<T>(leq: (T, T) -> bool, s: seq<T>, t: seq<T>)
    requires NoTies(leq, s) && forall x | x in t :: x in s
    ensures NoTies(leq, t)
  {
  }

  lemma SameMembers<T>(s: seq<T>, t: seq<T>)
    requires multiset(s) == multiset(t)
    ensures forall x :: x in s <==> x in t
  {
    assert forall x :: x in s <==> x in multiset(s);
    assert forall x :: x in t <==> x in multiset(t);
  }

  lemma LastIsGreatest<T(!new)>(leq: (T, T) -> bool, s: seq<T>)
    requires Total(leq) && Sorted(leq, s) && s != []
    ensures forall x | x in s :: leq(x, s[|s| - 1])
  {
  }

  lemma WithoutLast<T(!new)>(leq: (T, T) -> bool, s: seq<T>)
    requires Sorted(leq, s) && s != []
    ensures s == s[..|s| - 1] + [s[|s| - 1]] && Sorted(leq, s[..|s| - 1])
    ensures multiset(s[..|s| - 1]) == multiset(s) - multiset{s[|s| - 1]}
  {
  }

  /** Sorting does not depend on the order of its input when no two elements tie. */
  lemma SortIgnoresOrder<T(!new)>(leq: (T, T) -> bool, s: seq<T>, t: seq<T>)
    requires Total(leq) && multiset(s) == multiset(t)
    requires NoTies(leq, s)
    ensures Sort(leq, s) == Sort(leq, t)
  {
    SortWorks(leq, s);
    SortWorks(leq, t);
    SameMembers(Sort(leq, s), s);
    FewerTies(leq, s, Sort(leq, s));
    SortedUnique(leq, Sort(leq, s), Sort(leq, t));
  }

  /** Two lists without repetitions that hold the same elements are permutations of each other. */
  lemma DistinctPermutation<T>(s: seq<T>, t: seq<T>)
    requires forall i, j | 0 <= i < j < |s| :: s[i] != s[j]
    requires forall i, j | 0 <= i < j < |t| :: t[i] != t[j]
    requires forall x :: x in s <==> x in t
    ensures multiset(s) == multiset(t)
  {
    DistinctCountsOne(s);
    DistinctCountsOne(t);
    forall x
      ensures multiset(s)[x] == multiset(t)[x]
    {
      assert x in s <==> x in multiset(s);
      assert x in t <==> x in multiset(t);
    }
  }

  lemma {:induction false} DistinctCountsOne<T>(s: seq<T>)
    requires forall i, j | 0 <= i < j < |s| :: s[i] != s[j]
    ensures forall x :: multiset(s)[x] <= 1
  {
    if s != [] {
      var before, last := s[..|s| - 1], s[|s| - 1];
      DistinctCountsOne(before);
      assert s == before + [last];
      assert last !in before;
      assert last !in multiset(before);
    }
  }

  /** The last element of a list can be taken out of any permutation of it. */
  lemma TakeOut<T>(s: seq<T>, t: seq<T>) returns (before: seq<T>, after: seq<T>)
    requires multiset(s) == multiset(t) && s != []
    ensures var n := |s| - 1;
            s == s[..n] + [s[n]] && t == before + ([s[n]] + after) && multiset(s[..n]) == multiset(before + after)
  {
    var n := |s| - 1;
    SameMembers(s, t);
    assert s[n] in s;
    var i :| 0 <= i < |t| && t[i] == s[n];
    before, after := t[..i], t[i + 1..];
    assert s == s[..n] + [s[n]];
    assert t == before + ([s[n]] + after);
    SameRest(s[..n], s[n], before, after);
  }

  lemma SameRest<T>(front: seq<T>, x: T, before: seq<T>, after: seq<T>)
    requires multiset(front + [x]) == multiset(before + ([x] + after))
    ensures multiset(front) == multiset(before + after)
  {
    assert multiset(before + ([x] + after)) == multiset(before + after) + multiset{x};
    assert multiset(front) == multiset(front + [x]) - multiset{x};
  }

  /** A sum over a sequence, whatever is summed. */
  function SumOf<T>(s: seq<T>, amount: T -> real): real {
    if s == [] then 0.0 else amount(s[0]) + SumOf(s[1..], amount)
  }

  lemma {:induction false} SumOfLast<T>(s: seq<T>, x: T, amount: T -> real)
    ensures SumOf(s + [x], amount) == SumOf(s, amount) + amount(x)
  {
    if s == [] {
      assert s + [x] == [x] && [x][1..] == [];
    } else {
      assert (s + [x])[1..] == s[1..] + [x];
      SumOfLast(s[1..], x, amount);
    }
  }

  lemma {:induction false} SumOfInsert<T>(leq: (T, T) -> bool, s: seq<T>, x: T, amount: T -> real)
    ensures SumOf(Insert(leq, s, x), amount) == SumOf(s, amount) + amount(x)
  {
    hide SumOf;
    SumOfLast(s, x, amount);
    if s != [] {
      var front, last := s[..|s| - 1], s[|s| - 1];
      assert s == front + [last];
      SumOfLast(front, last, amount);
      SumOfInsert(leq, front, x, amount);
      SumOfLast(Insert(leq, front, x), last, amount);
    }
  }

  /** Sorting changes no sum. */
  lemma {:induction false} SumOfSorted<T>(leq: (T, T) -> bool, s: seq<T>, amount: T -> real)
    ensures SumOf(Sort(leq, s), amount) == SumOf(s, amount)
  {
    hide SumOf, Insert;
    if s != [] {
      var front, last := s[..|s| - 1], s[|s| - 1];
      SumOfSorted(leq, front, amount);
      SumOfInsert(leq, Sort(leq, front), last, amount);
      assert s == front + [last];
      SumOfLast(front, last, amount);
    }
  }

  lemma CountTwice<T>(s: seq<T>, i: nat, j: nat)
    requires i < j < |s| && s[i] == s[j]
    ensures multiset(s)[s[i]] >= 2
  {
    assert s == s[..j] + [s[j]] + s[j + 1..];
    assert s[i] in s[..j] && multiset(s[..j])[s[i]] >= 1;
  }
}
