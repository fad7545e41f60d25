/** Texts joined, and their white space and case as the source's language sees them. */
module Texts {

  function Join(sep: string, parts: seq<string>): string {
    if parts == [] then "" else if |parts| == 1 then parts[0] else parts[0] + sep + Join(sep, parts[1..])
  }

  lemma {:induction false} JoinConcat(sep: string, parts: seq<string>, more: seq<string>)
    requires parts != [] && more != []
    ensures Join(sep, parts + more) == Join(sep, parts) + sep + Join(sep, more)
  {
    var all := parts + more;
    assert all[1..] == parts[1..] + more;
    if |parts| == 1 {
      assert all[1..] == more;
    } else {
      JoinConcat(sep, parts[1..], more);
    }
  }

  predicate Space(c: char) {
    '\t' <= c <= '\r' || '\U{1c}' <= c <= ' ' || c == '\U{85}' || c == '\U{a0}' || c == '\U{1680}' || '\U{2000}' <= c <= '\U{200a}'
    || c == '\U{2028}' || c == '\U{2029}' || c == '\U{202f}' || c == '\U{205f}' || c == '\U{3000}'
  }

  predicate Blank(s: string) {
    forall c | c in s :: Space(c)
  }

  function StripLeft(s: string): string {
    if s != "" && Space(s[0]) then StripLeft(s[1..]) else s
  }

  function StripRight(s: string): string {
    if s != "" && Space(s[|s| - 1]) then StripRight(s[..|s| - 1]) else s
  }

  function Strip(s: string): string {
    StripRight(StripLeft(s))
  }

  /** Lower case of ASCII letters; no other letter has the lower case of an ASCII letter of a report format. */
  function LowerChar(c: char): char {
    if 'A' <= c <= 'Z' then 'a' + (c - 'A') else c
  }

  function Lower(s: string): string {
    if s == "" then "" else [LowerChar(s[0])] + Lower(s[1..])
  }

  /** Lower case replaces the letters A to Z by a to z, in their order, and nothing else. */
  lemma {:induction false} LowerLaw(s: string, i: nat, k: nat)
    requires i < |s| && k < 26
    ensures |Lower(s)| == |s|
    ensures s[i] == "ABCDEFGHIJKLMNOPQRSTUVWXYZ"[k] ==> Lower(s)[i] == "abcdefghijklmnopqrstuvwxyz"[k]
    ensures !('A' <= s[i] <= 'Z') ==> Lower(s)[i] == s[i]
  {
    if i > 0 {
      LowerLaw(s[1..], i - 1, k);
    } else {
      LowerSize(s);
      Letters(k);
    }
  }

  lemma Letters(k: nat)
    requires k < 26
    ensures LowerChar("ABCDEFGHIJKLMNOPQRSTUVWXYZ"[k]) == "abcdefghijklmnopqrstuvwxyz"[k]
  {
  }

  lemma {:induction false} LowerSize(s: string)
    ensures |Lower(s)| == |s|
  {
    if s != "" {
      LowerSize(s[1..]);
    }
  }

  lemma {:induction false} StripLeftLaw(s: string) returns (before: string)
    ensures s == before + StripLeft(s) && Blank(before) && (StripLeft(s) != "" ==> !Space(StripLeft(s)[0]))
    ensures s != "" && !Space(s[|s| - 1]) ==> StripLeft(s) != "" && StripLeft(s)[|StripLeft(s)| - 1] == s[|s| - 1]
  {
    if s != "" && Space(s[0]) {
      var more := StripLeftLaw(s[1..]);
      before := [s[0]] + more;
      assert s == [s[0]] + s[1..];
    } else {
      before := "";
    }
  }

  lemma {:induction false} StripRightLaw(s: string) returns (after: string)
    ensures s == StripRight(s) + after && Blank(after) && (StripRight(s) != "" ==> !Space(StripRight(s)[|StripRight(s)| - 1]))
    ensures s != "" && !Space(s[0]) ==> StripRight(s) != "" && StripRight(s)[0] == s[0]
  {
    if s != "" && Space(s[|s| - 1]) {
      var more := StripRightLaw(s[..|s| - 1]);
      after := more + [s[|s| - 1]];
      assert s == s[..|s| - 1] + [s[|s| - 1]];
    } else {
      after := "";
      assert s + "" == s;
    }
  }

  /** Stripping takes the white space off both ends, all of it and nothing else. */
  lemma StripLaw(s: string) returns (before: string, after: string)
    ensures s == before + Strip(s) + after && Blank(before) && Blank(after)
    ensures Strip(s) != "" ==> !Space(Strip(s)[0]) && !Space(Strip(s)[|Strip(s)| - 1])
  {
    before := StripLeftLaw(s);
    after := StripRightLaw(StripLeft(s));
    assert before + (Strip(s) + after) == before + Strip(s) + after;
  }
}
