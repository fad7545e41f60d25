/**
 PDF literal strings: how the report writer escapes a line, and how a reader
 following section 7.3.4.2 of ISO 32000-1 takes it apart again.
 */
module PdfText {
  import opened Wrappers

  // ------------------------------------------------------------- writing

  /** Latin-1 encoding with `?` in place of every character it lacks. */
  function Latin1(s: string): (t: string)
    ensures |t| == |s|
  {
    seq(|s|, i requires 0 <= i < |s| => if s[i] as int < 256 then s[i] else '?')
  }

  function Replace(s: string, c: char, with: string): string {
    if s == "" then "" else (if s[0] == c then with else [s[0]]) + Replace(s[1..], c, with)
  }

  /** The three replacements in the order the writer makes them. */
  function Escape(s: string): string {
    Replace(Replace(Replace(Latin1(s), '\\', "\\\\"), '(', "\\("), ')', "\\)")
  }

  // ------------------------------------------------------------- reading

  predicate IsOctal(c: char) {
    '0' <= c <= '7'
  }

  /** Up to three octal digits; values above one byte wrap around. */
  function OctalRun(s: string, most: nat): (n: nat)
    ensures n <= |s| && n <= most
  {
    if most == 0 || s == "" || !IsOctal(s[0]) then 0 else 1 + OctalRun(s[1..], most - 1)
  }

  function OctalValue(s: string): nat
    requires forall i | 0 <= i < |s| :: s[i] as int >= '0' as int
  {
    if s == "" then 0 else 8 * OctalValue(s[..|s| - 1]) + (s[|s| - 1] as int - '0' as int)
  }

  /** What a backslash and the text after it stand for, and how long that text is. */
  function Backslash(s: string): (r: (string, nat))
    requires s != ""
    ensures 0 < r.1 <= |s|
  {
    match s[0]
    case 'n' => ("\n", 1)
    case 'r' => ("\r", 1)
    case 't' => ("\t", 1)
    case 'b' => ([8 as char], 1)
    case 'f' => ([12 as char], 1)
    case '\n' => ("", 1)
    case '\r' => ("", if |s| > 1 && s[1] == '\n' then 2 else 1)
    case _ =>
      if IsOctal(s[0]) then
        var n := OctalRun(s, 3);
        OctalDigits(s, 3);
        ([(OctalValue(s[..n]) % 256) as char], n)
      else ([s[0]], 1)
  }

  lemma OctalDigits(s: string, most: nat)
    ensures forall i | 0 <= i < OctalRun(s, most) :: IsOctal(s[i])
  {
  }

  function Cons(head: string, tail: Option<(string, string)>): Option<(string, string)> {
    match tail
    case None => None
    case Some((content, rest)) => Some((head + content, rest))
  }

  /** The content of a literal string whose opening parenthesis has been read, up to
      the parenthesis that closes it, and the text after that. A line end inside
      the string, however it is marked, is one line feed. */
  function ReadLiteral(s: string, depth: nat): (r: Option<(string, string)>)
    ensures r.Some? ==> |r.value.1| < |s|
    decreases |s|
  {
    if s == "" then None
    else if s[0] == '\\' then
      if |s| == 1 then None
      else
        var (content, n) := Backslash(s[1..]);
        Cons(content, ReadLiteral(s[1 + n..], depth))
    else if s[0] == '(' then Cons("(", ReadLiteral(s[1..], depth + 1))
    else if s[0] == ')' then
      if depth == 0 then Some(("", s[1..])) else Cons(")", ReadLiteral(s[1..], depth - 1))
    else if s[0] == '\r' then
      Cons("\n", ReadLiteral(if |s| > 1 && s[1] == '\n' then s[2..] else s[1..], depth))
    else Cons([s[0]], ReadLiteral(s[1..], depth))
  }

  /** Line ends as a reader sees them. */
  function LineFeeds(s: string): string
    decreases |s|
  {
    if s == "" then ""
    else if s[0] == '\r' then "\n" + LineFeeds(if |s| > 1 && s[1] == '\n' then s[2..] else s[1..])
    else [s[0]] + LineFeeds(s[1..])
  }

  // ----------------------------------------------------------- round trip

  function EscapeChar(c: char): string {
    if c == '\\' then "\\\\" else if c == '(' then "\\(" else if c == ')' then "\\)" else [c]
  }

  function EscapeAll(s: string): string {
    if s == "" then "" else EscapeChar(s[0]) + EscapeAll(s[1..])
  }

  lemma {:induction false} ReplaceConcat(s: string, t: string, c: char, with: string)
    ensures Replace(s + t, c, with) == Replace(s, c, with) + Replace(t, c, with)
  {
    if s == "" {
      assert s + t == t;
    } else {
      assert (s + t)[1..] == s[1..] + t;
      ReplaceConcat(s[1..], t, c, with);
    }
  }

  /** Escaping backslashes first, the writer escapes each character once. */
  lemma {:induction false} ReplacementsEscapeOnce(s: string)
    ensures Replace(Replace(Replace(s, '\\', "\\\\"), '(', "\\("), ')', "\\)") == EscapeAll(s)
  {
    if s != "" {
      var head := if s[0] == '\\' then "\\\\" else [s[0]];
      var tail := Replace(s[1..], '\\', "\\\\");
      ReplaceConcat(head, tail, '(', "\\(");
      var middle := Replace(head, '(', "\\(");
      ReplaceConcat(middle, Replace(tail, '(', "\\("), ')', "\\)");
      ReplacementsEscapeOnce(s[1..]);
      HeadEscaped(s[0]);
    }
  }

  lemma HeadEscaped(c: char)
    ensures var head := if c == '\\' then "\\\\" else [c];
            Replace(Replace(head, '(', "\\("), ')', "\\)") == EscapeChar(c)
  {
    if c == '\\' {
      ReplaceAbsent("\\\\", '(', "\\(");
      ReplaceAbsent("\\\\", ')', "\\)");
    } else if c == '(' {
      assert [c][1..] == "" && Replace([c], '(', "\\(") == "\\(";
      ReplaceAbsent("\\(", ')', "\\)");
    } else {
      ReplaceAbsent([c], '(', "\\(");
      if c == ')' {
        assert [c][1..] == "";
      } else {
        ReplaceAbsent([c], ')', "\\)");
      }
    }
  }

  lemma {:induction false} ReplaceAbsent(s: string, c: char, with: string)
    requires c !in s
    ensures Replace(s, c, with) == s
  {
    if s != "" {
      ReplaceAbsent(s[1..], c, with);
    }
  }

  /** A reader undoes the escaping of any text, up to its line ends. */
  lemma {:induction false} LiteralRead(t: string, r: string)
    ensures ReadLiteral(EscapeAll(t) + (")" + r), 0) == Some((LineFeeds(t), r))
    decreases |t|
  {
    hide ReadLiteral;
    var end := ")" + r;
    if t == "" {
      assert EscapeAll(t) + end == end;
      LiteralEnds(r);
    } else {
      var more := EscapeAll(t[1..]) + end;
      assert EscapeAll(t) + end == EscapeChar(t[0]) + more;
      if t[0] == '\r' && |t| > 1 && t[1] == '\n' {
        var rest := EscapeAll(t[2..]) + end;
        assert t[1..][1..] == t[2..];
        assert more == "\n" + rest;
        LiteralRead(t[2..], r);
        LineEndRead(rest, LineFeeds(t[2..]), r);
        assert EscapeChar(t[0]) + more == "\r" + ("\n" + rest);
      } else {
        LiteralRead(t[1..], r);
        if |t| > 1 {
          EscapeHead(t[1..]);
        }
        OneCharRead(t[0], more, LineFeeds(t[1..]), r);
      }
    }
  }

  lemma LiteralEnds(r: string)
    ensures ReadLiteral(")" + r, 0) == Some(("", r))
  {
  }

  lemma LineEndRead(rest: string, content: string, r: string)
    requires ReadLiteral(rest, 0) == Some((content, r))
    ensures ReadLiteral("\r" + ("\n" + rest), 0) == Some(("\n" + content, r))
  {
    assert ("\r" + ("\n" + rest))[2..] == rest;
  }

  lemma EscapeHead(t: string)
    requires t != ""
    ensures EscapeAll(t) != "" && (EscapeAll(t)[0] == '\n' <==> t[0] == '\n')
  {
  }

  lemma OneCharRead(c: char, more: string, content: string, r: string)
    requires ReadLiteral(more, 0) == Some((content, r)) && (c == '\r' ==> more != "" && more[0] != '\n')
    ensures ReadLiteral(EscapeChar(c) + more, 0) == Some(((if c == '\r' then "\n" else [c]) + content, r))
  {
    if c == '\\' || c == '(' || c == ')' {
      EscapedCharRead(c, more, content, r);
    } else {
      assert ([c] + more)[1..] == more;
    }
  }

  lemma EscapedCharRead(c: char, more: string, content: string, r: string)
    requires c == '\\' || c == '(' || c == ')'
    requires ReadLiteral(more, 0) == Some((content, r))
    ensures ReadLiteral(EscapeChar(c) + more, 0) == Some(([c] + content, r))
  {
  }

  /** The text comes back unchanged exactly when it has no carriage return. */
  lemma {:induction false} LineFeedsUnchanged(t: string)
    ensures LineFeeds(t) == t <==> '\r' !in t
    decreases |t|
  {
    if t != "" {
      assert t == [t[0]] + t[1..];
      if t[0] == '\r' {
        assert LineFeeds(t)[0] == '\n';
      } else {
        LineFeedsUnchanged(t[1..]);
        assert LineFeeds(t)[1..] == LineFeeds(t[1..]);
      }
    }
  }

  /** The literal a line is printed as reads back as its Latin-1 text, and as that
      exact text when it holds no carriage return. */
  lemma EscapedLineRead(line: string, r: string)
    ensures ReadLiteral(Escape(line) + (")" + r), 0) == Some((LineFeeds(Latin1(line)), r))
    ensures LineFeeds(Latin1(line)) == Latin1(line) <==> '\r' !in line
  {
    ReplacementsEscapeOnce(Latin1(line));
    LiteralRead(Latin1(line), r);
    LineFeedsUnchanged(Latin1(line));
    if '\r' in line {
      var i :| 0 <= i < |line| && line[i] == '\r';
      assert Latin1(line)[i] == '\r';
    }
  }
}
