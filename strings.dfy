/**
  The string operations the two scripts rely on, with Python's semantics:
  `startswith`, `in`, `replace`, `split` on one character, `join`, and the
  way iterating over a text file yields its lines.
*/
module Strings {

  lemma AppendAssoc<T>(a: seq<T>, b: seq<T>, c: seq<T>)
    ensures (a + b) + c == a + (b + c)
  {
  }

  /** `s.startswith(p)` */
  predicate StartsWith(s: string, p: string) {
    |p| <= |s| && s[..|p|] == p
  }

  /** `p in s` */
  predicate Contains(s: string, p: string)
    decreases |s|
  {
    StartsWith(s, p) || (s != [] && Contains(s[1..], p))
  }

  predicate EndsWithNewline(line: string) {
    line != [] && line[|line| - 1] == '\n'
  }

  // ---------------------------------------------------------------------
  // str.replace
  // ---------------------------------------------------------------------

  /** `s.replace("", rep)`: `rep` before every character and at the end. */
  function Interleave(s: string, rep: string): string
    decreases |s|
  {
    if s == [] then rep else rep + [s[0]] + Interleave(s[1..], rep)
  }

  /**
    `s.replace(pat, rep)`: scanning left to right, every occurrence of `pat`
    that does not overlap an earlier replaced one is replaced by `rep`.
  */
  function ReplaceAll(s: string, pat: string, rep: string): string
    decreases |s|
  {
    if pat == [] then Interleave(s, rep)
    else if s == [] then []
    else if StartsWith(s, pat) then rep + ReplaceAll(s[|pat|..], pat, rep)
    else [s[0]] + ReplaceAll(s[1..], pat, rep)
  }

  /** The number of replacements `s.replace(pat, rep)` makes (`s.count(pat)`). */
  function Occurrences(s: string, pat: string): nat
    requires pat != []
    decreases |s|
  {
    if s == [] then 0
    else if StartsWith(s, pat) then 1 + Occurrences(s[|pat|..], pat)
    else Occurrences(s[1..], pat)
  }

  /** The scan finds an occurrence exactly when there is one. */
  lemma {:induction false} OccurrencesZeroIff(s: string, pat: string)
    requires pat != []
    ensures Occurrences(s, pat) == 0 <==> !Contains(s, pat)
    decreases |s|
  {
    if s != [] && !StartsWith(s, pat) {
      OccurrencesZeroIff(s[1..], pat);
    }
  }

  /** A literal whose first character the text lacks does not occur in it. */
  lemma {:induction false} NotContainsFirstChar(s: string, pat: string)
    requires pat != [] && pat[0] !in s
    ensures !Contains(s, pat)
    decreases |s|
  {
    if s != [] {
      assert s[0] in s;
      assert forall x :: x in s[1..] ==> x in s;
      NotContainsFirstChar(s[1..], pat);
    }
  }

  /** Text without an occurrence of the literal comes back unchanged. */
  lemma {:induction false} ReplaceAllNoMatch(s: string, pat: string, rep: string)
    requires pat != [] && !Contains(s, pat)
    ensures ReplaceAll(s, pat, rep) == s
    decreases |s|
  {
    if s != [] {
      ReplaceAllNoMatch(s[1..], pat, rep);
    }
  }

  /** Replacing a literal by itself changes nothing. */
  lemma {:induction false} ReplaceAllSelf(s: string, pat: string)
    ensures ReplaceAll(s, pat, pat) == s
    decreases |s|
  {
    if pat == [] {
      InterleaveEmpty(s);
    } else if s == [] {
    } else if StartsWith(s, pat) {
      ReplaceAllSelf(s[|pat|..], pat);
      assert pat + s[|pat|..] == s;
    } else {
      ReplaceAllSelf(s[1..], pat);
    }
  }

  lemma {:induction false} InterleaveEmpty(s: string)
    ensures Interleave(s, []) == s
    decreases |s|
  {
    if s != [] {
      InterleaveEmpty(s[1..]);
    }
  }

  /** Every replacement changes the length by `|rep| - |pat|` and nothing else does. */
  lemma {:induction false} ReplaceAllLength(s: string, pat: string, rep: string)
    requires pat != []
    ensures |ReplaceAll(s, pat, rep)| == |s| + Occurrences(s, pat) * (|rep| - |pat|)
    decreases |s|
  {
    if s == [] {
    } else if StartsWith(s, pat) {
      var k, d := Occurrences(s[|pat|..], pat), |rep| - |pat|;
      ReplaceAllLength(s[|pat|..], pat, rep);
      MulSucc(k, d);
    } else {
      ReplaceAllLength(s[1..], pat, rep);
    }
  }

  lemma MulSucc(k: nat, d: int)
    ensures (1 + k) * d == d + k * d
  {
  }

  /**
    A replacement can create a new occurrence out of the text around it, so
    the result of `replace` need not be free of the literal.
  */
  lemma ReplaceAllCanLeaveOccurrence()
    ensures Contains(ReplaceAll("aabb", "ab", ""), "ab")
  {
    assert "aabb"[..2][1] != "ab"[1];
    assert "aabb"[1..] == "abb";
    assert StartsWith("abb", "ab");
    assert "abb"[2..] == "b";
    assert ReplaceAll("b", "ab", "") == "b";
    assert ReplaceAll("aabb", "ab", "") == "ab";
    assert StartsWith("ab", "ab");
  }

  lemma {:induction false} StartsWithAppend(a: string, b: string, p: string)
    requires StartsWith(a, p)
    ensures StartsWith(a + b, p)
  {
    assert (a + b)[..|p|] == a[..|p|];
  }

  lemma PrefixAt(s: string, p: string, k: nat)
    requires StartsWith(s, p)
    ensures k < |p| ==> p[k] == s[k]
  {
  }

  /** A match at the start of `a + b` lies inside the line `a`, before its newline. */
  lemma MatchWithinLine(a: string, b: string, pat: string)
    requires '\n' !in pat && EndsWithNewline(a)
    requires StartsWith(a + b, pat)
    ensures |pat| < |a| && StartsWith(a, pat) && EndsWithNewline(a[|pat|..])
  {
    PrefixAt(a + b, pat, |a| - 1);
    assert a[..|pat|] == (a + b)[..|pat|];
  }

  /**
    A literal without a newline never straddles the end of a line, so the
    replacement can be done on the line and on the rest separately.
  */
  lemma {:induction false} ReplaceAllAppendLine(a: string, b: string, pat: string, rep: string)
    requires pat != [] && '\n' !in pat
    requires EndsWithNewline(a)
    ensures ReplaceAll(a + b, pat, rep) == ReplaceAll(a, pat, rep) + ReplaceAll(b, pat, rep)
    decreases |a|
  {
    var s := a + b;
    var tail := ReplaceAll(b, pat, rep);
    if StartsWith(s, pat) {
      MatchWithinLine(a, b, pat);
      var rest := a[|pat|..];
      assert s[|pat|..] == rest + b;
      ReplaceAllAppendLine(rest, b, pat, rep);
      assert ReplaceAll(s, pat, rep) == rep + (ReplaceAll(rest, pat, rep) + tail);
      assert ReplaceAll(a, pat, rep) == rep + ReplaceAll(rest, pat, rep);
      AppendAssoc(rep, ReplaceAll(rest, pat, rep), tail);
    } else {
      if StartsWith(a, pat) {
        StartsWithAppend(a, b, pat);
      }
      var rest := a[1..];
      assert s[1..] == rest + b;
      if |a| == 1 {
        assert rest == [];
        assert ReplaceAll(a, pat, rep) == [a[0]];
      } else {
        ReplaceAllAppendLine(rest, b, pat, rep);
        assert ReplaceAll(s, pat, rep) == [a[0]] + (ReplaceAll(rest, pat, rep) + tail);
        assert ReplaceAll(a, pat, rep) == [a[0]] + ReplaceAll(rest, pat, rep);
        AppendAssoc([a[0]], ReplaceAll(rest, pat, rep), tail);
      }
    }
  }

  /** A text that differs from the literal at a position both have does not start with it. */
  lemma MismatchAt(s: string, pat: string, i: nat)
    requires i < |s| && i < |pat| && s[i] != pat[i]
    ensures !StartsWith(s, pat)
  {
    if |pat| <= |s| {
      assert s[..|pat|][i] == s[i];
    }
  }

  /** Text at which no match starts, before `b`, is copied as it is. */
  lemma {:induction false} ReplaceAllKeepsPrefix(a: string, b: string, pat: string, rep: string)
    requires pat != []
    requires forall j :: 0 <= j < |a| ==> !StartsWith(a[j..] + b, pat)
    ensures ReplaceAll(a + b, pat, rep) == a + ReplaceAll(b, pat, rep)
    decreases |a|
  {
    if a != [] {
      assert a[0..] == a;
      assert !StartsWith(a + b, pat);
      assert (a + b)[1..] == a[1..] + b;
      assert ReplaceAll(a + b, pat, rep) == [a[0]] + ReplaceAll(a[1..] + b, pat, rep);
      forall j | 0 <= j < |a[1..]|
        ensures !StartsWith(a[1..][j..] + b, pat)
      {
        assert a[1..][j..] == a[j + 1..];
      }
      ReplaceAllKeepsPrefix(a[1..], b, pat, rep);
      AppendAssoc([a[0]], a[1..], ReplaceAll(b, pat, rep));
      assert [a[0]] + a[1..] == a;
    } else {
      assert a + b == b;
    }
  }

  /** Text without the literal's first character is copied as it is. */
  lemma LacksFirstCharKept(a: string, b: string, pat: string, rep: string)
    requires pat != [] && pat[0] !in a
    ensures ReplaceAll(a + b, pat, rep) == a + ReplaceAll(b, pat, rep)
  {
    forall j | 0 <= j < |a|
      ensures !StartsWith(a[j..] + b, pat)
    {
      MismatchAt(a[j..] + b, pat, 0);
    }
    ReplaceAllKeepsPrefix(a, b, pat, rep);
  }

  /** An occurrence at the start is replaced and the scan goes on after it. */
  lemma ReplaceAllLeading(pat: string, b: string, rep: string)
    requires pat != []
    ensures ReplaceAll(pat + b, pat, rep) == rep + ReplaceAll(b, pat, rep)
  {
    assert (pat + b)[..|pat|] == pat;
    assert (pat + b)[|pat|..] == b;
  }

  // ---------------------------------------------------------------------
  // Lines of a text file
  // ---------------------------------------------------------------------

  /** `''.join(parts)` */
  function Concat(parts: seq<string>): string
    decreases |parts|
  {
    if parts == [] then [] else parts[0] + Concat(parts[1..])
  }

  lemma {:induction false} ConcatSnoc(parts: seq<string>, last: string)
    ensures Concat(parts + [last]) == Concat(parts) + last
    decreases |parts|
  {
    if parts == [] {
      assert [] + [last] == [last];
    } else {
      assert (parts + [last])[1..] == parts[1..] + [last];
      ConcatSnoc(parts[1..], last);
    }
  }

  /**
    The lines that iterating over a file with content `s` yields: each line
    keeps its terminating newline, the last one may lack it, and an empty
    file has no lines.
  */
  function SplitLines(s: string): (lines: seq<string>)
    ensures Concat(lines) == s
    ensures forall i :: 0 <= i < |lines| ==> lines[i] != []
    ensures forall i :: 0 <= i < |lines| - 1 ==> EndsWithNewline(lines[i])
    ensures forall i, j :: 0 <= i < |lines| && 0 <= j < |lines[i]| - 1 ==> lines[i][j] != '\n'
    decreases |s|
  {
    if s == [] then []
    else
      var rest := SplitLines(s[1..]);
      if s[0] == '\n' then
        assert Concat(["\n"] + rest) == "\n" + Concat(rest);
        ["\n"] + rest
      else if rest == [] then
        [[s[0]]]
      else
        var lines := [[s[0]] + rest[0]] + rest[1..];
        assert Concat(lines) == [s[0]] + rest[0] + Concat(rest[1..]);
        assert forall j :: 1 <= j < |lines[0]| ==> lines[0][j] == rest[0][j - 1];
        lines
  }

  /**
    What reading a file in text mode makes of its content (universal
    newlines): every `\r\n` and every lone `\r` is read as `\n`.
  */
  function UniversalNewlines(s: string): (r: string)
    ensures '\r' !in r
    decreases |s|
  {
    if s == [] then []
    else if s[0] == '\r' then "\n" + UniversalNewlines(if |s| > 1 && s[1] == '\n' then s[2..] else s[1..])
    else [s[0]] + UniversalNewlines(s[1..])
  }

  /** Text without a carriage return is read as it is. */
  lemma {:induction false} UniversalNewlinesWithoutCR(s: string)
    requires '\r' !in s
    ensures UniversalNewlines(s) == s
    decreases |s|
  {
    if s != [] {
      assert s[0] in s;
      UniversalNewlinesWithoutCR(s[1..]);
      assert [s[0]] + s[1..] == s;
    }
  }

  /** A Windows line end and an old Mac one are both read as `\n`. */
  lemma UniversalNewlinesExample()
    ensures UniversalNewlines("a\r\nb\rc") == "a\nb\nc"
  {
    assert "a\r\nb\rc"[1..] == "\r\nb\rc";
    assert "\r\nb\rc"[2..] == "b\rc";
    assert "b\rc"[1..] == "\rc";
    assert "\rc"[1..] == "c";
    assert UniversalNewlines("c") == "c";
  }

  /** The lines after `line.replace(pat, rep)` has been applied to each. */
  function ReplaceEach(lines: seq<string>, pat: string, rep: string): (r: seq<string>)
  {
    seq(|lines|, i requires 0 <= i < |lines| => ReplaceAll(lines[i], pat, rep))
  }

  /**
    The text a line-by-line replacement writes back for file content `text`:
    the lines as text mode reads them, each replaced, written with `\n`.
  */
  function ReplaceByLine(text: string, pat: string, rep: string): string {
    Concat(ReplaceEach(SplitLines(UniversalNewlines(text)), pat, rep))
  }

  lemma {:induction false} ConcatReplaceEach(lines: seq<string>, pat: string, rep: string)
    requires pat != [] && '\n' !in pat
    requires forall i :: 0 <= i < |lines| - 1 ==> EndsWithNewline(lines[i])
    ensures Concat(ReplaceEach(lines, pat, rep)) == ReplaceAll(Concat(lines), pat, rep)
    decreases |lines|
  {
    if lines == [] {
    } else if |lines| == 1 {
      assert ReplaceEach(lines, pat, rep) == [ReplaceAll(lines[0], pat, rep)];
      assert Concat(lines) == lines[0] + Concat([]);
      assert lines[0] + [] == lines[0];
    } else {
      var r := ReplaceEach(lines, pat, rep);
      assert r[1..] == ReplaceEach(lines[1..], pat, rep);
      ConcatReplaceEach(lines[1..], pat, rep);
      ReplaceAllAppendLine(lines[0], Concat(lines[1..]), pat, rep);
    }
  }

  /**
    For a non-empty literal without a newline, replacing line by line gives
    the same text as replacing in the whole content as text mode reads it,
    which is the content itself when it holds no carriage return.
  */
  lemma ReplaceByLineIsReplaceAll(text: string, pat: string, rep: string)
    requires pat != [] && '\n' !in pat
    ensures ReplaceByLine(text, pat, rep) == ReplaceAll(UniversalNewlines(text), pat, rep)
    ensures '\r' !in text ==> ReplaceByLine(text, pat, rep) == ReplaceAll(text, pat, rep)
  {
    ConcatReplaceEach(SplitLines(UniversalNewlines(text)), pat, rep);
    if '\r' !in text {
      UniversalNewlinesWithoutCR(text);
    }
  }

  // ---------------------------------------------------------------------
  // str.split on one character and str.join
  // ---------------------------------------------------------------------

  /** `s.split(c)`: always at least one part, none containing `c`. */
  function Split(s: string, c: char): (parts: seq<string>)
    ensures |parts| >= 1
    ensures forall i :: 0 <= i < |parts| ==> c !in parts[i]
    decreases |s|
  {
    if s == [] then [[]]
    else
      var rest := Split(s[1..], c);
      if s[0] == c then [[]] + rest
      else [[s[0]] + rest[0]] + rest[1..]
  }

  /** `sep.join(words)` */
  function Join(words: seq<string>, sep: string): string
    decreases |words|
  {
    if words == [] then []
    else if |words| == 1 then words[0]
    else words[0] + sep + Join(words[1..], sep)
  }

  lemma JoinThree(a: string, b: string, c: string, sep: string)
    ensures Join([a, b, c], sep) == a + sep + b + sep + c
  {
    assert [a, b, c][1..] == [b, c];
    assert [b, c][1..] == [c];
    assert Join([c], sep) == c;
    assert Join([b, c], sep) == b + sep + c;
  }

  /** Joining the parts of a split with the separator restores the text. */
  lemma {:induction false} JoinSplit(s: string, c: char)
    ensures Join(Split(s, c), [c]) == s
    decreases |s|
  {
    if s != [] {
      var rest := Split(s[1..], c);
      JoinSplit(s[1..], c);
      if s[0] != c && |rest| > 1 {
        assert ([[s[0]] + rest[0]] + rest[1..])[1..] == rest[1..];
      }
    }
  }

  lemma {:induction false} SplitWithoutSeparator(s: string, c: char)
    requires c !in s
    ensures Split(s, c) == [s]
    decreases |s|
  {
    if s != [] {
      assert s[0] in s;
      SplitWithoutSeparator(s[1..], c);
      assert [s[0]] + s[1..] == s;
    }
  }

  lemma {:induction false} SplitAtFirstSeparator(a: string, c: char, t: string)
    requires c !in a
    ensures Split(a + [c] + t, c) == [a] + Split(t, c)
    decreases |a|
  {
    if a == [] {
      assert ([c] + t)[1..] == t;
    } else {
      assert (a + [c] + t)[1..] == a[1..] + [c] + t;
      SplitAtFirstSeparator(a[1..], c, t);
      assert [a[0]] + a[1..] == a;
    }
  }

  /** Splitting a join of separator-free parts gives the parts back. */
  lemma {:induction false} SplitJoin(words: seq<string>, c: char)
    requires |words| >= 1
    requires forall i :: 0 <= i < |words| ==> c !in words[i]
    ensures Split(Join(words, [c]), c) == words
    decreases |words|
  {
    if |words| == 1 {
      SplitWithoutSeparator(words[0], c);
    } else {
      SplitJoin(words[1..], c);
      SplitAtFirstSeparator(words[0], c, Join(words[1..], [c]));
      assert [words[0]] + words[1..] == words;
    }
  }
}
