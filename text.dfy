// The pieces of Rust's `str` API that the scanners and parsers use:
// `contains`, `starts_with`, `ends_with`, ASCII lowercasing, `lines`,
// `split(char)`, `trim`, `split_whitespace`, `replace` of one character,
// `u32::from_str`, `format!("{}")` of a number and byte-wise ordering.

module Text {
  import opened Wrappers

  predicate StartsWith(s: string, prefix: string)
  {
    |prefix| <= |s| && s[..|prefix|] == prefix
  }

  /** A prefix of s is a prefix of anything s is extended to. */
  lemma StartsWithAppend(s: string, more: string, prefix: string)
    requires StartsWith(s, prefix)
    ensures StartsWith(s + more, prefix)
  {
    assert (s + more)[..|prefix|] == s[..|prefix|];
  }

  predicate EndsWith(s: string, suffix: string)
  {
    |suffix| <= |s| && s[|s| - |suffix|..] == suffix
  }

  /** `s.contains(sub)`: sub occurs at some position of s. */
  predicate Contains(s: string, sub: string)
    decreases |s|
  {
    StartsWith(s, sub) || (|s| > 0 && Contains(s[1..], sub))
  }

  /** sub occurs in s at position i. */
  predicate OccursAt(s: string, sub: string, i: nat)
  {
    i + |sub| <= |s| && s[i..i + |sub|] == sub
  }

  /** Where a contained string occurs. */
  lemma {:induction false} ContainsWitness(s: string, sub: string) returns (i: nat)
    requires Contains(s, sub)
    ensures OccursAt(s, sub, i)
    decreases |s|
  {
    if StartsWith(s, sub) {
      i := 0;
    } else {
      var j := ContainsWitness(s[1..], sub);
      assert s[j + 1..j + 1 + |sub|] == s[1..][j..j + |sub|];
      i := j + 1;
    }
  }

  /** An occurrence at any position makes the string contained. */
  lemma {:induction false} OccursContains(s: string, sub: string, i: nat)
    requires OccursAt(s, sub, i)
    ensures Contains(s, sub)
    decreases i
  {
    if i > 0 {
      assert s[1..][i - 1..i - 1 + |sub|] == s[i..i + |sub|];
      OccursContains(s[1..], sub, i - 1);
    } else {
      assert StartsWith(s, sub);
    }
  }

  /** The recursive definition agrees with the positional one. */
  lemma ContainsAt(s: string, sub: string)
    ensures Contains(s, sub) <==> exists i: nat :: OccursAt(s, sub, i)
  {
    if Contains(s, sub) {
      var i := ContainsWitness(s, sub);
    }
    if exists i: nat :: OccursAt(s, sub, i) {
      var i: nat :| OccursAt(s, sub, i);
      OccursContains(s, sub, i);
    }
  }

  /** sub occurs in s at position i when their characters match there. */
  lemma ContainsByChars(s: string, sub: string, i: nat)
    requires i + |sub| <= |s| && forall k | 0 <= k < |sub| :: s[i + k] == sub[k]
    ensures Contains(s, sub)
  {
    assert s[i..i + |sub|] == sub;
    assert OccursAt(s, sub, i);
    ContainsAt(s, sub);
  }

  /** Every string contains itself surrounded by anything. */
  lemma ContainsInfix(a: string, sub: string, b: string)
    ensures Contains(a + sub + b, sub)
  {
    var s := a + sub + b;
    assert s[|a|..|a| + |sub|] == sub;
    assert OccursAt(s, sub, |a|);
    ContainsAt(s, sub);
  }

  /** A string that lacks one of sub's characters does not contain sub. */
  lemma {:induction false} MissingCharNotContained(s: string, sub: string, c: char)
    requires c in sub && c !in s
    ensures !Contains(s, sub)
    decreases |s|
  {
    if |s| > 0 {
      assert c !in s[1..] by {
        assert forall k | 0 <= k < |s[1..]| :: s[1..][k] == s[k + 1];
      }
      MissingCharNotContained(s[1..], sub, c);
    }
  }

  /** A string in which the first two characters of sub never occur side
      by side does not contain sub. */
  lemma {:induction false} MissingPairNotContained(s: string, sub: string)
    requires |sub| >= 2
    requires forall i | 0 <= i < |s| - 1 :: !(s[i] == sub[0] && s[i + 1] == sub[1])
    ensures !Contains(s, sub)
    decreases |s|
  {
    if |s| > 0 {
      assert !StartsWith(s, sub) by {
        if |sub| <= |s| {
          assert s[0] == s[..|sub|][0] && s[1] == s[..|sub|][1];
        }
      }
      var t := s[1..];
      assert forall i | 0 <= i < |t| :: t[i] == s[i + 1];
      MissingPairNotContained(t, sub);
    }
  }

  /** A string lacking, for each candidate, one of its characters contains
      none of them. */
  lemma NoneContainedByMissingChars(s: string, subs: seq<string>, marks: seq<char>)
    requires |marks| == |subs|
    requires forall i | 0 <= i < |subs| :: marks[i] in subs[i]
    requires forall k, i | 0 <= k < |s| && 0 <= i < |marks| :: s[k] != marks[i]
    ensures !ContainsAny(s, subs)
  {
    forall i | 0 <= i < |subs|
      ensures !Contains(s, subs[i])
    {
      assert marks[i] !in s;
      MissingCharNotContained(s, subs[i], marks[i]);
    }
  }

  /** Containment is inherited by every extension of the string. */
  lemma ContainsExtend(a: string, s: string, b: string, sub: string)
    requires Contains(s, sub)
    ensures Contains(a + s + b, sub)
  {
    ContainsAt(s, sub);
    var i: nat :| OccursAt(s, sub, i);
    var t := a + s + b;
    assert t[|a| + i..|a| + i + |sub|] == s[i..i + |sub|];
    assert OccursAt(t, sub, |a| + i);
    ContainsAt(t, sub);
  }

  /** `char::to_ascii_lowercase`. */
  function LowerChar(c: char): char
  {
    if 'A' <= c <= 'Z' then (c as int + 32) as char else c
  }

  /** ASCII lowercasing of a whole string. */
  function ToLower(s: string): (r: string)
    ensures |r| == |s|
    ensures forall i | 0 <= i < |s| :: r[i] == LowerChar(s[i])
  {
    seq(|s|, i requires 0 <= i < |s| => LowerChar(s[i]))
  }

  /** Lowercasing twice is lowercasing once, and the result has no
      upper-case ASCII letter. */
  lemma ToLowerIdempotent(s: string)
    ensures ToLower(ToLower(s)) == ToLower(s)
    ensures forall i | 0 <= i < |s| :: !('A' <= ToLower(s)[i] <= 'Z')
  {
  }

  /** A string without upper-case ASCII letters is its own lowercase. */
  lemma ToLowerOfLower(s: string)
    requires forall i | 0 <= i < |s| :: !('A' <= s[i] <= 'Z')
    ensures ToLower(s) == s
  {
  }

  /** Lowercasing distributes over concatenation. */
  lemma ToLowerAppend(a: string, b: string)
    ensures ToLower(a + b) == ToLower(a) + ToLower(b)
  {
  }

  /** The index of the first c in s, or |s| if there is none. */
  function FindChar(s: string, c: char): (r: nat)
    ensures r <= |s|
    ensures r < |s| ==> s[r] == c
    ensures c !in s[..r]
    decreases |s|
  {
    if s == [] then 0
    else if s[0] == c then 0
    else
      assert s[..1 + FindChar(s[1..], c)] == [s[0]] + s[1..][..FindChar(s[1..], c)];
      1 + FindChar(s[1..], c)
  }

  /** One line without its "\r" terminator, if it has one. */
  function StripCr(line: string): (r: string)
    ensures r == line || (line == r + ['\r'])
  {
    if |line| > 0 && line[|line| - 1] == '\r' then line[..|line| - 1] else line
  }

  /** `str::lines`: pieces between '\n's, each without a trailing "\r"; a
      final "\n" does not start an empty line, and a final piece with no
      "\n" after it is kept as it is. */
  function Lines(s: string): (r: seq<string>)
    ensures s == [] <==> r == []
    ensures forall k | 0 <= k < |r| :: '\n' !in r[k]
    decreases |s|
  {
    if s == [] then []
    else
      var i := FindChar(s, '\n');
      if i == |s| then [s]
      else
        assert '\n' !in StripCr(s[..i]) by {
          assert StripCr(s[..i]) <= s[..i];
        }
        [StripCr(s[..i])] + Lines(s[i + 1..])
  }

  /** Lines of a text that is lines joined with "\n"s and a final "\n". */
  function JoinLines(ls: seq<string>): string
  {
    if ls == [] then [] else ls[0] + "\n" + JoinLines(ls[1..])
  }

  /** Lines joined one more at the end. */
  lemma {:induction false} JoinLinesSnoc(ls: seq<string>, l: string)
    ensures JoinLines(ls + [l]) == JoinLines(ls) + l + "\n"
    decreases |ls|
  {
    if ls == [] {
      assert [l][1..] == [];
    } else {
      assert (ls + [l])[1..] == ls[1..] + [l];
      JoinLinesSnoc(ls[1..], l);
    }
  }

  /** A non-empty text without a '\n' is a single line. */
  lemma SingleLine(s: string)
    requires s != [] && '\n' !in s
    ensures Lines(s) == [s]
  {
    assert forall k | 0 <= k < |s| :: s[k] != '\n';
  }

  /** A text with a '\n' starts with the line before it. */
  lemma LinesAtNewline(s: string)
    requires FindChar(s, '\n') < |s|
    ensures Lines(s) == [StripCr(s[..FindChar(s, '\n')])] + Lines(s[FindChar(s, '\n') + 1..])
  {
  }

  /** An occurrence of a string free of '\r' that ends by position i lies
      in the line made of the first i characters. */
  lemma OccursInLine(s: string, sub: string, p: nat, i: nat)
    requires sub != [] && '\r' !in sub
    requires OccursAt(s, sub, p) && p + |sub| <= i <= |s|
    ensures Contains(StripCr(s[..i]), sub)
  {
    var line := s[..i];
    assert line[p..p + |sub|] == sub;
    if p + |sub| == i {
      assert line[|line| - 1] == sub[|sub| - 1];
    }
    var l := StripCr(line);
    assert l[p..p + |sub|] == sub;
    assert OccursAt(l, sub, p);
    ContainsAt(l, sub);
  }

  /** A '\n' ending before the end of an occurrence of a string free of
      '\n' comes before the occurrence, which then occurs in the rest. */
  lemma NewlineBeforeOccurrence(s: string, sub: string, p: nat, i: nat)
    requires '\n' !in sub && OccursAt(s, sub, p)
    requires i < p + |sub| && s[i] == '\n'
    ensures i < p && OccursAt(s[i + 1..], sub, p - i - 1)
  {
    forall m | p <= m < p + |sub|
      ensures s[m] != '\n'
    {
      assert s[m] == s[p..p + |sub|][m - p];
    }
    assert s[i + 1..][p - i - 1..p - i - 1 + |sub|] == s[p..p + |sub|];
  }

  /** Line k of s contains sub. */
  predicate InLine(s: string, sub: string, k: nat)
  {
    k < |Lines(s)| && Contains(Lines(s)[k], sub)
  }

  /** A text without '\n' is its only line. */
  lemma OccursInOnlyLine(s: string, sub: string, p: nat)
    requires sub != [] && OccursAt(s, sub, p) && FindChar(s, '\n') == |s|
    ensures InLine(s, sub, 0)
  {
    assert Lines(s) == [s];
    ContainsAt(s, sub);
  }

  /** An occurrence that ends before the first '\n' is in the first line. */
  lemma OccursInFirstLine(s: string, sub: string, p: nat)
    requires sub != [] && '\r' !in sub
    requires OccursAt(s, sub, p) && p + |sub| <= FindChar(s, '\n') < |s|
    ensures InLine(s, sub, 0)
  {
    LinesAtNewline(s);
    OccursInLine(s, sub, p, FindChar(s, '\n'));
  }

  /** Line k of the text after the first '\n' is line k + 1 of the text. */
  lemma OccursInLaterLine(s: string, sub: string, k: nat)
    requires FindChar(s, '\n') < |s|
    requires InLine(s[FindChar(s, '\n') + 1..], sub, k)
    ensures InLine(s, sub, k + 1)
  {
    LinesAtNewline(s);
  }

  /** An occurrence of a non-empty string free of '\n' and '\r' lies
      within one line; the result is that line's index. */
  lemma {:induction false} LineOfOccurrence(s: string, sub: string, p: nat) returns (k: nat)
    requires sub != [] && '\n' !in sub && '\r' !in sub
    requires OccursAt(s, sub, p)
    ensures InLine(s, sub, k)
    decreases |s|
  {
    var i := FindChar(s, '\n');
    if i == |s| {
      k := 0;
      OccursInOnlyLine(s, sub, p);
    } else if p + |sub| <= i {
      k := 0;
      OccursInFirstLine(s, sub, p);
    } else {
      NewlineBeforeOccurrence(s, sub, p, i);
      var k' := LineOfOccurrence(s[i + 1..], sub, p - i - 1);
      k := k' + 1;
      OccursInLaterLine(s, sub, k');
    }
  }

  /** Such a string, contained in a text, is contained in one of its
      lines. */
  lemma ContainedInSomeLine(s: string, sub: string)
    requires sub != [] && '\n' !in sub && '\r' !in sub
    requires Contains(s, sub)
    ensures exists k | 0 <= k < |Lines(s)| :: Contains(Lines(s)[k], sub)
  {
    ContainsAt(s, sub);
    var p: nat :| OccursAt(s, sub, p);
    var k := LineOfOccurrence(s, sub, p);
  }

  /** Writing lines free of '\n' and '\r' one per line and reading them back
      with `lines` gives the same lines. */
  lemma {:induction false} LinesJoinLines(ls: seq<string>)
    requires forall k | 0 <= k < |ls| :: '\n' !in ls[k] && '\r' !in ls[k]
    ensures Lines(JoinLines(ls)) == ls
    decreases |ls|
  {
    if ls != [] {
      var s := JoinLines(ls);
      var l := ls[0];
      var rest := JoinLines(ls[1..]);
      assert s == l + "\n" + rest;
      FindCharAt(s, '\n', |l|);
      assert s[..|l|] == l;
      assert s[|l| + 1..] == rest;
      if |l| > 0 {
        assert l[|l| - 1] in l;
      }
      LinesJoinLines(ls[1..]);
    }
  }

  /** FindChar finds the first occurrence. */
  lemma FindCharAt(s: string, c: char, i: nat)
    requires i < |s| && s[i] == c && c !in s[..i]
    ensures FindChar(s, c) == i
  {
  }

  /** `s.split(c)`: the maximal pieces between occurrences of c; there is
      always at least one piece, and "" splits into [""]. */
  function SplitOn(s: string, c: char): (r: seq<string>)
    ensures |r| >= 1
    ensures forall k | 0 <= k < |r| :: c !in r[k]
    decreases |s|
  {
    var i := FindChar(s, c);
    if i == |s| then [s]
    else [s[..i]] + SplitOn(s[i + 1..], c)
  }

  /** A split has more than one piece exactly when the separator occurs;
      the second piece is the text between the first and the second c. */
  lemma SplitOnPieces(s: string, c: char)
    ensures |SplitOn(s, c)| > 1 <==> c in s
    ensures c in s ==>
      var rest := s[FindChar(s, c) + 1..];
      SplitOn(s, c)[1] == rest[..FindChar(rest, c)]
  {
    var i := FindChar(s, c);
    if i == |s| {
      assert s[..i] == s;
    } else {
      assert s[i] in s;
    }
  }

  /** Pieces joined with c in between, the inverse of `split`. */
  function JoinWith(pieces: seq<string>, c: char): string
    requires |pieces| >= 1
  {
    if |pieces| == 1 then pieces[0] else pieces[0] + [c] + JoinWith(pieces[1..], c)
  }

  /** Joining the pieces of a split gives back the string. */
  lemma {:induction false} JoinSplit(s: string, c: char)
    ensures JoinWith(SplitOn(s, c), c) == s
    decreases |s|
  {
    var i := FindChar(s, c);
    if i < |s| {
      var rest := s[i + 1..];
      JoinSplit(rest, c);
      var pieces := SplitOn(s, c);
      assert pieces == [s[..i]] + SplitOn(rest, c);
      assert |pieces| > 1 && pieces[1..] == SplitOn(rest, c);
      assert JoinWith(pieces, c) == s[..i] + [c] + JoinWith(SplitOn(rest, c), c);
      assert s == s[..i] + [c] + rest;
    }
  }

  /** Splitting a join of c-free pieces gives back the pieces. */
  lemma {:induction false} SplitJoin(pieces: seq<string>, c: char)
    requires |pieces| >= 1
    requires forall k | 0 <= k < |pieces| :: c !in pieces[k]
    ensures SplitOn(JoinWith(pieces, c), c) == pieces
    decreases |pieces|
  {
    var p := pieces[0];
    if |pieces| == 1 {
      assert p[..|p|] == p;
    } else {
      var s := JoinWith(pieces, c);
      var rest := JoinWith(pieces[1..], c);
      assert s == p + [c] + rest;
      assert s[..|p|] == p;
      FindCharAt(s, c, |p|);
      assert s[|p| + 1..] == rest;
      SplitJoin(pieces[1..], c);
    }
  }

  /** Joining pieces without d, with a separator other than d, gives a
      string without d. */
  lemma {:induction false} JoinAvoids(pieces: seq<string>, c: char, d: char)
    requires |pieces| >= 1 && c != d
    requires forall k | 0 <= k < |pieces| :: d !in pieces[k]
    ensures d !in JoinWith(pieces, c)
    decreases |pieces|
  {
    if |pieces| > 1 {
      JoinAvoids(pieces[1..], c, d);
      assert forall k | 0 <= k < |pieces[1..]| :: pieces[1..][k] == pieces[k + 1];
    }
  }

  /** The Unicode White_Space property, which `trim` and `split_whitespace`
      use. */
  predicate IsWhitespace(c: char)
  {
    ('\U{0009}' <= c <= '\U{000D}') || c == '\U{0020}' || c == '\U{0085}' ||
    c == '\U{00A0}' || c == '\U{1680}' || ('\U{2000}' <= c <= '\U{200A}') ||
    c == '\U{2028}' || c == '\U{2029}' || c == '\U{202F}' || c == '\U{205F}' ||
    c == '\U{3000}'
  }

  function TrimStart(s: string): (r: string)
    ensures |r| <= |s| && s[|s| - |r|..] == r
    ensures r == [] || !IsWhitespace(r[0])
    decreases |s|
  {
    if s != [] && IsWhitespace(s[0]) then TrimStart(s[1..]) else s
  }

  function TrimEnd(s: string): (r: string)
    ensures |r| <= |s| && s[..|r|] == r
    ensures r == [] || !IsWhitespace(r[|r| - 1])
    decreases |s|
  {
    if s != [] && IsWhitespace(s[|s| - 1]) then TrimEnd(s[..|s| - 1]) else s
  }

  /** What TrimStart drops is white space. */
  lemma {:induction false} TrimStartDropsSpace(s: string)
    ensures forall k | 0 <= k < |s| - |TrimStart(s)| :: IsWhitespace(s[k])
    decreases |s|
  {
    if s != [] && IsWhitespace(s[0]) {
      TrimStartDropsSpace(s[1..]);
      forall k | 0 < k < |s| - |TrimStart(s)|
        ensures IsWhitespace(s[k])
      {
        assert s[k] == s[1..][k - 1];
      }
    }
  }

  /** What TrimEnd drops is white space. */
  lemma {:induction false} TrimEndDropsSpace(s: string)
    ensures forall k | |TrimEnd(s)| <= k < |s| :: IsWhitespace(s[k])
    decreases |s|
  {
    if s != [] && IsWhitespace(s[|s| - 1]) {
      TrimEndDropsSpace(s[..|s| - 1]);
      forall k | |TrimEnd(s)| <= k < |s| - 1
        ensures IsWhitespace(s[k])
      {
        assert s[k] == s[..|s| - 1][k];
      }
    }
  }

  /** `str::trim`: the string without its leading and trailing white space;
      it neither starts nor ends with white space. */
  function Trim(s: string): (r: string)
    ensures r == [] || (!IsWhitespace(r[0]) && !IsWhitespace(r[|r| - 1]))
  {
    var t := TrimStart(s);
    var r := TrimEnd(t);
    assert r != [] ==> r[0] == t[0];
    r
  }

  /** The trimmed string is a slice of s. */
  lemma TrimIsSlice(s: string) returns (i: nat)
    ensures i + |Trim(s)| <= |s| && Trim(s) == s[i..i + |Trim(s)|]
  {
    var t := TrimStart(s);
    i := |s| - |t|;
    assert t == s[i..];
    assert Trim(s) == t[..|Trim(s)|];
  }

  /** The length of the run of non-space characters at the front of s. */
  function WordEnd(s: string): (r: nat)
    ensures r <= |s|
    ensures forall k | 0 <= k < r :: !IsWhitespace(s[k])
    ensures r < |s| ==> IsWhitespace(s[r])
    decreases |s|
  {
    if s == [] || IsWhitespace(s[0]) then 0 else 1 + WordEnd(s[1..])
  }

  /** `str::split_whitespace`: the maximal runs of non-space characters. */
  function Words(s: string): (r: seq<string>)
    ensures forall k | 0 <= k < |r| :: r[k] != []
    decreases |s|
  {
    if s == [] then []
    else if IsWhitespace(s[0]) then Words(s[1..])
    else
      var e := WordEnd(s);
      [s[..e]] + Words(s[e..])
  }

  /** An occurrence in a suffix is an occurrence in the whole string. */
  lemma OccursInSuffix(s: string, d: nat, w: string, j: nat)
    requires d <= |s| && OccursAt(s[d..], w, j)
    ensures OccursAt(s, w, d + j)
  {
    assert s[d + j..d + j + |w|] == s[d..][j..j + |w|];
  }

  /** The words of a string that starts with white space are those of the
      rest; otherwise the first word is the leading run. */
  lemma WordsUnfold(s: string)
    requires s != []
    ensures IsWhitespace(s[0]) ==> Words(s) == Words(s[1..])
    ensures !IsWhitespace(s[0]) ==> Words(s) == [s[..WordEnd(s)]] + Words(s[WordEnd(s)..])
  {
  }

  /** Where the k-th word of s sits in s. */
  lemma {:induction false} WordPosition(s: string, k: nat) returns (i: nat)
    requires k < |Words(s)|
    ensures OccursAt(s, Words(s)[k], i)
    decreases |s|
  {
    WordsUnfold(s);
    if IsWhitespace(s[0]) {
      var j := WordPosition(s[1..], k);
      OccursInSuffix(s, 1, Words(s)[k], j);
      i := j + 1;
    } else {
      var e := WordEnd(s);
      if k == 0 {
        i := 0;
        assert s[0..e] == s[..e];
      } else {
        var j := WordPosition(s[e..], k - 1);
        OccursInSuffix(s, e, Words(s)[k], j);
        i := e + j;
      }
    }
  }

  /** Every word of s occurs in s. */
  lemma WordsContained(s: string, k: nat)
    requires k < |Words(s)|
    ensures Contains(s, Words(s)[k])
  {
    var i := WordPosition(s, k);
    ContainsAt(s, Words(s)[k]);
  }

  /** Whatever contains a string contains each of its prefixes. */
  lemma ContainsPrefix(s: string, w: string, p: string)
    requires Contains(s, w) && StartsWith(w, p)
    ensures Contains(s, p)
  {
    ContainsAt(s, w);
    var i: nat :| OccursAt(s, w, i);
    assert s[i..i + |p|] == w[..|p|];
    assert OccursAt(s, p, i);
    ContainsAt(s, p);
  }

  predicate IsDigit(c: char)
  {
    '0' <= c <= '9'
  }

  predicate AllDigits(s: string)
  {
    forall k | 0 <= k < |s| :: IsDigit(s[k])
  }

  /** The value of a decimal numeral. */
  function DigitsValue(s: string): nat
    requires AllDigits(s)
    decreases |s|
  {
    if s == [] then 0
    else DigitsValue(s[..|s| - 1]) * 10 + (s[|s| - 1] as int - '0' as int)
  }

  const U32Limit: nat := 0x1_0000_0000

  /** `u32::from_str`: an optional '+', then one or more decimal digits,
      with a value below 2^32; anything else is an error. */
  function ParseU32(s: string): (r: Option<nat>)
    ensures r.Some? ==> r.value < U32Limit
    ensures s == [] ==> r == None
  {
    var d := if |s| > 0 && s[0] == '+' then s[1..] else s;
    if d == [] || !AllDigits(d) then None
    else if DigitsValue(d) < U32Limit then Some(DigitsValue(d))
    else None
  }

  /** The decimal rendering of n, as `format!("{}", n)` writes it. */
  function NatToString(n: nat): (r: string)
    ensures r != [] && AllDigits(r)
    ensures |r| > 1 ==> r[0] != '0'
    decreases n
  {
    var last := ['0' + (n % 10) as char];
    if n < 10 then last else NatToString(n / 10) + last
  }

  lemma {:induction false} DigitsOfNatToString(n: nat)
    ensures DigitsValue(NatToString(n)) == n
    decreases n
  {
    var s := NatToString(n);
    if n >= 10 {
      DigitsOfNatToString(n / 10);
      assert s[..|s| - 1] == NatToString(n / 10);
    }
  }

  /** Parsing a rendered number gives the number back. */
  lemma ParseNatToString(n: nat)
    requires n < U32Limit
    ensures ParseU32(NatToString(n)) == Some(n)
  {
    DigitsOfNatToString(n);
  }

  /** `s.replace(from, to)` for single characters. */
  function ReplaceChar(s: string, from: char, to: char): (r: string)
    ensures |r| == |s|
    ensures forall k | 0 <= k < |s| :: r[k] == if s[k] == from then to else s[k]
  {
    seq(|s|, k requires 0 <= k < |s| => if s[k] == from then to else s[k])
  }

  /** Byte-wise (here: code-point-wise) lexicographic order of `&str`. */
  predicate StrLe(a: string, b: string)
    decreases |a|
  {
    a == [] || (b != [] && (a[0] < b[0] || (a[0] == b[0] && StrLe(a[1..], b[1..]))))
  }

  /** A string whose first difference from another is a greater character
      is not below it. */
  lemma {:induction false} NotStrLeAtDifference(a: string, b: string, n: nat)
    requires n < |a| && n < |b| && a[n] > b[n]
    requires forall k | 0 <= k < n :: a[k] == b[k]
    ensures !StrLe(a, b)
    decreases n
  {
    if n > 0 {
      NotStrLeAtDifference(a[1..], b[1..], n - 1);
    }
  }

  lemma {:induction false} StrLeTotal(a: string, b: string)
    ensures StrLe(a, b) || StrLe(b, a)
    decreases |a|
  {
    if a != [] && b != [] && a[0] == b[0] {
      StrLeTotal(a[1..], b[1..]);
    }
  }

  lemma {:induction false} StrLeTrans(a: string, b: string, c: string)
    requires StrLe(a, b) && StrLe(b, c)
    ensures StrLe(a, c)
    decreases |a|
  {
    if a != [] && b != [] && c != [] && a[0] == b[0] == c[0] {
      StrLeTrans(a[1..], b[1..], c[1..]);
    }
  }

  lemma {:induction false} StrLeAntisymmetric(a: string, b: string)
    requires StrLe(a, b) && StrLe(b, a)
    ensures a == b
    decreases |a|
  {
    if a != [] {
      StrLeAntisymmetric(a[1..], b[1..]);
    }
  }

  /** Some string of the list contains sub: `list.iter().any(|x| s.contains(x))`
      with the roles as the callers use them. */
  predicate ContainsAny(s: string, subs: seq<string>)
  {
    exists k | 0 <= k < |subs| :: Contains(s, subs[k])
  }

  /** ContainsAny over a list of one. */
  lemma AnyOfOne(s: string, a: string)
    ensures ContainsAny(s, [a]) <==> Contains(s, a)
  {
    if Contains(s, a) {
      assert [a][0] == a;
    }
  }

  /** ContainsAny over a list of two. */
  lemma AnyOfTwo(s: string, a: string, b: string)
    ensures ContainsAny(s, [a, b]) <==> Contains(s, a) || Contains(s, b)
  {
    if Contains(s, a) {
      assert [a, b][0] == a;
    } else if Contains(s, b) {
      assert [a, b][1] == b;
    }
  }

  /** ContainsAny over a list of three. */
  lemma AnyOfThree(s: string, a: string, b: string, c: string)
    ensures ContainsAny(s, [a, b, c]) <==> Contains(s, a) || Contains(s, b) || Contains(s, c)
  {
    if Contains(s, a) {
      assert [a, b, c][0] == a;
    } else if Contains(s, b) {
      assert [a, b, c][1] == b;
    } else if Contains(s, c) {
      assert [a, b, c][2] == c;
    }
  }
}
