/** The string operations of Rust's `str` that the readers use: `trim`,
    `split_whitespace`, `lines`, `split(char)`, `starts_with` and `contains`.
    White space is the ASCII part of Unicode's White_Space property. */
module Text {

  /** The characters `trim` and `split_whitespace` treat as white space. */
  predicate IsSpace(c: char) {
    c == ' ' || c == '\t' || c == '\n' || c == '\r' || c == '\U{0B}' || c == '\U{0C}'
  }

  predicate AllSpace(s: string) {
    forall i :: 0 <= i < |s| ==> IsSpace(s[i])
  }

  predicate NoSpace(s: string) {
    forall i :: 0 <= i < |s| ==> !IsSpace(s[i])
  }

  // ---------------------------------------------------------------- trim

  /** `str::trim_start`. */
  function TrimStart(s: string): (r: string)
    ensures |r| <= |s|
    ensures r != [] ==> !IsSpace(r[0])
  {
    if s != [] && IsSpace(s[0]) then TrimStart(s[1..]) else s
  }

  /** `str::trim_end`. */
  function TrimEnd(s: string): (r: string)
    ensures |r| <= |s|
    ensures r != [] ==> !IsSpace(r[|r| - 1])
  {
    if s != [] && IsSpace(s[|s| - 1]) then TrimEnd(s[..|s| - 1]) else s
  }

  /** `trim_start` removes a white-space prefix and nothing else. */
  lemma {:induction false} TrimStartRemovesPrefix(s: string)
    ensures s == s[..|s| - |TrimStart(s)|] + TrimStart(s)
    ensures AllSpace(s[..|s| - |TrimStart(s)|])
  {
    if s != [] && IsSpace(s[0]) {
      var t := s[1..];
      TrimStartRemovesPrefix(t);
      var k := |t| - |TrimStart(t)|;
      assert TrimStart(s) == TrimStart(t);
      assert s[..k + 1] == [s[0]] + t[..k];
      assert s == [s[0]] + t;
      AllSpaceCons(s[0], t[..k]);
    } else {
      assert s[..0] == [];
    }
  }

  lemma AllSpaceCons(c: char, s: string)
    requires IsSpace(c) && AllSpace(s)
    ensures AllSpace([c] + s)
  {
    assert forall i :: 0 < i < |s| + 1 ==> ([c] + s)[i] == s[i - 1];
  }

  /** `trim_end` removes a white-space suffix and nothing else. */
  lemma {:induction false} TrimEndRemovesSuffix(s: string)
    ensures s == TrimEnd(s) + s[|TrimEnd(s)|..]
    ensures AllSpace(s[|TrimEnd(s)|..])
  {
    if s != [] && IsSpace(s[|s| - 1]) {
      var u := s[..|s| - 1];
      TrimEndRemovesSuffix(u);
      assert s[|TrimEnd(u)|..] == u[|TrimEnd(u)|..] + [s[|s| - 1]];
    }
  }

  /** `r` is `s` with the white space `s[..k]` before it and the white space
      after it taken away. */
  predicate TrimmedAt(s: string, r: string, k: int) {
    0 <= k <= |s| - |r| && s[k..k + |r|] == r && AllSpace(s[..k]) && AllSpace(s[k + |r|..])
  }

  /** `str::trim`: `s` is white space, then the result, then white space, and
      the result neither starts nor ends with white space. */
  function Trim(s: string): (r: string)
    ensures r == [] || (!IsSpace(r[0]) && !IsSpace(r[|r| - 1]))
    ensures exists k :: TrimmedAt(s, r, k)
  {
    TrimBothEnds(s);
    TrimEnd(TrimStart(s))
  }

  lemma TrimBothEnds(s: string)
    ensures var r := TrimEnd(TrimStart(s));
            TrimmedAt(s, r, |s| - |TrimStart(s)|) && (r == [] || (!IsSpace(r[0]) && !IsSpace(r[|r| - 1])))
  {
    var t := TrimStart(s);
    var r := TrimEnd(t);
    TrimStartRemovesPrefix(s);
    TrimEndRemovesSuffix(t);
    FramedByParts(s, t, r);
  }

  /** `s` is white space then `t`, and `t` is `r` then white space. */
  lemma FramedByParts(s: string, t: string, r: string)
    requires |t| <= |s| && s == s[..|s| - |t|] + t && AllSpace(s[..|s| - |t|])
    requires |r| <= |t| && t == r + t[|r|..] && AllSpace(t[|r|..])
    ensures TrimmedAt(s, r, |s| - |t|)
    ensures r != [] ==> r[0] == t[0]
  {
    var lead, trail := s[..|s| - |t|], t[|r|..];
    assert s == lead + (r + trail);
    FramedIsTrimmedAt(s, lead, r, trail);
    if r != [] {
      assert t[0] == (r + trail)[0];
    }
  }

  lemma FramedIsTrimmedAt(s: string, lead: string, r: string, trail: string)
    requires s == lead + (r + trail) && AllSpace(lead) && AllSpace(trail)
    ensures TrimmedAt(s, r, |lead|)
  {
    assert s[..|lead|] == lead;
    assert s[|lead|..] == r + trail;
    assert s[|lead|..|lead| + |r|] == (r + trail)[..|r|] == r;
    assert s[|lead| + |r|..] == trail;
  }

  lemma {:induction false} TrimStartOfSpacePrefix(lead: string, x: string)
    requires AllSpace(lead)
    ensures TrimStart(lead + x) == TrimStart(x)
  {
    if lead == [] {
      assert lead + x == x;
    } else {
      assert (lead + x)[1..] == lead[1..] + x;
      TrimStartOfSpacePrefix(lead[1..], x);
    }
  }

  lemma {:induction false} TrimStartAppend(x: string, y: string)
    requires !AllSpace(x)
    ensures TrimStart(x + y) == TrimStart(x) + y
  {
    if IsSpace(x[0]) {
      assert (x + y)[1..] == x[1..] + y;
      TrimStartAppend(x[1..], y);
    }
  }

  lemma {:induction false} TrimEndOfSpaceSuffix(x: string, trail: string)
    requires AllSpace(trail)
    ensures TrimEnd(x + trail) == TrimEnd(x)
  {
    if trail == [] {
      assert x + trail == x;
    } else {
      var t := trail[..|trail| - 1];
      assert (x + trail)[..|x + trail| - 1] == x + t;
      TrimEndOfSpaceSuffix(x, t);
    }
  }

  /** `trim` of white space, a word that starts and ends with non-space, and
      white space, is that word. */
  lemma TrimFramed(lead: string, x: string, trail: string)
    requires AllSpace(lead) && AllSpace(trail)
    requires x != [] && !IsSpace(x[0]) && !IsSpace(x[|x| - 1])
    ensures Trim(lead + x + trail) == x
  {
    assert lead + x + trail == lead + (x + trail);
    TrimStartOfSpacePrefix(lead, x + trail);
    assert TrimStart(x + trail) == x + trail;
    TrimEndOfSpaceSuffix(x, trail);
  }

  // ---------------------------------------------------------------- split_whitespace

  /** The leading run of non-space characters of `s`. */
  function Token(s: string): (t: string)
    ensures NoSpace(t) && |t| <= |s|
  {
    if s == [] || IsSpace(s[0]) then [] else [s[0]] + Token(s[1..])
  }

  /** What follows `Token(s)`. */
  function AfterToken(s: string): (r: string)
    ensures |r| <= |s|
    ensures s != [] && !IsSpace(s[0]) ==> |r| < |s|
    ensures r == [] || IsSpace(r[0])
  {
    if s == [] || IsSpace(s[0]) then s else AfterToken(s[1..])
  }

  lemma {:induction false} TokenSplits(s: string)
    ensures s == Token(s) + AfterToken(s)
  {
    if s != [] && !IsSpace(s[0]) {
      TokenSplits(s[1..]);
    }
  }

  lemma {:induction false} TokenOfWord(x: string, y: string)
    requires NoSpace(x)
    requires y == [] || IsSpace(y[0])
    ensures Token(x + y) == x && AfterToken(x + y) == y
  {
    if x == [] {
      assert x + y == y;
    } else {
      assert (x + y)[1..] == x[1..] + y;
      TokenOfWord(x[1..], y);
    }
  }

  lemma {:induction false} TokenAppend(x: string, y: string)
    requires !NoSpace(x)
    ensures Token(x + y) == Token(x) && AfterToken(x + y) == AfterToken(x) + y
  {
    if !IsSpace(x[0]) {
      assert (x + y)[1..] == x[1..] + y;
      TokenAppend(x[1..], y);
    }
  }

  /** `str::split_whitespace`: the maximal runs of non-space characters, in
      order; every field is non-empty and space-free. */
  function SplitWhitespace(s: string): (fields: seq<string>)
    ensures forall i :: 0 <= i < |fields| ==> fields[i] != [] && NoSpace(fields[i])
    decreases |s|
  {
    var t := TrimStart(s);
    if t == [] then [] else [Token(t)] + SplitWhitespace(AfterToken(t))
  }

  /** The concatenation of a sequence of strings. */
  function Concat(ss: seq<string>): string {
    if ss == [] then [] else ss[0] + Concat(ss[1..])
  }

  /** `s` with its white-space characters removed. */
  function WithoutSpaces(s: string): string {
    if s == [] then []
    else (if IsSpace(s[0]) then [] else [s[0]]) + WithoutSpaces(s[1..])
  }

  lemma {:induction false} WithoutSpacesAppend(a: string, b: string)
    ensures WithoutSpaces(a + b) == WithoutSpaces(a) + WithoutSpaces(b)
  {
    if a != [] {
      assert (a + b)[0] == a[0];
      assert (a + b)[1..] == a[1..] + b;
      WithoutSpacesAppend(a[1..], b);
    } else {
      assert a + b == b;
    }
  }

  lemma {:induction false} WithoutSpacesOfAllSpace(s: string)
    requires AllSpace(s)
    ensures WithoutSpaces(s) == []
  {
    if s != [] {
      WithoutSpacesOfAllSpace(s[1..]);
    }
  }

  lemma {:induction false} WithoutSpacesOfNoSpace(s: string)
    requires NoSpace(s)
    ensures WithoutSpaces(s) == s
  {
    if s != [] {
      WithoutSpacesOfNoSpace(s[1..]);
    }
  }

  lemma ConcatCons(x: string, rest: seq<string>)
    ensures Concat([x] + rest) == x + Concat(rest)
  {
    assert ([x] + rest)[1..] == rest;
  }

  lemma WithoutSpacesOfTrimStart(s: string)
    ensures WithoutSpaces(TrimStart(s)) == WithoutSpaces(s)
  {
    TrimStartRemovesPrefix(s);
    var lead := s[..|s| - |TrimStart(s)|];
    WithoutSpacesAppend(lead, TrimStart(s));
    WithoutSpacesOfAllSpace(lead);
  }

  lemma WithoutSpacesOfToken(s: string)
    ensures WithoutSpaces(s) == Token(s) + WithoutSpaces(AfterToken(s))
  {
    TokenSplits(s);
    WithoutSpacesAppend(Token(s), AfterToken(s));
    WithoutSpacesOfNoSpace(Token(s));
  }

  /** The fields glued together give `s` without its white space: no
      character is lost, added or reordered. */
  lemma {:induction false} SplitWhitespaceConcat(s: string)
    ensures Concat(SplitWhitespace(s)) == WithoutSpaces(s)
    decreases |s|
  {
    var t := TrimStart(s);
    WithoutSpacesOfTrimStart(s);
    if t != [] {
      SplitWhitespaceConcat(AfterToken(t));
      ConcatCons(Token(t), SplitWhitespace(AfterToken(t)));
      WithoutSpacesOfToken(t);
    }
  }

  lemma {:induction false} TrimStartEmpty(s: string)
    ensures TrimStart(s) == [] <==> AllSpace(s)
  {
    if s != [] && IsSpace(s[0]) {
      TrimStartEmpty(s[1..]);
      assert AllSpace(s) <==> AllSpace(s[1..]);
    }
  }

  /** There are no fields exactly when `s` is all white space. */
  lemma SplitWhitespaceEmpty(s: string)
    ensures SplitWhitespace(s) == [] <==> AllSpace(s)
  {
    TrimStartEmpty(s);
  }

  /** White space in front changes no field. */
  lemma SplitWhitespaceSkipsLeading(lead: string, x: string)
    requires AllSpace(lead)
    ensures SplitWhitespace(lead + x) == SplitWhitespace(x)
  {
    TrimStartOfSpacePrefix(lead, x);
  }

  /** White space at the end changes no field. */
  lemma {:induction false} SplitWhitespaceSkipsTrailing(x: string, trail: string)
    requires AllSpace(trail)
    ensures SplitWhitespace(x + trail) == SplitWhitespace(x)
    decreases |x|
  {
    TrimStartEmpty(x);
    if AllSpace(x) {
      assert AllSpace(x + trail);
      SplitWhitespaceEmpty(x);
      SplitWhitespaceEmpty(x + trail);
    } else {
      var t := TrimStart(x);
      TrimStartAppend(x, trail);
      if NoSpace(t) {
        TokenOfWord(t, trail);
        TokenOfWord(t, []);
        assert t + [] == t;
        SplitWhitespaceEmpty(trail);
        SplitWhitespaceEmpty([]);
      } else {
        TokenAppend(t, trail);
        SplitWhitespaceSkipsTrailing(AfterToken(t), trail);
      }
    }
  }

  /** `split_whitespace` after `trim` gives the same fields as without it. */
  lemma SplitWhitespaceOfTrim(s: string)
    ensures SplitWhitespace(Trim(s)) == SplitWhitespace(s)
  {
    var r := Trim(s);
    var k :| TrimmedAt(s, r, k);
    var lead, trail := s[..k], s[k + |r|..];
    assert s == lead + (r + trail);
    SplitWhitespaceSkipsLeading(lead, r + trail);
    SplitWhitespaceSkipsTrailing(r, trail);
  }

  /** A word followed by white space (or nothing) is the first field. */
  lemma SplitWhitespaceWord(a: string, rest: string)
    requires a != [] && NoSpace(a) && (rest == [] || IsSpace(rest[0]))
    ensures SplitWhitespace(a + rest) == [a] + SplitWhitespace(rest)
  {
    TokenOfWord(a, rest);
    SplitWhitespaceSkipsLeading([], rest);
    assert [] + rest == rest;
  }

  /** The fields of `a`, white space, `b`, white space are `a` and `b`. */
  lemma SplitWhitespaceTwoWords(a: string, sep: string, b: string, trail: string)
    requires a != [] && NoSpace(a) && b != [] && NoSpace(b)
    requires sep != [] && AllSpace(sep) && AllSpace(trail)
    ensures SplitWhitespace(a + sep + b + trail) == [a, b]
  {
    var bt := b + trail;
    var rest := sep + bt;
    assert rest[0] == sep[0];
    assert a + sep + b + trail == a + rest;
    SplitWhitespaceWord(a, rest);
    SplitWhitespaceSkipsLeading(sep, bt);
    SplitWhitespaceSkipsTrailing(b, trail);
    SplitWhitespaceOneWord(b);
  }

  /** A non-empty word without white space is its own only field. */
  lemma SplitWhitespaceOneWord(b: string)
    requires b != [] && NoSpace(b)
    ensures SplitWhitespace(b) == [b]
  {
    SplitWhitespaceWord(b, []);
    assert b + [] == b;
    SplitWhitespaceEmpty([]);
  }

  // ---------------------------------------------------------------- char search, lines, split

  /** Index of the first `c` in `s`, or `|s|` when there is none. */
  function IndexOf(s: string, c: char): (i: nat)
    ensures i <= |s|
    ensures i < |s| ==> s[i] == c
    ensures c !in s[..i]
  {
    if s == [] then 0
    else if s[0] == c then 0
    else
      var i := 1 + IndexOf(s[1..], c);
      assert s[..i] == [s[0]] + s[1..][..i - 1];
      i
  }

  /** `s` without one trailing `c`, when it ends with `c`. */
  function StripSuffix(s: string, c: char): string {
    if s != [] && s[|s| - 1] == c then s[..|s| - 1] else s
  }

  /** `str::lines`: split after every `'\n'`; a piece that ended with `'\n'`
      loses it and then one `'\r'` before it; a last piece without `'\n'` is
      kept as it is; a final empty piece is not a line. */
  function Lines(s: string): (ls: seq<string>)
    ensures forall k :: 0 <= k < |ls| ==> '\n' !in ls[k]
    ensures |ls| <= |s|
    ensures ls == [] <==> s == []
    decreases |s|
  {
    if s == [] then []
    else
      var i := IndexOf(s, '\n');
      if i == |s| then [s]
      else
        var rest := Lines(s[i + 1..]);
        var first := StripSuffix(s[..i], '\r');
        assert '\n' !in first by { assert first == s[..i] || first == s[..i][..i - 1]; }
        [first] + rest
  }

  /** `str::split(c)` collected: the pieces between the occurrences of `c`. */
  function Split(s: string, c: char): (parts: seq<string>)
    ensures |parts| >= 1
    ensures forall k :: 0 <= k < |parts| ==> c !in parts[k]
    ensures JoinWith(parts, c) == s
    decreases |s|
  {
    var i := IndexOf(s, c);
    if i == |s| then
      assert s[..i] == s;
      [s]
    else
      var rest := Split(s[i + 1..], c);
      var parts := [s[..i]] + rest;
      assert parts[1..] == rest;
      assert s == s[..i] + [c] + s[i + 1..];
      parts
  }

  /** Splitting at a first separator after a separator-free `x` gives `x`
      and the pieces of the rest. */
  lemma SplitAtFirst(x: string, c: char, y: string)
    requires c !in x
    ensures Split(x + [c] + y, c) == [x] + Split(y, c)
  {
    var s := x + [c] + y;
    assert s[..|x|] == x && s[|x|] == c;
    assert IndexOf(s, c) == |x|;
    assert s[|x| + 1..] == y;
  }

  /** The first line runs up to the first `'\n'` and loses one `'\r'`
      before it; the lines of the rest follow. With `LinesOfLine` and
      `Lines("") == []` this determines `Lines` on every text. */
  lemma LinesAtFirst(a: string, b: string)
    requires '\n' !in a
    ensures Lines(a + "\n" + b) == [StripSuffix(a, '\r')] + Lines(b)
  {
    var s := a + "\n" + b;
    assert s[..|a|] == a && s[|a|] == '\n';
    assert IndexOf(s, '\n') == |a|;
    assert s[|a| + 1..] == b;
  }

  /** Text without the separator is a single piece. */
  lemma SplitOfSeparatorFree(s: string, c: char)
    ensures c !in s ==> Split(s, c) == [s]
  {
    if c !in s {
      SplitCount(s, c);
      NoOccurrences(s, c);
      assert JoinWith(Split(s, c), c) == s;
    }
  }

  /** Text without `'\n'` is a single line. */
  lemma LinesOfLine(s: string)
    requires s != [] && '\n' !in s
    ensures Lines(s) == [s]
  {
    var i := IndexOf(s, '\n');
    assert !(i < |s|);
  }

  /** The pieces joined with `c` between them: the inverse of `Split`. */
  function JoinWith(parts: seq<string>, c: char): string {
    if parts == [] then []
    else if |parts| == 1 then parts[0]
    else parts[0] + [c] + JoinWith(parts[1..], c)
  }

  /** Number of occurrences of `c` in `s`. */
  function Occurrences(s: string, c: char): nat {
    if s == [] then 0 else (if s[0] == c then 1 else 0) + Occurrences(s[1..], c)
  }

  lemma {:induction false} OccurrencesAppend(a: string, b: string, c: char)
    ensures Occurrences(a + b, c) == Occurrences(a, c) + Occurrences(b, c)
  {
    if a != [] {
      assert (a + b)[0] == a[0];
      assert (a + b)[1..] == a[1..] + b;
      OccurrencesAppend(a[1..], b, c);
    } else {
      assert a + b == b;
    }
  }

  /** `Split` yields one piece more than there are separators. */
  lemma {:induction false} SplitCount(s: string, c: char)
    ensures |Split(s, c)| == Occurrences(s, c) + 1
    decreases |s|
  {
    var i := IndexOf(s, c);
    if i == |s| {
      NoOccurrences(s, c);
    } else {
      SplitCount(s[i + 1..], c);
      assert s == s[..i] + ([c] + s[i + 1..]);
      OccurrencesAppend(s[..i], [c] + s[i + 1..], c);
      OccurrencesAppend([c], s[i + 1..], c);
      NoOccurrences(s[..i], c);
    }
  }

  lemma {:induction false} NoOccurrences(s: string, c: char)
    requires c !in s
    ensures Occurrences(s, c) == 0
  {
    if s != [] {
      NoOccurrences(s[1..], c);
    }
  }

  // ---------------------------------------------------------------- starts_with, contains

  /** `str::starts_with`. */
  predicate StartsWith(s: string, prefix: string) {
    |prefix| <= |s| && s[..|prefix|] == prefix
  }

  /** `needle` occurs in `s` starting at index `i`. */
  predicate OccursAt(s: string, needle: string, i: int) {
    0 <= i <= |s| - |needle| && s[i..i + |needle|] == needle
  }

  /** `str::contains` for a string pattern. */
  predicate Contains(s: string, needle: string)
    decreases |s|
  {
    StartsWith(s, needle) || (s != [] && Contains(s[1..], needle))
  }

  /** `Contains` holds exactly when `needle` occurs at some index. */
  lemma {:induction false} ContainsAt(s: string, needle: string)
    ensures Contains(s, needle) <==> exists i :: OccursAt(s, needle, i)
    decreases |s|
  {
    if StartsWith(s, needle) {
      assert OccursAt(s, needle, 0);
    } else if s != [] {
      ContainsAt(s[1..], needle);
      if Contains(s[1..], needle) {
        var i :| OccursAt(s[1..], needle, i);
        assert s[i + 1..i + 1 + |needle|] == s[1..][i..i + |needle|];
        assert OccursAt(s, needle, i + 1);
      }
      if exists i :: OccursAt(s, needle, i) {
        var i :| OccursAt(s, needle, i);
        assert i != 0;
        assert s[1..][i - 1..i - 1 + |needle|] == s[i..i + |needle|];
        assert OccursAt(s[1..], needle, i - 1);
      }
    }
  }
}
