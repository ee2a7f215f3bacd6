/** The handful of JavaScript string operations the forms and listings use:
    `trim`, `split` on one character, `join`, `toLowerCase` and `includes`. */
module Text {

  /** The WhiteSpace and LineTerminator code points of ECMAScript, the ones
      `String.prototype.trim` strips from both ends. */
  predicate IsWhiteSpace(c: char) {
    c == ' ' || c == '\t' || c == '\n' || c == '\r' || c == '\U{B}' || c == '\U{C}' ||
    c == '\U{A0}' || c == '\U{1680}' || ('\U{2000}' <= c <= '\U{200A}') ||
    c == '\U{2028}' || c == '\U{2029}' || c == '\U{202F}' || c == '\U{205F}' ||
    c == '\U{3000}' || c == '\U{FEFF}'
  }

  predicate AllWhiteSpace(s: string) {
    forall i :: 0 <= i < |s| ==> IsWhiteSpace(s[i])
  }

  /** Neither end of `s` is white space: `s.trim() === s`. */
  predicate IsTrimmed(s: string) {
    s == [] || (!IsWhiteSpace(s[0]) && !IsWhiteSpace(s[|s| - 1]))
  }

  function TrimStart(s: string): (r: string)
    ensures |r| <= |s| && r == s[|s| - |r|..]
    ensures AllWhiteSpace(s[..|s| - |r|])
    ensures r == [] || !IsWhiteSpace(r[0])
    decreases |s|
  {
    if s != [] && IsWhiteSpace(s[0]) then
      var r := TrimStart(s[1..]);
      assert s[..|s| - |r|] == [s[0]] + s[1..][..|s| - 1 - |r|];
      r
    else
      s
  }

  function TrimEnd(s: string): (r: string)
    ensures |r| <= |s| && r == s[..|r|]
    ensures AllWhiteSpace(s[|r|..])
    ensures r == [] || !IsWhiteSpace(r[|r| - 1])
    decreases |s|
  {
    if s != [] && IsWhiteSpace(s[|s| - 1]) then
      var r := TrimEnd(s[..|s| - 1]);
      assert s[|r|..] == s[..|s| - 1][|r|..] + [s[|s| - 1]];
      r
    else
      s
  }

  /** How many leading characters `trim` drops. */
  function TrimOffset(s: string): nat {
    |s| - |TrimStart(s)|
  }

  /** `s.trim()`: the slice of `s` left once the white space at both ends is
      gone; what was cut off is white space only, and what is left is trimmed. */
  function Trim(s: string): (r: string)
    ensures IsTrimmed(r)
    ensures TrimOffset(s) + |r| <= |s| && r == s[TrimOffset(s)..TrimOffset(s) + |r|]
    ensures AllWhiteSpace(s[..TrimOffset(s)]) && AllWhiteSpace(s[TrimOffset(s) + |r|..])
  {
    var t := TrimStart(s);
    var r := TrimEnd(t);
    SliceOfSuffix(s, t, r);
    r
  }

  /** A prefix `r` of a suffix `t` of `s` is a slice of `s`, and what follows
      `r` in `t` is what follows it in `s`. */
  lemma SliceOfSuffix(s: string, t: string, r: string)
    requires |t| <= |s| && t == s[|s| - |t|..]
    requires |r| <= |t| && r == t[..|r|] && AllWhiteSpace(t[|r|..])
    ensures r == s[|s| - |t|..|s| - |t| + |r|]
    ensures AllWhiteSpace(s[|s| - |t| + |r|..])
  {
    assert s[|s| - |t| + |r|..] == t[|r|..];
  }

  /** A string with no white space at either end is left alone by `trim`. */
  lemma TrimOfTrimmed(s: string)
    requires IsTrimmed(s)
    ensures Trim(s) == s
  {
  }

  /** `trim` is idempotent. */
  lemma TrimIdempotent(s: string)
    ensures Trim(Trim(s)) == Trim(s)
  {
    TrimOfTrimmed(Trim(s));
  }

  lemma {:induction false} TrimStartSkipsWhiteSpace(p: string, x: string)
    requires AllWhiteSpace(p)
    ensures TrimStart(p + x) == TrimStart(x)
    decreases |p|
  {
    if p != [] {
      var px := p + x;
      assert px[0] == p[0];
      assert px[1..] == p[1..] + x;
      assert TrimStart(px) == TrimStart(px[1..]);
      TrimStartSkipsWhiteSpace(p[1..], x);
    } else {
      assert p + x == x;
    }
  }

  /** White space put in front of a trimmed string is removed again by `trim`. */
  lemma TrimWhiteSpacePrefix(p: string, x: string)
    requires AllWhiteSpace(p) && IsTrimmed(x)
    ensures Trim(p + x) == x
  {
    TrimStartSkipsWhiteSpace(p, x);
  }

  /** `s.split(sep)`: the pieces between occurrences of `sep`, in order. There
      is always at least one piece (`''.split(',')` is `['']`), and no piece
      holds the separator. */
  function Split(s: string, sep: char): (r: seq<string>)
    ensures |r| >= 1
    ensures forall i :: 0 <= i < |r| ==> sep !in r[i]
    decreases |s|
  {
    if s == [] then [""]
    else
      var rest := Split(s[1..], sep);
      if s[0] == sep then [""] + rest
      else [[s[0]] + rest[0]] + rest[1..]
  }

  /** The last piece of `s.split(sep)` is the text after the last separator,
      or all of `s` when there is none: it ends `s`, and it is either all of
      `s` or preceded by a separator. */
  lemma {:induction false} SplitLastPiece(s: string, sep: char)
    ensures var r := Split(s, sep); var l := r[|r| - 1];
            |l| <= |s| && s[|s| - |l|..] == l &&
            (|l| < |s| ==> s[|s| - |l| - 1] == sep) &&
            (|r| == 1 ==> l == s) &&
            (|r| > 1 ==> |l| < |s|)
    decreases |s|
  {
    if s != [] {
      SplitLastPiece(s[1..], sep);
      var rest := Split(s[1..], sep);
      var r := Split(s, sep);
      var l := r[|r| - 1];
      if s[0] == sep {
        assert r == [""] + rest;
        assert l == rest[|rest| - 1];
      } else if |rest| == 1 {
        assert r == [[s[0]] + rest[0]];
        assert l == [s[0]] + s[1..];
      } else {
        assert r == [[s[0]] + rest[0]] + rest[1..];
        assert l == rest[|rest| - 1];
      }
    }
  }

  /** `xs.join(sep)`. */
  function Join(xs: seq<string>, sep: string): string
    decreases |xs|
  {
    if xs == [] then ""
    else if |xs| == 1 then xs[0]
    else xs[0] + sep + Join(xs[1..], sep)
  }

  /** Splitting a string that starts with a separator-free prefix puts that
      prefix in front of the first piece. */
  lemma {:induction false} SplitPrefix(p: string, s: string, sep: char)
    requires sep !in p
    ensures Split(p + s, sep) == [p + Split(s, sep)[0]] + Split(s, sep)[1..]
    decreases |p|
  {
    if p == [] {
      var r := Split(s, sep);
      assert p + s == s;
      assert p + r[0] == r[0];
      assert r == [r[0]] + r[1..];
    } else {
      assert (p + s)[0] == p[0];
      assert (p + s)[1..] == p[1..] + s;
      SplitPrefix(p[1..], s, sep);
      assert [p[0]] + (p[1..] + Split(s, sep)[0]) == p + Split(s, sep)[0];
    }
  }

  lemma SplitAtSeparator(s: string, sep: char)
    ensures Split([sep] + s, sep) == [""] + Split(s, sep)
  {
    assert ([sep] + s)[1..] == s;
  }

  /** Joining the pieces of a split with the same separator gives the string
      back. */
  lemma {:induction false} JoinSplit(s: string, sep: char)
    ensures Join(Split(s, sep), [sep]) == s
    decreases |s|
  {
    if s != [] {
      var rest := Split(s[1..], sep);
      JoinSplit(s[1..], sep);
      if s[0] == sep {
        assert Join([""] + rest, [sep]) == "" + [sep] + Join(rest, [sep]);
        assert s == [s[0]] + s[1..];
      } else {
        var r := [[s[0]] + rest[0]] + rest[1..];
        if |rest| == 1 {
          assert Join(r, [sep]) == [s[0]] + rest[0];
        } else {
          assert Join(rest, [sep]) == rest[0] + [sep] + Join(rest[1..], [sep]);
          assert r[1..] == rest[1..];
          assert Join(r, [sep]) == [s[0]] + rest[0] + [sep] + Join(rest[1..], [sep]);
        }
        assert s == [s[0]] + s[1..];
      }
    }
  }

  /** Splitting a join of separator-free pieces gives the pieces back. */
  lemma {:induction false} SplitJoin(xs: seq<string>, sep: char)
    requires xs != []
    requires forall i :: 0 <= i < |xs| ==> sep !in xs[i]
    ensures Split(Join(xs, [sep]), sep) == xs
    decreases |xs|
  {
    assert xs[0] + "" == xs[0];
    if |xs| == 1 {
      SplitPrefix(xs[0], "", sep);
    } else {
      var tail := Join(xs[1..], [sep]);
      assert Join(xs, [sep]) == xs[0] + ([sep] + tail);
      SplitPrefix(xs[0], [sep] + tail, sep);
      SplitAtSeparator(tail, sep);
      SplitJoin(xs[1..], sep);
      assert Split([sep] + tail, sep) == [""] + xs[1..];
      assert xs == [xs[0]] + xs[1..];
    }
  }

  /** `c.toLowerCase()` on the ASCII letters; every other character is kept. */
  function LowerChar(c: char): char {
    if 'A' <= c <= 'Z' then (c as int + 32) as char else c
  }

  /** `s.toLowerCase()`, character by character. */
  function ToLower(s: string): (r: string)
    ensures |r| == |s|
    ensures forall i :: 0 <= i < |s| ==> r[i] == LowerChar(s[i])
  {
    seq(|s|, i requires 0 <= i < |s| => LowerChar(s[i]))
  }

  predicate StartsWith(s: string, prefix: string) {
    |prefix| <= |s| && s[..|prefix|] == prefix
  }

  /** `s.includes(sub)`, scanning the start positions left to right. */
  predicate Includes(s: string, sub: string)
    decreases |s|
  {
    StartsWith(s, sub) || (s != [] && Includes(s[1..], sub))
  }

  /** `sub` occurs in `s` starting at position `i`. */
  predicate OccursAt(s: string, sub: string, i: int) {
    0 <= i <= |s| - |sub| && s[i..i + |sub|] == sub
  }

  /** `includes` holds exactly when `sub` occurs at some position of `s`. */
  lemma {:induction false} IncludesAt(s: string, sub: string)
    ensures Includes(s, sub) <==> exists i :: OccursAt(s, sub, i)
    decreases |s|
  {
    if StartsWith(s, sub) {
      assert OccursAt(s, sub, 0);
    } else if s == [] {
    } else {
      IncludesAt(s[1..], sub);
      if Includes(s[1..], sub) {
        var j :| OccursAt(s[1..], sub, j);
        assert s[j + 1..j + 1 + |sub|] == sub;
        assert OccursAt(s, sub, j + 1);
      }
      if i :| OccursAt(s, sub, i) {
        assert i != 0;
        assert s[1..][i - 1..i - 1 + |sub|] == sub;
        assert OccursAt(s[1..], sub, i - 1);
      }
    }
  }
}
