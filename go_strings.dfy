/** The five functions of Go's `strings` package that the request handler relies on:
    `Split(s, "\n")`, `Join(elems, "\n")`, `TrimSpace`, `HasPrefix` and `Contains`.
    Go strings are modelled as sequences of Unicode scalar values. */
module GoStrings {

  /** Go's `unicode.IsSpace`: the ASCII spaces '\t', '\n', '\v', '\f', '\r', ' ',
      the Latin-1 spaces U+0085 (NEL) and U+00A0 (NBSP) and the rest of Unicode's
      White_Space property. */
  predicate IsSpace(c: char) {
    || c == '\t' || c == '\n' || c == '\U{000B}' || c == '\U{000C}' || c == '\r' || c == ' '
    || c == '\U{0085}' || c == '\U{00A0}' || c == '\U{1680}'
    || ('\U{2000}' <= c <= '\U{200A}')
    || c == '\U{2028}' || c == '\U{2029}' || c == '\U{202F}' || c == '\U{205F}' || c == '\U{3000}'
  }

  predicate AllSpace(s: string) {
    forall i :: 0 <= i < |s| ==> IsSpace(s[i])
  }

  /** Number of occurrences of `c` in `s`. */
  function Count(s: string, c: char): nat {
    if s == [] then 0 else (if s[0] == c then 1 else 0) + Count(s[1..], c)
  }

  /** `strings.Join(lines, "\n")`. */
  function JoinLines(lines: seq<string>): string {
    if |lines| == 0 then ""
    else if |lines| == 1 then lines[0]
    else lines[0] + "\n" + JoinLines(lines[1..])
  }

  /** `strings.Split(s, "\n")`: the pieces between newlines. There is always one
      piece more than there are newlines, so "" gives [""] and a trailing newline
      gives a trailing empty piece; joining the pieces back gives `s`. */
  function SplitLines(s: string): (lines: seq<string>)
    ensures |lines| == Count(s, '\n') + 1
    ensures forall i :: 0 <= i < |lines| ==> '\n' !in lines[i]
    ensures JoinLines(lines) == s
  {
    if s == [] then [[]]
    else
      var rest := SplitLines(s[1..]);
      if s[0] == '\n' then
        assert [[]] + rest == [[]] + rest[..];
        var r := [[]] + rest;
        assert r[1..] == rest;
        r
      else
        var r := [[s[0]] + rest[0]] + rest[1..];
        assert r[1..] == rest[1..];
        assert JoinLines(r) == [s[0]] + JoinLines(rest) by {
          if |rest| > 1 {
            assert JoinLines(rest) == rest[0] + "\n" + JoinLines(rest[1..]);
          }
        }
        assert s == [s[0]] + s[1..];
        r
  }

  /** A newline-free piece is split into itself. */
  lemma {:induction false} SplitNoNewline(s: string)
    requires '\n' !in s
    ensures SplitLines(s) == [s]
  {
    if s != [] {
      SplitNoNewline(s[1..]);
      assert [s[0]] + s[1..] == s;
    }
  }

  /** Splitting text joined at a newline splits each side separately. */
  lemma {:induction false} SplitAtNewline(a: string, b: string)
    ensures SplitLines(a + "\n" + b) == SplitLines(a) + SplitLines(b)
  {
    var s := a + "\n" + b;
    if a == [] {
      assert s[0] == '\n' && s[1..] == b;
    } else {
      assert s[0] == a[0] && s[1..] == a[1..] + "\n" + b;
      SplitAtNewline(a[1..], b);
      if a[0] == '\n' {
        SplitStep(s);
        SplitStep(a);
      } else {
        SplitStepChar(s);
        SplitStepChar(a);
        var ra := SplitLines(a[1..]);
        assert SplitLines(s[1..]) == ra + SplitLines(b);
        assert (ra + SplitLines(b))[1..] == ra[1..] + SplitLines(b);
      }
    }
  }

  lemma SplitStep(s: string)
    requires s != [] && s[0] == '\n'
    ensures SplitLines(s) == [[]] + SplitLines(s[1..])
  {
  }

  lemma SplitStepChar(s: string)
    requires s != [] && s[0] != '\n'
    ensures SplitLines(s) == [[s[0]] + SplitLines(s[1..])[0]] + SplitLines(s[1..])[1..]
  {
  }

  /** The other half of the round trip: newline-free pieces come back from
      `Split(Join(lines, "\n"), "\n")` unchanged. */
  lemma {:induction false} SplitJoinLines(lines: seq<string>)
    requires |lines| >= 1
    requires forall i :: 0 <= i < |lines| ==> '\n' !in lines[i]
    ensures SplitLines(JoinLines(lines)) == lines
  {
    if |lines| == 1 {
      SplitNoNewline(lines[0]);
    } else {
      SplitJoinLines(lines[1..]);
      SplitNoNewline(lines[0]);
      SplitAtNewline(lines[0], JoinLines(lines[1..]));
      assert [lines[0]] + lines[1..] == lines;
    }
  }

  /** `strings.HasPrefix`. */
  predicate HasPrefix(s: string, prefix: string) {
    |prefix| <= |s| && s[..|prefix|] == prefix
  }

  /** `sub` occurs in `s` starting at index `i`. */
  predicate OccursAt(s: string, sub: string, i: int) {
    0 <= i <= |s| - |sub| && s[i..i + |sub|] == sub
  }

  /** `strings.Contains`: `sub` occurs somewhere in `s`. */
  function Contains(s: string, sub: string): (r: bool)
    ensures r <==> exists i :: OccursAt(s, sub, i)
  {
    if HasPrefix(s, sub) then
      assert OccursAt(s, sub, 0);
      true
    else if s == [] then false
    else
      var r := Contains(s[1..], sub);
      assert r ==> exists i :: OccursAt(s, sub, i) by {
        if r {
          var j :| OccursAt(s[1..], sub, j);
          assert s[1..][j..j + |sub|] == s[j + 1..j + 1 + |sub|];
          assert OccursAt(s, sub, j + 1);
        }
      }
      assert (exists i :: OccursAt(s, sub, i)) ==> r by {
        if exists i :: OccursAt(s, sub, i) {
          var j :| OccursAt(s, sub, j);
          assert j != 0;
          assert s[1..][j - 1..j - 1 + |sub|] == s[j..j + |sub|];
          assert OccursAt(s[1..], sub, j - 1);
        }
      }
      r
  }

  /** `sub` cannot occur in a string that lacks its first character. */
  lemma AbsentFirstCharNotContained(s: string, sub: string)
    requires |sub| > 0 && sub[0] !in s
    ensures !Contains(s, sub)
  {
    forall i | 0 <= i <= |s| - |sub|
      ensures !OccursAt(s, sub, i)
    {
      assert s[i..i + |sub|][0] == s[i] != sub[0];
    }
  }

  /** `strings.TrimSpace`: leading and trailing spaces dropped. What is left neither
      starts nor ends with a space. */
  function TrimSpace(s: string): (r: string)
    ensures |r| <= |s|
    ensures r == [] || (!IsSpace(r[0]) && !IsSpace(r[|r| - 1]))
    decreases |s|
  {
    if |s| > 0 && IsSpace(s[0]) then TrimSpace(s[1..])
    else if |s| > 0 && IsSpace(s[|s| - 1]) then TrimSpace(s[..|s| - 1])
    else s
  }

  /** `r` sits in `s` at index `i` with nothing but spaces on either side. */
  predicate SpacedAt(s: string, r: string, i: int) {
    0 <= i <= |s| - |r| && s[i..i + |r|] == r && AllSpace(s[..i]) && AllSpace(s[i + |r|..])
  }

  /** What `TrimSpace` leaves is a slice of `s` surrounded by spaces only. */
  lemma {:induction false} TrimSpaceShape(s: string)
    ensures exists i :: SpacedAt(s, TrimSpace(s), i)
    decreases |s|
  {
    var r := TrimSpace(s);
    if |s| > 0 && IsSpace(s[0]) {
      TrimSpaceShape(s[1..]);
      var i :| SpacedAt(s[1..], r, i);
      SpacedAtFront(s, r, i);
    } else if |s| > 0 && IsSpace(s[|s| - 1]) {
      TrimSpaceShape(s[..|s| - 1]);
      var i :| SpacedAt(s[..|s| - 1], r, i);
      SpacedAtBack(s, r, i);
    } else {
      assert SpacedAt(s, r, 0);
    }
  }

  lemma SpacedAtFront(s: string, r: string, i: int)
    requires |s| > 0 && IsSpace(s[0]) && SpacedAt(s[1..], r, i)
    ensures SpacedAt(s, r, i + 1)
  {
    assert s[i + 1..i + 1 + |r|] == s[1..][i..i + |r|];
    assert s[i + 1 + |r|..] == s[1..][i + |r|..];
    assert s[..i + 1] == [s[0]] + s[1..][..i];
  }

  lemma SpacedAtBack(s: string, r: string, i: int)
    requires |s| > 0 && IsSpace(s[|s| - 1]) && SpacedAt(s[..|s| - 1], r, i)
    ensures SpacedAt(s, r, i)
  {
    var t := s[..|s| - 1];
    assert s[i..i + |r|] == t[i..i + |r|];
    assert s[..i] == t[..i];
    assert s[i + |r|..] == t[i + |r|..] + [s[|s| - 1]];
  }

  /** Trimming twice is trimming once. */
  lemma TrimSpaceIdempotent(s: string)
    ensures TrimSpace(TrimSpace(s)) == TrimSpace(s)
  {
  }

  /** A line trims to nothing exactly when it is all spaces. */
  lemma {:induction false} TrimSpaceEmptyIff(s: string)
    ensures TrimSpace(s) == [] <==> AllSpace(s)
  {
    TrimSpaceShape(s);
    var i :| SpacedAt(s, TrimSpace(s), i);
    if TrimSpace(s) == [] {
      assert forall j :: 0 <= j < |s| ==> (j < i ==> s[j] == s[..i][j]) && (j >= i ==> s[j] == s[i..][j - i]);
    } else {
      assert s[i] == TrimSpace(s)[0];
    }
  }
}
