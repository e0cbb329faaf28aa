/** Trimming, substring search and splitting, as the standard string library does them. */
module Text {

  /** White space in the sense of Unicode. */
  predicate IsSpace(c: char) {
    var n := c as int;
    || 9 <= n <= 13 || n == 32 || n == 0x85 || n == 0xA0 || n == 0x1680
    || 0x2000 <= n <= 0x200A || n == 0x2028 || n == 0x2029 || n == 0x202F || n == 0x205F || n == 0x3000
  }

  function TrimLeft(s: string): string {
    if s != "" && IsSpace(s[0]) then TrimLeft(s[1..]) else s
  }

  function TrimRight(s: string): string {
    if s != "" && IsSpace(s[|s| - 1]) then TrimRight(s[..|s| - 1]) else s
  }

  function Trim(s: string): string { TrimRight(TrimLeft(s)) }

  /** Only spaces trim to nothing. */
  lemma {:induction false} TrimLeftBlank(s: string)
    ensures TrimLeft(s) == "" <==> forall i :: 0 <= i < |s| ==> IsSpace(s[i])
    ensures TrimLeft(s) != "" ==> !IsSpace(TrimLeft(s)[0])
  {
    if s != "" && IsSpace(s[0]) {
      TrimLeftBlank(s[1..]);
      assert forall i :: 0 < i < |s| ==> s[i] == s[1..][i - 1];
    }
  }

  lemma {:induction false} TrimRightKeepsHead(s: string)
    requires s != "" && !IsSpace(s[0])
    ensures TrimRight(s) != "" && TrimRight(s)[0] == s[0]
  {
    if IsSpace(s[|s| - 1]) {
      TrimRightKeepsHead(s[..|s| - 1]);
    }
  }

  /** The trimmed text starts with the first character that is not a space, if there is one. */
  lemma TrimHead(s: string)
    ensures (Trim(s) == "") == (TrimLeft(s) == "")
    ensures Trim(s) != "" ==> Trim(s)[0] == TrimLeft(s)[0]
  {
    TrimLeftBlank(s);
    if TrimLeft(s) != "" {
      TrimRightKeepsHead(TrimLeft(s));
    }
  }

  // ----- substrings -----

  predicate At(s: string, i: int, sub: string) {
    0 <= i && i + |sub| <= |s| && s[i..i + |sub|] == sub
  }

  ghost predicate Contains(s: string, sub: string) { exists i :: At(s, i, sub) }

  /** The last occurrence starting at `n` or before, or -1. */
  function LastIndex(s: string, sub: string, n: int): (r: int)
    requires n >= -1
    ensures -1 <= r <= n && (r >= 0 ==> At(s, r, sub))
    ensures forall i :: r < i <= n ==> !At(s, i, sub)
  {
    if n < 0 || At(s, n, sub) then n else LastIndex(s, sub, n - 1)
  }

  /** Whether `sub` occurs at `n` or before. */
  function Occurs(s: string, sub: string): (b: bool)
    ensures b <==> Contains(s, sub)
  {
    LastIndex(s, sub, |s|) >= 0
  }

  /** Removes every occurrence of a non-empty marker, scanning from the left. */
  function Remove(s: string, marker: string): string
    requires marker != ""
    decreases |s|
  {
    if s == "" then ""
    else if At(s, 0, marker) then Remove(s[|marker|..], marker)
    else [s[0]] + Remove(s[1..], marker)
  }

  lemma {:induction false} RemoveAbsent(s: string, marker: string)
    requires marker != "" && !Contains(s, marker)
    ensures Remove(s, marker) == s
    decreases |s|
  {
    if s != "" {
      forall i | At(s[1..], i, marker) ensures false {
        assert s[1..][i..i + |marker|] == s[i + 1..i + 1 + |marker|];
        assert At(s, i + 1, marker);
      }
      RemoveAbsent(s[1..], marker);
    }
  }

  /** A marker that first occurs after `a`, and not in what follows it, is cut out exactly. */
  lemma {:induction false} RemoveOnce(a: string, marker: string, b: string)
    requires marker != "" && !Contains(b, marker)
    requires forall i :: 0 <= i < |a| ==> !At(a + marker + b, i, marker)
    ensures Remove(a + marker + b, marker) == a + b
    decreases |a|
  {
    var s := a + marker + b;
    if a == "" {
      assert s == marker + b && s[|marker|..] == b;
      RemoveAbsent(b, marker);
    } else {
      assert s[1..] == a[1..] + marker + b;
      forall i | 0 <= i < |a| - 1 ensures !At(a[1..] + marker + b, i, marker) {
        if At(s[1..], i, marker) {
          assert s[1..][i..i + |marker|] == s[i + 1..i + 1 + |marker|];
          assert At(s, i + 1, marker);
        }
      }
      RemoveOnce(a[1..], marker, b);
      assert s[0] == a[0] && [a[0]] + (a[1..] + b) == a + b;
    }
  }

  lemma Straddles(a: string, b: string, sub: string, i: int)
    requires At(a + b, i, sub) && i < |a| < i + |sub|
    ensures a[|a| - 1] in sub
  {
    assert sub[|a| - 1 - i] == (a + b)[|a| - 1];
  }

  lemma AtInPrefix(a: string, b: string, i: int, sub: string)
    requires At(a, i, sub)
    ensures At(a + b, i, sub)
  {
    assert (a + b)[i..i + |sub|] == a[i..i + |sub|];
  }

  lemma AtInSuffix(a: string, b: string, i: int, sub: string)
    requires At(b, i, sub)
    ensures At(a + b, |a| + i, sub)
  {
    assert (a + b)[|a| + i..|a| + i + |sub|] == b[i..i + |sub|];
  }

  /** Text without a line break cannot straddle the end of a line. */
  lemma ContainsSplit(a: string, b: string, sub: string)
    requires a == "" || a[|a| - 1] == '\n'
    requires sub != "" && '\n' !in sub
    ensures Contains(a + b, sub) <==> Contains(a, sub) || Contains(b, sub)
  {
    if i :| At(a, i, sub) {
      AtInPrefix(a, b, i, sub);
    }
    if i :| At(b, i, sub) {
      AtInSuffix(a, b, i, sub);
    }
    if i :| At(a + b, i, sub) {
      AtInEither(a, b, i, sub);
      if i < |a| < i + |sub| {
        Straddles(a, b, sub, i);
      }
    }
  }

  lemma AtInEither(a: string, b: string, i: int, sub: string)
    requires At(a + b, i, sub)
    ensures i + |sub| <= |a| ==> At(a, i, sub)
    ensures i >= |a| ==> At(b, i - |a|, sub)
  {
    if i + |sub| <= |a| {
      assert a[i..i + |sub|] == (a + b)[i..i + |sub|];
    } else if i >= |a| {
      assert b[i - |a|..i - |a| + |sub|] == (a + b)[i..i + |sub|];
    }
  }

  // ----- splitting -----

  lemma CutAround(s: string, i: int, sub: string)
    requires At(s, i, sub)
    ensures s == s[..i] + sub + s[i + |sub|..]
  {
    assert s == s[..i] + s[i..i + |sub|] + s[i + |sub|..];
  }

  /** The first occurrence starting at `n` or after, or -1. */
  function FirstIndex(s: string, sub: string, n: nat): (r: int)
    ensures r == -1 || (n <= r && At(s, r, sub))
    ensures forall i :: n <= i && (r == -1 || i < r) ==> !At(s, i, sub)
    decreases |s| - n
  {
    if At(s, n, sub) then n else if n >= |s| then -1 else FirstIndex(s, sub, n + 1)
  }

  /** The fields between the separators, found from the left without overlap. */
  function Split(s: string, sep: string): (fields: seq<string>)
    requires sep != ""
    ensures fields != []
    decreases |s|
  {
    var i := FirstIndex(s, sep, 0);
    if i < 0 then [s] else [s[..i]] + Split(s[i + |sep|..], sep)
  }

  lemma SplitFirst(a: string, sep: string, b: string)
    requires sep != "" && forall i :: 0 <= i < |a| ==> !At(a + sep + b, i, sep)
    ensures Split(a + sep + b, sep) == [a] + Split(b, sep)
  {
    var s := a + sep + b;
    assert At(s, |a|, sep);
    assert FirstIndex(s, sep, 0) == |a|;
    assert s[..|a|] == a && s[|a| + |sep|..] == b;
  }
}
