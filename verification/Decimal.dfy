/** Amounts printed with a fixed number of decimals and read back, as the usage ledger stores
    them.  An amount is an integer count of its last decimal. */
module Decimal {
  import opened Sums

  function Pow10(d: nat): nat
    ensures Pow10(d) >= 1
  {
    if d == 0 then 1 else 10 * Pow10(d - 1)
  }

  function Digit(n: nat): char
    requires n < 10
  {
    '0' + n as char
  }

  predicate IsDigit(c: char) { '0' <= c <= '9' }

  predicate AllDigits(s: string) { forall c :: c in s ==> IsDigit(c) }

  /** The last `d` digits, with leading zeros. */
  function Padded(n: nat, d: nat): (s: string)
    ensures |s| == d && AllDigits(s)
  {
    if d == 0 then "" else Padded(n / 10, d - 1) + [Digit(n % 10)]
  }

  function Digits(n: nat): (s: string)
    ensures s != "" && AllDigits(s)
  {
    if n < 10 then [Digit(n)] else Digits(n / 10) + [Digit(n % 10)]
  }

  function Value(s: string): nat
    requires AllDigits(s)
  {
    if s == "" then 0 else
      var last := s[|s| - 1];
      assert last in s;
      10 * Value(s[..|s| - 1]) + (last as nat - '0' as nat)
  }

  function Whole(n: nat, p: nat): nat
    requires p >= 1
  {
    n / p
  }

  function Part(n: nat, p: nat): (r: nat)
    requires p >= 1
    ensures r < p && Whole(n, p) * p + r == n
  {
    n % p
  }

  function Magnitude(n: nat, decimals: nat): string {
    Digits(Whole(n, Pow10(decimals))) + "." + Padded(Part(n, Pow10(decimals)), decimals)
  }

  function Format(n: int, decimals: nat): string {
    if n < 0 then "-" + Magnitude(-n, decimals) else Magnitude(n, decimals)
  }

  function Combined(whole: string, part: string): nat
    requires AllDigits(whole) && AllDigits(part)
  {
    Value(whole) * Pow10(|part|) + Value(part)
  }

  /** Reads digits, a point and exactly `decimals` digits. */
  function ParseMagnitude(s: string, decimals: nat): Option<nat> {
    var point := |s| - decimals - 1;
    if point < 1 || s[point] != '.' || !AllDigits(s[..point]) || !AllDigits(s[point + 1..]) then None
    else Some(Combined(s[..point], s[point + 1..]))
  }

  function Parse(s: string, decimals: nat): Option<int> {
    if s != "" && s[0] == '-' then
      var m := ParseMagnitude(s[1..], decimals);
      if m.None? then None else Some(-(m.value as int))
    else
      var m := ParseMagnitude(s, decimals);
      if m.None? then None else Some(m.value)
  }

  lemma {:induction false} DigitsReadBack(n: nat)
    ensures Value(Digits(n)) == n
  {
    if n < 10 {
      assert [Digit(n)][..0] == "";
    } else {
      DigitsReadBack(n / 10);
      assert Digits(n)[..|Digits(n)| - 1] == Digits(n / 10);
    }
  }

  lemma {:induction false} PaddedReadsBack(n: nat, d: nat)
    requires n < Pow10(d)
    ensures Value(Padded(n, d)) == n
  {
    if d > 0 {
      PaddedReadsBack(n / 10, d - 1);
      assert Padded(n, d)[..d - 1] == Padded(n / 10, d - 1);
    }
  }

  lemma MagnitudeReadsBack(n: nat, decimals: nat)
    ensures ParseMagnitude(Magnitude(n, decimals), decimals) == Some(n)
    ensures IsDigit(Magnitude(n, decimals)[0])
  {
    var p := Pow10(decimals);
    var whole, part := Digits(Whole(n, p)), Padded(Part(n, p), decimals);
    DigitsReadBack(Whole(n, p));
    PaddedReadsBack(Part(n, p), decimals);
    Joined(whole, part, decimals);
  }

  lemma Joined(whole: string, part: string, decimals: nat)
    requires whole != "" && |part| == decimals && AllDigits(whole) && AllDigits(part)
    ensures ParseMagnitude(whole + "." + part, decimals) == Some(Combined(whole, part))
    ensures IsDigit((whole + "." + part)[0])
  {
    var s := whole + "." + part;
    assert |s| - decimals - 1 == |whole| && s[|whole|] == '.';
    assert s[..|whole|] == whole && s[|whole| + 1..] == part;
    assert whole[0] in whole;
  }

  /** What was printed is read back exactly. */
  lemma FormatReadsBack(n: int, decimals: nat)
    ensures Parse(Format(n, decimals), decimals) == Some(n)
    ensures Format(n, decimals) != ""
  {
    MagnitudeReadsBack(if n < 0 then -n else n, decimals);
    if n < 0 {
      assert Format(n, decimals)[1..] == Magnitude(-n, decimals);
    }
  }
}
