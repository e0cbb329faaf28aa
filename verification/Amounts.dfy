/** What a debit is worth, and how the ledger and the callback queue round it. */
module Amounts {
  import opened Sums

  /** Ten-thousandths of a credit, or US dollars. */
  datatype Amount = Credits(tenThousandths: int) | Usd(dollars: real)

  const MILLION := 1_000_000.0

  /** Millionths of a dollar, rounded to the nearest. */
  function Micro(cost: real): int {
    if cost >= 0.0 then (cost * MILLION + 0.5).Floor else -(-cost * MILLION + 0.5).Floor
  }

  /** Below half a millionth of a dollar a cost rounds to nothing; otherwise it is off by no more. */
  lemma MicroFacts(cost: real)
    ensures Micro(cost) > 0 <==> cost >= 0.000_000_5
    ensures Micro(cost) <= 1_000_000_000_000 <==> cost < 1_000_000.000_000_5
    ensures cost >= 0.0 ==> -0.000_000_5 < Micro(cost) as real / MILLION - cost <= 0.000_000_5
  {
    var x := cost * MILLION + 0.5;
    assert cost >= 0.0 ==> Micro(cost) as real <= x < Micro(cost) as real + 1.0;
  }

  predicate WholeMicros(cost: real) { (cost * MILLION).Floor as real == cost * MILLION }

  lemma MicroExactIff(cost: real)
    requires cost >= 0.0
    ensures Micro(cost) as real / MILLION == cost <==> WholeMicros(cost)
  {
    if WholeMicros(cost) {
      assert cost * MILLION + 0.5 == (cost * MILLION).Floor as real + 0.5;
      assert Micro(cost) == (cost * MILLION).Floor;
    } else {
      assert Micro(cost) as real == cost * MILLION ==> (cost * MILLION).Floor == Micro(cost);
    }
  }

  /** What the queue stores: nothing unless positive, dollars with six decimals. */
  function Stored(a: Amount): Amount {
    match a
    case Credits(n) => Credits(Max(n, 0))
    case Usd(cost) => Usd(if cost > 0.0 then Micro(cost) as real / MILLION else 0.0)
  }

  predicate Positive(a: Amount) { if a.Credits? then a.tenThousandths > 0 else a.dollars > 0.0 }

  predicate Exact(a: Amount) { a.Usd? ==> WholeMicros(a.dollars) }

  /** A positive amount is stored as it is exactly when it is a whole number of millionths. */
  lemma StoredExactIff(a: Amount)
    requires Positive(a)
    ensures Stored(a) == a <==> Exact(a)
  {
    if a.Usd? {
      MicroExactIff(a.dollars);
    }
  }

  ghost predicate Near(a: Amount, b: Amount) {
    if a.Credits? then b == a else b.Usd? && -0.000_000_5 <= b.dollars - a.dollars <= 0.000_000_5
  }

  /** In any case it is off by at most half a millionth of a dollar. */
  lemma StoredIsNear(a: Amount)
    requires Positive(a)
    ensures Near(a, Stored(a)) && (Positive(Stored(a)) <==> a.Credits? || a.dollars >= 0.000_000_5)
  {
    if a.Usd? {
      MicroFacts(a.dollars);
    }
  }
}
