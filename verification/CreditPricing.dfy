/** Credit prices in buckets of 20,000 tokens.

    Prices count millionths of a credit, amounts ten-thousandths, as the columns do. */
module CreditPricing {

  const BUCKET_TOKENS := 20_000

  function Buckets(tokens: int): (n: nat)
    ensures tokens > 0 ==> (n - 1) * BUCKET_TOKENS < tokens <= n * BUCKET_TOKENS
  {
    if tokens <= 0 then 0 else (tokens + BUCKET_TOKENS - 1) / BUCKET_TOKENS
  }

  /** Rounds half up from millionths to ten-thousandths. */
  function RoundCredits(millionths: nat): nat { (millionths + 50) / 100 }

  function ActualCredits(price: int, tokens: int): nat {
    if Buckets(tokens) == 0 || price <= 0 then 0 else RoundCredits(Buckets(tokens) * price)
  }

  function ReservedCredits(price: int, estimate: int): nat {
    if price <= 0 then 0 else ActualCredits(price, if estimate <= 0 then BUCKET_TOKENS else estimate)
  }

  /** What a charged request is billed on: never less than one token. */
  function BilledTokens(total: int, prompt: int, completion: int): int {
    if total > 0 then total else if prompt + completion > 0 then prompt + completion else 1
  }

  lemma BucketsMonotone(a: int, b: int)
    requires a <= b
    ensures Buckets(a) <= Buckets(b)
  {
  }

  lemma TimesMonotone(a: nat, b: nat, p: nat)
    requires a <= b
    ensures a * p <= b * p
  {
  }

  lemma RoundMonotone(a: nat, b: nat)
    requires a <= b
    ensures RoundCredits(a) <= RoundCredits(b)
  {
  }

  /** A request billed for no more tokens than estimated costs no more than it reserved. */
  lemma ActualWithinReservation(price: int, estimate: int, billed: int)
    requires billed <= estimate
    ensures ActualCredits(price, billed) <= ReservedCredits(price, estimate)
  {
    var e := if estimate <= 0 then BUCKET_TOKENS else estimate;
    BucketsMonotone(billed, e);
    if price > 0 {
      TimesMonotone(Buckets(billed), Buckets(e), price);
      RoundMonotone(Buckets(billed) * price, Buckets(e) * price);
    }
  }

  /** From a ten-thousandth of a credit per bucket on, the bucket counts decide. */
  lemma ActualWithinReservationIff(price: int, estimate: int, billed: int)
    requires price >= 100
    ensures ActualCredits(price, billed) <= ReservedCredits(price, estimate) <==>
            Buckets(billed) <= Buckets(if estimate <= 0 then BUCKET_TOKENS else estimate)
  {
    var e := if estimate <= 0 then BUCKET_TOKENS else estimate;
    var x, y := Buckets(billed), Buckets(e);
    assert y > 0;
    if x <= y {
      TimesMonotone(x, y, price);
      RoundMonotone(x * price, y * price);
    } else {
      TimesMonotone(y + 1, x, price);
      assert (y + 1) * price == y * price + price;
      RoundMonotone(y * price + 100, x * price);
      assert RoundCredits(y * price + 100) == RoundCredits(y * price) + 1;
    }
  }
}
