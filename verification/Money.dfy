/** Dollars and whole nano-dollars (internal/core/money.go). Floats are reals here. */
module Money {
  const NANO: real := 1000000000.0
  const MAX_NANO: int := 0x7fff_ffff_ffff_ffff

  /** Round half up, floor at zero, saturate at the largest 64-bit integer. */
  function ToNanoUSD(usd: real): (nano: int)
    ensures 0 <= nano <= MAX_NANO
  {
    if usd <= 0.0 then 0
    else
      var rounded := (usd * NANO + 0.5).Floor;
      if rounded >= MAX_NANO then MAX_NANO else rounded
  }

  function FromNanoUSD(nano: int): real {
    nano as real / NANO
  }

  /** Every whole amount survives the trip through dollars. */
  lemma RoundTrip(nano: int)
    requires nano <= MAX_NANO
    ensures ToNanoUSD(FromNanoUSD(nano)) == if nano < 0 then 0 else nano
  {}

  function Saturation(): real { (MAX_NANO as real - 0.5) / NANO }

  /** Below saturation the rounded amount is the nearest one: within half a nano-dollar,
      and an amount exactly between two goes up. */
  lemma Nearest(usd: real)
    requires 0.0 <= usd < Saturation()
    ensures -0.5 < ToNanoUSD(usd) as real - usd * 1_000_000_000.0 <= 0.5
    ensures ToNanoUSD(usd) < MAX_NANO
  {}

  lemma SaturatesExactly(usd: real)
    ensures ToNanoUSD(usd) == 9_223_372_036_854_775_807 <==>
            usd >= (9_223_372_036_854_775_807.0 - 0.5) / 1_000_000_000.0
  {}

  lemma Monotone(a: real, b: real)
    requires a <= b
    ensures ToNanoUSD(a) <= ToNanoUSD(b)
  {}

  /** The amount a request is settled at: the bill, as dollars again. */
  function Settled(bill: real): real { FromNanoUSD(ToNanoUSD(bill)) }

  /** The ledger record, the budget and the metric event each convert the settled
      dollars again; all three get the integer the bill was first rounded to. */
  lemma SettledOnce(bill: real)
    ensures ToNanoUSD(Settled(bill)) == ToNanoUSD(bill)
    ensures Settled(Settled(bill)) == Settled(bill)
  {}
}
