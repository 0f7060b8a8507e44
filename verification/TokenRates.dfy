/** The rates of tokens: by tier, by the length of the prompt, with fallbacks
    (internal/core/pricing.go). */
module TokenRates {
  import opened Wrappers
  import opened Prices

  /** The tiers that are tried before any band. */
  function TierRate(p: PriceList, f: Family, total: int, tier: Tier): Option<real> {
    match tier
    case FastTier => if Token(f, Fast) in p then Some(p[Token(f, Fast)]) else None
    case FlexTier =>
      var banded := Rate(p, [Token(f, Above272kFlex), Token(f, FlexAbove272k)]);
      if total > ABOVE_272K && banded != 0.0 then Some(banded)
      else if Token(f, Flex) in p then Some(p[Token(f, Flex)]) else None
    case BatchTier =>
      if total > ABOVE_272K && Token(f, BatchesAbove272k) in p then Some(p[Token(f, BatchesAbove272k)])
      else if Token(f, Batches) in p then Some(p[Token(f, Batches)]) else None
    case _ => None
  }

  /** The rate of plain input or output tokens. */
  function TokenRate(p: PriceList, f: Family, total: int, tier: Tier): real {
    var tiered := TierRate(p, f, total, tier);
    if tiered.Some? then tiered.value else TokenBands(p, f, total, tier)
  }

  function HighBands(p: PriceList, f: Family, total: int, tier: Tier): Option<real> {
    if total > ABOVE_512K && Token(f, Above512k) in p then Some(p[Token(f, Above512k)])
    else if total > ABOVE_272K && tier == PriorityTier
      && Token(f, Above272kPriority) in p then Some(p[Token(f, Above272kPriority)])
    else if total > ABOVE_272K && Token(f, Above272k) in p then Some(p[Token(f, Above272k)])
    else None
  }

  function MiddleBands(p: PriceList, f: Family, total: int, tier: Tier): Option<real> {
    if total > ABOVE_200K && tier == PriorityTier
      && Token(f, Above200kPriority) in p then Some(p[Token(f, Above200kPriority)])
    else if total > ABOVE_200K && Token(f, Above200k) in p then Some(p[Token(f, Above200k)])
    else None
  }

  function TokenBands(p: PriceList, f: Family, total: int, tier: Tier): real {
    var high, middle := HighBands(p, f, total, tier), MiddleBands(p, f, total, tier);
    if high.Some? then high.value
    else if total > ABOVE_256K && Token(f, Above256k) in p then p[Token(f, Above256k)]
    else if middle.Some? then middle.value
    else if total > ABOVE_128K && Token(f, Above128k) in p then p[Token(f, Above128k)]
    else if tier == PriorityTier && Token(f, Priority) in p then p[Token(f, Priority)]
    else Rate(p, [Token(f, Base)])
  }

  function CacheReadRate(p: PriceList, total: int, tier: Tier): real {
    var tiered := TierRate(p, CacheRead, total, tier);
    if tiered.Some? then tiered.value else CacheReadBands(p, total, tier)
  }

  function CacheReadBands(p: PriceList, total: int, tier: Tier): real {
    var f := CacheRead;
    var high, middle := HighBands(p, f, total, tier), MiddleBands(p, f, total, tier);
    if high.Some? then high.value
    else if middle.Some? then middle.value
    else if tier == PriorityTier && Token(f, Priority) in p then p[Token(f, Priority)]
    else Rate(p, [Token(f, Base), CacheHit])
  }

  function LongTtlRate(p: PriceList, total: int, tier: Tier): Option<real> {
    var f := CacheCreation;
    if tier == FastTier && Token(f, LongTtlFast) in p then Some(p[Token(f, LongTtlFast)])
    else if tier == BatchTier && Token(f, LongTtlBatches) in p then Some(p[Token(f, LongTtlBatches)])
    else if total > ABOVE_200K && Token(f, LongTtlAbove200k) in p then Some(p[Token(f, LongTtlAbove200k)])
    else if Token(f, LongTtl) in p then Some(p[Token(f, LongTtl)])
    else None
  }

  function CacheCreationRate(p: PriceList, total: int, tier: Tier, longTtl: bool): real {
    var long := LongTtlRate(p, total, tier);
    var tiered := TierRate(p, CacheCreation, total, tier);
    if longTtl && long.Some? then long.value
    else if tiered.Some? then tiered.value
    else CacheCreationBands(p, total, tier)
  }

  function CacheCreationBands(p: PriceList, total: int, tier: Tier): real {
    var f := CacheCreation;
    if total > ABOVE_272K && Token(f, Above272k) in p then p[Token(f, Above272k)]
    else if total > ABOVE_200K && Token(f, Above200k) in p then p[Token(f, Above200k)]
    else if tier == PriorityTier && Token(f, Priority) in p then p[Token(f, Priority)]
    else Rate(p, [Token(f, Base)])
  }

  function AudioRate(p: PriceList, tier: Tier): real {
    if tier == PriorityTier && AudioInPriority in p then p[AudioInPriority] else Rate(p, [AudioIn])
  }

  // ---- What the rates mean: the most specific price that applies.

  /** The tier a price is for, if it is for one. */
  function TierOf(v: Variant): Option<Tier> {
    match v
    case Fast => Some(FastTier)
    case LongTtlFast => Some(FastTier)
    case Flex => Some(FlexTier)
    case Above272kFlex => Some(FlexTier)
    case FlexAbove272k => Some(FlexTier)
    case Batches => Some(BatchTier)
    case BatchesAbove272k => Some(BatchTier)
    case LongTtlBatches => Some(BatchTier)
    case Priority => Some(PriorityTier)
    case Above200kPriority => Some(PriorityTier)
    case Above272kPriority => Some(PriorityTier)
    case _ => None
  }

  /** The count a price starts above. */
  function BandOf(v: Variant): Option<int> {
    match v
    case Above128k => Some(128_000)
    case Above200k => Some(200_000)
    case Above200kPriority => Some(200_000)
    case LongTtlAbove200k => Some(200_000)
    case Above256k => Some(256_000)
    case Above512k => Some(512_000)
    case Above272k => Some(272_000)
    case Above272kPriority => Some(272_000)
    case Above272kFlex => Some(272_000)
    case FlexAbove272k => Some(272_000)
    case BatchesAbove272k => Some(272_000)
    case _ => None
  }

  predicate IsLongTtl(v: Variant) { v.LongTtl? || v.LongTtlFast? || v.LongTtlBatches? || v.LongTtlAbove200k? }

  /** The prices each family has. */
  predicate Has(f: Family, v: Variant) {
    match f
    case CacheRead => !IsLongTtl(v) && !v.Above128k? && !v.Above256k?
    case CacheCreation =>
      !v.Above128k? && !v.Above256k? && !v.Above512k? && !v.Above200kPriority? && !v.Above272kPriority?
    case _ => !IsLongTtl(v)
  }

  predicate Applies(v: Variant, total: int, tier: Tier, longTtl: bool) {
    && (TierOf(v).Some? ==> TierOf(v).value == tier)
    && (BandOf(v).Some? ==> total > BandOf(v).value)
    && (IsLongTtl(v) ==> longTtl)
  }

  /** Long-lived cache prices before tier prices before bands, high bands first, and in
      a band the priority price first. */
  function Rank(v: Variant): nat {
    match v
    case LongTtlFast => 10
    case LongTtlBatches => 10
    case LongTtlAbove200k => 9
    case LongTtl => 8
    case Above272kFlex => 7
    case FlexAbove272k => 6
    case BatchesAbove272k => 6
    case Fast => 5
    case Flex => 5
    case Batches => 5
    case _ => 4
  }

  /** Order among the prices of the last rank. */
  function Weight(v: Variant): int {
    (if BandOf(v).Some? then 2 * BandOf(v).value else 0) + if TierOf(v).Some? then 1 else 0
  }

  function Score(v: Variant): int { if Rank(v) > 4 then 10000000 * Rank(v) else Weight(v) }

  predicate Beats(v: Variant, w: Variant) { v == w || Score(v) > Score(w) }

  predicate Offered(p: PriceList, f: Family, v: Variant, total: int, tier: Tier, longTtl: bool) {
    Has(f, v) && Applies(v, total, tier, longTtl) && Token(f, v) in p
  }

  ghost predicate MostSpecific(p: PriceList, f: Family, v: Variant, total: int, tier: Tier, longTtl: bool) {
    && Offered(p, f, v, total, tier, longTtl)
    && forall w {:trigger Token(f, w)} ::
         Token(f, w) in p && Has(f, w) && Applies(w, total, tier, longTtl) ==> Beats(v, w)
  }

  /** A flexible-tier band price of zero is passed over, as if it were not set. */
  predicate ZeroFlexBand(p: PriceList, f: Family, total: int, tier: Tier) {
    tier == FlexTier && total > ABOVE_272K && (Token(f, Above272kFlex) in p || Token(f, FlexAbove272k) in p)
    && Rate(p, [Token(f, Above272kFlex), Token(f, FlexAbove272k)]) == 0.0
  }

  lemma FlexIsMostSpecific(p: PriceList, f: Family, total: int, longTtl: bool, v: Variant)
    requires MostSpecific(p, f, v, total, FlexTier, longTtl) && Rank(v) <= 7 && !ZeroFlexBand(p, f, total, FlexTier)
    ensures TierRate(p, f, total, FlexTier) == if Rank(v) == 4 then None else Some(p[Token(f, v)])
  {
    Pair(p, Token(f, Above272kFlex), Token(f, FlexAbove272k));
  }

  lemma TierIsMostSpecific(p: PriceList, f: Family, total: int, tier: Tier, longTtl: bool, v: Variant)
    requires MostSpecific(p, f, v, total, tier, longTtl) && Rank(v) <= 7 && !ZeroFlexBand(p, f, total, tier)
    ensures TierRate(p, f, total, tier) == if Rank(v) == 4 then None else Some(p[Token(f, v)])
  {
    if tier == FlexTier { FlexIsMostSpecific(p, f, total, longTtl, v); }
  }

  lemma HighBandIsMostSpecific(p: PriceList, f: Family, total: int, tier: Tier, v: Variant)
    requires f != CacheCreation && MostSpecific(p, f, v, total, tier, false) && Rank(v) == 4
    ensures HighBands(p, f, total, tier) == if Weight(v) >= 2 * ABOVE_272K then Some(p[Token(f, v)]) else None
  {}

  lemma MiddleBandIsMostSpecific(p: PriceList, f: Family, total: int, tier: Tier, v: Variant)
    requires f != CacheCreation && MostSpecific(p, f, v, total, tier, false) && Rank(v) == 4
        && Weight(v) < 2 * ABOVE_256K
    ensures MiddleBands(p, f, total, tier) == if Weight(v) >= 2 * ABOVE_200K then Some(p[Token(f, v)]) else None
  {}

  lemma TokenBandIsMostSpecific(p: PriceList, f: Family, total: int, tier: Tier, v: Variant)
    requires (f == Input || f == Output) && MostSpecific(p, f, v, total, tier, false) && Rank(v) == 4
    ensures TokenBands(p, f, total, tier) == p[Token(f, v)]
  {
    HighBandIsMostSpecific(p, f, total, tier, v);
    if Weight(v) < 2 * ABOVE_256K { MiddleBandIsMostSpecific(p, f, total, tier, v); }
  }

  lemma CacheReadBandIsMostSpecific(p: PriceList, total: int, tier: Tier, v: Variant)
    requires MostSpecific(p, CacheRead, v, total, tier, false) && Rank(v) == 4
    ensures CacheReadBands(p, total, tier) == p[Token(CacheRead, v)]
  {
    HighBandIsMostSpecific(p, CacheRead, total, tier, v);
    if Weight(v) < 2 * ABOVE_256K { MiddleBandIsMostSpecific(p, CacheRead, total, tier, v); }
  }

  lemma CacheCreationBandIsMostSpecific(p: PriceList, total: int, tier: Tier, longTtl: bool, v: Variant)
    requires MostSpecific(p, CacheCreation, v, total, tier, longTtl) && Rank(v) == 4
    ensures CacheCreationBands(p, total, tier) == p[Token(CacheCreation, v)]
  {}

  lemma LongTtlIsMostSpecific(p: PriceList, total: int, tier: Tier, v: Variant)
    requires MostSpecific(p, CacheCreation, v, total, tier, true)
    ensures LongTtlRate(p, total, tier) == if Rank(v) >= 8 then Some(p[Token(CacheCreation, v)]) else None
  {}

  lemma TokenRateIsMostSpecific(p: PriceList, f: Family, total: int, tier: Tier, v: Variant)
    requires (f == Input || f == Output) && MostSpecific(p, f, v, total, tier, false)
        && !ZeroFlexBand(p, f, total, tier)
    ensures TokenRate(p, f, total, tier) == p[Token(f, v)]
  {
    TierIsMostSpecific(p, f, total, tier, false, v);
    if Rank(v) == 4 { TokenBandIsMostSpecific(p, f, total, tier, v); }
  }

  lemma CacheReadRateIsMostSpecific(p: PriceList, total: int, tier: Tier, v: Variant)
    requires MostSpecific(p, CacheRead, v, total, tier, false) && !ZeroFlexBand(p, CacheRead, total, tier)
    ensures CacheReadRate(p, total, tier) == p[Token(CacheRead, v)]
  {
    TierIsMostSpecific(p, CacheRead, total, tier, false, v);
    if Rank(v) == 4 { CacheReadBandIsMostSpecific(p, total, tier, v); }
  }

  lemma CacheCreationRateIsMostSpecific(p: PriceList, total: int, tier: Tier, longTtl: bool, v: Variant)
    requires MostSpecific(p, CacheCreation, v, total, tier, longTtl) && !ZeroFlexBand(p, CacheCreation, total, tier)
    ensures CacheCreationRate(p, total, tier, longTtl) == p[Token(CacheCreation, v)]
  {
    if longTtl { LongTtlIsMostSpecific(p, total, tier, v); }
    if Rank(v) <= 7 { TierIsMostSpecific(p, CacheCreation, total, tier, longTtl, v); }
    if Rank(v) == 4 { CacheCreationBandIsMostSpecific(p, total, tier, longTtl, v); }
  }

  // ---- The cases the most specific price leaves open.

  function WithoutFlexBand(p: PriceList, f: Family): PriceList {
    p - {Token(f, Above272kFlex), Token(f, FlexAbove272k)}
  }

  /** A zero flexible-tier band price gives the rate of the list without it. */
  lemma ZeroFlexBandCountsAsUnset(p: PriceList, f: Family, total: int)
    requires ZeroFlexBand(p, f, total, FlexTier)
    ensures TierRate(p, f, total, FlexTier) == TierRate(WithoutFlexBand(p, f), f, total, FlexTier)
    ensures !ZeroFlexBand(WithoutFlexBand(p, f), f, total, FlexTier)
  {
    var q := WithoutFlexBand(p, f);
    Pair(q, Token(f, Above272kFlex), Token(f, FlexAbove272k));
  }

  lemma ZeroFlexBandRates(p: PriceList, f: Family, total: int, longTtl: bool)
    requires ZeroFlexBand(p, f, total, FlexTier)
    ensures f == Input || f == Output ==>
        TokenRate(p, f, total, FlexTier) == TokenRate(WithoutFlexBand(p, f), f, total, FlexTier)
    ensures f == CacheRead ==>
        CacheReadRate(p, total, FlexTier) == CacheReadRate(WithoutFlexBand(p, f), total, FlexTier)
    ensures f == CacheCreation ==>
      CacheCreationRate(p, total, FlexTier, longTtl) ==
        CacheCreationRate(WithoutFlexBand(p, f), total, FlexTier, longTtl)
  {
    ZeroFlexBandCountsAsUnset(p, f, total);
    var q := WithoutFlexBand(p, f);
    forall v | v != Above272kFlex && v != FlexAbove272k
      ensures Token(f, v) in q <==> Token(f, v) in p
      ensures Token(f, v) in p ==> q[Token(f, v)] == p[Token(f, v)]
    {}
    if f == CacheRead {
      Pair(p, Token(f, Base), CacheHit);
      Pair(q, Token(f, Base), CacheHit);
    } else {
      Single(p, Token(f, Base));
      Single(q, Token(f, Base));
    }
  }

  ghost predicate NothingOffered(p: PriceList, f: Family, total: int, tier: Tier, longTtl: bool) {
    forall v {:trigger Token(f, v)} :: Token(f, v) in p && Has(f, v) ==> !Applies(v, total, tier, longTtl)
  }

  /** Without any price that applies tokens are free, but cache reads still have the
      cache-hit price. */
  lemma NothingOfferedRates(p: PriceList, f: Family, total: int, tier: Tier, longTtl: bool)
    requires NothingOffered(p, f, total, tier, longTtl)
    ensures f == Input || f == Output ==> TokenRate(p, f, total, tier) == 0.0
    ensures f == CacheRead ==> CacheReadRate(p, total, tier) == if CacheHit in p then p[CacheHit] else 0.0
    ensures f == CacheCreation ==> CacheCreationRate(p, total, tier, longTtl) == 0.0
  {
    NoTierRate(p, f, total, tier, longTtl);
    match f
    case CacheRead => NoCacheReadBand(p, total, tier, longTtl);
    case CacheCreation => NoCacheCreationBand(p, total, tier, longTtl);
    case _ => NoTokenBand(p, f, total, tier, longTtl);
  }

  lemma NoTokenBand(p: PriceList, f: Family, total: int, tier: Tier, longTtl: bool)
    requires (f == Input || f == Output) && NothingOffered(p, f, total, tier, longTtl)
    ensures TokenBands(p, f, total, tier) == 0.0
  {
    Single(p, Token(f, Base));
  }

  lemma NoCacheReadBand(p: PriceList, total: int, tier: Tier, longTtl: bool)
    requires NothingOffered(p, CacheRead, total, tier, longTtl)
    ensures CacheReadBands(p, total, tier) == if CacheHit in p then p[CacheHit] else 0.0
  {
    Pair(p, Token(CacheRead, Base), CacheHit);
  }

  lemma NoCacheCreationBand(p: PriceList, total: int, tier: Tier, longTtl: bool)
    requires NothingOffered(p, CacheCreation, total, tier, longTtl)
    ensures CacheCreationBands(p, total, tier) == 0.0 && (longTtl ==> LongTtlRate(p, total, tier).None?)
  {
    Single(p, Token(CacheCreation, Base));
  }

  lemma NoTierRate(p: PriceList, f: Family, total: int, tier: Tier, longTtl: bool)
    requires NothingOffered(p, f, total, tier, longTtl)
    ensures TierRate(p, f, total, tier).None?
  {
    Pair(p, Token(f, Above272kFlex), Token(f, FlexAbove272k));
  }

  lemma Comparable(v: Variant, w: Variant, total: int, tier: Tier, longTtl: bool)
    requires Applies(v, total, tier, longTtl) && Applies(w, total, tier, longTtl)
    ensures Beats(v, w) || Beats(w, v)
  {}

  lemma Transitive(u: Variant, v: Variant, w: Variant)
    requires Beats(u, v) && Beats(v, w)
    ensures Beats(u, w)
  {}

  /** The most specific of the prices that apply exists as soon as one applies; so the
      lemmas above and the last one settle every rate. */
  lemma OneIsMostSpecific(p: PriceList, f: Family, total: int, tier: Tier, longTtl: bool)
    ensures NothingOffered(p, f, total, tier, longTtl) || exists v :: MostSpecific(p, f, v, total, tier, longTtl)
  {
    var vs := set v: Variant | Offered(p, f, v, total, tier, longTtl);
    if vs == {} {
      forall v | Token(f, v) in p && Has(f, v) ensures !Applies(v, total, tier, longTtl) { assert v !in vs; }
    } else {
      var v := Best(vs, total, tier, longTtl);
      forall w | Token(f, w) in p && Has(f, w) && Applies(w, total, tier, longTtl)
        ensures Beats(v, w) { assert w in vs; }
      assert MostSpecific(p, f, v, total, tier, longTtl);
    }
  }

  lemma {:induction false} Best(vs: set<Variant>, total: int, tier: Tier, longTtl: bool) returns (v: Variant)
    requires vs != {} && forall w :: w in vs ==> Applies(w, total, tier, longTtl)
    ensures v in vs && forall w :: w in vs ==> Beats(v, w)
    decreases |vs|
  {
    v :| v in vs;
    if vs != {v} {
      var u := Best(vs - {v}, total, tier, longTtl);
      Comparable(u, v, total, tier, longTtl);
      if Beats(u, v) {
        v := u;
      } else {
        forall w | w in vs - {v} ensures Beats(v, w) { Transitive(v, u, w); }
      }
    }
  }
}
