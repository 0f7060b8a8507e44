/** What a request costs (internal/core/pricing.go, internal/server/utils.go). */
module Pricing {
  import opened Wrappers
  import opened Money
  import opened Prices
  import opened TokenRates
  import opened UnitPrices

  // ---- The lines of a bill.

  datatype Usage = Usage(
    tier: Tier, longTtl: bool,
    input: int, cached: int, audioIn: int, imageIn: int,
    output: int, reasoning: int, audioOut: int, imageOut: int,
    cacheCreation: int, citation: int, cachedAudio: int, createdAudio: int, videoOut: int,
    units: Units)

  predicate CacheReadPriced(p: PriceList) { Token(CacheRead, Base) in p || CacheHit in p }
  predicate AudioPriced(p: PriceList) { AudioIn in p || AudioInPriority in p }

  function UncachedInput(p: PriceList, u: Usage): int {
    var n := u.input - (if CacheReadPriced(p) then u.cached else 0);
    var n := n - (if AudioPriced(p) then u.audioIn else 0);
    var n := n - (if ImageIn in p then u.imageIn else 0);
    if n < 0 then 0 else n
  }

  function PlainOutput(p: PriceList, u: Usage): int {
    var n := u.output - (if Reasoning in p then u.reasoning else 0);
    var n := n - (if AudioOut in p then u.audioOut else 0);
    var n := n - (if ImageOut in p then u.imageOut else 0);
    if n < 0 then 0 else n
  }

  function TokenLines(p: PriceList, u: Usage): seq<Line> {
    [ Line("input", "token", UncachedInput(p, u) as real, TokenRate(p, Input, u.input, u.tier)),
      Line("output", "token", PlainOutput(p, u) as real, TokenRate(p, Output, u.input, u.tier)),
      Line("input_cache_read", "token", u.cached as real, CacheReadRate(p, u.input, u.tier)),
      Line("input_cache_write", "token", u.cacheCreation as real, CacheCreationRate(p, u.input, u.tier, u.longTtl)),
      Line("reasoning", "token", u.reasoning as real, Rate(p, [Reasoning])),
      Line("citation", "token", u.citation as real, Rate(p, [Citation])),
      Line("input_audio", "token", u.audioIn as real, AudioRate(p, u.tier)),
      Line("output_audio", "token", u.audioOut as real, Rate(p, [AudioOut])),
      Line("input_audio_cache_read", "token", u.cachedAudio as real, Rate(p, [AudioCacheRead])),
      Line("input_audio_cache_write", "token", u.createdAudio as real, Rate(p, [AudioCacheCreation])),
      Line("input_image", "token", u.imageIn as real, Rate(p, [ImageIn])),
      Line("output_image", "token", u.imageOut as real, Rate(p, [ImageOut])),
      Line("output_video", "token", u.videoOut as real, Rate(p, [VideoOut])) ]
  }

  /** Every line, in order. */
  function CostLines(p: PriceList, u: Usage): seq<Line> {
    var tokens := TokenLines(p, u);
    tokens[..10] + FirstLines(p, u.units, u.input) + tokens[10..12] + MiddleLines(p, u.units, u.input)
    + tokens[12..] + LastLines(p, u.units)
  }

  predicate Shown(line: Line) { line.quantity != 0.0 && line.unitCost != 0.0 }

  function ShownLines(lines: seq<Line>): seq<Line> {
    if lines == [] then []
    else
      var last := lines[|lines| - 1];
      var front := ShownLines(lines[..|lines| - 1]);
      if Shown(last) then front + [last] else front
  }

  method CalculateCost(p: PriceList, u: Usage) returns (total: real)
    ensures total == Total(CostLines(p, u))
  {
    var lines := CostLines(p, u);
    total := 0.0;
    for i := 0 to |lines|
      invariant total == Total(lines[..i])
    {
      assert lines[..i + 1][..i] == lines[..i];
      total := total + Charge(lines[i]);
    }
    assert lines[..|lines|] == lines;
  }

  method CostBreakdown(p: PriceList, u: Usage) returns (shown: seq<Line>)
    ensures shown == ShownLines(CostLines(p, u))
  {
    var lines := CostLines(p, u);
    shown := [];
    for i := 0 to |lines|
      invariant shown == ShownLines(lines[..i])
    {
      assert lines[..i + 1][..i] == lines[..i];
      if Shown(lines[i]) { shown := shown + [lines[i]]; }
    }
    assert lines[..|lines|] == lines;
  }

  /** The lines a breakdown leaves out cost nothing, and it invents none: it shows the
      lines with a quantity and a price, as often as they occur. */
  lemma BreakdownAddsUp(lines: seq<Line>)
    ensures Total(ShownLines(lines)) == Total(lines)
    ensures forall l :: multiset(ShownLines(lines))[l] ==
              if l.quantity == 0.0 || l.unitCost == 0.0 then 0 else multiset(lines)[l]
  {
    ShownTotal(lines);
    forall l ensures multiset(ShownLines(lines))[l] ==
              if l.quantity == 0.0 || l.unitCost == 0.0 then 0 else multiset(lines)[l]
    {
      ShownTimes(lines, l);
    }
  }

  lemma {:induction false} ShownTotal(lines: seq<Line>)
    ensures Total(ShownLines(lines)) == Total(lines)
  {
    if lines != [] {
      var front, last := lines[..|lines| - 1], lines[|lines| - 1];
      ShownTotal(front);
      if Shown(last) { TotalOfOneMore(ShownLines(front), last); } else { HiddenIsFree(last); }
    }
  }

  lemma {:induction false} ShownTimes(lines: seq<Line>, l: Line)
    ensures multiset(ShownLines(lines))[l] == if Shown(l) then multiset(lines)[l] else 0
  {
    if lines != [] {
      var front, last := lines[..|lines| - 1], lines[|lines| - 1];
      ShownTimes(front, l);
      assert lines == front + [last];
    }
  }

  lemma TotalOfOneMore(lines: seq<Line>, line: Line)
    ensures Total(lines + [line]) == Total(lines) + Charge(line)
  {
    assert (lines + [line])[..|lines|] == lines;
  }

  lemma HiddenIsFree(line: Line)
    requires !Shown(line)
    ensures Charge(line) == 0.0
  {
    if line.quantity == 0.0 { assert 0.0 * line.unitCost == 0.0; }
  }

  // ---- The reference: every token of the prompt and of the answer, one by one.

  datatype InKind = PlainIn | CachedIn | CreatedIn | AudioKind | ImageKind
  datatype OutKind = PlainOut | ReasoningOut | AudioOutKind | ImageOutKind

  function Count<K(==)>(tokens: seq<K>, k: K): nat {
    if tokens == [] then 0
    else Count(tokens[..|tokens| - 1], k) + if tokens[|tokens| - 1] == k then 1 else 0
  }

  function Sum<K>(tokens: seq<K>, price: K -> real): real {
    if tokens == [] then 0.0 else Sum(tokens[..|tokens| - 1], price) + price(tokens[|tokens| - 1])
  }

  ghost predicate Describes(u: Usage, prompt: seq<InKind>, answer: seq<OutKind>) {
    && u.input == |prompt| && u.output == |answer|
    && u.cached == Count(prompt, CachedIn) && u.cacheCreation == Count(prompt, CreatedIn)
    && u.audioIn == Count(prompt, AudioKind) && u.imageIn == Count(prompt, ImageKind)
    && u.reasoning == Count(answer, ReasoningOut) && u.audioOut == Count(answer, AudioOutKind)
    && u.imageOut == Count(answer, ImageOutKind)
  }

  /** The lines that bill one prompt token. What is written to the cache is part of the
      prompt, and is never taken out of the plain line. */
  datatype InLine = InputLine | CacheReadLine | CacheWriteLine | AudioLine | ImageLine

  predicate Bills(p: PriceList, line: InLine, k: InKind) {
    match line
    case InputLine =>
      || k == PlainIn || k == CreatedIn || (k == CachedIn && !CacheReadPriced(p))
      || (k == AudioKind && !AudioPriced(p)) || (k == ImageKind && ImageIn !in p)
    case CacheReadLine => k == CachedIn
    case CacheWriteLine => k == CreatedIn
    case AudioLine => k == AudioKind
    case ImageLine => k == ImageKind
  }

  function LineRate(p: PriceList, u: Usage, line: InLine): real {
    match line
    case InputLine => TokenRate(p, Input, u.input, u.tier)
    case CacheReadLine => CacheReadRate(p, u.input, u.tier)
    case CacheWriteLine => CacheCreationRate(p, u.input, u.tier, u.longTtl)
    case AudioLine => AudioRate(p, u.tier)
    case ImageLine => Rate(p, [ImageIn])
  }

  function Billed(p: PriceList, u: Usage, line: InLine, k: InKind): real {
    if Bills(p, line, k) then LineRate(p, u, line) else 0.0
  }

  /** What one prompt token costs over all lines. */
  function InPrice(p: PriceList, u: Usage, k: InKind): real {
    Billed(p, u, InputLine, k) + Billed(p, u, CacheReadLine, k) + Billed(p, u, CacheWriteLine, k)
    + Billed(p, u, AudioLine, k) + Billed(p, u, ImageLine, k)
  }

  /** What one answer token costs: its own price where there is one. */
  function OutPrice(p: PriceList, u: Usage, k: OutKind): real {
    if k == ReasoningOut && Reasoning in p then p[Reasoning]
    else if k == AudioOutKind && AudioOut in p then p[AudioOut]
    else if k == ImageOutKind && ImageOut in p then p[ImageOut]
    else TokenRate(p, Output, u.input, u.tier)
  }

  /** What a prompt token costs, kind by kind. An audio price for the priority tier alone
      takes audio tokens out of the plain line and leaves them free in other tiers. */
  lemma PromptPrices(p: PriceList, u: Usage)
    ensures var plain := TokenRate(p, Input, u.input, u.tier);
            && InPrice(p, u, PlainIn) == plain
            && InPrice(p, u, CachedIn) == CacheReadRate(p, u.input, u.tier)
                 + (if Token(CacheRead, Base) in p || CacheHit in p then 0.0 else plain)
            && InPrice(p, u, CreatedIn) == plain + CacheCreationRate(p, u.input, u.tier, u.longTtl)
            && InPrice(p, u, AudioKind) == (if u.tier == PriorityTier && AudioInPriority in p then p[AudioInPriority]
                                            else if AudioIn in p then p[AudioIn]
                                            else if AudioInPriority in p then 0.0 else plain)
            && InPrice(p, u, ImageKind) == if ImageIn in p then p[ImageIn] else plain
  {
    InPrices(p, u);
    Single(p, ImageIn);
    Single(p, AudioIn);
  }

  /** The extra lines, written out. */
  lemma ExtraLines(p: PriceList, u: Usage)
    ensures ExtraCharge(p, u) ==
      u.citation as real * (if Citation in p then p[Citation] else 0.0)
      + u.cachedAudio as real * (if AudioCacheRead in p then p[AudioCacheRead] else 0.0)
      + u.createdAudio as real * (if AudioCacheCreation in p then p[AudioCacheCreation] else 0.0)
      + u.videoOut as real * (if VideoOut in p then p[VideoOut] else 0.0)
  {
    Single(p, Citation);
    Single(p, AudioCacheRead);
    Single(p, AudioCacheCreation);
    Single(p, VideoOut);
  }

  function Times(n: nat, r: real): real {
    if n == 0 then 0.0 else Times(n - 1, r) + r
  }

  lemma {:induction false} TimesIsProduct(n: nat, r: real)
    ensures Times(n, r) == n as real * r
  {
    if n > 0 { TimesIsProduct(n - 1, r); }
  }

  lemma {:induction false} SumByInKind(tokens: seq<InKind>, price: InKind -> real)
    ensures |tokens| == Count(tokens, PlainIn) + Count(tokens, CachedIn) + Count(tokens, CreatedIn)
        + Count(tokens, AudioKind) + Count(tokens, ImageKind)
    ensures Sum(tokens, price) ==
      Times(Count(tokens, PlainIn), price(PlainIn)) + Times(Count(tokens, CachedIn), price(CachedIn))
      + Times(Count(tokens, CreatedIn), price(CreatedIn))
      + Times(Count(tokens, AudioKind), price(AudioKind)) + Times(Count(tokens, ImageKind), price(ImageKind))
  {
    if tokens != [] {
      SumByInKind(tokens[..|tokens| - 1], price);
      match tokens[|tokens| - 1]
      case PlainIn =>
      case CachedIn =>
      case CreatedIn =>
      case AudioKind =>
      case ImageKind =>
    }
  }

  lemma {:induction false} SumByOutKind(tokens: seq<OutKind>, price: OutKind -> real)
    ensures |tokens| == Count(tokens, PlainOut) + Count(tokens, ReasoningOut) + Count(tokens, AudioOutKind)
        + Count(tokens, ImageOutKind)
    ensures Sum(tokens, price) ==
      Times(Count(tokens, PlainOut), price(PlainOut)) + Times(Count(tokens, ReasoningOut), price(ReasoningOut))
      + Times(Count(tokens, AudioOutKind), price(AudioOutKind))
        + Times(Count(tokens, ImageOutKind), price(ImageOutKind))
  {
    if tokens != [] {
      SumByOutKind(tokens[..|tokens| - 1], price);
      match tokens[|tokens| - 1]
      case PlainOut =>
      case ReasoningOut =>
      case AudioOutKind =>
      case ImageOutKind =>
    }
  }

  function InputCharge(p: PriceList, u: Usage): real {
    var lines := TokenLines(p, u);
    Charge(lines[0]) + Charge(lines[2]) + Charge(lines[3]) + Charge(lines[6]) + Charge(lines[10])
  }

  function OutputCharge(p: PriceList, u: Usage): real {
    var lines := TokenLines(p, u);
    Charge(lines[1]) + Charge(lines[4]) + Charge(lines[7]) + Charge(lines[11])
  }

  /** Lines for tokens that no prompt or answer count includes; the code never fills
      their counts from a provider's usage. */
  function ExtraCharge(p: PriceList, u: Usage): real {
    var lines := TokenLines(p, u);
    Charge(lines[5]) + Charge(lines[8]) + Charge(lines[9]) + Charge(lines[12])
  }

  /** One plain line and three own lines, against four prices. A kind taken out of the
      plain line is billed on its own line only. */
  lemma FourKinds(n0: nat, n1: nat, n2: nat, n3: nat, o1: bool, o2: bool, o3: bool, r: real, r1: real, r2: real,
    r3: real)
    ensures Times(n0 + (if o1 then 0 else n1) + (if o2 then 0 else n2) + (if o3 then 0 else n3), r)
              + Times(n1, r1) + Times(n2, r2) + Times(n3, r3)
         == Times(n0, r) + Times(n1, (if o1 then 0.0 else r) + r1)
              + Times(n2, (if o2 then 0.0 else r) + r2) + Times(n3, (if o3 then 0.0 else r) + r3)
  {
    var m1, m2, m3 := if o1 then 0 else n1, if o2 then 0 else n2, if o3 then 0 else n3;
    Split(n0 + m1 + m2, m3, r);
    Split(n0 + m1, m2, r);
    Split(n0, m1, r);
    Own(n1, o1, r, r1);
    Own(n2, o2, r, r2);
    Own(n3, o3, r, r3);
  }

  /** And one more kind that is never taken out. */
  lemma FiveKinds(n0: nat, n: nat, n1: nat, n2: nat, n3: nat, o1: bool, o2: bool, o3: bool,
                  r: real, own: real, r1: real, r2: real, r3: real)
    ensures Times(n0 + n + (if o1 then 0 else n1) + (if o2 then 0 else n2) + (if o3 then 0 else n3), r)
              + Times(n1, r1) + Times(n, own) + Times(n2, r2) + Times(n3, r3)
         == Times(n0, r) + Times(n1, (if o1 then 0.0 else r) + r1) + Times(n, r + own)
              + Times(n2, (if o2 then 0.0 else r) + r2) + Times(n3, (if o3 then 0.0 else r) + r3)
  {
    FourKinds(n0 + n, n1, n2, n3, o1, o2, o3, r, r1, r2, r3);
    Split(n0, n, r);
    Own(n, false, r, own);
  }

  lemma {:induction false} Split(a: nat, b: nat, r: real)
    ensures Times(a + b, r) == Times(a, r) + Times(b, r)
  {
    if b > 0 { Split(a, b - 1, r); }
  }

  lemma {:induction false} Own(n: nat, out: bool, r: real, own: real)
    ensures Times(n, (if out then 0.0 else r) + own) == Times(if out then 0 else n, r) + Times(n, own)
  {
    if n > 0 { Own(n - 1, out, r, own); }
  }

  lemma ChargeIsTimes(line: Line, n: nat)
    requires line.quantity == n as real
    ensures Charge(line) == Times(n, line.unitCost)
  {
    TimesIsProduct(n, line.unitCost);
  }

  lemma InputLines(p: PriceList, u: Usage)
    requires u.cached >= 0 && u.cacheCreation >= 0 && u.audioIn >= 0 && u.imageIn >= 0
    ensures InputCharge(p, u) ==
      Times(UncachedInput(p, u), LineRate(p, u, InputLine)) + Times(u.cached, LineRate(p, u, CacheReadLine))
      + Times(u.cacheCreation, LineRate(p, u, CacheWriteLine))
      + Times(u.audioIn, LineRate(p, u, AudioLine)) + Times(u.imageIn, LineRate(p, u, ImageLine))
  {
    var lines := TokenLines(p, u);
    ChargeIsTimes(lines[0], UncachedInput(p, u));
    ChargeIsTimes(lines[2], u.cached);
    ChargeIsTimes(lines[3], u.cacheCreation);
    ChargeIsTimes(lines[6], u.audioIn);
    ChargeIsTimes(lines[10], u.imageIn);
    assert InputCharge(p, u) ==
      Charge(lines[0]) + Charge(lines[2]) + Charge(lines[3]) + Charge(lines[6]) + Charge(lines[10]);
  }

  lemma InPrices(p: PriceList, u: Usage)
    ensures var r := LineRate(p, u, InputLine);
            && InPrice(p, u, PlainIn) == r
            && InPrice(p, u, CachedIn) == (if CacheReadPriced(p) then 0.0 else r) + LineRate(p, u, CacheReadLine)
            && InPrice(p, u, CreatedIn) == r + LineRate(p, u, CacheWriteLine)
            && InPrice(p, u, AudioKind) == (if AudioPriced(p) then 0.0 else r) + LineRate(p, u, AudioLine)
            && InPrice(p, u, ImageKind) == (if ImageIn in p then 0.0 else r) + LineRate(p, u, ImageLine)
  {}

  lemma InputIsPerToken(p: PriceList, u: Usage, prompt: seq<InKind>, answer: seq<OutKind>)
    requires Describes(u, prompt, answer)
    ensures InputCharge(p, u) == Sum(prompt, k => InPrice(p, u, k))
  {
    var price := (k: InKind) => InPrice(p, u, k);
    InputLines(p, u);
    InPrices(p, u);
    SumByInKind(prompt, price);
    var plain, created := Count(prompt, PlainIn), Count(prompt, CreatedIn);
    var r := LineRate(p, u, InputLine);
    assert UncachedInput(p, u) ==
      plain + created + (if CacheReadPriced(p) then 0 else u.cached) + (if AudioPriced(p) then 0 else u.audioIn)
        + (if ImageIn in p then 0 else u.imageIn);
    FiveKinds(plain, created, u.cached, u.audioIn, u.imageIn, CacheReadPriced(p), AudioPriced(p), ImageIn in p,
              r, LineRate(p, u, CacheWriteLine), LineRate(p, u, CacheReadLine), LineRate(p, u, AudioLine),
              LineRate(p, u, ImageLine));
  }

  lemma OutputLines(p: PriceList, u: Usage)
    requires u.reasoning >= 0 && u.audioOut >= 0 && u.imageOut >= 0
    ensures OutputCharge(p, u) ==
      Times(PlainOutput(p, u), OutPrice(p, u, PlainOut)) + Times(u.reasoning, Rate(p, [Reasoning]))
      + Times(u.audioOut, Rate(p, [AudioOut])) + Times(u.imageOut, Rate(p, [ImageOut]))
  {
    var lines := TokenLines(p, u);
    ChargeIsTimes(lines[1], PlainOutput(p, u));
    ChargeIsTimes(lines[4], u.reasoning);
    ChargeIsTimes(lines[7], u.audioOut);
    ChargeIsTimes(lines[11], u.imageOut);
    assert OutputCharge(p, u) == Charge(lines[1]) + Charge(lines[4]) + Charge(lines[7]) + Charge(lines[11]);
  }

  lemma OutPrices(p: PriceList, u: Usage)
    ensures var r := OutPrice(p, u, PlainOut);
            && OutPrice(p, u, ReasoningOut) == (if Reasoning in p then 0.0 else r) + Rate(p, [Reasoning])
            && OutPrice(p, u, AudioOutKind) == (if AudioOut in p then 0.0 else r) + Rate(p, [AudioOut])
            && OutPrice(p, u, ImageOutKind) == (if ImageOut in p then 0.0 else r) + Rate(p, [ImageOut])
  {
    Single(p, Reasoning);
    Single(p, AudioOut);
    Single(p, ImageOut);
  }

  lemma OutputIsPerToken(p: PriceList, u: Usage, prompt: seq<InKind>, answer: seq<OutKind>)
    requires Describes(u, prompt, answer)
    ensures OutputCharge(p, u) == Sum(answer, k => OutPrice(p, u, k))
  {
    var price := (k: OutKind) => OutPrice(p, u, k);
    OutputLines(p, u);
    OutPrices(p, u);
    SumByOutKind(answer, price);
    var plain := Count(answer, PlainOut);
    assert PlainOutput(p, u) ==
      plain + (if Reasoning in p then 0 else u.reasoning) + (if AudioOut in p then 0 else u.audioOut)
        + (if ImageOut in p then 0 else u.imageOut);
    FourKinds(plain, u.reasoning, u.audioOut, u.imageOut, Reasoning in p, AudioOut in p, ImageOut in p,
              OutPrice(p, u, PlainOut), Rate(p, [Reasoning]), Rate(p, [AudioOut]), Rate(p, [ImageOut]));
  }

  lemma LinesAddUp(p: PriceList, u: Usage)
    ensures Total(CostLines(p, u)) == InputCharge(p, u) + OutputCharge(p, u) + ExtraCharge(p, u)
        + UnitCharge(p, u.units, u.input)
  {
    var tokens := TokenLines(p, u);
    var first, middle, last := FirstLines(p, u.units, u.input), MiddleLines(p, u.units, u.input), LastLines(p, u.units);
    Interleaved(tokens[..10], first, tokens[10..12], middle, tokens[12..], last);
    assert tokens[..10] + tokens[10..12] + tokens[12..] == tokens;
    Thirteen(tokens);
  }

  lemma Interleaved(a: seq<Line>, x: seq<Line>, b: seq<Line>, y: seq<Line>, c: seq<Line>, z: seq<Line>)
    ensures Total(a + x + b + y + c + z) == Total(a + b + c) + Total(x) + Total(y) + Total(z)
  {
    TotalOfConcat(a + x + b + y + c, z);
    TotalOfConcat(a + x + b + y, c);
    TotalOfConcat(a + x + b, y);
    TotalOfConcat(a + x, b);
    TotalOfConcat(a, x);
    TotalOfConcat(a + b, c);
    TotalOfConcat(a, b);
  }

  lemma Thirteen(lines: seq<Line>)
    requires |lines| == 13
    ensures Total(lines) ==
      Charge(lines[0]) + Charge(lines[1]) + Charge(lines[2]) + Charge(lines[3]) + Charge(lines[4]) + Charge(lines[5])
      + Charge(lines[6]) + Charge(lines[7]) + Charge(lines[8]) + Charge(lines[9]) + Charge(lines[10])
      + Charge(lines[11]) + Charge(lines[12])
  {
    TotalIsSum(lines);
    ThirteenNumbers(Charges(lines));
  }

  lemma ThirteenNumbers(c: seq<real>)
    requires |c| == 13
    ensures SumOf(c) == c[0] + c[1] + c[2] + c[3] + c[4] + c[5] + c[6] + c[7] + c[8] + c[9] + c[10] + c[11] + c[12]
  {
    Four(c, 0);
    Four(c, 4);
    Four(c, 8);
    UpTo(c, 12);
    assert c[..0] == [] && c[..13] == c;
  }

  function Charges(lines: seq<Line>): (c: seq<real>)
    ensures |c| == |lines| && forall i :: 0 <= i < |c| ==> c[i] == Charge(lines[i])
  {
    if lines == [] then [] else Charges(lines[..|lines| - 1]) + [Charge(lines[|lines| - 1])]
  }

  function SumOf(c: seq<real>): real {
    if c == [] then 0.0 else SumOf(c[..|c| - 1]) + c[|c| - 1]
  }

  lemma {:induction false} TotalIsSum(lines: seq<Line>)
    ensures Total(lines) == SumOf(Charges(lines))
  {
    if lines != [] {
      var front := lines[..|lines| - 1];
      TotalIsSum(front);
      assert Charges(lines)[..|lines| - 1] == Charges(front);
    }
  }

  lemma Four(c: seq<real>, i: nat)
    requires i + 4 <= |c|
    ensures SumOf(c[..i + 4]) == SumOf(c[..i]) + c[i] + c[i + 1] + c[i + 2] + c[i + 3]
  {
    UpTo(c, i);
    UpTo(c, i + 1);
    UpTo(c, i + 2);
    UpTo(c, i + 3);
  }

  lemma UpTo(c: seq<real>, i: nat)
    requires i < |c|
    ensures SumOf(c[..i + 1]) == SumOf(c[..i]) + c[i]
  {
    assert c[..i + 1][..i] == c[..i];
  }

  function PerTokenBill(p: PriceList, u: Usage, prompt: seq<InKind>, answer: seq<OutKind>): real {
    Sum(prompt, k => InPrice(p, u, k)) + Sum(answer, k => OutPrice(p, u, k)) + ExtraCharge(p, u)
      + UnitCharge(p, u.units, u.input)
  }

  /** The bill is the sum, token by token, of the prompt and the answer, plus the extra
      token lines and the unit lines. */
  lemma BillIsPerToken(p: PriceList, u: Usage, prompt: seq<InKind>, answer: seq<OutKind>)
    requires Describes(u, prompt, answer)
    ensures Total(CostLines(p, u)) == PerTokenBill(p, u, prompt, answer)
  {
    LinesAddUp(p, u);
    InputIsPerToken(p, u, prompt, answer);
    OutputIsPerToken(p, u, prompt, answer);
  }

  // ---- Which usages those are, and when a token is billed twice.

  /** Counts that fit: the special tokens are part of the totals. */
  predicate Fits(u: Usage) {
    && u.cached >= 0 && u.cacheCreation >= 0 && u.audioIn >= 0 && u.imageIn >= 0
    && u.cached + u.cacheCreation + u.audioIn + u.imageIn <= u.input
    && u.reasoning >= 0 && u.audioOut >= 0 && u.imageOut >= 0 && u.reasoning + u.audioOut + u.imageOut <= u.output
  }

  function Repeat<K>(k: K, n: nat): (s: seq<K>)
    ensures |s| == n
  {
    if n == 0 then [] else Repeat(k, n - 1) + [k]
  }

  lemma {:induction false} CountRepeat<K>(k: K, n: nat, l: K)
    ensures Count(Repeat(k, n), l) == if k == l then n else 0
  {
    if n > 0 {
      CountRepeat(k, n - 1, l);
      assert Repeat(k, n)[..n - 1] == Repeat(k, n - 1);
    }
  }

  lemma {:induction false} CountConcat<K>(a: seq<K>, b: seq<K>, k: K)
    ensures Count(a + b, k) == Count(a, k) + Count(b, k)
  {
    if b == [] {
      assert a + b == a;
    } else {
      CountConcat(a, b[..|b| - 1], k);
      assert (a + b)[..|a + b| - 1] == a + b[..|b| - 1];
    }
  }

  lemma Mixture<K>(k0: K, n0: nat, k1: K, n1: nat, k2: K, n2: nat, k3: K, n3: nat) returns (s: seq<K>)
    requires k0 != k1 && k0 != k2 && k0 != k3 && k1 != k2 && k1 != k3 && k2 != k3
    ensures |s| == n0 + n1 + n2 + n3
    ensures Count(s, k1) == n1 && Count(s, k2) == n2 && Count(s, k3) == n3
    ensures forall k :: k !in [k0, k1, k2, k3] ==> Count(s, k) == 0
  {
    var a, b := Repeat(k0, n0) + Repeat(k1, n1), Repeat(k2, n2) + Repeat(k3, n3);
    s := a + b;
    forall k | k != k0
      ensures Count(s, k) == (if k == k1 then n1 else 0) + (if k == k2 then n2 else 0) + if k == k3 then n3 else 0
    {
      CountConcat(a, b, k);
      CountConcat(Repeat(k0, n0), Repeat(k1, n1), k);
      CountConcat(Repeat(k2, n2), Repeat(k3, n3), k);
      CountRepeat(k0, n0, k); CountRepeat(k1, n1, k); CountRepeat(k2, n2, k); CountRepeat(k3, n3, k);
    }
  }

  /** The per-token account covers exactly the usages whose counts fit. */
  lemma FitsIffDescribed(u: Usage)
    ensures Fits(u) <==> exists prompt, answer :: Describes(u, prompt, answer)
  {
    if Fits(u) {
      var others := Mixture(PlainIn, u.input - u.cached - u.cacheCreation - u.audioIn - u.imageIn, CachedIn, u.cached,
        AudioKind, u.audioIn, ImageKind, u.imageIn);
      var prompt := others + Repeat(CreatedIn, u.cacheCreation);
      forall k ensures Count(prompt, k) == Count(others, k) + if k == CreatedIn then u.cacheCreation else 0 {
        CountConcat(others, Repeat(CreatedIn, u.cacheCreation), k);
        CountRepeat(CreatedIn, u.cacheCreation, k);
      }
      var answer := Mixture(PlainOut, u.output - u.reasoning - u.audioOut - u.imageOut, ReasoningOut, u.reasoning,
        AudioOutKind, u.audioOut, ImageOutKind, u.imageOut);
      assert Describes(u, prompt, answer);
    }
    forall prompt, answer | Describes(u, prompt, answer) ensures Fits(u) {
      SumByInKind(prompt, k => 0.0);
      SumByOutKind(answer, k => 0.0);
    }
  }

  /** At most one line with a price bills the token. */
  ghost predicate BilledOnce(p: PriceList, u: Usage, k: InKind) {
    forall l, m :: Bills(p, l, k) && Bills(p, m, k) && LineRate(p, u, l) != 0.0 && LineRate(p, u, m) != 0.0 ==> l == m
  }

  /** A tier or band price for cache reads without a base one leaves the cached tokens
      in the input line as well. */
  predicate OrphanCachePrice(p: PriceList, u: Usage) {
    !CacheReadPriced(p) && CacheReadRate(p, u.input, u.tier) != 0.0
  }

  /** A price for cache writes comes on top of the plain one. */
  predicate CacheWritePriced(p: PriceList, u: Usage) {
    CacheCreationRate(p, u.input, u.tier, u.longTtl) != 0.0
  }

  /** The two kinds of prompt token that two priced lines bill. */
  predicate BilledTwice(p: PriceList, u: Usage, k: InKind) {
    && TokenRate(p, Input, u.input, u.tier) != 0.0
    && ((k == CachedIn && OrphanCachePrice(p, u)) || (k == CreatedIn && CacheWritePriced(p, u)))
  }

  lemma KindBilledOnce(p: PriceList, u: Usage, k: InKind)
    ensures BilledOnce(p, u, k) <==> !BilledTwice(p, u, k)
  {
    if BilledTwice(p, u, k) {
      var own := if k == CachedIn then CacheReadLine else CacheWriteLine;
      assert Bills(p, InputLine, k) && Bills(p, own, k);
      assert LineRate(p, u, InputLine) != 0.0 && LineRate(p, u, own) != 0.0;
    } else {
      Single(p, ImageIn);
      Single(p, AudioIn);
      assert !AudioPriced(p) ==> LineRate(p, u, AudioLine) == 0.0;
      assert ImageIn !in p ==> LineRate(p, u, ImageLine) == 0.0;
    }
  }

  /** No token of the prompt is billed twice, except cached tokens under an orphan
      cache price and written tokens under a cache-write price, next to a plain price. */
  lemma BilledOnceExactly(p: PriceList, u: Usage, prompt: seq<InKind>, answer: seq<OutKind>)
    requires Describes(u, prompt, answer)
    ensures (forall k :: k in prompt ==> BilledOnce(p, u, k))
       <==> !(TokenRate(p, Input, u.input, u.tier) != 0.0
              && ((u.cached > 0 && CacheReadRate(p, u.input, u.tier) != 0.0
                   && Token(CacheRead, Base) !in p && CacheHit !in p)
                  || (u.cacheCreation > 0 && CacheCreationRate(p, u.input, u.tier, u.longTtl) != 0.0)))
  {
    CountPositive(prompt, CachedIn);
    CountPositive(prompt, CreatedIn);
    forall k ensures BilledOnce(p, u, k) <==> !BilledTwice(p, u, k) { KindBilledOnce(p, u, k); }
  }

  lemma {:induction false} CountPositive<K>(tokens: seq<K>, k: K)
    ensures Count(tokens, k) > 0 <==> k in tokens
  {
    if tokens != [] {
      CountPositive(tokens[..|tokens| - 1], k);
      assert tokens == tokens[..|tokens| - 1] + [tokens[|tokens| - 1]];
    }
  }

  /** A price list that shows the double billing: a prompt of one cached token costs
      the plain price and the cache price. */
  lemma OrphanPriceBillsTwice(p: PriceList, u: Usage, plain: real, cached: real)
    requires p == map[Token(Input, Base) := plain, Token(CacheRead, Priority) := cached]
    requires u.tier == PriorityTier && u.input == u.cached == 1
    requires u.cacheCreation == u.audioIn == u.imageIn == u.output == u.reasoning == u.audioOut == u.imageOut == 0
    ensures Describes(u, [CachedIn], []) && InPrice(p, u, CachedIn) == plain + cached
  {
    var prompt := [CachedIn];
    assert prompt[..0] == [];
    OrphanPrice(p, u);
  }

  lemma OrphanPrice(p: PriceList, u: Usage)
    requires u.tier == PriorityTier && u.input == 1 && !CacheReadPriced(p)
    requires Token(Input, Base) in p && Token(Input, Priority) !in p && Token(CacheRead, Priority) in p
    ensures InPrice(p, u, CachedIn) == p[Token(Input, Base)] + p[Token(CacheRead, Priority)]
  {
    InPrices(p, u);
    Single(p, Token(Input, Base));
  }

  /** And an ordinary price list that does: a prompt of one token written to the cache
      costs the plain price and the cache-write price. */
  lemma CacheWriteBillsTwice(p: PriceList, u: Usage, plain: real, write: real)
    requires p == map[Token(Input, Base) := plain, Token(CacheCreation, Base) := write]
    requires u.tier == Standard && u.input == u.cacheCreation == 1
    requires u.cached == u.audioIn == u.imageIn == u.output == u.reasoning == u.audioOut == u.imageOut == 0
    ensures Describes(u, [CreatedIn], []) && InPrice(p, u, CreatedIn) == plain + write
  {
    var prompt := [CreatedIn];
    assert prompt[..0] == [];
    InPrices(p, u);
    BasePrices(p, u);
  }

  lemma BasePrices(p: PriceList, u: Usage)
    requires u.tier == Standard && u.input == 1 && Token(Input, Base) in p && Token(CacheCreation, Base) in p
    requires LongTtlRate(p, u.input, u.tier).None?
    ensures TokenRate(p, Input, u.input, u.tier) == p[Token(Input, Base)]
    ensures CacheCreationRate(p, u.input, u.tier, u.longTtl) == p[Token(CacheCreation, Base)]
  {
    Single(p, Token(Input, Base));
    Single(p, Token(CacheCreation, Base));
  }

  // ---- What is settled.

  /** The settled amount is one integer everywhere, within half a nano-dollar of the
      itemised, per-token bill. */
  lemma SettledBillIsExact(p: PriceList, u: Usage, prompt: seq<InKind>, answer: seq<OutKind>)
    requires Describes(u, prompt, answer)
    ensures var bill := Total(ShownLines(CostLines(p, u)));
            var spend := PerTokenBill(p, u, prompt, answer);
            && ToNanoUSD(Settled(bill)) == ToNanoUSD(spend)
            && (0.0 <= spend < Saturation() ==> -0.5 < ToNanoUSD(Settled(bill)) as real - spend * NANO <= 0.5)
  {
    BillIsPerToken(p, u, prompt, answer);
    ShownTotal(CostLines(p, u));
    SettledNearby(PerTokenBill(p, u, prompt, answer));
  }

  lemma SettledNearby(spend: real)
    ensures ToNanoUSD(Settled(spend)) == ToNanoUSD(spend)
    ensures 0.0 <= spend < Saturation() ==> -0.5 < ToNanoUSD(Settled(spend)) as real - spend * NANO <= 0.5
  {
    SettledOnce(spend);
    if 0.0 <= spend < Saturation() { Nearest(spend); }
  }
}
