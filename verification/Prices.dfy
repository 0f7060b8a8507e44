/** Price lists and bill lines (internal/core/pricing.go). A list holds only the fields
    that are set. */
module Prices {
  datatype Family = Input | Output | CacheRead | CacheCreation

  datatype Variant =
    | Base | Priority | Flex | Batches | Fast
    | Above128k | Above200k | Above256k | Above272k | Above512k
    | Above200kPriority | Above272kPriority
    | Above272kFlex | FlexAbove272k | BatchesAbove272k
    | LongTtl | LongTtlFast | LongTtlBatches | LongTtlAbove200k

  /** What is counted or measured besides tokens. */
  datatype Unit =
    | AudioSecond | InputCharacter | OutputCharacter | InputImage | OutputImage | InputPixel | OutputPixel
    | InputVideoSecond | OutputVideoSecond | OutputVideo | InputSecond | OutputSecond
    | Query | Request | InputRequest | OcrPage | OcrCredit | AnnotationPage | CodeSession
    | InputDbu | OutputDbu | OutputUnit

  datatype Clip = Plain | WithAudio | FromVideo

  datatype ImageBand = Above1024By1024 | Above2048By2048 | Above2048 | Above4096By4096 | Above4096

  datatype Field =
    | Token(family: Family, variant: Variant)
    | CacheHit | Reasoning | Citation
    | AudioIn | AudioInPriority | AudioOut | AudioCacheRead | AudioCacheCreation
    | ImageIn | ImageOut | VideoOut
    | Per(unit: Unit)
    | PerAbove128k(unit: Unit)
    | ImageOfQuality(quality: string)
    | ImageInBand(band: ImageBand)
    | ClipAbove8s | ClipAbove15s
    | VideoSecond(resolution: string, clip: Clip)
    | Second1080p
    | Video768p6s | Video768p10s | Video1080p6s
    | Search(size: string)

  type PriceList = map<Field, real>

  datatype Tier = Standard | PriorityTier | FlexTier | BatchTier | FastTier

  const ABOVE_128K := 128000
  const ABOVE_200K := 200000
  const ABOVE_256K := 256000
  const ABOVE_272K := 272000
  const ABOVE_512K := 512000

  /** The first price that is set, or zero. */
  function Rate(p: PriceList, candidates: seq<Field>): real {
    if candidates == [] then 0.0
    else if candidates[0] in p then p[candidates[0]]
    else Rate(p, candidates[1..])
  }

  lemma Single(p: PriceList, f: Field)
    ensures Rate(p, [f]) == if f in p then p[f] else 0.0
  {}

  lemma Pair(p: PriceList, a: Field, b: Field)
    ensures Rate(p, [a, b]) == if a in p then p[a] else if b in p then p[b] else 0.0
  {
    Single(p, b);
    assert [a, b][1..] == [b];
  }

  datatype Line = Line(item: string, unit: string, quantity: real, unitCost: real)

  function Charge(line: Line): real { line.quantity * line.unitCost }

  function Total(lines: seq<Line>): real {
    if lines == [] then 0.0 else Total(lines[..|lines| - 1]) + Charge(lines[|lines| - 1])
  }

  lemma {:induction false} TotalOfConcat(a: seq<Line>, b: seq<Line>)
    ensures Total(a + b) == Total(a) + Total(b)
  {
    if b == [] {
      assert a + b == a;
    } else {
      TotalOfConcat(a, b[..|b| - 1]);
      assert (a + b)[..|a + b| - 1] == a + b[..|b| - 1];
    }
  }
}
