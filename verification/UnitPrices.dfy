/** The lines of a bill that are not for tokens (internal/core/pricing.go). */
module UnitPrices {
  import opened Prices

  const PIXELS_1024 := 1024 * 1024
  const PIXELS_2048 := 2048 * 2048
  const PIXELS_4096 := 4096 * 4096

  /** What a request used besides tokens. */
  datatype Units = Units(
    searchSize: string, resolution: string, hasAudio: bool, fromVideo: bool, quality: string,
    audioSeconds: real, inputCharacters: int, outputCharacters: int,
    inputImages: int, outputImages: int, generatedPixels: int, outputPixels: int,
    inputVideoSeconds: real, outputVideoSeconds: real, outputVideos: int, inputSeconds: real, outputSeconds: real,
    queries: int, searchQueries: int, requests: int, inputRequests: int,
    pages: int, credits: int, annotationPages: int, sessions: int, inputDbus: int, outputDbus: int, units: int)

  /** Long prompts have their own rate for audio, characters, images and video. */
  function BandedRate(p: PriceList, unit: Unit, total: int): real {
    if total > ABOVE_128K && PerAbove128k(unit) in p then p[PerAbove128k(unit)] else Rate(p, [Per(unit)])
  }

  function ClipRate(p: PriceList, seconds: real, total: int): real {
    if seconds > 15.0 && ClipAbove15s in p then p[ClipAbove15s]
    else if seconds > 8.0 && ClipAbove8s in p then p[ClipAbove8s]
    else BandedRate(p, InputVideoSecond, total)
  }

  predicate PricesAudio(resolution: string) {
    resolution in ["360p", "540p", "720p", "1080p", "4k", "pro", "standard"]
  }

  predicate PricesFromVideo(resolution: string) { resolution in ["480p", "720p", "1080p", "4k"] }

  function OutputVideoSecondRate(p: PriceList, u: Units): real {
    var plain := Rate(p, [VideoSecond(u.resolution, Plain), Second1080p]);
    if u.hasAudio && PricesAudio(u.resolution) && VideoSecond(u.resolution, WithAudio) in p
    then p[VideoSecond(u.resolution, WithAudio)]
    else if u.fromVideo && PricesFromVideo(u.resolution) && VideoSecond(u.resolution, FromVideo) in p
    then p[VideoSecond(u.resolution, FromVideo)]
    else if u.resolution == "1080p" && plain != 0.0 then plain
    else if u.resolution != "1080p" && (PricesAudio(u.resolution) || PricesFromVideo(u.resolution))
            && VideoSecond(u.resolution, Plain) in p
    then p[VideoSecond(u.resolution, Plain)]
    else Rate(p, [Per(OutputVideoSecond)])
  }

  function OutputImageRate(p: PriceList, quality: string, pixels: int): real {
    var huge := Rate(p, [ImageInBand(Above4096By4096), ImageInBand(Above4096)]);
    var large := Rate(p, [ImageInBand(Above2048By2048), ImageInBand(Above2048)]);
    if quality in ["low", "medium", "high", "auto"] && ImageOfQuality(quality) in p then p[ImageOfQuality(quality)]
    else if pixels > PIXELS_4096 && huge != 0.0 then huge
    else if pixels > PIXELS_2048 && large != 0.0 then large
    else if pixels > PIXELS_1024 && ImageInBand(Above1024By1024) in p then p[ImageInBand(Above1024By1024)]
    else Rate(p, [Per(OutputImage)])
  }

  function OutputVideoRate(p: PriceList, resolution: string, seconds: real): real {
    if resolution == "768p" && seconds > 6.0 && Video768p10s in p then p[Video768p10s]
    else if resolution == "768p" && Video768p6s in p then p[Video768p6s]
    else if resolution == "1080p" && Video1080p6s in p then p[Video1080p6s]
    else Rate(p, [Per(OutputVideo)])
  }

  function SearchRate(p: PriceList, size: string): real {
    if size in ["low", "medium", "high"] && Search(size) in p then p[Search(size)]
    else Rate(p, [Search("medium"), Search("high"), Search("low")])
  }

  /** The lines before those for image tokens; `total` is the prompt's token count. */
  function FirstLines(p: PriceList, u: Units, total: int): seq<Line> {
    [ Line("input_audio", "second", u.audioSeconds, BandedRate(p, AudioSecond, total)),
      Line("input", "character", u.inputCharacters as real, BandedRate(p, InputCharacter, total)),
      Line("output", "character", u.outputCharacters as real, BandedRate(p, OutputCharacter, total)),
      Line("input_image", "image", u.inputImages as real, BandedRate(p, InputImage, total)),
      Line("output_image", "image", u.outputImages as real, OutputImageRate(p, u.quality, u.outputPixels)) ]
  }

  /** The lines between those for image tokens and the one for video tokens. */
  function MiddleLines(p: PriceList, u: Units, total: int): seq<Line> {
    [ Line("generated", "pixel", u.generatedPixels as real, Rate(p, [Per(InputPixel)])),
      Line("output", "pixel", u.outputPixels as real, Rate(p, [Per(OutputPixel)])),
      Line("input_video", "second", u.inputVideoSeconds, ClipRate(p, u.inputVideoSeconds, total)),
      Line("output_video", "second", u.outputVideoSeconds, OutputVideoSecondRate(p, u)) ]
  }

  function LastLines(p: PriceList, u: Units): seq<Line> {
    [ Line("output_video", "video", u.outputVideos as real, OutputVideoRate(p, u.resolution, u.outputVideoSeconds)),
      Line("input", "second", u.inputSeconds, Rate(p, [Per(InputSecond)])),
      Line("output", "second", u.outputSeconds, Rate(p, [Per(OutputSecond)])),
      Line("query", "query", u.queries as real, Rate(p, [Per(Query)])),
      Line("search_query", "query", u.searchQueries as real, SearchRate(p, u.searchSize)),
      Line("request", "request", u.requests as real, Rate(p, [Per(Request)])),
      Line("input_request", "request", u.inputRequests as real, Rate(p, [Per(InputRequest)])),
      Line("ocr", "page", u.pages as real, Rate(p, [Per(OcrPage)])),
      Line("ocr", "credit", u.credits as real, Rate(p, [Per(OcrCredit)])),
      Line("annotation", "page", u.annotationPages as real, Rate(p, [Per(AnnotationPage)])),
      Line("code_interpreter", "session", u.sessions as real, Rate(p, [Per(CodeSession)])),
      Line("input", "dbu", u.inputDbus as real, Rate(p, [Per(InputDbu)])),
      Line("output", "dbu", u.outputDbus as real, Rate(p, [Per(OutputDbu)])),
      Line("unit", "unit", u.units as real, Rate(p, [Per(OutputUnit)])) ]
  }

  function UnitCharge(p: PriceList, u: Units, total: int): real {
    Total(FirstLines(p, u, total)) + Total(MiddleLines(p, u, total)) + Total(LastLines(p, u))
  }
}
