/**
 * Request gates and post-processing of the HTTP handlers (server/routes.ts):
 * the /api/extract image and HEIC gates, the /api/scan-document confidence
 * branch and its character mappings, generateAlternatives, the distance
 * attached on leg create and patch, the mission-delete id range check and
 * the scan route's validateAMCData gate.
 */
module Routes {
  import opened Common
  import ServerOcr
  import ServerDistance

  /** processAMCDocument as the handlers see it: bytes in, result or error out. */
  type Processor = seq<byte> -> Result<ServerOcr.OcrResult, ServerOcr.OcrError>

  /** The real processor for a given key and vision-model reply. */
  function RealProcessor(apiKey: string, ask: ServerOcr.Mime -> ServerOcr.ModelReply): Processor
  {
    image => ServerOcr.ProcessAMCDocument(image, apiKey, ask)
  }

  // ---------------------------------------------------------------------
  // POST /api/extract (server/routes.ts:25-101).

  datatype ExtractResponse =
    | NoImage                           // 400 'No image provided'
    | HeicNotSupported                  // 400, code HEIC_NOT_SUPPORTED
    | Extracted(result: ServerOcr.OcrResult)   // 200
    | OcrError                          // 500, code OCR_ERROR
    | ExtractionError(message: string)  // 500, code EXTRACTION_ERROR

  function ExtractStatus(r: ExtractResponse): int
  {
    match r
    case NoImage => 400
    case HeicNotSupported => 400
    case Extracted(_) => 200
    case OcrError => 500
    case ExtractionError(_) => 500
  }

  predicate MentionsHeic(imageBase64: string)
  {
    Contains(imageBase64, "data:image/heic") || Contains(imageBase64, "data:image/HEIC")
  }

  /** `decode` is the data-URL prefix strip followed by base64 decoding. */
  function Extract(imageBase64: Option<string>, decode: string -> seq<byte>,
                   process: Processor): ExtractResponse
  {
    if imageBase64.None? || imageBase64.value == "" then NoImage
    else if MentionsHeic(imageBase64.value) then HeicNotSupported
    else
      match process(decode(imageBase64.value))
      case Ok(r) => Extracted(r)
      case Err(e) =>
        var m := ServerOcr.ErrorMessage(e);
        if Contains(m, "Tesseract") then OcrError else ExtractionError(m)
  }

  /** A missing image is refused with 400 before decoding or processing. */
  lemma MissingImageRefusedFirst(imageBase64: Option<string>, d1: string -> seq<byte>, d2: string -> seq<byte>,
                                 p1: Processor, p2: Processor)
    requires imageBase64.None? || imageBase64 == Some("")
    ensures Extract(imageBase64, d1, p1) == Extract(imageBase64, d2, p2) == NoImage
    ensures ExtractStatus(NoImage) == 400
  {
  }

  /** A data URL starting with data:image/heic or data:image/HEIC is refused
      with 400 HEIC_NOT_SUPPORTED whatever the processor would have done:
      processAMCDocument is never reached. */
  lemma HeicRefusedBeforeProcessing(imageBase64: string, decode: string -> seq<byte>,
                                    p1: Processor, p2: Processor)
    requires IsPrefix("data:image/heic", imageBase64) || IsPrefix("data:image/HEIC", imageBase64)
    ensures Extract(Some(imageBase64), decode, p1) == Extract(Some(imageBase64), decode, p2) == HeicNotSupported
  {
    if IsPrefix("data:image/heic", imageBase64) {
      PrefixIsContained("data:image/heic", imageBase64);
    } else {
      PrefixIsContained("data:image/HEIC", imageBase64);
    }
  }

  /** Otherwise the response is the processor's: its result on success, and
      OCR_ERROR exactly when the error message mentions Tesseract. */
  lemma ExtractFollowsProcessor(imageBase64: string, decode: string -> seq<byte>, process: Processor)
    requires imageBase64 != "" && !MentionsHeic(imageBase64)
    ensures var out := process(decode(imageBase64));
            var resp := Extract(Some(imageBase64), decode, process);
            (out.Ok? ==> resp == Extracted(out.value))
            && (resp.Extracted? ==> out == Ok(resp.result))
            && (out.Err? ==> (resp == OcrError <==> Contains(ServerOcr.ErrorMessage(out.error), "Tesseract")))
            && (ExtractStatus(resp) == 200 <==> out.Ok?)
  {
  }

  // ---------------------------------------------------------------------
  // generateAlternatives (server/routes.ts:200-217).

  const MappedChars: set<char> := {'0', 'O', '1', 'I', '2', '5', '6', '8', 'B', 'G', 'S', 'Z'}

  function GenerateAlternatives(c: char): (r: seq<char>)
    ensures c !in MappedChars ==> r == [c]
  {
    match c
    case '0' => ['O', 'o', 'Q']
    case 'O' => ['0', 'o', 'Q']
    case '1' => ['I', 'l', '|']
    case 'I' => ['1', 'l', '|']
    case '2' => ['Z', 'z']
    case '5' => ['S', 's']
    case '6' => ['G', 'g']
    case '8' => ['B', 'b']
    case 'B' => ['8', 'b']
    case 'G' => ['6', 'g']
    case 'S' => ['5', 's']
    case 'Z' => ['2', 'z']
    case _ => [c]
  }

  /** Never empty, and a mapped character never lists itself. */
  lemma AlternativesNonEmpty(c: char)
    ensures |GenerateAlternatives(c)| >= 1
    ensures c in MappedChars ==> c !in GenerateAlternatives(c) && 2 <= |GenerateAlternatives(c)| <= 3
  {
  }

  /** Among mapped characters, confusion is symmetric. */
  lemma AlternativesSymmetric(a: char, b: char)
    requires a in MappedChars && b in MappedChars
    ensures b in GenerateAlternatives(a) <==> a in GenerateAlternatives(b)
  {
  }

  // ---------------------------------------------------------------------
  // POST /api/scan-document (server/routes.ts:104-197).

  /** One entry of characterMappings. `column` is the character's index in
      the text (x is column * 8) and `row` the index of its space-separated
      word (y is row * 20); the width 8 and height 16 are the same for every
      entry and are not fields. */
  datatype CharMapping = CharMapping(character: char, column: nat, row: nat, confidence: real,
                                     alternatives: seq<char>)

  datatype ScanResponse =
    | ImageRequired                      // 400
    | ScanFailed(message: string)        // 500
    | Scanned(text: string, confidence: real, mappings: seq<CharMapping>,
              amcData: ServerOcr.OcrResult)

  const LowQualityText: string :=
    "Low scan quality detected. Please try:\n\U{2022} Better lighting\n\U{2022} Hold camera steady\n"
    + "\U{2022} Ensure text is clearly visible\n\U{2022} Use manual entry if needed"
  const NoFlightDataText: string := "No flight data detected in document"

  /** The detailed branch is taken only with legs and confidence above 30. */
  predicate DetailedBranch(r: ServerOcr.OcrResult)
  {
    |r.legs| > 0 && r.confidence > 30.0
  }

  /** The text of the detailed branch; `show` is JavaScript's string
      conversion of a leg field and `fallbackNumber` the 'M-' + timestamp
      mission number used when the first leg has none. */
  function DetailedText(leg: ServerOcr.Leg, show: ServerOcr.Json -> string, fallbackNumber: string): string
  {
    var mission := ServerOcr.Or(Some(leg.missionNumber), ServerOcr.JStr(fallbackNumber));
    "Mission: " + show(mission) + "\nDeparture: " + show(leg.departureIcao)
    + "\nArrival: " + show(leg.arrivalIcao)
    + "\nTime: " + show(leg.departureTime) + "-" + show(leg.arrivalTime)
  }

  function FeedbackText(r: ServerOcr.OcrResult): (t: string)
  {
    if r.confidence < 30.0 then LowQualityText else NoFlightDataText
  }

  /** One draw of `Math.random() * 0.2 - 0.1`. */
  type Jitter = r: real | -0.1 <= r < 0.1 witness 0.0

  /** Which loop builds the mappings: the feedback loop over the characters,
      or the detailed loop over the words, which scores every character with
      the scan confidence and the jitter drawn for its column. */
  datatype MappingStyle = Feedback | Detailed(scanConfidence: real, jitter: nat -> Jitter)

  function Alternatives(c: char, style: MappingStyle): seq<char>
  {
    if style.Detailed? then GenerateAlternatives(c) else [c]
  }

  /** The confidence of the mapping at `column`: 0.9 for feedback text,
      otherwise at least 0.3 and within 0.1 of the scan confidence over 100. */
  function MappingConfidence(style: MappingStyle, column: nat): (r: real)
    ensures style.Feedback? ==> r == 0.9
    ensures style.Detailed? ==>
              0.3 <= r && style.scanConfidence / 100.0 - 0.1 <= r
              && (r == 0.3 || r < style.scanConfidence / 100.0 + 0.1)
  {
    match style
    case Feedback => 0.9
    case Detailed(c, jitter) =>
      var v := c / 100.0 + jitter(column);
      if v < 0.3 then 0.3 else v
  }

  predicate IsSpace(c: char) { c == ' ' }

  /** The index of the word that the character after `s` belongs to, when
      the text is split at ' ' only. */
  function WordIndex(s: string): nat
  {
    Count(s, IsSpace)
  }

  /** The mapping of the character at `i`; only the detailed loop counts words. */
  function MappingAt(text: string, i: nat, style: MappingStyle): CharMapping
    requires i < |text|
  {
    CharMapping(text[i], i, if style.Detailed? then WordIndex(text[..i]) else 0,
                MappingConfidence(style, i), Alternatives(text[i], style))
  }

  /** The mappings of a text: one per non-whitespace character, in order. */
  function Mappings(text: string, style: MappingStyle): seq<CharMapping>
    decreases |text|
  {
    if text == [] then []
    else
      var last := |text| - 1;
      Mappings(text[..last], style)
      + (if IsJsWhitespace(text[last]) then [] else [MappingAt(text, last, style)])
  }

  /** The forEach loops that push into characterMappings, as one pass over
      the characters; `word` counts the spaces passed, which is the
      detailed loop's wordIndex. */
  method BuildMappings(text: string, style: MappingStyle) returns (ms: seq<CharMapping>)
    ensures ms == Mappings(text, style)
  {
    ms := [];
    var i := 0;
    var word := 0;
    while i < |text|
      invariant 0 <= i <= |text|
      invariant ms == Mappings(text[..i], style)
      invariant word == WordIndex(text[..i])
    {
      assert text[..i + 1][..i] == text[..i];
      CountAppend(text[..i], [text[i]], IsSpace);
      assert text[..i] + [text[i]] == text[..i + 1];
      if !IsJsWhitespace(text[i]) {
        var row := if style.Detailed? then word else 0;
        ms := ms + [CharMapping(text[i], i, row, MappingConfidence(style, i), Alternatives(text[i], style))];
      }
      if text[i] == ' ' {
        word := word + 1;
      }
      i := i + 1;
    }
    assert text[..i] == text;
  }

  /** Each mapping names a non-whitespace character at its column, with its
      word's row and a confidence of 0.9 for feedback text or at least 0.3
      for the detailed text; columns strictly increase, rows never decrease,
      and every character other than whitespace has a mapping. */
  lemma MappingsSpec(text: string, style: MappingStyle)
    ensures var ms := Mappings(text, style);
            (forall k :: 0 <= k < |ms| ==>
               ms[k].column < |text| && text[ms[k].column] == ms[k].character
               && !IsJsWhitespace(ms[k].character)
               && ms[k].alternatives == Alternatives(ms[k].character, style)
               && ms[k].row == (if style.Detailed? then WordIndex(text[..ms[k].column]) else 0)
               && (style.Feedback? ==> ms[k].confidence == 0.9)
               && (style.Detailed? ==> ms[k].confidence >= 0.3))
            && (forall k, l :: 0 <= k < l < |ms| ==> ms[k].column < ms[l].column)
            && (forall k, l :: 0 <= k < l < |ms| ==> ms[k].row <= ms[l].row)
            && (forall c :: 0 <= c < |text| && !IsJsWhitespace(text[c]) ==>
                  exists k :: 0 <= k < |ms| && ms[k].column == c)
  {
    MappingsSound(text, style);
    MappingsOrdered(text, style);
    MappingsRowsGrow(text, style);
    MappingsComplete(text, style);
  }

  /** Every mapping of `ms` is the mapping of the character at its column. */
  predicate SoundMappings(text: string, style: MappingStyle, ms: seq<CharMapping>)
  {
    forall k :: 0 <= k < |ms| ==>
      ms[k].column < |text| && !IsJsWhitespace(text[ms[k].column])
      && ms[k] == MappingAt(text, ms[k].column, style)
  }

  predicate ColumnsIncrease(ms: seq<CharMapping>)
  {
    forall k, l :: 0 <= k < l < |ms| ==> ms[k].column < ms[l].column
  }

  predicate RowsGrow(ms: seq<CharMapping>)
  {
    forall k, l :: 0 <= k < l < |ms| ==> ms[k].row <= ms[l].row
  }

  predicate CoversText(text: string, ms: seq<CharMapping>)
  {
    forall c :: 0 <= c < |text| && !IsJsWhitespace(text[c]) ==>
      exists k :: 0 <= k < |ms| && ms[k].column == c
  }

  lemma {:induction false} MappingsSound(text: string, style: MappingStyle)
    ensures SoundMappings(text, style, Mappings(text, style))
    decreases |text|
  {
    if text != [] {
      var last := |text| - 1;
      var prefix := text[..last];
      MappingsSound(prefix, style);
      var before := Mappings(prefix, style);
      var ms := Mappings(text, style);
      forall k | 0 <= k < |before|
        ensures ms[k] == before[k] && ms[k] == MappingAt(text, ms[k].column, style)
      {
        var c := before[k].column;
        assert text[c] == prefix[c] && text[..c] == prefix[..c];
      }
      if !IsJsWhitespace(text[last]) {
        assert ms[|before|] == MappingAt(text, last, style);
      }
    }
  }

  /** Fewer characters never hold more spaces. */
  lemma WordIndexGrows(s: string, i: nat, j: nat)
    requires i <= j <= |s|
    ensures WordIndex(s[..i]) <= WordIndex(s[..j])
  {
    assert s[..j] == s[..i] + s[i..j];
    CountAppend(s[..i], s[i..j], IsSpace);
  }

  lemma {:induction false} MappingsOrdered(text: string, style: MappingStyle)
    ensures ColumnsIncrease(Mappings(text, style))
    decreases |text|
  {
    if text != [] {
      var last := |text| - 1;
      var prefix := text[..last];
      MappingsOrdered(prefix, style);
      MappingsSound(prefix, style);
      var before := Mappings(prefix, style);
      var ms := Mappings(text, style);
      forall k | 0 <= k < |before| ensures ms[k] == before[k] && before[k].column < last {}
    }
  }

  lemma MappingsRowsGrow(text: string, style: MappingStyle)
    ensures RowsGrow(Mappings(text, style))
  {
    var ms := Mappings(text, style);
    MappingsSound(text, style);
    MappingsOrdered(text, style);
    forall k, l | 0 <= k < l < |ms| ensures ms[k].row <= ms[l].row {
      if style.Detailed? {
        WordIndexGrows(text, ms[k].column, ms[l].column);
      }
    }
  }

  lemma {:induction false} MappingsComplete(text: string, style: MappingStyle)
    ensures CoversText(text, Mappings(text, style))
    decreases |text|
  {
    if text != [] {
      var last := |text| - 1;
      var prefix := text[..last];
      MappingsComplete(prefix, style);
      var before := Mappings(prefix, style);
      var ms := Mappings(text, style);
      forall c | 0 <= c < |text| && !IsJsWhitespace(text[c])
        ensures exists k :: 0 <= k < |ms| && ms[k].column == c
      {
        if c < last {
          assert text[c] == prefix[c];
          var k :| 0 <= k < |before| && before[k].column == c;
          assert ms[k] == before[k];
        } else {
          assert ms[|before|].column == c;
        }
      }
    }
  }

  /** `decode` strips the data-URL prefix and decodes base64; `jitter` gives
      the random draw made for each mapped column. */
  function ScanDocument(image: Option<string>, decode: string -> seq<byte>, process: Processor,
                        show: ServerOcr.Json -> string, fallbackNumber: string,
                        jitter: nat -> Jitter): ScanResponse
  {
    if image.None? || image.value == "" then ImageRequired
    else
      match process(decode(image.value))
      case Err(e) => ScanFailed(ServerOcr.ErrorMessage(e))
      case Ok(r) =>
        var style := if DetailedBranch(r) then Detailed(r.confidence, jitter) else Feedback;
        var text := if style.Detailed? then DetailedText(r.legs[0], show, fallbackNumber) else FeedbackText(r);
        Scanned(text, if r.confidence == 0.0 then 75.0 else r.confidence,
                Mappings(text, style), r)
  }

  /** With confidence at most 30 (every value in [0, 1] included) the
      feedback branch is taken even when legs were extracted: below 30 the
      low-quality text, at exactly 30 the no-data text, with each character
      its own only alternative, on row 0, with confidence 0.9. A zero
      confidence is reported as 75. */
  lemma LowConfidenceGivesFeedback(image: string, decode: string -> seq<byte>, process: Processor,
                                   show: ServerOcr.Json -> string, fallbackNumber: string,
                                   jitter: nat -> Jitter)
    requires image != "" && process(decode(image)).Ok?
    requires process(decode(image)).value.confidence <= 30.0
    ensures var r := process(decode(image)).value;
            var resp := ScanDocument(Some(image), decode, process, show, fallbackNumber, jitter);
            resp.Scanned?
            && resp.text == (if r.confidence < 30.0 then LowQualityText else NoFlightDataText)
            && (forall k :: 0 <= k < |resp.mappings| ==>
                  resp.mappings[k].alternatives == [resp.mappings[k].character]
                  && resp.mappings[k].row == 0 && resp.mappings[k].confidence == 0.9)
            && (r.confidence == 0.0 ==> resp.confidence == 75.0)
  {
    var r := process(decode(image)).value;
    MappingsSpec(FeedbackText(r), Feedback);
  }

  /** With legs and confidence above 30 the text describes the first leg and
      every mapped character carries generateAlternatives' list and a
      confidence of at least 0.3 that is no more than 0.1 below the scan
      confidence over 100. */
  lemma HighConfidenceGivesDetail(image: string, decode: string -> seq<byte>, process: Processor,
                                  show: ServerOcr.Json -> string, fallbackNumber: string,
                                  jitter: nat -> Jitter)
    requires image != "" && process(decode(image)).Ok?
    requires DetailedBranch(process(decode(image)).value)
    ensures var r := process(decode(image)).value;
            var resp := ScanDocument(Some(image), decode, process, show, fallbackNumber, jitter);
            resp.Scanned?
            && resp.text == DetailedText(r.legs[0], show, fallbackNumber)
            && resp.confidence == r.confidence
            && (forall k :: 0 <= k < |resp.mappings| ==>
                  resp.mappings[k].alternatives == GenerateAlternatives(resp.mappings[k].character)
                  && 0.3 <= resp.mappings[k].confidence
                  && r.confidence / 100.0 - 0.1 <= resp.mappings[k].confidence)
  {
    var r := process(decode(image)).value;
    var style := Detailed(r.confidence, jitter);
    var text := DetailedText(r.legs[0], show, fallbackNumber);
    MappingsSpec(text, style);
    var ms := Mappings(text, style);
    forall k | 0 <= k < |ms|
      ensures r.confidence / 100.0 - 0.1 <= ms[k].confidence
    {
      MappingsSound(text, style);
      assert ms[k].confidence == MappingConfidence(style, ms[k].column);
    }
  }

  // ---------------------------------------------------------------------
  // Distance attached on leg create (server/routes.ts:361-398) and on
  // PATCH /api/legs/:id (server/routes.ts:657-715).

  /** The fields of a flight-leg body the distance logic touches. */
  datatype LegDraft = LegDraft(departureIcao: string, arrivalIcao: string, distanceNm: Option<real>)

  /** `activeAirports` is the database query's answer; None means it threw. */
  function AttachDistance(d: LegDraft, activeAirports: Option<seq<ServerDistance.AirportCoordinates>>,
                          angle: ServerDistance.CentralAngle): LegDraft
  {
    if d.departureIcao == "" || d.arrivalIcao == "" || activeAirports.None? then d
    else
      match ServerDistance.CalculateFlightDistance(d.departureIcao, d.arrivalIcao,
                                                   activeAirports.value, angle)
      case None => d
      case Some(x) => d.(distanceNm := Some(Round(x) as real))
  }

  /** distanceNm becomes the rounded distance exactly when both codes are
      given, the query succeeds and the lookup is non-null; otherwise the
      submitted value stays. No other field changes. */
  lemma AttachDistanceSpec(d: LegDraft, activeAirports: Option<seq<ServerDistance.AirportCoordinates>>,
                           angle: ServerDistance.CentralAngle)
    ensures var out := AttachDistance(d, activeAirports, angle);
            out.departureIcao == d.departureIcao && out.arrivalIcao == d.arrivalIcao
            && (if d.departureIcao != "" && d.arrivalIcao != "" && activeAirports.Some?
                   && ServerDistance.CalculateFlightDistance(d.departureIcao, d.arrivalIcao,
                                                             activeAirports.value, angle).Some?
                then out.distanceNm == Some(Round(ServerDistance.CalculateFlightDistance(
                       d.departureIcao, d.arrivalIcao, activeAirports.value, angle).value) as real)
                else out.distanceNm == d.distanceNm)
  {
  }

  /** A partial update: None means the field is absent from the body. */
  datatype LegUpdate = LegUpdate(departureIcao: Option<string>, arrivalIcao: Option<string>,
                                 distanceNm: Option<real>)

  datatype StoredLeg = StoredLeg(departureIcao: string, arrivalIcao: string)

  predicate Given(v: Option<string>) { v.Some? && v.value != "" }

  function PatchDistance(u: LegUpdate, existing: Option<StoredLeg>,
                         activeAirports: Option<seq<ServerDistance.AirportCoordinates>>,
                         angle: ServerDistance.CentralAngle): LegUpdate
  {
    if !(Given(u.departureIcao) || Given(u.arrivalIcao)) || existing.None? then u
    else
      var dep := if Given(u.departureIcao) then u.departureIcao.value else existing.value.departureIcao;
      var arr := if Given(u.arrivalIcao) then u.arrivalIcao.value else existing.value.arrivalIcao;
      var d := AttachDistance(LegDraft(dep, arr, u.distanceNm), activeAirports, angle);
      u.(distanceNm := d.distanceNm)
  }

  datatype PatchResponse = InvalidLegId | LegNotFound | LegUpdated(updates: LegUpdate)

  /** The handler; `existing` is what storage holds under the id. */
  function PatchLeg(id: Option<int>, u: LegUpdate, existing: Option<StoredLeg>,
                    activeAirports: Option<seq<ServerDistance.AirportCoordinates>>,
                    angle: ServerDistance.CentralAngle): PatchResponse
  {
    if id.None? then InvalidLegId
    else
      var updates := PatchDistance(u, existing, activeAirports, angle);
      if existing.None? then LegNotFound else LegUpdated(updates)
  }

  /** The distance is recomputed only when an ICAO code is in the update and
      the leg exists; each side comes from the update, else the stored leg
      (so a patch naming only the arrival keeps the stored departure). The
      rounded distance replaces the submitted one only when both sides are
      non-empty, the airport query answered and both codes were found;
      otherwise the submitted distance stays. The codes in the update are
      never altered. */
  lemma PatchDistanceSpec(u: LegUpdate, existing: Option<StoredLeg>,
                          activeAirports: Option<seq<ServerDistance.AirportCoordinates>>,
                          angle: ServerDistance.CentralAngle)
    ensures var out := PatchDistance(u, existing, activeAirports, angle);
            out.departureIcao == u.departureIcao && out.arrivalIcao == u.arrivalIcao
            && (!(Given(u.departureIcao) || Given(u.arrivalIcao)) || existing.None? ==> out == u)
            && ((Given(u.departureIcao) || Given(u.arrivalIcao)) && existing.Some? ==>
                  var dep := if Given(u.departureIcao) then u.departureIcao.value else existing.value.departureIcao;
                  var arr := if Given(u.arrivalIcao) then u.arrivalIcao.value else existing.value.arrivalIcao;
                  if dep != "" && arr != "" && activeAirports.Some?
                     && ServerDistance.CalculateFlightDistance(dep, arr, activeAirports.value, angle).Some?
                  then out.distanceNm == Some(Round(ServerDistance.CalculateFlightDistance(
                         dep, arr, activeAirports.value, angle).value) as real)
                  else out.distanceNm == u.distanceNm)
  {
    if (Given(u.departureIcao) || Given(u.arrivalIcao)) && existing.Some? {
      var dep := if Given(u.departureIcao) then u.departureIcao.value else existing.value.departureIcao;
      var arr := if Given(u.arrivalIcao) then u.arrivalIcao.value else existing.value.arrivalIcao;
      AttachDistanceSpec(LegDraft(dep, arr, u.distanceNm), activeAirports, angle);
    }
  }

  /** A patch naming only the arrival measures from the stored departure. */
  lemma ArrivalOnlyPatch(arr: string, stored: StoredLeg, submitted: Option<real>,
                         activeAirports: seq<ServerDistance.AirportCoordinates>,
                         angle: ServerDistance.CentralAngle)
    requires arr != "" && stored.departureIcao != ""
    requires ServerDistance.CalculateFlightDistance(stored.departureIcao, arr, activeAirports, angle).Some?
    ensures PatchDistance(LegUpdate(None, Some(arr), submitted), Some(stored), Some(activeAirports), angle).distanceNm
            == Some(Round(ServerDistance.CalculateFlightDistance(stored.departureIcao, arr, activeAirports, angle).value) as real)
  {
    PatchDistanceSpec(LegUpdate(None, Some(arr), submitted), Some(stored), Some(activeAirports), angle);
  }

  // ---------------------------------------------------------------------
  // DELETE /api/missions/:id (server/routes.ts:302-325).

  const MinInt32: int := -2147483648
  const MaxInt32: int := 2147483647

  /** `id` is parseInt's answer (None for NaN); `deleteRow` is storage.deleteMission. */
  function DeleteMissionStatus(id: Option<int>, deleteRow: int -> bool): int
  {
    if id.None? || id.value > MaxInt32 || id.value < MinInt32 then 400
    else if !deleteRow(id.value) then 404
    else 204
  }

  /** A NaN or out-of-range id is refused with 400 before storage is asked;
      204 means the id was in range and a row was removed. */
  lemma DeleteMissionGate(id: Option<int>, d1: int -> bool, d2: int -> bool)
    ensures (id.None? || id.value > MaxInt32 || id.value < MinInt32) ==>
              DeleteMissionStatus(id, d1) == DeleteMissionStatus(id, d2) == 400
    ensures DeleteMissionStatus(id, d1) == 204 <==>
              id.Some? && MinInt32 <= id.value <= MaxInt32 && d1(id.value)
    ensures DeleteMissionStatus(Some(MaxInt32 + 1), d1) == 400
  {
  }

  // ---------------------------------------------------------------------
  // POST /api/missions/:missionId/scan (server/routes.ts:736-781).

  datatype ScanRouteResponse =
    | InvalidMissionId            // 400
    | NoDocument                  // 400
    | NotValidData                // 400, validateAMCData was false
    | ScanAccepted(extracted: ServerOcr.OcrResult)
    | ScanRouteFailed             // 500

  function ScanRoute(missionId: Option<int>, file: Option<seq<byte>>, process: Processor): ScanRouteResponse
  {
    if missionId.None? then InvalidMissionId
    else if file.None? then NoDocument
    else
      match process(file.value)
      case Err(_) => ScanRouteFailed
      case Ok(r) => if !ServerOcr.ValidateAMCData(r) then NotValidData else ScanAccepted(r)
  }

  /** Only data that passes validateAMCData is accepted, and everything the
      processor returns that passes it is; HEIC bytes are not refused here. */
  lemma ScanRouteGate(missionId: int, file: seq<byte>, process: Processor)
    ensures var resp := ScanRoute(Some(missionId), Some(file), process);
            (resp.ScanAccepted? ==> ServerOcr.ValidateAMCData(resp.extracted))
            && ((process(file).Ok? && ServerOcr.ValidateAMCData(process(file).value))
                  ==> resp == ScanAccepted(process(file).value))
            && ((process(file).Ok? && !ServerOcr.ValidateAMCData(process(file).value))
                  ==> resp == NotValidData)
  {
  }

  /** With the real processor, any reply whose legs array is non-empty and
      free of nulls is accepted, whatever the image's sniffed label, HEIC
      included. */
  lemma {:induction false} ScanRouteAcceptsRepairedReplies(missionId: int, file: seq<byte>, apiKey: string,
                                                           ask: ServerOcr.Mime -> ServerOcr.ModelReply)
    requires apiKey != ""
    requires ServerOcr.Repair(ask(ServerOcr.Sniff(file))).Ok?
    requires |ServerOcr.Repair(ask(ServerOcr.Sniff(file))).value.legs| > 0
    ensures ScanRoute(Some(missionId), Some(file), RealProcessor(apiKey, ask)).ScanAccepted?
  {
    ServerOcr.RepairedResultValidates(ask(ServerOcr.Sniff(file)));
  }
}
