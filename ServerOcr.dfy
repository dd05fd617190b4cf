/**
 * Server-side post-processing of the vision model's reply to an AMC IMI 170
 * scan (server/ocr.ts): image format sniffing, repair of every leg to a fully
 * populated record, and the structural gate validateAMCData.
 */
module ServerOcr {
  import opened Common

  /** A parsed JSON value, as JSON.parse produces it. Object members keep
      their textual order; a repeated key is resolved by Lookup (last wins). */
  datatype Json =
    | JNull
    | JBool(b: bool)
    | JNum(n: real)
    | JStr(s: string)
    | JArr(items: seq<Json>)
    | JObj(members: seq<(string, Json)>)

  /** Property read `v.key` on a non-null value: None stands for undefined. */
  function Lookup(members: seq<(string, Json)>, key: string): (r: Option<Json>)
    ensures r.None? <==> forall i :: 0 <= i < |members| ==> members[i].0 != key
    ensures r.Some? ==> exists i :: 0 <= i < |members| && members[i] == (key, r.value)
  {
    if members == [] then None
    else if members[|members| - 1].0 == key then Some(members[|members| - 1].1)
    else Lookup(members[..|members| - 1], key)
  }

  /** `v.key` where v is not null: only objects have the keys used here. */
  function Get(v: Json, key: string): Option<Json>
    requires !v.JNull?
  {
    if v.JObj? then Lookup(v.members, key) else None
  }

  /** JavaScript truthiness of a possibly undefined value. */
  predicate Truthy(v: Option<Json>)
  {
    match v
    case None => false
    case Some(JNull) => false
    case Some(JBool(b)) => b
    case Some(JNum(n)) => n != 0.0
    case Some(JStr(s)) => s != ""
    case Some(JArr(_)) => true
    case Some(JObj(_)) => true
  }

  /** `typeof v === 'number'`. */
  predicate IsNumber(v: Option<Json>) { v.Some? && v.value.JNum? }

  /** `v || fallback`. */
  function Or(v: Option<Json>, fallback: Json): (r: Json)
    ensures Truthy(v) ==> Some(r) == v
    ensures !Truthy(v) ==> r == fallback
  {
    if Truthy(v) then v.value else fallback
  }

  // ---------------------------------------------------------------------
  // MIME sniffing (server/ocr.ts:47-57).

  datatype Mime = ImageJpeg | ImageHeic | ImagePng

  const HeicTag: seq<byte> := [0x48, 0x45, 0x49, 0x43]
  /** The PNG file signature, section 5.2 of ISO/IEC 15948. */
  const PngSignature: seq<byte> := [0x89, 0x50, 0x4E, 0x47, 0x0D, 0x0A, 0x1A, 0x0A]

  function Header(image: seq<byte>): (h: seq<byte>)
    ensures |h| <= 12 && IsBytePrefix(h, image)
  {
    if |image| <= 12 then image else image[..12]
  }

  predicate IsBytePrefix(p: seq<byte>, s: seq<byte>) { |p| <= |s| && s[..|p|] == p }

  predicate HeicTagAt(h: seq<byte>, i: int) { 0 <= i && i + 4 <= |h| && h[i..i + 4] == HeicTag }

  /** `header.includes(Buffer.from('HEIC'))`. */
  predicate HasHeicTag(h: seq<byte>)
  {
    exists i | 0 <= i <= |h| - 4 :: HeicTagAt(h, i)
  }

  /** The JPEG start-of-image marker FF D8, Table B.1 of ITU-T T.81. */
  predicate HasJpegSoi(h: seq<byte>) { |h| >= 2 && h[0] == 0xFF && h[1] == 0xD8 }

  function Sniff(image: seq<byte>): (m: Mime)
  {
    var h := Header(image);
    if HasHeicTag(h) then ImageHeic
    else if HasJpegSoi(h) then ImageJpeg
    else if IsBytePrefix(PngSignature, h) then ImagePng
    else ImageJpeg
  }

  /** The label depends on the first twelve bytes only. */
  lemma SniffReadsTwelveBytes(image: seq<byte>, tail: seq<byte>)
    requires |image| >= 12
    ensures Sniff(image + tail) == Sniff(image)
  {
    assert (image + tail)[..12] == image[..12];
  }

  /** A JPEG stream is never labelled PNG and a PNG stream is labelled PNG
      unless the HEIC tag shows up in its header; HEIC is only a label; and
      bytes with none of the three signatures default to JPEG. */
  lemma {:induction false} SniffClassifies(image: seq<byte>)
    ensures HasJpegSoi(image) && !HasHeicTag(Header(image)) ==> Sniff(image) == ImageJpeg
    ensures IsBytePrefix(PngSignature, image) && !HasHeicTag(Header(image)) ==> Sniff(image) == ImagePng
    ensures Sniff(image) == ImageHeic <==> HasHeicTag(Header(image))
    ensures !HasHeicTag(Header(image)) && !HasJpegSoi(image) && !IsBytePrefix(PngSignature, image)
            ==> Sniff(image) == ImageJpeg
    ensures |image| < 2 ==> Sniff(image) == ImageJpeg
  {
    var h := Header(image);
    if IsBytePrefix(PngSignature, h) {
      assert h[..8] == image[..8];
    }
    if HasJpegSoi(image) { assert h[0] == image[0] && h[1] == image[1]; }
    if IsBytePrefix(PngSignature, image) {
      assert |h| >= 8 && h[..8] == image[..8];
      assert h[0] == 0x89;
    }
    if |image| < 2 {
      assert !HasHeicTag(h);
      assert !IsBytePrefix(PngSignature, h);
    }
  }

  // ---------------------------------------------------------------------
  // The reply and its repair (server/ocr.ts:126-156).

  /** What the chat-completion call gave back. */
  datatype ModelReply =
    | CallFailed(message: string)   // the request threw
    | NoContent                     // message.content was null or ""
    | Malformed(syntax: string)     // JSON.parse threw with this message
    | Content(value: Json)          // JSON.parse succeeded

  datatype OcrError =
    | MissingApiKey                 // OPENAI_API_KEY unset
    | ApiError(message: string)
    | ParseError(syntax: string)
    | InvalidFormat                 // "Invalid OCR response format"
    | PropertyOfNull                // a TypeError from reading a field of null

  /** The `message` of the error processAMCDocument rethrows. */
  function ErrorMessage(e: OcrError): string
  {
    match e
    case MissingApiKey => "OPENAI_API_KEY environment variable is not set"
    case ApiError(m) => m
    case ParseError(m) => m
    case InvalidFormat => "Invalid OCR response format"
    case PropertyOfNull => "Cannot read properties of null"
  }

  /** One repaired leg; every field holds the JavaScript value the map wrote. */
  datatype Leg = Leg(
    departureIcao: Json, departureName: Json,
    arrivalIcao: Json, arrivalName: Json,
    departureTime: Json, arrivalTime: Json,
    duration: Json, missionNumber: Json,
    aircraftType: Json, tailNumber: Json,
    pax: Json, cargoWeight: Json,
    cargoType: Json, specialHandling: Json)

  datatype OcrResult = OcrResult(
    legs: seq<Leg>, formType: Json, missionType: Option<Json>, confidence: real)

  function NumberOr(v: Option<Json>, fallback: real): Json
  {
    if IsNumber(v) then v.value else JNum(fallback)
  }

  function RepairLeg(leg: Json): Leg
    requires !leg.JNull?
  {
    Leg(
      Or(Get(leg, "departureIcao"), JStr("UNKN")),
      Or(Get(leg, "departureName"), JStr("Unknown Airport")),
      Or(Get(leg, "arrivalIcao"), JStr("UNKN")),
      Or(Get(leg, "arrivalName"), JStr("Unknown Airport")),
      Or(Get(leg, "departureTime"), JStr("0000L")),
      Or(Get(leg, "arrivalTime"), JStr("0000L")),
      Or(Get(leg, "duration"), JStr("0:00")),
      Or(Get(leg, "missionNumber"), JStr("UNKNOWN")),
      Or(Get(leg, "aircraftType"), JNull),
      Or(Get(leg, "tailNumber"), JNull),
      NumberOr(Get(leg, "pax"), 0.0),
      NumberOr(Get(leg, "cargoWeight"), 0.0),
      Or(Get(leg, "cargoType"), JNull),
      Or(Get(leg, "specialHandling"), JNull))
  }

  /** `legs.map(...)`: reading a field of a null element throws. */
  function RepairLegs(items: seq<Json>): (r: Result<seq<Leg>, OcrError>)
  {
    if exists i | 0 <= i < |items| :: items[i].JNull? then Err(PropertyOfNull)
    else Ok(seq(|items|, i requires 0 <= i < |items| => RepairLeg(items[i])))
  }

  /** The post-processing once the reply text is known. */
  function Repair(reply: ModelReply): (r: Result<OcrResult, OcrError>)
  {
    match reply
    case CallFailed(msg) => Err(ApiError(msg))
    case Malformed(m) => Err(ParseError(m))
    case NoContent => Err(InvalidFormat)    // JSON.parse('{}') has no legs
    case Content(JNull) => Err(PropertyOfNull)
    case Content(v) =>
      var legs := Get(v, "legs");
      if !Truthy(legs) || !legs.value.JArr? then Err(InvalidFormat)
      else
        match RepairLegs(legs.value.items)
        case Err(e) => Err(e)
        case Ok(repaired) =>
          var conf := Get(v, "confidence");
          Ok(OcrResult(repaired, Or(Get(v, "formType"), JStr("AMC IMI 170")),
                       Get(v, "missionType"),
                       if IsNumber(conf) then conf.value.n else 0.8))
  }

  /** processAMCDocument: the key check, the sniffed request and the repair.
      `ask` stands for the vision-model call, given the MIME label it is sent. */
  function ProcessAMCDocument(image: seq<byte>, apiKey: string,
                              ask: Mime -> ModelReply): Result<OcrResult, OcrError>
  {
    if apiKey == "" then Err(MissingApiKey) else Repair(ask(Sniff(image)))
  }

  // ---------------------------------------------------------------------
  // validateAMCData (server/ocr.ts:164-176).

  predicate LegPasses(leg: Leg)
  {
    Truthy(Some(leg.departureIcao)) && Truthy(Some(leg.arrivalIcao))
    && Truthy(Some(leg.missionNumber))
    && leg.pax.JNum? && leg.cargoWeight.JNum?
  }

  predicate ValidateAMCData(r: OcrResult)
  {
    |r.legs| > 0 && forall i :: 0 <= i < |r.legs| ==> LegPasses(r.legs[i])
  }

  // ---------------------------------------------------------------------
  // Properties.

  /** No legs are ever invented: a reply without a truthy `legs` array fails. */
  lemma NoLegsArrayIsError(v: Json)
    requires !v.JNull?
    requires !Truthy(Get(v, "legs")) || !Get(v, "legs").value.JArr?
    ensures Repair(Content(v)) == Err(InvalidFormat)
  {
  }

  /** The repair is one-to-one: same count, same order, leg i from element i. */
  lemma RepairKeepsLegs(v: Json)
    requires Repair(Content(v)).Ok?
    ensures Get(v, "legs").Some? && Get(v, "legs").value.JArr?
    ensures var items := Get(v, "legs").value.items;
            var legs := Repair(Content(v)).value.legs;
            |legs| == |items|
            && forall i :: 0 <= i < |items| ==> !items[i].JNull? && legs[i] == RepairLeg(items[i])
  {
  }

  /** `v` is the leg's `key` when that is truthy, otherwise `fallback`. */
  predicate KeptOrDefault(leg: Json, key: string, v: Json, fallback: Json)
    requires !leg.JNull?
  {
    var f := Get(leg, key);
    if Truthy(f) then Some(v) == f else v == fallback
  }

  /** Every repaired leg has truthy codes and mission number, truthy text in
      the names, times and duration, and numeric pax and cargo weight: each
      text field keeps a truthy value and otherwise takes its documented
      default ('UNKN', 'Unknown Airport', '0000L', '0:00', 'UNKNOWN', or null
      for aircraftType, tailNumber, cargoType and specialHandling). */
  lemma RepairedLegIsPopulated(leg: Json)
    requires !leg.JNull?
    ensures var l := RepairLeg(leg);
            LegPasses(l)
            && Truthy(Some(l.departureName)) && Truthy(Some(l.arrivalName))
            && Truthy(Some(l.departureTime)) && Truthy(Some(l.arrivalTime))
            && Truthy(Some(l.duration))
            && KeptOrDefault(leg, "departureIcao", l.departureIcao, JStr("UNKN"))
            && KeptOrDefault(leg, "departureName", l.departureName, JStr("Unknown Airport"))
            && KeptOrDefault(leg, "arrivalIcao", l.arrivalIcao, JStr("UNKN"))
            && KeptOrDefault(leg, "arrivalName", l.arrivalName, JStr("Unknown Airport"))
            && KeptOrDefault(leg, "departureTime", l.departureTime, JStr("0000L"))
            && KeptOrDefault(leg, "arrivalTime", l.arrivalTime, JStr("0000L"))
            && KeptOrDefault(leg, "duration", l.duration, JStr("0:00"))
            && KeptOrDefault(leg, "missionNumber", l.missionNumber, JStr("UNKNOWN"))
            && KeptOrDefault(leg, "aircraftType", l.aircraftType, JNull)
            && KeptOrDefault(leg, "tailNumber", l.tailNumber, JNull)
            && KeptOrDefault(leg, "cargoType", l.cargoType, JNull)
            && KeptOrDefault(leg, "specialHandling", l.specialHandling, JNull)
  {
  }

  /** pax keeps only numbers: a numeric string such as "12" becomes 0. */
  lemma PaxKeepsOnlyNumbers(leg: Json)
    requires !leg.JNull?
    ensures RepairLeg(leg).pax == (if IsNumber(Get(leg, "pax")) then Get(leg, "pax").value else JNum(0.0))
    ensures Get(leg, "pax") == Some(JStr("12")) ==> RepairLeg(leg).pax == JNum(0.0)
  {
  }

  /** Result-level defaults: numeric confidence passes through, else 0.8;
      formType defaults to "AMC IMI 170"; missionType is copied as is. */
  lemma ResultDefaults(v: Json)
    requires Repair(Content(v)).Ok?
    ensures var r := Repair(Content(v)).value;
            !v.JNull?
            && (IsNumber(Get(v, "confidence")) ==> r.confidence == Get(v, "confidence").value.n)
            && (!IsNumber(Get(v, "confidence")) ==> r.confidence == 0.8)
            && (!Truthy(Get(v, "formType")) ==> r.formType == JStr("AMC IMI 170"))
            && r.missionType == Get(v, "missionType")
  {
  }

  /** Every non-empty repaired result passes validateAMCData. */
  lemma {:induction false} RepairedResultValidates(reply: ModelReply)
    requires Repair(reply).Ok? && |Repair(reply).value.legs| > 0
    ensures ValidateAMCData(Repair(reply).value)
  {
    var v := reply.value;
    var items := Get(v, "legs").value.items;
    var legs := Repair(reply).value.legs;
    forall i | 0 <= i < |legs| ensures LegPasses(legs[i]) {
      RepairedLegIsPopulated(items[i]);
    }
  }

  /** validateAMCData rejects zero legs, and a single failing leg sinks the lot. */
  lemma ValidateRejects(r: OcrResult, i: int)
    requires 0 <= i < |r.legs| && !LegPasses(r.legs[i])
    ensures !ValidateAMCData(r)
    ensures !ValidateAMCData(r.(legs := []))
  {
  }

  /** When the key is present the reply is the only input the outcome depends
      on besides the sniffed label; without it the model is never asked. */
  lemma MissingKeyNeverAsks(image: seq<byte>, ask1: Mime -> ModelReply, ask2: Mime -> ModelReply)
    ensures ProcessAMCDocument(image, "", ask1) == ProcessAMCDocument(image, "", ask2) == Err(MissingApiKey)
  {
  }
}
