/**
 * Client-side OCR helpers (client/src/lib/ocr.ts): local processing is not
 * implemented, and validateOcrResult is the same leg check as the server's
 * validateAMCData without its guard against an empty leg list.
 */
module ClientOcr {
  import opened Common
  import ServerOcr

  const NotImplementedMessage: string :=
    "Client-side OCR processing is not implemented. Use server-side scanning."

  /** processDocument throws for every file. */
  function ProcessDocument(file: seq<byte>): (r: Result<ServerOcr.OcrResult, string>)
    ensures r.Err? && r.error == NotImplementedMessage
  {
    Err(NotImplementedMessage)
  }

  /** `legs.every(...)`, walked from the first leg. */
  function ValidateOcrResult(legs: seq<ServerOcr.Leg>): (ok: bool)
  {
    if legs == [] then true
    else ServerOcr.LegPasses(legs[0]) && ValidateOcrResult(legs[1..])
  }

  /** validateOcrResult holds iff every leg passes the five checks; in
      particular it holds for no legs at all. */
  lemma {:induction false} ValidateOcrResultSpec(legs: seq<ServerOcr.Leg>)
    ensures ValidateOcrResult(legs) <==> forall i :: 0 <= i < |legs| ==> ServerOcr.LegPasses(legs[i])
  {
    if legs != [] {
      ValidateOcrResultSpec(legs[1..]);
      assert forall i :: 1 <= i < |legs| ==> legs[i] == legs[1..][i - 1];
    }
  }

  /** A leg with an empty departure code, arrival code or mission number, or
      with a non-numeric pax or cargo weight, fails the whole list. */
  lemma OneBadLegFails(legs: seq<ServerOcr.Leg>, i: int)
    requires 0 <= i < |legs|
    requires legs[i].departureIcao == ServerOcr.JStr("") || legs[i].arrivalIcao == ServerOcr.JStr("")
             || legs[i].missionNumber == ServerOcr.JStr("")
             || !legs[i].pax.JNum? || !legs[i].cargoWeight.JNum?
    ensures !ValidateOcrResult(legs)
  {
    ValidateOcrResultSpec(legs);
  }

  /** On non-empty leg lists the client and server validators agree; on the
      empty list the client says yes and the server says no. */
  lemma AgreesWithServer(r: ServerOcr.OcrResult)
    ensures |r.legs| > 0 ==> (ValidateOcrResult(r.legs) <==> ServerOcr.ValidateAMCData(r))
    ensures r.legs == [] ==> ValidateOcrResult(r.legs) && !ServerOcr.ValidateAMCData(r)
  {
    ValidateOcrResultSpec(r.legs);
  }
}
