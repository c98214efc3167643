/**
 * Reading a bill: the media type the document is labelled with, and how the
 * reply of the document-reading service becomes the extracted bill data.
 * The service call, the file read and `JSON.parse` are outside the model:
 * the reply is a parameter and the parser a function parameter.
 */
module BillExtraction {
  import opened Wrappers
  import opened JsValues
  import Uploads

  /** The JSON object the service is asked for; a field that is `null` or missing is `None`. */
  datatype Extracted = Extracted(
    meterNumber: Option<string>,
    supplier: Option<string>,
    dayRate: Option<string>,
    nightRate: Option<string>,
    standingCharge: Option<string>,
    capacity: Option<string>,
    businessName: Option<string>,
    address: Option<string>)

  /** The keys of the extracted object. */
  datatype BillField =
    | BillMeterNumber | BillSupplier | BillDayRate | BillNightRate
    | BillStandingCharge | BillCapacity | BillBusinessName | BillAddress

  /** `extracted[k]`. */
  function Get(x: Extracted, k: BillField): Option<string> {
    match k
    case BillMeterNumber => x.meterNumber
    case BillSupplier => x.supplier
    case BillDayRate => x.dayRate
    case BillNightRate => x.nightRate
    case BillStandingCharge => x.standingCharge
    case BillCapacity => x.capacity
    case BillBusinessName => x.businessName
    case BillAddress => x.address
  }

  /** `extractedBillData?.[k]`: absent when there is no extracted data. */
  function Lookup(x: Option<Extracted>, k: BillField): (v: Option<string>)
    ensures x.None? ==> v.None?
    ensures x.Some? ==> v == Get(x.value, k)
  {
    if x.Some? then Get(x.value, k) else None
  }

  /** A block of the service's reply. */
  datatype Block = TextBlock(text: string) | OtherBlock

  /** The service's answer: its content blocks, or a failure (of the file read or of the call). */
  datatype Reply = Failed | Replied(content: seq<Block>)

  /** What `JSON.parse` makes of the reply text. */
  datatype Parse = Unparsable | ParsedNull | ParsedObject(data: Extracted)

  /**
   * What the extraction helper resolves to. A failure is caught and gives
   * `null`; an empty reply fails on reading its first block and is caught too;
   * a first block that is not text falls through and gives `undefined`; text
   * that does not parse gives `null`. Both `null` and `undefined` are `None`.
   */
  function ExtractBillData(reply: Reply, parse: string -> Parse): (r: Option<Extracted>)
    ensures r.Some? <==>
      reply.Replied? && |reply.content| > 0 && reply.content[0].TextBlock?
      && parse(reply.content[0].text).ParsedObject?
    ensures r.Some? ==> r.value == parse(reply.content[0].text).data
  {
    match reply
    case Failed => None
    case Replied(content) =>
      if |content| == 0 then None
      else
        match content[0]
        case OtherBlock => None
        case TextBlock(text) =>
          match parse(text)
          case Unparsable => None
          case ParsedNull => None
          case ParsedObject(data) => Some(data)
  }

  /** Every way the extraction can go wrong ends in absent data, never in an error. */
  lemma ExtractionFailures(parse: string -> Parse, text: string, rest: seq<Block>)
    ensures ExtractBillData(Failed, parse) == None
    ensures ExtractBillData(Replied([]), parse) == None
    ensures ExtractBillData(Replied([OtherBlock] + rest), parse) == None
    ensures !parse(text).ParsedObject? ==> ExtractBillData(Replied([TextBlock(text)] + rest), parse) == None
    ensures parse(text).ParsedObject? ==>
      ExtractBillData(Replied([TextBlock(text)] + rest), parse) == Some(parse(text).data)
  {
  }

  /** A lower-cased name ends in at most one of the recognised image extensions. */
  lemma ExtensionsExclusive(s: string)
    ensures EndsWith(s, ".png") ==> !EndsWith(s, ".jpg") && !EndsWith(s, ".jpeg")
  {
    if EndsWith(s, ".png") {
      assert s[|s| - 3] == ".png"[1];
      assert s[|s| - 2] == ".png"[2];
    }
  }

  /**
   * The media type the bill is labelled with, chosen from its file name alone:
   * PNG for `.png`, JPEG for `.jpg` and `.jpeg`, in any letter case, and PDF
   * for every other name.
   */
  method MediaType(fileName: string) returns (mediaType: string)
    ensures EndsWith(ToLower(fileName), ".png") ==> mediaType == "image/png"
    ensures (EndsWith(ToLower(fileName), ".jpg") || EndsWith(ToLower(fileName), ".jpeg")) ==> mediaType == "image/jpeg"
    ensures (!EndsWith(ToLower(fileName), ".png") && !EndsWith(ToLower(fileName), ".jpg")
             && !EndsWith(ToLower(fileName), ".jpeg")) ==> mediaType == "application/pdf"
    ensures mediaType in Uploads.AllowedMimes
  {
    ExtensionsExclusive(ToLower(fileName));
    mediaType := "application/pdf";
    if EndsWith(ToLower(fileName), ".png") {
      mediaType := "image/png";
    }
    if EndsWith(ToLower(fileName), ".jpg") || EndsWith(ToLower(fileName), ".jpeg") {
      mediaType := "image/jpeg";
    }
  }
}
