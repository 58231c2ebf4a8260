/** The request and response records of the service (the pydantic models of
    app/main.py) and the JSON documents under which results are stored. */
module Records {
  import opened Wrappers
  import opened Strings
  import opened Database

  /** One scored image: `SignatureVerificationResult`. */
  datatype SignatureResult = SignatureResult(filename: string, isAuthentic: bool, confidence: real)

  /** A stored batch of seven scored uploads: `SignatureSetResult`. */
  datatype SignatureSet = SignatureSet(
    id: string,
    dateUploaded: string,
    signatures: seq<SignatureResult>,
    allAuthentic: bool)

  /** One line of the listing: `SignatureSetResponse`. */
  datatype SetSummary = SetSummary(id: string, dateUploaded: string, allAuthentic: bool, signatureCount: nat)

  /** The answer to a base64 batch: `SignatureVerificationResponse`. */
  datatype VerificationResponse = VerificationResponse(
    verificationId: string,
    results: seq<SignatureResult>,
    allAuthentic: bool,
    flaggedIndices: seq<nat>)

  /** The body of a base64 batch request: `Base64SignatureRequest`. */
  datatype Base64Request = Base64Request(signatures: seq<string>, userId: string, signatureType: string)

  /** The body of a single base64 request: `SingleSignatureRequest`. */
  datatype SingleSignatureRequest = SingleSignatureRequest(signature: string, threshold: real)

  /** The threshold of a single base64 request that gives none. */
  const DefaultSingleThreshold: real := 0.9

  /** A single base64 request as pydantic builds it from the body: a missing
      threshold is 0.9. */
  function SingleRequest(signature: string, threshold: Option<real>): (r: SingleSignatureRequest)
    ensures r.signature == signature
    ensures threshold.None? ==> r.threshold == DefaultSingleThreshold
    ensures threshold.Some? ==> r.threshold == threshold.value
  {
    SingleSignatureRequest(signature, threshold.GetOr(DefaultSingleThreshold))
  }

  /** The document stored for a base64 batch (`verification_data`). */
  datatype VerificationRecord = VerificationRecord(
    userId: string,
    signatureType: string,
    verificationId: string,
    dateVerified: string,
    results: seq<SignatureResult>,
    allAuthentic: bool,
    flaggedIndices: seq<nat>)

  // ---------------------------------------------------------------------------
  // Stored form (`.dict()`)
  // ---------------------------------------------------------------------------

  function EncodeResult(r: SignatureResult): Json {
    JObj(map["filename" := JStr(r.filename), "is_authentic" := JBool(r.isAuthentic), "confidence" := JNum(r.confidence)])
  }

  function EncodeResults(rs: seq<SignatureResult>): (items: seq<Json>)
    ensures |items| == |rs|
  {
    if |rs| == 0 then [] else [EncodeResult(rs[0])] + EncodeResults(rs[1..])
  }

  function EncodeIndices(xs: seq<nat>): (items: seq<Json>)
    ensures |items| == |xs|
  {
    if |xs| == 0 then [] else [JNum(xs[0] as real)] + EncodeIndices(xs[1..])
  }

  /** `SignatureSetResult.dict()`: one key per field, under its Python name. */
  function EncodeSet(s: SignatureSet): (v: Json)
    ensures v.JObj? && v.fields.Keys == {"id", "date_uploaded", "signatures", "all_authentic"}
    ensures Truthy(v)
  {
    JObj(map[
      "id" := JStr(s.id),
      "date_uploaded" := JStr(s.dateUploaded),
      "signatures" := JArr(EncodeResults(s.signatures)),
      "all_authentic" := JBool(s.allAuthentic)])
  }

  /** The `verification_data` dict stored for a base64 batch. It has no
      "date_uploaded" and no "signatures" key. */
  function EncodeVerification(v: VerificationRecord): (j: Json)
    ensures j.JObj?
    ensures j.fields.Keys == {"user_id", "signature_type", "verification_id", "date_verified",
                              "results", "all_authentic", "flagged_indices"}
    ensures "date_uploaded" !in j.fields && "signatures" !in j.fields
  {
    JObj(map[
      "user_id" := JStr(v.userId),
      "signature_type" := JStr(v.signatureType),
      "verification_id" := JStr(v.verificationId),
      "date_verified" := JStr(v.dateVerified),
      "results" := JArr(EncodeResults(v.results)),
      "all_authentic" := JBool(v.allAuthentic),
      "flagged_indices" := JArr(EncodeIndices(v.flaggedIndices))])
  }

  // ---------------------------------------------------------------------------
  // Reading a stored document back as a response model
  // ---------------------------------------------------------------------------

  /** Validation of a stored document as a `SignatureVerificationResult`. */
  function DecodeResult(v: Json): Option<SignatureResult> {
    match v
    case JObj(f) =>
      if && "filename" in f && f["filename"].JStr?
         && "is_authentic" in f && f["is_authentic"].JBool?
         && "confidence" in f && f["confidence"].JNum?
      then Some(SignatureResult(f["filename"].s, f["is_authentic"].b, f["confidence"].n))
      else None
    case _ => None
  }

  function DecodeResults(items: seq<Json>): (r: Option<seq<SignatureResult>>)
    ensures r.Some? ==> |r.value| == |items|
  {
    if |items| == 0 then Some([])
    else match (DecodeResult(items[0]), DecodeResults(items[1..]))
      case (Some(x), Some(xs)) => Some([x] + xs)
      case _ => None
  }

  /** Validation of a stored document as a `SignatureSetResult`; extra keys are
      ignored, as pydantic does. */
  function DecodeSet(v: Json): (r: Option<SignatureSet>)
    ensures r.Some? ==> v.JObj? && Truthy(v)
  {
    match v
    case JObj(f) =>
      if && "id" in f && f["id"].JStr?
         && "date_uploaded" in f && f["date_uploaded"].JStr?
         && "signatures" in f && f["signatures"].JArr?
         && "all_authentic" in f && f["all_authentic"].JBool?
         && DecodeResults(f["signatures"].items).Some?
      then
        Some(SignatureSet(f["id"].s, f["date_uploaded"].s, DecodeResults(f["signatures"].items).value, f["all_authentic"].b))
      else None
    case _ => None
  }

  lemma {:induction false} DecodeEncodeResults(rs: seq<SignatureResult>)
    ensures DecodeResults(EncodeResults(rs)) == Some(rs)
  {
    if |rs| > 0 {
      DecodeEncodeResults(rs[1..]);
      var items := EncodeResults(rs);
      assert items[0] == EncodeResult(rs[0]) && items[1..] == EncodeResults(rs[1..]);
      assert [rs[0]] + rs[1..] == rs;
    }
  }

  /** A stored signature set reads back as itself: what `create` stores is what
      `get` returns, field for field. */
  lemma DecodeEncodeSet(s: SignatureSet)
    ensures DecodeSet(EncodeSet(s)) == Some(s)
  {
    DecodeEncodeResults(s.signatures);
  }

  /** A stored flagged index: a whole, non-negative JSON number. */
  function DecodeIndex(v: Json): (r: Option<nat>)
    ensures r.Some? ==> v == JNum(r.value as real)
  {
    if v.JNum? && v.n >= 0.0 && v.n.Floor as real == v.n then Some(v.n.Floor) else None
  }

  function DecodeIndices(items: seq<Json>): (r: Option<seq<nat>>)
    ensures r.Some? ==> |r.value| == |items|
  {
    if |items| == 0 then Some([])
    else match (DecodeIndex(items[0]), DecodeIndices(items[1..]))
      case (Some(x), Some(xs)) => Some([x] + xs)
      case _ => None
  }

  /** Reading a stored base64-batch document back as the record it was made
      from; extra keys are ignored. */
  function DecodeVerification(v: Json): (r: Option<VerificationRecord>)
    ensures r.Some? ==> v.JObj? && Truthy(v)
  {
    match v
    case JObj(f) =>
      if && "user_id" in f && f["user_id"].JStr?
         && "signature_type" in f && f["signature_type"].JStr?
         && "verification_id" in f && f["verification_id"].JStr?
         && "date_verified" in f && f["date_verified"].JStr?
         && "results" in f && f["results"].JArr?
         && "all_authentic" in f && f["all_authentic"].JBool?
         && "flagged_indices" in f && f["flagged_indices"].JArr?
         && DecodeResults(f["results"].items).Some?
         && DecodeIndices(f["flagged_indices"].items).Some?
      then
        Some(VerificationRecord(
          f["user_id"].s, f["signature_type"].s, f["verification_id"].s, f["date_verified"].s,
          DecodeResults(f["results"].items).value, f["all_authentic"].b,
          DecodeIndices(f["flagged_indices"].items).value))
      else None
    case _ => None
  }

  lemma {:induction false} DecodeEncodeIndices(xs: seq<nat>)
    ensures DecodeIndices(EncodeIndices(xs)) == Some(xs)
  {
    if |xs| > 0 {
      DecodeEncodeIndices(xs[1..]);
      var items := EncodeIndices(xs);
      assert items[0] == JNum(xs[0] as real) && items[1..] == EncodeIndices(xs[1..]);
      assert (xs[0] as real).Floor == xs[0];
      assert [xs[0]] + xs[1..] == xs;
    }
  }

  /** A stored base64-batch document reads back as the record it was made
      from, field for field: the user, the signature type, the verification
      id, the date, every scored result, the overall verdict and the flagged
      indices. */
  lemma DecodeEncodeVerification(v: VerificationRecord)
    ensures DecodeVerification(EncodeVerification(v)) == Some(v)
  {
    DecodeEncodeResults(v.results);
    DecodeEncodeIndices(v.flaggedIndices);
  }

  // ---------------------------------------------------------------------------
  // Listing
  // ---------------------------------------------------------------------------

  /** Python's `len()` of a JSON value; None where it raises TypeError. */
  function Length(v: Json): Option<nat> {
    match v
    case JStr(s) => Some(|s|)
    case JArr(items) => Some(|items|)
    case JObj(fields) => Some(|fields|)
    case _ => None
  }

  /** The summary the listing builds from the document stored under `id`, or
      None where indexing the document, `len()` or validating the summary
      raises. */
  function SummaryOf(id: string, v: Json): (r: Option<SetSummary>)
    ensures r.Some? ==> v.JObj? && "date_uploaded" in v.fields && "all_authentic" in v.fields && "signatures" in v.fields
    ensures r.Some? ==> r.value.id == id && Length(v.fields["signatures"]) == Some(r.value.signatureCount)
  {
    match v
    case JObj(f) =>
      if && "date_uploaded" in f && "all_authentic" in f && "signatures" in f
         && f["date_uploaded"].JStr? && f["all_authentic"].JBool? && Length(f["signatures"]).Some?
      then Some(SetSummary(id, f["date_uploaded"].s, f["all_authentic"].b, Length(f["signatures"]).value))
      else None
    case _ => None
  }

  /** Every document that reads back as a signature set has a summary, whose
      count is the number of its signatures. */
  lemma SummaryOfSet(id: string, v: Json)
    requires DecodeSet(v).Some?
    ensures SummaryOf(id, v).Some?
    ensures var s := DecodeSet(v).value;
      SummaryOf(id, v).value == SetSummary(id, s.dateUploaded, s.allAuthentic, |s.signatures|)
  {
  }

  /** A stored base64-batch document has no "date_uploaded" key, so it has no
      summary. */
  lemma NoSummaryOfVerification(id: string, v: VerificationRecord)
    ensures SummaryOf(id, EncodeVerification(v)) == None
  {
    var f := EncodeVerification(v).fields;
    assert "date_uploaded" !in f;
  }
}
