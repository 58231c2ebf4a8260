/** The verification flows of the service (app/main.py): turning a model score
    into a decision, preparing images, scoring batches item by item, and
    storing, listing, reading and deleting the results.

    Everything outside the service's own code is a parameter: decoding base64
    text, decoding and resizing an image into the model's input, and the model
    itself (absent when none could be loaded). Fresh ids and the current time
    are passed in as well. */
module Verification {
  import opened Wrappers
  import opened Strings
  import opened Database
  import opened Records
  import Config

  type Bytes = seq<bv8>

  /** The model's input: the 1 x 224 x 224 x 3 array of scaled pixels, flattened.
      The service never looks inside it. */
  type Tensor = seq<real>

  /** `model.predict(...)[0]`: the scores for "authentic" and "forged". */
  datatype Prediction = Prediction(authentic: real, forgery: real)

  /** A call to `model.predict`, or the text of the exception it raises. */
  type Predictor = Tensor -> Result<Prediction, string>

  datatype Env = Env(
    b64decode: string -> Result<Bytes, string>,      // base64.b64decode
    decodeImage: Bytes -> Result<Tensor, string>,    // PIL open, colour conversion, resize, scaling
    model: Option<Predictor>,                        // the loaded model, if any
    threshold: real)                                 // CONFIDENCE_THRESHOLD

  /** An HTTPException: status code and detail text. */
  datatype HttpError = HttpError(status: int, detail: string)

  const ModelNotLoaded := HttpError(500, "Model not loaded. Please check server logs for details.")
  const NotFound := HttpError(404, "Signature set not found")
  /** What the framework answers when a handler raises anything but an HTTPException. */
  const InternalError := HttpError(500, "Internal Server Error")
  const WrongSetSize := HttpError(400, "Exactly 7 signature files are required")
  const EmptyBatch := HttpError(400, "At least one signature is required")
  const OversizedBatch := HttpError(400, "Maximum 7 signatures allowed")
  const SetSize := 7
  const MaxBatchSize := 7

  /** `str(e)` of an HTTPException: "<status>: <detail>". */
  function ExceptionText(e: HttpError): string {
    IntToString(e.status) + ": " + e.detail
  }

  // ---------------------------------------------------------------------------
  // Decision policy
  // ---------------------------------------------------------------------------

  /** The decision for one image: authentic when its score reaches the
      threshold (inclusively), reported with the confidence of the decided
      class. */
  function Decide(filename: string, score: real, threshold: real): (r: SignatureResult)
    ensures r.filename == filename
    ensures r.isAuthentic <==> score >= threshold
    ensures r.isAuthentic ==> r.confidence == score && r.confidence >= threshold
    ensures !r.isAuthentic ==> r.confidence == 1.0 - score && r.confidence > 1.0 - threshold
    ensures 0.0 <= score <= 1.0 ==> 0.0 <= r.confidence <= 1.0
  {
    var isAuthentic := score >= threshold;
    SignatureResult(filename, isAuthentic, if isAuthentic then score else 1.0 - score)
  }

  // ---------------------------------------------------------------------------
  // Image preparation
  // ---------------------------------------------------------------------------

  /** `preprocess_image`: the model input, or a 400 naming the decoding error. */
  function PreprocessImage(env: Env, bytes: Bytes): (r: Result<Tensor, HttpError>)
    ensures r.Success? <==> env.decodeImage(bytes).Success?
    ensures r.Success? ==> r.value == env.decodeImage(bytes).value
    ensures r.Failure? ==> r.error.status == 400 && StartsWith(r.error.detail, "Error processing image: ")
  {
    match env.decodeImage(bytes)
    case Success(t) => Success(t)
    case Failure(msg) =>
      StartsWithConcat("Error processing image: ", msg);
      Failure(HttpError(400, "Error processing image: " + msg))
  }

  /** The data-URL prefix removal of `preprocess_base64_image`: text with a
      comma is replaced by `split(',')[1]`, the piece after the first comma. */
  function StripDataUrlPrefix(s: string): (payload: string)
    ensures ',' !in payload
    ensures ',' !in s ==> payload == s
    ensures ',' in s ==> |payload| < |s|
  {
    if ',' in s then
      var parts := Split(s, ',');
      assert |parts| >= 2 by {
        if |parts| == 1 {
          JoinSplit(s, ',');
        }
      }
      assert |parts[1]| < |s| by {
        JoinSplit(s, ',');
        assert s == parts[0] + [','] + Join(parts[1..], ',');
        JoinLength(parts[1..], ',');
      }
      parts[1]
    else s
  }

  lemma JoinLength(parts: seq<string>, sep: char)
    requires |parts| >= 1
    ensures |Join(parts, sep)| >= |parts[0]|
  {
  }

  /** Whatever header precedes the first comma, the payload is the text between
      it and the next comma (or the end). */
  lemma StripDataUrlPrefixOf(header: string, payload: string, rest: string)
    requires ',' !in header && ',' !in payload
    ensures StripDataUrlPrefix(header + "," + payload) == payload
    ensures StripDataUrlPrefix(header + "," + payload + "," + rest) == payload
  {
    SplitAfterSeparator(header, ',', payload);
    SplitWithoutSeparator(payload, ',');
    assert (header + "," + payload)[|header|] == ',';
    SplitAfterSeparator(header, ',', payload + "," + rest);
    SplitAfterSeparator(payload, ',', rest);
    assert header + "," + payload + "," + rest == header + [','] + (payload + [','] + rest);
    assert (header + "," + payload + "," + rest)[|header|] == ',';
  }

  /** The data URL the client sends is reduced to its base64 payload. */
  lemma StripDataUrlExample()
    ensures StripDataUrlPrefix("data:image/png;base64,XYZ") == "XYZ"
  {
    var header, payload := "data:image/png;base64", "XYZ";
    assert ',' !in header && ',' !in payload;
    var url := header + "," + payload;
    assert url == "data:image/png;base64,XYZ" by {
      forall i | 0 <= i < |url| ensures url[i] == "data:image/png;base64,XYZ"[i] {
      }
    }
    StripDataUrlPrefixOf(header, payload, "");
  }

  /** `preprocess_base64_image`: strip the prefix, decode the base64 text, then
      prepare the image; every failure becomes a 400 naming its cause. */
  function PreprocessBase64(env: Env, s: string): (r: Result<Tensor, HttpError>)
    ensures r.Success? <==>
      && env.b64decode(StripDataUrlPrefix(s)).Success?
      && env.decodeImage(env.b64decode(StripDataUrlPrefix(s)).value).Success?
    ensures r.Success? ==> r.value == env.decodeImage(env.b64decode(StripDataUrlPrefix(s)).value).value
    ensures r.Failure? ==> r.error.status == 400 && StartsWith(r.error.detail, "Error processing base64 image: ")
  {
    match env.b64decode(StripDataUrlPrefix(s))
    case Failure(msg) =>
      StartsWithConcat("Error processing base64 image: ", msg);
      Failure(HttpError(400, "Error processing base64 image: " + msg))
    case Success(bytes) =>
      match PreprocessImage(env, bytes)
      case Success(t) => Success(t)
      case Failure(e) =>
        StartsWithConcat("Error processing base64 image: ", ExceptionText(e));
        Failure(HttpError(400, "Error processing base64 image: " + ExceptionText(e)))
  }

  // ---------------------------------------------------------------------------
  // Scoring one image
  // ---------------------------------------------------------------------------

  /** One uploaded file as the file flows score it: preparation errors surface
      as their own 400, a failing prediction as a 500, and a file without a name
      is reported under `fallbackName`. */
  function FileResult(env: Env, predict: Predictor, file: UploadFile, fallbackName: string): (r: Result<SignatureResult, HttpError>)
    ensures r.Failure? && r.error.status == 400 <==> env.decodeImage(file.contents).Failure?
    ensures r.Failure? ==> r.error.status == 400 || r.error.status == 500
    ensures env.decodeImage(file.contents).Success? && predict(env.decodeImage(file.contents).value).Success? ==> r.Success?
    ensures r.Success? ==>
      && env.decodeImage(file.contents).Success?
      && predict(env.decodeImage(file.contents).value).Success?
      && r.value == Decide(if file.filename != "" then file.filename else fallbackName,
                           predict(env.decodeImage(file.contents).value).value.authentic, env.threshold)
  {
    match PreprocessImage(env, file.contents)
    case Failure(e) => Failure(e)
    case Success(t) =>
      match predict(t)
      case Failure(msg) => Failure(HttpError(500, "Error during prediction: " + msg))
      case Success(p) =>
        var name := if file.filename != "" then file.filename else fallbackName;
        Success(Decide(name, p.authentic, env.threshold))
  }

  datatype UploadFile = UploadFile(filename: string, contents: Bytes)

  /** The first `verify_single_signature` (POST /verify-signature): one uploaded
      file, scored against the configured threshold, not stored. */
  function VerifySingleFile(env: Env, file: UploadFile): (r: Result<SignatureResult, HttpError>)
    ensures env.model.None? ==> r == Failure(ModelNotLoaded)
    ensures env.model.Some? ==> r == FileResult(env, env.model.value, file, "unknown")
  {
    match env.model
    case None => Failure(ModelNotLoaded)
    case Some(predict) => FileResult(env, predict, file, "unknown")
  }

  /** The name reported for the `k`-th file of a set when it has none. */
  function FallbackName(uuid: string): string {
    "file-" + uuid + ".jpg"
  }

  /** The `k`-th file of a set, scored. */
  function SetItem(env: Env, predict: Predictor, files: seq<UploadFile>, uuids: nat -> string, k: nat): Result<SignatureResult, HttpError>
    requires k < |files|
  {
    FileResult(env, predict, files[k], FallbackName(uuids(k)))
  }

  /** The `k`-th base64 signature of a batch, scored: it is named
      "signature_<k+1>", and any failure, a preparation 400 included, becomes a
      500 naming it. */
  function Base64Item(env: Env, predict: Predictor, signature: string, k: nat): (r: Result<SignatureResult, HttpError>)
    ensures r.Success? ==> r.value.filename == "signature_" + NatToString(k + 1)
    ensures r.Success? <==>
      && PreprocessBase64(env, signature).Success?
      && predict(PreprocessBase64(env, signature).value).Success?
    ensures r.Success? ==>
      (r.value.isAuthentic <==> predict(PreprocessBase64(env, signature).value).value.authentic >= env.threshold)
    ensures r.Success? ==>
      r.value == Decide("signature_" + NatToString(k + 1),
                        predict(PreprocessBase64(env, signature).value).value.authentic, env.threshold)
    ensures r.Failure? ==>
      r.error.status == 500 && StartsWith(r.error.detail, ItemFailurePrefix(k))
  {
    match PreprocessBase64(env, signature)
    case Failure(e) =>
      StartsWithConcat(ItemFailurePrefix(k), ExceptionText(e));
      Failure(HttpError(500, ItemFailurePrefix(k) + ExceptionText(e)))
    case Success(t) =>
      match predict(t)
      case Failure(msg) =>
        StartsWithConcat(ItemFailurePrefix(k), msg);
        Failure(HttpError(500, ItemFailurePrefix(k) + msg))
      case Success(p) => Success(Decide("signature_" + NatToString(k + 1), p.authentic, env.threshold))
  }

  function ItemFailurePrefix(k: nat): string {
    "Error during prediction for signature " + NatToString(k + 1) + ": "
  }

  // ---------------------------------------------------------------------------
  // Scoring a batch
  // ---------------------------------------------------------------------------

  datatype ScoredFiles = ScoredFiles(results: seq<SignatureResult>, allAuthentic: bool)

  datatype ScoredBatch = ScoredBatch(results: seq<SignatureResult>, allAuthentic: bool, flaggedIndices: seq<nat>)

  /** `s` holds, in upload order, the score of every file, and `allAuthentic`
      says whether all of them were found authentic. */
  ghost predicate FilesScored(env: Env, predict: Predictor, files: seq<UploadFile>, uuids: nat -> string, s: ScoredFiles) {
    && |s.results| == |files|
    && (forall k :: 0 <= k < |files| ==> SetItem(env, predict, files, uuids, k) == Success(s.results[k]))
    && (s.allAuthentic <==> forall k :: 0 <= k < |s.results| ==> s.results[k].isAuthentic)
  }

  /** `e` is the failure of the first file that fails. */
  ghost predicate FirstFileFailure(env: Env, predict: Predictor, files: seq<UploadFile>, uuids: nat -> string, e: HttpError) {
    exists k ::
      && 0 <= k < |files|
      && SetItem(env, predict, files, uuids, k) == Failure(e)
      && forall j :: 0 <= j < k ==> SetItem(env, predict, files, uuids, j).Success?
  }

  /** The loop of `verify_signature_set`: scores the files in order, stopping
      at the first failure. */
  method ScoreSignatureFiles(env: Env, predict: Predictor, files: seq<UploadFile>, uuids: nat -> string)
    returns (r: Result<ScoredFiles, HttpError>)
    ensures r.Success? <==> forall k :: 0 <= k < |files| ==> SetItem(env, predict, files, uuids, k).Success?
    ensures r.Success? ==> FilesScored(env, predict, files, uuids, r.value)
    ensures r.Failure? ==> FirstFileFailure(env, predict, files, uuids, r.error)
  {
    var results: seq<SignatureResult> := [];
    var allAuthentic := true;
    var i := 0;
    while i < |files|
      invariant 0 <= i <= |files|
      invariant |results| == i
      invariant forall k :: 0 <= k < i ==> SetItem(env, predict, files, uuids, k) == Success(results[k])
      invariant allAuthentic <==> forall k :: 0 <= k < i ==> results[k].isAuthentic
    {
      var item := SetItem(env, predict, files, uuids, i);
      if item.Failure? {
        return Failure(item.error);
      }
      if !item.value.isAuthentic {
        allAuthentic := false;
      }
      results := results + [item.value];
      i := i + 1;
    }
    r := Success(ScoredFiles(results, allAuthentic));
  }

  /** `s` holds, in request order, the score of every signature; `allAuthentic`
      says whether all were found authentic; `flaggedIndices` lists, in
      ascending order, exactly the positions found not authentic. */
  ghost predicate BatchScored(env: Env, predict: Predictor, signatures: seq<string>, s: ScoredBatch) {
    && |s.results| == |signatures|
    && ItemsScored(env, predict, signatures, s.results)
    && (s.allAuthentic <==> forall k :: 0 <= k < |s.results| ==> s.results[k].isAuthentic)
    && FlagsMatch(s.results, s.flaggedIndices)
    && (s.allAuthentic <==> s.flaggedIndices == [])
  }

  /** `flagged` lists, in ascending order, exactly the positions of `results`
      found not authentic. */
  ghost predicate FlagsMatch(results: seq<SignatureResult>, flagged: seq<nat>) {
    && (forall j :: 0 <= j < |flagged| ==> flagged[j] < |results|)
    && (forall a, b :: 0 <= a < b < |flagged| ==> flagged[a] < flagged[b])
    && (forall k :: 0 <= k < |results| ==> (k in flagged <==> !results[k].isAuthentic))
  }

  /** No position is flagged exactly when every result is authentic. */
  lemma FlagsEmptyIffAllAuthentic(results: seq<SignatureResult>, flagged: seq<nat>)
    requires FlagsMatch(results, flagged)
    ensures flagged == [] <==> forall k :: 0 <= k < |results| ==> results[k].isAuthentic
  {
    if flagged != [] {
      assert flagged[0] in flagged;
    }
  }

  /** Appending one result, and its position when it is not authentic, keeps
      the flags matching. */
  lemma FlagsMatchStep(results: seq<SignatureResult>, flagged: seq<nat>, v: SignatureResult)
    requires FlagsMatch(results, flagged)
    ensures FlagsMatch(results + [v], if v.isAuthentic then flagged else flagged + [|results|])
  {
    var rs := results + [v];
    var fs := if v.isAuthentic then flagged else flagged + [|results|];
    forall k | 0 <= k < |rs|
      ensures k in fs <==> !rs[k].isAuthentic
    {
      if k < |results| {
        assert rs[k] == results[k];
        assert k in fs <==> k in flagged;
      }
    }
  }

  /** `results` are the scores of the first `|results|` signatures, in order. */
  ghost predicate ItemsScored(env: Env, predict: Predictor, signatures: seq<string>, results: seq<SignatureResult>) {
    && |results| <= |signatures|
    && forall k :: 0 <= k < |results| ==> Base64Item(env, predict, signatures[k], k) == Success(results[k])
  }

  lemma ItemsScoredStep(env: Env, predict: Predictor, signatures: seq<string>, results: seq<SignatureResult>, v: SignatureResult)
    requires ItemsScored(env, predict, signatures, results)
    requires |results| < |signatures|
    requires Base64Item(env, predict, signatures[|results|], |results|) == Success(v)
    ensures ItemsScored(env, predict, signatures, results + [v])
  {
    var rs := results + [v];
    assert forall k :: 0 <= k < |results| ==> rs[k] == results[k];
    assert rs[|results|] == v;
  }

  /** `e` is the failure of the first signature that fails. */
  ghost predicate FirstBatchFailure(env: Env, predict: Predictor, signatures: seq<string>, e: HttpError) {
    exists k ::
      && 0 <= k < |signatures|
      && Base64Item(env, predict, signatures[k], k) == Failure(e)
      && forall j :: 0 <= j < k ==> Base64Item(env, predict, signatures[j], j).Success?
  }

  /** The loop of `verify_student_signatures`: scores the signatures in order,
      flagging those not found authentic, stopping at the first failure. */
  method ScoreBase64Batch(env: Env, predict: Predictor, signatures: seq<string>)
    returns (r: Result<ScoredBatch, HttpError>)
    ensures r.Success? <==> forall k :: 0 <= k < |signatures| ==> Base64Item(env, predict, signatures[k], k).Success?
    ensures r.Success? ==> BatchScored(env, predict, signatures, r.value)
    ensures r.Failure? ==> FirstBatchFailure(env, predict, signatures, r.error)
  {
    var results: seq<SignatureResult> := [];
    var flagged: seq<nat> := [];
    var allAuthentic := true;
    var i := 0;
    while i < |signatures|
      invariant 0 <= i <= |signatures|
      invariant |results| == i
      invariant ItemsScored(env, predict, signatures, results)
      invariant FlagsMatch(results, flagged)
      invariant allAuthentic <==> flagged == []
    {
      var item := Base64Item(env, predict, signatures[i], i);
      if item.Failure? {
        return Failure(item.error);
      }
      FlagsMatchStep(results, flagged, item.value);
      ItemsScoredStep(env, predict, signatures, results, item.value);
      if !item.value.isAuthentic {
        allAuthentic := false;
        flagged := flagged + [i];
      }
      results := results + [item.value];
      i := i + 1;
    }
    FlagsEmptyIffAllAuthentic(results, flagged);
    r := Success(ScoredBatch(results, allAuthentic, flagged));
  }

  // ---------------------------------------------------------------------------
  // The store of results
  // ---------------------------------------------------------------------------

  /** Base64 batches are stored beside the signature sets under this prefix. */
  predicate IsVerificationKey(id: string) {
    StartsWith(id, "verification_")
  }

  /** Every entry that is not a base64-batch record reads back as a signature
      set. The handlers keep this. */
  ghost predicate StoreWellFormed(data: map<string, Json>) {
    forall id :: id in data && !IsVerificationKey(id) ==> DecodeSet(data[id]).Some?
  }

  /** `get_signature_set` (GET /signature-set/{id}): the stored set, 404 when
      nothing (or a false value) is stored under `id`, and a 500 when the stored
      document does not validate as a signature set. */
  function GetSignatureSet(db: JsonDatabase, id: string): (r: Result<SignatureSet, HttpError>)
    reads db
    ensures id !in db.data ==> r == Failure(NotFound)
    ensures r.Success? <==> id in db.data && DecodeSet(db.data[id]).Some?
    ensures r.Success? ==> r.value == DecodeSet(db.data[id]).value
    ensures id in db.data && !Truthy(db.data[id]) ==> r == Failure(NotFound)
    ensures id in db.data && Truthy(db.data[id]) && DecodeSet(db.data[id]).None? ==> r == Failure(InternalError)
  {
    match db.Get(id)
    case None => Failure(NotFound)
    case Some(v) =>
      if !Truthy(v) then Failure(NotFound)
      else match DecodeSet(v)
        case None => Failure(InternalError)
        case Some(s) => Success(s)
  }

  /** `delete_signature_set` (DELETE /signature-set/{id}): removes the entry
      under `id`, or answers 404 and changes nothing. */
  method DeleteSignatureSet(db: JsonDatabase, id: string) returns (r: Result<string, HttpError>)
    modifies db
    ensures r.Failure? <==> id !in old(db.data) || !Truthy(old(db.data)[id])
    ensures r.Failure? ==> r.error == NotFound && db.data == old(db.data) && db.persisted == old(db.persisted)
    ensures r.Success? ==> r.value == "Signature set deleted successfully"
    ensures r.Success? ==> db.data == old(db.data) - {id} && db.Synced()
    ensures r.Success? ==> GetSignatureSet(db, id) == Failure(NotFound)
    ensures StoreWellFormed(old(db.data)) ==> StoreWellFormed(db.data)
  {
    var setData := db.Get(id);
    if setData.None? || !Truthy(setData.value) {
      return Failure(NotFound);
    }
    var _ := db.Delete(id);
    r := Success("Signature set deleted successfully");
  }

  /** `get_signature_sets` (GET /signature-sets) as written: a summary of every
      stored entry, keyed by id; one entry without the fields of a signature
      set makes the whole listing fail with a 500. */
  function ListSignatureSets(db: JsonDatabase): (r: Result<map<string, SetSummary>, HttpError>)
    reads db
    ensures r.Success? <==> forall id :: id in db.data ==> SummaryOf(id, db.data[id]).Some?
    ensures r.Failure? ==> r.error == InternalError
    ensures r.Success? ==> r.value.Keys == db.data.Keys
    ensures r.Success? ==> forall id :: id in r.value ==> Some(r.value[id]) == SummaryOf(id, db.data[id])
  {
    var all := db.GetAll();
    if forall id | id in all :: SummaryOf(id, all[id]).Some? then
      Success(map id | id in all :: SummaryOf(id, all[id]).value)
    else
      Failure(InternalError)
  }

  /** As soon as one base64 batch has been stored, the listing fails. */
  lemma ListingFailsWithVerificationRecord(db: JsonDatabase, verificationId: string, v: VerificationRecord)
    requires "verification_" + verificationId in db.data
    requires db.data["verification_" + verificationId] == EncodeVerification(v)
    ensures ListSignatureSets(db) == Failure(InternalError)
  {
    NoSummaryOfVerification("verification_" + verificationId, v);
  }

  /** The listing restricted to signature sets: base64-batch records are
      skipped. On a well-formed store it never fails, and it has one summary,
      with the set's signature count, per stored set. */
  function ListSignatureSetsFixed(db: JsonDatabase): (r: Result<map<string, SetSummary>, HttpError>)
    reads db
    ensures StoreWellFormed(db.data) ==> r.Success?
    ensures r.Failure? ==> r.error == InternalError
    ensures r.Success? ==> r.value.Keys == set id | id in db.data && !IsVerificationKey(id)
    ensures r.Success? ==> forall id :: id in r.value ==> Some(r.value[id]) == SummaryOf(id, db.data[id])
    ensures StoreWellFormed(db.data) ==> forall id :: id in r.value ==>
      r.value[id].signatureCount == |DecodeSet(db.data[id]).value.signatures|
  {
    var all := db.GetAll();
    if forall id | id in all && !IsVerificationKey(id) :: SummaryOf(id, all[id]).Some? then
      Success(map id | id in all && !IsVerificationKey(id) :: SummaryOf(id, all[id]).value)
    else
      assert !StoreWellFormed(all) by {
        if StoreWellFormed(all) {
          forall id | id in all && !IsVerificationKey(id) ensures SummaryOf(id, all[id]).Some? {
            SummaryOfSet(id, all[id]);
          }
        }
      }
      Failure(InternalError)
  }

  // ---------------------------------------------------------------------------
  // Batch flows that store their result
  // ---------------------------------------------------------------------------

  /** `verify_signature_set` (POST /verify-signature-set): exactly seven files,
      scored in order; only when every one scores is the set stored, under
      `setId`, dated `now`. `uuids(k)` is the fresh id naming the `k`-th file
      when it has no name. */
  method VerifySignatureSet(env: Env, db: JsonDatabase, files: seq<UploadFile>, setId: string, uuids: nat -> string, now: string)
    returns (r: Result<SignatureSet, HttpError>)
    modifies db
    ensures env.model.None? ==> r == Failure(ModelNotLoaded)
    ensures env.model.Some? && |files| != SetSize ==> r == Failure(WrongSetSize)
    ensures env.model.Some? && |files| == SetSize ==>
      (r.Success? <==> forall k :: 0 <= k < |files| ==> SetItem(env, env.model.value, files, uuids, k).Success?)
    ensures env.model.Some? && |files| == SetSize && r.Failure? ==>
      FirstFileFailure(env, env.model.value, files, uuids, r.error)
    ensures r.Success? ==>
      && env.model.Some? && |files| == SetSize
      && r.value.id == setId && r.value.dateUploaded == now
      && FilesScored(env, env.model.value, files, uuids, ScoredFiles(r.value.signatures, r.value.allAuthentic))
    ensures r.Failure? ==> db.data == old(db.data) && db.persisted == old(db.persisted)
    ensures r.Success? ==> db.data == old(db.data)[setId := EncodeSet(r.value)] && db.Synced()
    ensures r.Success? ==> GetSignatureSet(db, setId) == Success(r.value)
    ensures StoreWellFormed(old(db.data)) ==> StoreWellFormed(db.data)
  {
    if env.model.None? {
      return Failure(ModelNotLoaded);
    }
    if |files| != SetSize {
      return Failure(WrongSetSize);
    }
    var scored := ScoreSignatureFiles(env, env.model.value, files, uuids);
    if scored.Failure? {
      return Failure(scored.error);
    }
    var signatureSet := SignatureSet(setId, now, scored.value.results, scored.value.allAuthentic);
    var _ := db.Create(setId, EncodeSet(signatureSet));
    DecodeEncodeSet(signatureSet);
    r := Success(signatureSet);
  }

  /** `verify_student_signatures` (POST /verify-student-signatures): one to
      seven base64 signatures, scored in order; only when every one scores is
      the record stored, under "verification_" + `verificationId`, dated
      `now`. */
  method VerifyStudentSignatures(env: Env, db: JsonDatabase, request: Base64Request, verificationId: string, now: string)
    returns (r: Result<VerificationResponse, HttpError>)
    modifies db
    ensures env.model.None? ==> r == Failure(ModelNotLoaded)
    ensures env.model.Some? && |request.signatures| == 0 ==> r == Failure(EmptyBatch)
    ensures env.model.Some? && |request.signatures| > MaxBatchSize ==> r == Failure(OversizedBatch)
    ensures env.model.Some? && 1 <= |request.signatures| <= MaxBatchSize ==>
      (r.Success? <==> forall k :: 0 <= k < |request.signatures| ==>
                         Base64Item(env, env.model.value, request.signatures[k], k).Success?)
    ensures env.model.Some? && 1 <= |request.signatures| <= MaxBatchSize && r.Failure? ==>
      FirstBatchFailure(env, env.model.value, request.signatures, r.error)
    ensures r.Success? ==>
      && env.model.Some? && 1 <= |request.signatures| <= MaxBatchSize
      && r.value.verificationId == verificationId
      && BatchScored(env, env.model.value, request.signatures,
                     ScoredBatch(r.value.results, r.value.allAuthentic, r.value.flaggedIndices))
    ensures r.Failure? ==> db.data == old(db.data) && db.persisted == old(db.persisted)
    ensures r.Success? ==>
      && db.data == old(db.data)["verification_" + verificationId :=
           EncodeVerification(VerificationRecord(request.userId, request.signatureType, verificationId, now,
                                                 r.value.results, r.value.allAuthentic, r.value.flaggedIndices))]
      && db.Synced()
    ensures StoreWellFormed(old(db.data)) ==> StoreWellFormed(db.data)
    ensures r.Success? ==>
      && "verification_" + verificationId in db.data
      && DecodeVerification(db.data["verification_" + verificationId])
         == Some(VerificationRecord(request.userId, request.signatureType, verificationId, now,
                                    r.value.results, r.value.allAuthentic, r.value.flaggedIndices))
  {
    if env.model.None? {
      return Failure(ModelNotLoaded);
    }
    if |request.signatures| == 0 {
      return Failure(EmptyBatch);
    }
    if |request.signatures| > MaxBatchSize {
      return Failure(OversizedBatch);
    }
    var scored := ScoreBase64Batch(env, env.model.value, request.signatures);
    if scored.Failure? {
      return Failure(scored.error);
    }
    var response := VerificationResponse(verificationId, scored.value.results, scored.value.allAuthentic, scored.value.flaggedIndices);
    var record := VerificationRecord(request.userId, request.signatureType, verificationId, now,
                                     scored.value.results, scored.value.allAuthentic, scored.value.flaggedIndices);
    StartsWithConcat("verification_", verificationId);
    DecodeEncodeVerification(record);
    var _ := db.Create("verification_" + verificationId, EncodeVerification(record));
    r := Success(response);
  }

  // ---------------------------------------------------------------------------
  // Single base64 signature with its own threshold
  // ---------------------------------------------------------------------------


  /** The answer of the single base64 flow: the decision, the raw scores and the
      threshold used. */
  datatype SingleResult = SingleResult(
    isAuthentic: bool,
    confidence: real,
    thresholdUsed: real,
    authenticConfidence: real,
    forgeConfidence: real)

  /** An exception raised inside the single base64 flow. */
  datatype Raised = Http(e: HttpError) | Other(message: string)

  /** `str(e)` of a raised exception. */
  function RaisedText(r: Raised): string {
    match r
    case Http(e) => ExceptionText(e)
    case Other(message) => message
  }

  /** The body of the single base64 flow once the request has a non-empty
      signature: prepare, predict, compare with the request's threshold. */
  function ScoreSingle(env: Env, request: SingleSignatureRequest): (r: Result<SingleResult, Raised>)
    ensures r.Success? ==> r.value.confidence == r.value.authenticConfidence
    ensures r.Success? ==> r.value.thresholdUsed == request.threshold
    ensures r.Success? ==> (r.value.isAuthentic <==> r.value.authenticConfidence >= request.threshold)
    ensures r.Success? <==>
      && PreprocessBase64(env, request.signature).Success?
      && env.model.Some?
      && env.model.value(PreprocessBase64(env, request.signature).value).Success?
    ensures r.Success? ==>
      var p := env.model.value(PreprocessBase64(env, request.signature).value).value;
      r.value.authenticConfidence == p.authentic && r.value.forgeConfidence == p.forgery
    ensures r.Failure? && r.error.Http? <==> PreprocessBase64(env, request.signature).Failure?
    ensures r.Failure? && r.error.Http? ==> r.error.e == PreprocessBase64(env, request.signature).error
  {
    match PreprocessBase64(env, request.signature)
    case Failure(e) => Failure(Http(e))
    case Success(t) =>
      match env.model
      case None => Failure(Other("'NoneType' object has no attribute 'predict'"))
      case Some(predict) =>
        match predict(t)
        case Failure(msg) => Failure(Other(msg))
        case Success(p) =>
          Success(SingleResult(p.authentic >= request.threshold, p.authentic, request.threshold, p.authentic, p.forgery))
  }

  const MissingSignature := HttpError(400, "Signature data is required")

  /** The second `verify_single_signature` (POST /verify-single-signature), as
      written: the whole body sits in one `except Exception`, so every failure,
      the 400s it raises itself included, comes back as a 500. */
  function VerifySingleSignature(env: Env, request: SingleSignatureRequest): (r: Result<SingleResult, HttpError>)
    ensures r.Failure? ==> r.error.status == 500 && StartsWith(r.error.detail, "Verification failed: ")
    ensures r.Success? <==> request.signature != "" && ScoreSingle(env, request).Success?
    ensures r.Success? ==> r.value == ScoreSingle(env, request).value
  {
    var outcome := if request.signature == "" then Failure(Http(MissingSignature)) else ScoreSingle(env, request);
    match outcome
    case Success(v) => Success(v)
    case Failure(raised) =>
      StartsWithConcat("Verification failed: ", RaisedText(raised));
      Failure(HttpError(500, "Verification failed: " + RaisedText(raised)))
  }

  /** The single base64 flow with its HTTPExceptions passed through unchanged:
      a missing signature or an image that cannot be prepared is the client's
      400; only other exceptions are a 500. */
  function VerifySingleSignatureFixed(env: Env, request: SingleSignatureRequest): (r: Result<SingleResult, HttpError>)
    ensures request.signature == "" ==> r == Failure(MissingSignature)
    ensures request.signature != "" && PreprocessBase64(env, request.signature).Failure? ==>
      r == Failure(PreprocessBase64(env, request.signature).error)
    ensures r.Failure? ==> (r.error.status == 400 <==>
      request.signature == "" || PreprocessBase64(env, request.signature).Failure?)
    ensures r.Success? ==> r == VerifySingleSignature(env, request)
    ensures r.Success? <==> VerifySingleSignature(env, request).Success?
    ensures r.Failure? && r.error.status != 400 ==> r == VerifySingleSignature(env, request)
  {
    if request.signature == "" then Failure(MissingSignature)
    else
      match ScoreSingle(env, request)
      case Success(v) => Success(v)
      case Failure(Http(e)) => Failure(e)
      case Failure(Other(message)) => Failure(HttpError(500, "Verification failed: " + message))
  }

  lemma FourHundredText()
    ensures IntToString(400) == "400"
  {
    assert NatToString(4) == "4";
    assert NatToString(40) == NatToString(4) + "0";
    assert NatToString(400) == NatToString(40) + "0";
  }

  /** An empty signature is answered 500 by the handler as written, 400 by the
      corrected one. */
  lemma EmptySignatureStatus(env: Env, threshold: real)
    ensures VerifySingleSignature(env, SingleSignatureRequest("", threshold))
         == Failure(HttpError(500, "Verification failed: " + ("400: " + MissingSignature.detail)))
    ensures VerifySingleSignatureFixed(env, SingleSignatureRequest("", threshold)) == Failure(MissingSignature)
  {
    var request := SingleSignatureRequest("", threshold);
    var text := ExceptionText(MissingSignature);
    assert VerifySingleSignature(env, request) == Failure(HttpError(500, "Verification failed: " + text));
    FourHundredText();
    assert "400" + ": " == "400: ";
    assert text == "400: " + MissingSignature.detail;
  }

  /** An image that cannot be prepared is answered 500 by the handler as
      written, and its own 400 by the corrected one. */
  lemma UndecodableSignatureStatus(env: Env, request: SingleSignatureRequest)
    requires request.signature != "" && PreprocessBase64(env, request.signature).Failure?
    ensures VerifySingleSignature(env, request).Failure?
    ensures VerifySingleSignature(env, request).error.status == 500
    ensures VerifySingleSignatureFixed(env, request).error.status == 400
  {
  }

  /** With CONFIDENCE_THRESHOLD unset, a batch item is authentic exactly when
      its authentic score reaches 0.75. */
  lemma UnsetThresholdItem(env: Env, predict: Predictor, signature: string, k: nat)
    requires env.threshold == Config.ConfidenceThreshold(None)
    requires Base64Item(env, predict, signature, k).Success?
    ensures Base64Item(env, predict, signature, k).value.isAuthentic
        <==> predict(PreprocessBase64(env, signature).value).value.authentic >= 0.75
  {
  }

  /** A single request whose body gives no threshold is judged against 0.9,
      whatever CONFIDENCE_THRESHOLD says. */
  lemma SingleRequestDefaultThreshold(env: Env, signature: string)
    requires VerifySingleSignature(env, SingleRequest(signature, None)).Success?
    ensures var res := VerifySingleSignature(env, SingleRequest(signature, None)).value;
      && res.thresholdUsed == 0.9
      && (res.isAuthentic <==> res.authenticConfidence >= 0.9)
  {
  }
}
