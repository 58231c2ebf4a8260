# Signature verification service: a Dafny model

The service scores images of handwritten signatures with a pre-trained
classifier and keeps the results in a JSON-file key-value store. This project
models the code the service owns and proves properties of it:

- **The result store** (`Database`, app/database.py). `JsonDatabase` is a class
  whose `data` map is the in-memory collection. A second field, `persisted`,
  holds what the collection's file contains. `Create` always overwrites. `Update` and
  `Delete` act only on existing ids and report whether they did. Every
  successful change leaves the file equal to the map. A failed one leaves both
  untouched. Loading falls back to an empty collection when the file is
  missing or is not valid JSON.
- **The verification flows** (`Verification` and `Records`, app/main.py):
  - The decision is inclusive: a score equal to the threshold is authentic.
  - The reported confidence is the score, or `1 - score` when not authentic.
  - The data-URL header is stripped before base64 decoding.
  - Two loops score a batch item by item. They accumulate the results, the
    `all_authentic` flag and the flagged positions, and stop at the first
    failure.
  - The seven-file flow and the 1-to-7 base64 flow store their result only
    after every item has scored.
  - Reading, listing and deleting stored sets.
- **The settings** (`Config`, app/config.py): the port (`PORT` before
  `API_PORT`, a literal `"$PORT"` and any text `int()` rejects falling back to
  8000, including more than 4300 digits, the limit that CPython 3.11 and the
  2022 security releases of 3.7 to 3.10 put on `int()`), the `DEBUG`
  spellings, and the comma-separated allowed origins.

Everything the service borrows is a parameter of type `Env`: base64
decoding, image decoding/resizing into the model's input, and the model's
`predict` (absent when no model is loaded). Fresh UUIDs and the current time are
method parameters. Scores and thresholds are `real`. `Strings` holds Python's
`str.split(',')` and `str(n)`. `Wrappers` holds `Option` and `Result`.

## Model

| member | source | states |
|---|---|---|
| `Config.ParseIntRoundTrip` | app/config.py:19-22 | `int(str(n)) == n` for every integer of at most 4300 digits, which are all that `str()` writes: the decimal text of any such port parses back to it |
| `Config.ParseInt` | app/config.py:19-22 | `int()` accepts a value only when every character is white space, a digit, `_` or a sign, so any other character makes it fail |
| `Config.ParseIntSkipsLeadingSpace` | app/config.py:19-22 | white space before the value does not change what `int()` gives |
| `Config.ParseIntSkipsTrailingSpace` | app/config.py:19-22 | white space after the value does not change what `int()` gives |
| `Config.ParseIntIgnoresUnderscore` | app/config.py:19-22 | one underscore between two runs of digits does not change what `int()` gives |
| `Config.TooManyDigitsRejected` | app/config.py:19-22 | `int()` rejects more than 4300 digits, and such a port value gives 8000 |
| `Config.ParseIntSkipsPlusSign` | app/config.py:19-22 | a `+` before unsigned, unpadded text does not change what `int()` gives |
| `Config.PortValue` | app/config.py:15 | `PORT` when it is set and non-empty, else `API_PORT`, else "8000" |
| `Config.ApiPort` | app/config.py:15-22 | the integer the port value denotes, and 8000 when the value is "$PORT" or `int()` rejects it |
| `Config.PortTakesPrecedence` | app/config.py:15 | a non-empty `PORT` decides the port whatever `API_PORT` holds |
| `Config.EmptyPortFallsThrough` | app/config.py:15 | an empty `PORT` behaves exactly as an unset one |
| `Config.PortNumberIsUsed` | app/config.py:15-22 | `PORT` set to the text of any integer `n` of at most 4300 digits gives port `n` |
| `Config.DefaultPorts` | app/config.py:15-18 | nothing set gives 8000, and so does a literal `"$PORT"` |
| `Config.NonIntegerPortFallsBack` | app/config.py:19-22 | a port value `int()` rejects gives 8000 |
| `Config.ApiPortIsParsed` | app/config.py:15-22 | whatever integer `int()` reads from the port value, other than from "$PORT", is the port |
| `Config.ApiPortVariableIsUsed` | app/config.py:15-22 | with `PORT` unset, `API_PORT` set to the text of any integer `n` of at most 4300 digits gives port `n` |
| `Config.Debug` | app/config.py:24 | DEBUG is on exactly for "1", "t"/"T" and "true" in any letter case, and on when unset |
| `Config.ConfidenceThreshold` | app/config.py:39 | the configured threshold, or 0.75 when unset |
| `Config.AllowedOrigins` | app/config.py:27 | at least one origin, none containing a comma |
| `Config.AllowedOriginsRejoin` | app/config.py:27 | the origins joined with commas give back the configured value |
| `Config.DefaultAllowedOrigins` | app/config.py:27 | unset, exactly the three local origins are allowed |
| `Strings.Split` | app/config.py:27 | `str.split(sep)`: at least one piece, no piece contains the separator |
| `Strings.JoinSplit` | app/config.py:27 | joining the pieces of a split gives back the text |
| `Strings.SplitJoin` | app/config.py:27 | separator-free pieces, joined and split again, are the same pieces |
| `Strings.NatToStringValue` | app/main.py:405 | the decimal name of an index reads back as that index |
| `Strings.NatToStringInjective` | app/main.py:405 | different items get different `signature_<n>` numbers |
| `Database.LoadData` | app/database.py:18-27 | the file's object, or an empty collection when the file is missing or not valid JSON |
| `Database.CreateThenReopen` | app/database.py:12-46 | a store reopened on the file after `create` holds the same collection, with the new document |
| `Database.UpdateThenReopen` | app/database.py:12-55 | a store reopened after `update` holds the replaced document, or what the file held before when the id was unknown |
| `Database.DeleteThenReopen` | app/database.py:12-64 | a store reopened after a successful `delete` lacks the id and keeps every other document |
| `Database.JsonDatabase.constructor` | app/database.py:12-27 | the collection is the file's object, or empty when the file is missing or not valid JSON |
| `Database.JsonDatabase.SaveData` | app/database.py:29-32 | afterwards the file holds exactly the in-memory collection |
| `Database.JsonDatabase.GetAll` | app/database.py:34-36 | returns the whole current collection |
| `Database.JsonDatabase.Get` | app/database.py:38-40 | the document under the id, or None exactly when the id is absent |
| `Database.JsonDatabase.Create` | app/database.py:42-46 | stores the item under the id even if one exists; other ids keep their documents; the file is in sync |
| `Database.JsonDatabase.Update` | app/database.py:48-55 | an absent id gives None and changes neither map nor file; a present one is replaced alone and saved |
| `Database.JsonDatabase.Delete` | app/database.py:57-64 | false and no change for an absent id; true, the id gone, others kept and the file in sync otherwise |
| `Records.EncodeSet` | app/main.py:314 | the stored set has exactly the keys "id", "date_uploaded", "signatures" and "all_authentic", so it is truthy |
| `Records.EncodeVerification` | app/main.py:425-433 | the stored batch record has exactly its seven keys, none of them "date_uploaded" or "signatures" |
| `Records.DecodeVerification` | app/main.py:425-433 | only an object reads back as a stored batch record, and it is truthy |
| `Records.DecodeEncodeIndices` | app/main.py:432 | stored flagged indices read back as the same indices in the same order |
| `Records.DecodeEncodeVerification` | app/main.py:425-433 | a stored batch record reads back as itself: user, signature type, id, date, every result, the overall verdict and the flagged indices |
| `Records.SummaryOf` | app/main.py:323-329 | a summary exists only for an object with "date_uploaded", "all_authentic" and "signatures"; it carries the id and the length of "signatures" |
| `Records.SingleRequest` | app/main.py:441-443 | a single request without a threshold is judged against 0.9 |
| `Records.DecodeSet` | app/main.py:98-102 | only an object validates as a signature set, and it is truthy |
| `Records.DecodeEncodeResults` | app/main.py:93-96 | stored results read back as the same results in the same order |
| `Records.DecodeEncodeSet` | app/main.py:306-314 | a stored signature set reads back as itself, field for field |
| `Records.SummaryOfSet` | app/main.py:323-331 | a stored set has a summary whose `signature_count` is its number of signatures |
| `Records.NoSummaryOfVerification` | app/main.py:425-433 | a stored base64-batch record has no "date_uploaded", so no summary |
| `Verification.Decide` | app/main.py:225-231 | authentic iff score >= threshold; confidence is the score if authentic, else `1 - score`; it is in [0,1] when the score is |
| `Verification.PreprocessImage` | app/main.py:121-143 | the image's tensor, or a 400 "Error processing image: ..." exactly when decoding fails |
| `Verification.StripDataUrlPrefix` | app/main.py:150-152 | text without a comma is unchanged; otherwise the result is comma-free and shorter |
| `Verification.StripDataUrlPrefixOf` | app/main.py:150-152 | `header,payload[,rest]` with a comma-free header gives exactly the payload |
| `Verification.StripDataUrlExample` | test_verification.py:12-24 | `"data:image/png;base64,XYZ"` becomes `"XYZ"` |
| `Verification.PreprocessBase64` | app/main.py:145-163 | succeeds iff the stripped text decodes and the image decodes, with the decoded image's tensor; every failure is a 400 "Error processing base64 image: ..." |
| `Verification.FileResult` | app/main.py:274-303 | decode failure is the 400, prediction failure a 500; a file that decodes and predicts succeeds, with the decision on its score under the file's name or the fallback |
| `Verification.VerifySingleFile` | app/main.py:202-241 | 500 without a model; otherwise one file scored and named "unknown" when unnamed |
| `Verification.Base64Item` | app/main.py:382-414 | item k succeeds iff it prepares and predicts, and is then the decision on its score: named `signature_<k+1>`, confidence the score or `1 - score`; any failure, preparation 400s included, is a 500 naming item k+1 |
| `Verification.ScoreSignatureFiles` | app/main.py:259-303 | one result per file in order; `all_authentic` iff every result is authentic; otherwise the first failing file's error |
| `Verification.ScoreBase64Batch` | app/main.py:378-414 | as above, and the flagged indices are ascending, below the batch size, exactly the non-authentic positions, empty iff all authentic |
| `Verification.VerifySignatureSet` | app/main.py:243-316 | 500 without a model; 400 unless exactly 7 files; stores under the set id only when all score; the stored set then reads back by id |
| `Verification.VerifyStudentSignatures` | app/main.py:359-438 | 500 without a model; 400 for 0 or more than 7; stores under "verification_" + id only when all score, and the stored document then reads back as the batch's record |
| `Verification.GetSignatureSet` | app/main.py:333-340 | 404 for an absent or false entry; the stored set when it validates; 500 for a truthy document that does not |
| `Verification.DeleteSignatureSet` | app/main.py:342-357 | 404 and no change for an absent or false entry; else the entry is removed, saved, and a later get is 404 |
| `Verification.ListSignatureSets` | app/main.py:318-331 | one summary per stored id, or a 500 as soon as one entry lacks the fields of a set |
| `Verification.ListingFailsWithVerificationRecord` | app/main.py:318-331 | once a base64 batch is stored, listing fails |
| `Verification.ListSignatureSetsFixed` | app/main.py:318-331 | skipping "verification_" ids, listing never fails on a well-formed store and counts each set's signatures |
| `Verification.UnsetThresholdItem` | app/config.py:39 | with `CONFIDENCE_THRESHOLD` unset, a batch item is authentic exactly when its authentic score reaches 0.75 |
| `Verification.SingleRequestDefaultThreshold` | app/main.py:441-470 | a single request whose body has no threshold reports 0.9 as used and is authentic exactly when its authentic score reaches 0.9 |
| `Verification.ScoreSingle` | app/main.py:459-482 | reported confidence is always the raw authentic score; authentic iff it reaches the request's threshold |
| `Verification.VerifySingleSignature` | app/main.py:445-486 | every failure comes back as a 500 "Verification failed: ...", success only for a non-empty signature |
| `Verification.VerifySingleSignatureFixed` | app/main.py:445-486 | an empty signature or undecodable image is a 400; it succeeds exactly when the written handler does, with the same answer, and every other failure is the written handler's 500 |
| `Verification.EmptySignatureStatus` | app/main.py:454-455 | an empty signature gets 500 "Verification failed: 400: Signature data is required" as written, 400 when fixed |
| `Verification.UndecodableSignatureStatus` | app/main.py:459-460 | an undecodable image gets 500 as written, 400 when fixed |

## Findings

| source | as written | input that shows it | evidently intended | confidence | as-written member | corrected member |
|---|---|---|---|---|---|---|
| app/main.py:318-331 | the listing reads "date_uploaded" and "signatures" of every entry of the store. Base64-batch records are stored in the same store (app/main.py:436) and have neither key. | any successful POST /verify-student-signatures, then GET /signature-sets: KeyError, answered 500 (`ListingFailsWithVerificationRecord`) | list the signature sets only, skipping the "verification_" records | high; not executed | `Verification.ListSignatureSets` | `Verification.ListSignatureSetsFixed` |
| app/main.py:450-486 | the handler raises HTTPException(400) for an empty signature, and the image preparation raises a 400 too. Both are inside one `except Exception`, which turns them into a 500. | `{"signature": ""}` gets 500 "Verification failed: 400: Signature data is required" (`EmptySignatureStatus`) | the client errors stay 400, as written in the handler | high; not executed | `Verification.VerifySingleSignature` | `Verification.VerifySingleSignatureFixed` |

## Left out

- Image decoding, colour conversion, resizing and pixel scaling (PIL, OpenCV, numpy): these are the abstract `Env.decodeImage`. Base64 decoding is the abstract `Env.b64decode`. Only the data-URL stripping before them is modelled.
- Model loading, the TensorFlow fallback chain and the random stand-in model (app/mock_model.py): the model is the abstract `Env.model`, a `predict` that returns two scores or fails.
- Floating point: scores, thresholds and `1 - score` are exact reals.
- File I/O. The collection file is the `persisted` field, holding the collection as a value. `json.dump` formatting is not modelled. Only JSON decode errors fall back to an empty collection; other I/O errors are not modelled.
- Database.JsonDatabase.constructor: a file holding valid JSON that is not an object is not modelled.
- Upload directories. The seven-file flow writes each file to disk before scoring it, and the files stay there when the batch fails. Deleting a set removes its directory. Neither is modelled.
- `uuid.uuid4()` and `datetime.now()` are parameters. In the seven-file flow, an unnamed file's saved path uses a different UUID from its reported name. Only the reported name is modelled.
- Verification.ListSignatureSets: the listing is a map keyed by id. The insertion order of the list is not modelled. The same holds for `ListSignatureSetsFixed`.
- Pydantic's lax coercions (a number given as text, and so on) are not modelled. Stored documents validate only in the shapes the service itself writes.
- Database.JsonDatabase.GetAll: it returns the map's value. The aliasing of the live dictionary is not modelled.
- Config.ParseInt: `int()` also accepts non-ASCII decimal digits (full-width or Arabic-Indic, say), which are not modelled; a port written in them gives 8000 in `Config.ApiPort`, not its value. The white space `int()` skips (the six ASCII blanks and the non-ASCII `str.isspace()` characters), underscores and signs are modelled. The digit limit is fixed at CPython's default of 4300. Raising or removing it through `PYTHONINTMAXSTRDIGITS`, `-X int_max_str_digits` or `sys.set_int_max_str_digits`, or running on a Python without the limit (before 3.11, other than the 2022 security releases of 3.7 to 3.10), is not modelled. The same holds for `Config.ApiPort`, `Config.ParseIntRoundTrip`, `Config.PortNumberIsUsed` and `Config.ApiPortVariableIsUsed`.
- `str.lower()` is modelled on ASCII letters only. No non-ASCII character lowers to one of "t", "r", "u", "e" or "1", so the DEBUG decision is unaffected.
- `CONFIDENCE_THRESHOLD` float parsing is not modelled. `Config.ConfidenceThreshold` takes the parsed value, and the flows read it as `Env.threshold`. Also not modelled: `API_HOST`, `SECRET_KEY`, `MODEL_PATH`, the Supabase settings and creating the directories.
- Health endpoints, routing, CORS, logging and `run.py` are framework plumbing without logic of the service's own.
- Concurrent requests racing on the store file are not modelled: the model is sequential.
