# Crop recommender: a Dafny model of the prediction service and its knowledge base

This project models the pure logic of a small Flask crop-recommendation
service and of the two scripts that generate its crop knowledge base. It
proves properties of that logic with Dafny.

- **The `/predict` handler** (`app.py`). The request body must be a JSON
  object. The seven features `N, P, K, temperature, humidity, ph, rainfall`
  are checked in that order, and the first missing or non-numeric field
  decides the 400 response. The feature vector goes to an opaque classifier
  and label decoder; an exception from either is a 500. The model's
  importance weights are paired with the feature names and stably sorted,
  heaviest first. When the weights are missing or too few, the list is the
  seven names with weight 0.0. Crop details come from a case-insensitive
  lookup with a `default` fallback. Logging to the ledger is best-effort.
- **The crop-detail table.** The server loads the generated JSON table and
  adds a `default` entry when it has none. A load failure leaves a
  default-only table.
- **The prediction ledger** (the `predictions` table). It is a sequence of
  records in insertion order. A request appends one record on success and
  nothing on failure, and a failed insert is swallowed. `recent` returns the
  newest 100 records first. The export is a header row followed by every
  record, newest first.
- **`generate_crop_details.py`.** The `TEMPLATES` dict literal is evaluated
  with Python's dict semantics. It writes `"banana"` twice, so the key keeps
  its first position and takes the second value. The module also models
  `quote_plus`-based fertilizer links, first-match template choice, and the
  loop that folds crop labels into the table.
- **`generate_crop_details_v2.py`.** The ordered `CROP_TYPE_RULES` table,
  `make_link`, `auto_description` (built on `str.capitalize`),
  `detect_conditions`, and the same fold with different entries.

The classifier, the label decoder, the importance vector, `float()` parsing,
the clock and the database's availability are all parameters.

Layout, one module per file:

- `wrappers.dfy`: `Option`, `Result`.
- `ascii.dfy`: `lower`, `capitalize`, substring.
- `url_encoding.dfy`: UTF-8 and `quote_plus`, with a form decoder as its
  inverse.
- `py_dict.dfy`: Python dict literals and the first-match loop.
- `crop_details.dfy`: table entries, load, lookup and the build fold.
- `features.dfy`: validation.
- `importance.dfy`: the stable sort.
- `ledger.dfy`: the prediction ledger.
- `predict.dfy`: the request handler.
- `knowledge_base.dfy` and `knowledge_base_v2.dfy`: the two generators.

## Model

| member | source | states |
|---|---|---|
| Features.CheckFields | app.py:104-112 | The result is Ok exactly when every named field is present and parses. The values are then the parses, in name order. An error is the error of the first failing field in order. |
| Features.ErrorMessage | app.py:102-112 | The three error texts of lines 102, 108 and 112. It has no contract of its own; the body is the definition, and `Features.ErrorMessageInjective` characterises it. |
| Features.ErrorMessageInjective | app.py:102-112 | Different validation errors have different messages, so the message identifies the rejection and the field. |
| Features.FieldError | app.py:107-112 | The verdict on one field: missing, not numeric, or fine. It has no contract of its own; the body is the definition, and `Features.CheckFields` and `Features.ValidateOk` characterise it. |
| Features.Validate | app.py:100-112 | A non-object body gives `Invalid JSON body`. An accepted body gives exactly seven values. |
| Features.ValidateOk | app.py:105-115 | The body is accepted iff all seven features are present and numeric. The vector's i-th value is the parse of `FEATURE_NAMES[i]`. |
| Features.ValidateReportsFirstFailure | app.py:106-112 | Suppose a feature fails and all earlier features pass. Then the rejection is that feature's error: missing, or not numeric. |
| Features.ValidateIgnoresOtherKeys | app.py:105-110 | Two bodies that agree on the seven features validate identically. Extra members have no effect. |
| Features.BadNBeforeMissingPh | app.py:106-112 | A non-numeric `N` is reported as `Field N must be numeric` even when `ph` is also missing. |
| Features.MissingPhIsReported | app.py:107-108 | Suppose the first five features are fine and `ph` is absent. The rejection is `Missing field: ph`. |
| Importance.Importances | app.py:120-125 | The list always has 7 entries. Its names are a permutation of the features, and its weights never increase. When the weights are missing or fewer than 7, it is the zero-weight list in feature order. Otherwise it is a permutation of the (name, weight) pairs, and each weight's entries keep their input order. |
| Importance.Paired | app.py:122 | Seven entries; entry i carries `FEATURE_NAMES[i]` and weight i. |
| Importance.SortDescending | app.py:123 | The output has the input's length. Sortedness, permutation and stability are the lemmas below. |
| Importance.SortDescendingSorted | app.py:123 | The sorted list's weights never increase along the list. |
| Importance.SortDescendingPermutes | app.py:123 | The sort outputs the same multiset of entries. |
| Importance.SortDescendingKeepsNames | app.py:122-123 | The sort outputs the same multiset of names. |
| Importance.SortDescendingIsStable | app.py:123 | For every weight, the entries of that weight appear in input order, as Python's stable `sorted(..., reverse=True)` keeps them. |
| Importance.SortDescendingKeepsSorted | app.py:123 | An already non-increasing list is returned unchanged. |
| Importance.FallbackIsSortedZeros | app.py:125 | Sorting the zero-weight fallback list would not change it. |
| CropDetails.LoadTable | app.py:36-50 | The loaded table always has `default`. Every loaded key keeps its value, and no other key is added. A loaded `default` is kept. A missing `default` is the built-in entry. A failed load gives only `default`. |
| CropDetails.Lookup | app.py:128-129 | Lookup uses the lower-cased label. It falls back to `default`, and yields the empty-dict fallback only when both keys are absent. |
| CropDetails.LookupLoadedIsTotal | app.py:129 | On any table the server loaded, lookup always finds an entry. The `{}` fallback is unreachable. |
| CropDetails.LookupCaseInsensitive | app.py:128-129 | Labels that differ only in letter case get the same detail. |
| CropDetails.LookupUnknownIsDefault | app.py:129 | A label unknown to the loaded table gets the `default` entry. |
| CropDetails.BuildTable | generate_crop_details.py:211-220 | The output keys are exactly the lower-cased labels. Each key's entry is the entry of some label with that key. |
| CropDetails.BuildTableLastWins | generate_crop_details.py:213-220 | Labels that collapse to one key keep the entry of the last such label. |
| CropDetails.BuildTableKeysLowerCase | generate_crop_details.py:215 | Every key written is lower case. |
| Ledger.NextId | app.py:58 | On a ledger with increasing ids, the next id is positive and exceeds every existing id. |
| Ledger.Append | app.py:70-90 | A failed insert, or a connection that cannot be made, leaves the rows unchanged. Otherwise exactly one record is added at the end: the next id, the timestamp, the seven values and the crop. |
| Ledger.AppendKeepsIdsIncreasing | app.py:58 | An append keeps ids positive and strictly increasing in insertion order. Earlier records are a prefix of the new ledger. |
| Ledger.Recent | app.py:147-159 | A failed connection gives its error. Otherwise the result has min(100, n) records, and record i is the (i+1)-th newest. |
| Ledger.RecentIdsDecreasing | app.py:152 | The ids in `recent` strictly decrease. |
| Ledger.RecentAfterAppend | app.py:152-157 | After an append, the new record comes first in `recent`. The previous `recent` follows, cut to 99 records. |
| Ledger.RecentReturnsAppendedRecords | app.py:152-157 | With at most 100 records, `recent` returns all of them in reverse insertion order. |
| Ledger.ParseRowOf | app.py:173 | A record's export row has the 10 header columns and reads back as the same record. |
| Ledger.Export | app.py:161-179 | A failed connection gives its error. Otherwise there are n+1 rows, and the first is the header of the ten column names. |
| Ledger.RowOf | app.py:173 | A record's row: id, timestamp, the seven values, crop. It has no contract of its own; the body is the definition, and `Ledger.ParseRowOf` shows it loses nothing. |
| Ledger.ExportRoundTrip | app.py:166-173 | Export row i+1 reads back as the (i+1)-th newest record, which is also `recent`'s i-th record. |
| Predict.Classify | app.py:116-117 | The label the decoder gives the classifier's index, or the first exception's message. It has no contract of its own; the body is the definition, and `Predict.HandlePredict`'s contract states its 500 and success cases. |
| Predict.HandlePredict | app.py:97-145 | A validation error gives 400 with its message and logs nothing. A classifier error gives 500 and logs nothing. Success returns the label, the importance list and the looked-up details, and calls the best-effort append. |
| Predict.NonObjectRejected | app.py:101-102 | A non-object body gives 400 `Invalid JSON body`, and the ledger is unchanged. |
| Predict.ResponseIgnoresLedger | app.py:131-141 | The response is the same whatever the ledger holds, whether the connection succeeds and whether the insert fails. |
| Predict.SuccessAppendsOneRecord | app.py:131-133 | A successful request on a working ledger appends exactly one record. Its crop is the response's label, and its seven values are the parsed features in order. |
| Predict.FailureAppendsNothing | app.py:99-145 | Every 400 or 500 response leaves the ledger unchanged. |
| Predict.HandlePredictKeepsIdsIncreasing | app.py:58 | Every request keeps ids positive and strictly increasing, and keeps the earlier records as a prefix. |
| Predict.PredictionIsComplete | app.py:119-141 | A request that validates and that the model classifies gets a prediction. With the table as loaded at start-up, it has crop details and seven importance entries, one per feature and sorted heaviest first. |
| Predict.PredictionDetailsEnriched | app.py:127-141 | With the table either generator writes loaded at start-up, every prediction's `crop_details` has a non-empty `desc`, at least one tip, and a `fertilizer_link` that starts with the web-search prefix. |
| Predict.UnreachableLedgerStillPredicts | app.py:131-135 | With the database unreachable, a valid request still gets its prediction and logs nothing. `recent` on a failing connection reports the failure, and a later working connection sees the records unchanged. |
| PyDict.Put | generate_crop_details.py:22-170 | `d[k] = v` on an insertion-ordered dict, the step that evaluates each pair of the `TEMPLATES` literal. A key already present keeps its position and takes the new value. A new key goes at the end. No key is ever repeated. |
| PyDict.DictOf | generate_crop_details.py:22-170 | The dict a literal evaluates to repeats no key and has at most as many entries as the literal has pairs. |
| PyDict.DictOfLastValueWins | generate_crop_details.py:22-170 | Each entry of an evaluated dict literal is the last pair written with its key. |
| PyDict.DictOfHasEveryKey | generate_crop_details.py:22-170 | Every key written in the literal is in the evaluated dict. |
| PyDict.FirstMatch | generate_crop_details.py:192-193 | The returned index is the first entry, in table order, whose key occurs in the text. None means no key occurs. |
| PyDict.FirstMatchValue | generate_crop_details.py:192-197 | The value is that of the first key occurring in the text, else the given default. |
| KnowledgeBase.TemplatesShape | generate_crop_details.py:22-170 | The evaluated `TEMPLATES` has 21 keys. The second `banana` value (lines 116-121) sits at the first `banana` position. |
| KnowledgeBase.TemplatesHaveFourTips | generate_crop_details.py:22-181 | Every template, and the default, has exactly four tips. |
| KnowledgeBase.TemplateDescsNonEmpty | generate_crop_details.py:22-181 | Every evaluated template, and the default, has a non-empty description. |
| KnowledgeBase.DefaultDetailEnriched | app.py:45-50 | The server's built-in `default` entry has a description, a tip and a search-prefixed link. |
| KnowledgeBase.MakeFertilizerLink | generate_crop_details.py:184-187 | The link starts with the search prefix and contains no space. |
| KnowledgeBase.FertilizerLinkDecodes | generate_crop_details.py:184-187 | The query form-decodes back to the UTF-8 bytes of the crop name followed by ` fertilizer guide`. |
| KnowledgeBase.FertilizerLinkInjective | generate_crop_details.py:184-187 | Different crop names get different links. |
| KnowledgeBase.FertilizerLinkAlnum | generate_crop_details.py:184-187 | For a name of ASCII letters and digits, the link is the prefix, the name, then `+fertilizer+guide`. |
| KnowledgeBase.ChooseTemplate | generate_crop_details.py:190-197 | The result is the template of the first key in `TEMPLATES` order occurring in the lower-cased name, else the default. It always has four tips and a non-empty description. |
| KnowledgeBase.ChooseTemplateCaseInsensitive | generate_crop_details.py:191 | Choosing for a name and for its lower-cased form gives the same template. |
| KnowledgeBase.ChooseTemplateBanana | generate_crop_details.py:116-121 | A crop named banana, in any case, gets the second `banana` value: "Banana needs high humidity and rich soil.". |
| KnowledgeBase.Entry | generate_crop_details.py:214-220 | One label's entry: its name, the chosen template's desc and tips, and its link. It has no contract of its own; the body is the definition, and `KnowledgeBase.BuildKnowledgeBaseEntry` characterises it. |
| KnowledgeBase.BuildKnowledgeBase | generate_crop_details.py:210-220 | The keys are exactly the lower-cased labels. |
| KnowledgeBase.BuildKnowledgeBaseEntriesComplete | generate_crop_details.py:213-220 | Every entry written has four tips and a search-prefixed fertilizer link. |
| KnowledgeBase.BuildKnowledgeBaseEntry | generate_crop_details.py:213-220 | Under a label's key, taking the last label with that key, the entry has `name` = label, the chosen template's desc and tips, and the label's link. |
| KnowledgeBase.LoadedKnowledgeBaseIsEnriched | generate_crop_details.py:210-220 | Load this script's table in the server, and the lookup for any label finds an entry. That entry has a non-empty desc, at least one tip and a search-prefixed link, whether it is the label's own entry or `default`. |
| KnowledgeBaseV2.CropTypeRulesIsDict | generate_crop_details_v2.py:25-51 | The rules literal repeats no key, so evaluating it as a dict gives the table as written. |
| KnowledgeBaseV2.MakeLink | generate_crop_details_v2.py:65-66 | The link contains no space. |
| KnowledgeBaseV2.MakeLinkAgreesWithFirstGenerator | generate_crop_details_v2.py:65-66 | For every name, `make_link` equals the first generator's `make_fertilizer_link`. |
| KnowledgeBaseV2.AutoDescription | generate_crop_details_v2.py:69-70 | The description is the capitalized name followed by the fixed sentence tail. |
| KnowledgeBaseV2.AutoDescriptionNamesCrop | generate_crop_details_v2.py:69-70 | The name part equals the crop up to letter case. It starts with a capital when the crop starts with a letter, and the rest is lower case. |
| KnowledgeBaseV2.DetectConditions | generate_crop_details_v2.py:73-78 | The result is the (temperature, soil) pair of the first rule whose keyword occurs in the lower-cased name, else the defaults. |
| KnowledgeBaseV2.DetectConditionsCaseInsensitive | generate_crop_details_v2.py:74 | Detecting for a name and for its lower-cased form gives the same pair. |
| KnowledgeBaseV2.Entry | generate_crop_details_v2.py:95-103 | One label's entry: its name, description, link, default tips, and detected temperature and soil. It has no contract of its own; the body is the definition, and `KnowledgeBaseV2.BuildKnowledgeBaseEntry` characterises it. |
| KnowledgeBaseV2.BuildKnowledgeBase | generate_crop_details_v2.py:91-103 | The keys are exactly the lower-cased labels. |
| KnowledgeBaseV2.BuildKnowledgeBaseEntry | generate_crop_details_v2.py:94-103 | Taking the last label with a key, its entry has `name` = label, the auto description, the link, the four default tips, and the detected temperature and soil. |
| KnowledgeBaseV2.EntryEnriched | generate_crop_details_v2.py:95-103 | Every entry this script writes has a non-empty desc, four tips and a search-prefixed link. |
| KnowledgeBaseV2.LoadedKnowledgeBaseIsEnriched | generate_crop_details_v2.py:91-103 | Load this script's table in the server, and the lookup for any label finds an entry. That entry has a non-empty desc, at least one tip and a search-prefixed link. |
| UrlEncoding.QuotePlus | generate_crop_details.py:186 | The output uses only unreserved characters, `+` and `%`. In particular it has no space. |
| UrlEncoding.QuoteBytes | generate_crop_details.py:186 | `quote_from_bytes` with space written as `+`: the text is at least as long as the bytes and uses only `+`, `%`, upper-case hex digits and unreserved characters. `UrlEncoding.QuoteBytesRoundTrip` shows form decoding recovers the bytes. |
| UrlEncoding.QuoteBytesRoundTrip | generate_crop_details.py:186 | Form-decoding the percent-encoding of any byte string gives back that byte string. |
| UrlEncoding.QuotePlusRoundTrip | generate_crop_details.py:186 | Form-decoding `quote_plus(s)` gives the UTF-8 encoding of `s`. |
| UrlEncoding.QuotePlusAlnum | generate_crop_details.py:186 | ASCII letters and digits pass through unchanged. |
| UrlEncoding.QuotePlusPlain | generate_crop_details.py:186 | For text of unreserved ASCII characters (letters, digits, `-._~`) and spaces, the output has the same length. Each position keeps its character, except that a space becomes `+`. |
| UrlEncoding.QuotePlusSpaceBetween | generate_crop_details.py:186 | In any text, a space becomes `+` and its two sides are encoded independently. |
| UrlEncoding.Utf8 | generate_crop_details.py:186 | The `.encode("utf-8")` step inside `quote_plus`: the bytes are at least as many as the characters. `UrlEncoding.Utf8Injective` shows no two strings share an encoding, and `UrlEncoding.Utf8CharLength` gives each character's byte count. |
| UrlEncoding.Utf8Injective | generate_crop_details.py:186 | Different strings have different UTF-8 encodings. |
| UrlEncoding.Utf8CharLength | generate_crop_details.py:186 | The lead byte of a character's encoding determines its length. |
| UrlEncoding.Utf8CharDecodes | generate_crop_details.py:186 | The UTF-8 bytes of a character decode back to its code point. |
| Ascii.Contains | generate_crop_details.py:193 | Python's `key in lower` on strings, also used at generate_crop_details_v2.py:76. It has no contract of its own; the body tries each start position, and `Ascii.ContainsIsSubstring` shows it holds exactly when the key occurs somewhere in the text. |
| Ascii.ContainsIsSubstring | generate_crop_details.py:193 | The executable test holds exactly when the key occurs at some position of the text. |
| Ascii.Lower | generate_crop_details.py:191 | Same length; each character is its ASCII lower-case form. |
| Ascii.Capitalize | generate_crop_details_v2.py:70 | Same length; the first character is upper-cased, and the rest is the lower-cased remainder. |
| Ascii.LowerIdempotent | generate_crop_details.py:191 | Lower-casing twice is lower-casing once. |
| Ascii.CapitalizeKeepsLetters | generate_crop_details_v2.py:70 | Capitalizing changes only letter case. |

## Left out

- Predict.PredictionIsComplete: for an arbitrary loaded `crop_details.json` it promises only that details are present, because such a file may hold an entry with an empty `desc` or no tips. For the tables the two generators write, `Predict.PredictionDetailsEnriched` promises the contents.
- Model loading and training: `joblib.load`, the startup checks of app.py:25-33, and train_and_save.py. These are library-driven. The loaded model is a parameter and startup is assumed to have succeeded.
- Classifier internals: `model.predict`, `label_encoder.inverse_transform` and `feature_importances_` are foreign code. They are function and value parameters. A non-numeric importance value raising in `float(fi[i])` is folded into "importance source missing".
- Flask plumbing: request decoding, `jsonify`, `send_file`, `render_template` and the `/` route. In particular, a body that is not valid JSON text, which Flask rejects inside `get_json` and the handler turns into a 500, is not modelled. The model starts from the decoded JSON value.
- sqlite3 internals: connections, commits, `finally` blocks, SQL text, and the idempotence of `CREATE TABLE IF NOT EXISTS`. The ledger is a sequence of records that persists across requests. Whether each operation's connection succeeds, and whether an insert fails, are inputs.
- Ledger.NextId: takes the last id plus one. SQLite's `AUTOINCREMENT` takes the largest id ever used plus one, which differs only if rows are deleted outside this service.
- UrlEncoding.Utf8: Dafny's `char` is a Unicode scalar value, so a Python string holding a lone surrogate, on which `quote_plus` raises `UnicodeEncodeError`, cannot be expressed.
- Timestamps: `datetime.utcnow().isoformat()` is a string parameter.
- Byte-level CSV and JSON: quoting, float text formatting, UTF-8 output, and reading or writing JSON files. The export is modelled at the row and cell level.
- JSON shape of the knowledge file: the loaded file is assumed to be an object of entries. A non-object file either raises at app.py:45-46 at startup, or, when it already holds "default" (the array `["default"]`, or a string containing it), makes app.py:129 raise on every classified request. That request then returns 500 without logging. Neither case is modelled.
- Logging: the `print` diagnostics at app.py:42, 85, 135 and 144 are not modelled.
- Floating point: values and weights are reals. NaN and infinities, and their effect on `sorted`, are not modelled. `float()` is an abstract partial parser.
- Ascii.Lower: folds only ASCII capitals. Python's `str.lower` also folds non-ASCII letters.
- Ascii.Capitalize: upper-cases only ASCII letters, while Python title-cases the first character for all of Unicode.
- Dataset I/O in both generators: pandas reading, `os.path.exists`, `dropna`, `unique`, `sorted`, and writing `crop_details.json`. The sorted label list is an input sequence.
- Concurrency: requests are independent, and the interleaving of concurrent appends is not modelled.
- tests/: the tests need a trained model and a live Flask client.
