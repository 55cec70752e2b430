/** The `/predict` request handler (`api_predict`, app.py) with the trained
    classifier, its label decoder and its importance vector as parameters. */
module Predict {
  import opened Wrappers
  import opened Features
  import opened Importance
  import opened CropDetails
  import opened Ledger
  import KnowledgeBase
  import KnowledgeBaseV2

  /** The loaded model artifact. `predict` and `decode` stand for
      `model.predict` and `label_encoder.inverse_transform` on one row; an
      exception is an `Err` with its message. `importances` is
      `model.feature_importances_`, None when it is missing or raises. */
  datatype Model = Model(
    predict: seq<real> -> Result<int, string>,
    decode: int -> Result<string, string>,
    importances: Option<seq<real>>)

  /** The JSON response with its status code. */
  datatype Response =
    | Prediction(crop: string, importances: seq<Entry>, details: Option<CropDetail>)
    | Failure(status: int, error: string)

  /** The label the model assigns to a feature vector, or the message of
      the exception it raised. */
  function Classify(model: Model, vector: seq<real>): Result<string, string> {
    match model.predict(vector)
    case Err(m) => Err(m)
    case Ok(index) => model.decode(index)
  }

  /** One request: the response, and the ledger after the best-effort
      logging step. `conn` is the outcome of the logging step's connection,
      `fault` says whether its insert fails, and `now` is the UTC timestamp
      it would record. */
  function HandlePredict<V>(
    body: Body<V>, parse: V -> Option<real>, model: Model, table: KnowledgeTable,
    rows: seq<Record>, conn: Connection, now: string, fault: bool): (out: (Response, seq<Record>))
    ensures Validate(body, parse).Err? ==>
      out == (Failure(400, ErrorMessage(Validate(body, parse).error)), rows)
    ensures Validate(body, parse).Ok? && Classify(model, Validate(body, parse).value).Err? ==>
      out == (Failure(500, Classify(model, Validate(body, parse).value).error), rows)
    ensures Validate(body, parse).Ok? && Classify(model, Validate(body, parse).value).Ok? ==>
      var vector := Validate(body, parse).value;
      var crop := Classify(model, vector).value;
      out == (Prediction(crop, Importances(model.importances), Lookup(table, crop)),
              Append(rows, conn, vector, crop, now, fault))
  {
    match Validate(body, parse)
    case Err(e) => (Failure(400, ErrorMessage(e)), rows)
    case Ok(vector) =>
      match Classify(model, vector)
      case Err(m) => (Failure(500, m), rows)
      case Ok(crop) =>
        var response := Prediction(crop, Importances(model.importances), Lookup(table, crop));
        (response, Append(rows, conn, vector, crop, now, fault))
  }

  /** A body that is not a JSON object is rejected and nothing is logged. */
  lemma NonObjectRejected<V>(parse: V -> Option<real>, model: Model, table: KnowledgeTable,
                             rows: seq<Record>, conn: Connection, now: string, fault: bool)
    ensures HandlePredict(NotObject, parse, model, table, rows, conn, now, fault)
            == (Failure(400, "Invalid JSON body"), rows)
  {
  }

  /** Logging never changes the response: the ledger's contents, whether
      the connection succeeds and whether the insert fails make no
      difference to the caller. */
  lemma ResponseIgnoresLedger<V>(
    body: Body<V>, parse: V -> Option<real>, model: Model, table: KnowledgeTable,
    rows1: seq<Record>, rows2: seq<Record>, conn1: Connection, conn2: Connection,
    now1: string, now2: string, fault1: bool, fault2: bool)
    ensures HandlePredict(body, parse, model, table, rows1, conn1, now1, fault1).0
            == HandlePredict(body, parse, model, table, rows2, conn2, now2, fault2).0
  {
  }

  /** A successful request with a working connection and insert adds
      exactly one record: the validated vector and the decoded label. */
  lemma SuccessAppendsOneRecord<V>(
    fields: map<string, V>, parse: V -> Option<real>, model: Model, table: KnowledgeTable,
    rows: seq<Record>, now: string)
    requires Validate(Object(fields), parse).Ok?
    requires Classify(model, Validate(Object(fields), parse).value).Ok?
    ensures var (response, after) := HandlePredict(Object(fields), parse, model, table, rows, Connected, now, false);
      && response.Prediction?
      && |after| == |rows| + 1 && after[..|rows|] == rows
      && after[|rows|].crop == response.crop
      && forall i :: 0 <= i < FEATURE_COUNT ==>
           parse(fields[FEATURE_NAMES[i]]) == Some(after[|rows|].values[i])
  {
    ValidateOk(fields, parse);
  }

  /** Rejected and failed requests log nothing. */
  lemma FailureAppendsNothing<V>(
    body: Body<V>, parse: V -> Option<real>, model: Model, table: KnowledgeTable,
    rows: seq<Record>, conn: Connection, now: string, fault: bool)
    requires HandlePredict(body, parse, model, table, rows, conn, now, fault).0.Failure?
    ensures HandlePredict(body, parse, model, table, rows, conn, now, fault).1 == rows
  {
  }

  /** Every request keeps the ledger's ids positive and increasing and
      leaves the earlier records in place. */
  lemma HandlePredictKeepsIdsIncreasing<V>(
    body: Body<V>, parse: V -> Option<real>, model: Model, table: KnowledgeTable,
    rows: seq<Record>, conn: Connection, now: string, fault: bool)
    requires IdsIncreasing(rows)
    ensures IdsIncreasing(HandlePredict(body, parse, model, table, rows, conn, now, fault).1)
    ensures rows <= HandlePredict(body, parse, model, table, rows, conn, now, fault).1
  {
    if Validate(body, parse).Ok? && Classify(model, Validate(body, parse).value).Ok? {
      var vector := Validate(body, parse).value;
      AppendKeepsIdsIncreasing(rows, conn, vector, Classify(model, vector).value, now, fault);
    }
  }

  /** With the table as loaded at start-up every prediction carries crop
      details, seven importance entries, one per feature, best first. */
  lemma PredictionIsComplete<V>(
    body: Body<V>, parse: V -> Option<real>, model: Model, loaded: Option<KnowledgeTable>,
    rows: seq<Record>, conn: Connection, now: string, fault: bool)
    requires Validate(body, parse).Ok? && Classify(model, Validate(body, parse).value).Ok?
    ensures var response := HandlePredict(body, parse, model, LoadTable(loaded), rows, conn, now, fault).0;
      && response.Prediction?
      && response.details.Some?
      && |response.importances| == FEATURE_COUNT
      && multiset(Names(response.importances)) == multiset(FEATURE_NAMES)
      && SortedDescending(response.importances)
  {
  }

  /** With the database unreachable a valid request still gets its
      prediction; nothing is logged, `recent` on that connection reports
      the failure, and a later connection sees the records as they were. */
  lemma UnreachableLedgerStillPredicts<V>(
    body: Body<V>, parse: V -> Option<real>, model: Model, table: KnowledgeTable,
    rows: seq<Record>, reason: string, now: string, fault: bool)
    requires Validate(body, parse).Ok? && Classify(model, Validate(body, parse).value).Ok?
    ensures var (response, after) := HandlePredict(body, parse, model, table, rows, Unreachable(reason), now, fault);
      && response.Prediction?
      && response.crop == Classify(model, Validate(body, parse).value).value
      && after == rows
      && Recent(after, Unreachable(reason)) == Err(reason)
      && Recent(after, Connected) == Recent(rows, Connected)
  {
  }

  /** With either generator's table loaded at start-up, every prediction
      carries enriched details: a description, at least one tip and a
      fertilizer-guide search link. */
  lemma PredictionDetailsEnriched<V>(
    body: Body<V>, parse: V -> Option<real>, model: Model, crops: seq<string>, secondGenerator: bool,
    rows: seq<Record>, conn: Connection, now: string, fault: bool)
    requires Validate(body, parse).Ok? && Classify(model, Validate(body, parse).value).Ok?
    ensures var table := if secondGenerator then LoadTable(Some(KnowledgeBaseV2.BuildKnowledgeBase(crops)))
                         else LoadTable(Some(KnowledgeBase.BuildKnowledgeBase(crops)));
      var response := HandlePredict(body, parse, model, table, rows, conn, now, fault).0;
      && response.Prediction?
      && response.details.Some?
      && KnowledgeBase.Enriched(response.details.value)
  {
    var crop := Classify(model, Validate(body, parse).value).value;
    if secondGenerator {
      KnowledgeBaseV2.LoadedKnowledgeBaseIsEnriched(crops, crop);
    } else {
      KnowledgeBase.LoadedKnowledgeBaseIsEnriched(crops, crop);
    }
  }
}
