/** Validation of a prediction request body into the classifier's feature
    vector (`api_predict`, app.py). */
module Features {
  import opened Wrappers

  /** The feature order the classifier was trained on. */
  const FEATURE_NAMES: seq<string> := ["N", "P", "K", "temperature", "humidity", "ph", "rainfall"]

  const FEATURE_COUNT: nat := 7

  /** The decoded JSON body: an object's members, or any other JSON value.
      `V` is the type of JSON values. */
  datatype Body<V> = Object(fields: map<string, V>) | NotObject

  /** Why a body is rejected with status 400. */
  datatype ValidationError = InvalidBody | MissingField(name: string) | NotNumeric(name: string)

  /** The `error` text of the 400 response. */
  function ErrorMessage(e: ValidationError): string {
    match e
    case InvalidBody => "Invalid JSON body"
    case MissingField(k) => "Missing field: " + k
    case NotNumeric(k) => "Field " + k + " must be numeric"
  }

  /** A client can tell every rejection from its message: different errors
      have different texts. */
  lemma ErrorMessageInjective(e1: ValidationError, e2: ValidationError)
    requires ErrorMessage(e1) == ErrorMessage(e2)
    ensures e1 == e2
  {
    var m := ErrorMessage(e1);
    assert m[0] == ErrorMessage(e2)[0];
    match e1
    case InvalidBody =>
    case MissingField(k) =>
      assert k == m[15..];
      assert e2.MissingField? && e2.name == ErrorMessage(e2)[15..];
    case NotNumeric(k) =>
      assert e2.NotNumeric?;
      assert |k| == |e2.name|;
      assert k == m[6..6 + |k|];
      assert e2.name == ErrorMessage(e2)[6..6 + |k|];
  }

  /** What checking field `k` alone reports: absent, not convertible by
      `float()` (the partial function `parse`), or fine. */
  function FieldError<V>(fields: map<string, V>, parse: V -> Option<real>, k: string): Option<ValidationError> {
    if k !in fields then Some(MissingField(k))
    else if parse(fields[k]).None? then Some(NotNumeric(k))
    else None
  }

  /** Field `names[i]` is the first of `names` that fails. */
  ghost predicate FirstFailure<V>(fields: map<string, V>, parse: V -> Option<real>, names: seq<string>, i: int) {
    && 0 <= i < |names|
    && FieldError(fields, parse, names[i]).Some?
    && forall j :: 0 <= j < i ==> FieldError(fields, parse, names[j]).None?
  }

  /** The loop `for k in names: ...` collecting `float(js.get(k))`. */
  function CheckFields<V>(fields: map<string, V>, parse: V -> Option<real>, names: seq<string>)
    : (r: Result<seq<real>, ValidationError>)
    ensures r.Ok? <==> forall i :: 0 <= i < |names| ==> FieldError(fields, parse, names[i]).None?
    ensures r.Ok? ==> |r.value| == |names|
    ensures r.Ok? ==> forall i :: 0 <= i < |names| ==> names[i] in fields && parse(fields[names[i]]) == Some(r.value[i])
    ensures r.Err? ==> exists i :: FirstFailure(fields, parse, names, i)
                                   && FieldError(fields, parse, names[i]) == Some(r.error)
    decreases |names|
  {
    if |names| == 0 then Ok([])
    else
      var k := names[0];
      match FieldError(fields, parse, k)
      case Some(e) =>
        assert FirstFailure(fields, parse, names, 0);
        Err(e)
      case None =>
        match CheckFields(fields, parse, names[1..])
        case Err(e) =>
          ghost var i :| FirstFailure(fields, parse, names[1..], i)
                         && FieldError(fields, parse, names[1..][i]) == Some(e);
          assert FirstFailure(fields, parse, names, i + 1);
          Err(e)
        case Ok(rest) =>
          assert forall i :: 1 <= i < |names| ==> names[i] == names[1..][i - 1];
          Ok([parse(fields[k]).value] + rest)
  }

  /** Lines 101-112: reject a non-object, then check the features in order. */
  function Validate<V>(body: Body<V>, parse: V -> Option<real>): (r: Result<seq<real>, ValidationError>)
    ensures body.NotObject? ==> r == Err(InvalidBody)
    ensures r.Ok? ==> |r.value| == FEATURE_COUNT
  {
    match body
    case NotObject => Err(InvalidBody)
    case Object(fields) => CheckFields(fields, parse, FEATURE_NAMES)
  }

  /** A valid body yields the parse of each named field, in feature order. */
  lemma ValidateOk<V>(fields: map<string, V>, parse: V -> Option<real>)
    ensures Validate(Object(fields), parse).Ok?
            <==> forall i :: 0 <= i < |FEATURE_NAMES| ==> FieldError(fields, parse, FEATURE_NAMES[i]).None?
    ensures Validate(Object(fields), parse).Ok? ==>
      var v := Validate(Object(fields), parse).value;
      forall i :: 0 <= i < FEATURE_COUNT ==> parse(fields[FEATURE_NAMES[i]]) == Some(v[i])
  {
  }

  /** An invalid object is rejected with the error of its first failing
      feature, in feature order. */
  lemma ValidateReportsFirstFailure<V>(fields: map<string, V>, parse: V -> Option<real>, i: int)
    requires FirstFailure(fields, parse, FEATURE_NAMES, i)
    ensures Validate(Object(fields), parse) == Err(FieldError(fields, parse, FEATURE_NAMES[i]).value)
  {
    var r := CheckFields(fields, parse, FEATURE_NAMES);
    assert r.Err?;
    var i' :| FirstFailure(fields, parse, FEATURE_NAMES, i') && FieldError(fields, parse, FEATURE_NAMES[i']) == Some(r.error);
    assert i' == i;
  }

  /** Members other than the seven features have no effect. */
  lemma {:induction false} CheckFieldsIgnoresOtherKeys<V>(
    f1: map<string, V>, f2: map<string, V>, parse: V -> Option<real>, names: seq<string>)
    requires forall i :: 0 <= i < |names| ==> (names[i] in f1 <==> names[i] in f2)
    requires forall i :: 0 <= i < |names| && names[i] in f1 ==> f1[names[i]] == f2[names[i]]
    ensures CheckFields(f1, parse, names) == CheckFields(f2, parse, names)
    decreases |names|
  {
    if |names| > 0 {
      CheckFieldsIgnoresOtherKeys(f1, f2, parse, names[1..]);
    }
  }

  lemma ValidateIgnoresOtherKeys<V>(f1: map<string, V>, f2: map<string, V>, parse: V -> Option<real>)
    requires forall k :: k in FEATURE_NAMES ==> (k in f1 <==> k in f2)
    requires forall k :: k in FEATURE_NAMES && k in f1 ==> f1[k] == f2[k]
    ensures Validate(Object(f1), parse) == Validate(Object(f2), parse)
  {
    CheckFieldsIgnoresOtherKeys(f1, f2, parse, FEATURE_NAMES);
  }

  /** A non-numeric `N` is reported even when `ph` is missing as well. */
  lemma BadNBeforeMissingPh<V>(fields: map<string, V>, parse: V -> Option<real>)
    requires "N" in fields && parse(fields["N"]).None?
    requires "ph" !in fields
    ensures Validate(Object(fields), parse) == Err(NotNumeric("N"))
    ensures ErrorMessage(NotNumeric("N")) == "Field N must be numeric"
  {
    assert FirstFailure(fields, parse, FEATURE_NAMES, 0);
    ValidateReportsFirstFailure(fields, parse, 0);
  }

  /** A body whose only fault is a missing `ph` is rejected naming `ph`. */
  lemma MissingPhIsReported<V>(fields: map<string, V>, parse: V -> Option<real>)
    requires forall i :: 0 <= i < 5 ==> FieldError(fields, parse, FEATURE_NAMES[i]).None?
    requires "ph" !in fields
    ensures Validate(Object(fields), parse) == Err(MissingField("ph"))
    ensures ErrorMessage(MissingField("ph")) == "Missing field: ph"
  {
    assert FirstFailure(fields, parse, FEATURE_NAMES, 5);
    ValidateReportsFirstFailure(fields, parse, 5);
  }
}
