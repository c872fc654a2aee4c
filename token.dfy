/** The repair applied to every token response (`non_compliant_token`): the body is
    parsed and its `token_type` entry overwritten with "Bearer". */
module Token {
  import opened Json

  const BearerType := "Bearer"

  predicate IsBearer(token: map<string, Value>) {
    "token_type" in token && token["token_type"] == Str(BearerType)
  }

  /** The parsed body with `token_type` set; item assignment on a body that is not a
      JSON object raises a `TypeError`. */
  function FixToken(body: Value): (r: Result<Value>)
    ensures r.Ok? <==> body.Obj?
    ensures !body.Obj? ==> r.Err? && r.error.TypeError?
    ensures r.Ok? ==> r.value.Obj? && IsBearer(r.value.fields)
    ensures r.Ok? ==> r.value.fields.Keys == body.fields.Keys + {"token_type"}
    ensures r.Ok? ==> forall k :: k in body.fields && k != "token_type" ==> r.value.fields[k] == body.fields[k]
  {
    match body
    case Obj(fields) => Ok(Obj(fields["token_type" := Str(BearerType)]))
    case _ => Err(TypeError("item assignment"))
  }

  /** Repairing a repaired token changes nothing. */
  lemma FixTokenIdempotent(body: Value)
    requires body.Obj?
    ensures FixToken(body).Ok? && FixToken(FixToken(body).value) == FixToken(body)
  {
    var once := FixToken(body).value;
    assert once.fields["token_type" := Str(BearerType)] == once.fields;
  }

  /** A body that already says "Bearer" is left as it is. */
  lemma FixTokenKeepsCompliant(body: Value)
    requires body.Obj? && IsBearer(body.fields)
    ensures FixToken(body) == Ok(body)
  {
    assert body.fields["token_type" := Str(BearerType)] == body.fields;
  }
}
