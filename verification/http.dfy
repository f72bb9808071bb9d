/** The boundary with the HTTP framework: a JSON value, the error envelope
    both renderers emit, and an abstract response. Byte-level encoding of the
    body is not modelled; the body is the JSON value itself. */
module Http {
  import opened Wrappers

  datatype Json = Null | Str(s: string) | Object(members: seq<Member>)
  datatype Member = Member(key: string, value: Json)

  /** The value under `key` in an object (the first such member), as
      `serde_json::Value` indexing reads it. */
  function Lookup(j: Json, key: string): (r: Option<Json>)
    ensures r.Some? ==> j.Object? && exists i :: 0 <= i < |j.members| && j.members[i] == Member(key, r.value)
                                                 && forall k :: 0 <= k < i ==> j.members[k].key != key
    ensures r.None? <==> !j.Object? || forall i :: 0 <= i < |j.members| ==> j.members[i].key != key
  {
    match j
    case Object(ms) => LookupMembers(ms, key)
    case _ => None
  }

  function LookupMembers(ms: seq<Member>, key: string): (r: Option<Json>)
    ensures r.Some? ==> exists i :: 0 <= i < |ms| && ms[i] == Member(key, r.value)
                                    && forall k :: 0 <= k < i ==> ms[k].key != key
    ensures r.None? <==> forall i :: 0 <= i < |ms| ==> ms[i].key != key
  {
    if |ms| == 0 then None
    else if ms[0].key == key then Some(ms[0].value)
    else
      var r := LookupMembers(ms[1..], key);
      assert forall i :: 0 < i < |ms| ==> ms[i] == ms[1..][i - 1];
      r
  }

  /** `{"result": null, "error": {"code": code, "message": message}}`: an
      object with exactly the two keys `result` and `error`, `result` null,
      and `error` an object with exactly `code` and `message`, both strings. */
  function ErrorEnvelope(code: string, message: string): (j: Json)
    ensures j.Object? && |j.members| == 2
    ensures Lookup(j, "result") == Some(Null)
    ensures Lookup(j, "error").Some? && Lookup(j, "error").value.Object?
            && |Lookup(j, "error").value.members| == 2
    ensures Lookup(Lookup(j, "error").value, "code") == Some(Str(code))
    ensures Lookup(Lookup(j, "error").value, "message") == Some(Str(message))
  {
    var error := Object([Member("code", Str(code)), Member("message", Str(message))]);
    var j := Object([Member("result", Null), Member("error", error)]);
    assert LookupMembers(j.members[1..], "error") == Some(error);
    assert LookupMembers(error.members[1..], "message") == Some(Str(message));
    j
  }

  /** Reads the code and message back out of a body; succeeds exactly on
      bodies of the error-envelope shape. */
  function ReadErrorEnvelope(j: Json): (r: Option<(string, string)>)
    ensures r.Some? ==> j == ErrorEnvelope(r.value.0, r.value.1)
    ensures forall code, message :: j == ErrorEnvelope(code, message) ==> r == Some((code, message))
  {
    match j
    case Object(top) =>
      if |top| == 2 && top[0] == Member("result", Null) && top[1].key == "error" && top[1].value.Object? then
        var inner := top[1].value.members;
        if |inner| == 2 && inner[0].key == "code" && inner[0].value.Str?
           && inner[1].key == "message" && inner[1].value.Str?
        then
          var code, message := inner[0].value.s, inner[1].value.s;
          assert inner == [Member("code", Str(code)), Member("message", Str(message))];
          assert top == [Member("result", Null), Member("error", Object(inner))];
          Some((code, message))
        else None
      else None
    case _ => None
  }

  datatype Header = Header(name: string, value: string)

  const JsonContentType := Header("content-type", "application/json")

  /** A response body: the JSON error envelope of the default renderers, or
      whatever a user-supplied function chose to send. */
  datatype Body = JsonBody(json: Json) | OtherBody(bytes: seq<int>)

  datatype Response = Response(status: int, headers: seq<Header>, body: Body)

  /** A runtime panic of the generated code (an `unwrap` on an error). */
  datatype Panic = Panic(reason: string)

  /** The response both default renderers build: the given status, the JSON
      content type, and the error envelope as body. */
  function JsonErrorResponse(status: int, code: string, message: string): (r: Response)
    ensures r.status == status && r.headers == [JsonContentType]
    ensures r.body.JsonBody? && ReadErrorEnvelope(r.body.json) == Some((code, message))
  {
    Response(status, [JsonContentType], JsonBody(ErrorEnvelope(code, message)))
  }
}
