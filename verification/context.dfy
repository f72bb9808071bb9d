/** `ErrorResponseContext`, its builder and its default rendering. The crate
    `err_ctx` carries the same code (without the doc comments), so this one
    module models both copies. */
module ResponseContext {
  import opened Wrappers
  import opened Status
  import opened Http

  /** The three optional pieces of an error response. Rust's getters
      `status_code()`, `code()` and `message()` return these fields
      unchanged; here they are the datatype's destructors. */
  datatype Context = Context(statusCode: Option<U16>, code: Option<string>, message: Option<string>)

  /** `ErrorResponseContext::new`. */
  function New(): (c: Context)
    ensures c.statusCode.None? && c.code.None? && c.message.None?
  {
    Context(None, None, None)
  }

  /** The crate-private setters `set_status_code`, `set_code`, `set_message`:
      each sets its own field and leaves the other two as they were. */
  function SetStatusCode(c: Context, s: U16): (c': Context)
    ensures c'.statusCode == Some(s) && c'.code == c.code && c'.message == c.message
  {
    c.(statusCode := Some(s))
  }

  function SetCode(c: Context, code: string): (c': Context)
    ensures c'.code == Some(code) && c'.statusCode == c.statusCode && c'.message == c.message
  {
    c.(code := Some(code))
  }

  function SetMessage(c: Context, message: string): (c': Context)
    ensures c'.message == Some(message) && c'.statusCode == c.statusCode && c'.code == c.code
  {
    c.(message := Some(message))
  }

  /** `ErrorResponseBuilder`, with the fields in the source's order. */
  datatype Builder = Builder(code: Option<string>, message: Option<string>, statusCode: Option<U16>) {

    /** `.code(..)`: sets the code, keeps the other fields. */
    function WithCode(c: string): (b: Builder)
      ensures b.code == Some(c) && b.message == message && b.statusCode == statusCode
    {
      this.(code := Some(c))
    }

    /** `.message(..)`: sets the message, keeps the other fields. */
    function WithMessage(m: string): (b: Builder)
      ensures b.message == Some(m) && b.code == code && b.statusCode == statusCode
    {
      this.(message := Some(m))
    }

    /** `.status_code(..)`: sets the status, keeps the other fields. */
    function WithStatusCode(s: U16): (b: Builder)
      ensures b.statusCode == Some(s) && b.code == code && b.message == message
    {
      this.(statusCode := Some(s))
    }
  }

  /** `ErrorResponseBuilder::new` and `ErrorResponseContext::builder`. */
  function NewBuilder(): (b: Builder)
    ensures b.code.None? && b.message.None? && b.statusCode.None?
  {
    Builder(None, None, None)
  }

  /** `build`: starts from `new()` and applies a setter for each field the
      builder holds, code first, then message, then status. */
  function Build(b: Builder): (c: Context)
    ensures c.statusCode == b.statusCode && c.code == b.code && c.message == b.message
  {
    var c0 := New();
    var c1 := if b.code.Some? then SetCode(c0, b.code.value) else c0;
    var c2 := if b.message.Some? then SetMessage(c1, b.message.value) else c1;
    if b.statusCode.Some? then SetStatusCode(c2, b.statusCode.value) else c2
  }

  /** Setting a builder field twice keeps only the later value. */
  lemma SetterOverwrites(b: Builder, s1: U16, s2: U16, c1: string, c2: string, m1: string, m2: string)
    ensures b.WithStatusCode(s1).WithStatusCode(s2) == b.WithStatusCode(s2)
    ensures b.WithCode(c1).WithCode(c2) == b.WithCode(c2)
    ensures b.WithMessage(m1).WithMessage(m2) == b.WithMessage(m2)
  {
  }

  /** The fully chained builder produces a context holding exactly the
      chained values, in each of the six orders the setters can be called. */
  lemma BuildChain(s: U16, code: string, message: string)
    ensures var expected := Context(Some(s), Some(code), Some(message));
            && Build(NewBuilder().WithStatusCode(s).WithCode(code).WithMessage(message)) == expected
            && Build(NewBuilder().WithStatusCode(s).WithMessage(message).WithCode(code)) == expected
            && Build(NewBuilder().WithCode(code).WithStatusCode(s).WithMessage(message)) == expected
            && Build(NewBuilder().WithCode(code).WithMessage(message).WithStatusCode(s)) == expected
            && Build(NewBuilder().WithMessage(message).WithStatusCode(s).WithCode(code)) == expected
            && Build(NewBuilder().WithMessage(message).WithCode(code).WithStatusCode(s)) == expected
  {
  }

  /** Every context arises from exactly one builder: `build` neither adds,
      drops nor alters a field. */
  lemma BuildIsBijective(b1: Builder, b2: Builder, c: Context)
    ensures Build(b1) == Build(b2) ==> b1 == b2
    ensures Build(Builder(c.code, c.message, c.statusCode)) == c
  {
  }

  const DefaultCode := "UNKNOWN_ERROR"
  const DefaultMessage := "An error occurred"

  /** The status, code and message the default renderer actually uses. */
  function Filled(c: Context): (f: Context)
    ensures f.statusCode.Some? && f.code.Some? && f.message.Some?
    ensures c.statusCode.Some? ==> f.statusCode == c.statusCode
    ensures c.statusCode.None? ==> f.statusCode == Some(InternalServerError)
    ensures c.code.Some? ==> f.code == c.code
    ensures c.code.None? ==> f.code == Some(DefaultCode)
    ensures c.message.Some? ==> f.message == c.message
    ensures c.message.None? ==> f.message == Some(DefaultMessage)
  {
    Context(Some(c.statusCode.GetOr(InternalServerError)),
            Some(c.code.GetOr(DefaultCode)),
            Some(c.message.GetOr(DefaultMessage)))
  }

  /** `impl IntoResponse for ErrorResponseContext`. The response builder's
      final `unwrap` panics when the status is not a valid HTTP status. */
  function Render(c: Context): (r: Result<Response, Panic>)
    ensures r.Ok? <==> ValidStatus(Filled(c).statusCode.value)
    ensures r.Ok? ==> r.value.status == Filled(c).statusCode.value
                      && r.value.headers == [JsonContentType]
                      && r.value.body.JsonBody?
                      && ReadErrorEnvelope(r.value.body.json) == Some((Filled(c).code.value, Filled(c).message.value))
  {
    var status := c.statusCode.GetOr(InternalServerError);
    var code := c.code.GetOr(DefaultCode);
    var message := c.message.GetOr(DefaultMessage);
    if ValidStatus(status) then Ok(JsonErrorResponse(status, code, message))
    else Err(Panic("invalid status code"))
  }

  /** An empty context renders as 500 with the two default strings. */
  lemma RenderEmpty()
    ensures Render(New()) == Ok(JsonErrorResponse(500, "UNKNOWN_ERROR", "An error occurred"))
  {
  }

  /** A context with every field set renders those values and no default. */
  lemma RenderSetValues(s: U16, code: string, message: string)
    requires ValidStatus(s)
    ensures Render(Context(Some(s), Some(code), Some(message))) == Ok(JsonErrorResponse(s, code, message))
  {
  }

  /** Rendering sees only the filled-in fields: an absent field and a field
      explicitly set to its default render identically. */
  lemma RenderSeesOnlyFilled(c1: Context, c2: Context)
    requires Filled(c1) == Filled(c2)
    ensures Render(c1) == Render(c2)
  {
  }
}
