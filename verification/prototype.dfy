/** The older derive (`src/`): the same dispatch and code rule, but each arm
    renders a response directly, with no context and no custom function, and
    a status literal that does not parse panics instead of falling back. The
    nested renderer it dispatches to (src/response/nested.rs) is not part of
    this model: whether it accepts a variant is a parameter. */
module Prototype {
  import opened Wrappers
  import opened Status
  import opened Http
  import opened Syntax
  import opened Generated
  import opened Traverse
  import Dispatch
  import ResponseContext
  import GeneralStrategy

  /** `StatusCode::INTERNAL_SERVER_ERROR`, or
      `StatusCode::from_u16("lit".parse().unwrap()).unwrap()`. */
  datatype ProtoStatus = InternalServerErrorStatus | FromU16Unwrap(literal: string)

  /** A general arm renders the envelope directly; a nested arm is whatever
      the nested renderer emitted for the variant. */
  datatype ProtoArm = RespondArm(variant: string, pattern: Pattern, status: ProtoStatus, code: string)
                    | NestedRespondArm(variant: string)

  /** `parse_status_code` of the prototype. */
  function ProtoParseStatusCode(a: Attr): (r: Option<ProtoStatus>)
    ensures r.Some? <==> a.name == "status_code"
    ensures r.Some? ==> (r.value.FromU16Unwrap? <==> LoneStrLit(a.args).Some?)
    ensures r.Some? && r.value.FromU16Unwrap? ==> LoneStrLit(a.args) == Some(r.value.literal)
  {
    if a.name != "status_code" then None
    else
      match LoneStrLit(a.args)
      case Some(lit) => Some(FromU16Unwrap(lit))
      case None => Some(InternalServerErrorStatus)
  }

  /** The first `status_code` attribute decides; without one the status is
      500 Internal Server Error. */
  function ProtoFindStatus(attrs: seq<Attr>): (e: ProtoStatus)
    ensures FirstAttr(attrs, "status_code").None? ==> e == InternalServerErrorStatus
    ensures FirstAttr(attrs, "status_code").Some? ==> ProtoParseStatusCode(FirstAttr(attrs, "status_code").value) == Some(e)
  {
    if |attrs| == 0 then InternalServerErrorStatus
    else
      match ProtoParseStatusCode(attrs[0])
      case Some(e) => e
      case None => ProtoFindStatus(attrs[1..])
  }

  /** `parse_general_response`: the code comes from the same rule as in the
      context derive; named fields are refused. */
  function ProtoGeneralArm(v: Variant): (r: Result<ProtoArm, DeriveError>)
    ensures r.Ok? <==> !v.fields.Named? && GeneralStrategy.FindCode(v.attrs, v.name).Ok?
    ensures r.Ok? ==> r.value == RespondArm(v.name, if v.fields.Unit? then UnitPattern else TupleRestPattern,
                                            ProtoFindStatus(v.attrs), GeneralStrategy.FindCode(v.attrs, v.name).value)
  {
    var status := ProtoFindStatus(v.attrs);
    var code :- GeneralStrategy.FindCode(v.attrs, v.name);
    match v.fields
    case Named => Err(NamedFields(v.name))
    case Unit => Ok(RespondArm(v.name, UnitPattern, status, code))
    case Tuple(_) => Ok(RespondArm(v.name, TupleRestPattern, status, code))
  }

  /** A prototype status and a context-derive status come from the same
      attribute: both the fallback, or both the same literal. */
  predicate StatusCorresponds(p: ProtoStatus, e: StatusExpr) {
    (p.InternalServerErrorStatus? && e.Fixed500?) || (p.FromU16Unwrap? && e.ParseOr500? && p.literal == e.literal)
  }

  /** A prototype arm and a context-derive arm describe the same general
      variant: same name, pattern and code, corresponding status. */
  predicate SameGeneralArm(p: ProtoArm, a: Arm) {
    && p.RespondArm? && a.body.BuildContext?
    && p.variant == a.variant && p.pattern == a.pattern && p.code == a.body.code
    && StatusCorresponds(p.status, a.body.status)
  }

  /** Both derives read the status from the same attribute: the same literal
      when the first `status_code` attribute is a lone literal, and their
      fallback otherwise. */
  lemma {:induction false} ProtoFindStatusAgrees(attrs: seq<Attr>)
    ensures StatusCorresponds(ProtoFindStatus(attrs), GeneralStrategy.FindStatus(attrs))
  {
    if |attrs| > 0 && attrs[0].name != "status_code" {
      ProtoFindStatusAgrees(attrs[1..]);
    }
  }

  /** `parse_response` of the prototype. A variant whose first `response`
      attribute reads `response(nested)` goes to the nested renderer; every
      other variant fails exactly when the context derive fails on it, with
      the same error, and otherwise gets the arm the context derive builds,
      rendered directly. */
  function ProtoParseResponse(v: Variant, nestedAccepts: Variant -> bool): (r: Result<ProtoArm, DeriveError>)
    ensures IsFirst(v.attrs, Dispatch.ResponseMarker("nested")) ==>
              && (r.Ok? <==> nestedAccepts(v))
              && (r.Ok? ==> r.value == NestedRespondArm(v.name))
              && (r.Err? ==> r.error == NestedRendererRejected(v.name))
    ensures !IsFirst(v.attrs, Dispatch.ResponseMarker("nested")) ==>
              && (r.Ok? <==> Dispatch.ParseResponse(v).Ok?)
              && (r.Ok? ==> SameGeneralArm(r.value, Dispatch.ParseResponse(v).value))
              && (r.Err? ==> r.error == Dispatch.ParseResponse(v).error)
  {
    ProtoFindStatusAgrees(v.attrs);
    var s :- Dispatch.StrategyOf(v);
    match s
    case Nested => if nestedAccepts(v) then Ok(NestedRespondArm(v.name)) else Err(NestedRendererRejected(v.name))
    case General => ProtoGeneralArm(v)
  }

  /** The prototype's `derive_axum_error_response`: enums only, one arm per
      variant in declaration order, and the first failure aborts. */
  function ProtoDerive(input: DeriveInput, nestedAccepts: Variant -> bool): (r: Result<seq<ProtoArm>, DeriveError>)
    ensures !input.data.Enum? ==> r == Err(NotAnEnum)
    ensures r.Ok? <==> input.data.Enum?
                       && forall i :: 0 <= i < |input.data.variants| ==> ProtoParseResponse(input.data.variants[i], nestedAccepts).Ok?
    ensures r.Ok? ==> |r.value| == |input.data.variants|
                      && forall i :: 0 <= i < |r.value| ==>
                           r.value[i] == ProtoParseResponse(input.data.variants[i], nestedAccepts).value
    ensures r.Err? && input.data.Enum? ==>
              exists i :: 0 <= i < |input.data.variants|
                          && ProtoParseResponse(input.data.variants[i], nestedAccepts) == Err(r.error)
                          && forall j :: 0 <= j < i ==> ProtoParseResponse(input.data.variants[j], nestedAccepts).Ok?
  {
    match input.data
    case Enum(vs) => MapResult(vs, v => ProtoParseResponse(v, nestedAccepts))
    case _ => Err(NotAnEnum)
  }

  /** The status a prototype arm runs with: parsing must give a `u16` and
      that `u16` must be a valid status, or the arm panics. */
  function ProtoStatusValue(s: ProtoStatus): (r: Result<int, Panic>)
    ensures s.InternalServerErrorStatus? ==> r == Ok(500)
    ensures s.FromU16Unwrap? ==> (r.Ok? <==> ParseU16(s.literal).Some? && ValidStatus(ParseU16(s.literal).value))
    ensures r.Ok? && s.FromU16Unwrap? ==> r.value == ParseU16(s.literal).value
  {
    match s
    case InternalServerErrorStatus => Ok(500)
    case FromU16Unwrap(lit) =>
      match ParseU16(lit)
      case None => Err(Panic("status literal is not a u16"))
      case Some(n) => if ValidStatus(n) then Ok(n) else Err(Panic("invalid status code"))
  }

  /** What a general prototype arm returns for a value whose `Display` text
      is `display`: the JSON envelope with the arm's status and code. */
  function ProtoRespond(arm: ProtoArm, display: string): (r: Result<Response, Panic>)
    requires arm.RespondArm?
    ensures r.Ok? <==> ProtoStatusValue(arm.status).Ok?
    ensures r.Ok? ==> r.value.status == ProtoStatusValue(arm.status).value
                      && r.value.headers == [JsonContentType]
                      && r.value.body.JsonBody?
                      && ReadErrorEnvelope(r.value.body.json) == Some((arm.code, display))
  {
    var status :- ProtoStatusValue(arm.status);
    Ok(JsonErrorResponse(status, arm.code, display))
  }

  /** The two derives agree on a status literal that parses to a valid
      status. On one that does not parse, the context derive quietly uses 500
      while the prototype panics. On one that parses to an invalid status,
      the prototype panics; the context derive hands that number unchanged to
      a custom function, and its default render panics. */
  lemma StatusHandlingDiffers(lit: string, code: string, message: string)
    ensures ParseU16(lit).Some? && ValidStatus(ParseU16(lit).value) ==>
              ProtoStatusValue(FromU16Unwrap(lit)) == Ok(EvalStatus(ParseOr500(lit)) as int)
    ensures ParseU16(lit).None? ==>
              ProtoStatusValue(FromU16Unwrap(lit)).Err? && EvalStatus(ParseOr500(lit)) == 500
    ensures ParseU16(lit).Some? && !ValidStatus(ParseU16(lit).value) ==>
              && ProtoStatusValue(FromU16Unwrap(lit)).Err?
              && EvalStatus(ParseOr500(lit)) == ParseU16(lit).value
              && ResponseContext.Render(ResponseContext.Context(Some(EvalStatus(ParseOr500(lit))), Some(code), Some(message))).Err?
  {
  }
}
