/** Strategy dispatch and the context block driver
    (`parse_response` and `parse_final_response_context_block`). */
module Dispatch {
  import opened Wrappers
  import opened Syntax
  import opened Generated
  import opened Traverse
  import GeneralStrategy
  import NestedStrategy

  datatype Strategy = General | Nested

  /** The attribute `#[response(id)]`. */
  function ResponseMarker(id: string): Attr {
    Attr("response", List([Ident(id)]))
  }

  /** Only the variant's first `response` attribute is examined. The
      strategy is nested exactly when that attribute reads `response(nested)`;
      the derivation panics exactly when it reads `response(id)` for an
      identifier other than `nested` and `general`; in every other case,
      including no attribute at all, the strategy is general. */
  function StrategyOf(v: Variant): (r: Result<Strategy, DeriveError>)
    ensures r == Ok(Nested) <==> IsFirst(v.attrs, ResponseMarker("nested"))
    ensures r.Err? <==> exists id :: id != "nested" && id != "general" && IsFirst(v.attrs, ResponseMarker(id))
    ensures r.Err? ==> r.error.UnknownResponseType? && IsFirst(v.attrs, ResponseMarker(r.error.ident))
  {
    FirstAttrIsFirst(v.attrs, "response");
    match FirstAttr(v.attrs, "response")
    case None => Ok(General)
    case Some(a) =>
      match LoneIdent(a.args)
      case None => Ok(General)
      case Some(id) =>
        assert a == ResponseMarker(id);
        if id == "nested" then Ok(Nested)
        else if id == "general" then Ok(General)
        else Err(UnknownResponseType(id))
  }

  /** Attributes after the first `response` attribute do not change the
      strategy. */
  lemma StrategyOfIgnoresLater(v: Variant, more: seq<Attr>)
    requires FirstAttr(v.attrs, "response").Some?
    ensures StrategyOf(v.(attrs := v.attrs + more)) == StrategyOf(v)
  {
    FirstAttrIgnoresLater(v.attrs, more, "response");
  }

  /** `parse_response`: the arm of the chosen strategy. */
  function ParseResponse(v: Variant): (r: Result<Arm, DeriveError>)
    ensures r.Ok? ==> r.value.variant == v.name
    ensures r.Ok? ==> (r.value.body.DelegateToInner? <==> StrategyOf(v) == Ok(Nested))
    ensures StrategyOf(v).Err? ==> r == Err(StrategyOf(v).error)
    ensures StrategyOf(v) == Ok(General) ==> r == GeneralStrategy.GeneralArm(v)
    ensures StrategyOf(v) == Ok(Nested) ==> r == NestedStrategy.NestedArm(v)
  {
    var s :- StrategyOf(v);
    match s
    case Nested => NestedStrategy.NestedArm(v)
    case General => GeneralStrategy.GeneralArm(v)
  }

  /** `response(nested)` on a variant that has no inner value is a failure,
      never a quiet fallback to the general strategy. */
  lemma NestedUnitRejected(v: Variant)
    requires v.fields.Unit? && StrategyOf(v) == Ok(Nested)
    ensures ParseResponse(v) == Err(NestedWithoutInner(v.name))
  {
  }

  /** Expanding the variant makes the macro panic. */
  predicate Panics(v: Variant) {
    ParseResponse(v).Err? && ParseResponse(v).error.IsPanic()
  }

  /** `parse_final_response_context_block`: only enums are accepted; the
      match has exactly one arm per variant, in declaration order. The arms
      are all expanded before anything is compiled, so the first variant
      that panics decides the failure; only when none panics does the first
      variant whose emitted arm the compiler refuses decide it. */
  function ContextBlock(input: DeriveInput): (r: Result<seq<Arm>, DeriveError>)
    ensures !input.data.Enum? ==> r == Err(NotAnEnum)
    ensures r.Ok? <==> input.data.Enum?
                       && forall i :: 0 <= i < |input.data.variants| ==> ParseResponse(input.data.variants[i]).Ok?
    ensures r.Ok? ==> |r.value| == |input.data.variants|
                      && forall i :: 0 <= i < |r.value| ==>
                           r.value[i] == ParseResponse(input.data.variants[i]).value
                           && r.value[i].variant == input.data.variants[i].name
    ensures r.Err? && input.data.Enum? && r.error.IsPanic() ==>
              exists i :: 0 <= i < |input.data.variants| && ParseResponse(input.data.variants[i]) == Err(r.error)
                          && forall j :: 0 <= j < i ==> !Panics(input.data.variants[j])
    ensures r.Err? && input.data.Enum? && !r.error.IsPanic() ==>
              (forall j :: 0 <= j < |input.data.variants| ==> !Panics(input.data.variants[j]))
              && exists i :: 0 <= i < |input.data.variants| && ParseResponse(input.data.variants[i]) == Err(r.error)
                             && forall j :: 0 <= j < i ==> ParseResponse(input.data.variants[j]).Ok?
  {
    match input.data
    case Enum(vs) =>
      var firstPanic := FirstErrorWhere(vs, ParseResponse, (e: DeriveError) => e.IsPanic());
      if firstPanic.Some? then Err(firstPanic.value) else MapResult(vs, ParseResponse)
    case _ => Err(NotAnEnum)
  }
}
