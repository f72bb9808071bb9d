/** The shape of the code the derive macro emits for one variant: one arm of
    `match self` in `into_response_context`. */
module Generated {
  import opened Wrappers
  import opened Status

  /** The status expression of a general arm: the literal `500`, or
      `"lit".parse().unwrap_or(500)`. */
  datatype StatusExpr = Fixed500 | ParseOr500(literal: string)

  /** The value the status expression produces when the arm runs. */
  function EvalStatus(e: StatusExpr): (n: U16)
    ensures e.Fixed500? ==> n == 500
    ensures e.ParseOr500? && ParseU16(e.literal).Some? ==> n == ParseU16(e.literal).value
    ensures e.ParseOr500? && ParseU16(e.literal).None? ==> n == 500
  {
    match e
    case Fixed500 => InternalServerError
    case ParseOr500(lit) => ParseU16(lit).GetOr(InternalServerError)
  }

  /** `Name::V`, `Name::V(..)` and `Name::V(inner)`. */
  datatype Pattern = UnitPattern | TupleRestPattern | TupleInnerPattern

  /** A general arm builds a context from the status expression, the code and
      the whole value's `Display` text; a nested arm returns
      `inner.into_response_context()`. */
  datatype ArmBody = BuildContext(status: StatusExpr, code: string) | DelegateToInner

  datatype Arm = Arm(variant: string, pattern: Pattern, body: ArmBody)

  /** A general arm's status falls outside the valid range only through a
      literal that parses to such a number: the fallback 500 is always valid. */
  lemma EvalStatusInvalidOnlyFromLiteral(e: StatusExpr)
    ensures !ValidStatus(EvalStatus(e)) <==>
              e.ParseOr500? && ParseU16(e.literal).Some? && !ValidStatus(ParseU16(e.literal).value)
  {
  }
}
