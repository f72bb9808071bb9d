/** The nested strategy of the derive macro: the arm hands the single inner
    value's own context back unchanged. */
module NestedStrategy {
  import opened Wrappers
  import opened Syntax
  import opened Generated

  /** `parse_nested_response_context`. Named fields make the macro panic. A
      unit variant gets `panic!(..)` where the pattern belongs, and a tuple
      variant other than a one-field one gets the pattern `Name::V(inner)`
      with the wrong number of fields; the compiler refuses both. */
  function NestedArm(v: Variant): (r: Result<Arm, DeriveError>)
    ensures r.Ok? <==> v.fields == Tuple(1)
    ensures r.Ok? ==> r.value == Arm(v.name, TupleInnerPattern, DelegateToInner)
    ensures v.fields.Named? ==> r == Err(NamedFields(v.name))
    ensures v.fields.Unit? ==> r == Err(NestedWithoutInner(v.name))
    ensures v.fields.Tuple? && v.fields.arity != 1 ==> r == Err(NestedArity(v.name, v.fields.arity))
  {
    match v.fields
    case Named => Err(NamedFields(v.name))
    case Unit => Err(NestedWithoutInner(v.name))
    case Tuple(n) => if n == 1 then Ok(Arm(v.name, TupleInnerPattern, DelegateToInner)) else Err(NestedArity(v.name, n))
  }

  /** The nested arm never looks at the variant's attributes: `status_code`
      and `code` on a nested variant have no effect. */
  lemma NestedArmIgnoresAttributes(v: Variant, attrs: seq<Attr>)
    ensures NestedArm(v.(attrs := attrs)) == NestedArm(v)
  {
  }
}
