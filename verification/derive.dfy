/** `derive_axum_error_response` of the derive macro: the context impl plus
    an `IntoResponse` impl that renders either by default or through the
    type's custom function. */
module MacroDerive {
  import opened Wrappers
  import opened Syntax
  import opened Generated
  import opened Dispatch
  import opened CustomFn

  /** How the emitted `into_response` turns the context into a response. */
  datatype RenderImpl = DefaultRender | CustomRender(fnName: string)

  /** Everything one expansion emits for the type `name`. */
  datatype Derived = Derived(name: string, arms: seq<Arm>, render: RenderImpl)

  /** The expansion for `input`. `fnsInScope` are the function names the
      generated call can resolve: calling any other name is refused by the
      compiler. Failures come in the order the source meets them: a panic
      while expanding the variants, then the `Ident::new` panic for a custom
      function name that is not an identifier, and only then the compiler's
      refusals of the emitted code. */
  function Derive(input: DeriveInput, fnsInScope: set<string>): (r: Result<Derived, DeriveError>)
    ensures r.Ok? <==> ContextBlock(input).Ok?
                       && (ParseCustomFn(input.attrs).Some? ==>
                             ValidIdent(ParseCustomFn(input.attrs).value) && ParseCustomFn(input.attrs).value in fnsInScope)
    ensures r.Ok? ==> r.value.name == input.name && r.value.arms == ContextBlock(input).value
    ensures r.Ok? ==> (r.value.render == DefaultRender <==> ParseCustomFn(input.attrs).None?)
    ensures r.Ok? && ParseCustomFn(input.attrs).Some? ==> r.value.render == CustomRender(ParseCustomFn(input.attrs).value)
    ensures ContextBlock(input).Err? && ContextBlock(input).error.IsPanic() ==> r == Err(ContextBlock(input).error)
    ensures (ContextBlock(input).Ok? || !ContextBlock(input).error.IsPanic())
            && ParseCustomFn(input.attrs).Some? && !ValidIdent(ParseCustomFn(input.attrs).value)
            ==> r == Err(InvalidFnIdent(ParseCustomFn(input.attrs).value))
    ensures ContextBlock(input).Err? && !ContextBlock(input).error.IsPanic()
            && (ParseCustomFn(input.attrs).Some? ==> ValidIdent(ParseCustomFn(input.attrs).value))
            ==> r == Err(ContextBlock(input).error)
    ensures ContextBlock(input).Ok? && ParseCustomFn(input.attrs).Some? && ValidIdent(ParseCustomFn(input.attrs).value)
            && ParseCustomFn(input.attrs).value !in fnsInScope
            ==> r == Err(UnresolvedFn(ParseCustomFn(input.attrs).value))
    ensures r.Err? && !r.error.IsPanic() ==>
              (ContextBlock(input).Ok? || !ContextBlock(input).error.IsPanic())
              && (ParseCustomFn(input.attrs).Some? ==> ValidIdent(ParseCustomFn(input.attrs).value))
  {
    var customFn := ParseCustomFn(input.attrs);
    var block := ContextBlock(input);
    if block.Err? && block.error.IsPanic() then Err(block.error)
    else if customFn.Some? && !ValidIdent(customFn.value) then Err(InvalidFnIdent(customFn.value))
    else if block.Err? then Err(block.error)
    else if customFn.Some? && customFn.value !in fnsInScope then Err(UnresolvedFn(customFn.value))
    else Ok(Derived(input.name, block.value, if customFn.Some? then CustomRender(customFn.value) else DefaultRender))
  }
}
