/** The type-level `#[response(custom_fn = "name")]` override. */
module CustomFn {
  import opened Wrappers
  import opened Syntax

  /** The argument tokens of `response(custom_fn = "name")`. */
  function CustomFnArgs(name: string): AttrArgs {
    List([Ident("custom_fn"), EqSign, StrLit(name)])
  }

  /** `parse_custom_fn`: only the type's first `response` attribute is
      examined, and it must read exactly `custom_fn = "name"`; any other
      identifier, a missing `=`, a value that is not a string literal or
      trailing tokens give no override, silently. */
  function ParseCustomFn(attrs: seq<Attr>): (r: Option<string>)
    ensures r.Some? ==> FirstAttr(attrs, "response") == Some(Attr("response", CustomFnArgs(r.value)))
    ensures forall name :: FirstAttr(attrs, "response") == Some(Attr("response", CustomFnArgs(name))) ==> r == Some(name)
  {
    match FirstAttr(attrs, "response")
    case None => None
    case Some(a) =>
      match a.args
      case NotList => None
      case List(toks) =>
        if |toks| == 3 && toks[0] == Ident("custom_fn") && toks[1] == EqSign && toks[2].StrLit? then
          assert toks == [Ident("custom_fn"), EqSign, StrLit(toks[2].value)];
          Some(toks[2].value)
        else None
  }
}
