/** The general strategy of the derive macro: a context built from the
    variant's own `status_code` and `code` attributes and the value's
    `Display` text. */
module GeneralStrategy {
  import opened Wrappers
  import opened Syntax
  import opened Generated

  /** `parse_status_code`: every `status_code` attribute yields a status
      expression. A lone string literal is parsed when the arm runs;
      anything else becomes a fixed 500 at expansion time. */
  function ParseStatusCode(a: Attr): (r: Option<StatusExpr>)
    ensures r.Some? <==> a.name == "status_code"
    ensures r.Some? ==> (r.value.ParseOr500? <==> LoneStrLit(a.args).Some?)
    ensures r.Some? && r.value.ParseOr500? ==> LoneStrLit(a.args) == Some(r.value.literal)
  {
    if a.name != "status_code" then None
    else
      match LoneStrLit(a.args)
      case Some(lit) => Some(ParseOr500(lit))
      case None => Some(Fixed500)
  }

  /** `attrs.iter().find_map(parse_status_code).unwrap_or(500)`: the first
      `status_code` attribute decides; without one the status is 500. */
  function FindStatus(attrs: seq<Attr>): (e: StatusExpr)
    ensures FirstAttr(attrs, "status_code").None? ==> e == Fixed500
    ensures FirstAttr(attrs, "status_code").Some? ==> ParseStatusCode(FirstAttr(attrs, "status_code").value) == Some(e)
  {
    if |attrs| == 0 then Fixed500
    else
      match ParseStatusCode(attrs[0])
      case Some(e) => e
      case None => FindStatus(attrs[1..])
  }

  /** `parse_code_string`: for a `code` attribute, the literal when it is the
      whole argument. Without parentheses, or with tokens after the literal,
      the outer parse fails and the code is the empty string. When the first
      token is not a string literal, the `unwrap` inside the parser panics. */
  function ParseCodeString(a: Attr): (r: Result<Option<string>, string>)
    ensures a.name != "code" ==> r == Ok(None)
    ensures a.name == "code" && LoneStrLit(a.args).Some? ==> r == Ok(Some(LoneStrLit(a.args).value))
    ensures a.name == "code" && a.args.NotList? ==> r == Ok(Some(""))
    ensures a.name == "code" && a.args.List? && |a.args.tokens| > 1 && a.args.tokens[0].StrLit? ==> r == Ok(Some(""))
    ensures r.Err? <==> a.name == "code" && a.args.List? && (|a.args.tokens| == 0 || !a.args.tokens[0].StrLit?)
  {
    if a.name != "code" then Ok(None)
    else
      match a.args
      case NotList => Ok(Some(""))
      case List(toks) =>
        if |toks| > 0 && toks[0].StrLit? then Ok(Some(if |toks| == 1 then toks[0].value else ""))
        else Err("expected string literal")
  }

  /** `attrs.iter().find_map(parse_code_string).unwrap_or_else(|| ident.to_string())`:
      the first `code` attribute decides; without one the code is the
      variant's name. A panic in the parser aborts the derivation. */
  function FindCode(attrs: seq<Attr>, variant: string): (r: Result<string, DeriveError>)
    ensures FirstAttr(attrs, "code").None? ==> r == Ok(variant)
    ensures FirstAttr(attrs, "code").Some? ==>
              match ParseCodeString(FirstAttr(attrs, "code").value)
              case Ok(code) => r == Ok(code.value)
              case Err(_) => r == Err(CodeNotLiteral(variant))
  {
    if |attrs| == 0 then Ok(variant)
    else
      match ParseCodeString(attrs[0])
      case Err(_) => Err(CodeNotLiteral(variant))
      case Ok(Some(code)) => Ok(code)
      case Ok(None) => FindCode(attrs[1..], variant)
  }

  /** `parse_general_response_context`. Status and code are resolved first
      (so a bad `code` attribute is reported before the field shape); named
      fields are refused; unit variants match `Name::V`, tuple variants of any
      arity match `Name::V(..)`. */
  function GeneralArm(v: Variant): (r: Result<Arm, DeriveError>)
    ensures r.Ok? <==> !v.fields.Named? && FindCode(v.attrs, v.name).Ok?
    ensures r.Ok? ==> r.value.variant == v.name
                      && r.value.body == BuildContext(FindStatus(v.attrs), FindCode(v.attrs, v.name).value)
                      && (r.value.pattern == UnitPattern <==> v.fields.Unit?)
                      && (r.value.pattern == TupleRestPattern <==> v.fields.Tuple?)
    ensures FindCode(v.attrs, v.name).Err? ==> r == Err(FindCode(v.attrs, v.name).error)
    ensures r.Err? && FindCode(v.attrs, v.name).Ok? ==> r.error == NamedFields(v.name)
  {
    var status := FindStatus(v.attrs);
    var code :- FindCode(v.attrs, v.name);
    match v.fields
    case Named => Err(NamedFields(v.name))
    case Unit => Ok(Arm(v.name, UnitPattern, BuildContext(status, code)))
    case Tuple(_) => Ok(Arm(v.name, TupleRestPattern, BuildContext(status, code)))
  }

  /** Only the first `status_code` and the first `code` attribute matter:
      attributes added after them leave the arm unchanged. */
  lemma GeneralArmIgnoresLaterMetadata(v: Variant, more: seq<Attr>)
    requires FirstAttr(v.attrs, "status_code").Some? && FirstAttr(v.attrs, "code").Some?
    ensures GeneralArm(v.(attrs := v.attrs + more)) == GeneralArm(v)
  {
    FirstAttrIgnoresLater(v.attrs, more, "status_code");
    FirstAttrIgnoresLater(v.attrs, more, "code");
  }
}
