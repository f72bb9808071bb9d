/** The derive macro's input, described abstractly: the enum, its variants,
    and their attributes. Attribute arguments are kept as the tokens inside
    the parentheses, since the parsers differ in exactly which token
    sequences they accept. */
module Syntax {
  import opened Wrappers

  /** One token inside an attribute's parentheses. `Ident` is a
      non-keyword identifier (syn's `Ident` parser refuses keywords);
      `EqSign` is a lone `=`. */
  datatype Token = StrLit(value: string) | Ident(name: string) | Keyword(name: string) | EqSign | OtherToken

  /** `#[name(tokens)]` (any delimiter) is a list; `#[name]` and
      `#[name = value]` are not, and `parse_args_with` rejects them. */
  datatype AttrArgs = NotList | List(tokens: seq<Token>)

  /** An attribute whose path is the single identifier `name`. */
  datatype Attr = Attr(name: string, args: AttrArgs)

  /** A variant's payload: `V`, `V(T1, .., Tn)` or `V { .. }`. */
  datatype Fields = Unit | Tuple(arity: nat) | Named

  datatype Variant = Variant(name: string, fields: Fields, attrs: seq<Attr>)

  datatype Data = Enum(variants: seq<Variant>) | Struct | Union

  /** The item the derive is attached to. */
  datatype DeriveInput = DeriveInput(name: string, attrs: seq<Attr>, data: Data)

  /** Why a derivation fails. Most are panics inside the macro, which end
      the expansion at once; three are generated code that the compiler
      refuses, which only surfaces when the expansion finishes. */
  datatype DeriveError =
    | NotAnEnum
    | CodeNotLiteral(variant: string)
    | NamedFields(variant: string)
    | UnknownResponseType(ident: string)
    | InvalidFnIdent(fnName: string)
    | NestedRendererRejected(variant: string)
    | NestedWithoutInner(variant: string)
    | NestedArity(variant: string, arity: nat)
    | UnresolvedFn(fnName: string)
  {
    /** A panic of the macro itself, as opposed to emitted code the compiler
        refuses afterwards. */
    predicate IsPanic() {
      !(NestedWithoutInner? || NestedArity? || UnresolvedFn?)
    }
  }

  /** `attrs.iter().find(|attr| attr.path().is_ident(name))`. */
  function FirstAttr(attrs: seq<Attr>, name: string): (r: Option<Attr>)
    ensures r.None? <==> forall i :: 0 <= i < |attrs| ==> attrs[i].name != name
    ensures r.Some? ==> exists i :: 0 <= i < |attrs| && attrs[i] == r.value && r.value.name == name
                                    && forall j :: 0 <= j < i ==> attrs[j].name != name
  {
    if |attrs| == 0 then None
    else if attrs[0].name == name then Some(attrs[0])
    else
      var r := FirstAttr(attrs[1..], name);
      assert forall j :: 0 < j < |attrs| ==> attrs[j] == attrs[1..][j - 1];
      r
  }

  /** Attributes appended after a matching one are never seen. */
  lemma {:induction false} FirstAttrIgnoresLater(attrs: seq<Attr>, more: seq<Attr>, name: string)
    requires FirstAttr(attrs, name).Some?
    ensures FirstAttr(attrs + more, name) == FirstAttr(attrs, name)
  {
    if attrs[0].name != name {
      assert (attrs + more)[1..] == attrs[1..] + more;
      FirstAttrIgnoresLater(attrs[1..], more, name);
    }
  }

  /** `a` occurs in `attrs` and no earlier attribute has its name. */
  predicate IsFirst(attrs: seq<Attr>, a: Attr) {
    exists i :: 0 <= i < |attrs| && attrs[i] == a && forall j :: 0 <= j < i ==> attrs[j].name != a.name
  }

  /** The search's result is exactly the attribute that comes first under its name. */
  lemma FirstAttrIsFirst(attrs: seq<Attr>, name: string)
    ensures forall a: Attr :: a.name == name ==> (FirstAttr(attrs, name) == Some(a) <==> IsFirst(attrs, a))
  {
    forall a: Attr | a.name == name
      ensures FirstAttr(attrs, name) == Some(a) <==> IsFirst(attrs, a)
    {
      if IsFirst(attrs, a) {
        var i :| 0 <= i < |attrs| && attrs[i] == a && forall j :: 0 <= j < i ==> attrs[j].name != a.name;
        var r := FirstAttr(attrs, name);
        assert r.Some?;
        var k :| 0 <= k < |attrs| && attrs[k] == r.value && r.value.name == name
                 && forall j :: 0 <= j < k ==> attrs[j].name != name;
        assert k == i;
      }
    }
  }

  /** The argument parses as a single identifier and nothing else. */
  function LoneIdent(args: AttrArgs): Option<string> {
    if args.List? && |args.tokens| == 1 && args.tokens[0].Ident? then Some(args.tokens[0].name) else None
  }

  /** The argument parses as a single string literal and nothing else. */
  function LoneStrLit(args: AttrArgs): Option<string> {
    if args.List? && |args.tokens| == 1 && args.tokens[0].StrLit? then Some(args.tokens[0].value) else None
  }

  predicate IsAsciiLetter(c: char) {
    ('a' <= c <= 'z') || ('A' <= c <= 'Z')
  }

  /** What `Ident::new` accepts: a letter or `_`, then letters, digits or `_`. */
  predicate ValidIdent(s: string) {
    && |s| > 0
    && (IsAsciiLetter(s[0]) || s[0] == '_')
    && forall i :: 0 < i < |s| ==> IsAsciiLetter(s[i]) || ('0' <= s[i] <= '9') || s[i] == '_'
  }
}
