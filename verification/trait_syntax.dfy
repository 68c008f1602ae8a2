/** The part of a parsed Rust trait (a `syn::ItemTrait`) that the attribute
    macros read. Token-level detail is abstracted: a type is its token text,
    as `quote!(#ty).to_string()` prints it, together with the single path
    segment that text parses as, when it parses as one. */
module TraitSyntax {
  import opened Outcomes

  /** The generic arguments of a path segment: none, `<...>` (the text of
      the arguments inside the angle brackets) or `(...) -> ...`. */
  datatype SegmentArgs = NoArgs | AngleArgs(inner: string) | ParenArgs(text: string)

  /** A `syn::PathSegment`: an identifier and its arguments. */
  datatype PathSegment = PathSegment(ident: string, arguments: SegmentArgs)

  /** A `syn::Type`: `text` is its printed token text; `segment` is the
      result of `syn::parse_str::<PathSegment>(text)`, `None` when the text
      is not a single path segment (`()`, `&str`, `std::string::String`). */
  datatype SynType = SynType(text: string, segment: Option<PathSegment>)

  /** A function argument: a receiver (`self`, `&self`, `&mut self`) or a
      pattern with a type, the pattern given as its token text. */
  datatype FnArg = Receiver | Typed(pat: string, ty: SynType)

  /** A signature's return type: absent or `-> T`. */
  datatype ReturnType = DefaultReturn | TypeReturn(ty: SynType)

  datatype Signature = Signature(ident: string, inputs: seq<FnArg>, output: ReturnType)

  /** A trait item: a method signature, or any other item (an associated
      type, a constant, a macro invocation). */
  datatype TraitItem = Method(sig: Signature) | OtherItem

  datatype ItemTrait = ItemTrait(ident: string, items: seq<TraitItem>)
}
