/** The attribute macro `#[norpc::service]` / `#[norpc::service(?Send)]`:
    it reads its argument tokens, turns the annotated trait into a
    descriptor with streaming flags, and generates the service's code.
    A panic (`unwrap` of a failed parse, `unreachable!`) is an `Err`. */
module MacroFrontEnd {
  import opened Outcomes
  import opened Descriptor
  import opened TraitSyntax
  import opened MacroDescriptor
  import opened MacroGenerator

  /** A token of the attribute's argument list. */
  datatype ArgToken = Punct(c: char) | Word(ident: string) | OtherToken(text: string)

  datatype Args = Args(local: bool)

  /** `try_parse` under `parse_macro_input!`: an optional `?` that must be
      followed by the keyword `Send`, and no tokens left over. */
  function ParseArgs(tokens: seq<ArgToken>): (r: Result<Args>)
    ensures r.Ok? <==> tokens == [] || tokens == [Punct('?'), Word("Send")]
    ensures r.Ok? ==> (r.value.local <==> tokens != [])
    ensures |tokens| >= 2 && tokens[0] == Punct('?') && tokens[1] != Word("Send") ==> r.Err?
  {
    if |tokens| > 0 && tokens[0] == Punct('?') then
      if |tokens| < 2 || tokens[1] != Word("Send") then Err(CompileError("expected `Send`"))
      else if |tokens| > 2 then Err(CompileError("unexpected token"))
      else Ok(Args(true))
    else if |tokens| > 0 then Err(CompileError("unexpected token"))
    else Ok(Args(false))
  }

  /** What `parse_type` makes of a type: `Stream<T>` is unwrapped to the
      text of `T`, any other type is kept. */
  datatype StreamType = Stream(inner: string) | Unit(text: string)

  function Carried(st: StreamType): string
  {
    match st
    case Stream(t) => t
    case Unit(t) => t
  }

  /** The type's single path segment is `Stream`. */
  predicate IsStream(ty: SynType)
  {
    ty.segment.Some? && ty.segment.value.ident == "Stream"
  }

  /** `parse_type` as the source writes it: the printed type is re-parsed as
      one path segment and unwrapped (a panic when it is not one), and a
      type other than `Stream` keeps only that segment's identifier. */
  function ParseTypeAsWritten(ty: SynType): (r: Result<StreamType>)
    ensures ty.segment.None? ==> r.Err?
    ensures r.Ok? && !IsStream(ty) ==> r.value == Unit(ty.segment.value.ident)
  {
    match ty.segment
    case None => Err(UnwrapFailed("parse_type: not a path segment"))
    case Some(seg) =>
      if seg.ident == "Stream" then
        match seg.arguments
        case AngleArgs(inner) => Ok(Stream(inner))
        case _ => Err(Unreachable("parse_type: Stream without <...>"))
      else Ok(Unit(seg.ident))
  }

  /** `parse_type` as evidently intended: `Stream<T>` is unwrapped to `T`,
      every other type is kept whole, as the codegen front end keeps it. */
  function ParseType(ty: SynType): (r: Result<StreamType>)
    ensures r.Ok? <==> !IsStream(ty) || ty.segment.value.arguments.AngleArgs?
    ensures r.Ok? ==> (r.value.Stream? <==> IsStream(ty))
    ensures r.Ok? && IsStream(ty) ==> r.value.inner == ty.segment.value.arguments.inner
    ensures r.Ok? && !IsStream(ty) ==> r.value == Unit(ty.text)
  {
    if IsStream(ty) then
      match ty.segment.value.arguments
      case AngleArgs(inner) => Ok(Stream(inner))
      case _ => Err(Unreachable("parse_type: Stream without <...>"))
    else Ok(Unit(ty.text))
  }

  /** Both readings agree on streams; they part ways on every other type
      that carries arguments or is not a single segment. */
  lemma ParseTypeReadingsAgreeOnStreams(ty: SynType)
    requires IsStream(ty)
    ensures ParseTypeAsWritten(ty) == ParseType(ty)
  {
  }

  /** `Option<String>` is printed `Option < String >`; as written its
      parameter type becomes `Option`, and `()` makes the macro panic. */
  lemma ParseTypeAsWrittenLosesArguments()
    ensures var ty := SynType("Option < String >", Some(PathSegment("Option", AngleArgs("String"))));
      ParseTypeAsWritten(ty) == Ok(Unit("Option")) && ParseType(ty) == Ok(Unit("Option < String >"))
    ensures var unit := SynType("( )", None);
      ParseTypeAsWritten(unit).Err? && ParseType(unit) == Ok(Unit("( )"))
  {
  }

  /** The parameters of a method, in order, and whether one of them is a
      stream. A receiver is unreachable. */
  function ParseInputs(args: seq<FnArg>): (r: Result<(seq<Parameter>, bool)>)
    ensures r.Ok? <==> forall i :: 0 <= i < |args| ==> args[i].Typed? && ParseType(args[i].ty).Ok?
    ensures r.Ok? ==> |r.value.0| == |args|
    ensures r.Ok? ==> forall i :: 0 <= i < |args| ==>
      r.value.0[i] == Parameter(args[i].pat, Carried(ParseType(args[i].ty).value))
    ensures r.Ok? ==> (r.value.1 <==> exists i :: 0 <= i < |args| && IsStream(args[i].ty))
  {
    if |args| == 0 then Ok(([], false))
    else
      match args[0]
      case Receiver => Err(Unreachable("parse_func: receiver"))
      case Typed(pat, ty) =>
        var st :- ParseType(ty);
        var rest :- ParseInputs(args[1..]);
        assert forall i :: 1 <= i < |args| ==> args[i] == args[1..][i - 1];
        Ok(([Parameter(pat, Carried(st))] + rest.0, st.Stream? || rest.1))
  }

  /** The output type and whether it is a stream; no return type means `()`. */
  function ParseOutput(output: ReturnType): (r: Result<(string, bool)>)
    ensures output.DefaultReturn? ==> r == Ok(("()", false))
    ensures output.TypeReturn? ==> (r.Ok? <==> ParseType(output.ty).Ok?)
    ensures output.TypeReturn? && r.Ok? ==>
      r.value == (Carried(ParseType(output.ty).value), IsStream(output.ty))
  {
    match output
    case DefaultReturn => Ok(("()", false))
    case TypeReturn(ty) =>
      var st :- ParseType(ty);
      Ok((Carried(st), st.Stream?))
  }

  /** `parse_func`: a method becomes a function with streaming flags; any
      other trait item is unreachable. */
  function ParseFunc(item: TraitItem): (r: Result<MacroFunction>)
    ensures item.OtherItem? ==> r.Err?
    ensures r.Ok? <==> item.Method? && ParseInputs(item.sig.inputs).Ok? && ParseOutput(item.sig.output).Ok?
    ensures r.Ok? ==>
      && r.value.name == item.sig.ident
      && r.value.inputs == ParseInputs(item.sig.inputs).value.0
      && r.value.output == ParseOutput(item.sig.output).value.0
    ensures r.Ok? ==> (r.value.clientStreaming <==>
      exists i :: 0 <= i < |item.sig.inputs| && IsStream(item.sig.inputs[i].ty))
    ensures r.Ok? ==> (r.value.serverStreaming <==> item.sig.output.TypeReturn? && IsStream(item.sig.output.ty))
  {
    match item
    case OtherItem => Err(Unreachable("parse_func: not a method"))
    case Method(sig) =>
      var inputs :- ParseInputs(sig.inputs);
      var output :- ParseOutput(sig.output);
      Ok(MacroFunction(sig.ident, inputs.0, output.0, inputs.1, output.1))
  }

  /** `parse_service`: the trait's name and one function per item, in order. */
  function ParseService(t: ItemTrait): (r: Result<MacroService>)
    ensures r.Ok? <==> forall i :: 0 <= i < |t.items| ==> ParseFunc(t.items[i]).Ok?
    ensures r.Ok? ==>
      && r.value.name == t.ident
      && |r.value.functions| == |t.items|
      && forall i :: 0 <= i < |t.items| ==> r.value.functions[i] == ParseFunc(t.items[i]).value
    ensures r.Err? ==> exists i :: 0 <= i < |t.items| && ParseFunc(t.items[i]) == Err(r.error)
                                   && forall j :: 0 <= j < i ==> ParseFunc(t.items[j]).Ok?
  {
    var fs :- MapAll(t.items, ParseFunc);
    Ok(MacroService(t.ident, fs))
  }

  /** What `service` hands to the generator: `no_send` is the parsed
      `local` flag, and the descriptor is the parsed trait. */
  function Configure(args: seq<ArgToken>, t: ItemTrait): (r: Result<(Generator, MacroService)>)
    ensures r.Ok? <==> ParseArgs(args).Ok? && ParseService(t).Ok?
    ensures r.Ok? ==> r.value.0.noSend == ParseArgs(args).value.local && r.value.1 == ParseService(t).value
    ensures r.Ok? ==> (r.value.0.noSend <==> args == [Punct('?'), Word("Send")])
  {
    var a :- ParseArgs(args);
    var svc :- ParseService(t);
    Ok((Generator(a.local), svc))
  }

  /** `service`: the generated code of the configured service. */
  function ServiceMacro(args: seq<ArgToken>, t: ItemTrait): (r: Result<string>)
    ensures r.Ok? <==> ParseArgs(args).Ok? && ParseService(t).Ok?
  {
    var c :- Configure(args, t);
    Ok(Generate(c.0, c.1))
  }
}
