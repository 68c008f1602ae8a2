/** The older `norpc-codegen` attribute macro: the same trait-to-descriptor
    mapping without streaming. Types are kept as their full printed text and
    a method without a return type is unreachable. */
module CodegenFrontEnd {
  import opened Outcomes
  import opened Descriptor
  import opened TraitSyntax
  import MacroDescriptor
  import MacroFrontEnd

  function ParseInputs(args: seq<FnArg>): (r: Result<seq<Parameter>>)
    ensures r.Ok? <==> forall i :: 0 <= i < |args| ==> args[i].Typed?
    ensures r.Ok? ==>
      && |r.value| == |args|
      && forall i :: 0 <= i < |args| ==> r.value[i] == Parameter(args[i].pat, args[i].ty.text)
  {
    if |args| == 0 then Ok([])
    else
      match args[0]
      case Receiver => Err(Unreachable("parse_func: receiver"))
      case Typed(pat, ty) =>
        var rest :- ParseInputs(args[1..]);
        assert forall i :: 1 <= i < |args| ==> args[i] == args[1..][i - 1];
        Ok([Parameter(pat, ty.text)] + rest)
  }

  /** `parse_func`: a method with typed arguments and a return type becomes
      a function; a receiver, a missing return type or any other item is
      unreachable. */
  function ParseFunc(item: TraitItem): (r: Result<Function>)
    ensures r.Ok? <==>
      && item.Method?
      && (forall i :: 0 <= i < |item.sig.inputs| ==> item.sig.inputs[i].Typed?)
      && item.sig.output.TypeReturn?
    ensures r.Ok? ==>
      && r.value.name == item.sig.ident
      && r.value.inputs == ParseInputs(item.sig.inputs).value
      && r.value.output == item.sig.output.ty.text
  {
    match item
    case OtherItem => Err(Unreachable("parse_func: not a method"))
    case Method(sig) =>
      var inputs :- ParseInputs(sig.inputs);
      match sig.output
      case DefaultReturn => Err(Unreachable("parse_func: no return type"))
      case TypeReturn(ty) => Ok(Function(sig.ident, inputs, ty.text))
  }

  /** `parse_service`: the trait's name and one function per item, in order. */
  function ParseService(t: ItemTrait): (r: Result<Service>)
    ensures r.Ok? <==> forall i :: 0 <= i < |t.items| ==> ParseFunc(t.items[i]).Ok?
    ensures r.Ok? ==>
      && r.value.name == t.ident
      && |r.value.functions| == |t.items|
      && forall i :: 0 <= i < |t.items| ==> r.value.functions[i] == ParseFunc(t.items[i]).value
    ensures r.Err? ==> exists i :: 0 <= i < |t.items| && ParseFunc(t.items[i]) == Err(r.error)
                                   && forall j :: 0 <= j < i ==> ParseFunc(t.items[j]).Ok?
  {
    var fs :- MapAll(t.items, ParseFunc);
    Ok(Service(t.ident, fs))
  }

  /** No type of the item is a stream. */
  predicate StreamFree(item: TraitItem)
  {
    item.Method?
    && (forall i :: 0 <= i < |item.sig.inputs| ==>
          item.sig.inputs[i].Typed? ==> !MacroFrontEnd.IsStream(item.sig.inputs[i].ty))
    && (item.sig.output.TypeReturn? ==> !MacroFrontEnd.IsStream(item.sig.output.ty))
  }

  /** On a method without streams, the codegen front end and the attribute
      macro (with `parse_type` as intended) read the same function, and the
      macro marks neither direction as streaming. */
  lemma FrontEndsAgree(item: TraitItem)
    requires StreamFree(item)
    requires ParseFunc(item).Ok?
    ensures MacroFrontEnd.ParseFunc(item).Ok?
    ensures MacroDescriptor.PlainFunction(MacroFrontEnd.ParseFunc(item).value) == ParseFunc(item).value
    ensures !MacroFrontEnd.ParseFunc(item).value.clientStreaming
    ensures !MacroFrontEnd.ParseFunc(item).value.serverStreaming
  {
    var sig := item.sig;
    var mine := ParseInputs(sig.inputs).value;
    assert forall i :: 0 <= i < |sig.inputs| ==> MacroFrontEnd.ParseType(sig.inputs[i].ty).Ok?;
    var theirs := MacroFrontEnd.ParseInputs(sig.inputs).value.0;
    assert |theirs| == |mine|;
    assert forall i :: 0 <= i < |mine| ==> theirs[i] == mine[i];
  }
}
