/** The descriptor the attribute macro builds from a trait: the shared
    `Service`/`Function`/`Parameter` shape, with two streaming flags on
    every function. */
module MacroDescriptor {
  import opened Descriptor

  datatype MacroFunction = MacroFunction(
    name: string,
    inputs: seq<Parameter>,
    output: string,
    clientStreaming: bool,
    serverStreaming: bool)

  datatype MacroService = MacroService(name: string, functions: seq<MacroFunction>)

  /** The fields the code templates read; the streaming flags are not among them. */
  function PlainFunction(f: MacroFunction): Function
  {
    Function(f.name, f.inputs, f.output)
  }

  function Plain(svc: MacroService): Service
  {
    Service(svc.name, seq(|svc.functions|, i requires 0 <= i < |svc.functions| => PlainFunction(svc.functions[i])))
  }
}
