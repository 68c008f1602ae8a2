/** The service descriptor shared by the description-file compiler and the
    older codegen front end: a service is a name and its functions in
    declaration order, a function is a name, its parameters in order and an
    output type, a parameter is a variable name and a type name. Type names
    are kept as text, exactly as the generators splice them in. */
module Descriptor {

  datatype Parameter = Parameter(varName: string, typName: string)

  datatype Function = Function(name: string, inputs: seq<Parameter>, output: string)

  datatype Service = Service(name: string, functions: seq<Function>)

  /** The type of every parameter, in order. */
  function ParamTypes(ps: seq<Parameter>): seq<string>
  {
    seq(|ps|, i requires 0 <= i < |ps| => ps[i].typName)
  }

  /** The variable name of every parameter, in order. */
  function ParamVars(ps: seq<Parameter>): seq<string>
  {
    seq(|ps|, i requires 0 <= i < |ps| => ps[i].varName)
  }

  /** A parameter as the declaration `var:type`, the form both the
      description file and the generated method signatures use. */
  function Decl(p: Parameter): string
  {
    p.varName + ":" + p.typName
  }

  /** Every parameter as a `var:type` declaration, in order. */
  function ParamDecls(ps: seq<Parameter>): seq<string>
  {
    seq(|ps|, i requires 0 <= i < |ps| => Decl(ps[i]))
  }
}
