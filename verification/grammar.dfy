/** The language of service-description files, stated independently of the
    parser: the character classes of its names, a tree view of its type names,
    and the canonical (whitespace-free) text of every construct.

      File      = Service+
      Service   = "service" TypeName "{" Function+ "}"
      Function  = "fn" VarName "(" [Param ("," Param)*] ")" "->" TypeName ";"
      Param     = VarName ":" TypeName
      TypeName  = "[" TypeName ("," TypeName)* "]"
                | "(" [TypeName ("," TypeName)*] ")"
                | TypeIdent "<" TypeName ("," TypeName)* ">"
                | TypeIdent

    The parser reads this text back, so the printers here are its inverse. */
module Grammar {
  import opened Text
  import opened Descriptor

  /** Characters of a type identifier: ASCII letters, digits and `_`. */
  predicate IsTypeIdentChar(c: char)
  {
    ('a' <= c <= 'z') || ('A' <= c <= 'Z') || ('0' <= c <= '9') || c == '_'
  }

  /** Characters of a variable or function name: lower-case letters, digits and `_`. */
  predicate IsVarChar(c: char)
  {
    ('a' <= c <= 'z') || ('0' <= c <= '9') || c == '_'
  }

  predicate IsTypeIdent(s: string)
  {
    |s| > 0 && forall i :: 0 <= i < |s| ==> IsTypeIdentChar(s[i])
  }

  predicate IsVarName(s: string)
  {
    |s| > 0 && forall i :: 0 <= i < |s| ==> IsVarChar(s[i])
  }

  /** A type name as a tree: an identifier, an array `[T,..]`, a tuple
      `(T,..)` or a generic composite `Id<T,..>`. */
  datatype TypeTree =
    | Named(ident: string)
    | ArrayOf(elems: seq<TypeTree>)
    | TupleOf(elems: seq<TypeTree>)
    | Generic(ident: string, args: seq<TypeTree>)

  /** Arrays and composites have at least one element; tuples may be empty. */
  ghost predicate WfType(t: TypeTree)
  {
    match t
    case Named(id) => IsTypeIdent(id)
    case ArrayOf(es) => |es| > 0 && forall i :: 0 <= i < |es| ==> WfType(es[i])
    case TupleOf(es) => forall i :: 0 <= i < |es| ==> WfType(es[i])
    case Generic(id, args) => IsTypeIdent(id) && |args| > 0 && forall i :: 0 <= i < |args| ==> WfType(args[i])
  }

  /** The canonical text of a type: elements joined by `,`, no spaces. */
  function Render(t: TypeTree): string
  {
    match t
    case Named(id) => id
    case ArrayOf(es) => "[" + Join(RenderAll(es), ",") + "]"
    case TupleOf(es) => "(" + Join(RenderAll(es), ",") + ")"
    case Generic(id, args) => id + "<" + Join(RenderAll(args), ",") + ">"
  }

  function RenderAll(ts: seq<TypeTree>): seq<string>
  {
    seq(|ts|, i requires 0 <= i < |ts| => Render(ts[i]))
  }

  /** Text that is the canonical rendering of some well-formed type. */
  ghost predicate IsTypeText(s: string)
  {
    exists t :: WfType(t) && Render(t) == s
  }

  ghost predicate AllTypeTexts(xs: seq<string>)
  {
    forall i :: 0 <= i < |xs| ==> IsTypeText(xs[i])
  }

  lemma AllTypeTextsCons(x: string, xs: seq<string>)
    requires IsTypeText(x) && AllTypeTexts(xs)
    ensures AllTypeTexts([x] + xs)
  {
  }

  /** Every list of type texts is the rendering of a list of well-formed trees. */
  lemma TreesOf(xs: seq<string>) returns (ts: seq<TypeTree>)
    requires AllTypeTexts(xs)
    ensures |ts| == |xs| && RenderAll(ts) == xs
    ensures forall i :: 0 <= i < |ts| ==> WfType(ts[i])
  {
    ts := seq(|xs|, i requires 0 <= i < |xs| && IsTypeText(xs[i]) => var t :| WfType(t) && Render(t) == xs[i]; t);
  }

  /** A type identifier on its own is a type name. */
  lemma NamedText(id: string)
    requires IsTypeIdent(id)
    ensures IsTypeText(id)
  {
    assert WfType(Named(id)) && Render(Named(id)) == id;
  }

  /** Type names between brackets form an array type (at least one). */
  lemma ArrayText(xs: seq<string>)
    requires |xs| > 0 && AllTypeTexts(xs)
    ensures IsTypeText("[" + Join(xs, ",") + "]")
  {
    var ts := TreesOf(xs);
    assert WfType(ArrayOf(ts)) && Render(ArrayOf(ts)) == "[" + Join(xs, ",") + "]";
  }

  /** Type names between parentheses form a tuple type (possibly the unit type). */
  lemma TupleText(xs: seq<string>)
    requires AllTypeTexts(xs)
    ensures IsTypeText("(" + Join(xs, ",") + ")")
  {
    var ts := TreesOf(xs);
    assert WfType(TupleOf(ts)) && Render(TupleOf(ts)) == "(" + Join(xs, ",") + ")";
  }

  /** A type identifier applied to type names forms a composite type. */
  lemma GenericText(id: string, xs: seq<string>)
    requires IsTypeIdent(id) && |xs| > 0 && AllTypeTexts(xs)
    ensures IsTypeText(id + "<" + Join(xs, ",") + ">")
  {
    var ts := TreesOf(xs);
    assert WfType(Generic(id, ts)) && Render(Generic(id, ts)) == id + "<" + Join(xs, ",") + ">";
  }

  /** Canonical text of a function definition. */
  function PrintFunction(f: Function): string
  {
    "fn" + f.name + "(" + Join(ParamDecls(f.inputs), ",") + ")" + "->" + f.output + ";"
  }

  function PrintFunctions(fs: seq<Function>): seq<string>
  {
    seq(|fs|, i requires 0 <= i < |fs| => PrintFunction(fs[i]))
  }

  /** Canonical text of a service block. */
  function PrintService(svc: Service): string
  {
    "service" + svc.name + "{" + Join(PrintFunctions(svc.functions), "") + "}"
  }

  function PrintServices(svcs: seq<Service>): seq<string>
  {
    seq(|svcs|, i requires 0 <= i < |svcs| => PrintService(svcs[i]))
  }

  /** Canonical text of a whole description file. */
  function PrintFile(svcs: seq<Service>): string
  {
    Join(PrintServices(svcs), "")
  }

  ghost predicate WfParameter(p: Parameter)
  {
    IsVarName(p.varName) && IsTypeText(p.typName)
  }

  ghost predicate WfParameters(ps: seq<Parameter>)
  {
    forall i :: 0 <= i < |ps| ==> WfParameter(ps[i])
  }

  ghost predicate WfFunction(f: Function)
  {
    IsVarName(f.name) && WfParameters(f.inputs) && IsTypeText(f.output)
  }

  ghost predicate WfFunctions(fs: seq<Function>)
  {
    forall i :: 0 <= i < |fs| ==> WfFunction(fs[i])
  }

  /** A service the grammar can express: its name is a type name and it
      declares at least one function. */
  ghost predicate WfService(svc: Service)
  {
    IsTypeText(svc.name) && |svc.functions| > 0 && WfFunctions(svc.functions)
  }

  ghost predicate WfServices(svcs: seq<Service>)
  {
    forall i :: 0 <= i < |svcs| ==> WfService(svcs[i])
  }

  ghost predicate WfFile(svcs: seq<Service>)
  {
    |svcs| > 0 && WfServices(svcs)
  }

  lemma WfParametersCons(p: Parameter, ps: seq<Parameter>)
    requires WfParameter(p) && WfParameters(ps)
    ensures WfParameters([p] + ps)
  {
  }

  lemma WfFunctionsCons(f: Function, fs: seq<Function>)
    requires WfFunction(f) && WfFunctions(fs)
    ensures WfFunctions([f] + fs)
  {
  }

  lemma WfServicesCons(svc: Service, svcs: seq<Service>)
    requires WfService(svc) && WfServices(svcs)
    ensures WfServices([svc] + svcs)
  {
  }

  /** Canonical text never contains whitespace, so stripping whitespace
      leaves it unchanged. */
  lemma {:induction false} RenderNoWhitespace(t: TypeTree)
    requires WfType(t)
    ensures NoWhitespace(Render(t))
    decreases t
  {
    match t
    case Named(id) =>
    case ArrayOf(es) =>
      ElementsNoWhitespace(es);
      BracketedNoWhitespace("[", RenderAll(es), "]");
    case TupleOf(es) =>
      ElementsNoWhitespace(es);
      BracketedNoWhitespace("(", RenderAll(es), ")");
    case Generic(id, args) =>
      ElementsNoWhitespace(args);
      BracketedNoWhitespace("<", RenderAll(args), ">");
      NoWhitespaceAppend(id, "<" + Join(RenderAll(args), ",") + ">");
      Assoc3(id, "<" + Join(RenderAll(args), ","), ">");
      Assoc3(id, "<", Join(RenderAll(args), ","));
  }

  lemma {:induction false} ElementsNoWhitespace(ts: seq<TypeTree>)
    requires forall i :: 0 <= i < |ts| ==> WfType(ts[i])
    ensures forall i :: 0 <= i < |ts| ==> NoWhitespace(RenderAll(ts)[i])
    decreases ts, 0
  {
    forall i | 0 <= i < |ts|
      ensures NoWhitespace(RenderAll(ts)[i])
    {
      RenderNoWhitespace(ts[i]);
    }
  }

  lemma BracketedNoWhitespace(open: string, xs: seq<string>, close: string)
    requires NoWhitespace(open) && NoWhitespace(close)
    requires forall i :: 0 <= i < |xs| ==> NoWhitespace(xs[i])
    ensures NoWhitespace(open + Join(xs, ",") + close)
  {
    JoinNoWhitespace(xs, ",");
    NoWhitespaceAppend(open, Join(xs, ","));
    NoWhitespaceAppend(open + Join(xs, ","), close);
  }

  lemma TypeTextNoWhitespace(s: string)
    requires IsTypeText(s)
    ensures NoWhitespace(s)
  {
    var t :| WfType(t) && Render(t) == s;
    RenderNoWhitespace(t);
  }

  lemma PrintFunctionNoWhitespace(f: Function)
    requires WfFunction(f)
    ensures NoWhitespace(PrintFunction(f))
  {
    var decls := ParamDecls(f.inputs);
    forall i | 0 <= i < |decls|
      ensures NoWhitespace(decls[i])
    {
      TypeTextNoWhitespace(f.inputs[i].typName);
      NoWhitespaceAppend(f.inputs[i].varName, ":");
      NoWhitespaceAppend(f.inputs[i].varName + ":", f.inputs[i].typName);
    }
    BracketedNoWhitespace("(", decls, ")");
    TypeTextNoWhitespace(f.output);
    NoWhitespaceAppend("fn", f.name);
    NoWhitespaceAppend("fn" + f.name, "(" + Join(decls, ",") + ")");
    Assoc3("fn" + f.name, "(" + Join(decls, ","), ")");
    Assoc3("fn" + f.name, "(", Join(decls, ","));
    var head := "fn" + f.name + "(" + Join(decls, ",") + ")";
    NoWhitespaceAppend(head, "->");
    NoWhitespaceAppend(head + "->", f.output);
    NoWhitespaceAppend(head + "->" + f.output, ";");
  }

  lemma PrintServiceNoWhitespace(svc: Service)
    requires WfService(svc)
    ensures NoWhitespace(PrintService(svc))
  {
    var fs := PrintFunctions(svc.functions);
    forall i | 0 <= i < |fs|
      ensures NoWhitespace(fs[i])
    {
      PrintFunctionNoWhitespace(svc.functions[i]);
    }
    BracketedNoWhitespace("{", fs, "}");
    JoinNoWhitespace(fs, "");
    TypeTextNoWhitespace(svc.name);
    NoWhitespaceAppend("service", svc.name);
    NoWhitespaceAppend("service" + svc.name, "{");
    NoWhitespaceAppend("service" + svc.name + "{", Join(fs, ""));
    NoWhitespaceAppend("service" + svc.name + "{" + Join(fs, ""), "}");
  }

  lemma PrintFileNoWhitespace(svcs: seq<Service>)
    requires WfFile(svcs)
    ensures NoWhitespace(PrintFile(svcs))
  {
    var ss := PrintServices(svcs);
    forall i | 0 <= i < |ss|
      ensures NoWhitespace(ss[i])
    {
      PrintServiceNoWhitespace(svcs[i]);
    }
    JoinNoWhitespace(ss, "");
  }
}
