/** The nom parser of service-description files (`norpc/src/compiler/parser.rs`).

    Every parser takes the input text and either fails or returns the parsed
    value together with the unconsumed rest, like nom's `IResult`. Only
    recoverable errors occur, so `alt` falls through to the next alternative
    and the list combinators stop (backtracking the separator) at the first
    element that does not parse.

    The central contract of every parser is a round trip: on success the
    input is exactly the canonical text of the result (as printed by the
    `Grammar` module) followed by the rest. */
module Parser {
  import opened Outcomes
  import opened Text
  import opened Descriptor
  import opened Grammar

  /** A parsed value and the unconsumed rest of the input. */
  type Parsed<T> = Option<(T, string)>

  /** nom's `tag(t)`: succeeds exactly when the input starts with `t`. */
  function Literal(s: string, t: string): (r: Option<string>)
    ensures r.Some? ==> s == t + r.value
    ensures forall rest :: s == t + rest ==> r == Some(rest)
  {
    if |t| <= |s| && s[..|t|] == t then Some(s[|t|..]) else None
  }

  /** Length of the longest prefix of `s` whose characters all satisfy `p`. */
  function Span(s: string, p: char -> bool): (n: nat)
    ensures n <= |s|
    ensures forall i :: 0 <= i < n ==> p(s[i])
    ensures n == |s| || !p(s[n])
  {
    if |s| > 0 && p(s[0]) then 1 + Span(s[1..], p) else 0
  }

  /** nom's `is_a(chars)`: the longest non-empty run of characters from the
      set, failing when the input does not start with one. */
  function IsA(s: string, p: char -> bool): (r: Parsed<string>)
    ensures r.None? <==> |s| == 0 || !p(s[0])
    ensures r.Some? ==> s == r.value.0 + r.value.1
    ensures r.Some? ==> |r.value.0| > 0 && forall i :: 0 <= i < |r.value.0| ==> p(r.value.0[i])
    ensures r.Some? ==> |r.value.1| == 0 || !p(r.value.1[0])
  {
    var n := Span(s, p);
    if n == 0 then None else Some((s[..n], s[n..]))
  }

  /** `parse_typeident`: a maximal run of `[A-Za-z0-9_]`. */
  function TypeIdent(s: string): (r: Parsed<string>)
    ensures r.None? <==> |s| == 0 || !IsTypeIdentChar(s[0])
    ensures r.Some? ==> IsTypeIdent(r.value.0) && s == r.value.0 + r.value.1
    ensures r.Some? ==> |r.value.1| == 0 || !IsTypeIdentChar(r.value.1[0])
  {
    IsA(s, IsTypeIdentChar)
  }

  /** `parse_varname`: a maximal run of `[a-z0-9_]`; upper case is not allowed. */
  function VarName(s: string): (r: Parsed<string>)
    ensures r.None? <==> |s| == 0 || !IsVarChar(s[0])
    ensures r.Some? ==> IsVarName(r.value.0) && s == r.value.0 + r.value.1
    ensures r.Some? ==> |r.value.1| == 0 || !IsVarChar(r.value.1[0])
  {
    IsA(s, IsVarChar)
  }

  /** The array alternative of `parse_typename2`: `[` one or more type names `]`. */
  function ArrayType(s: string): (r: Parsed<string>)
    ensures r.Some? ==> |r.value.0| > 0 && s == r.value.0 + r.value.1
    ensures r.Some? ==> IsTypeText(r.value.0)
    decreases |s|, 0
  {
    var r1 :- Literal(s, "[");
    var xs :- TypeNameList1(r1);
    var r2 :- Literal(xs.1, "]");
    ArrayText(xs.0);
    Some(("[" + Join(xs.0, ",") + "]", r2))
  }

  /** The tuple alternative: `(` zero or more type names `)`, so `()` is a type. */
  function TupleType(s: string): (r: Parsed<string>)
    ensures r.Some? ==> |r.value.0| > 0 && s == r.value.0 + r.value.1
    ensures r.Some? ==> IsTypeText(r.value.0)
    decreases |s|, 0
  {
    var r1 :- Literal(s, "(");
    var xs := TypeNameList0(r1);
    var r2 :- Literal(xs.1, ")");
    TupleText(xs.0);
    Some(("(" + Join(xs.0, ",") + ")", r2))
  }

  /** The composite alternative: an identifier, `<`, one or more type names, `>`. */
  function CompositeType(s: string): (r: Parsed<string>)
    ensures r.Some? ==> |r.value.0| > 0 && s == r.value.0 + r.value.1
    ensures r.Some? ==> IsTypeText(r.value.0)
    decreases |s|, 0
  {
    var id :- TypeIdent(s);
    var r1 :- Literal(id.1, "<");
    var xs :- TypeNameList1(r1);
    var r2 :- Literal(xs.1, ">");
    Assoc5(id.0, "<", Join(xs.0, ","), ">", r2);
    GenericText(id.0, xs.0);
    Some((id.0 + "<" + Join(xs.0, ",") + ">", r2))
  }

  /** Regrouping a right-nested concatenation of five pieces to the left. */
  lemma Assoc5(a: string, b: string, c: string, d: string, e: string)
    ensures a + (b + (c + (d + e))) == a + b + c + d + e
  {
  }

  /** `parse_typename2`: array, then tuple, then composite, then a bare
      identifier, the first that succeeds. The text returned is the consumed
      prefix itself, rebuilt by joining the parts with `,`. */
  function TypeName(s: string): (r: Parsed<string>)
    ensures r.Some? ==> |r.value.0| > 0 && s == r.value.0 + r.value.1
    ensures r.Some? ==> IsTypeText(r.value.0)
    decreases |s|, 1
  {
    var asArray := ArrayType(s);
    if asArray.Some? then asArray
    else
      var asTuple := TupleType(s);
      if asTuple.Some? then asTuple
      else
        var asComposite := CompositeType(s);
        if asComposite.Some? then asComposite
        else
          var asIdent := TypeIdent(s);
          if asIdent.None? then None
          else
            NamedText(asIdent.value.0);
            asIdent
  }

  /** `separated_list1(tag(","), parse_typename2)`. */
  function TypeNameList1(s: string): (r: Parsed<seq<string>>)
    ensures r.Some? ==> |r.value.0| > 0 && s == Join(r.value.0, ",") + r.value.1
    ensures r.Some? ==> AllTypeTexts(r.value.0)
    decreases |s|, 2
  {
    var first :- TypeName(s);
    var more := TypeNameTail(first.1);
    TypeNameListStep(first.0, first.1, more.0, more.1);
    Some(([first.0] + more.0, more.1))
  }

  /** `separated_list0(tag(","), parse_typename2)`: never fails; an input that
      does not start with a type name gives the empty list. */
  function TypeNameList0(s: string): (r: (seq<string>, string))
    ensures s == Join(r.0, ",") + r.1
    ensures AllTypeTexts(r.0)
    decreases |s|, 3
  {
    match TypeNameList1(s)
    case Some(xs) => xs
    case None => ([], s)
  }

  /** The repetition inside the separated lists: `,` followed by a type name,
      as often as both parse; a `,` not followed by a type name is left unread. */
  function TypeNameTail(s: string): (r: (seq<string>, string))
    ensures |r.0| == 0 ==> r.1 == s
    ensures |r.0| > 0 ==> s == "," + Join(r.0, ",") + r.1
    ensures AllTypeTexts(r.0)
    decreases |s|, 2
  {
    match Literal(s, ",")
    case None => ([], s)
    case Some(r1) =>
      match TypeName(r1)
      case None => ([], s)
      case Some(x) =>
        var more := TypeNameTail(x.1);
        TypeNameListStep(x.0, x.1, more.0, more.1);
        ([x.0] + more.0, more.1)
  }

  /** A type name followed by the `,`-separated tail reads as one list. */
  lemma TypeNameListStep(x: string, r1: string, more: seq<string>, r2: string)
    requires IsTypeText(x) && AllTypeTexts(more)
    requires |more| == 0 ==> r2 == r1
    requires |more| > 0 ==> r1 == "," + Join(more, ",") + r2
    ensures x + r1 == Join([x] + more, ",") + r2
    ensures "," + (x + r1) == "," + Join([x] + more, ",") + r2
    ensures AllTypeTexts([x] + more)
  {
    JoinStep(x, more, ",", r2, r1);
    Assoc3(",", x, r1);
    AllTypeTextsCons(x, more);
  }

  /** `parse_param`: `var:type`. */
  function Param(s: string): (r: Parsed<Parameter>)
    ensures r.Some? ==> WfParameter(r.value.0)
    ensures r.Some? ==> s == Decl(r.value.0) + r.value.1
  {
    var v :- VarName(s);
    var r1 :- Literal(v.1, ":");
    var t :- TypeName(r1);
    Some((Parameter(v.0, t.0), t.1))
  }

  lemma ParamDeclsCons(p: Parameter, ps: seq<Parameter>)
    ensures ParamDecls([p] + ps) == [Decl(p)] + ParamDecls(ps)
  {
  }

  /** `separated_list1(tag(","), parse_param)`. */
  function ParamList1(s: string): (r: Parsed<seq<Parameter>>)
    ensures r.Some? ==> |r.value.0| > 0 && s == Join(ParamDecls(r.value.0), ",") + r.value.1
    ensures r.Some? ==> WfParameters(r.value.0)
  {
    var first :- Param(s);
    var more := ParamTail(first.1);
    ParamList1Step(s, first.0, first.1, more.0, more.1);
    Some(([first.0] + more.0, more.1))
  }

  /** The first parameter followed by the `,`-separated tail reads as one list. */
  lemma ParamList1Step(s: string, p: Parameter, r1: string, more: seq<Parameter>, r2: string)
    requires s == Decl(p) + r1 && WfParameter(p)
    requires |more| == 0 ==> r2 == r1
    requires |more| > 0 ==> r1 == "," + Join(ParamDecls(more), ",") + r2
    requires WfParameters(more)
    ensures s == Join(ParamDecls([p] + more), ",") + r2
    ensures WfParameters([p] + more)
  {
    ParamDeclsCons(p, more);
    JoinStep(Decl(p), ParamDecls(more), ",", r2, r1);
    WfParametersCons(p, more);
  }

  /** `separated_list0(tag(","), parse_param)`: a function may take no parameters. */
  function ParamList0(s: string): (r: (seq<Parameter>, string))
    ensures s == Join(ParamDecls(r.0), ",") + r.1
    ensures WfParameters(r.0)
  {
    match ParamList1(s)
    case Some(ps) => ps
    case None => ([], s)
  }

  function ParamTail(s: string): (r: (seq<Parameter>, string))
    ensures |r.0| == 0 ==> r.1 == s
    ensures |r.0| > 0 ==> s == "," + Join(ParamDecls(r.0), ",") + r.1
    ensures WfParameters(r.0)
    decreases |s|
  {
    match Literal(s, ",")
    case None => ([], s)
    case Some(r1) =>
      match Param(r1)
      case None => ([], s)
      case Some(p) =>
        var more := ParamTail(p.1);
        ParamList1Step(r1, p.0, p.1, more.0, more.1);
        Assoc3(",", Join(ParamDecls([p.0] + more.0), ","), more.1);
        ([p.0] + more.0, more.1)
  }

  /** Regrouping the pieces of a function definition as `PrintFunction` joins them. */
  lemma FunctionText(name: string, params: string, output: string, rest: string)
    ensures "fn" + (name + ("(" + (params + (")" + ("->" + (output + (";" + rest)))))))
         == "fn" + name + "(" + params + ")" + "->" + output + ";" + rest
  {
  }

  /** `parse_function`: `fn` name `(` parameters `)` `->` type `;`. */
  function FunctionDef(s: string): (r: Parsed<Function>)
    ensures r.Some? ==> s == PrintFunction(r.value.0) + r.value.1
    ensures r.Some? ==> |r.value.1| < |s|
    ensures r.Some? ==> WfFunction(r.value.0)
  {
    var r1 :- Literal(s, "fn");
    var name :- VarName(r1);
    var r2 :- Literal(name.1, "(");
    var params := ParamList0(r2);
    var r3 :- Literal(params.1, ")");
    var r4 :- Literal(r3, "->");
    var output :- TypeName(r4);
    var r5 :- Literal(output.1, ";");
    FunctionText(name.0, Join(ParamDecls(params.0), ","), output.0, r5);
    Some((Function(name.0, params.0, output.0), r5))
  }

  lemma PrintFunctionsCons(f: Function, fs: seq<Function>)
    ensures Join(PrintFunctions([f] + fs), "") == PrintFunction(f) + Join(PrintFunctions(fs), "")
  {
    assert PrintFunctions([f] + fs) == [PrintFunction(f)] + PrintFunctions(fs);
    JoinConsNoSep(PrintFunction(f), PrintFunctions(fs));
  }

  /** The repetition of `many1(parse_function)` after its first element. */
  function FunctionsMany0(s: string): (r: (seq<Function>, string))
    ensures s == Join(PrintFunctions(r.0), "") + r.1
    ensures WfFunctions(r.0)
    decreases |s|
  {
    match FunctionDef(s)
    case None => ([], s)
    case Some(f) =>
      var more := FunctionsMany0(f.1);
      PrintFunctionsCons(f.0, more.0);
      WfFunctionsCons(f.0, more.0);
      Assoc3(PrintFunction(f.0), Join(PrintFunctions(more.0), ""), more.1);
      ([f.0] + more.0, more.1)
  }

  /** `many1(parse_function)`. */
  function FunctionsMany1(s: string): (r: Parsed<seq<Function>>)
    ensures r.Some? ==> |r.value.0| > 0 && s == Join(PrintFunctions(r.value.0), "") + r.value.1
    ensures r.Some? ==> WfFunctions(r.value.0)
  {
    var first :- FunctionDef(s);
    var more := FunctionsMany0(first.1);
    PrintFunctionsCons(first.0, more.0);
    WfFunctionsCons(first.0, more.0);
    Assoc3(PrintFunction(first.0), Join(PrintFunctions(more.0), ""), more.1);
    Some(([first.0] + more.0, more.1))
  }

  /** `parse_functions`: `{` one or more functions `}`. */
  function FunctionBlock(s: string): (r: Parsed<seq<Function>>)
    ensures r.Some? ==> |r.value.0| > 0
    ensures r.Some? ==> WfFunctions(r.value.0)
    ensures r.Some? ==> s == "{" + Join(PrintFunctions(r.value.0), "") + "}" + r.value.1
  {
    var r1 :- Literal(s, "{");
    var fs :- FunctionsMany1(r1);
    var r2 :- Literal(fs.1, "}");
    Assoc3(Join(PrintFunctions(fs.0), ""), "}", r2);
    Assoc4("{", Join(PrintFunctions(fs.0), ""), "}", r2);
    Some((fs.0, r2))
  }

  /** Regrouping the pieces of a service block as `PrintService` joins them. */
  lemma ServiceText(name: string, functions: string, rest: string)
    ensures "service" + (name + ("{" + functions + "}" + rest))
         == "service" + name + "{" + functions + "}" + rest
  {
  }

  /** `parse_service`: `service`, a name read with the type-name parser, then
      the function block. */
  function ServiceDef(s: string): (r: Parsed<Service>)
    ensures r.Some? ==> WfService(r.value.0)
    ensures r.Some? ==> s == PrintService(r.value.0) + r.value.1
    ensures r.Some? ==> |r.value.1| < |s|
  {
    var r1 :- Literal(s, "service");
    var name :- TypeName(r1);
    var fs :- FunctionBlock(name.1);
    ServiceText(name.0, Join(PrintFunctions(fs.0), ""), fs.1);
    Some((Service(name.0, fs.0), fs.1))
  }

  lemma PrintServicesCons(svc: Service, svcs: seq<Service>)
    ensures PrintFile([svc] + svcs) == PrintService(svc) + PrintFile(svcs)
  {
    assert PrintServices([svc] + svcs) == [PrintService(svc)] + PrintServices(svcs);
    JoinConsNoSep(PrintService(svc), PrintServices(svcs));
  }

  /** The repetition of `many1(parse_service)` after its first element. */
  function ServicesMany0(s: string): (r: (seq<Service>, string))
    ensures s == PrintFile(r.0) + r.1
    ensures WfServices(r.0)
    decreases |s|
  {
    match ServiceDef(s)
    case None => ([], s)
    case Some(svc) =>
      var more := ServicesMany0(svc.1);
      PrintServicesCons(svc.0, more.0);
      WfServicesCons(svc.0, more.0);
      Assoc3(PrintService(svc.0), PrintFile(more.0), more.1);
      ([svc.0] + more.0, more.1)
  }

  function ServicesMany1(s: string): (r: Parsed<seq<Service>>)
    ensures r.Some? ==> |r.value.0| > 0 && s == PrintFile(r.value.0) + r.value.1
    ensures r.Some? ==> WfServices(r.value.0)
  {
    var first :- ServiceDef(s);
    var more := ServicesMany0(first.1);
    PrintServicesCons(first.0, more.0);
    WfServicesCons(first.0, more.0);
    Assoc3(PrintService(first.0), PrintFile(more.0), more.1);
    Some(([first.0] + more.0, more.1))
  }

  /** `parse`: `all_consuming(many1(parse_service))`. It succeeds only when
      one or more services cover the whole input, and then the input is
      exactly the canonical text of the services it returns. */
  function Parse(s: string): (r: Option<seq<Service>>)
    ensures r.Some? ==> WfFile(r.value) && s == PrintFile(r.value)
  {
    var svcs :- ServicesMany1(s);
    if svcs.1 == "" then Some(svcs.0) else None
  }
}
