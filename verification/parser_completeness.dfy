/** The converse of the parser's round-trip contracts: the parser reads back
    the canonical text of every well-formed construct, stopping exactly where
    that text ends. Together with `Parser.Parse`'s own contract this makes
    `Parse` and `Grammar.PrintFile` inverse to each other on well-formed
    service lists. */
module ParserCompleteness {
  import opened Outcomes
  import opened Text
  import opened Descriptor
  import opened Grammar
  import opened Parser

  /** A character that cannot continue a type name: the parser's alternatives
      all stop in front of it. */
  predicate EndsTypeName(rest: string)
  {
    |rest| == 0 || (!IsTypeIdentChar(rest[0]) && rest[0] != '<')
  }

  /** A character that ends a comma-separated list. */
  predicate EndsList(rest: string)
  {
    EndsTypeName(rest) && (|rest| == 0 || rest[0] != ',')
  }

  /** `is_a` reads exactly a maximal run. */
  lemma {:induction false} IsAExact(run: string, rest: string, p: char -> bool)
    requires |run| > 0 && forall i :: 0 <= i < |run| ==> p(run[i])
    requires |rest| == 0 || !p(rest[0])
    ensures IsA(run + rest, p) == Some((run, rest))
  {
    var s := run + rest;
    var n := Span(s, p);
    assert forall i :: 0 <= i < |run| ==> s[i] == run[i];
    assert |rest| == 0 || !p(s[|run|]);
    assert n == |run|;
    assert s[..n] == run;
    assert s[n..] == rest;
  }

  /** A string that starts with a character no type name starts with is not
      a type name. */
  lemma TypeNameRejects(s: string)
    requires |s| == 0 || (s[0] != '[' && s[0] != '(' && !IsTypeIdentChar(s[0]))
    ensures TypeName(s).None?
  {
    LiteralMismatch(s, '[');
    LiteralMismatch(s, '(');
  }

  /** An array needs at least one element: `[]` is not a type name, whatever
      follows it. */
  lemma EmptyArrayRejected(rest: string)
    ensures TypeName("[]" + rest).None?
  {
    var s := "[]" + rest;
    assert s == "[" + ("]" + rest);
    TypeNameRejects("]" + rest);
    assert ArrayType(s).None?;
    LiteralMismatch(s, '(');
  }

  /** A composite needs at least one argument: on `Id<>` the composite
      alternative fails and the bare identifier is read instead, leaving
      `<>` unread. */
  lemma EmptyArgumentsFallBack(id: string, rest: string)
    requires IsTypeIdent(id)
    ensures TypeName(id + "<>" + rest) == Some((id, "<>" + rest))
  {
    var s := id + "<>" + rest;
    assert s == id + ("<>" + rest);
    assert s[0] == id[0];
    LiteralMismatch(s, '[');
    LiteralMismatch(s, '(');
    IsAExact(id, "<>" + rest, IsTypeIdentChar);
    assert "<>" + rest == "<" + (">" + rest);
    TypeNameRejects(">" + rest);
    assert CompositeType(s).None?;
  }

  /** A literal that the input does not start with fails. */
  lemma LiteralMismatch(s: string, c: char)
    requires |s| == 0 || s[0] != c
    ensures Literal(s, [c]).None?
  {
  }

  lemma RenderStart(t: TypeTree)
    requires WfType(t)
    ensures |Render(t)| > 0
    ensures t.Named? || t.Generic? ==> IsTypeIdentChar(Render(t)[0])
    ensures t.ArrayOf? ==> Render(t)[0] == '['
    ensures t.TupleOf? ==> Render(t)[0] == '('
  {
  }

  /** `parse_typename2` reads back the canonical text of every well-formed
      type, whatever stop character follows. */
  lemma {:induction false} TypeNameReads(t: TypeTree, rest: string)
    requires WfType(t)
    requires EndsTypeName(rest)
    ensures TypeName(Render(t) + rest) == Some((Render(t), rest))
    decreases t, 1
  {
    var s := Render(t) + rest;
    RenderStart(t);
    assert s[0] == Render(t)[0];
    match t
    case Named(id) =>
      LiteralMismatch(s, '[');
      LiteralMismatch(s, '(');
      IsAExact(id, rest, IsTypeIdentChar);
      LiteralMismatch(rest, '<');
    case ArrayOf(es) =>
      var j := Join(RenderAll(es), ",");
      Assoc3("[" + j, "]", rest);
      Assoc3("[", j, "]" + rest);
      assert Literal(s, "[") == Some(j + ("]" + rest));
      TypeNameList1Reads(es, "]" + rest);
    case TupleOf(es) =>
      var j := Join(RenderAll(es), ",");
      LiteralMismatch(s, '[');
      Assoc3("(" + j, ")", rest);
      Assoc3("(", j, ")" + rest);
      assert Literal(s, "(") == Some(j + (")" + rest));
      if |es| == 0 {
        TypeNameRejects(")" + rest);
        assert TypeNameList1(")" + rest).None?;
        assert j + (")" + rest) == ")" + rest;
      } else {
        TypeNameList1Reads(es, ")" + rest);
        assert TypeNameList0(j + (")" + rest)) == (RenderAll(es), ")" + rest);
      }
      assert Literal(")" + rest, ")") == Some(rest);
      assert ArrayType(s).None?;
      assert TupleType(s) == Some((Render(t), rest));
    case Generic(id, args) =>
      var j := Join(RenderAll(args), ",");
      LiteralMismatch(s, '[');
      LiteralMismatch(s, '(');
      Assoc4(id, "<", j, ">" + rest);
      assert s == id + ("<" + j + (">" + rest));
      IsAExact(id, "<" + j + (">" + rest), IsTypeIdentChar);
      Assoc3("<", j, ">" + rest);
      assert Literal("<" + j + (">" + rest), "<") == Some(j + (">" + rest));
      TypeNameList1Reads(args, ">" + rest);
  }

  /** The text of the list elements after the first, each preceded by `,`. */
  function TailText(ts: seq<TypeTree>): string
  {
    if |ts| == 0 then "" else "," + Join(RenderAll(ts), ",")
  }

  lemma RenderAllCons(ts: seq<TypeTree>)
    requires |ts| > 0
    ensures RenderAll(ts) == [Render(ts[0])] + RenderAll(ts[1..])
  {
  }

  /** `separated_list1(tag(","), parse_typename2)` reads back a joined list. */
  lemma {:induction false} TypeNameList1Reads(ts: seq<TypeTree>, rest: string)
    requires |ts| > 0 && forall i :: 0 <= i < |ts| ==> WfType(ts[i])
    requires EndsList(rest)
    ensures TypeNameList1(Join(RenderAll(ts), ",") + rest) == Some((RenderAll(ts), rest))
    decreases ts, 0
  {
    RenderAllCons(ts);
    var head := Render(ts[0]);
    var tail := TailText(ts[1..]);
    JoinCons(head, RenderAll(ts[1..]), ",");
    assert Join(RenderAll(ts), ",") == head + tail;
    Assoc3(head, tail, rest);
    if |ts| > 1 {
      Assoc3(",", Join(RenderAll(ts[1..]), ","), rest);
      TypeNameReads(ts[0], tail + rest);
    } else {
      TypeNameReads(ts[0], rest);
    }
    TypeNameTailReads(ts[1..], rest);
  }

  /** The repetition after the first list element reads back every further
      `,`-prefixed element and stops in front of the list's end. */
  lemma {:induction false} TypeNameTailReads(ts: seq<TypeTree>, rest: string)
    requires forall i :: 0 <= i < |ts| ==> WfType(ts[i])
    requires EndsList(rest)
    ensures TypeNameTail(TailText(ts) + rest) == (RenderAll(ts), rest)
    decreases ts, 1
  {
    if |ts| == 0 {
      assert TailText(ts) + rest == rest;
      LiteralMismatch(rest, ',');
    } else {
      var s := TailText(ts) + rest;
      var j := Join(RenderAll(ts), ",");
      Assoc3(",", j, rest);
      assert Literal(s, ",") == Some(j + rest);
      TypeNameList1Reads(ts, rest);
      RenderAllCons(ts);
      var head := Render(ts[0]);
      var tail := TailText(ts[1..]);
      JoinCons(head, RenderAll(ts[1..]), ",");
      Assoc3(head, tail, rest);
      if |ts| > 1 {
        Assoc3(",", Join(RenderAll(ts[1..]), ","), rest);
        TypeNameReads(ts[0], tail + rest);
      } else {
        TypeNameReads(ts[0], rest);
      }
      TypeNameTailReads(ts[1..], rest);
    }
  }

  /** A type text from the grammar is read back like its tree. */
  lemma TypeTextReads(text: string, rest: string)
    requires IsTypeText(text)
    requires EndsTypeName(rest)
    ensures TypeName(text + rest) == Some((text, rest))
  {
    var t :| WfType(t) && Render(t) == text;
    TypeNameReads(t, rest);
  }

  /** `parse_param` reads back `var:type`. */
  lemma ParamReads(p: Parameter, rest: string)
    requires WfParameter(p)
    requires EndsTypeName(rest)
    ensures Param(Decl(p) + rest) == Some((p, rest))
  {
    var s := Decl(p) + rest;
    Assoc4(p.varName, ":", p.typName, rest);
    IsAExact(p.varName, ":" + p.typName + rest, IsVarChar);
    Assoc3(":", p.typName, rest);
    assert Literal(":" + p.typName + rest, ":") == Some(p.typName + rest);
    TypeTextReads(p.typName, rest);
  }

  function ParamTailText(ps: seq<Parameter>): string
  {
    if |ps| == 0 then "" else "," + Join(ParamDecls(ps), ",")
  }

  lemma ParamDeclsSplit(ps: seq<Parameter>)
    requires |ps| > 0
    ensures Join(ParamDecls(ps), ",") == Decl(ps[0]) + ParamTailText(ps[1..])
  {
    assert ParamDecls(ps) == [Decl(ps[0])] + ParamDecls(ps[1..]);
    JoinCons(Decl(ps[0]), ParamDecls(ps[1..]), ",");
  }

  /** `separated_list1(tag(","), parse_param)` reads back a parameter list. */
  lemma {:induction false} ParamList1Reads(ps: seq<Parameter>, rest: string)
    requires |ps| > 0 && WfParameters(ps)
    requires EndsList(rest)
    ensures ParamList1(Join(ParamDecls(ps), ",") + rest) == Some((ps, rest))
    decreases |ps|, 0
  {
    ParamDeclsSplit(ps);
    var tail := ParamTailText(ps[1..]);
    var s := Join(ParamDecls(ps), ",") + rest;
    assert s == Decl(ps[0]) + (tail + rest) by {
      Assoc3(Decl(ps[0]), tail, rest);
    }
    assert EndsTypeName(tail + rest) by {
      if |ps| > 1 {
        assert tail + rest == "," + (Join(ParamDecls(ps[1..]), ",") + rest) by {
          Assoc3(",", Join(ParamDecls(ps[1..]), ","), rest);
        }
      } else {
        assert tail + rest == rest;
      }
    }
    ParamReads(ps[0], tail + rest);
    ParamTailReads(ps[1..], rest);
    ParamList1Unfold(s, ps[0], tail + rest);
    assert [ps[0]] + ps[1..] == ps;
  }

  /** After the first parameter, `ParamList1` continues with the tail repetition. */
  lemma ParamList1Unfold(s: string, p: Parameter, r1: string)
    requires Param(s) == Some((p, r1))
    ensures ParamList1(s) == Some(([p] + ParamTail(r1).0, ParamTail(r1).1))
  {
  }

  lemma {:induction false} ParamTailReads(ps: seq<Parameter>, rest: string)
    requires WfParameters(ps)
    requires EndsList(rest)
    ensures ParamTail(ParamTailText(ps) + rest) == (ps, rest)
    decreases |ps|, 1
  {
    if |ps| == 0 {
      assert ParamTailText(ps) + rest == rest;
      LiteralMismatch(rest, ',');
    } else {
      var s := ParamTailText(ps) + rest;
      var j := Join(ParamDecls(ps), ",");
      Assoc3(",", j, rest);
      assert Literal(s, ",") == Some(j + rest);
      ParamList1Reads(ps, rest);
      ParamTailUnfold(s, j + rest);
    }
  }

  /** After a `,`, the tail repetition does what `ParamList1` does. */
  lemma ParamTailUnfold(s: string, r1: string)
    requires Literal(s, ",") == Some(r1)
    requires ParamList1(r1).Some?
    ensures ParamTail(s) == ParamList1(r1).value
  {
  }

  /** `separated_list0(tag(","), parse_param)` reads back a possibly empty list. */
  lemma ParamList0Reads(ps: seq<Parameter>, rest: string)
    requires WfParameters(ps)
    requires |rest| > 0 && rest[0] == ')'
    ensures ParamList0(Join(ParamDecls(ps), ",") + rest) == (ps, rest)
  {
    if |ps| == 0 {
      assert Join(ParamDecls(ps), ",") + rest == rest;
      assert VarName(rest).None?;
    } else {
      ParamList1Reads(ps, rest);
    }
  }

  /** `parse_function` reads back a function definition, whatever follows it. */
  lemma FunctionDefReads(f: Function, rest: string)
    requires WfFunction(f)
    ensures FunctionDef(PrintFunction(f) + rest) == Some((f, rest))
  {
    var j := Join(ParamDecls(f.inputs), ",");
    var s := PrintFunction(f) + rest;
    FunctionText(f.name, j, f.output, rest);
    var r5 := ";" + rest;
    var r4 := f.output + r5;
    var r3 := "->" + r4;
    var r2 := ")" + r3;
    var r1 := "(" + (j + r2);
    assert s == "fn" + (f.name + r1);
    assert Literal(s, "fn") == Some(f.name + r1);
    IsAExact(f.name, r1, IsVarChar);
    assert VarName(f.name + r1) == Some((f.name, r1));
    assert Literal(r1, "(") == Some(j + r2);
    ParamList0Reads(f.inputs, r2);
    assert Literal(r2, ")") == Some(r3);
    assert Literal(r3, "->") == Some(r4);
    TypeTextReads(f.output, r5);
    assert Literal(r5, ";") == Some(rest);
  }

  lemma {:induction false} FunctionsMany0Reads(fs: seq<Function>, rest: string)
    requires WfFunctions(fs)
    requires |rest| > 0 && rest[0] == '}'
    ensures FunctionsMany0(Join(PrintFunctions(fs), "") + rest) == (fs, rest)
    decreases |fs|
  {
    if |fs| == 0 {
      assert Join(PrintFunctions(fs), "") + rest == rest;
      assert Literal(rest, "fn").None?;
    } else {
      assert fs == [fs[0]] + fs[1..];
      PrintFunctionsCons(fs[0], fs[1..]);
      Assoc3(PrintFunction(fs[0]), Join(PrintFunctions(fs[1..]), ""), rest);
      FunctionDefReads(fs[0], Join(PrintFunctions(fs[1..]), "") + rest);
      FunctionsMany0Reads(fs[1..], rest);
    }
  }

  /** `many1` is its repetition once the first element parses. */
  lemma FunctionsMany1Unfold(s: string)
    requires FunctionDef(s).Some?
    ensures FunctionsMany1(s) == Some(FunctionsMany0(s))
  {
  }

  /** `parse_functions` reads back a `{...}` block of one or more functions. */
  lemma FunctionBlockReads(fs: seq<Function>, rest: string)
    requires |fs| > 0 && WfFunctions(fs)
    ensures FunctionBlock("{" + Join(PrintFunctions(fs), "") + "}" + rest) == Some((fs, rest))
  {
    var j := Join(PrintFunctions(fs), "");
    var r1 := j + ("}" + rest);
    Assoc4("{", j, "}", rest);
    assert Literal("{" + j + "}" + rest, "{") == Some(r1);
    assert fs == [fs[0]] + fs[1..];
    PrintFunctionsCons(fs[0], fs[1..]);
    Assoc3(PrintFunction(fs[0]), Join(PrintFunctions(fs[1..]), ""), "}" + rest);
    FunctionDefReads(fs[0], Join(PrintFunctions(fs[1..]), "") + ("}" + rest));
    FunctionsMany1Unfold(r1);
    FunctionsMany0Reads(fs, "}" + rest);
    assert FunctionsMany1(r1) == Some((fs, "}" + rest));
    assert Literal("}" + rest, "}") == Some(rest);
  }

  /** `parse_service` reads back a service block, whatever follows it. */
  lemma ServiceDefReads(svc: Service, rest: string)
    requires WfService(svc)
    ensures ServiceDef(PrintService(svc) + rest) == Some((svc, rest))
  {
    var j := Join(PrintFunctions(svc.functions), "");
    ServiceText(svc.name, j, rest);
    TypeTextReads(svc.name, "{" + j + "}" + rest);
    FunctionBlockReads(svc.functions, rest);
  }

  lemma {:induction false} ServicesMany0Reads(svcs: seq<Service>)
    requires WfServices(svcs)
    ensures ServicesMany0(PrintFile(svcs)) == (svcs, "")
    decreases |svcs|
  {
    if |svcs| == 0 {
      assert PrintFile(svcs) == "";
      assert Literal("", "service").None?;
    } else {
      assert svcs == [svcs[0]] + svcs[1..];
      PrintServicesCons(svcs[0], svcs[1..]);
      ServiceDefReads(svcs[0], PrintFile(svcs[1..]));
      ServicesMany0Reads(svcs[1..]);
    }
  }

  /** `parse` reads back the canonical text of every well-formed service list. */
  lemma ParseReads(svcs: seq<Service>)
    requires WfFile(svcs)
    ensures Parse(PrintFile(svcs)) == Some(svcs)
  {
    assert svcs == [svcs[0]] + svcs[1..];
    PrintServicesCons(svcs[0], svcs[1..]);
    ServiceDefReads(svcs[0], PrintFile(svcs[1..]));
    ServicesMany0Reads(svcs[1..]);
  }

  /** `parse` accepts exactly the canonical texts of well-formed service
      lists, and returns the list whose text it read. */
  lemma ParseCharacterised(s: string, svcs: seq<Service>)
    ensures Parse(s) == Some(svcs) <==> WfFile(svcs) && s == PrintFile(svcs)
  {
    if WfFile(svcs) && s == PrintFile(svcs) {
      ParseReads(svcs);
    }
  }
}
