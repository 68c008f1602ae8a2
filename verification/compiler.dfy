/** `compile`: remove every whitespace character from a description file,
    parse what is left, and generate the code of the services it declares.
    A parse failure makes the Rust function panic at `unwrap`; here it is
    `None`, with no partial output. */
module Compiler {
  import opened Outcomes
  import opened Text
  import opened Descriptor
  import opened Grammar
  import opened Parser
  import opened CompilerGenerator
  import ParserCompleteness

  function Compile(s: string): (r: Option<string>)
    ensures r.None? <==> Parse(StripWhitespace(s)).None?
  {
    match Parse(StripWhitespace(s))
    case None => None
    case Some(svcs) => Some(Generate(svcs))
  }

  /** When compilation succeeds, the stripped input is the canonical text of
      the services it was parsed into, and the output is their code. */
  lemma CompileOutput(s: string)
    ensures Compile(s).Some? ==>
      var svcs := Parse(StripWhitespace(s)).value;
      WfFile(svcs) && StripWhitespace(s) == PrintFile(svcs) && Compile(s) == Some(Generate(svcs))
  {
    var t := StripWhitespace(s);
    var parsed := Parse(t);
    if parsed.Some? {
      assert t == PrintFile(parsed.value);
    }
  }

  /** Compilation succeeds exactly on the inputs that, once whitespace is
      removed, are the canonical text of some well-formed description. */
  lemma CompileAccepts(s: string)
    ensures Compile(s).Some? <==> exists svcs :: WfFile(svcs) && StripWhitespace(s) == PrintFile(svcs)
  {
    var t := StripWhitespace(s);
    if svcs :| WfFile(svcs) && t == PrintFile(svcs) {
      ParserCompleteness.ParseReads(svcs);
    }
  }

  /** Inserting a run of whitespace anywhere in the input never changes the
      outcome, whether it is code or a failure. */
  lemma CompileIgnoresWhitespace(a: string, w: string, b: string)
    requires AllWhitespace(w)
    ensures Compile(a + w + b) == Compile(a + b)
  {
    StripIgnoresInsertedWhitespace(a, w, b);
  }

  /** Compiling the stripped input is compiling the input. */
  lemma CompileStripped(s: string)
    ensures Compile(StripWhitespace(s)) == Compile(s)
  {
    StripIdempotent(s);
  }

  /** Every well-formed description, laid out with any whitespace at all
      between (and inside) its tokens, compiles to the code of exactly the
      services it declares. */
  lemma CompileLaidOutFile(svcs: seq<Service>, s: string)
    requires WfFile(svcs)
    requires StripWhitespace(s) == PrintFile(svcs)
    ensures Compile(s) == Some(Generate(svcs))
  {
    ParserCompleteness.ParseReads(svcs);
  }

  /** In particular the canonical text of a well-formed description compiles
      to its code. */
  lemma CompilePrinted(svcs: seq<Service>)
    requires WfFile(svcs)
    ensures Compile(PrintFile(svcs)) == Some(Generate(svcs))
  {
    PrintFileNoWhitespace(svcs);
    CompileLaidOutFile(svcs, PrintFile(svcs));
  }
}
