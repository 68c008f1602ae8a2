# norpc service compiler and code generators, in Dafny

norpc generates RPC plumbing from a service description. This project models
the part of norpc that runs at build time and that is pure text processing:

- **The description-file compiler** (`norpc/src/compiler`). `compile` removes
  every whitespace character from a `.norpc` file and parses what is left.
  The grammar is `service Name { fn name(var:Type, ...) -> Type; ... }`, and
  type names are arrays, tuples, generic composites or identifiers. The parse
  gives `Service`/`Function`/`Parameter` descriptors. Each service becomes
  seven code fragments: request enum, response enum, trait, client struct,
  client impl, server struct, server impl.
- **The attribute macro** `#[norpc::service]` (`norpc-macros`). It reads an
  optional `?Send` argument and turns the annotated trait into the same
  descriptors. It also unwraps `Stream<T>` types into streaming flags, then
  generates the same seven fragments in their `Send` or `?Send` form.
- **The older `norpc-codegen` macro front end**. It performs the same
  trait-to-descriptor mapping without streaming.

The modules follow the program:

| module | models |
|---|---|
| `Outcomes` | `Option`/`Result`, where a Rust panic (`unwrap`, `unreachable!`) is an error value |
| `Text` | joining with a separator, whitespace removal, containment of one text in another |
| `Descriptor` | `Service`, `Function`, `Parameter` |
| `Grammar` | the description language stated apart from the parser: character classes, a type tree, the canonical text of every construct |
| `Parser` | the nom combinators of `parser.rs`, one function per combinator, returning `Option<(value, rest)>` |
| `ParserCompleteness` | the parser reads back the canonical text of every well-formed construct |
| `Compiler` | `compile` |
| `VariantText`, `CompilerGenerator` | the compiler's generator |
| `TraitSyntax` | the parts of a `syn` trait the front ends look at, with every type as its printed text |
| `MacroDescriptor`, `MacroGenerator`, `MacroFrontEnd` | the attribute macro |
| `CodegenFrontEnd` | `norpc-codegen`'s `parse_service`/`parse_func` |

Generated code is modelled as a string. The Rust templates are multi-line
`format!` strings. In the model each run of layout whitespace in a template
is one space, and every character the generated Rust depends on is kept. In
the macro's client method the request enum is written with a bare `{}` and no
positional argument. Rust then takes the first named argument, `svc_name`, and
the model does the same.

Where the code and its surrounding documentation disagree, the model follows
the code:

- `parser.rs` documents `Def = "fn" FunName ( Parameter+ ) -> Type ;`. The
  code uses `separated_list0`, so a function may take no parameters.
  `Parser.ParamList0` and `ParserCompleteness.FunctionDefReads` allow it.
- The compiler's trait methods return `Result<output, Self::Error>`. Only the
  macro's trait returns the declared type as is.
- Only the macro's client method waits for `poll_ready` before sending. The
  compiler's client calls `self.svc.clone().call(...)` directly.

## Model

| member | source | states |
|---|---|---|
| Parser.TypeIdent | norpc/src/compiler/parser.rs:27-30 | fails exactly when the input does not start with `[A-Za-z0-9_]`; otherwise reads the maximal such run, and the result plus the rest is the input |
| Parser.Literal | norpc/src/compiler/parser.rs:119-122 | `tag`: succeeds exactly when the input starts with the literal, and then returns what follows it |
| Parser.IsA | norpc/src/compiler/parser.rs:28 | `is_a`: fails exactly on an empty input or one whose first character is outside the set; otherwise reads a non-empty run of characters in the set that cannot be extended, and the run plus the rest is the input |
| Parser.VarName | norpc/src/compiler/parser.rs:93-96 | fails exactly when the input does not start with `[a-z0-9_]`, so a name starting with an upper-case letter is rejected; otherwise reads the maximal run |
| Parser.TypeName | norpc/src/compiler/parser.rs:31-73 | a type name that is read is the canonical text of a well-formed type tree (an identifier, a non-empty array, a tuple, or a composite with arguments), and is exactly the consumed prefix: the returned text followed by the rest is the input |
| Parser.ArrayType | norpc/src/compiler/parser.rs:32-43 | `[` elements `]` is read back as exactly the consumed text, with elements joined by `,`, and that text is a well-formed array type |
| Parser.TupleType | norpc/src/compiler/parser.rs:44-55 | `(` elements `)` is read back as exactly the consumed text, and that text is a well-formed tuple type |
| Parser.CompositeType | norpc/src/compiler/parser.rs:56-71 | `Id<` elements `>` is read back as exactly the consumed text, and that text is a well-formed composite type |
| Parser.TypeNameList1 | norpc/src/compiler/parser.rs:34 | at least one type name, each well-formed; the names joined by `,`, then the rest, give the input |
| Parser.TypeNameList0 | norpc/src/compiler/parser.rs:46 | `separated_list0` in the tuple alternative: never fails; reads zero or more well-formed type names, and those names joined by `,`, then the rest, give the input |
| Parser.TypeNameTail | norpc/src/compiler/parser.rs:34 | the repeated `,` element part of `separated_list1`: reads nothing and leaves the input, or reads well-formed names such that `,`, the names joined by `,`, and the rest give the input |
| Parser.Param | norpc/src/compiler/parser.rs:103-111 | a parameter read is well-formed (a variable name and a well-formed type), and `var:type` followed by the rest is the input |
| Parser.ParamList0 | norpc/src/compiler/parser.rs:120 | never fails; the parameters read are well-formed, and joined by `,`, then the rest, give the input |
| Parser.ParamList1 | norpc/src/compiler/parser.rs:120 | the non-empty case of the parameter list: at least one well-formed parameter, and their `var:type` texts joined by `,`, then the rest, give the input |
| Parser.ParamTail | norpc/src/compiler/parser.rs:120 | the repeated `,` parameter part: reads nothing and leaves the input, or reads well-formed parameters such that `,`, their texts joined by `,`, and the rest give the input |
| Parser.FunctionDef | norpc/src/compiler/parser.rs:118-129 | a definition that is read is a well-formed function and is exactly `fn name(params)->type;` as printed, followed by the rest |
| Parser.FunctionBlock | norpc/src/compiler/parser.rs:138-143 | a block holds at least one function, all well-formed, and is exactly `{`, their printed text, `}` |
| Parser.FunctionsMany0 | norpc/src/compiler/parser.rs:140 | the repetition inside `many1`: never fails; the functions read are well-formed, and their printed texts, then the rest, give the input |
| Parser.FunctionsMany1 | norpc/src/compiler/parser.rs:140 | `many1(parse_function)`: success means at least one well-formed function, whose printed texts, then the rest, give the input |
| Parser.ServiceDef | norpc/src/compiler/parser.rs:152-159 | a service read is well-formed (a type name and at least one well-formed function) and is exactly its printed text followed by the rest |
| Parser.ServicesMany0 | norpc/src/compiler/parser.rs:168 | the repetition inside `many1`: never fails; the services read are well-formed, and their printed file, then the rest, gives the input |
| Parser.ServicesMany1 | norpc/src/compiler/parser.rs:168 | `many1(parse_service)`: success means at least one well-formed service, whose printed file, then the rest, gives the input |
| Parser.Parse | norpc/src/compiler/parser.rs:167-169 | success means a well-formed, non-empty list of services, and the whole input is their printed text |
| ParserCompleteness.TypeNameReads | norpc/src/compiler/parser.rs:31-73 | every well-formed type's text is read back whole, ending where the type ends; arrays, tuples, composites and identifiers are each reached through the fixed order of alternatives |
| ParserCompleteness.EmptyArrayRejected | norpc/src/compiler/parser.rs:32-36 | `[]` is not a type name: arrays need an element |
| ParserCompleteness.EmptyArgumentsFallBack | norpc/src/compiler/parser.rs:56-72 | on `Id<>` the composite fails and the bare identifier `Id` is read, leaving `<>` |
| ParserCompleteness.ParamReads | norpc/src/compiler/parser.rs:103-111 | `var:type` of a well-formed parameter is read back as that parameter |
| ParserCompleteness.ParamList0Reads | norpc/src/compiler/parser.rs:120 | any list of well-formed parameters, including none, is read back up to the closing `)` |
| ParserCompleteness.FunctionDefReads | norpc/src/compiler/parser.rs:118-129 | the printed text of a well-formed function is read back as that function, whatever follows |
| ParserCompleteness.FunctionBlockReads | norpc/src/compiler/parser.rs:138-143 | a non-empty block of well-formed functions is read back whole |
| ParserCompleteness.ServiceDefReads | norpc/src/compiler/parser.rs:152-159 | the printed text of a well-formed service is read back as that service |
| ParserCompleteness.ParseReads | norpc/src/compiler/parser.rs:167-169 | `Parse` inverts printing: the printed text of a well-formed, non-empty service list parses to that list |
| ParserCompleteness.ParseCharacterised | norpc/src/compiler/parser.rs:167-169 | `Parse(s)` gives the list `svcs` exactly when `svcs` is a well-formed description and `s` is its printed text |
| Grammar.PrintFileNoWhitespace | norpc/src/compiler/mod.rs:21-24 | the canonical text of a description holds no whitespace, so it passes the strip in `compile` unchanged |
| Text.StripWhitespace | norpc/src/compiler/mod.rs:21-22 | the result has no whitespace, keeps every other character with its multiplicity, and leaves whitespace-free text unchanged |
| Text.StripAppend | norpc/src/compiler/mod.rs:22 | stripping a concatenation strips each part |
| Text.StripIdempotent | norpc/src/compiler/mod.rs:22 | stripping twice is stripping once |
| Text.StripIgnoresInsertedWhitespace | norpc/src/compiler/mod.rs:21-22 | inserting any run of whitespace anywhere does not change the stripped text |
| Compiler.Compile | norpc/src/compiler/mod.rs:20-27 | compilation fails, with no output at all, exactly when the stripped input does not parse |
| Compiler.CompileOutput | norpc/src/compiler/mod.rs:24-26 | on success the stripped input is the printed text of a well-formed description, and the output is the generated code of exactly its services |
| Compiler.CompileAccepts | norpc/src/compiler/mod.rs:20-27 | compilation succeeds exactly when the input, with whitespace removed, is the printed text of some well-formed description |
| Compiler.CompileIgnoresWhitespace | norpc/src/compiler/mod.rs:21-26 | inserting whitespace anywhere in the input changes neither success nor output |
| Compiler.CompileStripped | norpc/src/compiler/mod.rs:21-22 | compiling the stripped input is compiling the input |
| Compiler.CompileLaidOutFile | norpc/src/compiler/mod.rs:20-27 | a well-formed description laid out with any whitespace compiles to the code of exactly its services |
| Compiler.CompilePrinted | norpc/src/compiler/mod.rs:20-27 | the canonical text of a well-formed description compiles to its code |
| CompilerGenerator.GenerateNone | norpc/src/compiler/generator.rs:169-185 | no services give the empty text |
| CompilerGenerator.GenerateOne | norpc/src/compiler/generator.rs:169-185 | one service gives its seven fragments |
| CompilerGenerator.GenerateAppend | norpc/src/compiler/generator.rs:169-185 | code for a concatenated list is the code of the first list followed by that of the second, so services appear in input order |
| CompilerGenerator.EnvelopesCorrespond | norpc/src/compiler/generator.rs:3-36 | the request and response enums have one variant per function, in order; variant `i` splits into function `i`'s name with its parameter types (request) or its output (response), and appears in its enum |
| CompilerGenerator.MethodParamsShape | norpc/src/compiler/generator.rs:62-66 | a method's parameters are the receiver followed by every `var:type`, one per input |
| CompilerGenerator.TraitDeclaresEachFunction | norpc/src/compiler/generator.rs:59-83 | the trait declares `async fn name(&self,params) -> Result<output, Self::Error>;` for every function |
| CompilerGenerator.ClientMethodExchanges | norpc/src/compiler/generator.rs:99-110 | a client method passes `Request::f(vars)` as the argument of `self.svc.clone().call(…)`, and the match on that call's reply comes after it; the method maps only `Response::f(v)` to `Ok(v)`, and marks any other response unreachable |
| CompilerGenerator.ClientSendsItsRequest | norpc/src/compiler/generator.rs:84-128 | the client impl has one method per function, and method `i` exchanges function `i`'s variants |
| CompilerGenerator.ServerArmDispatches | norpc/src/compiler/generator.rs:138-146 | a server arm starts with the pattern `Request::f(args) =>`, calls `app.f(args).await?` and answers `Ok(Response::f(rep))` |
| CompilerGenerator.ServerAnswersEachRequest | norpc/src/compiler/generator.rs:129-150 | `call` has one arm per function, and arm `i` dispatches function `i` |
| CompilerGenerator.ClientAndServerAgree | norpc/src/compiler/generator.rs:99-146 | the request that client method `i` sends is the very text that server arm `i` matches |
| CompilerGenerator.Request | norpc/src/compiler/generator.rs:3-21 | no contract of its own; `EnvelopesCorrespond` states that it declares `NameRequest` with variant `i` built from function `i`'s name and parameter types |
| CompilerGenerator.Response | norpc/src/compiler/generator.rs:22-36 | no contract of its own; `EnvelopesCorrespond` states that it declares `NameResponse` with variant `i` built from function `i`'s name and output |
| CompilerGenerator.Trait | norpc/src/compiler/generator.rs:59-83 | no contract of its own; `TraitDeclaresEachFunction` and `MethodParamsShape` state what it declares |
| CompilerGenerator.ClientStruct | norpc/src/compiler/generator.rs:37-47 | no contract of its own; `ImplsMatchStructs` states that it declares the client type the client impl implements |
| CompilerGenerator.ServerStruct | norpc/src/compiler/generator.rs:48-58 | no contract of its own; `ImplsMatchStructs` states that it declares the struct the server impl implements |
| CompilerGenerator.ImplsMatchStructs | norpc/src/compiler/generator.rs:37-58 | the client struct declares `NameClient<Svc>` and the client impl is for that type; the server struct declares `NameService` and the server impl is for it |
| CompilerGenerator.ClientMethod | norpc/src/compiler/generator.rs:99-110 | no contract of its own; `ClientMethodExchanges` states what it sends and which response it accepts |
| CompilerGenerator.ClientImpl | norpc/src/compiler/generator.rs:84-128 | no contract of its own; `ClientImplHoldsEachMethod`, `ClientSendsItsRequest` and `ImplsMatchStructs` describe it |
| CompilerGenerator.ClientImplHoldsEachMethod | norpc/src/compiler/generator.rs:84-128 | the client impl has one method per function and holds the method of every function |
| CompilerGenerator.ServerArm | norpc/src/compiler/generator.rs:138-146 | no contract of its own; `ServerArmDispatches` states its pattern, call and answer |
| CompilerGenerator.ServerImpl | norpc/src/compiler/generator.rs:129-168 | no contract of its own; `ServerImplHoldsEachArm`, `ServerAnswersEachRequest` and `ImplsMatchStructs` describe it |
| CompilerGenerator.ServerImplHoldsEachArm | norpc/src/compiler/generator.rs:129-168 | `call` has one arm per function and the server impl holds the arm of every function |
| CompilerGenerator.ServiceCode | norpc/src/compiler/generator.rs:172-181 | no contract of its own; `GenerateOne` states that it is the whole output for one service |
| CompilerGenerator.Generate | norpc/src/compiler/generator.rs:169-185 | no contract of its own; `GenerateNone`, `GenerateOne` and `GenerateAppend` state that the output is each service's seven fragments in input order |
| VariantText.SplitVariantOf | norpc/src/compiler/generator.rs:10 | a variant `name(payload)` splits back into its name and payload when the name has no `(` |
| MacroGenerator.TraitSendToggle | norpc-macros/src/generator.rs:76-86 | the `?Send` trait is the ordinary trait with `(?Send)` inserted in one place and nothing else changed |
| MacroGenerator.ServerImplSendToggle | norpc-macros/src/generator.rs:160-190 | the ordinary server adapter is the `?Send` one with `+ Send` inserted in exactly two places, the application bound and the future |
| MacroGenerator.StreamingFlagsIgnored | norpc-macros/src/generator.rs:192-203 | streaming flags do not affect the generated code |
| MacroGenerator.TraitDeclaresEachFunction | norpc-macros/src/generator.rs:63-75 | the trait declares `async fn name(self,params) -> output;` for every function, taking `self` by value and returning the output unwrapped |
| MacroGenerator.ClientMethodExchanges | norpc-macros/src/generator.rs:103-120 | a client method awaits `poll_ready` and discards its result, immediately followed by `self.svc.call(Request::f(vars))` and then the match on its reply; the method maps only `Response::f(v)` to `Ok(v)`, with any other response unreachable |
| MacroGenerator.ServerArmDispatches | norpc-macros/src/generator.rs:145-155 | a server arm starts with `Request::f(args) =>`, calls `app.f(args).await`, and answers `Ok(Response::f(rep))` |
| MacroGenerator.CallDispatchesEachFunction | norpc-macros/src/generator.rs:137-158 | `call` has one arm per function, and holds arm `i` of function `i` |
| MacroGenerator.ServerImplDispatchesEachFunction | norpc-macros/src/generator.rs:136-191 | the server adapter holds the dispatch arm of every function |
| MacroGenerator.ServerImplAlwaysReady | norpc-macros/src/generator.rs:171-176 | the server adapter's `poll_ready` always answers `Ok(())` |
| MacroGenerator.Trait | norpc-macros/src/generator.rs:63-87 | no contract of its own; `TraitDeclaresEachFunction` states what it declares and `TraitSendToggle` how `?Send` changes it |
| MacroGenerator.ClientMethod | norpc-macros/src/generator.rs:103-120 | no contract of its own; `ClientMethodExchanges` states that it waits for readiness, what it sends and which response it accepts |
| MacroGenerator.ClientImpl | norpc-macros/src/generator.rs:88-135 | no contract of its own; `ClientImplHoldsEachMethod` describes it |
| MacroGenerator.ClientImplHoldsEachMethod | norpc-macros/src/generator.rs:88-135 | the client impl is for the client struct's type `NameClient<Svc>`, has one method per function, and holds the method of every function |
| MacroGenerator.ServerArm | norpc-macros/src/generator.rs:145-155 | no contract of its own; `ServerArmDispatches` states its pattern, call and answer |
| MacroGenerator.CallMethod | norpc-macros/src/generator.rs:177-184 | no contract of its own; `CallDispatchesEachFunction` states that it holds one arm per function |
| MacroGenerator.ServerImpl | norpc-macros/src/generator.rs:136-191 | no contract of its own; `ServerImplDispatchesEachFunction`, `ServerImplAlwaysReady` and `ServerImplSendToggle` describe it |
| MacroGenerator.Generate | norpc-macros/src/generator.rs:192-203 | no contract of its own; `StreamingFlagsIgnored` states that it reads the plain descriptor only, and it joins the seven fragments as `CompilerGenerator.ServiceCode` does, with this generator's trait, client impl and server impl |
| MacroFrontEnd.ParseArgs | norpc-macros/src/lib.rs:18-33 | succeeds exactly on no tokens (`local` false) or `?Send` (`local` true); a `?` followed by anything other than `Send` is an error |
| MacroFrontEnd.ParseTypeAsWritten | norpc-macros/src/lib.rs:84-98 | as written, a type that is not one path segment panics, and a non-`Stream` type keeps only its segment's identifier |
| MacroFrontEnd.ParseTypeAsWrittenLosesArguments | norpc-macros/src/lib.rs:84-98 | as written, `Option<String>` becomes `Option` and `()` panics, while the corrected reading keeps both whole |
| MacroFrontEnd.ParseType | norpc-macros/src/lib.rs:84-98 | `Stream<T>` gives `Stream(T)` and a `Stream` without `<...>` is unreachable; every other type is kept whole |
| MacroFrontEnd.ParseTypeReadingsAgreeOnStreams | norpc-macros/src/lib.rs:87-93 | both readings of `parse_type` agree on every `Stream` type |
| MacroFrontEnd.ParseInputs | norpc-macros/src/lib.rs:110-135 | with `parse_type` corrected: fails exactly on a receiver or a bad `Stream`; otherwise gives one parameter per argument, in order, carrying the unwrapped type, and the streaming flag is set exactly when some argument is a `Stream` |
| MacroFrontEnd.ParseOutput | norpc-macros/src/lib.rs:137-151 | with `parse_type` corrected: no return type gives `()` without streaming; otherwise the unwrapped type, streaming exactly when it is a `Stream` |
| MacroFrontEnd.ParseFunc | norpc-macros/src/lib.rs:99-163 | with `parse_type` corrected: a non-method item is unreachable; a method keeps its name, inputs and output, with `client_streaming` exactly when an input is a `Stream` and `server_streaming` exactly when the return type is one |
| Outcomes.MapAll | norpc-macros/src/lib.rs:71-74 | the loop over trait items: one result per item, in order, when every item succeeds, and otherwise the failure of the first item that fails |
| MacroFrontEnd.ParseService | norpc-macros/src/lib.rs:66-79 | the service is named after the trait and has one function per item, in order; it fails exactly when an item does, with the failure of the first such item |
| MacroFrontEnd.Configure | norpc-macros/src/lib.rs:36-42 | `no_send` is the parsed `local` flag, so it is set exactly for `?Send`; the descriptor is the parsed trait |
| MacroFrontEnd.ServiceMacro | norpc-macros/src/lib.rs:35-45 | the macro fails exactly when its arguments or its trait fail to parse |
| CodegenFrontEnd.ParseInputs | norpc-codegen/src/lib.rs:55-74 | fails exactly on a receiver; otherwise each argument becomes `Parameter(pattern, full type text)`, in order |
| CodegenFrontEnd.ParseFunc | norpc-codegen/src/lib.rs:47-92 | succeeds exactly on a method with only typed arguments and a return type, keeping its name and the full output text |
| CodegenFrontEnd.ParseService | norpc-codegen/src/lib.rs:33-46 | the service is named after the trait and has one function per item, in order; it fails exactly when an item does, with the failure of the first such item |
| CodegenFrontEnd.FrontEndsAgree | norpc-codegen/src/lib.rs:47-92 | on a method without streams, the attribute macro (with `parse_type` corrected) reads the same function as the codegen front end and sets neither streaming flag |

## Left out

- The runtime: channels, executors, spawn adapters, cancellation (`norpc/src/runtime`, `norpc/src/no_send.rs`, `norpc/src/lib.rs`). This is concurrency over tokio and async-std, not text processing.
- `norpc/src/build.rs`: file and environment-variable I/O around `compile`.
- The `dbg!` calls in `compile` (norpc/src/compiler/mod.rs:23, 25): debug output only.
- `syn`/`quote` tokenisation. A trait is given as the `TraitSyntax` datatype and every type as its printed text. `syn::parse::<ItemTrait>(item).unwrap()` and the final `TokenStream::from_str(&code).unwrap()` are outside the model.
- Layout whitespace inside the templates: a run of it is one space, and Rust token spacing is not modelled.
- Whether the generated text type-checks as Rust.
- norpc-codegen/src/generator.rs is not part of this model. Only its front end, `parse_service` and `parse_func`, is.
- MacroFrontEnd.ParseInputs: models `parse_inputs` with `parse_type` corrected. As written, an argument whose type is not one path segment (`()`, `&str`, `a::B`) panics at the `unwrap` in norpc-macros/src/lib.rs:86, and a non-`Stream` type such as `Option<String>` keeps only its identifier, `Option`.
- MacroFrontEnd.ParseOutput: models the return-type branch with `parse_type` corrected. As written, a return type that is not one path segment panics, and `Option<String>` becomes `Option`.
- MacroFrontEnd.ParseFunc: models `parse_func` with `parse_type` corrected, so it inherits the two differences above; `MacroFrontEnd.ParseTypeAsWritten` is the reading as written.
- MacroFrontEnd.ServiceMacro: its contract says when the macro succeeds but does not spell out its output. The output is `MacroGenerator.Generate` of the pair that `Configure` states, and `Configure`'s contract carries the facts.

## Findings

| source | as written | input that shows it | evidently intended | confidence | as-written member | corrected member |
|---|---|---|---|---|---|---|
| norpc-macros/src/lib.rs:84-98 | `parse_type` prints the type, re-parses it as one path segment with `unwrap`, and for a non-`Stream` type keeps only the segment's identifier | `Option<String>` becomes `Option`, dropping its arguments; `()` is not a path segment, so the `unwrap` panics | a non-`Stream` type is kept whole, as `norpc-codegen` keeps it (norpc-codegen/src/lib.rs:63-66) | not executed | MacroFrontEnd.ParseTypeAsWritten, MacroFrontEnd.ParseTypeAsWrittenLosesArguments | MacroFrontEnd.ParseType |

The front end (`MacroFrontEnd.ParseInputs`, `ParseOutput`, `ParseFunc`) uses
the corrected `ParseType`. `CodegenFrontEnd.FrontEndsAgree` shows that the
two front ends then agree on every method without streams.
