/** The Rust code the description-file compiler writes for each service.
    Each fragment is the text of one `format!` template with its arguments
    spliced in; a run of layout whitespace in a template (newline and tab
    indentation) is written as one space, every token is kept. */
module CompilerGenerator {
  import opened Outcomes
  import opened Text
  import opened Descriptor
  import opened VariantText

  /** One request variant: the function name carrying its parameter types. */
  function RequestVariant(f: Function): string
  {
    VariantOf(f.name, Join(ParamTypes(f.inputs), ","))
  }

  /** One response variant: the function name carrying its output type. */
  function ResponseVariant(f: Function): string
  {
    VariantOf(f.name, f.output)
  }

  function RequestVariants(svc: Service): seq<string>
  {
    seq(|svc.functions|, i requires 0 <= i < |svc.functions| => RequestVariant(svc.functions[i]))
  }

  function ResponseVariants(svc: Service): seq<string>
  {
    seq(|svc.functions|, i requires 0 <= i < |svc.functions| => ResponseVariant(svc.functions[i]))
  }

  /** An enum declaration with the given variants, as both enums are written. */
  function EnumDecl(enumName: string, variants: seq<string>): string
  {
    " #[allow(non_camel_case_types)] pub enum " + enumName + " { " + Join(variants, ",") + " }"
  }

  function Request(svc: Service): string
  {
    EnumDecl(svc.name + "Request", RequestVariants(svc))
  }

  function Response(svc: Service): string
  {
    EnumDecl(svc.name + "Response", ResponseVariants(svc))
  }

  /** The client's type, `NameClient<Svc>`: declared by the client struct,
      implemented by the client impl. */
  function ClientType(svc: Service): string
  {
    svc.name + "Client<Svc>"
  }

  /** The server's struct name, `NameService`: declared by the server
      struct, implemented by the server impl. */
  function ServerName(svc: Service): string
  {
    svc.name + "Service"
  }

  function ClientStruct(svc: Service): string
  {
    var decl := "pub struct " + ClientType(svc);
    " #[derive(Clone)] " + decl + " { svc: Svc } "
  }

  function ServerStruct(svc: Service): string
  {
    var decl := "pub struct " + ServerName(svc);
    var generics := "<App: " + svc.name + "> { app: App } ";
    " #[derive(Clone)] " + decl + generics
  }

  /** The parameter list of a method: the receiver, then every parameter as
      `var:type`. */
  function MethodParams(receiver: string, f: Function): string
  {
    Join([receiver] + ParamDecls(f.inputs), ",")
  }

  /** The arguments a call passes on: every parameter's variable name. */
  function CallArgs(f: Function): string
  {
    Join(ParamVars(f.inputs), ",")
  }

  /** The declaration of an async method: `async fn name(params) -> ret;`. */
  function MethodDecl(name: string, params: string, ret: string): string
  {
    "async fn " + name + "(" + params + ") -> " + ret + ";"
  }

  function TraitMethod(f: Function): string
  {
    MethodDecl(f.name, MethodParams("&self", f), "Result<" + f.output + ", Self::Error>")
  }

  function TraitMethods(svc: Service): seq<string>
  {
    seq(|svc.functions|, i requires 0 <= i < |svc.functions| => TraitMethod(svc.functions[i]))
  }

  function Trait(svc: Service): string
  {
    " #[norpc::async_trait] pub trait " + svc.name + ": Clone { type Error; "
    + Join(TraitMethods(svc), "") + " } "
  }

  /** The match arm that rejects every other response. */
  const Unreachable := "_ => unreachable!(),"

  /** The client's call, whose argument is the request, and what follows it
      up to the match on the response. */
  const SendCall := " let rep = self.svc.clone().call("
  const AwaitReply := ").await.map_err(norpc::Error::AppError)?; match rep { "

  function ClientMethod(svcName: string, f: Function): string
  {
    var request := EnumValue(svcName + "Request", VariantOf(f.name, CallArgs(f)));
    var response := EnumValue(svcName + "Response", VariantOf(f.name, "v"));
    var signature := " async fn " + f.name + "(" + MethodParams("&self", f) + ") -> Result<" + f.output
      + ", norpc::Error<Svc::Error>> {";
    var exchange := response + " => Ok(v), " + Unreachable;
    signature + (SendCall + request + AwaitReply + exchange) + " } } "
  }

  function ClientMethods(svc: Service): seq<string>
  {
    seq(|svc.functions|, i requires 0 <= i < |svc.functions| => ClientMethod(svc.name, svc.functions[i]))
  }

  function ClientImpl(svc: Service): string
  {
    var bound := " impl<Svc: Service<" + svc.name + "Request, Response = " + svc.name + "Response> + Clone> ";
    var body := " { pub fn new(svc: Svc) -> Self { Self { svc } } " + Join(ClientMethods(svc), "") + " } ";
    bound + ClientType(svc) + body
  }

  function ServerArm(svcName: string, f: Function): string
  {
    var request := EnumValue(svcName + "Request", VariantOf(f.name, CallArgs(f)));
    var response := EnumValue(svcName + "Response", VariantOf(f.name, "rep"));
    var call := "app." + VariantOf(f.name, CallArgs(f)) + ".await?";
    var answer := "Ok(" + response + ")";
    " " + request + " => " + ("{ let rep = " + call + ("; " + answer + " } "))
  }

  function ServerArms(svc: Service): seq<string>
  {
    seq(|svc.functions|, i requires 0 <= i < |svc.functions| => ServerArm(svc.name, svc.functions[i]))
  }

  function ServerImpl(svc: Service): string
  {
    var bound := " impl<App: " + svc.name + "> ";
    var call := "<App> { pub fn new(app: App) -> Self { Self { app } } "
      + "pub async fn call(self, req: " + svc.name + "Request) -> Result<" + svc.name
      + "Response, App::Error> { let app = self.app.clone(); match req { ";
    bound + ServerName(svc) + (call + Join(ServerArms(svc), "") + " } } } ")
  }

  /** The seven fragments of one service, in the order `generate` writes them. */
  function ServiceCode(svc: Service): string
  {
    Request(svc) + Response(svc) + Trait(svc) + ClientStruct(svc)
    + ClientImpl(svc) + ServerStruct(svc) + ServerImpl(svc)
  }

  /** `generate`: the code of every service, appended in input order. */
  function Generate(svcs: seq<Service>): string
  {
    ConcatMap(svcs, ServiceCode)
  }

  /** No services give no code. */
  lemma GenerateNone()
    ensures Generate([]) == ""
  {
  }

  /** One service gives its seven fragments (`ServiceCode`). */
  lemma GenerateOne(svc: Service)
    ensures Generate([svc]) == ServiceCode(svc)
  {
    ConcatMapOne(svc, ServiceCode);
  }

  /** Generating two lists one after the other gives the same text as
      generating their concatenation, so the code of a list is the code of
      its services in input order. */
  lemma GenerateAppend(a: seq<Service>, b: seq<Service>)
    ensures Generate(a + b) == Generate(a) + Generate(b)
  {
    ConcatMapAppend(a, b, ServiceCode);
  }

  /** The request and response enums line up with the service's functions:
      variant `i` of each is tagged with function `i`'s name, the request
      variant carries its parameter types and the response variant its
      output type, and every variant appears in its enum. Requires only that
      no function name contains `(`, which the description grammar guarantees. */
  lemma EnvelopesCorrespond(svc: Service)
    requires forall k :: 0 <= k < |svc.functions| ==> '(' !in svc.functions[k].name
    ensures |RequestVariants(svc)| == |ResponseVariants(svc)| == |svc.functions|
    ensures forall i :: 0 <= i < |svc.functions| ==>
      SplitVariant(RequestVariants(svc)[i])
        == Some((svc.functions[i].name, Join(ParamTypes(svc.functions[i].inputs), ",")))
    ensures forall i :: 0 <= i < |svc.functions| ==>
      SplitVariant(ResponseVariants(svc)[i]) == Some((svc.functions[i].name, svc.functions[i].output))
    ensures forall i :: 0 <= i < |svc.functions| ==>
      Contains(Request(svc), RequestVariants(svc)[i]) && Contains(Response(svc), ResponseVariants(svc)[i])
  {
    forall i | 0 <= i < |svc.functions|
      ensures SplitVariant(RequestVariants(svc)[i])
        == Some((svc.functions[i].name, Join(ParamTypes(svc.functions[i].inputs), ",")))
      ensures SplitVariant(ResponseVariants(svc)[i]) == Some((svc.functions[i].name, svc.functions[i].output))
      ensures Contains(Request(svc), RequestVariants(svc)[i]) && Contains(Response(svc), ResponseVariants(svc)[i])
    {
      var f := svc.functions[i];
      SplitVariantOf(f.name, Join(ParamTypes(f.inputs), ","));
      SplitVariantOf(f.name, f.output);
      EnumListsVariant(svc.name + "Request", RequestVariants(svc), i);
      EnumListsVariant(svc.name + "Response", ResponseVariants(svc), i);
    }
  }

  lemma EnumListsVariant(enumName: string, variants: seq<string>, i: nat)
    requires i < |variants|
    ensures Contains(EnumDecl(enumName, variants), variants[i])
  {
    JoinContains(variants, ",", i);
    var head := " #[allow(non_camel_case_types)] pub enum " + enumName + " { ";
    ContainsPrepend(head, Join(variants, ","), variants[i]);
    ContainsExtend(head + Join(variants, ","), variants[i], " }");
  }

  /** A method's parameter list starts with the receiver and continues with
      every parameter as `var:type`, separated by commas. */
  lemma MethodParamsShape(receiver: string, f: Function)
    ensures |f.inputs| == 0 ==> MethodParams(receiver, f) == receiver
    ensures |f.inputs| > 0 ==> MethodParams(receiver, f) == receiver + "," + Join(ParamDecls(f.inputs), ",")
    ensures |ParamDecls(f.inputs)| == |f.inputs|
  {
    JoinCons(receiver, ParamDecls(f.inputs), ",");
  }

  /** The trait declares every function of the service: its name, the
      `&self` receiver followed by the parameters, and the output wrapped in
      `Result<_, Self::Error>`. */
  lemma TraitDeclaresEachFunction(svc: Service, i: nat)
    requires i < |svc.functions|
    ensures var f := svc.functions[i];
      Contains(Trait(svc), MethodDecl(f.name, MethodParams("&self", f), "Result<" + f.output + ", Self::Error>"))
  {
    var methods := TraitMethods(svc);
    JoinContains(methods, "", i);
    var head := " #[norpc::async_trait] pub trait " + svc.name + ": Clone { type Error; ";
    ContainsPrepend(head, Join(methods, ""), methods[i]);
    ContainsExtend(head + Join(methods, ""), methods[i], " } ");
  }

  /** Each impl is for the struct its sibling fragment declares. */
  lemma ImplsMatchStructs(svc: Service)
    ensures Contains(ClientStruct(svc), "pub struct " + ClientType(svc))
    ensures Contains(ClientImpl(svc), ClientType(svc))
    ensures Contains(ServerStruct(svc), "pub struct " + ServerName(svc))
    ensures Contains(ServerImpl(svc), ServerName(svc))
  {
    ContainsWithin(" #[derive(Clone)] ", "pub struct " + ClientType(svc), " { svc: Svc } ");
    ContainsWithin(" #[derive(Clone)] ", "pub struct " + ServerName(svc), "<App: " + svc.name + "> { app: App } ");
    var clientBound := " impl<Svc: Service<" + svc.name + "Request, Response = " + svc.name + "Response> + Clone> ";
    ContainsWithin(clientBound, ClientType(svc),
      " { pub fn new(svc: Svc) -> Self { Self { svc } } " + Join(ClientMethods(svc), "") + " } ");
    var call := "<App> { pub fn new(app: App) -> Self { Self { app } } "
      + "pub async fn call(self, req: " + svc.name + "Request) -> Result<" + svc.name
      + "Response, App::Error> { let app = self.app.clone(); match req { ";
    ContainsWithin(" impl<App: " + svc.name + "> ", ServerName(svc), call + Join(ServerArms(svc), "") + " } } } ");
  }

  /** The client impl holds the method of every function. */
  lemma ClientImplHoldsEachMethod(svc: Service, i: nat)
    requires i < |svc.functions|
    ensures |ClientMethods(svc)| == |svc.functions|
    ensures Contains(ClientImpl(svc), ClientMethod(svc.name, svc.functions[i]))
  {
    var methods := ClientMethods(svc);
    var open := " { pub fn new(svc: Svc) -> Self { Self { svc } } ";
    JoinContains(methods, "", i);
    ContainsPrepend(open, Join(methods, ""), methods[i]);
    ContainsExtend(open + Join(methods, ""), methods[i], " } ");
    var bound := " impl<Svc: Service<" + svc.name + "Request, Response = " + svc.name + "Response> + Clone> ";
    ContainsPrepend(bound + ClientType(svc), open + Join(methods, "") + " } ", methods[i]);
  }

  /** The server impl's `call` holds the arm of every function. */
  lemma ServerImplHoldsEachArm(svc: Service, i: nat)
    requires i < |svc.functions|
    ensures |ServerArms(svc)| == |svc.functions|
    ensures Contains(ServerImpl(svc), ServerArm(svc.name, svc.functions[i]))
  {
    var arms := ServerArms(svc);
    var call := "<App> { pub fn new(app: App) -> Self { Self { app } } "
      + "pub async fn call(self, req: " + svc.name + "Request) -> Result<" + svc.name
      + "Response, App::Error> { let app = self.app.clone(); match req { ";
    JoinContains(arms, "", i);
    ContainsPrepend(call, Join(arms, ""), arms[i]);
    ContainsExtend(call + Join(arms, ""), arms[i], " } } } ");
    ContainsPrepend(" impl<App: " + svc.name + "> " + ServerName(svc), call + Join(arms, "") + " } } } ", arms[i]);
  }

  /** A client method passes the request variant of its function, built
      from the method's own arguments, to the service's `call`, then turns
      exactly the matching response variant into its result; any other
      response is unreachable. */
  lemma ClientMethodExchanges(svcName: string, f: Function)
    ensures Contains(ClientMethod(svcName, f),
      SendCall + EnumValue(svcName + "Request", VariantOf(f.name, CallArgs(f))) + AwaitReply
      + (EnumValue(svcName + "Response", VariantOf(f.name, "v")) + " => Ok(v), " + Unreachable))
    ensures Contains(ClientMethod(svcName, f), EnumValue(svcName + "Request", VariantOf(f.name, CallArgs(f))))
    ensures Contains(ClientMethod(svcName, f),
      EnumValue(svcName + "Response", VariantOf(f.name, "v")) + " => Ok(v), " + Unreachable)
  {
    var request := EnumValue(svcName + "Request", VariantOf(f.name, CallArgs(f)));
    var exchange := EnumValue(svcName + "Response", VariantOf(f.name, "v")) + " => Ok(v), " + Unreachable;
    var signature := " async fn " + f.name + "(" + MethodParams("&self", f) + ") -> Result<" + f.output
      + ", norpc::Error<Svc::Error>> {";
    var run := SendCall + request + AwaitReply + exchange;
    ContainsWithin(signature, run, " } } ");
    ContainsWithin(SendCall, request, AwaitReply);
    ContainsExtend(SendCall + request + AwaitReply, request, exchange);
    ContainsInside(signature, run, " } } ", request);
    ContainsWithin(SendCall + request + AwaitReply, exchange, "");
    ContainsInside(signature, run, " } } ", exchange);
  }

  /** Client method `i` exchanges the variants of function `i`. */
  lemma ClientSendsItsRequest(svc: Service, i: nat)
    requires i < |svc.functions|
    ensures |ClientMethods(svc)| == |svc.functions|
    ensures var f := svc.functions[i];
      Contains(ClientMethods(svc)[i], EnumValue(svc.name + "Request", VariantOf(f.name, CallArgs(f))))
    ensures var f := svc.functions[i];
      Contains(ClientMethods(svc)[i], EnumValue(svc.name + "Response", VariantOf(f.name, "v")) + " => Ok(v), " + Unreachable)
  {
    ClientMethodExchanges(svc.name, svc.functions[i]);
  }

  /** A server arm matches the request variant of its function, binding its
      arguments, calls the application's method of the same name with them,
      and answers with the response variant of the same function. */
  lemma ServerArmDispatches(svcName: string, f: Function)
    ensures StartsWith(ServerArm(svcName, f), " " + EnumValue(svcName + "Request", VariantOf(f.name, CallArgs(f))) + " => ")
    ensures Contains(ServerArm(svcName, f), "app." + VariantOf(f.name, CallArgs(f)) + ".await?")
    ensures Contains(ServerArm(svcName, f), "Ok(" + EnumValue(svcName + "Response", VariantOf(f.name, "rep")) + ")")
  {
    var pattern := " " + EnumValue(svcName + "Request", VariantOf(f.name, CallArgs(f))) + " => ";
    var call := "app." + VariantOf(f.name, CallArgs(f)) + ".await?";
    var answer := "Ok(" + EnumValue(svcName + "Response", VariantOf(f.name, "rep")) + ")";
    var body := "{ let rep = " + call + ("; " + answer + " } ");
    assert ServerArm(svcName, f) == pattern + body;
    ContainsWithin("{ let rep = ", call, "; " + answer + " } ");
    ContainsPrepend(pattern, body, call);
    ContainsWithin("; ", answer, " } ");
    ContainsPrepend("{ let rep = " + call, "; " + answer + " } ", answer);
    ContainsPrepend(pattern, body, answer);
  }

  /** Server arm `i` dispatches the variants of function `i`. */
  lemma ServerAnswersEachRequest(svc: Service, i: nat)
    requires i < |svc.functions|
    ensures |ServerArms(svc)| == |svc.functions|
    ensures var f := svc.functions[i];
      StartsWith(ServerArms(svc)[i], " " + EnumValue(svc.name + "Request", VariantOf(f.name, CallArgs(f))) + " => ")
    ensures var f := svc.functions[i];
      Contains(ServerArms(svc)[i], "app." + VariantOf(f.name, CallArgs(f)) + ".await?")
    ensures var f := svc.functions[i];
      Contains(ServerArms(svc)[i], "Ok(" + EnumValue(svc.name + "Response", VariantOf(f.name, "rep")) + ")")
  {
    ServerArmDispatches(svc.name, svc.functions[i]);
  }

  /** The client's request for function `i` is, character for character,
      the pattern the server's arm `i` matches. */
  lemma ClientAndServerAgree(svc: Service, i: nat)
    requires i < |svc.functions|
    ensures var req := EnumValue(svc.name + "Request", VariantOf(svc.functions[i].name, CallArgs(svc.functions[i])));
      Contains(ClientMethods(svc)[i], req) && Contains(ServerArms(svc)[i], req)
  {
    ClientSendsItsRequest(svc, i);
    ServerAnswersEachRequest(svc, i);
    var f := svc.functions[i];
    var req := EnumValue(svc.name + "Request", VariantOf(f.name, CallArgs(f)));
    var post :| ServerArms(svc)[i] == " " + req + " => " + post;
    ContainsWithin(" ", req, " => " + post);
    Assoc3(" " + req, " => ", post);
  }
}
