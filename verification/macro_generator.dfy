/** The code the attribute macro writes for one service. `no_send` selects
    the futures that need not be `Send` (a `#[norpc::service(?Send)]`
    trait). As in the compiler's generator, a run of layout whitespace in a
    template is written as one space.

    The request enum, response enum, client struct and server struct
    templates are the compiler's, character for character, so they are
    reused from `CompilerGenerator`. */
module MacroGenerator {
  import opened Text
  import opened Descriptor
  import opened VariantText
  import opened MacroDescriptor
  import CG = CompilerGenerator

  datatype Generator = Generator(noSend: bool)

  /** The argument of `#[norpc::async_trait...]`. */
  function TraitAttribute(g: Generator): string
  {
    if g.noSend then "(?Send)" else ""
  }

  /** The extra bound on the server adapter and its future. */
  function SendBound(g: Generator): string
  {
    if g.noSend then "" else "+ Send"
  }

  /** Trait methods take `self` by value and return the output as is. */
  function TraitMethod(f: Function): string
  {
    CG.MethodDecl(f.name, CG.MethodParams("self", f), f.output)
  }

  function TraitMethods(svc: Service): seq<string>
  {
    seq(|svc.functions|, i requires 0 <= i < |svc.functions| => TraitMethod(svc.functions[i]))
  }

  function Trait(g: Generator, svc: Service): string
  {
    var body := "] pub trait " + svc.name + ": Clone { " + Join(TraitMethods(svc), "") + " } ";
    " #[norpc::async_trait" + TraitAttribute(g) + body
  }

  /** The client waits until the service is ready and ignores a failure to
      become ready. */
  const AwaitReady := "norpc::poll_fn(|ctx| self.svc.poll_ready(ctx)).await.ok();"

  /** The client's call, whose argument is the request, and what follows it
      up to the match on the response. */
  const SendCall := " let rep = self.svc.call("
  const AwaitReply := ").await?; match rep { "

  /** The arm that rejects every other response. */
  const Unreachable := "#[allow(unreachable_patterns)] _ => unreachable!(),"

  /** In the template the request enum is written with a bare `{}`; no
      positional argument is passed, so it takes the first named one,
      `svc_name`. */
  function ClientMethod(svcName: string, f: Function): string
  {
    var request := EnumValue(svcName + "Request", VariantOf(f.name, CG.CallArgs(f)));
    var response := EnumValue(svcName + "Response", VariantOf(f.name, "v"));
    var signature := " pub async fn " + f.name + "(" + CG.MethodParams("&mut self", f) + ") -> std::result::Result<"
      + f.output + ", Svc::Error> { ";
    var exchange := response + " => Ok(v), " + Unreachable;
    var send := SendCall + request + AwaitReply + exchange;
    signature + (AwaitReady + send) + " } } "
  }

  function ClientMethods(svc: Service): seq<string>
  {
    seq(|svc.functions|, i requires 0 <= i < |svc.functions| => ClientMethod(svc.name, svc.functions[i]))
  }

  function ClientImpl(svc: Service): string
  {
    var bound := " impl<Svc: norpc::Service<" + svc.name + "Request, Response = " + svc.name + "Response>> ";
    var body := " { pub fn new(svc: Svc) -> Self { Self { svc } } " + Join(ClientMethods(svc), "") + " } ";
    bound + CG.ClientType(svc) + body
  }

  /** Unlike the compiler's server, the application method cannot fail. */
  function ServerArm(svcName: string, f: Function): string
  {
    var request := EnumValue(svcName + "Request", VariantOf(f.name, CG.CallArgs(f)));
    var response := EnumValue(svcName + "Response", VariantOf(f.name, "rep"));
    var call := "app." + VariantOf(f.name, CG.CallArgs(f)) + ".await";
    var answer := "Ok(" + response + ")";
    " " + request + " => " + ("{ let rep = " + call + ("; " + answer + " } "))
  }

  function ServerArms(svc: Service): seq<string>
  {
    seq(|svc.functions|, i requires 0 <= i < |svc.functions| => ServerArm(svc.name, svc.functions[i]))
  }

  /** The server adapter is always ready. */
  const AlwaysReady := "fn poll_ready( &mut self, _: &mut std::task::Context<'_>, ) -> std::task::Poll<std::result::Result<(), Self::Error>> { Ok(()).into() }"

  /** The adapter's `call`: match the request and run the arm of its function. */
  function CallMethod(svc: Service): string
  {
    " fn call(&mut self, req: " + svc.name
    + "Request) -> Self::Future { let app = self.app.clone(); Box::pin(async move { match req { "
    + Join(ServerArms(svc), ",") + " } }) }"
  }

  function ServerImpl(g: Generator, svc: Service): string
  {
    var n := svc.name;
    var head := " impl<App: " + n + "> " + n + "Service<App> { pub fn new(app: App) -> Self { Self { app } } } "
      + "impl<App: " + n + " + 'static ";
    var mid := "> norpc::Service<" + n + "Request> for " + n + "Service<App> { type Response = " + n
      + "Response; type Error = (); type Future = std::pin::Pin<Box<dyn std::future::Future<Output = "
      + "std::result::Result<Self::Response, Self::Error>> ";
    var tail := ">>; " + AlwaysReady + CallMethod(svc) + " } ";
    head + SendBound(g) + mid + SendBound(g) + tail
  }

  /** `generate`: the seven fragments of the service, in order. The
      templates read the plain descriptor only. */
  function Generate(g: Generator, svc: MacroService): string
  {
    var p := Plain(svc);
    CG.Request(p) + CG.Response(p) + Trait(g, p) + CG.ClientStruct(p)
    + ClientImpl(p) + CG.ServerStruct(p) + ServerImpl(g, p)
  }

  /** `longer` is `shorter` with `ins` inserted at one place. */
  ghost predicate InsertedOnce(longer: string, shorter: string, ins: string)
  {
    exists pre, post :: longer == pre + ins + post && shorter == pre + post
  }

  /** `longer` is `shorter` with `ins` inserted at two places. */
  ghost predicate InsertedTwice(longer: string, shorter: string, ins: string)
  {
    exists a, b, c :: longer == a + ins + b + ins + c && shorter == a + b + c
  }

  lemma InsertOnce(pre: string, ins: string, post: string)
    ensures InsertedOnce(pre + ins + post, pre + "" + post, ins)
  {
    assert pre + "" + post == pre + post;
  }

  lemma InsertTwice(a: string, ins: string, b: string, c: string)
    ensures InsertedTwice(a + ins + b + ins + c, a + "" + b + "" + c, ins)
  {
    assert a + "" + b + "" + c == a + b + c;
  }

  /** The trait of a `?Send` service is the trait of an ordinary one with
      `(?Send)` added to the `async_trait` attribute, and nothing else changed. */
  lemma TraitSendToggle(svc: Service)
    ensures InsertedOnce(Trait(Generator(true), svc), Trait(Generator(false), svc), "(?Send)")
  {
    var body := "] pub trait " + svc.name + ": Clone { " + Join(TraitMethods(svc), "") + " } ";
    InsertOnce(" #[norpc::async_trait", "(?Send)", body);
  }

  /** The server adapter of an ordinary service is that of a `?Send`
      service with `+ Send` added twice: to the application bound and to the
      boxed future. */
  lemma ServerImplSendToggle(svc: Service)
    ensures InsertedTwice(ServerImpl(Generator(false), svc), ServerImpl(Generator(true), svc), "+ Send")
  {
    var n := svc.name;
    var head := " impl<App: " + n + "> " + n + "Service<App> { pub fn new(app: App) -> Self { Self { app } } } "
      + "impl<App: " + n + " + 'static ";
    var mid := "> norpc::Service<" + n + "Request> for " + n + "Service<App> { type Response = " + n
      + "Response; type Error = (); type Future = std::pin::Pin<Box<dyn std::future::Future<Output = "
      + "std::result::Result<Self::Response, Self::Error>> ";
    var tail := ">>; " + AlwaysReady + CallMethod(svc) + " } ";
    InsertTwice(head, "+ Send", mid, tail);
  }

  /** The streaming flags never reach the generated text: two services
      that agree on names, parameters and outputs get the same code. */
  lemma StreamingFlagsIgnored(g: Generator, a: MacroService, b: MacroService)
    requires a.name == b.name && |a.functions| == |b.functions|
    requires forall i :: 0 <= i < |a.functions| ==> PlainFunction(a.functions[i]) == PlainFunction(b.functions[i])
    ensures Generate(g, a) == Generate(g, b)
  {
    assert Plain(a) == Plain(b);
  }

  /** The trait declares every function: its name, `self` by value followed
      by the parameters, and the output unwrapped. */
  lemma TraitDeclaresEachFunction(g: Generator, svc: Service, i: nat)
    requires i < |svc.functions|
    ensures var f := svc.functions[i];
      Contains(Trait(g, svc), CG.MethodDecl(f.name, CG.MethodParams("self", f), f.output))
  {
    var methods := TraitMethods(svc);
    JoinContains(methods, "", i);
    var head := "] pub trait " + svc.name + ": Clone { ";
    ContainsPrepend(head, Join(methods, ""), methods[i]);
    ContainsExtend(head + Join(methods, ""), methods[i], " } ");
    ContainsPrepend(" #[norpc::async_trait" + TraitAttribute(g), head + Join(methods, "") + " } ", methods[i]);
  }

  /** A client method first waits for readiness, then passes the request
      variant of its function to the service's `call`, and turns exactly the
      matching response variant into its result; any other response is
      unreachable. */
  lemma ClientMethodExchanges(svcName: string, f: Function)
    ensures Contains(ClientMethod(svcName, f),
      AwaitReady + (SendCall + EnumValue(svcName + "Request", VariantOf(f.name, CG.CallArgs(f))) + AwaitReply
      + (EnumValue(svcName + "Response", VariantOf(f.name, "v")) + " => Ok(v), " + Unreachable)))
    ensures Contains(ClientMethod(svcName, f), AwaitReady)
    ensures Contains(ClientMethod(svcName, f), EnumValue(svcName + "Request", VariantOf(f.name, CG.CallArgs(f))))
    ensures Contains(ClientMethod(svcName, f),
      EnumValue(svcName + "Response", VariantOf(f.name, "v")) + " => Ok(v), " + Unreachable)
  {
    var request := EnumValue(svcName + "Request", VariantOf(f.name, CG.CallArgs(f)));
    var exchange := EnumValue(svcName + "Response", VariantOf(f.name, "v")) + " => Ok(v), " + Unreachable;
    var signature := " pub async fn " + f.name + "(" + CG.MethodParams("&mut self", f) + ") -> std::result::Result<"
      + f.output + ", Svc::Error> { ";
    var send := SendCall + request + AwaitReply + exchange;
    ContainsWithin(signature, AwaitReady + send, " } } ");
    ContainsWithin("", AwaitReady, send);
    ContainsInside(signature, AwaitReady + send, " } } ", AwaitReady);
    ContainsWithin(SendCall, request, AwaitReply);
    ContainsExtend(SendCall + request + AwaitReply, request, exchange);
    ContainsPrepend(AwaitReady, send, request);
    ContainsInside(signature, AwaitReady + send, " } } ", request);
    ContainsWithin(SendCall + request + AwaitReply, exchange, "");
    ContainsPrepend(AwaitReady, send, exchange);
    ContainsInside(signature, AwaitReady + send, " } } ", exchange);
  }

  /** A server arm matches the request variant of its function, calls the
      application's method of the same name with the bound arguments, and
      answers with the response variant of the same function. */
  lemma ServerArmDispatches(svcName: string, f: Function)
    ensures StartsWith(ServerArm(svcName, f), " " + EnumValue(svcName + "Request", VariantOf(f.name, CG.CallArgs(f))) + " => ")
    ensures Contains(ServerArm(svcName, f), "app." + VariantOf(f.name, CG.CallArgs(f)) + ".await")
    ensures Contains(ServerArm(svcName, f), "Ok(" + EnumValue(svcName + "Response", VariantOf(f.name, "rep")) + ")")
  {
    var pattern := " " + EnumValue(svcName + "Request", VariantOf(f.name, CG.CallArgs(f))) + " => ";
    var call := "app." + VariantOf(f.name, CG.CallArgs(f)) + ".await";
    var answer := "Ok(" + EnumValue(svcName + "Response", VariantOf(f.name, "rep")) + ")";
    var body := "{ let rep = " + call + ("; " + answer + " } ");
    assert ServerArm(svcName, f) == pattern + body;
    ContainsWithin("{ let rep = ", call, "; " + answer + " } ");
    ContainsPrepend(pattern, body, call);
    ContainsWithin("; ", answer, " } ");
    ContainsPrepend("{ let rep = " + call, "; " + answer + " } ", answer);
    ContainsPrepend(pattern, body, answer);
  }

  /** The client impl is for the client struct and holds the method of
      every function. */
  lemma ClientImplHoldsEachMethod(svc: Service, i: nat)
    requires i < |svc.functions|
    ensures |ClientMethods(svc)| == |svc.functions|
    ensures Contains(ClientImpl(svc), CG.ClientType(svc))
    ensures Contains(ClientImpl(svc), ClientMethod(svc.name, svc.functions[i]))
  {
    var methods := ClientMethods(svc);
    var open := " { pub fn new(svc: Svc) -> Self { Self { svc } } ";
    var bound := " impl<Svc: norpc::Service<" + svc.name + "Request, Response = " + svc.name + "Response>> ";
    ContainsWithin(bound, CG.ClientType(svc), open + Join(methods, "") + " } ");
    JoinContains(methods, "", i);
    ContainsPrepend(open, Join(methods, ""), methods[i]);
    ContainsExtend(open + Join(methods, ""), methods[i], " } ");
    ContainsPrepend(bound + CG.ClientType(svc), open + Join(methods, "") + " } ", methods[i]);
  }

  /** Every arm of the adapter's `call` is the arm of one function, in
      declaration order. */
  lemma CallDispatchesEachFunction(svc: Service, i: nat)
    requires i < |svc.functions|
    ensures |ServerArms(svc)| == |svc.functions|
    ensures Contains(CallMethod(svc), ServerArm(svc.name, svc.functions[i]))
  {
    var arms := ServerArms(svc);
    var call := " fn call(&mut self, req: " + svc.name
      + "Request) -> Self::Future { let app = self.app.clone(); Box::pin(async move { match req { ";
    JoinContains(arms, ",", i);
    ContainsPrepend(call, Join(arms, ","), arms[i]);
    ContainsExtend(call + Join(arms, ","), arms[i], " } }) }");
  }

  /** The text after the two `Send` bounds: `poll_ready`, then `call`. */
  lemma ServerImplTail(g: Generator, svc: Service, s: string)
    requires Contains(">>; " + AlwaysReady + CallMethod(svc) + " } ", s)
    ensures Contains(ServerImpl(g, svc), s)
  {
    var n := svc.name;
    var head := " impl<App: " + n + "> " + n + "Service<App> { pub fn new(app: App) -> Self { Self { app } } } "
      + "impl<App: " + n + " + 'static ";
    var mid := "> norpc::Service<" + n + "Request> for " + n + "Service<App> { type Response = " + n
      + "Response; type Error = (); type Future = std::pin::Pin<Box<dyn std::future::Future<Output = "
      + "std::result::Result<Self::Response, Self::Error>> ";
    ContainsPrepend(head + SendBound(g) + mid + SendBound(g), ">>; " + AlwaysReady + CallMethod(svc) + " } ", s);
  }

  /** The server adapter answers every function of the service. */
  lemma ServerImplDispatchesEachFunction(g: Generator, svc: Service, i: nat)
    requires i < |svc.functions|
    ensures Contains(ServerImpl(g, svc), ServerArm(svc.name, svc.functions[i]))
  {
    var arm := ServerArm(svc.name, svc.functions[i]);
    CallDispatchesEachFunction(svc, i);
    ContainsPrepend(">>; " + AlwaysReady, CallMethod(svc), arm);
    ContainsExtend(">>; " + AlwaysReady + CallMethod(svc), arm, " } ");
    ServerImplTail(g, svc, arm);
  }

  /** The server adapter's `poll_ready` always reports ready. */
  lemma ServerImplAlwaysReady(g: Generator, svc: Service)
    ensures Contains(ServerImpl(g, svc), AlwaysReady)
  {
    ContainsWithin(">>; ", AlwaysReady, "");
    ContainsExtend(">>; " + AlwaysReady, AlwaysReady, CallMethod(svc));
    ContainsExtend(">>; " + AlwaysReady + CallMethod(svc), AlwaysReady, " } ");
    ServerImplTail(g, svc, AlwaysReady);
  }
}
