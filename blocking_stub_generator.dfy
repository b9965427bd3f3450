/** `BlockingStubGenerator`: the blocking (non-suspending) client stub of a
    gRPC service. Each RPC is sorted into one of four shapes by its two
    streaming flags, and each shape has its own list of functions, every one
    of which returns the result of a `io.grpc.stub.ClientCalls` helper. */
module BlockingStubGenerator {
  import opened Schema
  import opened Poet

  /** `ClassNameGenerator.classNameFor`: resolves a schema type to the class
      generated for it. Its definition is not part of this model, so every
      property below holds for every resolver. */
  type ClassNameGenerator = ProtoType -> ClassName

  const ClientCalls := ClassName("io.grpc.stub", [], "ClientCalls")
  const BlockingClientCall := ClassName("io.grpc.stub", [], "BlockingClientCall")
  const ChannelClass := ClassName("io.grpc", [], "Channel")
  /** `Iterator::class.asClassName()` */
  const IteratorClass := ClassName("kotlin.collections", [], "Iterator")

  const BlockingUnaryCall := "blockingUnaryCall"
  const BlockingServerStreamingCall := "blockingServerStreamingCall"
  const BlockingV2ServerStreamingCall := "blockingV2ServerStreamingCall"
  const BlockingClientStreamingCall := "blockingClientStreamingCall"
  const BlockingBidiStreamingCall := "blockingBidiStreamingCall"

  /** The suffix that keeps the second server-streaming function apart from the first. */
  const CallSuffix := "Call"

  datatype Shape = Unary | ClientStreaming | ServerStreaming | Bidi

  /** The `when` of `addBlockingStubRpcCalls`, branch by branch: the third
      branch tests only `!requestStreaming`, which is enough because the
      first two have already taken every case with `responseStreaming` false. */
  function Classify(requestStreaming: bool, responseStreaming: bool): (shape: Shape)
    ensures shape == Unary <==> !requestStreaming && !responseStreaming
    ensures shape == ClientStreaming <==> requestStreaming && !responseStreaming
    ensures shape == ServerStreaming <==> !requestStreaming && responseStreaming
    ensures shape == Bidi <==> requestStreaming && responseStreaming
  {
    if !requestStreaming && !responseStreaming then Unary
    else if requestStreaming && !responseStreaming then ClientStreaming
    else if !requestStreaming then ServerStreaming
    else Bidi
  }

  function ShapeOf(rpc: Rpc): Shape {
    Classify(rpc.requestStreaming, rpc.responseStreaming)
  }

  /** The name of the generated method-descriptor accessor, `get<name>Method`. */
  function MethodAccessor(rpcName: string): (accessor: string)
    ensures |accessor| == |rpcName| + 9
    ensures accessor[..3] == "get" && accessor[|accessor| - 6..] == "Method"
    ensures accessor[3..|accessor| - 6] == rpcName
  {
    "get" + rpcName + "Method"
  }

  function RequestClass(generator: ClassNameGenerator, rpc: Rpc): ClassName
    requires Linked(rpc)
  {
    generator(rpc.requestType.value)
  }

  function ResponseClass(generator: ClassNameGenerator, rpc: Rpc): ClassName
    requires Linked(rpc)
  {
    generator(rpc.responseType.value)
  }

  /** `BlockingClientCall<Req, Res>` */
  function CallHandle(request: ClassName, response: ClassName): TypeName {
    Parameterized(BlockingClientCall, [Class(request), Class(response)])
  }

  /** The argument list every helper call is given:
      `(channel, get<name>Method(), callOptions)`, then `request` when the
      function has one. */
  function HelperArgs(rpcName: string, passesRequest: bool): seq<Expr> {
    [Ref("channel"), Invoke(MethodAccessor(rpcName)), Ref("callOptions")]
      + (if passesRequest then [Ref("request")] else [])
  }

  /** The function's only parameter is `request` of the given class. */
  predicate TakesRequest(f: FunSpec, request: ClassName) {
    f.parameters == [ParamSpec("request", Class(request))]
  }

  /** The function returns what `ClientCalls.<helper>` returns for the RPC
      named `rpcName`, passing `request` on exactly when `passesRequest`. */
  predicate Delegates(f: FunSpec, helper: string, rpcName: string, passesRequest: bool) {
    f.code == ReturnCall(MemberName(ClientCalls, helper), HelperArgs(rpcName, passesRequest))
  }

  /** `unary` */
  function UnaryFunctions(generator: ClassNameGenerator, rpc: Rpc): (fs: seq<FunSpec>)
    requires Linked(rpc)
    ensures |fs| == 1 && fs[0].name == rpc.name
    ensures TakesRequest(fs[0], RequestClass(generator, rpc))
    ensures fs[0].returnType == Class(ResponseClass(generator, rpc))
    ensures Delegates(fs[0], BlockingUnaryCall, rpc.name, true)
  {
    var code := ReturnCall(MemberName(ClientCalls, BlockingUnaryCall),
                           [Ref("channel"), Invoke(MethodAccessor(rpc.name)), Ref("callOptions"), Ref("request")]);
    [FunSpec(rpc.name,
             [ParamSpec("request", Class(generator(rpc.requestType.value)))],
             Class(generator(rpc.responseType.value)),
             code)]
  }

  /** `serverStreaming`: the iterator form under the RPC's own name, then the
      call-handle form under the name with `Call` appended. */
  function ServerStreamingFunctions(generator: ClassNameGenerator, rpc: Rpc): (fs: seq<FunSpec>)
    requires Linked(rpc)
    ensures |fs| == 2
    ensures fs[0].name == rpc.name && fs[1].name == rpc.name + CallSuffix
    ensures fs[0].name != fs[1].name && fs[0].returnType != fs[1].returnType
    ensures TakesRequest(fs[0], RequestClass(generator, rpc)) && TakesRequest(fs[1], RequestClass(generator, rpc))
    ensures fs[0].returnType == Parameterized(IteratorClass, [Class(ResponseClass(generator, rpc))])
    ensures fs[1].returnType == CallHandle(RequestClass(generator, rpc), ResponseClass(generator, rpc))
    ensures Delegates(fs[0], BlockingServerStreamingCall, rpc.name, true)
    ensures Delegates(fs[1], BlockingV2ServerStreamingCall, rpc.name, true)
  {
    var code1 := ReturnCall(MemberName(ClientCalls, BlockingServerStreamingCall),
                            [Ref("channel"), Invoke(MethodAccessor(rpc.name)), Ref("callOptions"), Ref("request")]);
    var v1 := FunSpec(rpc.name,
                      [ParamSpec("request", Class(generator(rpc.requestType.value)))],
                      Parameterized(IteratorClass, [Class(generator(rpc.responseType.value))]),
                      code1);
    var code2 := ReturnCall(MemberName(ClientCalls, BlockingV2ServerStreamingCall),
                            [Ref("channel"), Invoke(MethodAccessor(rpc.name)), Ref("callOptions"), Ref("request")]);
    var v2 := FunSpec(rpc.name + CallSuffix,
                      [ParamSpec("request", Class(generator(rpc.requestType.value)))],
                      Parameterized(BlockingClientCall, [Class(generator(rpc.requestType.value)),
                                                         Class(generator(rpc.responseType.value))]),
                      code2);
    assert |v1.name| < |v2.name|;
    [v1, v2]
  }

  /** `clientStreaming`: no parameter; requests are written through the returned handle. */
  function ClientStreamingFunctions(generator: ClassNameGenerator, rpc: Rpc): (fs: seq<FunSpec>)
    requires Linked(rpc)
    ensures |fs| == 1 && fs[0].name == rpc.name
    ensures fs[0].parameters == []
    ensures fs[0].returnType == CallHandle(RequestClass(generator, rpc), ResponseClass(generator, rpc))
    ensures Delegates(fs[0], BlockingClientStreamingCall, rpc.name, false)
  {
    var code := ReturnCall(MemberName(ClientCalls, BlockingClientStreamingCall),
                           [Ref("channel"), Invoke(MethodAccessor(rpc.name)), Ref("callOptions")]);
    [FunSpec(rpc.name,
             [],
             Parameterized(BlockingClientCall, [Class(generator(rpc.requestType.value)),
                                                Class(generator(rpc.responseType.value))]),
             code)]
  }

  /** `bidi`: as `clientStreaming`, with the bidirectional helper. */
  function BidiFunctions(generator: ClassNameGenerator, rpc: Rpc): (fs: seq<FunSpec>)
    requires Linked(rpc)
    ensures |fs| == 1 && fs[0].name == rpc.name
    ensures fs[0].parameters == []
    ensures fs[0].returnType == CallHandle(RequestClass(generator, rpc), ResponseClass(generator, rpc))
    ensures Delegates(fs[0], BlockingBidiStreamingCall, rpc.name, false)
  {
    var code := ReturnCall(MemberName(ClientCalls, BlockingBidiStreamingCall),
                           [Ref("channel"), Invoke(MethodAccessor(rpc.name)), Ref("callOptions")]);
    [FunSpec(rpc.name,
             [],
             Parameterized(BlockingClientCall, [Class(generator(rpc.requestType.value)),
                                                Class(generator(rpc.responseType.value))]),
             code)]
  }

  /** The functions one RPC contributes, chosen by its shape. */
  function RpcFunctions(generator: ClassNameGenerator, rpc: Rpc): (fs: seq<FunSpec>)
    requires Linked(rpc)
    ensures |fs| == if ShapeOf(rpc) == ServerStreaming then 2 else 1
    ensures fs[0].name == rpc.name
    ensures |fs| == 2 ==> fs[1].name == rpc.name + CallSuffix && fs[0].name != fs[1].name
    ensures forall k :: 0 <= k < |fs| ==> (fs[k].parameters == [] <==> rpc.requestStreaming)
    ensures forall k :: 0 <= k < |fs| ==> fs[k].code.ReturnCall? && fs[k].code.member.enclosingClassName == ClientCalls
    ensures forall k :: 0 <= k < |fs| ==> fs[k].code.args == HelperArgs(rpc.name, !rpc.requestStreaming)
  {
    match ShapeOf(rpc)
    case Unary => UnaryFunctions(generator, rpc)
    case ClientStreaming => ClientStreamingFunctions(generator, rpc)
    case ServerStreaming => ServerStreamingFunctions(generator, rpc)
    case Bidi => BidiFunctions(generator, rpc)
  }

  /** Everything `addBlockingStubRpcCalls` adds: each RPC's list whole, in RPC order. */
  function AllRpcFunctions(generator: ClassNameGenerator, rpcs: seq<Rpc>): (fs: seq<FunSpec>)
    requires AllLinked(rpcs)
    ensures |rpcs| <= |fs| <= 2 * |rpcs|
    ensures rpcs != [] ==> fs[0].name == rpcs[0].name
  {
    if rpcs == [] then [] else RpcFunctions(generator, rpcs[0]) + AllRpcFunctions(generator, rpcs[1..])
  }

  /** The nested stub class, `<Service>BlockingStub` inside `<Service>WireGrpc`. */
  function StubClassName(generator: ClassNameGenerator, service: Service): (stub: ClassName)
    ensures stub.packageName == generator(service.serviceType).packageName
    ensures stub.enclosing == [generator(service.serviceType).simpleName + "WireGrpc"]
    ensures stub.simpleName == generator(service.serviceType).simpleName + "BlockingStub"
  {
    var serviceClassName := generator(service.serviceType);
    ClassName(serviceClassName.packageName,
              [serviceClassName.simpleName + "WireGrpc"],
              serviceClassName.simpleName + "BlockingStub")
  }

  /** `newBlockingStub(channel: Channel): <Service>BlockingStub`. */
  function NewBlockingStub(stubClassName: ClassName): (f: FunSpec)
    ensures f.name == "newBlockingStub"
    ensures f.parameters == [ParamSpec("channel", Class(ChannelClass))]
    ensures f.returnType == Class(stubClassName)
    ensures f.code == ReturnNew(stubClassName, [Ref("channel")])
  {
    FunSpec("newBlockingStub", [ParamSpec("channel", Class(ChannelClass))], Class(stubClassName),
            ReturnNew(stubClassName, [Ref("channel")]))
  }

  /** The nested stub type: what `addAbstractStubConstructor` contributed
      (an input here), followed by every RPC's functions. The factory
      returns exactly this class. */
  function BlockingStubType(generator: ClassNameGenerator, service: Service, abstractStubMembers: seq<FunSpec>): (t: TypeSpec)
    requires AllLinked(service.rpcs)
    ensures t.name == StubClassName(generator, service).simpleName
    ensures NewBlockingStub(StubClassName(generator, service)).returnType == Class(StubClassName(generator, service))
    ensures |t.funSpecs| == |abstractStubMembers| + |AllRpcFunctions(generator, service.rpcs)|
    ensures t.funSpecs[..|abstractStubMembers|] == abstractStubMembers
    ensures t.funSpecs[|abstractStubMembers|..] == AllRpcFunctions(generator, service.rpcs)
    ensures t.typeSpecs == []
  {
    TypeSpec(StubClassName(generator, service).simpleName,
             abstractStubMembers + AllRpcFunctions(generator, service.rpcs), [])
  }

  lemma {:induction false} AllRpcFunctionsSnoc(generator: ClassNameGenerator, rpcs: seq<Rpc>, rpc: Rpc)
    requires AllLinked(rpcs) && Linked(rpc)
    ensures AllLinked(rpcs + [rpc])
    ensures AllRpcFunctions(generator, rpcs + [rpc]) == AllRpcFunctions(generator, rpcs) + RpcFunctions(generator, rpc)
    decreases |rpcs|
  {
    if rpcs == [] {
      assert [rpc][1..] == [];
    } else {
      assert (rpcs + [rpc])[1..] == rpcs[1..] + [rpc];
      AllRpcFunctionsSnoc(generator, rpcs[1..], rpc);
    }
  }

  /** `addBlockingStubRpcCalls`: walks the RPCs in order and adds each one's
      functions to `builder`, one `addFunction` at a time. */
  method AddBlockingStubRpcCalls(builder: TypeSpecBuilder, generator: ClassNameGenerator, service: Service)
    returns (result: TypeSpecBuilder)
    requires AllLinked(service.rpcs)
    modifies builder
    ensures result == builder
    ensures builder.funSpecs == old(builder.funSpecs) + AllRpcFunctions(generator, service.rpcs)
    ensures builder.typeSpecs == old(builder.typeSpecs)
  {
    var rpcs := service.rpcs;
    for i := 0 to |rpcs|
      invariant AllLinked(rpcs[..i])
      invariant builder.funSpecs == old(builder.funSpecs) + AllRpcFunctions(generator, rpcs[..i])
      invariant builder.typeSpecs == old(builder.typeSpecs)
    {
      var rpc := rpcs[i];
      var functions := RpcFunctions(generator, rpc);
      var before := builder.funSpecs;
      for j := 0 to |functions|
        invariant builder.funSpecs == before + functions[..j]
        invariant builder.typeSpecs == old(builder.typeSpecs)
      {
        builder.AddFunction(functions[j]);
      }
      assert functions[..|functions|] == functions;
      assert rpcs[..i + 1] == rpcs[..i] + [rpc];
      AllRpcFunctionsSnoc(generator, rpcs[..i], rpc);
    }
    assert rpcs[..|rpcs|] == rpcs;
    result := builder;
  }

  /** `addBlockingStub`: with suspending calls configured, the builder is
      returned untouched; otherwise it gains the `newBlockingStub` factory and
      the nested stub class, which holds every RPC's functions. */
  method AddBlockingStub(generator: ClassNameGenerator, builder: TypeSpecBuilder, service: Service,
                         options: Options, abstractStubMembers: seq<FunSpec>)
    returns (result: TypeSpecBuilder)
    requires !options.suspendingCalls ==> AllLinked(service.rpcs)
    modifies builder
    ensures result == builder
    ensures options.suspendingCalls ==>
              builder.funSpecs == old(builder.funSpecs) && builder.typeSpecs == old(builder.typeSpecs)
    ensures !options.suspendingCalls ==>
              builder.funSpecs == old(builder.funSpecs) + [NewBlockingStub(StubClassName(generator, service))]
    ensures !options.suspendingCalls ==>
              builder.typeSpecs == old(builder.typeSpecs) + [BlockingStubType(generator, service, abstractStubMembers)]
  {
    if !options.suspendingCalls {
      var stubClassName := StubClassName(generator, service);
      builder.AddFunction(NewBlockingStub(stubClassName));
      var stub := new TypeSpecBuilder.ClassBuilder(stubClassName);
      stub.AddFunctions(abstractStubMembers);
      var _ := AddBlockingStubRpcCalls(stub, generator, service);
      assert stub.Build() == BlockingStubType(generator, service, abstractStubMembers);
      builder.AddType(stub.Build());
      return builder;
    } else {
      return builder;
    }
  }
}
