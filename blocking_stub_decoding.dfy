/** Reading a generated stub back. From the functions alone one recovers,
    RPC by RPC and in order, each RPC's name (from the method accessor its
    call passes), its shape (from the `ClientCalls` helper called) and its
    resolved request and response classes (from the signature). The
    generator therefore loses none of these, and keeps the RPC order. */
module BlockingStubDecoding {
  import opened Schema
  import opened Poet
  import opened BlockingStubGenerator

  /** What a client of the stub can tell about one RPC. */
  datatype RpcView = RpcView(name: string, shape: Shape, request: ClassName, response: ClassName)

  function View(generator: ClassNameGenerator, rpc: Rpc): RpcView
    requires Linked(rpc)
  {
    RpcView(rpc.name, ShapeOf(rpc), RequestClass(generator, rpc), ResponseClass(generator, rpc))
  }

  function Views(generator: ClassNameGenerator, rpcs: seq<Rpc>): seq<RpcView>
    requires AllLinked(rpcs)
  {
    if rpcs == [] then [] else [View(generator, rpcs[0])] + Views(generator, rpcs[1..])
  }

  /** The RPC name inside an accessor name `get<name>Method`. */
  function ParseAccessor(accessor: string): Option<string> {
    if |accessor| >= 9 && accessor[..3] == "get" && accessor[|accessor| - 6..] == "Method"
    then Some(accessor[3..|accessor| - 6])
    else None
  }

  /** Every accessor name parses back to the RPC name it was built from. */
  lemma AccessorRoundTrip(rpcName: string)
    ensures ParseAccessor(MethodAccessor(rpcName)) == Some(rpcName)
  {
  }

  /** Whatever parses is an accessor name, rebuilt exactly from what it parses to. */
  lemma ParsedAccessorRebuilds(accessor: string, rpcName: string)
    requires ParseAccessor(accessor) == Some(rpcName)
    ensures MethodAccessor(rpcName) == accessor
  {
  }

  /** The shape whose first function calls the given `ClientCalls` helper. */
  function HelperShape(helper: string): Option<Shape> {
    if helper == BlockingUnaryCall then Some(Unary)
    else if helper == BlockingClientStreamingCall then Some(ClientStreaming)
    else if helper == BlockingServerStreamingCall then Some(ServerStreaming)
    else if helper == BlockingBidiStreamingCall then Some(Bidi)
    else None
  }

  /** Request and response classes as the signature of a function of the given shape shows them. */
  function SignatureTypes(f: FunSpec, shape: Shape): Option<(ClassName, ClassName)> {
    match shape
    case Unary =>
      if |f.parameters| == 1 && f.parameters[0].paramType.Class? && f.returnType.Class?
      then Some((f.parameters[0].paramType.className, f.returnType.className))
      else None
    case ServerStreaming =>
      if |f.parameters| == 1 && f.parameters[0].paramType.Class?
         && f.returnType.Parameterized? && f.returnType.rawType == IteratorClass
         && |f.returnType.typeArguments| == 1 && f.returnType.typeArguments[0].Class?
      then Some((f.parameters[0].paramType.className, f.returnType.typeArguments[0].className))
      else None
    case _ =>
      if f.parameters == []
         && f.returnType.Parameterized? && f.returnType.rawType == BlockingClientCall
         && |f.returnType.typeArguments| == 2
         && f.returnType.typeArguments[0].Class? && f.returnType.typeArguments[1].Class?
      then Some((f.returnType.typeArguments[0].className, f.returnType.typeArguments[1].className))
      else None
  }

  /** Reads one RPC back from the first function it contributed. */
  function DecodeFunction(f: FunSpec): Option<RpcView> {
    if !f.code.ReturnCall? || f.code.member.enclosingClassName != ClientCalls
       || |f.code.args| < 2 || !f.code.args[1].Invoke?
    then None
    else
      match ParseAccessor(f.code.args[1].callee)
      case None => None
      case Some(name) =>
        if name != f.name then None
        else
          match HelperShape(f.code.member.simpleName)
          case None => None
          case Some(shape) =>
            match SignatureTypes(f, shape)
            case None => None
            case Some(types) => Some(RpcView(name, shape, types.0, types.1))
  }

  function BlockSize(shape: Shape): nat {
    if shape == ServerStreaming then 2 else 1
  }

  /** Reads every RPC back, in order, from a stub's functions. */
  function DecodeStub(fs: seq<FunSpec>): Option<seq<RpcView>>
    decreases |fs|
  {
    if fs == [] then Some([])
    else
      match DecodeFunction(fs[0])
      case None => None
      case Some(view) =>
        if |fs| < BlockSize(view.shape) then None
        else if view.shape == ServerStreaming && fs[1].name != view.name + CallSuffix then None
        else
          match DecodeStub(fs[BlockSize(view.shape)..])
          case None => None
          case Some(views) => Some([view] + views)
  }

  /** The first function of every RPC reads back as that RPC. */
  lemma DecodeRpcFunctions(generator: ClassNameGenerator, rpc: Rpc)
    requires Linked(rpc)
    ensures DecodeFunction(RpcFunctions(generator, rpc)[0]) == Some(View(generator, rpc))
    ensures |RpcFunctions(generator, rpc)| == BlockSize(ShapeOf(rpc))
  {
  }

  /** Decoding a generated stub gives back every RPC's view, in RPC order. */
  lemma {:induction false} DecodeStubRoundTrip(generator: ClassNameGenerator, rpcs: seq<Rpc>)
    requires AllLinked(rpcs)
    ensures DecodeStub(AllRpcFunctions(generator, rpcs)) == Some(Views(generator, rpcs))
    decreases |rpcs|
  {
    if rpcs != [] {
      var first := RpcFunctions(generator, rpcs[0]);
      assert forall rpc :: rpc in rpcs[1..] ==> rpc in rpcs;
      var rest := AllRpcFunctions(generator, rpcs[1..]);
      var fs := AllRpcFunctions(generator, rpcs);
      assert fs == first + rest;
      DecodeRpcFunctions(generator, rpcs[0]);
      assert fs[0] == first[0];
      assert fs[|first|..] == rest;
      if ShapeOf(rpcs[0]) == ServerStreaming {
        assert fs[1] == first[1];
      }
      DecodeStubRoundTrip(generator, rpcs[1..]);
    }
  }
}
