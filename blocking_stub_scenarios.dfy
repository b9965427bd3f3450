/** The blocking cases of the generator's tests: a service `TestService` in
    package `test` with one RPC `TestRPC` over the message `Test`, in each
    streaming combination. */
module BlockingStubScenarios {
  import opened Schema
  import opened Poet
  import opened BlockingStubGenerator

  const TestMessage := ProtoType("test", "Test")
  const TestClass := ClassName("test", [], "Test")
  const ServiceType := ProtoType("test", "TestService")

  /** Resolves every type of the test schema into package `test`. */
  function TestGenerator(): ClassNameGenerator {
    (t: ProtoType) => ClassName("test", [], t.simpleName)
  }

  function TestRpc(requestStreaming: bool, responseStreaming: bool): Rpc {
    Rpc("TestRPC", Some(TestMessage), Some(TestMessage), requestStreaming, responseStreaming)
  }

  lemma TestNames()
    ensures MethodAccessor("TestRPC") == "getTestRPCMethod"
    ensures "TestRPC" + CallSuffix == "TestRPCCall"
    ensures TestGenerator()(TestMessage) == TestClass
  {
  }

  /** `rpc TestRPC(Test) returns (stream Test)`: `TestRPC(request: Test): Iterator<Test>`
      and `TestRPCCall(request: Test): BlockingClientCall<Test, Test>`. */
  lemma ServerStreamingScenario()
    ensures RpcFunctions(TestGenerator(), TestRpc(false, true)) == [
      FunSpec("TestRPC", [ParamSpec("request", Class(TestClass))],
              Parameterized(ClassName("kotlin.collections", [], "Iterator"), [Class(TestClass)]),
              ReturnCall(MemberName(ClassName("io.grpc.stub", [], "ClientCalls"), "blockingServerStreamingCall"),
                         [Ref("channel"), Invoke("getTestRPCMethod"), Ref("callOptions"), Ref("request")])),
      FunSpec("TestRPCCall", [ParamSpec("request", Class(TestClass))],
              Parameterized(ClassName("io.grpc.stub", [], "BlockingClientCall"), [Class(TestClass), Class(TestClass)]),
              ReturnCall(MemberName(ClassName("io.grpc.stub", [], "ClientCalls"), "blockingV2ServerStreamingCall"),
                         [Ref("channel"), Invoke("getTestRPCMethod"), Ref("callOptions"), Ref("request")]))]
  {
    TestNames();
  }

  /** `rpc TestRPC(stream Test) returns (Test)`: `TestRPC(): BlockingClientCall<Test, Test>`. */
  lemma ClientStreamingScenario()
    ensures RpcFunctions(TestGenerator(), TestRpc(true, false)) == [
      FunSpec("TestRPC", [],
              Parameterized(ClassName("io.grpc.stub", [], "BlockingClientCall"), [Class(TestClass), Class(TestClass)]),
              ReturnCall(MemberName(ClassName("io.grpc.stub", [], "ClientCalls"), "blockingClientStreamingCall"),
                         [Ref("channel"), Invoke("getTestRPCMethod"), Ref("callOptions")]))]
  {
    TestNames();
  }

  /** `rpc TestRPC(stream Test) returns (stream Test)`: `TestRPC(): BlockingClientCall<Test, Test>`. */
  lemma BidiScenario()
    ensures RpcFunctions(TestGenerator(), TestRpc(true, true)) == [
      FunSpec("TestRPC", [],
              Parameterized(ClassName("io.grpc.stub", [], "BlockingClientCall"), [Class(TestClass), Class(TestClass)]),
              ReturnCall(MemberName(ClassName("io.grpc.stub", [], "ClientCalls"), "blockingBidiStreamingCall"),
                         [Ref("channel"), Invoke("getTestRPCMethod"), Ref("callOptions")]))]
  {
    TestNames();
  }

  /** Applies `AddBlockingStub` to an empty `TestServiceWireGrpc` builder for the
      server-streaming service with the blocking call style. The nested class
      begins with what `addAbstractStubConstructor` contributes, given here
      as `abstractStubMembers`. */
  method GenerateServerStreamingService(abstractStubMembers: seq<FunSpec>) returns (wireGrpc: TypeSpec)
    ensures wireGrpc.name == "TestServiceWireGrpc"
    ensures wireGrpc.funSpecs == [
      FunSpec("newBlockingStub", [ParamSpec("channel", Class(ClassName("io.grpc", [], "Channel")))],
              Class(ClassName("test", ["TestServiceWireGrpc"], "TestServiceBlockingStub")),
              ReturnNew(ClassName("test", ["TestServiceWireGrpc"], "TestServiceBlockingStub"), [Ref("channel")]))]
    ensures |wireGrpc.typeSpecs| == 1
    ensures wireGrpc.typeSpecs[0].name == "TestServiceBlockingStub"
    ensures wireGrpc.typeSpecs[0].funSpecs
            == abstractStubMembers + RpcFunctions(TestGenerator(), TestRpc(false, true))
  {
    var service := Service(ServiceType, [TestRpc(false, true)]);
    var builder := new TypeSpecBuilder.ClassBuilder(ClassName("test", [], "TestServiceWireGrpc"));
    var _ := AddBlockingStub(TestGenerator(), builder, service, Options(false, false), abstractStubMembers);
    assert service.rpcs[1..] == [];
    assert AllRpcFunctions(TestGenerator(), service.rpcs) == RpcFunctions(TestGenerator(), TestRpc(false, true));
    assert "TestService" + "WireGrpc" == "TestServiceWireGrpc";
    assert "TestService" + "BlockingStub" == "TestServiceBlockingStub";
    wireGrpc := builder.Build();
  }

  /** With suspending calls configured, `addBlockingStub` adds nothing. */
  method GenerateSuspendingService(abstractStubMembers: seq<FunSpec>) returns (wireGrpc: TypeSpec)
    ensures wireGrpc == TypeSpec("TestServiceWireGrpc", [], [])
  {
    var service := Service(ServiceType, [TestRpc(false, true)]);
    var builder := new TypeSpecBuilder.ClassBuilder(ClassName("test", [], "TestServiceWireGrpc"));
    var _ := AddBlockingStub(TestGenerator(), builder, service, Options(false, true), abstractStubMembers);
    wireGrpc := builder.Build();
  }
}
