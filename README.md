# Blocking gRPC client stub generator, modelled in Dafny

This project models `BlockingStubGenerator`, the part of the Wire gRPC server
generator that emits the *blocking* client stub of a service. Given a service, the
generator does the following:

- When suspending calls are configured, it leaves the `<Service>WireGrpc` builder
  untouched.
- Otherwise it adds a `newBlockingStub(channel)` factory and a nested
  `<Service>BlockingStub` class.
- It walks the service's RPCs in order. Each RPC's two streaming flags sort it into
  one of four shapes: unary, client-streaming, server-streaming or bidirectional.
- For each RPC it adds that shape's functions to the nested class. Each function
  returns the result of an `io.grpc.stub.ClientCalls` helper. The helper receives
  `(channel, get<Rpc>Method(), callOptions)`, followed by `request` whenever the
  function takes one.

The output of KotlinPoet is represented as plain data: class names, type names,
parameters and the single `return` call of each function. A `TypeSpecBuilder`
class holds the functions and nested types that are added to it in place.

Files:

- `schema.dfy`: the service, its RPCs and the options.
- `poet.dfy`: the output data and the builder class.
- `blocking_stub_generator.dfy`: the shape classifier, the four per-shape emitters
  (pure functions), and the two builder-mutating operations (methods with loops).
- `blocking_stub_layout.dfy`: RPC order, whole blocks and the function count.
- `blocking_stub_names.dfy`: when the stub's function names clash.
- `blocking_stub_decoding.dfy`: reading a stub back. This is the inverse of the
  generator: from the functions alone it recovers each RPC's name, shape and
  resolved types, in order.
- `blocking_stub_scenarios.dfy`: the blocking cases of the generator's tests.

`BlockingStubGenerator` makes no check for duplicate RPC names, and the model
follows the code.
`BlockingStubNames.StubNamesDistinct` states exactly when the generated names are
distinct. `BlockingStubNames.SuffixCollision` and
`BlockingStubNames.SameNameCollision` give inputs that produce two functions with
the same name.

## Model

| member | source | states |
|---|---|---|
| `BlockingStubGenerator.Classify` | server-generator/src/main/java/com/squareup/wire/kotlin/grpcserver/BlockingStubGenerator.kt:77-82 | the `when` cascade is the full 2×2 table: each shape is chosen exactly when its pair of streaming flags holds (both directions), so exactly one shape applies to every RPC |
| `BlockingStubGenerator.UnaryFunctions` | server-generator/src/main/java/com/squareup/wire/kotlin/grpcserver/BlockingStubGenerator.kt:89-101 | one function named after the RPC, taking `request` of the resolved request class, returning the resolved response class, delegating to `blockingUnaryCall(channel, get<name>Method(), callOptions, request)` |
| `BlockingStubGenerator.ServerStreamingFunctions` | server-generator/src/main/java/com/squareup/wire/kotlin/grpcserver/BlockingStubGenerator.kt:104-135 | exactly two functions: `<name>` returning `Iterator<Res>` via `blockingServerStreamingCall`, then `<name>Call` returning `BlockingClientCall<Req, Res>` via `blockingV2ServerStreamingCall`; both take `request`; their names and their return types differ |
| `BlockingStubGenerator.ClientStreamingFunctions` | server-generator/src/main/java/com/squareup/wire/kotlin/grpcserver/BlockingStubGenerator.kt:138-156 | one function named after the RPC with no parameters, returning `BlockingClientCall<Req, Res>`, delegating to `blockingClientStreamingCall` without `request` |
| `BlockingStubGenerator.BidiFunctions` | server-generator/src/main/java/com/squareup/wire/kotlin/grpcserver/BlockingStubGenerator.kt:158-176 | one function named after the RPC with no parameters, returning `BlockingClientCall<Req, Res>`, delegating to `blockingBidiStreamingCall` without `request` |
| `BlockingStubGenerator.RpcFunctions` | server-generator/src/main/java/com/squareup/wire/kotlin/grpcserver/BlockingStubGenerator.kt:77-84 | an RPC gets two functions if server-streaming and one otherwise; the first is named after the RPC, the second `<name>Call`; a function has no parameters exactly when the request streams; every call goes to `ClientCalls` through the RPC's own method accessor and passes `request` exactly when the request does not stream |
| `BlockingStubGenerator.StubClassName` | server-generator/src/main/java/com/squareup/wire/kotlin/grpcserver/BlockingStubGenerator.kt:41-46 | the stub class is `<Service>BlockingStub` nested in `<Service>WireGrpc`, in the service class's package |
| `BlockingStubGenerator.NewBlockingStub` | server-generator/src/main/java/com/squareup/wire/kotlin/grpcserver/BlockingStubGenerator.kt:48-54 | the factory is `newBlockingStub`, takes one `channel: io.grpc.Channel`, returns the stub class and constructs it from `channel` |
| `BlockingStubGenerator.BlockingStubType` | server-generator/src/main/java/com/squareup/wire/kotlin/grpcserver/BlockingStubGenerator.kt:55-68 | the nested type carries the stub class's simple name, which the factory returns; its functions are the abstract-stub members followed by all RPC functions; it has no nested types |
| `BlockingStubGenerator.MethodAccessor` | server-generator/src/main/java/com/squareup/wire/kotlin/grpcserver/BlockingStubGenerator.kt:92 | the accessor name is `get`, then the RPC name unchanged, then `Method`, nine characters longer than the name |
| `BlockingStubGenerator.AllRpcFunctions` | server-generator/src/main/java/com/squareup/wire/kotlin/grpcserver/BlockingStubGenerator.kt:75-85 | the `forEach` walk yields at least one and at most two functions per RPC, and the first is named after the first RPC; order, whole blocks, exact count and provenance are the `BlockingStubLayout` lemmas |
| `BlockingStubGenerator.AllRpcFunctionsSnoc` | server-generator/src/main/java/com/squareup/wire/kotlin/grpcserver/BlockingStubGenerator.kt:75-85 | handling one more RPC appends exactly that RPC's functions |
| `BlockingStubGenerator.AddBlockingStubRpcCalls` | server-generator/src/main/java/com/squareup/wire/kotlin/grpcserver/BlockingStubGenerator.kt:74-87 | the builder's functions become the old ones followed by every RPC's functions in RPC order; its nested types are unchanged; the builder itself is returned |
| `BlockingStubGenerator.AddBlockingStub` | server-generator/src/main/java/com/squareup/wire/kotlin/grpcserver/BlockingStubGenerator.kt:34-72 | with suspending calls the builder is returned unchanged; otherwise exactly one function (`newBlockingStub`) and exactly one nested type (the stub class) are appended |
| `BlockingStubLayout.AllRpcFunctionsAppend` | server-generator/src/main/java/com/squareup/wire/kotlin/grpcserver/BlockingStubGenerator.kt:75-85 | the functions for a concatenation of RPC lists are those of each part, in order |
| `BlockingStubLayout.FunctionCount` | server-generator/src/main/java/com/squareup/wire/kotlin/grpcserver/BlockingStubGenerator.kt:75-85 | the number of RPC functions is the number of RPCs plus the number of server-streaming RPCs |
| `BlockingStubLayout.RpcBlock` | server-generator/src/main/java/com/squareup/wire/kotlin/grpcserver/BlockingStubGenerator.kt:84 | each RPC's function list appears whole and unchanged in the stub, starting right after the functions of the RPCs before it |
| `BlockingStubLayout.BlocksInOrder` | server-generator/src/main/java/com/squareup/wire/kotlin/grpcserver/BlockingStubGenerator.kt:75-76 | an earlier RPC's functions all come before a later RPC's |
| `BlockingStubLayout.FunctionOrigin` | server-generator/src/main/java/com/squareup/wire/kotlin/grpcserver/BlockingStubGenerator.kt:75-85 | every stub function is one of the functions that some RPC of the service contributes, and the lemma names that RPC |
| `BlockingStubLayout.FunctionProvenance` | server-generator/src/main/java/com/squareup/wire/kotlin/grpcserver/BlockingStubGenerator.kt:89-176 | every stub function was emitted for one of the service's RPCs: it is named after that RPC, or after it with `Call` for a server-streaming RPC, and its call passes `(channel, get<name>Method(), callOptions)` for that RPC, plus `request` exactly when that RPC's request does not stream |
| `BlockingStubNames.RpcNames` | server-generator/src/main/java/com/squareup/wire/kotlin/grpcserver/BlockingStubGenerator.kt:122-124 | one RPC's functions have pairwise distinct names, and these are exactly the names it claims (`<name>`, plus `<name>Call` when server-streaming) |
| `BlockingStubNames.AllNames` | server-generator/src/main/java/com/squareup/wire/kotlin/grpcserver/BlockingStubGenerator.kt:75-85 | the stub's function names are exactly the union of the names its RPCs claim |
| `BlockingStubNames.StubNamesDistinct` | server-generator/src/main/java/com/squareup/wire/kotlin/grpcserver/BlockingStubGenerator.kt:74-87 | the stub's RPC functions have pairwise distinct names if and only if no two RPCs claim a common name |
| `BlockingStubNames.SuffixCollision` | server-generator/src/main/java/com/squareup/wire/kotlin/grpcserver/BlockingStubGenerator.kt:124 | a server-streaming RPC `Get` next to an RPC `GetCall` yields two functions named `GetCall` with the same `request` parameter: conflicting overloads |
| `BlockingStubNames.SameNameCollision` | server-generator/src/main/java/com/squareup/wire/kotlin/grpcserver/BlockingStubGenerator.kt:75-85 | two RPCs with one name yield two functions with one name: no duplicate check is made |
| `BlockingStubDecoding.AccessorRoundTrip` | server-generator/src/main/java/com/squareup/wire/kotlin/grpcserver/BlockingStubGenerator.kt:92 | the accessor name `get<name>Method` parses back to the RPC name |
| `BlockingStubDecoding.ParsedAccessorRebuilds` | server-generator/src/main/java/com/squareup/wire/kotlin/grpcserver/BlockingStubGenerator.kt:141 | anything that parses as an accessor name is exactly the accessor of the name it parses to |
| `BlockingStubDecoding.DecodeRpcFunctions` | server-generator/src/main/java/com/squareup/wire/kotlin/grpcserver/BlockingStubGenerator.kt:77-82 | an RPC's first function reads back as the RPC's name, shape and resolved request and response classes; the shape's block size is the number of functions emitted |
| `BlockingStubDecoding.DecodeStubRoundTrip` | server-generator/src/main/java/com/squareup/wire/kotlin/grpcserver/BlockingStubGenerator.kt:74-87 | decoding the stub's RPC functions yields every RPC's name, shape and types, in RPC order |
| `BlockingStubScenarios.ServerStreamingScenario` | server-generator/src/test/java/com/squareup/wire/kotlin/grpcserver/StubTest.kt:207-221 | `rpc TestRPC(Test) returns (stream Test)` gives `TestRPC(request: Test): Iterator<Test>` and `TestRPCCall(request: Test): BlockingClientCall<Test, Test>` with their helpers |
| `BlockingStubScenarios.ClientStreamingScenario` | server-generator/src/test/java/com/squareup/wire/kotlin/grpcserver/StubTest.kt:223-237 | `rpc TestRPC(stream Test) returns (Test)` gives `TestRPC(): BlockingClientCall<Test, Test>` via `blockingClientStreamingCall` |
| `BlockingStubScenarios.BidiScenario` | server-generator/src/test/java/com/squareup/wire/kotlin/grpcserver/StubTest.kt:191-205 | `rpc TestRPC(stream Test) returns (stream Test)` gives `TestRPC(): BlockingClientCall<Test, Test>` via `blockingBidiStreamingCall` |
| `BlockingStubScenarios.GenerateServerStreamingService` | server-generator/src/main/java/com/squareup/wire/kotlin/grpcserver/BlockingStubGenerator.kt:34-72 | `addBlockingStub` applied to an empty `TestServiceWireGrpc` builder, for the service of StubTest.kt:207-221 (`rpc TestRPC(Test) returns (stream Test)`) with the blocking call style, adds exactly `newBlockingStub(channel): TestServiceWireGrpc.TestServiceBlockingStub` and one nested type `TestServiceBlockingStub`; that type holds the abstract-stub members and then the two server-streaming functions |
| `BlockingStubScenarios.GenerateSuspendingService` | server-generator/src/main/java/com/squareup/wire/kotlin/grpcserver/BlockingStubGenerator.kt:69-71 | with suspending calls configured, the `TestServiceWireGrpc` type has no functions and no nested types |
| `Poet.TypeSpecBuilder.ClassBuilder` | server-generator/src/main/java/com/squareup/wire/kotlin/grpcserver/BlockingStubGenerator.kt:56 | a class builder starts empty and takes the class's simple name |
| `Poet.TypeSpecBuilder.AddFunction` | server-generator/src/main/java/com/squareup/wire/kotlin/grpcserver/BlockingStubGenerator.kt:84 | `addFunction` appends one function and leaves the nested types alone |
| `Poet.TypeSpecBuilder.AddFunctions` | server-generator/src/main/java/com/squareup/wire/kotlin/grpcserver/BlockingStubGenerator.kt:57-65 | appends the given functions in order and leaves the nested types alone; used for the abstract-stub members |
| `Poet.TypeSpecBuilder.AddType` | server-generator/src/main/java/com/squareup/wire/kotlin/grpcserver/BlockingStubGenerator.kt:55 | `addType` appends one nested type and leaves the functions alone |
| `Poet.TypeSpecBuilder.Build` | server-generator/src/main/java/com/squareup/wire/kotlin/grpcserver/BlockingStubGenerator.kt:67 | `build()` yields a type under the builder's name holding exactly the functions and nested types added so far, in the order added |

## Left out

- `classNameFor` is not defined here. It is a function parameter (`ClassNameGenerator`), so every property holds for any resolver. `buildClassMap` is not part of this model.
- `ClassName.bestGuess(x.toString())` is applied to the request class. The model uses the resolved class itself. That matches KotlinPoet for conventionally named classes only; the round trip inside KotlinPoet is not modelled.
- `StubGenerator.addAbstractStubConstructor` is not part of this model. It supplies the stub class's constructors, superclass and `build` override. Its contribution enters as an input, `abstractStubMembers`, which is added to the nested builder before the RPC functions.
- The `!!` on a missing request or response type is a precondition (`Linked`), not an error path. So the model does not capture one detail of the source: if the exception were thrown, `newBlockingStub` would already have been added.
- `Options.singleMethodServices` is carried but not read, because this file does not read it.
- KotlinPoet's rendering is not modelled: text, imports, visibility modifiers and the `%M`/`%T` format. Functions are plain data.
- The suspending stub emitter (`StubGenerator.addStub`) is not part of this model.
