/** The parts of the Wire schema that the blocking stub generator reads:
    a service, its RPCs in declaration order, and the generator options. */
module Schema {

  /** Kotlin's nullable reference `T?`. */
  datatype Option<+T> = None | Some(value: T)

  /** A message type as the schema names it; resolved to an output class by
      a `ClassNameGenerator`. */
  datatype ProtoType = ProtoType(enclosingName: string, simpleName: string)

  /** One RPC. `requestType` and `responseType` are nullable in the schema:
      they are null only before the schema is linked. */
  datatype Rpc = Rpc(
    name: string,
    requestType: Option<ProtoType>,
    responseType: Option<ProtoType>,
    requestStreaming: bool,
    responseStreaming: bool)

  /** A service: its own type and its RPCs, in declaration order. */
  datatype Service = Service(serviceType: ProtoType, rpcs: seq<Rpc>)

  /** `KotlinGrpcGenerator.Companion.Options`. */
  datatype Options = Options(singleMethodServices: bool, suspendingCalls: bool)

  /** Both message types are present, so the generator's `!!` cannot throw. */
  predicate Linked(rpc: Rpc) {
    rpc.requestType.Some? && rpc.responseType.Some?
  }

  predicate AllLinked(rpcs: seq<Rpc>) {
    forall rpc :: rpc in rpcs ==> Linked(rpc)
  }
}
