/** Where each RPC's functions land in the stub class: in RPC order, each
    RPC's list kept whole, one function per RPC plus one more per
    server-streaming RPC. */
module BlockingStubLayout {
  import opened Schema
  import opened Poet
  import opened BlockingStubGenerator

  function ServerStreamingCount(rpcs: seq<Rpc>): nat {
    if rpcs == [] then 0
    else (if ShapeOf(rpcs[0]) == ServerStreaming then 1 else 0) + ServerStreamingCount(rpcs[1..])
  }

  /** The functions for a concatenation of RPC lists are those of each list, in order. */
  lemma {:induction false} AllRpcFunctionsAppend(generator: ClassNameGenerator, front: seq<Rpc>, back: seq<Rpc>)
    requires AllLinked(front) && AllLinked(back)
    ensures AllLinked(front + back)
    ensures AllRpcFunctions(generator, front + back)
            == AllRpcFunctions(generator, front) + AllRpcFunctions(generator, back)
    decreases |front|
  {
    if front == [] {
      assert front + back == back;
    } else {
      assert (front + back)[1..] == front[1..] + back;
      AllRpcFunctionsAppend(generator, front[1..], back);
    }
  }

  /** The stub has one function per RPC and a second one per server-streaming RPC. */
  lemma {:induction false} FunctionCount(generator: ClassNameGenerator, rpcs: seq<Rpc>)
    requires AllLinked(rpcs)
    ensures |AllRpcFunctions(generator, rpcs)| == |rpcs| + ServerStreamingCount(rpcs)
    decreases |rpcs|
  {
    if rpcs != [] {
      FunctionCount(generator, rpcs[1..]);
    }
  }

  /** Index of the first function that the RPC at `i` contributes. */
  function BlockStart(generator: ClassNameGenerator, rpcs: seq<Rpc>, i: nat): nat
    requires AllLinked(rpcs) && i <= |rpcs|
  {
    assert forall rpc :: rpc in rpcs[..i] ==> rpc in rpcs;
    |AllRpcFunctions(generator, rpcs[..i])|
  }

  /** The functions of the RPC at `i` sit, whole and unchanged, at `BlockStart(i)`. */
  lemma RpcBlock(generator: ClassNameGenerator, rpcs: seq<Rpc>, i: nat)
    requires AllLinked(rpcs) && i < |rpcs|
    ensures BlockStart(generator, rpcs, i) + |RpcFunctions(generator, rpcs[i])| == BlockStart(generator, rpcs, i + 1)
    ensures BlockStart(generator, rpcs, i + 1) <= |AllRpcFunctions(generator, rpcs)|
    ensures AllRpcFunctions(generator, rpcs)[BlockStart(generator, rpcs, i)..BlockStart(generator, rpcs, i + 1)]
            == RpcFunctions(generator, rpcs[i])
  {
    var front, back := rpcs[..i], rpcs[i + 1..];
    assert rpcs[..i + 1] == front + [rpcs[i]];
    assert rpcs == (front + [rpcs[i]]) + back;
    assert forall rpc :: rpc in front ==> rpc in rpcs;
    assert forall rpc :: rpc in back ==> rpc in rpcs;
    AllRpcFunctionsSnoc(generator, front, rpcs[i]);
    AllRpcFunctionsAppend(generator, front + [rpcs[i]], back);
  }

  /** Blocks never overlap, and an earlier RPC's block ends before a later one's begins. */
  lemma {:induction false} BlocksInOrder(generator: ClassNameGenerator, rpcs: seq<Rpc>, i: nat, j: nat)
    requires AllLinked(rpcs) && i < j <= |rpcs|
    ensures BlockStart(generator, rpcs, i) + |RpcFunctions(generator, rpcs[i])| <= BlockStart(generator, rpcs, j)
    decreases j - i
  {
    RpcBlock(generator, rpcs, i);
    if i + 1 < j {
      BlocksInOrder(generator, rpcs, i + 1, j);
      RpcBlock(generator, rpcs, i + 1);
    }
  }

  /** Every function in the stub is one that some RPC of the service contributes. */
  lemma {:induction false} FunctionOrigin(generator: ClassNameGenerator, rpcs: seq<Rpc>, k: nat)
    returns (i: nat)
    requires AllLinked(rpcs) && k < |AllRpcFunctions(generator, rpcs)|
    ensures i < |rpcs| && AllRpcFunctions(generator, rpcs)[k] in RpcFunctions(generator, rpcs[i])
    decreases |rpcs|
  {
    var first := RpcFunctions(generator, rpcs[0]);
    assert forall rpc :: rpc in rpcs[1..] ==> rpc in rpcs;
    assert AllRpcFunctions(generator, rpcs) == first + AllRpcFunctions(generator, rpcs[1..]);
    if k < |first| {
      i := 0;
    } else {
      var j := FunctionOrigin(generator, rpcs[1..], k - |first|);
      assert rpcs[1..][j] == rpcs[j + 1];
      i := j + 1;
    }
  }

  /** Every function in the stub was emitted for one of the service's RPCs:
      its name is that RPC's name, or that name with `Call` appended for a
      server-streaming RPC, and its call passes that RPC's method accessor
      (and `request` exactly when that RPC's request does not stream). */
  lemma FunctionProvenance(generator: ClassNameGenerator, rpcs: seq<Rpc>, k: nat)
    requires AllLinked(rpcs) && k < |AllRpcFunctions(generator, rpcs)|
    ensures exists i :: 0 <= i < |rpcs| &&
              (AllRpcFunctions(generator, rpcs)[k].name == rpcs[i].name ||
               (ShapeOf(rpcs[i]) == ServerStreaming && AllRpcFunctions(generator, rpcs)[k].name == rpcs[i].name + CallSuffix)) &&
              AllRpcFunctions(generator, rpcs)[k].code.args == HelperArgs(rpcs[i].name, !rpcs[i].requestStreaming)
  {
    var i := FunctionOrigin(generator, rpcs, k);
    var f := AllRpcFunctions(generator, rpcs)[k];
    var fs := RpcFunctions(generator, rpcs[i]);
    var m :| 0 <= m < |fs| && fs[m] == f;
    assert f.code.args == HelperArgs(rpcs[i].name, !rpcs[i].requestStreaming);
  }
}
