/** Name clashes among the functions of the stub class. Within one RPC the
    `Call` suffix keeps the two server-streaming functions apart, but the
    generator performs no check across RPCs: the stub's function names are
    distinct exactly when the names each RPC claims are pairwise disjoint. */
module BlockingStubNames {
  import opened Schema
  import opened Poet
  import opened BlockingStubGenerator

  /** The function names an RPC claims, read off its shape alone. */
  function ReservedNames(rpc: Rpc): set<string> {
    if ShapeOf(rpc) == ServerStreaming then {rpc.name, rpc.name + CallSuffix} else {rpc.name}
  }

  function ReservedUnion(rpcs: seq<Rpc>): set<string> {
    if rpcs == [] then {} else ReservedNames(rpcs[0]) + ReservedUnion(rpcs[1..])
  }

  function NameSet(fs: seq<FunSpec>): set<string> {
    set f | f in fs :: f.name
  }

  predicate DistinctNames(fs: seq<FunSpec>) {
    forall k, l :: 0 <= k < l < |fs| ==> fs[k].name != fs[l].name
  }

  predicate NamesDisjoint(rpcs: seq<Rpc>) {
    forall i, j :: 0 <= i < j < |rpcs| ==> ReservedNames(rpcs[i]) !! ReservedNames(rpcs[j])
  }

  /** One RPC's functions carry pairwise distinct names, and exactly the names it claims. */
  lemma RpcNames(generator: ClassNameGenerator, rpc: Rpc)
    requires Linked(rpc)
    ensures NameSet(RpcFunctions(generator, rpc)) == ReservedNames(rpc)
    ensures DistinctNames(RpcFunctions(generator, rpc))
  {
  }

  lemma NameSetAppend(front: seq<FunSpec>, back: seq<FunSpec>)
    ensures NameSet(front + back) == NameSet(front) + NameSet(back)
  {
  }

  /** The stub's function names are exactly the names its RPCs claim. */
  lemma {:induction false} AllNames(generator: ClassNameGenerator, rpcs: seq<Rpc>)
    requires AllLinked(rpcs)
    ensures NameSet(AllRpcFunctions(generator, rpcs)) == ReservedUnion(rpcs)
    decreases |rpcs|
  {
    if rpcs == [] {
      assert NameSet([]) == {};
    } else {
      assert forall rpc :: rpc in rpcs[1..] ==> rpc in rpcs;
      AllNames(generator, rpcs[1..]);
      RpcNames(generator, rpcs[0]);
      NameSetAppend(RpcFunctions(generator, rpcs[0]), AllRpcFunctions(generator, rpcs[1..]));
    }
  }

  lemma DistinctAppend(front: seq<FunSpec>, back: seq<FunSpec>)
    ensures DistinctNames(front + back)
            <==> DistinctNames(front) && DistinctNames(back) && NameSet(front) !! NameSet(back)
  {
    var all := front + back;
    if DistinctNames(all) {
      forall k, l | 0 <= k < l < |front| ensures front[k].name != front[l].name {
        assert all[k] == front[k] && all[l] == front[l];
      }
      forall k, l | 0 <= k < l < |back| ensures back[k].name != back[l].name {
        assert all[|front| + k] == back[k] && all[|front| + l] == back[l];
      }
      forall k, l | 0 <= k < |front| && 0 <= l < |back| ensures front[k].name != back[l].name {
        assert all[k] == front[k] && all[|front| + l] == back[l];
      }
      forall n | n in NameSet(front) ensures n !in NameSet(back) {
        var f :| f in front && f.name == n;
        var k :| 0 <= k < |front| && front[k] == f;
        forall g | g in back ensures g.name != n {
          var l :| 0 <= l < |back| && back[l] == g;
        }
      }
    }
    if DistinctNames(front) && DistinctNames(back) && NameSet(front) !! NameSet(back) {
      forall k, l | 0 <= k < l < |all| ensures all[k].name != all[l].name {
        if l < |front| {
          assert all[k] == front[k] && all[l] == front[l];
        } else if |front| <= k {
          assert all[k] == back[k - |front|] && all[l] == back[l - |front|];
        } else {
          assert all[k] == front[k] && all[l] == back[l - |front|];
          assert all[k].name in NameSet(front) && all[l].name in NameSet(back);
        }
      }
    }
  }

  lemma {:induction false} InReservedUnion(rpcs: seq<Rpc>, n: string)
    ensures n in ReservedUnion(rpcs) <==> exists j :: 0 <= j < |rpcs| && n in ReservedNames(rpcs[j])
    decreases |rpcs|
  {
    if rpcs != [] {
      InReservedUnion(rpcs[1..], n);
      if n in ReservedUnion(rpcs[1..]) {
        var j :| 0 <= j < |rpcs[1..]| && n in ReservedNames(rpcs[1..][j]);
        assert rpcs[1..][j] == rpcs[j + 1];
      }
      if exists j :: 0 <= j < |rpcs| && n in ReservedNames(rpcs[j]) {
        var j :| 0 <= j < |rpcs| && n in ReservedNames(rpcs[j]);
        if j > 0 {
          assert rpcs[1..][j - 1] == rpcs[j];
        }
      }
    }
  }

  lemma DisjointCons(rpcs: seq<Rpc>)
    requires rpcs != []
    ensures NamesDisjoint(rpcs)
            <==> ReservedNames(rpcs[0]) !! ReservedUnion(rpcs[1..]) && NamesDisjoint(rpcs[1..])
  {
    var rest := rpcs[1..];
    forall n ensures n in ReservedUnion(rest) <==> exists j :: 0 <= j < |rest| && n in ReservedNames(rest[j]) {
      InReservedUnion(rest, n);
    }
    if NamesDisjoint(rpcs) {
      forall i, j | 0 <= i < j < |rest| ensures ReservedNames(rest[i]) !! ReservedNames(rest[j]) {
        assert rest[i] == rpcs[i + 1] && rest[j] == rpcs[j + 1];
      }
      forall n | n in ReservedNames(rpcs[0]) ensures n !in ReservedUnion(rest) {
        forall j | 0 <= j < |rest| ensures n !in ReservedNames(rest[j]) {
          assert rest[j] == rpcs[j + 1];
        }
      }
    }
    if ReservedNames(rpcs[0]) !! ReservedUnion(rest) && NamesDisjoint(rest) {
      forall i, j | 0 <= i < j < |rpcs| ensures ReservedNames(rpcs[i]) !! ReservedNames(rpcs[j]) {
        assert rpcs[j] == rest[j - 1];
        if i > 0 {
          assert rpcs[i] == rest[i - 1];
        } else {
          forall n | n in ReservedNames(rpcs[j]) ensures n in ReservedUnion(rest) {
            assert n in ReservedNames(rest[j - 1]);
          }
        }
      }
    }
  }

  /** The stub's RPC functions have pairwise distinct names exactly when no
      two RPCs claim a common name. */
  lemma {:induction false} StubNamesDistinct(generator: ClassNameGenerator, rpcs: seq<Rpc>)
    requires AllLinked(rpcs)
    ensures DistinctNames(AllRpcFunctions(generator, rpcs)) <==> NamesDisjoint(rpcs)
    decreases |rpcs|
  {
    if rpcs != [] {
      var first := RpcFunctions(generator, rpcs[0]);
      assert forall rpc :: rpc in rpcs[1..] ==> rpc in rpcs;
      var rest := AllRpcFunctions(generator, rpcs[1..]);
      StubNamesDistinct(generator, rpcs[1..]);
      RpcNames(generator, rpcs[0]);
      AllNames(generator, rpcs[1..]);
      DistinctAppend(first, rest);
      DisjointCons(rpcs);
    }
  }

  /** Nothing stops a server-streaming RPC `Get` and another RPC `GetCall`
      from both producing a function named `GetCall`. Both also take the same
      `request` parameter, so they are conflicting overloads and the
      generated class does not compile. */
  lemma SuffixCollision(generator: ClassNameGenerator, message: ProtoType)
    ensures var rpcs := [Rpc("Get", Some(message), Some(message), false, true),
                         Rpc("GetCall", Some(message), Some(message), false, false)];
            AllLinked(rpcs) && !DistinctNames(AllRpcFunctions(generator, rpcs))
            && AllRpcFunctions(generator, rpcs)[1].name == AllRpcFunctions(generator, rpcs)[2].name
            && AllRpcFunctions(generator, rpcs)[1].parameters == AllRpcFunctions(generator, rpcs)[2].parameters
  {
    var rpcs := [Rpc("Get", Some(message), Some(message), false, true),
                 Rpc("GetCall", Some(message), Some(message), false, false)];
    assert rpcs[1..] == [rpcs[1]];
    assert [rpcs[1]][1..] == [];
    assert AllRpcFunctions(generator, [rpcs[1]]) == RpcFunctions(generator, rpcs[1]);
    var fs := AllRpcFunctions(generator, rpcs);
    assert fs == RpcFunctions(generator, rpcs[0]) + RpcFunctions(generator, rpcs[1]);
    assert fs[1].name == "Get" + CallSuffix == "GetCall" == fs[2].name;
    assert fs[1].parameters == fs[2].parameters;
  }

  /** Two RPCs under one name produce two functions under one name. */
  lemma SameNameCollision(generator: ClassNameGenerator, first: Rpc, second: Rpc)
    requires Linked(first) && Linked(second) && first.name == second.name
    ensures !DistinctNames(AllRpcFunctions(generator, [first, second]))
  {
    assert [first, second][1..] == [second];
    StubNamesDistinct(generator, [first, second]);
    assert first.name in ReservedNames(first) * ReservedNames(second);
  }
}
