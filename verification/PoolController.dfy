/** controllers/machinepools.go and controllers/nodepools.go. The two files run the same loops over two
    collections that differ in where a pool keeps its instance type; both are modelled here once. */
module PoolController {
  import opened GoPrimitives
  import opened Model
  import opened Steps
  import opened Cluster
  import opened ReuseController

  /** "%04x" of a number below 2^16. */
  function HexDigit(d: nat): char
    requires d < 16
  {
    if d < 10 then DigitChar(d) else ('a' as int + (d - 10)) as char
  }

  function Hex4(n: nat): (s: string)
    requires n < 0x1_0000
    ensures |s| == 4
  {
    [HexDigit(n / 0x1000), HexDigit(n / 0x100 % 0x10), HexDigit(n / 0x10 % 0x10), HexDigit(n % 0x10)]
  }

  /** The four digits, read in base 16, are the number. */
  lemma HexText(n: nat, a: nat, b: nat, c: nat, d: nat)
    requires a < 16 && b < 16 && c < 16 && d < 16 && n == 0x1000 * a + 0x100 * b + 0x10 * c + d
    ensures var digits := "0123456789abcdef";
            Hex4(n) == [digits[a], digits[b], digits[c], digits[d]]
  {
    QuotientIs(n, 0x1000, a, 0x100 * b + 0x10 * c + d);
    QuotientIs(n, 0x100, 0x10 * a + b, 0x10 * c + d);
    QuotientIs(n, 0x10, 0x100 * a + 0x10 * b + c, d);
    LastHexDigit(a, b);
    LastHexDigit(0x10 * a + b, c);
    LastHexDigit(0x100 * a + 0x10 * b + c, d);
    DigitsInHex(a, b, c, d);
  }

  lemma LastHexDigit(high: nat, low: nat)
    requires low < 0x10
    ensures (0x10 * high + low) % 0x10 == low
  {
  }

  lemma DigitsInHex(a: nat, b: nat, c: nat, d: nat)
    requires a < 16 && b < 16 && c < 16 && d < 16
    ensures var digits := "0123456789abcdef";
            HexDigit(a) == digits[a] && HexDigit(b) == digits[b] && HexDigit(c) == digits[c] && HexDigit(d) == digits[d]
  {
  }

  /** generateMachineName: the name is cut so that it fits the limit with its random suffix. */
  method GenerateMachineName(limit: int, awName: string) returns (name: string)
    requires limit >= 5
    ensures |name| == Min(|awName|, limit - 5) + 5 <= limit
    ensures exists r: nat :: r < 0x1_0000 && name == awName[..Min(|awName|, limit - 5)] + "-" + Hex4(r)
  {
    var maxBaseNameLength := limit - 4 - 1;
    var base := awName;
    if |base| > maxBaseNameLength {
      base := awName[..maxBaseNameLength];
    }
    var r: nat :| r < 0x1_0000;
    name := base + "-" + Hex4(r);
    assert base == awName[..Min(|awName|, limit - 5)];
  }

  /** The replicas of the first matching pool in the listing, 0 when there is none. */
  method FirstMatch(items: map<string, Pool>, id: AwId, t: string) returns (numberOfMachines: int)
    ensures if PoolsFor(items, id, t) == {} then numberOfMachines == 0
            else exists p | p in PoolsFor(items, id, t) :: items[p].replicas == numberOfMachines
    ensures var key := id.name + "-" + id.namespace;
            || (exists p :: p in items && items[p].instanceType == t && key in items[p].labels
                  && items[p].labels[key] == key && items[p].replicas == numberOfMachines)
            || (numberOfMachines == 0 && forall p | p in items && items[p].instanceType == t ::
                  key in items[p].labels ==> items[p].labels[key] != key)
  {
    numberOfMachines := 0;
    var todo := items.Keys;
    while todo != {}
      invariant todo <= items.Keys && numberOfMachines == 0
      invariant forall p | p in items && p !in todo :: p !in PoolsFor(items, id, t)
    {
      var p :| p in todo;
      todo := todo - {p};
      if items[p].instanceType == t && HasAwLabel(items[p].labels, id) {
        assert p in PoolsFor(items, id, t) && AwLabel(id) in items[p].labels;
        return items[p].replicas;
      }
    }
  }

  /** The pools after the types outside `todo` were handled; `added` maps each new pool to its type. */
  ghost predicate Adding(pools0: map<string, Pool>, demand: map<string, int>, id: AwId, todo: set<string>,
        added: map<string, string>, clean: bool, pools: map<string, Pool>) {
    && added.Keys !! pools0.Keys
    && (forall p | p in added ::
        added[p] in demand && added[p] !in todo && MayDiffer(pools0, id, added[p], demand[added[p]]))
    && (forall p, q | p in added && q in added && added[p] == added[q] :: p == q)
    && (clean ==> forall t | t in demand && t !in todo && t !in added.Values :: MayAgree(pools0, id, t, demand[t]))
    && pools.Keys == pools0.Keys + added.Keys
    && (forall p | p in pools0 :: pools[p] == pools0[p])
    && (forall p | p in added :: pools[p] == NewPool(id, added[p], demand[added[p]]))
  }

  /** Pools made for other types do not show in the search for this one. */
  lemma OthersInvisible(pools0: map<string, Pool>, demand: map<string, int>, id: AwId, todo: set<string>,
        added: map<string, string>, clean: bool, pools: map<string, Pool>, t: string)
    requires Adding(pools0, demand, id, todo, added, clean, pools) && t in todo
    ensures PoolsFor(pools, id, t) == PoolsFor(pools0, id, t)
  {
    forall p | p in pools
      ensures p in PoolsFor(pools, id, t) <==> p in PoolsFor(pools0, id, t)
    {
      if p in added {
        assert pools[p].instanceType == added[p];
      }
    }
  }

  lemma AddedOne(pools0: map<string, Pool>, demand: map<string, int>, id: AwId, todo: set<string>,
        added: map<string, string>, clean: bool, pools: map<string, Pool>, t: string, poolId: string)
    requires Adding(pools0, demand, id, todo, added, clean, pools)
    requires t in todo && t in demand && poolId !in pools && MayDiffer(pools0, id, t, demand[t])
    ensures Adding(pools0, demand, id, todo - {t}, added[poolId := t], clean,
              pools[poolId := NewPool(id, t, demand[t])])
  {
    var added' := added[poolId := t];
    assert added'[poolId] == t;
    forall u | u in added.Values
      ensures u in added'.Values
    {
      var p :| p in added && added[p] == u;
      assert added'[p] == u;
    }
  }

  lemma AddedNone(pools0: map<string, Pool>, demand: map<string, int>, id: AwId, todo: set<string>,
        added: map<string, string>, clean: bool, pools: map<string, Pool>, t: string)
    requires Adding(pools0, demand, id, todo, added, clean, pools)
    requires t in demand && (clean ==> MayAgree(pools0, id, t, demand[t]))
    ensures Adding(pools0, demand, id, todo - {t}, added, clean, pools)
  {
  }

  /** The body of the loop over the demand. Errors of the creation are only logged. */
  method ScaleOneType(k: Client, id: AwId, demand: map<string, int>, limit: int, t: string, todo: set<string>,
        ghost pools0: map<string, Pool>, ghost added: map<string, string>)
    returns (err: bool, ghost added': map<string, string>)
    requires limit >= 5 && t in demand && t in todo
    requires Adding(pools0, demand, id, todo, added, k.clean, k.pools)
    modifies k`pools, k`clean, k`listed
    ensures k.clean ==> old(k.clean) && !err
    ensures Adding(pools0, demand, id, if err then todo else todo - {t}, added', k.clean, k.pools)
  {
    added' := added;
    OthersInvisible(pools0, demand, id, todo, added, k.clean, k.pools, t);
    var replicas := demand[t];
    var ok, items := k.ListPools();
    if !ok {
      return true, added';
    }
    err := false;
    ghost var pools1 := k.pools;
    var numberOfMachines := FirstMatch(items, id, t);
    if numberOfMachines != replicas {
      assert MayDiffer(pools0, id, t, replicas);
      var poolId := GenerateMachineName(limit, id.name);
      var made := k.AddPool(poolId, NewPool(id, t, replicas));
      if made {
        AddedOne(pools0, demand, id, todo, added, old(k.clean), pools1, t, poolId);
        added' := added[poolId := t];
      } else {
        AddedNone(pools0, demand, id, todo, added, false, pools1, t);
      }
    } else {
      AddedNone(pools0, demand, id, todo, added, k.clean, pools1, t);
    }
  }

  /** The loop over the demand; it stops at a failed listing. */
  method ScaleTypes(k: Client, id: AwId, demand: map<string, int>, limit: int)
    returns (err: bool, ghost todo: set<string>, ghost added: map<string, string>)
    requires k.clean && limit >= 5
    modifies k`pools, k`clean, k`listed
    ensures k.clean ==> !err && todo == {}
    ensures Adding(old(k.pools), demand, id, todo, added, k.clean, k.pools)
  {
    added := map[];
    err := false;
    var types := demand.Keys;
    while types != {} && !err
      decreases |types|, !err
      invariant types <= demand.Keys
      invariant k.clean ==> !err
      invariant Adding(old(k.pools), demand, id, types, added, k.clean, k.pools)
    {
      var t :| t in types;
      err, added := ScaleOneType(k, id, demand, limit, t, types, old(k.pools), added);
      if !err {
        types := types - {t};
      }
    }
    todo := types;
  }

  /** scaleMachinePool, scaleNodePool */
  method ScalePools(k: Client, id: AwId, demand: map<string, int>, limit: int) returns (res: Result, ghost e: Event)
    requires k.clean && limit >= 5
    modifies k`pools, k`clean, k`connected, k`listed
    ensures e.AddPools? && e.id == id && e.clean == k.clean
    ensures PoolsAdded(old(k.State()), demand, e, k.State())
    ensures !res.Requeue? && (k.clean ==> res.Done?)
  {
    ghost var s, added: map<string, string> := k.State(), map[];
    var connected := k.Connect();
    if !connected {
      return Failed, AddPools(id, added, k.clean);
    }
    var err; ghost var todo;
    err, todo, added := ScaleTypes(k, id, demand, limit);
    res := if err then Failed else Done;
    e := AddPools(id, added, k.clean);
    AddingEnds(s, demand, todo, e, k.State());
  }

  lemma AddingEnds(s: State, demand: map<string, int>, todo: set<string>, e: Event, s': State)
    requires e.AddPools? && (e.clean ==> todo == {})
    requires Adding(s.pools, demand, e.id, todo, e.pools, e.clean, s'.pools) && s' == s.(pools := s'.pools)
    ensures PoolsAdded(s, demand, e, s')
  {
  }

  /** The report says of the connection and the listing what the client saw of them. */
  ghost predicate CallsSeen(k: Client, calls: PoolCalls)
    reads k
  {
    k.connected == Some(calls.connected) && (calls.connected ==> k.listed == Some(calls.listed))
  }

  /** deleteMachinePool, deleteNodePool: only a failed connection is an error. A failed listing passes for an
      empty one, and failed deletions are only logged, so that the finalizer is dropped all the same. */
  method DeletePools(k: Client, id: AwId) returns (err: bool, ghost calls: PoolCalls)
    requires k.clean
    modifies k`pools, k`clean, k`connected, k`listed
    ensures CallsSeen(k, calls)
    ensures err <==> !calls.connected
    ensures k.clean == (calls.connected && calls.listed && calls.refused == {})
    ensures PoolsDropped(old(k.State()), id, calls, k.State())
  {
    ghost var pools0 := k.pools;
    assert pools0 - {} == pools0;
    var connected := k.Connect();
    if !connected {
      return true, PoolCalls(false, false, {}, false);
    }
    err := false;
    var listed, items := k.ListPools();
    ghost var refused := {};
    var todo := items.Keys;
    while todo != {}
      invariant todo <= items.Keys && refused <= OwnedPools(items, id) - todo
      invariant k.clean == (listed && refused == {})
      invariant k.pools == pools0 - (OwnedPools(items, id) - todo - refused)
      invariant k.connected == Some(true) && k.listed == Some(listed)
    {
      var p :| p in todo;
      todo := todo - {p};
      if HasAwLabel(items[p].labels, id) {
        var ok := k.DeletePool(p);
        if !ok {
          refused := refused + {p};
        }
      }
    }
    calls := PoolCalls(true, listed, refused, false);
  }
}
