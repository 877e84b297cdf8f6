/** Whole runs of the machine pool and node pool strategies: at most one pool per type, nothing left to do
    after a clean pass, and pools that come and go without a trace as long as no deletion fails. */
module PoolRuns {
  import opened Model
  import opened Steps
  import opened Ledger
  import opened Lifecycle
  import opened FixedDemand
  import opened Texts

  predicate Pooled(c: Context) {
    c.backend.MachinePools? || c.backend.NodePools?
  }

  // ----- one pool per type -----

  /** id's pools run as many machines as are demanded, and there is at most one per type. */
  ghost predicate PoolsAgree(pools: map<string, Pool>, id: AwId, demand: map<string, int>) {
    && (forall p | p in OwnedPools(pools, id) ::
        pools[p].instanceType in demand && pools[p].replicas == demand[pools[p].instanceType])
    && (forall p, q | p in OwnedPools(pools, id) && q in OwnedPools(pools, id)
        && pools[p].instanceType == pools[q].instanceType :: p == q)
  }

  /** The rest of the cluster makes no pools for id and does not resize them. */
  ghost predicate PoolsLeftAlone(pools: map<string, Pool>, pools': map<string, Pool>, id: AwId) {
    forall p | p in OwnedPools(pools', id) :: p in pools && pools[p] == pools'[p]
  }

  lemma NewPoolIsOwned(id: AwId, other: AwId, t: string, d: int)
    ensures HasAwLabel(NewPool(other, t, d).labels, id) <==> AwLabel(other) == AwLabel(id)
  {
  }

  lemma PoolsStepAgree(c: Context, s: State, e: Event, s': State, id: AwId, demand: map<string, int>)
    requires Pooled(c) && Step(c, s, e, s') && Apart(e, id) && Demands(s, id, demand)
    requires e.Environment? ==> PoolsLeftAlone(s.pools, s'.pools, id)
    requires PoolsAgree(s.pools, id, demand)
    ensures PoolsAgree(s'.pools, id, demand)
  {
    if By(e, id) && e.AddPools? {
      AddingKeepsAgreement(s, demand, e, s', id);
    } else {
      OthersLeavePools(c, s, e, s', id);
      assert OwnedPools(s'.pools, id) <= OwnedPools(s.pools, id);
    }
  }

  lemma OthersLeavePools(c: Context, s: State, e: Event, s': State, id: AwId)
    requires Pooled(c) && Step(c, s, e, s') && Apart(e, id)
    requires e.Environment? ==> PoolsLeftAlone(s.pools, s'.pools, id)
    requires By(e, id) ==> !e.AddPools?
    ensures PoolsLeftAlone(s.pools, s'.pools, id)
  {
    match e {
      case AddPools(other, added, _) =>
        forall p | p in OwnedPools(s'.pools, id)
          ensures p in s.pools && s.pools[p] == s'.pools[p]
        {
          if p in added {
            NewPoolIsOwned(id, other, added[p], DemandOf(s.aws[other])[added[p]]);
          }
        }
      case _ =>
    }
  }

  lemma AddingKeepsAgreement(s: State, demand: map<string, int>, e: Event, s': State, id: AwId)
    requires e.AddPools? && e.id == id && PoolsAdded(s, demand, e, s') && PoolsAgree(s.pools, id, demand)
    ensures PoolsAgree(s'.pools, id, demand)
    ensures forall p | p in e.pools :: PoolsFor(s.pools, id, e.pools[p]) == {} && demand[e.pools[p]] != 0
  {
    forall p | p in e.pools
      ensures PoolsFor(s.pools, id, e.pools[p]) == {} && demand[e.pools[p]] != 0
    {
      assert MayDiffer(s.pools, id, e.pools[p], demand[e.pools[p]]);
    }
    forall p, q | p in OwnedPools(s'.pools, id) && q in OwnedPools(s'.pools, id)
        && s'.pools[p].instanceType == s'.pools[q].instanceType
      ensures p == q
    {
      OneOfType(s, demand, e, s', id, p, q);
      OneOfType(s, demand, e, s', id, q, p);
    }
  }

  lemma OneOfType(s: State, demand: map<string, int>, e: Event, s': State, id: AwId, p: string, q: string)
    requires e.AddPools? && e.id == id && PoolsAdded(s, demand, e, s')
    requires forall p | p in e.pools :: PoolsFor(s.pools, id, e.pools[p]) == {}
    requires p in OwnedPools(s'.pools, id) && q in OwnedPools(s'.pools, id)
             && s'.pools[p].instanceType == s'.pools[q].instanceType
    ensures p in e.pools ==> q in e.pools && p == q
  {
    assert q !in e.pools ==> q in PoolsFor(s.pools, id, s'.pools[q].instanceType);
  }

  /** Pools do not multiply. In every reachable state, under any failures of other calls, an AppWrapper with
      a fixed demand has at most one pool per type, and the pool's replicas are the demand. */
  lemma {:induction false} OnePoolPerType(c: Context, states: seq<State>, events: seq<Event>, id: AwId,
        demand: map<string, int>, k: nat)
    requires Pooled(c) && Run(c, states, events) && k <= |events|
    requires forall i | 0 <= i < |events| :: Apart(events[i], id)
    requires forall i | 0 <= i < |states| :: Demands(states[i], id, demand)
    requires forall i | 0 <= i < |events| && events[i].Environment? ::
               PoolsLeftAlone(states[i].pools, states[i + 1].pools, id)
    requires OwnedPools(states[0].pools, id) == {}
    ensures PoolsAgree(states[k].pools, id, demand)
  {
    if k > 0 {
      OnePoolPerType(c, states, events, id, demand, k - 1);
      LastStep(c, states, events, k);
      assert events[k - 1].Environment? ==> PoolsLeftAlone(states[k - 1].pools, states[k - 1 + 1].pools, id);
      PoolsStepAgree(c, states[k - 1], events[k - 1], states[k], id, demand);
    }
  }

  // ----- a repeated pass -----

  /** Every type of which machines are demanded has its pool. */
  ghost predicate EachHasPool(pools: map<string, Pool>, id: AwId, demand: map<string, int>) {
    forall t | t in demand :: demand[t] == 0 || PoolsFor(pools, id, t) != {}
  }

  /** After a clean pass every demanded type has its pool; and once that is so, a pass adds nothing. */
  lemma RepeatedPassChangesNothing(s: State, demand: map<string, int>, e: Event, s': State)
    requires e.AddPools? && PoolsAdded(s, demand, e, s') && PoolsAgree(s.pools, e.id, demand)
    ensures e.clean ==> EachHasPool(s'.pools, e.id, demand)
    ensures EachHasPool(s.pools, e.id, demand) ==> s' == s
  {
    AddingKeepsAgreement(s, demand, e, s', e.id);
    if e.clean {
      forall t | t in demand && demand[t] != 0
        ensures PoolsFor(s'.pools, e.id, t) != {}
      {
        CleanPassServes(s, demand, e, s', t);
      }
    }
    if EachHasPool(s.pools, e.id, demand) {
      assert e.pools.Keys == {};
    }
  }

  lemma CleanPassServes(s: State, demand: map<string, int>, e: Event, s': State, t: string)
    requires e.AddPools? && PoolsAdded(s, demand, e, s') && e.clean && t in demand && demand[t] != 0
    ensures PoolsFor(s'.pools, e.id, t) != {}
  {
    if t in e.pools.Values {
      var p :| p in e.pools && e.pools[p] == t;
      assert s'.pools[p] == NewPool(e.id, t, demand[t]);
      NewPoolServes(s'.pools, e.id, t, demand[t], p);
    } else {
      assert MayAgree(s.pools, e.id, t, demand[t]);
      var p :| p in PoolsFor(s.pools, e.id, t);
      OldPoolServes(s.pools, s'.pools, e.id, t, p);
    }
  }

  lemma NewPoolServes(pools: map<string, Pool>, id: AwId, t: string, d: int, p: string)
    requires p in pools && pools[p] == NewPool(id, t, d)
    ensures p in PoolsFor(pools, id, t)
  {
  }

  lemma OldPoolServes(pools: map<string, Pool>, pools': map<string, Pool>, id: AwId, t: string, p: string)
    requires p in PoolsFor(pools, id, t) && p in pools' && pools'[p] == pools[p]
    ensures p in PoolsFor(pools', id, t)
  {
  }

  // ----- conservation -----

  /** Pools come from the initial collection, unchanged, or were made for an AppWrapper that carries the
      finalizer; and none of the initial ones is missing. */
  ghost predicate PoolsAccounted(initial: map<string, Pool>, s: State) {
    && (forall p | p in initial :: p in s.pools && s.pools[p] == initial[p])
    && (forall p | p in s.pools && p !in initial :: PoolOfHeld(s, p))
  }

  ghost predicate PoolOfHeld(s: State, p: string)
    requires p in s.pools
  {
    exists id :: Held(s.aws, id) && s.pools[p].labels == map[AwLabel(id) := AwLabel(id)]
  }

  /** No pool of the initial collection carries the label of an AppWrapper. */
  ghost predicate NoneOwned(initial: map<string, Pool>) {
    forall p, id: AwId | p in initial :: !HasLabelText(initial[p].labels, id)
  }

  /** The event, if it is a deletion pass that drops the finalizer, listed the pools and deleted all it tried to. */
  predicate LosesNoPool(e: Event) {
    e.DropPools? && e.dropped ==> e.calls.listed && e.calls.refused == {}
  }

  lemma AccountedStep(c: Context, initial: map<string, Pool>, s: State, e: Event, s': State)
    requires Pooled(c) && Step(c, s, e, s') && NoneOwned(initial) && PoolsAccounted(initial, s)
    requires e.Environment? ==> s'.pools == s.pools
    requires LosesNoPool(e)
    ensures PoolsAccounted(initial, s')
  {
    forall p | p in initial
      ensures p in s'.pools && s'.pools[p] == initial[p]
    {
      InitialStays(c, initial, s, e, s', p);
    }
    forall p | p in s'.pools && p !in initial
      ensures PoolOfHeld(s', p)
    {
      if p in s.pools {
        OwnerStays(c, s, e, s', p);
      } else {
        assert e.AddPools? && p in e.pools && Held(s'.aws, e.id);
      }
    }
  }

  lemma NotOwned(initial: map<string, Pool>, p: string, id: AwId)
    requires NoneOwned(initial) && p in initial
    ensures p !in OwnedPools(initial, id)
  {
    TextsAreWritten(id);
    assert !HasLabelText(initial[p].labels, id);
  }

  lemma InitialStays(c: Context, initial: map<string, Pool>, s: State, e: Event, s': State, p: string)
    requires Pooled(c) && Step(c, s, e, s') && NoneOwned(initial)
    requires p in initial && p in s.pools && s.pools[p] == initial[p]
    requires e.Environment? ==> s'.pools == s.pools
    ensures p in s'.pools && s'.pools[p] == initial[p]
  {
    if e.DropPools? {
      NotOwned(initial, p, e.id);
    }
  }

  lemma OwnerStays(c: Context, s: State, e: Event, s': State, p: string)
    requires Pooled(c) && Step(c, s, e, s') && p in s.pools && p in s'.pools && PoolOfHeld(s, p)
    requires e.Environment? ==> s'.pools == s.pools
    requires LosesNoPool(e)
    ensures PoolOfHeld(s', p)
  {
    var id :| Held(s.aws, id) && s.pools[p].labels == map[AwLabel(id) := AwLabel(id)];
    OwnedPoolsStayHeld(c, s, e, s', p, id);
    assert s'.pools[p] == s.pools[p];
  }

  lemma OwnedPoolsStayHeld(c: Context, s: State, e: Event, s': State, p: string, id: AwId)
    requires Pooled(c) && Step(c, s, e, s') && LosesNoPool(e) && Held(s.aws, id)
    requires p in s'.pools && p in OwnedPools(s.pools, id)
    ensures Held(s'.aws, id)
  {
    if By(e, id) {
      OwnEventKeepsAw(c, s, e, s');
    } else {
      OthersKeepAw(c, s, e, s', id);
    }
  }

  /** Pools are conserved. From a cluster where no pool carries an AppWrapper's label, as long as no deletion
      pass that drops the finalizer fails to list or delete: the initial pools are there, unchanged, in every
      reachable state; and once no AppWrapper carries the finalizer any more, there are no others. */
  lemma PoolsAreRestored(c: Context, states: seq<State>, events: seq<Event>, k: nat)
    requires Pooled(c) && Run(c, states, events) && k <= |events|
    requires NoneOwned(states[0].pools)
    requires forall i | 0 <= i < |events| && events[i].Environment? :: states[i + 1].pools == states[i].pools
    requires forall i | 0 <= i < |events| :: LosesNoPool(events[i])
    ensures forall p | p in states[0].pools :: p in states[k].pools && states[k].pools[p] == states[0].pools[p]
    ensures (forall id :: !Held(states[k].aws, id)) ==> states[k].pools == states[0].pools
  {
    AccountedThroughout(c, states, events, k);
    if forall id :: !Held(states[k].aws, id) {
      NothingAdded(states[0].pools, states[k]);
    }
  }

  lemma NothingAdded(initial: map<string, Pool>, s: State)
    requires PoolsAccounted(initial, s) && forall id :: !Held(s.aws, id)
    ensures s.pools == initial
  {
    forall p | p in s.pools && p !in initial
      ensures false
    {
      PoolNeedsHolder(s, p);
    }
  }

  lemma PoolNeedsHolder(s: State, p: string)
    requires p in s.pools && PoolOfHeld(s, p)
    ensures exists id :: Held(s.aws, id)
  {
  }

  lemma {:induction false} AccountedThroughout(c: Context, states: seq<State>, events: seq<Event>, k: nat)
    requires Pooled(c) && Run(c, states, events) && k <= |events|
    requires NoneOwned(states[0].pools)
    requires forall i | 0 <= i < |events| && events[i].Environment? :: states[i + 1].pools == states[i].pools
    requires forall i | 0 <= i < |events| :: LosesNoPool(events[i])
    ensures PoolsAccounted(states[0].pools, states[k])
  {
    if k > 0 {
      AccountedThroughout(c, states, events, k - 1);
      LastStep(c, states, events, k);
      assert events[k - 1].Environment? ==> states[k - 1 + 1].pools == states[k - 1].pools;
      AccountedStep(c, states[0].pools, states[k - 1], events[k - 1], states[k]);
    }
  }

  // ----- deletion -----

  /** The pools that do not carry the AppWrapper's label. */
  function ForeignPools(pools: map<string, Pool>, id: AwId): map<string, Pool> {
    pools - OwnedPools(pools, id)
  }

  /** A deletion pass leaves all other pools as they are. It drops the finalizer if and only if the connection
      and the update of the AppWrapper succeed, whatever happens to the pools; and when it drops the
      finalizer, no own pool is left if and only if there was none, or the listing and all deletions succeeded. */
  lemma DeletionIsExact(c: Context, s: State, e: Event, s': State)
    requires Pooled(c) && Step(c, s, e, s') && e.DropPools?
    ensures ForeignPools(s'.pools, e.id) == ForeignPools(s.pools, e.id)
    ensures !Held(s'.aws, e.id) <==> e.calls.connected && e.calls.stored
    ensures !Held(s'.aws, e.id) ==>
              (OwnedPools(s'.pools, e.id) == {} <==>
                  OwnedPools(s.pools, e.id) == {} || (e.calls.listed && e.calls.refused == {}))
    ensures e.clean ==> OwnedPools(s'.pools, e.id) == {} && s'.pools == ForeignPools(s.pools, e.id)
  {
    assert OwnedPools(s'.pools, e.id) == OwnedPools(s.pools, e.id) - GonePools(s.pools, e.id, e.calls);
    WithoutMember(s.aws[e.id].finalizers, FINALIZER, FINALIZER);
  }

  /** Such passes exist: whether the listing or the deletion of its pool fails, a completed AppWrapper loses the
      finalizer and the pool stays. */
  lemma FailedDeletionLeaks(calls: PoolCalls)
    requires calls.connected && calls.stored
    requires if calls.listed then calls.refused == {"job-0001"} else calls.refused == {}
    ensures exists c, s, e, s' ::
              && Pooled(c) && Step(c, s, e, s') && e.DropPools? && e.calls == calls
              && Held(s.aws, e.id) && !Held(s'.aws, e.id) && OwnedPools(s'.pools, e.id) != {}
  {
    var c, s, id := Context(MachinePools, 3), OnePool(), AwId("job", "default");
    var e, s' := DropPools(id, calls, true, false), s.(aws := DropFinalizer(s.aws, id));
    assert s'.aws[id].finalizers == Without([FINALIZER], FINALIZER) == [];
    assert OwnedPools(s.pools, id) == {"job-0001"};
    assert s.pools - {} == s.pools;
    assert PoolsDropped(s, id, calls, s');
    PoolsAloneAreValid(s);
    PoolsAloneAreValid(s');
    assert Step(c, s, e, s');
  }

  lemma PoolsAloneAreValid(s: State)
    requires s.machineSets == map[] && s.machines == map[] && s.nodes == map[]
    requires forall id | id in s.aws :: id == AwId("job", "default") && s.aws[id].items == []
    ensures s.Valid()
  {
  }

  function OnePool(): State {
    var id := AwId("job", "default");
    State(map[id := AppWrapper(map[], [], COMPLETED, [], [FINALIZER], false)], map[], map[], map[],
          map["job-0001" := NewPool(id, "m5.xlarge", 1)])
  }
}
