/** What the events of the pool strategies do to the fields of the pools. */
module PoolsOnFields {
  import opened Model
  import opened Steps
  import opened Texts

  /** Pool p runs type t for the AppWrapper. */
  predicate RunsFor(pools: map<string, Pool>, id: AwId, t: string, p: string) {
    p in pools && pools[p].instanceType == t && HasLabelText(pools[p].labels, id)
  }

  lemma OwnedOnFields(pools: map<string, Pool>, id: AwId)
    ensures forall p | p in pools :: p in OwnedPools(pools, id) <==> HasLabelText(pools[p].labels, id)
    ensures forall t, p :: p in PoolsFor(pools, id, t) <==> RunsFor(pools, id, t, p)
  {
    TextsAreWritten(id);
  }

  /** A deletion pass, with any failures: a pool without the AppWrapper's label stays as it is, no pool comes or
      changes; and when no call fails, those with the label are gone. */
  lemma DropPoolsOnFields(c: Context, s: State, e: Event, s': State)
    requires Step(c, s, e, s') && e.DropPools?
    ensures forall p | p in s.pools && !HasLabelText(s.pools[p].labels, e.id) :: p in s'.pools
    ensures forall p | p in s'.pools :: p in s.pools && s'.pools[p] == s.pools[p]
    ensures e.clean ==> forall p | p in s'.pools :: !HasLabelText(s'.pools[p].labels, e.id)
    ensures s'.machineSets == s.machineSets && s'.machines == s.machines && s'.nodes == s.nodes
  {
    OwnedOnFields(s.pools, e.id);
  }

  /** A scaling pass: the pools there stay as they are; a new one has the label, a demanded type and the demanded
      replicas, is the only new one of that type, and is made only if a pool of the type for the AppWrapper has other
      replicas, or there is none and machines are demanded; when no call fails, one is made for every demanded
      type that has no pool. */
  lemma AddPoolsOnFields(c: Context, s: State, e: Event, s': State)
    requires Step(c, s, e, s') && e.AddPools?
    ensures e.id in s.aws
    ensures forall p | p in s.pools :: p in s'.pools && s'.pools[p] == s.pools[p]
    ensures forall p | p in s'.pools && p !in s.pools :: NewOnFields(s, DemandOf(s.aws[e.id]), e.id, s'.pools[p])
    ensures forall p, q | p in s'.pools && p !in s.pools && q in s'.pools && q !in s.pools
                          && s'.pools[p].instanceType == s'.pools[q].instanceType :: p == q
    ensures e.clean ==>
              forall t | t in DemandOf(s.aws[e.id]) && DemandOf(s.aws[e.id])[t] != 0 ::
                  exists p :: RunsFor(s'.pools, e.id, t, p)
    ensures s'.machineSets == s.machineSets && s'.machines == s.machines && s'.nodes == s.nodes
  {
    AddedOnFields(s, DemandOf(s.aws[e.id]), e, s');
  }

  ghost predicate NewOnFields(s: State, demand: map<string, int>, id: AwId, pool: Pool) {
    var t := pool.instanceType;
    && pool.labels == map[LabelText(id) := LabelText(id)] && t in demand && pool.replicas == demand[t]
    && (|| (exists p :: RunsFor(s.pools, id, t, p) && s.pools[p].replicas != demand[t])
        || (demand[t] != 0 && forall p :: !RunsFor(s.pools, id, t, p)))
  }

  lemma AddedOnFields(s: State, demand: map<string, int>, e: Event, s': State)
    requires e.AddPools? && PoolsAdded(s, demand, e, s')
    ensures forall p | p in s'.pools && p !in s.pools :: NewOnFields(s, demand, e.id, s'.pools[p])
    ensures e.clean ==> forall t | t in demand && demand[t] != 0 :: exists p :: RunsFor(s'.pools, e.id, t, p)
  {
    OwnedOnFields(s.pools, e.id);
    OwnedOnFields(s'.pools, e.id);
    forall p | p in s'.pools && p !in s.pools
      ensures NewOnFields(s, demand, e.id, s'.pools[p])
    {
      NewPoolOnFields(s, demand, e, p, s'.pools[p]);
    }
    if e.clean {
      forall t | t in demand && demand[t] != 0
        ensures exists p :: RunsFor(s'.pools, e.id, t, p)
      {
        SomePool(s, demand, e, s', t);
      }
    }
  }

  lemma NewPoolOnFields(s: State, demand: map<string, int>, e: Event, p: string, pool: Pool)
    requires e.AddPools? && p in e.pools && e.pools[p] in demand
             && pool == NewPool(e.id, e.pools[p], demand[e.pools[p]])
    requires MayDiffer(s.pools, e.id, e.pools[p], demand[e.pools[p]])
    ensures NewOnFields(s, demand, e.id, pool)
  {
    OwnedOnFields(s.pools, e.id);
    TextsAreWritten(e.id);
    var t := e.pools[p];
    if PoolsFor(s.pools, e.id, t) != {} {
      var q :| q in PoolsFor(s.pools, e.id, t) && s.pools[q].replicas != demand[t];
      assert RunsFor(s.pools, e.id, t, q);
    }
  }

  lemma SomePool(s: State, demand: map<string, int>, e: Event, s': State, t: string)
    requires e.AddPools? && e.clean && PoolsAdded(s, demand, e, s') && t in demand && demand[t] != 0
    ensures exists p :: RunsFor(s'.pools, e.id, t, p)
  {
    OwnedOnFields(s.pools, e.id);
    TextsAreWritten(e.id);
    if t in e.pools.Values {
      var p :| p in e.pools && e.pools[p] == t;
      assert RunsFor(s'.pools, e.id, t, p);
    } else {
      assert MayAgree(s.pools, e.id, t, demand[t]);
      var p :| p in PoolsFor(s.pools, e.id, t);
      assert RunsFor(s'.pools, e.id, t, p);
    }
  }
}
