/** Finalisation is idempotent: an AppWrapper that stays completed is adopted and finalised again and
    again, but after the first time nothing of its own is left to undo, whichever the backend. */
module Finalisation {
  import opened Model
  import opened Steps
  import opened Effects
  import opened Ledger
  import opened Lifecycle
  import opened PoolRuns

  /** No MachineSet carries id's claim or copy label, no pool its label: what the backend in use creates. */
  ghost predicate OwnsNothing(c: Context, s: State, id: AwId) {
    match c.backend
    case Reuse => Holders(s.machineSets, ClaimKey(id)) == {}
    case Duplicate => Copies(s.machineSets, id) == {}
    case MachinePools => OwnedPools(s.pools, id) == {}
    case NodePools => OwnedPools(s.pools, id) == {}
    case Unsupported => true
  }

  /** The AppWrapper, if still stored, is completed or being deleted. */
  predicate Over(s: State, id: AwId) {
    id in s.aws ==> Ending(s.aws[id])
  }

  /** A finalisation that drops the finalizer leaves nothing behind. A pass over pools drops it even when a
      listing or a deletion failed, which is excluded here. */
  lemma FinalisedOwnsNothing(c: Context, s: State, e: Event, s': State)
    requires Step(c, s, e, s') && !e.Environment? && AsksForInstances(s, e.id)
    requires DropsFinalizer(e) && LosesNoPool(e)
    ensures OwnsNothing(c, s', e.id)
  {
    match e {
      case Release(id, _, released, stuck, _, _) =>
        EmptyAfterRelease(s.machineSets, ClaimKey(id), released, stuck);
      case Discard(id, deleted, _, _) =>
        assert Copies(s.machineSets - deleted, id) == {};
      case DropPools(_, _, _, _) =>
        DeletionIsExact(c, s, e, s');
      case _ =>
    }
  }

  lemma EmptyAfterRelease(sets: map<string, MachineSet>, key: string, released: set<string>, stuck: set<string>)
    requires released == Holders(sets, key) && stuck == {}
    ensures Holders(GiveBack(sets, key, released, stuck), key) == {}
  {
  }

  /** An AppWrapper that is over and owns nothing changes no MachineSet and no pool. */
  lemma NothingToUndo(c: Context, s: State, e: Event, s': State, id: AwId)
    requires Step(c, s, e, s') && By(e, id) && OwnsNothing(c, s, id) && Over(s, id)
    ensures s'.machineSets == s.machineSets && s'.pools == s.pools
  {
    match e {
      case Release(_, _, released, stuck, _, _) =>
        assert released == {} && stuck == {};
        NothingGivenBack(s.machineSets, ClaimKey(id));
      case Discard(_, deleted, _, _) =>
        assert deleted == {};
        assert s.machineSets - {} == s.machineSets;
      case DropPools(_, calls, _, _) =>
        assert GonePools(s.pools, id, calls) == {};
        assert s.pools - {} == s.pools;
      case _ =>
    }
  }

  lemma OthersGiveNothing(c: Context, s: State, e: Event, s': State, id: AwId)
    requires Step(c, s, e, s') && ValidId(id) && !By(e, id) && Apart(e, id) && OwnsNothing(c, s, id)
    requires e.Environment? ==> PoolsLeftAlone(s.pools, s'.pools, id)
    ensures OwnsNothing(c, s', id)
  {
    match c.backend {
      case Reuse => OthersAddNoClaim(c, s, e, s', id);
      case Duplicate => OthersAddNoCopy(c, s, e, s', id);
      case MachinePools => OthersGiveNoPool(c, s, e, s', id);
      case NodePools => OthersGiveNoPool(c, s, e, s', id);
      case Unsupported =>
    }
  }

  lemma OthersGiveNoPool(c: Context, s: State, e: Event, s': State, id: AwId)
    requires Pooled(c) && Step(c, s, e, s') && !By(e, id) && Apart(e, id) && OwnedPools(s.pools, id) == {}
    requires e.Environment? ==> PoolsLeftAlone(s.pools, s'.pools, id)
    ensures OwnedPools(s'.pools, id) == {}
  {
    OthersLeavePools(c, s, e, s', id);
    assert OwnedPools(s'.pools, id) <= OwnedPools(s.pools, id);
  }

  lemma StaysOver(c: Context, s: State, e: Event, s': State, id: AwId)
    requires Step(c, s, e, s') && ValidId(id) && Apart(e, id) && OwnsNothing(c, s, id) && Over(s, id)
    requires e.Environment? ==> PoolsLeftAlone(s.pools, s'.pools, id)
    ensures OwnsNothing(c, s', id)
    ensures By(e, id) ==> s'.machineSets == s.machineSets && s'.pools == s.pools
  {
    if By(e, id) {
      NothingToUndo(c, s, e, s', id);
    } else {
      OthersGiveNothing(c, s, e, s', id);
    }
  }

  /** The event, if by id, changes no MachineSet and no pool. */
  predicate ChangesNothing(s: State, e: Event, s': State, id: AwId) {
    By(e, id) ==> s'.machineSets == s.machineSets && s'.pools == s.pools
  }

  ghost predicate EnvMakesNoPools(states: seq<State>, events: seq<Event>, id: AwId)
    requires |states| == |events| + 1
  {
    forall i | 0 <= i < |events| && events[i].Environment? :: PoolsLeftAlone(states[i].pools, states[i + 1].pools, id)
  }

  lemma StaysOverAt(c: Context, states: seq<State>, events: seq<Event>, id: AwId, k: nat)
    requires Run(c, states, events) && ValidId(id) && 0 < k <= |events| && EnvMakesNoPools(states, events, id)
    requires Apart(events[k - 1], id) && OwnsNothing(c, states[k - 1], id) && Over(states[k - 1], id)
    ensures OwnsNothing(c, states[k], id)
    ensures ChangesNothing(states[k - 1], events[k - 1], states[k], id)
  {
    LastStep(c, states, events, k);
    assert events[k - 1].Environment? ==> PoolsLeftAlone(states[k - 1].pools, states[k - 1 + 1].pools, id);
    StaysOver(c, states[k - 1], events[k - 1], states[k], id);
  }

  lemma {:induction false} OwnsNothingFrom(c: Context, states: seq<State>, events: seq<Event>, id: AwId, j: nat, k: nat)
    requires Run(c, states, events) && ValidId(id) && j <= k <= |events| && EnvMakesNoPools(states, events, id)
    requires forall i | 0 <= i < |events| :: Apart(events[i], id)
    requires OwnsNothing(c, states[j], id) && forall i | j <= i < k :: Over(states[i], id)
    ensures OwnsNothing(c, states[k], id)
    decreases k
  {
    if j < k {
      OwnsNothingFrom(c, states, events, id, j, k - 1);
      StaysOverAt(c, states, events, id, k);
    }
  }

  /** Finalisation is idempotent. Once an AppWrapper with a non-empty `orderedinstance` has been finalised
      at event j, then, as long as it stays completed, deleting or gone, however often it is adopted and
      finalised again and whatever fails while it is: no later reconcile of it, at event k, changes the
      replicas or labels of any MachineSet, or the set of MachineSets or pools, whichever the backend. */
  lemma FinalisationIsIdempotent(c: Context, states: seq<State>, events: seq<Event>, id: AwId, j: nat, k: nat)
    requires Run(c, states, events) && ValidId(id) && j < k < |events| && EnvMakesNoPools(states, events, id)
    requires forall i | 0 <= i < |events| :: Apart(events[i], id)
    requires By(events[j], id) && DropsFinalizer(events[j]) && LosesNoPool(events[j])
    requires AsksForInstances(states[j], id) && forall i | j < i <= k :: Over(states[i], id)
    ensures OwnsNothing(c, states[k], id)
    ensures By(events[k], id) ==>
              states[k + 1].machineSets == states[k].machineSets && states[k + 1].pools == states[k].pools
  {
    FinalisedAt(c, states, events, j);
    OwnsNothingFrom(c, states, events, id, j + 1, k);
    StaysOverAt(c, states, events, id, k + 1);
  }

  lemma FinalisedAt(c: Context, states: seq<State>, events: seq<Event>, j: nat)
    requires Run(c, states, events) && j < |events| && !events[j].Environment?
             && AsksForInstances(states[j], events[j].id)
    requires DropsFinalizer(events[j]) && LosesNoPool(events[j])
    ensures OwnsNothing(c, states[j + 1], events[j].id)
  {
    StepAt(c, states, events, j);
    FinalisedOwnsNothing(c, states[j], events[j], states[j + 1]);
  }
}
