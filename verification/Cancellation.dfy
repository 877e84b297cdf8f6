/** Scaling up and finalising cancel: what an AppWrapper adds to a MachineSet it takes away again, no more
    and no less than the machines it found already labelled; and the machines it marks for deletion
    are of the MachineSet it lowers, and no more than it lowers it by. */
module Cancellation {
  import opened GoPrimitives
  import opened Sums
  import opened Model
  import opened Steps
  import opened Ledger
  import opened Lifecycle
  import opened FixedDemand

  /** An AppWrapper's passes all succeed. */
  predicate CleanBy(e: Event, id: AwId) {
    By(e, id) ==>
      match e
      case Scale(_, _, _, _, _, _, clean) => clean
      case Release(_, _, _, _, _, clean) => clean
      case _ => true
  }

  /** The labelled running machines that the event, if a raise of n by id, subtracted. */
  function CountedIn(e: Event, id: AwId, n: string): int {
    if IsRaise(e, id) && e.act.set_ == n then e.act.counted else 0
  }

  function CountedInAt(events: seq<Event>, id: AwId, n: string): nat -> int {
    (i: nat) => if i < |events| then CountedIn(events[i], id, n) else 0
  }

  function CountedRaises(events: seq<Event>, id: AwId, n: string, k: nat): int
    requires k <= |events|
  {
    Total(CountedInAt(events, id, n), k)
  }

  /** Under a fixed demand a clean event leaks just the machines it counted. */
  lemma OnlyCountsLeak(c: Context, s: State, e: Event, s': State, id: AwId, n: string, demand: map<string, int>)
    requires c.backend.Reuse? && Step(c, s, e, s') && By(e, id) && CleanBy(e, id)
    requires Demands(s, id, demand) && ClaimsAgree(s, id, demand)
    ensures Leak(s, e, n) == 0 - CountedIn(e, id, n)
  {
    OwnStepAgrees(c, s, e, s', id, demand);
    if IsRaise(e, id) && e.act.set_ == n {
      assert n !in Holders(s.machineSets, ClaimKey(id)) by {
        assert LabelOf(s.machineSets[n].labels, ClaimKey(id)) != FormatInt(demand[s.machineSets[n].instanceType]);
      }
    }
  }

  lemma LeaksAreCounts(states: seq<State>, events: seq<Event>, id: AwId, n: string, k: nat)
    requires |states| == |events| + 1 && k <= |events|
    requires forall i | 0 <= i < |events| && By(events[i], id) ::
               Leak(states[i], events[i], n) == 0 - CountedIn(events[i], id, n)
    ensures Leaks(states, events, id, n, k) + CountedRaises(events, id, n, k) == 0
  {
    NegatedTotals(LeakAt(states, events, id, n), CountedInAt(events, id, n), k);
  }

  lemma {:induction false} NegatedTotals(f: nat -> int, g: nat -> int, k: nat)
    requires forall i: nat | i < k :: f(i) + g(i) == 0
    ensures Total(f, k) + Total(g, k) == 0
  {
    if k > 0 {
      NegatedTotals(f, g, k - 1);
    }
  }

  /** The lives of an AppWrapper considered here: fixed demand, clean passes, no other AppWrapper
      with its label. */
  ghost predicate SteadyLife(states: seq<State>, events: seq<Event>, id: AwId, demand: map<string, int>)
    requires |states| == |events| + 1
  {
    && ValidId(id)
    && (forall i | 0 <= i < |events| :: Apart(events[i], id) && CleanBy(events[i], id))
    && (forall i | 0 <= i < |states| :: Demands(states[i], id, demand))
    && ClaimsAgree(states[0], id, demand)
  }

  /** Scale-up and finalisation cancel. Over any run from a state without the AppWrapper's claim on n to
      another one, whatever others do to n in between, the AppWrapper's net effect on the replicas of n
      is minus the labelled running machines its raises counted. */
  lemma NetEffectIsMinusCounted(c: Context, states: seq<State>, events: seq<Event>, id: AwId, n: string,
        demand: map<string, int>, k: nat)
    requires c.backend.Reuse? && Run(c, states, events) && k <= |events| && SteadyLife(states, events, id, demand)
    requires forall i | 0 <= i < |states| :: n in states[i].machineSets
    requires n !in Holders(states[0].machineSets, ClaimKey(id)) && n !in Holders(states[k].machineSets, ClaimKey(id))
    ensures Wrap32(NetEffect(states, events, id, n, k)) == Wrap32(0 - CountedRaises(events, id, n, k))
    ensures (forall i | 0 <= i < k :: NoOverflow(states[i], events[i], states[i + 1], n)) ==>
              && NetEffect(states, events, id, n, k) == 0 - CountedRaises(events, id, n, k)
              && (NetEffect(states, events, id, n, k) == 0 <==> CountedRaises(events, id, n, k) == 0)
  {
    SteadyLeaks(c, states, events, id, n, demand, k);
    LedgerBalances(c, states, events, id, n, k);
    LedgerWithoutClaims(states, events, id, n, k);
    if forall i | 0 <= i < k :: NoOverflow(states[i], events[i], states[i + 1], n) {
      LedgerBalancesExactly(c, states, events, id, n, k);
    }
  }

  lemma LedgerWithoutClaims(states: seq<State>, events: seq<Event>, id: AwId, n: string, k: nat)
    requires |states| == |events| + 1 && k <= |events|
    requires n !in Holders(states[0].machineSets, ClaimKey(id)) && n !in Holders(states[k].machineSets, ClaimKey(id))
    requires Leaks(states, events, id, n, k) == 0 - CountedRaises(events, id, n, k)
    ensures Wrap32(NetEffect(states, events, id, n, k))
              == Wrap32(Claim(states[k], n, id) - Claim(states[0], n, id) + Leaks(states, events, id, n, k)) ==>
              Wrap32(NetEffect(states, events, id, n, k)) == Wrap32(0 - CountedRaises(events, id, n, k))
    ensures NetEffect(states, events, id, n, k) == Claim(states[k], n, id) - Claim(states[0], n, id) + Leaks(states,
              events, id, n, k) ==>
              NetEffect(states, events, id, n, k) == 0 - CountedRaises(events, id, n, k)
  {
    OnlyLeaksRemain(Claim(states[0], n, id), Claim(states[k], n, id), NetEffect(states, events, id, n, k),
                    Leaks(states, events, id, n, k), CountedRaises(events, id, n, k));
  }

  lemma OnlyLeaksRemain(first: int, last: int, net: int, leaks: int, counted: int)
    requires first == 0 && last == 0 && leaks == 0 - counted
    ensures Wrap32(net) == Wrap32(last - first + leaks) ==> Wrap32(net) == Wrap32(0 - counted)
    ensures net == last - first + leaks ==> net == 0 - counted
  {
  }

  lemma SteadyLeaks(c: Context, states: seq<State>, events: seq<Event>, id: AwId, n: string,
        demand: map<string, int>, k: nat)
    requires c.backend.Reuse? && Run(c, states, events) && k <= |events| && SteadyLife(states, events, id, demand)
    ensures Leaks(states, events, id, n, k) == 0 - CountedRaises(events, id, n, k)
  {
    ClaimsStayAgreed(c, states, events, id, demand, |events|);
    forall i | 0 <= i < |events| && By(events[i], id)
      ensures Leak(states[i], events[i], n) == 0 - CountedIn(events[i], id, n)
    {
      StepAt(c, states, events, i);
      OnlyCountsLeak(c, states[i], events[i], states[i + 1], id, n, demand);
    }
    LeaksAreCounts(states, events, id, n, k);
  }

  // ----- all AppWrappers together -----

  /** Every claim on any MachineSet is of an AppWrapper that is stored and carries the finalizer. */
  ghost predicate EveryClaimHeld(s: State) {
    forall n, key | n in s.machineSets && key in ClaimKeys(s.machineSets[n].labels) :: KeyOfHeld(s, key)
  }

  ghost predicate KeyOfHeld(s: State, key: string) {
    exists id :: Held(s.aws, id) && key == ClaimKey(id)
  }

  lemma ClaimStaysHeld(c: Context, s: State, e: Event, s': State, n: string, key: string)
    requires c.backend.Reuse? && Step(c, s, e, s') && EveryClaimHeld(s) && !e.Swap?
    requires n in s'.machineSets && key in ClaimKeys(s'.machineSets[n].labels)
    ensures KeyOfHeld(s', key)
  {
    if n in s.machineSets && key in ClaimKeys(s.machineSets[n].labels) {
      assert KeyOfHeld(s, key);
      var id :| Held(s.aws, id) && key == ClaimKey(id);
      ClaimantStays(c, s, e, s', n, id);
    } else {
      NewClaimIsOwn(c, s, e, s', n, key);
    }
  }

  lemma ClaimantStays(c: Context, s: State, e: Event, s': State, n: string, id: AwId)
    requires c.backend.Reuse? && Step(c, s, e, s') && Held(s.aws, id) && !e.Swap?
    requires n in s.machineSets && n in s'.machineSets && ClaimKey(id) in s.machineSets[n].labels
             && ClaimKey(id) in s'.machineSets[n].labels
    ensures Held(s'.aws, id)
  {
    if By(e, id) {
      OwnEventKeepsAw(c, s, e, s');
      assert !(e.Release? && e.dropped);
    } else {
      OthersKeepAw(c, s, e, s', id);
    }
  }

  lemma NewClaimIsOwn(c: Context, s: State, e: Event, s': State, n: string, key: string)
    requires c.backend.Reuse? && Step(c, s, e, s')
    requires n in s'.machineSets && key in ClaimKeys(s'.machineSets[n].labels)
    requires n in s.machineSets ==> key !in ClaimKeys(s.machineSets[n].labels)
    ensures KeyOfHeld(s', key)
  {
    assert !e.Environment?;
    StepSets(c, s, e, s');
    SetsKeepOtherClaims(s, e);
    assert key == ClaimKey(e.id);
    assert e.Scale? && Held(s'.aws, e.id);
  }

  lemma {:induction false} ClaimsHeldThroughout(c: Context, states: seq<State>, events: seq<Event>, k: nat)
    requires c.backend.Reuse? && Run(c, states, events) && k <= |events| && EveryClaimHeld(states[0])
    requires forall i | 0 <= i < |events| :: !events[i].Swap?
    ensures EveryClaimHeld(states[k])
  {
    if k > 0 {
      ClaimsHeldThroughout(c, states, events, k - 1);
      LastStep(c, states, events, k);
      ClaimsStepHeld(c, states[k - 1], events[k - 1], states[k]);
    }
  }

  lemma ClaimsStepHeld(c: Context, s: State, e: Event, s': State)
    requires c.backend.Reuse? && Step(c, s, e, s') && EveryClaimHeld(s) && !e.Swap?
    ensures EveryClaimHeld(s')
  {
    forall n, key | n in s'.machineSets && key in ClaimKeys(s'.machineSets[n].labels)
      ensures KeyOfHeld(s', key)
    {
      ClaimStaysHeld(c, s, e, s', n, key);
    }
  }

  lemma NoClaimsNoTotal(s: State, n: string)
    requires n in s.machineSets && ClaimKeys(s.machineSets[n].labels) == {}
    ensures Drift(s, n) == Replicas(s, n)
  {
  }

  lemma NoHolderNoClaim(s: State, n: string)
    requires EveryClaimHeld(s) && n in s.machineSets && forall id :: !Held(s.aws, id)
    ensures ClaimKeys(s.machineSets[n].labels) == {}
  {
    forall key | key in ClaimKeys(s.machineSets[n].labels)
      ensures false
    {
      KeyNeedsHolder(s, key);
    }
  }

  lemma KeyNeedsHolder(s: State, key: string)
    requires KeyOfHeld(s, key)
    ensures exists id :: Held(s.aws, id)
  {
  }

  /** Replicas are restored. From a cluster without claims, with any AppWrappers, any changes of demand and
      any failures: once no AppWrapper carries the finalizer any more, no claim is left, and the replicas
      of a MachineSet are what they were, but for what the environment did to them and the leaks. */
  lemma ReplicasAreRestored(c: Context, states: seq<State>, events: seq<Event>, n: string, k: nat)
    requires c.backend.Reuse? && Run(c, states, events) && k <= |events|
    requires forall i | 0 <= i < |events| :: !events[i].Swap?
    requires forall i | 0 <= i < |states| :: n in states[i].machineSets
    requires forall o | o in states[0].machineSets :: ClaimKeys(states[0].machineSets[o].labels) == {}
    requires forall id :: !Held(states[k].aws, id)
    ensures ClaimKeys(states[k].machineSets[n].labels) == {}
    ensures Wrap32(Replicas(states[k], n) - Replicas(states[0], n)) == Wrap32(DriftChanges(states, events, n, k))
  {
    ClaimsHeldThroughout(c, states, events, k);
    NoHolderNoClaim(states[k], n);
    DriftAccounting(c, states, events, n, k);
    NoClaimsNoTotal(states[0], n);
    NoClaimsNoTotal(states[k], n);
  }
}
