/** Runs of the reuse strategy in which an AppWrapper's demand does not change: each MachineSet is
    raised at most once, nothing is ever shrunk, and the claims stay within the scale-out limit. */
module FixedDemand {
  import opened GoPrimitives
  import opened Sums
  import opened Model
  import opened Steps
  import opened Ledger

  /** The demand of id, whenever it is stored, is `demand`. */
  ghost predicate Demands(s: State, id: AwId, demand: map<string, int>) {
    id in s.aws ==> DemandOf(s.aws[id]) == demand
  }

  /** Every claim of id is the demand for the type of the MachineSet that carries it. */
  predicate ClaimsAgree(s: State, id: AwId, demand: map<string, int>) {
    forall n | n in Holders(s.machineSets, ClaimKey(id)) :: ClaimMatches(s.machineSets[n], id, demand)
  }

  lemma {:induction false} StrLessIrreflexive(a: string)
    ensures !StrLess(a, a)
  {
    if a != [] {
      StrLessIrreflexive(a[1..]);
    }
  }

  /** The shrink test fails at a MachineSet whose claim, if any, is the demand. */
  lemma NothingToShrink(ms: MachineSet, id: AwId, demand: map<string, int>)
    requires ms.instanceType in demand
    requires ClaimKey(id) in ms.labels ==> ClaimMatches(ms, id, demand)
    ensures !StrLess(FormatInt(demand[ms.instanceType]), LabelOf(ms.labels, ClaimKey(id)))
  {
    StrLessIrreflexive(FormatInt(demand[ms.instanceType]));
  }

  /** A step of id keeps its claims equal to the demand, and does not take the shrink path. */
  lemma OwnStepAgrees(c: Context, s: State, e: Event, s': State, id: AwId, demand: map<string, int>)
    requires c.backend.Reuse? && Step(c, s, e, s') && By(e, id)
    requires Demands(s, id, demand) && ClaimsAgree(s, id, demand)
    ensures ClaimsAgree(s', id, demand)
    ensures e.Scale? ==> !e.act.Shrink?
  {
    StepSets(c, s, e, s');
    if e.Scale? {
      if e.act.Shrink? {
        NothingToShrink(s.machineSets[e.act.set_], id, demand);
      } else {
        SetsAfterAgree(s, e, id, demand);
      }
    } else {
      SetsAfterAgree(s, e, id, demand);
    }
  }

  lemma SetsAfterAgree(s: State, e: Event, id: AwId, demand: map<string, int>)
    requires By(e, id) && Demands(s, id, demand) && ClaimsAgree(s, id, demand)
    requires e.Scale? ==> !e.act.Shrink? && id in s.aws
    requires e.Scale? && e.act.Raise? ==>
               e.act.set_ in s.machineSets && s.machineSets[e.act.set_].instanceType in demand
    ensures forall n | n in Holders(SetsAfter(s, e), ClaimKey(id)) :: ClaimMatches(SetsAfter(s, e)[n], id, demand)
  {
  }

  /** What others do shows neither in id's claims nor in the instance types. */
  ghost predicate ClaimsKept(s: State, s': State, id: AwId) {
    forall n | n in s'.machineSets ::
      if n in s.machineSets
      then && s'.machineSets[n].instanceType == s.machineSets[n].instanceType
           && (ClaimKey(id) in s'.machineSets[n].labels <==> ClaimKey(id) in s.machineSets[n].labels)
           && LabelOf(s'.machineSets[n].labels, ClaimKey(id)) == LabelOf(s.machineSets[n].labels, ClaimKey(id))
      else ClaimKey(id) !in s'.machineSets[n].labels
  }

  lemma OthersKeepClaims(c: Context, s: State, e: Event, s': State, id: AwId)
    requires c.backend.Reuse? && Step(c, s, e, s') && ValidId(id) && !By(e, id) && Apart(e, id)
    ensures ClaimsKept(s, s', id)
    ensures !e.Environment? ==> s'.machineSets.Keys == s.machineSets.Keys
  {
    KeysApart(id);
    if !e.Environment? {
      StepKeepsOtherClaims(c, s, e, s');
      if ClaimKey(e.id) == ClaimKey(id) {
        ClaimKeyInjective(e.id, id);
      }
    }
  }

  lemma KeptAgrees(s: State, s': State, id: AwId, demand: map<string, int>)
    requires ClaimsKept(s, s', id)
    ensures ClaimsAgree(s, id, demand) ==> ClaimsAgree(s', id, demand)
    ensures Holders(s'.machineSets, ClaimKey(id)) <= Holders(s.machineSets, ClaimKey(id))
    ensures s'.machineSets.Keys <= s.machineSets.Keys ==> Unmatched(s', id, demand) <= Unmatched(s, id, demand)
  {
    assert forall n | n in s'.machineSets && n in s.machineSets ::
      ClaimMatches(s'.machineSets[n], id, demand) == ClaimMatches(s.machineSets[n], id, demand);
  }

  lemma StepAgrees(c: Context, s: State, e: Event, s': State, id: AwId, demand: map<string, int>)
    requires c.backend.Reuse? && Step(c, s, e, s') && ValidId(id) && Apart(e, id)
    requires Demands(s, id, demand) && ClaimsAgree(s, id, demand)
    ensures ClaimsAgree(s', id, demand)
    ensures By(e, id) && e.Scale? ==> !e.act.Shrink?
  {
    if By(e, id) {
      OwnStepAgrees(c, s, e, s', id, demand);
    } else {
      OthersKeepClaims(c, s, e, s', id);
      KeptAgrees(s, s', id, demand);
    }
  }

  /** With a fixed demand every claim is, in every reachable state, the canonical decimal of the demand,
      and the shrink path is never entered, under any failures. */
  lemma {:induction false} ClaimsStayAgreed(c: Context, states: seq<State>, events: seq<Event>, id: AwId,
        demand: map<string, int>, k: nat)
    requires c.backend.Reuse? && Run(c, states, events) && ValidId(id) && k <= |events|
    requires forall i | 0 <= i < |events| :: Apart(events[i], id)
    requires forall i | 0 <= i < |states| :: Demands(states[i], id, demand)
    requires ClaimsAgree(states[0], id, demand)
    ensures forall i | 0 <= i <= k :: ClaimsAgree(states[i], id, demand)
    ensures forall i | 0 <= i < k && By(events[i], id) && events[i].Scale? :: !events[i].act.Shrink?
  {
    if k > 0 {
      ClaimsStayAgreed(c, states, events, id, demand, k - 1);
      LastStep(c, states, events, k);
      StepAgrees(c, states[k - 1], events[k - 1], states[k], id, demand);
    }
  }

  // ----- at most one raise per MachineSet -----

  /** The demanded MachineSets whose label is not the demand. */
  function Unmatched(s: State, id: AwId, demand: map<string, int>): set<string> {
    set n | n in Pairs(s.machineSets, demand) && !ClaimMatches(s.machineSets[n], id, demand)
  }

  predicate IsRaise(e: Event, id: AwId) {
    By(e, id) && e.Scale? && e.act.Raise?
  }

  function Raises(events: seq<Event>, id: AwId, k: nat): nat
    requires k <= |events|
  {
    if k == 0 then 0 else Raises(events, id, k - 1) + if IsRaise(events[k - 1], id) then 1 else 0
  }

  /** No event changes the replicas of more than one MachineSet while scaling. */
  lemma ScalingChangesOneSet(c: Context, s: State, e: Event, s': State, a: string, b: string)
    requires c.backend.Reuse? && Step(c, s, e, s') && e.Scale?
    requires a in s.machineSets && b in s.machineSets
    requires Replicas(s', a) != Replicas(s, a) && Replicas(s', b) != Replicas(s, b)
    ensures a == b
  {
    StepSets(c, s, e, s');
  }

  lemma MeasureFalls(c: Context, s: State, e: Event, s': State, id: AwId, demand: map<string, int>)
    requires c.backend.Reuse? && Step(c, s, e, s') && ValidId(id) && Apart(e, id)
    requires Demands(s, id, demand) && ClaimsAgree(s, id, demand)
    requires e.Environment? ==> s'.machineSets.Keys <= s.machineSets.Keys
    requires By(e, id) ==> !e.Release?
    ensures Unmatched(s', id, demand) <= Unmatched(s, id, demand)
    ensures IsRaise(e, id) ==> e.act.set_ in Unmatched(s, id, demand) && e.act.set_ !in Unmatched(s', id, demand)
  {
    if By(e, id) {
      OwnStepAgrees(c, s, e, s', id, demand);
      StepSets(c, s, e, s');
      if IsRaise(e, id) {
        var n := e.act.set_;
        assert LabelOf(s.machineSets[n].labels, ClaimKey(id)) != FormatInt(demand[s.machineSets[n].instanceType]);
      }
    } else {
      OthersKeepClaims(c, s, e, s', id);
      KeptAgrees(s, s', id, demand);
    }
  }

  /** At-most-once scaling. Until it is finalised, an AppWrapper with a fixed demand raises MachineSets at
      most as often as there are demanded MachineSets without its claim: the number of these falls with
      every raise and never rises, whatever fails and whatever the others do. */
  lemma RaisesAreBounded(c: Context, states: seq<State>, events: seq<Event>, id: AwId, demand: map<string, int>, k: nat)
    requires c.backend.Reuse? && Run(c, states, events) && ValidId(id) && k <= |events|
    requires forall i | 0 <= i < |events| :: Apart(events[i], id)
    requires forall i | 0 <= i < |states| :: Demands(states[i], id, demand)
    requires forall i | 0 <= i < k && events[i].Environment? ::
               states[i + 1].machineSets.Keys <= states[i].machineSets.Keys
    requires forall i | 0 <= i < k && By(events[i], id) :: !events[i].Release?
    requires ClaimsAgree(states[0], id, demand)
    ensures ClaimsAgree(states[k], id, demand)
    ensures Raises(events, id, k) + |Unmatched(states[k], id, demand)| <= |Unmatched(states[0], id, demand)|
  {
    ClaimsStayAgreed(c, states, events, id, demand, k);
    forall i: nat | i < k
      ensures UnmatchedFallAt(states, events, id, demand, i)
    {
      StepAt(c, states, events, i);
      OneMoreRaise(c, states[i], events[i], states[i + 1], id, demand);
    }
    RaisesAddUp(states, events, id, demand, k);
  }

  /** A raise at i takes a MachineSet off the list of the unmatched ones, and no event adds to the list. */
  ghost predicate UnmatchedFallAt(states: seq<State>, events: seq<Event>, id: AwId, demand: map<string, int>, i: nat)
    requires |states| == |events| + 1 && i < |events|
  {
    (if IsRaise(events[i], id) then 1
        else 0) + |Unmatched(states[i + 1], id, demand)| <= |Unmatched(states[i], id, demand)|
  }

  lemma {:induction false} RaisesAddUp(states: seq<State>, events: seq<Event>, id: AwId, demand: map<string, int>,
        k: nat)
    requires |states| == |events| + 1 && k <= |events| && forall i: nat | i < k ::
               UnmatchedFallAt(states, events, id, demand, i)
    ensures Raises(events, id, k) + |Unmatched(states[k], id, demand)| <= |Unmatched(states[0], id, demand)|
  {
    if k > 0 {
      RaisesAddUp(states, events, id, demand, k - 1);
      assert UnmatchedFallAt(states, events, id, demand, k - 1);
    }
  }

  lemma OneMoreRaise(c: Context, s: State, e: Event, s': State, id: AwId, demand: map<string, int>)
    requires c.backend.Reuse? && Step(c, s, e, s') && ValidId(id) && Apart(e, id)
    requires Demands(s, id, demand) && ClaimsAgree(s, id, demand)
    requires e.Environment? ==> s'.machineSets.Keys <= s.machineSets.Keys
    requires By(e, id) ==> !e.Release?
    ensures ClaimsAgree(s', id, demand)
    ensures (if IsRaise(e, id) then 1 else 0) + |Unmatched(s', id, demand)| <= |Unmatched(s, id, demand)|
  {
    StepAgrees(c, s, e, s', id, demand);
    MeasureFalls(c, s, e, s', id, demand);
    SmallerSet(Unmatched(s', id, demand), Unmatched(s, id, demand));
  }

  // ----- the scale gate -----

  /** Without overflow the gate asks what it seems to ask. */
  lemma GateIsExact(machines: map<string, Machine>, id: AwId, demand: map<string, int>, maxNodes: int)
    requires 0 <= |GateMachines(machines, id)| + SumValues(demand) < TWO31
    ensures Gate(machines, id, demand, maxNodes) <==> |GateMachines(machines, id)| + SumValues(demand) <= maxNodes
  {
  }

  /** The gate answers the question whether machines and demand stay within the limit correctly if and only if
      their total fits int32, or is beyond it on one side and wraps to the same side of the limit. */
  lemma GateAgreesIff(machines: map<string, Machine>, id: AwId, demand: map<string, int>, maxNodes: int)
    requires Fits32(maxNodes)
    ensures var total := |GateMachines(machines, id)| + SumValues(demand);
            var wrapped := (total + TWO31) % TWO32 - TWO31;
            (Gate(machines, id, demand, maxNodes) <==> total <= maxNodes)
            <==> (if total >= TWO31 then maxNodes < wrapped else if total < -TWO31 then wrapped <= maxNodes else true)
  {
    WrapIsRemainder(|GateMachines(machines, id)| + SumValues(demand));
  }

  /** A cluster with a pending AppWrapper whose one pod template asks for 2^31 replicas of one type. */
  function Overflowing(id: AwId): State {
    State(map[id := AppWrapper(map[ORDERED_INSTANCE := "m5.xlarge"], [[TWO31]], PENDING, ["Insufficient"],
        [FINALIZER], false)],
          map[], map[], map[], map[])
  }

  /** With overflow the gate lets that AppWrapper through, whatever the limit. */
  lemma GateCanOverflow(id: AwId, maxNodes: int)
    requires ValidId(id) && Fits32(maxNodes)
    ensures var s := Overflowing(id);
            && s.Valid() && Scalable(s.aws, id)
            && Gate(s.machines, id, DemandOf(s.aws[id]), maxNodes) && SumValues(DemandOf(s.aws[id])) > maxNodes
  {
    var s := Overflowing(id);
    OverflowingIsScalable(s.aws, id);
    OverflowingDemand(s.aws[id]);
    OverflowingGate(id, maxNodes);
  }

  lemma OverflowingIsScalable(aws: map<AwId, AppWrapper>, id: AwId)
    requires id in aws && aws[id] == Overflowing(id).aws[id]
    ensures Scalable(aws, id)
  {
    assert OccursAt("Insufficient", "Insufficient", 0);
    assert Contains(aws[id].conditions[0], "Insufficient");
  }

  lemma OverflowingGate(id: AwId, maxNodes: int)
    requires Fits32(maxNodes)
    ensures Gate(map[], id, map["m5.xlarge" := TWO31], maxNodes) && SumValues(map["m5.xlarge" := TWO31]) == TWO31
  {
    SumValuesAdd(map[], "m5.xlarge", TWO31);
    assert map[]["m5.xlarge" := TWO31] == map["m5.xlarge" := TWO31];
    assert GateMachines(map[], id) == {};
  }

  lemma OverflowingDemand(aw: AppWrapper)
    requires aw.labels == map[ORDERED_INSTANCE := "m5.xlarge"] && aw.items == [[TWO31]]
    ensures DemandOf(aw) == map["m5.xlarge" := TWO31]
  {
    SplitPlain("m5.xlarge", '_');
    assert AddPods(map[], ["m5.xlarge"], [TWO31], 0, 1)
             == AddPods(map[], ["m5.xlarge"], [TWO31], 0, 0)["m5.xlarge" := TWO31];
    assert AddItems(["m5.xlarge"], [[TWO31]], 1) == AddPods(AddItems(["m5.xlarge"], [[TWO31]], 0), ["m5.xlarge"],
             [TWO31], 0, 1);
  }

  ghost function TotalClaim(s: State, id: AwId): int {
    Sum(s.machineSets.Keys, n => Claim(s, n, id))
  }

  predicate OneSetPerType(s: State, demand: map<string, int>) {
    forall a, b | a in Pairs(s.machineSets, demand) && b in Pairs(s.machineSets, demand)
                  && s.machineSets[a].instanceType == s.machineSets[b].instanceType :: a == b
  }

  /** Claims exist only if the demand as a whole passed the gate. */
  predicate GatePassed(s: State, id: AwId, total: int, maxNodes: int) {
    Holders(s.machineSets, ClaimKey(id)) != {} ==> total <= maxNodes
  }

  lemma RaiseWithinLimit(maxNodes: int, s: State, demand: map<string, int>, e: Event, sets': map<string, MachineSet>)
    requires e.Scale? && e.act.Raise? && Raised(maxNodes, s, demand, e, sets')
    requires 0 <= SumValues(demand) && |GateMachines(s.machines, e.id)| + SumValues(demand) < TWO31
    ensures SumValues(demand) <= maxNodes
  {
    assert Wrap32(e.act.gated + SumValues(demand)) == e.act.gated + SumValues(demand);
  }

  lemma GateStep(c: Context, s: State, e: Event, s': State, id: AwId, demand: map<string, int>)
    requires c.backend.Reuse? && Step(c, s, e, s') && ValidId(id) && Apart(e, id)
    requires Demands(s, id, demand) && ClaimsAgree(s, id, demand)
    requires By(e, id) && e.Scale? ==>
               0 <= SumValues(demand) && |GateMachines(s.machines, id)| + SumValues(demand) < TWO31
    requires GatePassed(s, id, SumValues(demand), c.maxNodes)
    ensures GatePassed(s', id, SumValues(demand), c.maxNodes)
  {
    if By(e, id) {
      OwnStepAgrees(c, s, e, s', id, demand);
      StepSets(c, s, e, s');
      if IsRaise(e, id) {
        RaiseWithinLimit(c.maxNodes, s, demand, e, s'.machineSets);
      } else {
        assert Holders(s'.machineSets, ClaimKey(id)) <= Holders(s.machineSets, ClaimKey(id));
      }
    } else {
      OthersKeepClaims(c, s, e, s', id);
      KeptAgrees(s, s', id, demand);
    }
  }

  lemma ClaimsWithinDemand(s: State, id: AwId, demand: map<string, int>)
    requires ClaimsAgree(s, id, demand) && OneSetPerType(s, demand)
    requires forall t | t in demand :: 0 <= demand[t] && Fits64(demand[t])
    ensures TotalClaim(s, id) <= SumValues(demand)
    ensures Holders(s.machineSets, ClaimKey(id)) == {} ==> TotalClaim(s, id) == 0
  {
    var holders := Holders(s.machineSets, ClaimKey(id));
    var rest := s.machineSets.Keys - holders;
    var f := n => Claim(s, n, id);
    var g := n => if n in s.machineSets then s.machineSets[n].instanceType else "";
    SumWithZeros(holders, rest, f);
    assert holders + rest == s.machineSets.Keys;
    forall n | n in holders
      ensures g(n) in demand && f(n) <= demand[g(n)]
    {
      assert ClaimMatches(s.machineSets[n], id, demand);
      AtoiInvertsFormatInt(demand[s.machineSets[n].instanceType]);
    }
    assert holders <= Pairs(s.machineSets, demand);
    SumThroughInjection(holders, f, g, demand);
  }

  /** The conditions under which the limit binds: one MachineSet per demanded type, a fixed demand, and a
      total that, with the machines counted by the gate, stays below 2^31. */
  ghost predicate Limitable(s: State, id: AwId, demand: map<string, int>) {
    && Demands(s, id, demand) && OneSetPerType(s, demand)
    && |GateMachines(s.machines, id)| + SumValues(demand) < TWO31
  }

  ghost predicate Limited(s: State, id: AwId, demand: map<string, int>, maxNodes: int) {
    ClaimsAgree(s, id, demand) && GatePassed(s, id, SumValues(demand), maxNodes)
  }

  lemma LimitStep(c: Context, s: State, e: Event, s': State, id: AwId, demand: map<string, int>)
    requires c.backend.Reuse? && Step(c, s, e, s') && ValidId(id) && Apart(e, id)
    requires Limitable(s, id, demand) && 0 <= SumValues(demand)
    requires Limited(s, id, demand, c.maxNodes)
    ensures Limited(s', id, demand, c.maxNodes)
  {
    GateStep(c, s, e, s', id, demand);
    StepAgrees(c, s, e, s', id, demand);
  }

  /** Per-AppWrapper scale-out bound. The claims of an AppWrapper over all MachineSets never exceed the
      limit, in any reachable state and under any failures. */
  lemma ClaimsWithinLimit(c: Context, states: seq<State>, events: seq<Event>, id: AwId, demand: map<string, int>,
        k: nat)
    requires c.backend.Reuse? && Run(c, states, events) && ValidId(id) && k <= |events| && c.maxNodes >= 0
    requires forall i | 0 <= i < |events| :: Apart(events[i], id)
    requires forall i | 0 <= i < |states| :: Limitable(states[i], id, demand)
    requires forall t | t in demand :: 0 <= demand[t] && Fits64(demand[t])
    requires Holders(states[0].machineSets, ClaimKey(id)) == {}
    ensures TotalClaim(states[k], id) <= c.maxNodes
  {
    NonNegativeSum(demand.Keys, t => At(demand, t));
    StaysLimited(c, states, events, id, demand, k);
    ClaimsWithinDemand(states[k], id, demand);
  }

  lemma StaysLimited(c: Context, states: seq<State>, events: seq<Event>, id: AwId, demand: map<string, int>, k: nat)
    requires c.backend.Reuse? && Run(c, states, events) && ValidId(id) && k <= |events|
    requires forall i | 0 <= i < |events| :: Apart(events[i], id)
    requires forall i | 0 <= i < |states| :: Limitable(states[i], id, demand)
    requires 0 <= SumValues(demand) && Holders(states[0].machineSets, ClaimKey(id)) == {}
    ensures Limited(states[k], id, demand, c.maxNodes)
  {
    forall i: nat | i < k
      ensures LimitedNext(states, id, demand, c.maxNodes, i)
    {
      LimitAt(c, states, events, id, demand, i);
    }
    LimitedThroughout(states, id, demand, c.maxNodes, k);
  }

  ghost predicate LimitedNext(states: seq<State>, id: AwId, demand: map<string, int>, maxNodes: int, i: nat)
    requires i + 1 < |states|
  {
    Limited(states[i], id, demand, maxNodes) ==> Limited(states[i + 1], id, demand, maxNodes)
  }

  lemma LimitAt(c: Context, states: seq<State>, events: seq<Event>, id: AwId, demand: map<string, int>, i: nat)
    requires c.backend.Reuse? && Run(c, states, events) && ValidId(id) && i < |events|
    requires Apart(events[i], id) && Limitable(states[i], id, demand) && 0 <= SumValues(demand)
    ensures LimitedNext(states, id, demand, c.maxNodes, i)
  {
    StepAt(c, states, events, i);
    if Limited(states[i], id, demand, c.maxNodes) {
      LimitStep(c, states[i], events[i], states[i + 1], id, demand);
    }
  }

  lemma {:induction false} LimitedThroughout(states: seq<State>, id: AwId, demand: map<string, int>, maxNodes: int,
        k: nat)
    requires k < |states| && Limited(states[0], id, demand, maxNodes)
    requires forall i: nat | i < k :: LimitedNext(states, id, demand, maxNodes, i)
    ensures Limited(states[k], id, demand, maxNodes)
  {
    if k > 0 {
      LimitedThroughout(states, id, demand, maxNodes, k - 1);
      assert LimitedNext(states, id, demand, maxNodes, k - 1);
    }
  }
}
