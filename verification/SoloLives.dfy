/** AppWrappers that demand one type, of which there is one MachineSet: what they add is what they take
    away, and the machines they mark for deletion account for the replicas they take away. */
module SoloLives {
  import opened GoPrimitives
  import opened Sums
  import opened Model
  import opened Steps
  import opened Effects
  import opened Ledger
  import opened FixedDemand
  import opened Cancellation

  /** The demand is for type t alone, and n is the one MachineSet of that type. */
  ghost predicate Solo(s: State, demand: map<string, int>, t: string, n: string) {
    && demand.Keys == {t} && 0 <= demand[t]
    && Pairs(s.machineSets, demand) == {n}
  }

  predicate SameAt(a: Labels, b: Labels, key: string) {
    (key in a <==> key in b) && (key in a ==> b[key] == a[key])
  }

  /** The labels of id, and what they hang on, are left alone: no machine or node gains the label, none
      loses it while its node keeps it, machines keep type and owner, nodes keep their machine, and a
      new machine does not take the name of one that a labelled node stands for. */
  ghost predicate LabelsKept(s: State, s': State, id: AwId) {
    && (forall m | m in s'.machines && HasAwLabel(s'.machines[m].labels, id) ::
          && m in s.machines && HasAwLabel(s.machines[m].labels, id)
          && SameAt(s.machines[m].labels, s'.machines[m].labels, TYPE_LABEL)
          && SameAt(s.machines[m].labels, s'.machines[m].labels, OWNER_LABEL))
    && (forall x | x in s'.nodes && HasAwLabel(s'.nodes[x].labels, id) ::
          && x in s.nodes && HasAwLabel(s.nodes[x].labels, id)
          && s'.nodes[x].annotations == s.nodes[x].annotations
          && (MachineOfNode(s.nodes[x]).Some? ==>
                var m := MachineOfNode(s.nodes[x]).value;
                m in s'.machines ==>
                    m in s.machines && (HasAwLabel(s.machines[m].labels, id) ==>
                    HasAwLabel(s'.machines[m].labels, id))))
  }

  /** Machines with the label are of type t and run by n. */
  ghost predicate LabelledAreOf(machines: map<string, Machine>, id: AwId, t: string, n: string) {
    forall m | m in machines && HasAwLabel(machines[m].labels, id) ::
      && TYPE_LABEL in machines[m].labels && machines[m].labels[TYPE_LABEL] == t
      && LabelOf(machines[m].labels, OWNER_LABEL) == n
  }

  /** Machines of labelled nodes, while they exist, have the label. */
  ghost predicate NodesFollow(machines: map<string, Machine>, nodes: map<string, Node>, id: AwId) {
    forall x | x in nodes && HasAwLabel(nodes[x].labels, id) && MachineOfNode(nodes[x]).Some?
        && MachineOfNode(nodes[x]).value in machines ::
      HasAwLabel(machines[MachineOfNode(nodes[x]).value].labels, id)
  }

  ghost predicate NoneLabelled(machines: map<string, Machine>, id: AwId) {
    forall m | m in machines :: !HasAwLabel(machines[m].labels, id)
  }

  /** Between two passes: either the claim is set, or nothing is labelled; and never more is labelled than
      is demanded. */
  ghost predicate Settled(s: State, id: AwId, demand: map<string, int>, t: string, n: string) {
    && Solo(s, demand, t, n)
    && (ClaimMatches(s.machineSets[n], id, demand)
        || (ClaimKey(id) !in s.machineSets[n].labels && NoneLabelled(s.machines, id)))
    && |Carrying(s.machines, id, t)| <= demand[t]
    && LabelledAreOf(s.machines, id, t, n)
    && NodesFollow(s.machines, s.nodes, id)
  }

  lemma CarryingIs(machines: map<string, Machine>, id: AwId, t: string, m: string)
    requires ValidId(id) && m in machines
    ensures m in Carrying(machines, id, t) <==>
            HasAwLabel(machines[m].labels, id) && TYPE_LABEL in machines[m].labels
                && machines[m].labels[TYPE_LABEL] == t
  {
    KeysApart(id);
    MatchesTwo(machines[m].labels, AwLabel(id), AwLabel(id), TYPE_LABEL, t);
  }

  // ----- the others -----

  lemma KeptSettled(s: State, s': State, id: AwId, demand: map<string, int>, t: string, n: string)
    requires ValidId(id) && Settled(s, id, demand, t, n) && Solo(s', demand, t, n)
    requires n in s'.machineSets && ClaimsKept(s, s', id) && LabelsKept(s, s', id)
    ensures Settled(s', id, demand, t, n)
  {
    forall m | m in Carrying(s'.machines, id, t)
      ensures m in Carrying(s.machines, id, t)
    {
      CarryingIs(s'.machines, id, t, m);
      CarryingIs(s.machines, id, t, m);
    }
    SmallerSet(Carrying(s'.machines, id, t), Carrying(s.machines, id, t));
    assert ClaimMatches(s'.machineSets[n], id, demand) == ClaimMatches(s.machineSets[n], id, demand);
  }

  lemma OtherLabelsKept(s: State, s': State, id: AwId, touched: set<string>, touchedNodes: set<string>,
        marked: set<string>, key: string)
    requires key != AwLabel(id) && key != TYPE_LABEL && key != OWNER_LABEL
    requires s'.machines == MarkMachines(LabelMachines(s.machines, touched, key), marked)
    requires s'.nodes == LabelNodes(s.nodes, touchedNodes, key)
    ensures LabelsKept(s, s', id)
  {
    assert forall m | m in s.machines :: SameLabels(s.machines[m].labels, s'.machines[m].labels, id);
    SameLabelsKept(s, s', id);
  }

  /** The event, if it is a hand-over, is not one that writes id's label. */
  predicate HandsOverElsewhere(e: Event, id: AwId) {
    e.Swap? ==> AwLabel(e.heir) != AwLabel(id) && NodeHeirLabel(e.id, e.heir) != AwLabel(id)
  }

  lemma SwapKeepsLabels(s: State, s': State, id: AwId, other: AwId, heir: AwId, handed: set<string>,
        handedNodes: set<string>)
    requires ValidId(other) && ValidId(heir)
    requires AwLabel(other) != AwLabel(id) && AwLabel(heir) != AwLabel(id) && NodeHeirLabel(other, heir) != AwLabel(id)
    requires s'.machines == SwapMachines(s.machines, handed, other, heir)
             && s'.nodes == SwapNodes(s.nodes, handedNodes, other, heir)
    ensures LabelsKept(s, s', id)
  {
    KeysApart(other);
    KeysApart(heir);
    forall m | m in s.machines
      ensures SameLabels(s.machines[m].labels, s'.machines[m].labels, id)
    {
      SwapLeaves(s.machines[m].labels, AwLabel(other), AwLabel(heir), heir.name, id);
    }
    forall x | x in s.nodes
      ensures SameAt(s.nodes[x].labels, s'.nodes[x].labels, AwLabel(id))
    {
      SwapLeaves(s.nodes[x].labels, AwLabel(other), NodeHeirLabel(other, heir), heir.name, id);
    }
    SameLabelsKept(s, s', id);
  }

  predicate SameLabels(a: Labels, b: Labels, id: AwId) {
    SameAt(a, b, AwLabel(id)) && SameAt(a, b, TYPE_LABEL) && SameAt(a, b, OWNER_LABEL)
  }

  lemma SwapLeaves(labels: Labels, gone: string, key: string, value: string, id: AwId)
    requires gone != AwLabel(id) && key != AwLabel(id)
    ensures SameAt(labels, SwapLabels(labels, gone, key, value), AwLabel(id))
    ensures gone != TYPE_LABEL && gone != OWNER_LABEL && key != TYPE_LABEL && key != OWNER_LABEL ==>
              SameLabels(labels, SwapLabels(labels, gone, key, value), id)
  {
  }

  lemma SameLabelsKept(s: State, s': State, id: AwId)
    requires s'.machines.Keys == s.machines.Keys && s'.nodes.Keys == s.nodes.Keys
    requires forall m | m in s.machines :: SameLabels(s.machines[m].labels, s'.machines[m].labels, id)
    requires forall x | x in s.nodes :: SameAt(s.nodes[x].labels, s'.nodes[x].labels, AwLabel(id))
    requires forall x | x in s.nodes :: s'.nodes[x].annotations == s.nodes[x].annotations
    ensures LabelsKept(s, s', id)
  {
  }

  lemma OthersKeepLabels(c: Context, s: State, e: Event, s': State, id: AwId)
    requires c.backend.Reuse? && Step(c, s, e, s') && ValidId(id) && !e.Environment? && !By(e, id) && Apart(e, id)
             && HandsOverElsewhere(e, id)
    ensures LabelsKept(s, s', id)
  {
    match e {
      case Scale(other, touched, touchedNodes, marked, _, _, _) =>
        KeysApart(other);
        OtherLabelsKept(s, s', id, touched, touchedNodes, marked, AwLabel(other));
      case Release(other, marked, _, _, _, _) =>
        KeysApart(other);
        NothingTouched(s.machines, s.nodes, AwLabel(other));
        OtherLabelsKept(s, s', id, {}, {}, marked, AwLabel(other));
      case Swap(other, heir, handed, handedNodes, _) =>
        SwapKeepsLabels(s, s', id, other, heir, handed, handedNodes);
      case _ =>
    }
  }

  // ----- id's own passes -----

  /** What a pass touches when there is one MachineSet of the one demanded type. */
  lemma TouchedAreOf(s: State, demand: map<string, int>, t: string, n: string, touched: set<string>)
    requires Solo(s, demand, t, n) && touched <= Eligible(s, demand)
    ensures forall m | m in touched ::
              && m in s.machines && s.machines[m].phase == "Running"
              && TYPE_LABEL in s.machines[m].labels && s.machines[m].labels[TYPE_LABEL] == t
              && LabelOf(s.machines[m].labels, OWNER_LABEL) == n
  {
    forall m | m in touched
      ensures LabelOf(s.machines[m].labels, OWNER_LABEL) == n
    {
      assert s.machines[m].labels[OWNER_LABEL] in Pairs(s.machineSets, demand);
    }
  }

  lemma GrowthSettles(s: State, demand: map<string, int>, id: AwId, t: string, n: string, touched: set<string>,
        touchedNodes: set<string>, s': State)
    requires ValidId(id) && Solo(s, demand, t, n) && RunningHaveNodes(s.machines, s.nodes)
    requires LabelledAreOf(s.machines, id, t, n) && NodesFollow(s.machines, s.nodes, id)
    requires Grown(s, demand, id, touched, touchedNodes, {}, true, s')
    ensures LabelledAreOf(s'.machines, id, t, n) && NodesFollow(s'.machines, s'.nodes, id)
  {
    KeysApart(id);
    NothingTouched(LabelMachines(s.machines, touched, AwLabel(id)), s.nodes, AwLabel(id));
    TouchedAreOf(s, demand, t, n, touched);
    forall x | x in s'.nodes && HasAwLabel(s'.nodes[x].labels, id) && MachineOfNode(s'.nodes[x]).Some?
        && MachineOfNode(s'.nodes[x]).value in s'.machines
      ensures HasAwLabel(s'.machines[MachineOfNode(s'.nodes[x]).value].labels, id)
    {
      assert MachineOfNode(s'.nodes[x]) == MachineOfNode(s.nodes[x]);
      if x in touchedNodes {
        var m :| m in touched && m in s.machines && s.machines[m].nodeName == x;
        assert NodeOf(s.nodes, x, m);
      }
    }
  }

  /** The running machines of MachineSet n that do not carry id's label. */
  function Free(s: State, id: AwId, t: string, n: string): set<string> {
    Running(s.machines) * MachinesOf(s.machines, t, n) - Carrying(s.machines, id, t)
  }

  /** `after` is `start` with free machines added, up to the number d, or all of them if `start` is more. */
  predicate UpTo(start: set<string>, free: set<string>, after: set<string>, d: int) {
    && start <= after <= start + free
    && (|start| <= d ==> |after| == Min(d, |start| + |free|))
    && (|start| > d ==> after == start + free)
  }

  /** A clean pass, whether the gate is open or not, labels as many running machines as there are, up to the
      demand; and all of them if more than the demand were labelled before. */
  lemma PassLabelsExactly(c: Context, s: State, e: Event, s': State, id: AwId, demand: map<string, int>, t: string,
        n: string)
    requires c.backend.Reuse? && Step(c, s, e, s') && By(e, id) && e.Scale? && e.clean && ValidId(id)
    requires Demands(s, id, demand) && Solo(s, demand, t, n)
    ensures UpTo(Carrying(s.machines, id, t), Free(s, id, t, n), Carrying(s'.machines, id, t), demand[t])
  {
    FilledPass(s, demand, e, s', t, n);
  }

  lemma FilledPass(s: State, demand: map<string, int>, e: Event, s': State, t: string, n: string)
    requires e.Scale? && e.clean && ValidId(e.id) && Solo(s, demand, t, n)
    requires Grown(s, demand, e.id, e.touched, e.touchedNodes, e.marked, true, s') && Fills(s, demand, e, s')
    ensures UpTo(Carrying(s.machines, e.id, t), Free(s, e.id, t, n), Carrying(s'.machines, e.id, t), demand[t])
  {
    PassFills(s, demand, e, s', t, n);
    PassLabels(s, demand, e.id, t, n, e.touched, e.marked, s'.machines);
    FilledCount(Carrying(s.machines, e.id, t), Free(s, e.id, t, n), Carrying(s'.machines, e.id, t), demand[t]);
  }

  lemma PassFills(s: State, demand: map<string, int>, e: Event, s': State, t: string, n: string)
    requires e.Scale? && e.clean && Solo(s, demand, t, n) && Fills(s, demand, e, s')
    ensures FilledAt(s.machineSets, s'.machines, demand, e.id, n)
  {
    assert forall o | o in Pairs(s.machineSets, demand) :: o == n;
  }

  lemma PassLabels(s: State, demand: map<string, int>, id: AwId, t: string, n: string, touched: set<string>,
        marked: set<string>, after: map<string, Machine>)
    requires ValidId(id) && Solo(s, demand, t, n) && touched <= Eligible(s, demand)
    requires after == MarkMachines(LabelMachines(s.machines, touched, AwLabel(id)), marked)
    ensures Carrying(s.machines, id, t) <= Carrying(after, id, t) <= Carrying(s.machines, id, t) + Free(s, id, t, n)
    ensures Filled(after, id, t, n, demand[t]) ==>
              |Carrying(after, id, t)| == demand[t] || Free(s, id, t, n) <= Carrying(after, id, t)
  {
    TouchedAreOf(s, demand, t, n, touched);
    CarryingAfter(s.machines, touched, marked, id, t);
    FilledMarked(LabelMachines(s.machines, touched, AwLabel(id)), marked, id, t, n, demand[t]);
    OwnedAfterLabels(s.machines, touched, id, t, n);
    MarkingLeaves(LabelMachines(s.machines, touched, AwLabel(id)), marked);
    assert Carrying(after, id, t) == Carrying(LabelMachines(s.machines, touched, AwLabel(id)), id, t);
    forall m | m in touched
      ensures m in MachinesOf(s.machines, t, n)
    {
      OwnerKeysApart();
      MatchesTwo(s.machines[m].labels, TYPE_LABEL, t, OWNER_LABEL, n);
    }
  }

  lemma FilledCount(start: set<string>, free: set<string>, after: set<string>, d: int)
    requires start !! free && start <= after <= start + free && (|after| == d || free <= after)
    requires |start| <= d ==> |after| <= d
    ensures UpTo(start, free, after, d)
  {
    SmallerSet(start, after);
    SmallerSet(after, start + free);
    assert |start + free| == |start| + |free|;
    if free <= after {
      assert after == start + free;
    }
  }

  /** A clean pass that the gate lets through sets the claim, and counts nothing while doing so. */
  lemma PassSettles(c: Context, s: State, e: Event, s': State, id: AwId, demand: map<string, int>, t: string, n: string)
    requires c.backend.Reuse? && Step(c, s, e, s') && By(e, id) && e.Scale? && e.clean && ValidId(id)
    requires Demands(s, id, demand) && Settled(s, id, demand, t, n)
    requires Gate(s.machines, id, demand, c.maxNodes)
    ensures Settled(s', id, demand, t, n)
    ensures CountedIn(e, id, n) == 0
  {
    PassOutcome(c.maxNodes, s, demand, e, s'.machineSets, t, n);
    GrowthSettles(s, demand, id, t, n, e.touched, e.touchedNodes, s');
  }

  lemma PassOutcome(maxNodes: int, s: State, demand: map<string, int>, e: Event, sets': map<string, MachineSet>,
        t: string, n: string)
    requires e.Scale? && ValidId(e.id) && e.clean && e.touched <= Eligible(s, demand)
             && ReuseActed(maxNodes, s, demand, e, sets')
    requires Settled(s, e.id, demand, t, n) && Gate(s.machines, e.id, demand, maxNodes)
    ensures n in sets' && ClaimMatches(sets'[n], e.id, demand)
    ensures e.marked == {} && CountedIn(e, e.id, n) == 0
    ensures Pairs(sets', demand) == {n}
  {
    NothingToShrink(s.machineSets[n], e.id, demand);
    assert forall o | o in Pairs(s.machineSets, demand) :: o == n;
    if e.act.Raise? {
      RaiseOutcome(maxNodes, s, demand, e, sets', t, n);
    } else {
      assert e.act.NoUpdate?;
      var m :| m in s.machineSets && ClaimMatches(s.machineSets[m], e.id, demand);
      assert m in Pairs(s.machineSets, demand);
    }
  }

  lemma RaiseOutcome(maxNodes: int, s: State, demand: map<string, int>, e: Event, sets': map<string, MachineSet>,
        t: string, n: string)
    requires e.Scale? && ValidId(e.id) && e.act.Raise? && Raised(maxNodes, s, demand, e, sets')
             && e.touched <= Eligible(s, demand)
    requires Settled(s, e.id, demand, t, n)
    ensures n in sets' && ClaimMatches(sets'[n], e.id, demand)
    ensures e.marked == {} && CountedIn(e, e.id, n) == 0
    ensures Pairs(sets', demand) == {n}
  {
    CountsNothing(maxNodes, s, demand, e, sets', t, n);
    assert Pairs(sets', demand) == Pairs(s.machineSets, demand);
  }

  lemma CountsNothing(maxNodes: int, s: State, demand: map<string, int>, e: Event, sets': map<string, MachineSet>,
        t: string, n: string)
    requires e.Scale? && ValidId(e.id) && e.act.Raise? && Raised(maxNodes, s, demand, e, sets')
             && e.touched <= Eligible(s, demand)
    requires Settled(s, e.id, demand, t, n)
    ensures e.act.set_ == n && e.act.counted == 0
  {
    assert e.act.set_ in Pairs(s.machineSets, demand);
    TouchedAreOf(s, demand, t, n, e.touched);
    assert e.act.before == {};
    NothingTouched(s.machines, s.nodes, AwLabel(e.id));
    forall m | m in Carrying(s.machines, e.id, t)
      ensures false
    {
      CarryingIs(s.machines, e.id, t, m);
    }
    assert CountedAt(s.machines, {}, e.id, t) == {};
  }

  // ----- whole lives -----

  lemma StepSettles(c: Context, s: State, e: Event, s': State, id: AwId, demand: map<string, int>, t: string, n: string)
    requires c.backend.Reuse? && Step(c, s, e, s') && ValidId(id) && Apart(e, id) && CleanBy(e, id)
    requires Demands(s, id, demand) && Settled(s, id, demand, t, n) && Solo(s', demand, t, n)
    requires UntilFinalised(c, s, e, s', id, demand)
    ensures Settled(s', id, demand, t, n)
    ensures CountedIn(e, id, n) == 0
  {
    if By(e, id) && e.Scale? {
      PassSettles(c, s, e, s', id, demand, t, n);
    } else {
      QuietStep(c, s, e, s', id, demand);
      KeptSettled(s, s', id, demand, t, n);
    }
  }

  lemma QuietStep(c: Context, s: State, e: Event, s': State, id: AwId, demand: map<string, int>)
    requires c.backend.Reuse? && Step(c, s, e, s') && ValidId(id) && Apart(e, id)
    requires UntilFinalised(c, s, e, s', id, demand) && !(By(e, id) && e.Scale?)
    ensures ClaimsKept(s, s', id) && LabelsKept(s, s', id)
  {
    if By(e, id) {
      assert s'.machineSets == s.machineSets && s'.machines == s.machines && s'.nodes == s.nodes;
    } else {
      OthersKeepClaims(c, s, e, s', id);
      if !e.Environment? {
        OthersKeepLabels(c, s, e, s', id);
      }
    }
  }

  /** What is asked of each event before the finalisation: the environment leaves id's labels alone, the gate
      lets id's passes through, and nobody hands machines over to id's label. */
  ghost predicate UntilFinalised(c: Context, s: State, e: Event, s': State, id: AwId, demand: map<string, int>) {
    && HandsOverElsewhere(e, id)
    && (e.Environment? ==> LabelsKept(s, s', id))
    && (By(e, id) ==> !e.Release? && !e.Swap?)
    && (By(e, id) && e.Scale? ==> Gate(s.machines, id, demand, c.maxNodes))
  }

  ghost predicate SoloAt(states: seq<State>, demand: map<string, int>, t: string, n: string, i: nat)
    requires i < |states|
  {
    Solo(states[i], demand, t, n)
  }

  ghost predicate NotYetFinalised(c: Context, states: seq<State>, events: seq<Event>, id: AwId,
        demand: map<string, int>, i: nat)
    requires |states| == |events| + 1 && i < |events|
  {
    UntilFinalised(c, states[i], events[i], states[i + 1], id, demand)
  }

  /** The life of id, from before its first claim up to event k: one demanded type, one MachineSet of
      that type, no machine or node with its label at first. */
  ghost predicate SoloLife(c: Context, states: seq<State>, events: seq<Event>, id: AwId, demand: map<string, int>,
        t: string, n: string, k: nat)
    requires |states| == |events| + 1 && k <= |events|
  {
    && SteadyLife(states, events, id, demand)
    && (forall i: nat | i < |states| :: SoloAt(states, demand, t, n, i))
    && (forall i: nat | i < k :: NotYetFinalised(c, states, events, id, demand, i))
    && n in states[0].machineSets
    && ClaimKey(id) !in states[0].machineSets[n].labels && NoneLabelled(states[0].machines, id)
    && (forall x | x in states[0].nodes :: !HasAwLabel(states[0].nodes[x].labels, id))
  }

  lemma SettledAtFirst(s: State, id: AwId, demand: map<string, int>, t: string, n: string)
    requires ValidId(id) && Solo(s, demand, t, n)
    requires ClaimKey(id) !in s.machineSets[n].labels && NoneLabelled(s.machines, id)
    requires forall x | x in s.nodes :: !HasAwLabel(s.nodes[x].labels, id)
    ensures Settled(s, id, demand, t, n)
  {
    forall m | m in s.machines
      ensures m !in Carrying(s.machines, id, t)
    {
      CarryingIs(s.machines, id, t, m);
    }
    assert Carrying(s.machines, id, t) == {};
  }

  /** Between two passes the life stays settled, and no pass so far has counted a machine. */
  lemma StaysSettled(c: Context, states: seq<State>, events: seq<Event>, id: AwId, demand: map<string, int>,
        t: string, n: string, k: nat, j: nat)
    requires c.backend.Reuse? && Run(c, states, events) && j <= k <= |events|
    requires SoloLife(c, states, events, id, demand, t, n, k)
    ensures Settled(states[j], id, demand, t, n)
    ensures forall i | 0 <= i < j :: CountedIn(events[i], id, n) == 0
  {
    assert SoloAt(states, demand, t, n, 0);
    SettledAtFirst(states[0], id, demand, t, n);
    forall i: nat | i < j
      ensures SettledNext(states, events, id, demand, t, n, i)
    {
      SettlesAt(c, states, events, id, demand, t, n, k, i);
    }
    SettledThroughout(states, events, id, demand, t, n, j);
  }

  ghost predicate SettledNext(states: seq<State>, events: seq<Event>, id: AwId, demand: map<string, int>, t: string,
        n: string, i: nat)
    requires |states| == |events| + 1 && i < |events|
  {
    Settled(states[i], id, demand, t, n) ==>
        Settled(states[i + 1], id, demand, t, n) && CountedIn(events[i], id, n) == 0
  }

  lemma SettlesAt(c: Context, states: seq<State>, events: seq<Event>, id: AwId, demand: map<string, int>, t: string,
        n: string, k: nat, i: nat)
    requires c.backend.Reuse? && Run(c, states, events) && i < k <= |events|
    requires SoloLife(c, states, events, id, demand, t, n, k)
    ensures SettledNext(states, events, id, demand, t, n, i)
  {
    StepAt(c, states, events, i);
    assert SoloAt(states, demand, t, n, i + 1) && NotYetFinalised(c, states, events, id, demand, i);
    if Settled(states[i], id, demand, t, n) {
      StepSettles(c, states[i], events[i], states[i + 1], id, demand, t, n);
    }
  }

  lemma {:induction false} SettledThroughout(states: seq<State>, events: seq<Event>, id: AwId,
        demand: map<string, int>, t: string, n: string, k: nat)
    requires |states| == |events| + 1 && k <= |events| && Settled(states[0], id, demand, t, n)
    requires forall i: nat | i < k :: SettledNext(states, events, id, demand, t, n, i)
    ensures Settled(states[k], id, demand, t, n)
    ensures forall i | 0 <= i < k :: CountedIn(events[i], id, n) == 0
  {
    if k > 0 {
      SettledThroughout(states, events, id, demand, t, n, k - 1);
      var last := SettledNext(states, events, id, demand, t, n, k - 1);
    }
  }

  /** What a clean finalisation of a settled AppWrapper does: the claim on n is gone; the machines marked for
      deletion are exactly the non-Deleting ones reached through nodes with the label; they all belong
      to n; there are no more of them than demanded; and if there are any, n loses as many replicas as
      are demanded. */
  ghost predicate MarksMatch(s: State, marked: set<string>, s': State, id: AwId, demand: map<string, int>, t: string,
        n: string) {
    && n in s.machineSets && n in s'.machineSets && ClaimKey(id) !in s'.machineSets[n].labels
    && marked == Reached(s.machines, s.nodes, AwLabel(id))
    && (forall m | m in marked :: m in s.machines && LabelOf(s.machines[m].labels, OWNER_LABEL) == n)
    && t in demand && |marked| <= demand[t]
    && (marked != {} ==> s'.machineSets[n].replicas == Wrap32(s.machineSets[n].replicas - demand[t]))
  }

  /** Deletion marks match the replicas removed. */
  lemma MarksMatchReplicas(c: Context, s: State, e: Event, s': State, id: AwId, demand: map<string, int>, t: string,
        n: string)
    requires c.backend.Reuse? && Step(c, s, e, s') && By(e, id) && e.Release? && e.clean
    requires Demands(s, id, demand) && ClaimsAgree(s, id, demand) && Settled(s, id, demand, t, n)
    ensures MarksMatch(s, e.marked, s', id, demand, t, n)
  {
    DemandFits(s.aws[id]);
    ReleaseMatches(s, id, e.marked, e.released, e.stuck, e.dropped, s', demand, t, n);
  }

  lemma ReleaseMatches(s: State, id: AwId, marked: set<string>, released: set<string>, stuck: set<string>, ok: bool,
        s': State, demand: map<string, int>, t: string, n: string)
    requires ValidId(id) && ValuesFit(demand) && ClaimsReleased(s, id, marked, released, stuck, ok, true, s')
    requires ClaimsAgree(s, id, demand) && Settled(s, id, demand, t, n)
    ensures MarksMatch(s, marked, s', id, demand, t, n)
  {
    ClaimsGiveBackDemand(s, demand, id, t, n);
    MarkedAreCarrying(s, id, demand, t, n, marked);
    AllGivenBack(s.machineSets, ClaimKey(id), released, stuck, ok, s'.machineSets, n);
  }

  lemma AllGivenBack(sets: map<string, MachineSet>, key: string, released: set<string>, stuck: set<string>, ok: bool,
        sets': map<string, MachineSet>, n: string)
    requires ClaimsGivenBack(sets, key, released, stuck, ok, true, sets') && ClaimsParse(sets, key) && n in sets
    ensures n in sets' && key !in sets'[n].labels
    ensures key in sets[n].labels ==> sets'[n].replicas == Wrap32(sets[n].replicas - ClaimIn(sets[n].labels, key))
  {
  }

  lemma ClaimsGiveBackDemand(s: State, demand: map<string, int>, id: AwId, t: string, n: string)
    requires ClaimsAgree(s, id, demand) && Solo(s, demand, t, n) && ValuesFit(demand)
    ensures ClaimsParse(s.machineSets, ClaimKey(id))
    ensures Holders(s.machineSets, ClaimKey(id)) <= {n}
    ensures ClaimKey(id) in s.machineSets[n].labels ==> ClaimIn(s.machineSets[n].labels, ClaimKey(id)) == demand[t]
  {
    assert s.machineSets[n].instanceType == t by {
      assert n in Pairs(s.machineSets, demand);
    }
    AtoiInvertsFormatInt(demand[t]);
    forall o | o in Holders(s.machineSets, ClaimKey(id))
      ensures o == n
    {
      assert ClaimMatches(s.machineSets[o], id, demand);
      assert o in Pairs(s.machineSets, demand);
    }
  }

  lemma MarkedAreCarrying(s: State, id: AwId, demand: map<string, int>, t: string, n: string, marked: set<string>)
    requires ValidId(id) && Settled(s, id, demand, t, n) && marked == Reached(s.machines, s.nodes, AwLabel(id))
    ensures t in demand && |marked| <= demand[t]
    ensures forall m | m in marked :: m in s.machines && LabelOf(s.machines[m].labels, OWNER_LABEL) == n
    ensures marked != {} ==> ClaimKey(id) in s.machineSets[n].labels
  {
    forall m | m in marked
      ensures m in s.machines && HasAwLabel(s.machines[m].labels, id) && m in Carrying(s.machines, id, t)
    {
      var x :| x in s.nodes && HasAwLabel(s.nodes[x].labels, id) && MachineOfNode(s.nodes[x]) == Some(m)
          && m in NotDeleting(s.machines);
      CarryingIs(s.machines, id, t, m);
    }
    SmallerSet(marked, Carrying(s.machines, id, t));
  }

  /** Scale-up and finalisation cancel, and the machines marked on the way out match. For an AppWrapper
      that demands one type, of which there is one MachineSet, with clean passes that the gate lets
      through: whatever other AppWrappers and the environment do to that MachineSet in between, the net
      effect of the AppWrapper on its replicas, up to and including its finalisation, is zero. */
  lemma ScaleUpAndFinalisationCancel(c: Context, states: seq<State>, events: seq<Event>, id: AwId,
        demand: map<string, int>, t: string, n: string, k: nat)
    requires c.backend.Reuse? && Run(c, states, events) && k < |events|
    requires SoloLife(c, states, events, id, demand, t, n, k)
    requires By(events[k], id) && events[k].Release?
    ensures Wrap32(NetEffect(states, events, id, n, k + 1)) == 0
    ensures (forall i | 0 <= i < k + 1 :: NoOverflow(states[i], events[i], states[i + 1], n)) ==>
              NetEffect(states, events, id, n, k + 1) == 0
    ensures MarksMatch(states[k], events[k].marked, states[k + 1], id, demand, t, n)
  {
    CountsNothingThroughout(c, states, events, id, demand, t, n, k);
    SoloStored(c, states, events, id, demand, t, n, k);
    FinalisationInRun(c, states, events, id, demand, t, n, k);
    NetEffectVanishes(c, states, events, id, demand, n, k + 1);
  }

  lemma CountsNothingThroughout(c: Context, states: seq<State>, events: seq<Event>, id: AwId,
        demand: map<string, int>, t: string, n: string, k: nat)
    requires c.backend.Reuse? && Run(c, states, events) && k < |events| && !IsRaise(events[k], id)
    requires SoloLife(c, states, events, id, demand, t, n, k)
    ensures Settled(states[k], id, demand, t, n)
    ensures CountedRaises(events, id, n, k + 1) == 0
  {
    StaysSettled(c, states, events, id, demand, t, n, k, k);
    NothingCounted(events, id, n, k + 1);
  }

  lemma NetEffectVanishes(c: Context, states: seq<State>, events: seq<Event>, id: AwId, demand: map<string, int>,
        n: string, k: nat)
    requires c.backend.Reuse? && Run(c, states, events) && k <= |events| && SteadyLife(states, events, id, demand)
    requires forall i | 0 <= i < |states| :: n in states[i].machineSets
    requires n !in Holders(states[0].machineSets, ClaimKey(id)) && n !in Holders(states[k].machineSets, ClaimKey(id))
    requires CountedRaises(events, id, n, k) == 0
    ensures Wrap32(NetEffect(states, events, id, n, k)) == 0
    ensures (forall i | 0 <= i < k :: NoOverflow(states[i], events[i], states[i + 1], n)) ==>
              NetEffect(states, events, id, n, k) == 0
  {
    NetEffectIsMinusCounted(c, states, events, id, n, demand, k);
  }

  lemma FinalisationInRun(c: Context, states: seq<State>, events: seq<Event>, id: AwId, demand: map<string, int>,
        t: string, n: string, k: nat)
    requires c.backend.Reuse? && Run(c, states, events) && k < |events| && SteadyLife(states, events, id, demand)
    requires By(events[k], id) && events[k].Release? && Settled(states[k], id, demand, t, n)
    ensures MarksMatch(states[k], events[k].marked, states[k + 1], id, demand, t, n)
    ensures n !in Holders(states[k + 1].machineSets, ClaimKey(id))
  {
    ClaimsStayAgreed(c, states, events, id, demand, k);
    StepAt(c, states, events, k);
    MarksMatchReplicas(c, states[k], events[k], states[k + 1], id, demand, t, n);
  }

  lemma SoloStored(c: Context, states: seq<State>, events: seq<Event>, id: AwId, demand: map<string, int>, t: string,
        n: string, k: nat)
    requires |states| == |events| + 1 && k <= |events| && SoloLife(c, states, events, id, demand, t, n, k)
    ensures SteadyLife(states, events, id, demand)
    ensures forall i | 0 <= i < |states| :: n in states[i].machineSets
    ensures n !in Holders(states[0].machineSets, ClaimKey(id))
  {
    forall i | 0 <= i < |states|
      ensures n in states[i].machineSets
    {
      assert SoloAt(states, demand, t, n, i);
      assert n in Pairs(states[i].machineSets, demand);
    }
  }

  lemma {:induction false} NothingCounted(events: seq<Event>, id: AwId, n: string, k: nat)
    requires k <= |events|
    requires forall i | 0 <= i < k :: CountedIn(events[i], id, n) == 0
    ensures CountedRaises(events, id, n, k) == 0
  {
    if k > 0 {
      NothingCounted(events, id, n, k - 1);
    }
  }
}
