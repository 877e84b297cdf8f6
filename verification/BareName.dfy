/** What selecting on the bare AppWrapper name comes to: the scale gate and the one-step removal look for a label
    that the reuse strategy never writes. */
module BareName {
  import opened GoPrimitives
  import opened Sums
  import opened Model
  import opened Steps
  import opened Effects
  import opened Ledger

  predicate HasBareLabel(labels: Labels, id: AwId) {
    id.name in labels && labels[id.name] == id.name
  }

  ghost predicate NoBareLabels(s: State, id: AwId) {
    && (forall m | m in s.machines :: !HasBareLabel(s.machines[m].labels, id))
    && (forall x | x in s.nodes :: !HasBareLabel(s.nodes[x].labels, id))
  }

  /** The event does not label machines with id's bare name: it is not by an AppWrapper whose name and
      namespace, joined, are that name. */
  predicate WritesOtherLabels(e: Event, id: AwId) {
    e.Scale? ==> AwLabel(e.id) != id.name
  }

  lemma HeirLabelsAreNotBare(labels: Labels, id: AwId, other: AwId, heir: AwId)
    ensures HasBareLabel(SwapLabels(labels, AwLabel(other), AwLabel(heir), heir.name), id) ==> HasBareLabel(labels, id)
    ensures HasBareLabel(SwapLabels(labels, AwLabel(other), NodeHeirLabel(other, heir), heir.name), id) ==>
              HasBareLabel(labels, id)
  {
    assert |AwLabel(heir)| > |heir.name| && |NodeHeirLabel(other, heir)| > |heir.name|;
  }

  lemma NoBareLabelsStep(c: Context, s: State, e: Event, s': State, id: AwId)
    requires c.backend.Reuse? && Step(c, s, e, s') && ValidId(id) && NoBareLabels(s, id) && WritesOtherLabels(e, id)
    requires e.Environment? ==> NoBareLabels(s', id)
    ensures NoBareLabels(s', id)
  {
    match e {
      case Scale(other, touched, touchedNodes, marked, _, _, _) =>
        LabellingKeepsBare(s, s', id, touched, touchedNodes, marked, AwLabel(other));
      case Release(other, marked, _, _, _, _) =>
        NothingTouched(s.machines, s.nodes, "");
        LabellingKeepsBare(s, s', id, {}, {}, marked, "");
      case Swap(other, heir, handed, handedNodes, _) =>
        SwappingKeepsBare(s, s', id, other, heir, handed, handedNodes);
      case _ =>
    }
  }

  lemma LabellingKeepsBare(s: State, s': State, id: AwId, touched: set<string>, touchedNodes: set<string>,
        marked: set<string>, key: string)
    requires NoBareLabels(s, id) && key != id.name
    requires s'.machines == MarkMachines(LabelMachines(s.machines, touched, key), marked)
    requires s'.nodes == LabelNodes(s.nodes, touchedNodes, key)
    ensures NoBareLabels(s', id)
  {
  }

  lemma SwappingKeepsBare(s: State, s': State, id: AwId, other: AwId, heir: AwId, handed: set<string>,
        handedNodes: set<string>)
    requires NoBareLabels(s, id)
    requires s'.machines == SwapMachines(s.machines, handed, other, heir)
             && s'.nodes == SwapNodes(s.nodes, handedNodes, other, heir)
    ensures NoBareLabels(s', id)
  {
    forall m | m in s.machines
      ensures !HasBareLabel(s'.machines[m].labels, id)
    {
      HeirLabelsAreNotBare(s.machines[m].labels, id, other, heir);
    }
    forall x | x in s.nodes
      ensures !HasBareLabel(s'.nodes[x].labels, id)
    {
      HeirLabelsAreNotBare(s.nodes[x].labels, id, other, heir);
    }
  }

  lemma NothingSelected(s: State, id: AwId)
    requires NoBareLabels(s, id) && ValidId(id)
    ensures GateMachines(s.machines, id) == {}
    ensures forall t: string :: NamedByNodes(s.nodes, id, t) == {}
  {
    KeysApart(id);
    forall m | m in s.machines
      ensures !Matches(map[id.name := id.name], s.machines[m].labels)
    {
      MatchesOne(s.machines[m].labels, id.name, id.name);
    }
    forall t: string
      ensures NamedByNodes(s.nodes, id, t) == {}
    {
      forall x | x in s.nodes
        ensures !Matches(map[id.name := id.name, NODE_TYPE_LABEL := t], s.nodes[x].labels)
      {
        MatchesTwo(s.nodes[x].labels, id.name, id.name, NODE_TYPE_LABEL, t);
      }
    }
  }

  /** What a pass comes to when nothing carries the bare name: the gate asks for the demand alone, and the
      removal neither marks nor lowers anything. */
  ghost predicate SelectsNothing(e: Event, demand: map<string, int>, maxNodes: int) {
    e.Scale? ==>
      match e.act
      case NoUpdate => true
      case Raise(_, _, gated, _) => gated == 0 && Wrap32(SumValues(demand)) <= maxNodes
      case Shrink(_, lowered) => lowered.None? && e.marked == {}
  }

  lemma PassSelectsNothing(c: Context, s: State, e: Event, s': State, id: AwId)
    requires c.backend.Reuse? && Step(c, s, e, s') && By(e, id) && ValidId(id) && NoBareLabels(s, id)
    ensures id in s.aws ==> SelectsNothing(e, DemandOf(s.aws[id]), c.maxNodes)
  {
    NothingSelected(s, id);
  }

  /** Over a run in which nobody else puts the bare name of an AppWrapper on machines or nodes, and whatever fails:
      the scale gate never counts a machine of the AppWrapper, so that it limits the demand and not the
      cluster; and the shrink path, when it is taken, never lowers a MachineSet. */
  lemma BareNameSelectsNothing(c: Context, states: seq<State>, events: seq<Event>, id: AwId, k: nat)
    requires c.backend.Reuse? && Run(c, states, events) && ValidId(id) && k <= |events| && NoBareLabels(states[0], id)
    requires forall i | 0 <= i < |events| :: WritesOtherLabels(events[i], id)
    requires forall i | 0 <= i < |events| && events[i].Environment? :: NoBareLabels(states[i + 1], id)
    ensures NoBareLabels(states[k], id) && GateMachines(states[k].machines, id) == {}
    ensures k < |events| && By(events[k], id) && id in states[k].aws ==>
              SelectsNothing(events[k], DemandOf(states[k].aws[id]), c.maxNodes)
  {
    NoBareLabelsThroughout(c, states, events, id, k);
    NothingSelected(states[k], id);
    if k < |events| && By(events[k], id) {
      PassSelectsAt(c, states, events, id, k);
    }
  }

  lemma {:induction false} NoBareLabelsThroughout(c: Context, states: seq<State>, events: seq<Event>, id: AwId, k: nat)
    requires c.backend.Reuse? && Run(c, states, events) && ValidId(id) && k <= |events| && NoBareLabels(states[0], id)
    requires forall i | 0 <= i < |events| :: WritesOtherLabels(events[i], id)
    requires forall i | 0 <= i < |events| && events[i].Environment? :: NoBareLabels(states[i + 1], id)
    ensures NoBareLabels(states[k], id)
  {
    if k > 0 {
      NoBareLabelsThroughout(c, states, events, id, k - 1);
      LastStep(c, states, events, k);
      assert events[k - 1].Environment? ==> NoBareLabels(states[k - 1 + 1], id);
      NoBareLabelsStep(c, states[k - 1], events[k - 1], states[k], id);
    }
  }

  lemma PassSelectsAt(c: Context, states: seq<State>, events: seq<Event>, id: AwId, k: nat)
    requires c.backend.Reuse? && Run(c, states, events) && ValidId(id) && k < |events| && By(events[k], id)
    requires NoBareLabels(states[k], id)
    ensures id in states[k].aws ==> SelectsNothing(events[k], DemandOf(states[k].aws[id]), c.maxNodes)
  {
    StepAt(c, states, events, k);
    PassSelectsNothing(c, states[k], events[k], states[k + 1], id);
  }
}
