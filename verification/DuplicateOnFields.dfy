/** What the events of the strategy that copies MachineSets do to the fields of the objects. */
module DuplicateOnFields {
  import opened GoPrimitives
  import opened Model
  import opened Steps
  import opened Effects
  import opened Texts
  import opened Ledger
  import opened FixedDemand
  import opened DuplicateRuns
  import opened ReuseController
  import opened AppWrapperController

  lemma CopyNameIsText(id: AwId, t: string)
    ensures CopyName(id, t) == CopyText(id, t)
  {
  }

  /** Copies for different types have different names. */
  lemma CopyTextInjective(id: AwId, t: string, u: string)
    requires CopyText(id, t) == CopyText(id, u)
    ensures t == u
  {
    var n := |id.name + "-" + id.namespace + "-"|;
    assert CopyText(id, t)[n..] == t && CopyText(id, u)[n..] == u;
  }

  predicate IsCopyFor(ms: MachineSet, id: AwId) {
    Has(ms.labels, "instascale.codeflare.dev-aw", LabelText(id))
  }

  lemma CopiesOnFields(sets: map<string, MachineSet>, id: AwId)
    ensures Copies(sets, id) == set n | n in sets && IsCopyFor(sets[n], id)
  {
    TextsAreWritten(id);
    forall n | n in sets
      ensures n in Copies(sets, id) <==> IsCopyFor(sets[n], id)
    {
      MatchesOne(sets[n].labels, COPY_LABEL, AwLabel(id));
    }
  }

  /** A copy of `source` with d replicas: it selects the machines of its own template, carries the label of copies,
      and is otherwise the source. */
  predicate CopiedFrom(source: MachineSet, copy: MachineSet, id: AwId, d: int) {
    && copy.instanceType == source.instanceType
    && copy.replicas == Wrap32(d) && copy.available == 0
    && copy.selector == copy.templateLabels == map[id.name := id.name]
    && copy.taints == [id.name]
    && IsCopyFor(copy, id)
    && forall k | k in source.labels && k != "instascale.codeflare.dev-aw" :: Has(copy.labels, k, source.labels[k])
  }

  /** A pass creates at most one MachineSet: a copy of one of a demanded type, under the name of the AppWrapper and the
      type, which was free; it touches no other, and labels nodes only. */
  lemma CopyOnFields(c: Context, s: State, e: Event, s': State)
    requires Step(c, s, e, s') && e.Copy?
    ensures e.id in s.aws && s'.aws == s.aws && s'.pools == s.pools && s'.machines == s.machines
    ensures s'.nodes.Keys == s.nodes.Keys
    ensures forall x | x in s.nodes ::
              s'.nodes[x] == if x in e.copyNodes
                             then s.nodes[x].(labels := s.nodes[x].labels[LabelText(e.id) := LabelText(e.id)])
                             else s.nodes[x]
    ensures forall x | x in e.copyNodes :: exists m :: NodeOfMachine(s, e.id, x, m, e.clean)
    ensures match e.created
            case None => s'.machineSets == s.machineSets
            case Some(NewCopy(t, source)) => CreatedOnFields(s, DemandOf(s.aws[e.id]), e.id, t, source, s')
  {
    TextsAreWritten(e.id);
    CopyNodesOnFields(s, e.id, e.copyNodes, e.clean);
    if e.created.Some? {
      CreationOnFields(s, DemandOf(s.aws[e.id]), e, s');
    }
  }

  /** x is the node of machine m, which, if `ofCopy`, carries the label of copies. */
  predicate NodeOfMachine(s: State, id: AwId, x: string, m: string, ofCopy: bool) {
    && m in s.machines && s.machines[m].nodeName == x
    && (ofCopy ==> Has(s.machines[m].labels, "instascale.codeflare.dev-aw", LabelText(id)))
  }

  lemma CopyNodesOnFields(s: State, id: AwId, nodes: set<string>, clean: bool)
    requires CopyNodesLabelled(s.machines, id, nodes, clean)
    ensures forall x | x in nodes :: exists m :: NodeOfMachine(s, id, x, m, clean)
    ensures forall x, m | NodeOfMachine(s, id, x, m, true) :: x in CopyNodes(s.machines, id)
  {
    TextsAreWritten(id);
    var sel := map[COPY_LABEL := AwLabel(id)];
    forall m | m in s.machines
      ensures Matches(sel, s.machines[m].labels) <==>
                Has(s.machines[m].labels, "instascale.codeflare.dev-aw", LabelText(id))
    {
      MatchesOne(s.machines[m].labels, COPY_LABEL, AwLabel(id));
    }
    forall x | x in nodes
      ensures exists m :: NodeOfMachine(s, id, x, m, clean)
    {
      var from := if clean then Select(s.machines, sel) else s.machines.Keys;
      var m :| m in from && m in s.machines && s.machines[m].nodeName == x;
      assert NodeOfMachine(s, id, x, m, clean);
    }
  }

  predicate CreatedOnFields(s: State, demand: map<string, int>, id: AwId, t: string, source: string, s': State) {
    && t in demand && source in s.machineSets && s.machineSets[source].instanceType == t
    && CopyText(id, t) !in s.machineSets && CopyText(id, t) in s'.machineSets
    && CopiedFrom(s.machineSets[source], s'.machineSets[CopyText(id, t)], id, demand[t])
    && s'.machineSets == s.machineSets[CopyText(id, t) := s'.machineSets[CopyText(id, t)]]
  }

  lemma CreationOnFields(s: State, demand: map<string, int>, e: Event, s': State)
    requires e.Copy? && e.created.Some? && CreatedOrWaits(s.machineSets, demand, e, s'.machineSets)
    ensures CreatedOnFields(s, demand, e.id, e.created.value.instance, e.created.value.source, s')
  {
    TextsAreWritten(e.id);
    CopyNameIsText(e.id, e.created.value.instance);
  }

  /** A pass that is reported done, with no failing call, has labelled the nodes of all machines of copies, if there is
      a MachineSet of a demanded type. */
  lemma DoneMeansNodesLabelled(maxNodes: int, s: State, e: Event, s': State)
    requires Reported(maxNodes, s, e, Done, true, s') && e.Copy?
    requires exists n :: n in s.machineSets && s.machineSets[n].instanceType in DemandOf(s.aws[e.id])
    ensures forall m | m in s.machines && Has(s.machines[m].labels, "instascale.codeflare.dev-aw", LabelText(e.id)) ::
              s.machines[m].nodeName in e.copyNodes
  {
    var n :| n in s.machineSets && s.machineSets[n].instanceType in DemandOf(s.aws[e.id]);
    assert n in Pairs(s.machineSets, DemandOf(s.aws[e.id]));
    CopyNodesOnFields(s, e.id, {}, true);
    forall m | m in s.machines && Has(s.machines[m].labels, "instascale.codeflare.dev-aw", LabelText(e.id))
      ensures s.machines[m].nodeName in e.copyNodes
    {
      assert NodeOfMachine(s, e.id, s.machines[m].nodeName, m, true);
    }
  }

  /** A finalisation deletes MachineSets that carry the label of the AppWrapper's copies and no others; when the
      finalizer goes, all of them. */
  lemma DiscardOnFields(c: Context, s: State, e: Event, s': State)
    requires Step(c, s, e, s') && e.Discard?
    ensures forall n | n in s'.machineSets :: n in s.machineSets && s'.machineSets[n] == s.machineSets[n]
    ensures forall n | n in s.machineSets && !IsCopyFor(s.machineSets[n], e.id) :: n in s'.machineSets
    ensures e.dropped ==> forall n | n in s'.machineSets :: !IsCopyFor(s'.machineSets[n], e.id)
    ensures s'.machines == s.machines && s'.nodes == s.nodes && s'.pools == s.pools
  {
    CopiesOnFields(s.machineSets, e.id);
  }

  /** MachineSet n is the copy that serves d machines of type t. */
  predicate Serves(sets: map<string, MachineSet>, id: AwId, t: string, d: int, n: string) {
    && n in sets && IsCopyFor(sets[n], id)
    && sets[n].instanceType == t && sets[n].replicas == Wrap32(d) && Wrap32(d - sets[n].available) == 0
  }

  /** All copies ready means that every demanded type with a template has a MachineSet of its own that serves it. In any
      state of a run, with a fixed demand and as long as the environment does not scale the copies. */
  lemma ReadyMeansServed(c: Context, states: seq<State>, events: seq<Event>, id: AwId, demand: map<string, int>, k: nat)
    requires c.backend.Duplicate? && Run(c, states, events) && k <= |events|
    requires forall i | 0 <= i < |events| :: Apart(events[i], id)
    requires forall i | 0 <= i < |states| :: Demands(states[i], id, demand)
    requires forall i | 0 <= i < |events| && events[i].Environment? :: CopiesNotScaled(states[i], states[i + 1], id)
    requires forall n | n in states[0].machineSets :: !IsCopyFor(states[0].machineSets[n], id)
    requires CopiesReady(states[k].machineSets, id, demand)
    ensures var sets := states[k].machineSets;
            forall t | t in demand && (exists o :: o in sets && sets[o].instanceType == t) ::
                Serves(sets, id, t, demand[t], CopyText(id, t))
    ensures forall t, u | CopyText(id, t) == CopyText(id, u) :: t == u
  {
    CopiesOnFields(states[0].machineSets, id);
    OneCopyPerType(c, states, events, id, demand, k);
    AgreedAndReady(states[k], id, demand);
    forall t, u | CopyText(id, t) == CopyText(id, u)
      ensures t == u
    {
      CopyTextInjective(id, t, u);
    }
  }

  lemma AgreedAndReady(s: State, id: AwId, demand: map<string, int>)
    requires CopiesAgree(s, id, demand) && CopiesReady(s.machineSets, id, demand)
    ensures forall t | t in demand && (exists o :: o in s.machineSets && s.machineSets[o].instanceType == t) ::
              Serves(s.machineSets, id, t, demand[t], CopyText(id, t))
  {
    CopiesOnFields(s.machineSets, id);
    forall t | t in demand && (exists o :: o in s.machineSets && s.machineSets[o].instanceType == t)
      ensures Serves(s.machineSets, id, t, demand[t], CopyText(id, t))
    {
      var o :| o in s.machineSets && s.machineSets[o].instanceType == t;
      var n := CopyName(id, t);
      assert o in Pairs(s.machineSets, demand) && CopyReady(s.machineSets, id, t, demand[t]);
      CopyNameIsText(id, t);
      CopyNameIsText(id, s.machineSets[n].instanceType);
      CopyTextInjective(id, t, s.machineSets[n].instanceType);
    }
  }
}
