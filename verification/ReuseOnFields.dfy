/** What the events of the reuse strategy do to the fields of the objects. */
module ReuseOnFields {
  import opened GoPrimitives
  import opened Sums
  import opened Model
  import opened Steps
  import opened Effects
  import opened Texts
  import opened ReuseController

  // ----- selections -----

  /** Which machines the selectors select. */
  lemma SelectedMachines(machines: map<string, Machine>, id: AwId, t: string, n: string, m: string)
    requires ValidId(id) && m in machines
    ensures m in Carrying(machines, id, t) <==> HasLabelText(machines[m].labels, id) && HasType(machines[m].labels, t)
    ensures m in MachinesOf(machines, t, n) <==> HasType(machines[m].labels, t) && HasOwner(machines[m].labels, n)
    ensures m in GateMachines(machines, id) <==>
            Has(machines[m].labels, id.name, id.name) && machines[m].phase != "Deleting"
    ensures m in Running(machines) <==> machines[m].phase == "Running"
  {
    TextsAreWritten(id);
    KeysApart(id);
    OwnerKeysApart();
    MatchesTwo(machines[m].labels, AwLabel(id), AwLabel(id), TYPE_LABEL, t);
    MatchesTwo(machines[m].labels, TYPE_LABEL, t, OWNER_LABEL, n);
    MatchesOne(machines[m].labels, id.name, id.name);
  }

  /** The machines that run with the AppWrapper's label, of type t, if those in `more` had it too. */
  function RunningWithLabel(machines: map<string, Machine>, more: set<string>, id: AwId, t: string): set<string> {
    set m | m in machines && machines[m].phase == "Running" && HasType(machines[m].labels, t)
            && (m in more || HasLabelText(machines[m].labels, id))
  }

  /** The machines in any phase but Deleting with the AppWrapper's bare name as a label. */
  function WithBareName(machines: map<string, Machine>, id: AwId): set<string> {
    set m | m in machines && machines[m].phase != "Deleting" && Has(machines[m].labels, id.name, id.name)
  }

  lemma CountsOnFields(machines: map<string, Machine>, more: set<string>, id: AwId, t: string)
    requires ValidId(id)
    ensures CountedAt(machines, more, id, t) == RunningWithLabel(machines, more, id, t)
    ensures Running(machines) * Carrying(machines, id, t) == RunningWithLabel(machines, {}, id, t)
    ensures GateMachines(machines, id) == WithBareName(machines, id)
  {
    var after := LabelMachines(machines, more, AwLabel(id));
    TextsAreWritten(id);
    KeysApart(id);
    forall m | m in machines
      ensures m in CountedAt(machines, more, id, t) <==> m in RunningWithLabel(machines, more, id, t)
      ensures m in Running(machines) * Carrying(machines, id, t) <==> m in RunningWithLabel(machines, {}, id, t)
      ensures m in GateMachines(machines, id) <==> m in WithBareName(machines, id)
    {
      SelectedMachines(after, id, t, "", m);
      SelectedMachines(machines, id, t, "", m);
    }
  }

  /** The machine a node names: the text between the first two slashes of its annotation. */
  lemma NodeNamesMachine(node: Node, namespace: string, m: string)
    requires Has(node.annotations, "machine.openshift.io/machine", namespace + "/" + m)
    requires '/' !in namespace && '/' !in m
    ensures MachineOfNode(node) == Some(m)
  {
    assert namespace + "/" + m == namespace + ['/'] + m;
    SplitAfterWord(namespace, '/', m);
    SplitPlain(m, '/');
  }

  // ----- a pass -----

  /** What a pass does to one machine: the label goes onto running machines of MachineSets of a demanded type, the
      mark onto machines only in the one-step removal, and nothing else changes. */
  predicate MachineInPass(s: State, e: Event, demand: map<string, int>, m: string, s': State)
    requires e.Scale? && m in s.machines && m in s'.machines
  {
    var before, after := s.machines[m], s'.machines[m];
    && after.phase == before.phase && after.nodeName == before.nodeName
    && after.labels == (if m in e.touched then before.labels[LabelText(e.id) := LabelText(e.id)] else before.labels)
    && after.annotations == (if m in e.marked
                             then before.annotations["machine.openshift.io/cluster-api-delete-machine" := "true"]
                             else before.annotations)
    && (m in e.touched ==>
          && before.phase == "Running"
          && exists n, t :: && HasOwner(before.labels, n) && HasType(before.labels, t) && n in s.machineSets
                          && s.machineSets[n].instanceType == t && t in demand)
    && (m in e.marked ==> e.act.Shrink?)
  }

  /** What a pass does to one node: the label goes onto nodes of machines labelled. */
  predicate NodeInPass(s: State, e: Event, x: string, s': State)
    requires e.Scale? && x in s.nodes && x in s'.nodes
  {
    && s'.nodes[x].annotations == s.nodes[x].annotations
    && s'.nodes[x].labels == (if x in e.touchedNodes then s.nodes[x].labels[LabelText(e.id) := LabelText(e.id)]
                              else s.nodes[x].labels)
    && (x in e.touchedNodes ==> exists m | m in e.touched && m in s.machines :: s.machines[m].nodeName == x)
  }

  /** A pass on machines and nodes, with any failures; when no call fails, the nodes labelled are those of the
      machines labelled. */
  lemma PassOnMachines(c: Context, s: State, e: Event, s': State)
    requires Step(c, s, e, s') && e.Scale?
    ensures e.id in s.aws && s'.aws == s.aws && s'.pools == s.pools
    ensures s'.machines.Keys == s.machines.Keys && s'.nodes.Keys == s.nodes.Keys
    ensures forall m | m in s.machines :: MachineInPass(s, e, DemandOf(s.aws[e.id]), m, s')
    ensures forall x | x in s.nodes :: NodeInPass(s, e, x, s')
    ensures e.clean ==> e.touchedNodes == set m | m in e.touched && m in s.machines :: s.machines[m].nodeName
  {
    GrownOnFields(s, DemandOf(s.aws[e.id]), e, s');
    assert e.marked != {} ==> e.act.Shrink?;
  }

  lemma GrownOnFields(s: State, demand: map<string, int>, e: Event, s': State)
    requires e.Scale? && Grown(s, demand, e.id, e.touched, e.touchedNodes, e.marked, e.clean, s')
    requires e.marked != {} ==> e.act.Shrink?
    ensures s'.machines.Keys == s.machines.Keys && s'.nodes.Keys == s.nodes.Keys
    ensures forall m | m in s.machines :: MachineInPass(s, e, demand, m, s')
    ensures forall x | x in s.nodes :: NodeInPass(s, e, x, s')
    ensures e.clean ==> e.touchedNodes == set m | m in e.touched && m in s.machines :: s.machines[m].nodeName
  {
    TextsAreWritten(e.id);
    forall m | m in s.machines
      ensures MachineInPass(s, e, demand, m, s')
    {
      if m in e.touched {
        var labels := s.machines[m].labels;
        assert HasOwner(labels, labels[OWNER_LABEL]) && HasType(labels, labels[TYPE_LABEL]);
      }
    }
    assert NodeNames(s.machines, e.touched) == set m | m in e.touched && m in s.machines :: s.machines[m].nodeName;
  }

  /** MachineSet n after its claim was set to d and `counted` machines were subtracted. */
  function WithClaim(ms: MachineSet, id: AwId, d: int, counted: int): MachineSet {
    MachineSet(ms.instanceType, Wrap32(ms.replicas + d - counted), ms.available,
               ms.labels[ClaimText(id) := FormatInt(d)], ms.taints, ms.templateLabels, ms.selector)
  }

  /** A raise: one MachineSet of a demanded type gets the claim, and as many replicas more as are demanded, less
      the labelled machines that ran before its own were labelled; the gate counted at most `maxNodes`. */
  ghost predicate RaiseOnSets(maxNodes: int, s: State, demand: map<string, int>, e: Event, s': State)
    requires e.Scale? && e.act.Raise?
  {
    var n := e.act.set_;
    && n in s.machineSets
    && var t := s.machineSets[n].instanceType;
    && t in demand
    && s'.machineSets == s.machineSets[n := WithClaim(s.machineSets[n], e.id, demand[t], e.act.counted)]
    && !Has(s.machineSets[n].labels, ClaimText(e.id), FormatInt(demand[t]))
    && Wrap32(e.act.gated + SumValues(demand)) <= maxNodes
    && (e.clean ==>
          && e.act.counted == |RunningWithLabel(s.machines, e.act.before, e.id, t)|
          && e.act.gated == |WithBareName(s.machines, e.id)|)
  }

  lemma RaiseChangesOneSet(c: Context, s: State, e: Event, s': State)
    requires Step(c, s, e, s') && e.Scale? && e.act.Raise?
    ensures e.id in s.aws && RaiseOnSets(c.maxNodes, s, DemandOf(s.aws[e.id]), e, s')
  {
    RaisedOnFields(c.maxNodes, s, DemandOf(s.aws[e.id]), e, s');
  }

  lemma RaisedOnFields(maxNodes: int, s: State, demand: map<string, int>, e: Event, s': State)
    requires e.Scale? && e.act.Raise? && ValidId(e.id) && Raised(maxNodes, s, demand, e, s'.machineSets)
    ensures RaiseOnSets(maxNodes, s, demand, e, s')
  {
    TextsAreWritten(e.id);
    CountsOnFields(s.machines, e.act.before, e.id, s.machineSets[e.act.set_].instanceType);
  }

  /** MachineSet o has the claim for its type set. */
  predicate HasClaim(s: State, demand: map<string, int>, id: AwId, o: string) {
    && o in s.machineSets && s.machineSets[o].instanceType in demand
    && Has(s.machineSets[o].labels, ClaimText(id), FormatInt(demand[s.machineSets[o].instanceType]))
  }

  /** No scaling twice. When no call fails, a pass updates or lowers MachineSets only if none of the MachineSets it
      visited, up to the one of the update, has the claim set, or another number of machines of that type runs with the
      label, once the pass has labelled its own, than is demanded. */
  lemma UpdatesOnlyWhenDue(c: Context, s: State, e: Event, s': State)
    requires Step(c, s, e, s') && e.Scale? && e.clean && !e.act.NoUpdate?
    ensures e.id in s.aws && e.act.set_ in e.seen && e.act.set_ in s.machineSets
    ensures var demand, t := DemandOf(s.aws[e.id]), s.machineSets[e.act.set_].instanceType;
            && t in demand
            && ((exists o :: o in e.seen && HasClaim(s, demand, e.id, o)) ==>
                  |RunningWithLabel(s.machines, e.touched, e.id, t)| != demand[t])
  {
    DueOnFields(c.maxNodes, s, DemandOf(s.aws[e.id]), e, s'.machineSets);
  }

  lemma DueOnFields(maxNodes: int, s: State, demand: map<string, int>, e: Event, sets': map<string, MachineSet>)
    requires e.Scale? && e.clean && !e.act.NoUpdate? && ValidId(e.id) && ReuseActed(maxNodes, s, demand, e, sets')
    ensures e.act.set_ in s.machineSets && s.machineSets[e.act.set_].instanceType in demand
    ensures var t := s.machineSets[e.act.set_].instanceType;
            (exists o :: o in e.seen && HasClaim(s, demand, e.id, o)) ==>
              |RunningWithLabel(s.machines, e.touched, e.id, t)| != demand[t]
  {
    TextsAreWritten(e.id);
    CountsOnFields(s.machines, e.touched, e.id, s.machineSets[e.act.set_].instanceType);
    assert forall o :: HasClaim(s, demand, e.id, o) <==>
             o in s.machineSets && ClaimMatches(s.machineSets[o], e.id, demand);
  }

  /** A node that the one-step removal selects leads to MachineSet o through machine m. */
  predicate LeadsTo(s: State, id: AwId, t: string, x: string, m: string, o: string) {
    && x in s.nodes && Has(s.nodes[x].labels, id.name, id.name)
    && Has(s.nodes[x].labels, "node.kubernetes.io/instance-type", t)
    && MachineOfNode(s.nodes[x]) == Some(m) && m in s.machines
    && HasOwner(s.machines[m].labels, o) && o != "" && o in s.machineSets
  }

  /** The shrink path: at most one MachineSet loses one replica, and gets the demand as its claim; when no call
      fails, one does if and only if more labelled machines run than are demanded and a node leads to one. */
  ghost predicate ShrinkOnSets(s: State, demand: map<string, int>, e: Event, s': State)
    requires e.Scale? && e.act.Shrink?
  {
    var n := e.act.set_;
    && n in s.machineSets
    && var t := s.machineSets[n].instanceType;
    && t in demand
    && (match e.act.lowered
        case None => s'.machineSets == s.machineSets
        case Some(o) =>
          && o in s.machineSets
          && s'.machineSets == s.machineSets[o := WithClaim(s.machineSets[o], e.id, demand[t], demand[t] + 1)])
    && (e.act.lowered.Some? || e.marked != {} ==> demand[t] < |RunningWithLabel(s.machines, e.touched, e.id, t)|)
    && (e.clean ==>
          (e.act.lowered.Some? <==>
            && demand[t] < |RunningWithLabel(s.machines, e.touched, e.id, t)|
            && exists x, m, o :: LeadsTo(s, e.id, t, x, m, o)))
  }

  lemma ShrinkLowersOneSet(c: Context, s: State, e: Event, s': State)
    requires Step(c, s, e, s') && e.Scale? && e.act.Shrink?
    ensures e.id in s.aws && ShrinkOnSets(s, DemandOf(s.aws[e.id]), e, s')
  {
    ShrunkOnFields(s, DemandOf(s.aws[e.id]), e, s');
  }

  lemma ShrunkOnFields(s: State, demand: map<string, int>, e: Event, s': State)
    requires e.Scale? && e.act.Shrink? && ValidId(e.id) && Shrunk(s, demand, e, s'.machineSets)
    ensures ShrinkOnSets(s, demand, e, s')
  {
    var t := s.machineSets[e.act.set_].instanceType;
    SetsLowered(s, e.id, t, demand[t], e, s'.machineSets);
    LoweredWhen(s, e.id, t, demand[t], e, s'.machineSets);
  }

  lemma LoweredWhen(s: State, id: AwId, t: string, d: int, e: Event, sets': map<string, MachineSet>)
    requires e.Scale? && e.act.Shrink? && ValidId(id)
    requires ShrunkBy(s, id, t, d, |CountedAt(s.machines, e.touched, id, t)|, e.marked, e.act.lowered, e.clean, sets')
    ensures e.act.lowered.Some? || e.marked != {} ==> d < |RunningWithLabel(s.machines, e.touched, id, t)|
    ensures e.clean ==>
              (e.act.lowered.Some? <==>
                && d < |RunningWithLabel(s.machines, e.touched, id, t)| && exists x, m, o :: LeadsTo(s, id, t, x, m, o))
  {
    CountsOnFields(s.machines, e.touched, id, t);
    LeadsOnFields(s, id, t);
  }

  lemma SetsLowered(s: State, id: AwId, t: string, d: int, e: Event, sets': map<string, MachineSet>)
    requires e.Scale? && e.act.Shrink?
    requires ShrunkBy(s, id, t, d, |CountedAt(s.machines, e.touched, id, t)|, e.marked, e.act.lowered, e.clean, sets')
    ensures match e.act.lowered
            case None => sets' == s.machineSets
            case Some(o) => o in s.machineSets && sets' == s.machineSets[o := WithClaim(s.machineSets[o], id, d, d + 1)]
  {
    if e.act.lowered.Some? {
      LoweredOnFields(s.machineSets[e.act.lowered.value], id, d);
    }
  }

  lemma LoweredOnFields(ms: MachineSet, id: AwId, d: int)
    ensures LoweredByOne(ms, id, d) == WithClaim(ms, id, d, d + 1)
  {
    TextsAreWritten(id);
    assert ms.replicas + d - (d + 1) == ms.replicas - 1;
  }

  lemma LeadsOnFields(s: State, id: AwId, t: string)
    requires ValidId(id)
    ensures LeadsToOwner(s.machines, s.nodes, s.machineSets, id, t) <==> exists x, m, o :: LeadsTo(s, id, t, x, m, o)
  {
    forall x | x in s.nodes
      ensures Matches(map[id.name := id.name, NODE_TYPE_LABEL := t], s.nodes[x].labels) <==>
              Has(s.nodes[x].labels, id.name, id.name) && Has(s.nodes[x].labels, NODE_TYPE_LABEL, t)
    {
      BareKeyApart(id);
      MatchesTwo(s.nodes[x].labels, id.name, id.name, NODE_TYPE_LABEL, t);
    }
    if LeadsToOwner(s.machines, s.nodes, s.machineSets, id, t) {
      var m :| m in NamedByNodes(s.nodes, id, t) && RemovableOwner(s.machines, s.machineSets, m);
      var x :| x in s.nodes && Matches(map[id.name := id.name, NODE_TYPE_LABEL := t], s.nodes[x].labels)
          && MachineOfNode(s.nodes[x]) == Some(m);
      assert LeadsTo(s, id, t, x, m, LabelOf(s.machines[m].labels, OWNER_LABEL));
    }
    if x, m, o :| LeadsTo(s, id, t, x, m, o) {
      assert m in NamedByNodes(s.nodes, id, t) && RemovableOwner(s.machines, s.machineSets, m);
    }
  }

  lemma BareKeyApart(id: AwId)
    requires ValidId(id)
    ensures id.name != NODE_TYPE_LABEL
  {
    assert NODE_TYPE_LABEL[18] == '/';
  }

  // ----- finalisation -----

  /** Node x carries the AppWrapper's label and names machine m, which is there and not on its way out. */
  predicate StandsFor(s: State, id: AwId, x: string, m: string) {
    && x in s.nodes && HasLabelText(s.nodes[x].labels, id) && MachineOfNode(s.nodes[x]) == Some(m)
    && m in s.machines && s.machines[m].phase != "Deleting"
  }

  /** The claim as a number. */
  function ClaimNumber(ms: MachineSet, id: AwId): int {
    if ClaimText(id) in ms.labels && Atoi(ms.labels[ClaimText(id)]).Some?
    then Atoi(ms.labels[ClaimText(id)]).value else 0
  }

  /** A MachineSet after the finalisation: without a claim as it was; with one, its replicas less the claim and
      without the label; or, after a failed call, with the label, or not reached. */
  predicate SetInRelease(s: State, e: Event, n: string, s': State)
    requires e.Release? && n in s.machineSets && n in s'.machineSets
  {
    var before, after := s.machineSets[n], s'.machineSets[n];
    var lower := before.(replicas := Wrap32(before.replicas - ClaimNumber(before, e.id)));
    if ClaimText(e.id) !in before.labels then after == before
    else if n in e.released then after == lower.(labels := before.labels - {ClaimText(e.id)})
    else if n in e.stuck then after == lower
    else after == before
  }

  /** A finalisation of the reuse strategy, with any failures: only machines that a labelled node stands for are
      marked, and claims are given back and removed; when the finalizer goes, all claims, and when no call fails,
      all those machines are marked. */
  lemma ReleaseOnFields(c: Context, s: State, e: Event, s': State)
    requires Step(c, s, e, s') && e.Release?
    ensures s'.nodes == s.nodes && s'.pools == s.pools
    ensures s'.machineSets.Keys == s.machineSets.Keys && s'.machines.Keys == s.machines.Keys
    ensures forall n | n in s.machineSets :: SetInRelease(s, e, n, s')
    ensures forall m | m in s.machines :: MarkedInRelease(s, e, m, s')
    ensures e.dropped ==> forall n | n in s'.machineSets :: ClaimText(e.id) !in s'.machineSets[n].labels
    ensures e.clean ==> forall x, m | StandsFor(s, e.id, x, m) :: m in e.marked
  {
    ReleasedSets(s, e, s');
    ReleasedMachines(s, e, s');
  }

  ghost predicate MarkedInRelease(s: State, e: Event, m: string, s': State)
    requires e.Release? && m in s.machines && m in s'.machines
  {
    && s'.machines[m] == (if m in e.marked
                          then s.machines[m].(annotations := s.machines[m].annotations[
                              "machine.openshift.io/cluster-api-delete-machine" := "true"])
                          else s.machines[m])
    && (m in e.marked ==> exists x :: StandsFor(s, e.id, x, m))
  }

  lemma ReleasedSets(s: State, e: Event, s': State)
    requires e.Release? && ClaimsReleased(s, e.id, e.marked, e.released, e.stuck, e.dropped, e.clean, s')
    ensures s'.machineSets.Keys == s.machineSets.Keys
    ensures forall n | n in s.machineSets :: SetInRelease(s, e, n, s')
    ensures e.dropped ==> forall n | n in s'.machineSets :: ClaimText(e.id) !in s'.machineSets[n].labels
  {
    TextsAreWritten(e.id);
    forall n | n in s.machineSets
      ensures SetInRelease(s, e, n, s')
    {
      assert ClaimIn(s.machineSets[n].labels, ClaimKey(e.id)) == ClaimNumber(s.machineSets[n], e.id);
    }
  }

  lemma ReleasedMachines(s: State, e: Event, s': State)
    requires e.Release? && ClaimsReleased(s, e.id, e.marked, e.released, e.stuck, e.dropped, e.clean, s')
    ensures s'.machines.Keys == s.machines.Keys
    ensures forall m | m in s.machines :: MarkedInRelease(s, e, m, s')
    ensures e.clean ==> forall x, m | StandsFor(s, e.id, x, m) :: m in e.marked
  {
    TextsAreWritten(e.id);
    forall m | m in s.machines
      ensures MarkedInRelease(s, e, m, s')
    {
      if m in e.marked {
        var L := AwLabel(e.id);
        var x :| x in s.nodes && L in s.nodes[x].labels && s.nodes[x].labels[L] == L
            && MachineOfNode(s.nodes[x]) == Some(m) && m in NotDeleting(s.machines);
        assert StandsFor(s, e.id, x, m);
      }
    }
    forall x, m | StandsFor(s, e.id, x, m)
      ensures m in Reached(s.machines, s.nodes, AwLabel(e.id))
    {
      assert MachineOfNode(s.nodes[x]).value == m;
    }
  }

  // ----- hand-over -----

  /** The labels after the old one was exchanged for the new one. */
  ghost predicate Exchanged(before: Labels, after: Labels, gone: string, key: string, value: string) {
    && key in after && after[key] == value
    && forall k | k != key :: (k in after <==> k in before && k != gone) && (k in after ==> after[k] == before[k])
  }

  ghost predicate MachineInSwap(s: State, e: Event, m: string, s': State)
    requires e.Swap? && m in s.machines && m in s'.machines
  {
    if m !in e.handed then s'.machines[m] == s.machines[m]
    else
      && Has(s.machines[m].labels, e.id.name, e.id.name) && LabelText(e.id) in s.machines[m].labels
      && s'.machines[m] == s.machines[m].(labels := s'.machines[m].labels)
      && Exchanged(s.machines[m].labels, s'.machines[m].labels, LabelText(e.id), LabelText(e.heir), e.heir.name)
  }

  ghost predicate NodeInSwap(s: State, e: Event, x: string, s': State)
    requires e.Swap? && x in s.nodes && x in s'.nodes
  {
    if x !in e.handedNodes then s'.nodes[x] == s.nodes[x]
    else
      && LabelText(e.id) in s.nodes[x].labels
      && s'.nodes[x] == s.nodes[x].(labels := s'.nodes[x].labels)
      && Exchanged(s.nodes[x].labels, s'.nodes[x].labels, LabelText(e.id), e.heir.name + "-" + e.id.namespace,
          e.heir.name)
  }

  /** A hand-over: it writes labels of machines and nodes only; when the finalizer goes, on all machines with the bare
      name. */
  lemma SwapOnFields(c: Context, s: State, e: Event, s': State)
    requires Step(c, s, e, s') && e.Swap?
    ensures s'.machineSets == s.machineSets && s'.pools == s.pools
    ensures s'.machines.Keys == s.machines.Keys && s'.nodes.Keys == s.nodes.Keys
    ensures forall m | m in s.machines :: MachineInSwap(s, e, m, s')
    ensures forall x | x in s.nodes :: NodeInSwap(s, e, x, s')
    ensures e.dropped ==> forall m | m in s.machines && Has(s.machines[m].labels, e.id.name, e.id.name) ::
                m in e.handed && s.machines[m].nodeName in e.handedNodes
  {
    SwappedOnFields(s, e, s');
  }

  lemma SwappedOnFields(s: State, e: Event, s': State)
    requires e.Swap? && Swapped(s, e.id, e.heir, e.handed, e.handedNodes, e.dropped, s')
    ensures s'.machines.Keys == s.machines.Keys && s'.nodes.Keys == s.nodes.Keys
    ensures forall m | m in s.machines :: MachineInSwap(s, e, m, s')
    ensures forall x | x in s.nodes :: NodeInSwap(s, e, x, s')
    ensures e.dropped ==> forall m | m in s.machines && Has(s.machines[m].labels, e.id.name, e.id.name) ::
                m in e.handed && s.machines[m].nodeName in e.handedNodes
  {
    TextsAreWritten(e.id);
    TextsAreWritten(e.heir);
    forall m | m in s.machines
      ensures m in Select(s.machines, map[e.id.name := e.id.name]) <==> Has(s.machines[m].labels, e.id.name, e.id.name)
      ensures MachineInSwap(s, e, m, s')
    {
      MatchesOne(s.machines[m].labels, e.id.name, e.id.name);
    }
    forall x | x in s.nodes
      ensures NodeInSwap(s, e, x, s')
    {
      assert NodeHeirLabel(e.id, e.heir) == e.heir.name + "-" + e.id.namespace;
    }
  }
}
