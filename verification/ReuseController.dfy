/** controllers/machineset.go, the strategy that reuses existing MachineSets: the claim ledger in
    MachineSet labels, the labelling loop, the one-step removal and the finalisation. */
module ReuseController {
  import opened GoPrimitives
  import opened Sums
  import opened Model
  import opened Steps
  import opened Effects
  import opened Cluster

  datatype Result = Done | Requeue | Failed

  // ----- counting -----

  /** Whether a loop's output lists exactly the given names, each once. */
  ghost predicate Lists(names: seq<string>, keys: set<string>) {
    |names| == |keys| && forall n :: n in keys <==> n in names
  }

  lemma ListsOneMore(names: seq<string>, keys: set<string>, n: string)
    requires Lists(names, keys) && n !in keys
    ensures Lists(names + [n], keys + {n})
  {
  }

  lemma VisitPhase(items: map<string, Machine>, todo: set<string>, n: string)
    requires n in todo && todo <= items.Keys
    ensures Running(items) - (todo - {n}) ==
            if items[n].phase == "Running" then (Running(items) - todo) + {n} else Running(items) - todo
    ensures NotDeleting(items) - (todo - {n}) ==
            if items[n].phase != "Deleting" then (NotDeleting(items) - todo) + {n} else NotDeleting(items) - todo
  {
  }

  lemma ListedPhases(machines: map<string, Machine>, selector: Labels, items: map<string, Machine>)
    requires items == map n | n in Select(machines, selector) :: machines[n]
    ensures Running(items) == Running(machines) * Select(machines, selector)
    ensures NotDeleting(items) == Select(machines, selector) * NotDeleting(machines)
  {
  }

  /** The names of the machines in phase Running. */
  method RunningNames(items: map<string, Machine>) returns (running: seq<string>)
    ensures Lists(running, Running(items))
  {
    running := [];
    var todo := items.Keys;
    assert Running(items) - todo == {};
    while todo != {}
      invariant todo <= items.Keys
      invariant Lists(running, Running(items) - todo)
    {
      var n :| n in todo;
      VisitPhase(items, todo, n);
      if items[n].phase == "Running" {
        ListsOneMore(running, Running(items) - todo, n);
        running := running + [n];
      }
      todo := todo - {n};
    }
    assert Running(items) - todo == Running(items);
  }

  /** The names of the machines in any phase but Deleting. */
  method NotDeletingNames(items: map<string, Machine>) returns (names: seq<string>)
    ensures Lists(names, NotDeleting(items))
  {
    names := [];
    var todo := items.Keys;
    assert NotDeleting(items) - todo == {};
    while todo != {}
      invariant todo <= items.Keys
      invariant Lists(names, NotDeleting(items) - todo)
    {
      var n :| n in todo;
      VisitPhase(items, todo, n);
      if items[n].phase != "Deleting" {
        ListsOneMore(names, NotDeleting(items) - todo, n);
        names := names + [n];
      }
      todo := todo - {n};
    }
    assert NotDeleting(items) - todo == NotDeleting(items);
  }

  /** The labelled running machines of one type; none when the listing fails. */
  method FilterAwMachines(k: Client, id: AwId, t: string) returns (running: seq<string>)
    modifies k`clean
    ensures k.clean ==> old(k.clean)
    ensures running == [] || Lists(running, Running(k.machines) * Carrying(k.machines, id, t))
    ensures k.clean ==> Lists(running, Running(k.machines) * Carrying(k.machines, id, t))
  {
    var ok, items := k.ListMachines(AwSelector(id, t));
    running := RunningNames(items);
    if ok {
      ListedPhases(k.machines, AwSelector(id, t), items);
    } else {
      assert Running(items) == {};
    }
  }

  /** The machines the gate counts; none when the listing fails. */
  method FilterAllRunningAwMachines(k: Client, id: AwId) returns (all: seq<string>)
    modifies k`clean
    ensures k.clean ==> old(k.clean)
    ensures all == [] || Lists(all, GateMachines(k.machines, id))
    ensures k.clean ==> Lists(all, GateMachines(k.machines, id))
  {
    var ok, items := k.ListMachines(map[id.name := id.name]);
    all := NotDeletingNames(items);
    if ok {
      ListedPhases(k.machines, map[id.name := id.name], items);
    } else {
      assert NotDeleting(items) == {};
    }
  }

  /** The gate's int32 total: whatever order the map is walked in, the machines found plus the
      whole demand, wrapped once. */
  method AddUpDemand(found: nat, demand: map<string, int>) returns (total: int)
    ensures total == Wrap32(found + SumValues(demand))
  {
    total := Wrap32(0 + Wrap32(found));
    WrapAdd(0, found);
    var todo := demand.Keys;
    assert demand - todo == map[] && SumValues(demand - todo) == 0;
    while todo != {}
      invariant todo <= demand.Keys
      invariant total == Wrap32(found + SumValues(demand - todo))
    {
      var t :| t in todo;
      AddNextDemand(demand, todo, t, found);
      total := Wrap32(total + Wrap32(demand[t]));
      todo := todo - {t};
    }
    assert demand - todo == demand;
  }

  /** The scale gate. */
  method CanScaleMachineset(k: Client, maxNodes: int, id: AwId, demand: map<string, int>)
    returns (can: bool, ghost gated: nat)
    modifies k`clean
    ensures k.clean ==> old(k.clean)
    ensures gated == 0 || gated == |GateMachines(k.machines, id)|
    ensures k.clean ==> gated == |GateMachines(k.machines, id)|
    ensures can <==> Wrap32(gated + SumValues(demand)) <= maxNodes
  {
    var all := FilterAllRunningAwMachines(k, id);
    gated := |all|;
    var total := AddUpDemand(|all|, demand);
    can := total <= maxNodes;
  }

  lemma AddNextDemand(demand: map<string, int>, todo: set<string>, t: string, start: int)
    requires t in todo && todo <= demand.Keys
    ensures Wrap32(Wrap32(start + SumValues(demand - todo)) + Wrap32(demand[t]))
              == Wrap32(start + SumValues(demand - (todo - {t})))
  {
    SumValuesAdd(demand - todo, t, demand[t]);
    assert demand - (todo - {t}) == (demand - todo)[t := demand[t]];
    WrapAdd(start + SumValues(demand - todo), demand[t]);
  }

  lemma WrapAdd(x: int, y: int)
    ensures Wrap32(Wrap32(x) + Wrap32(y)) == Wrap32(x + y)
  {
    WrapLaws(x, Wrap32(y));
    WrapLaws(y, x);
  }

  // ----- labelling -----

  method AddLabelToMachine(k: Client, id: AwId, name: string) returns (ok: bool)
    modifies k`machines, k`clean
    ensures k.clean == (old(k.clean) && ok)
    ensures ok ==> name in old(k.machines)
    ensures k.machines == if ok then LabelMachines(old(k.machines), {name}, AwLabel(id)) else old(k.machines)
  {
    var found, _ := k.GetMachine(name);
    if !found {
      return false;
    }
    ok := k.PatchMachineLabel(name, AwLabel(id));
  }

  method AddLabelToNode(k: Client, id: AwId, name: string) returns (ok: bool)
    modifies k`nodes, k`clean
    ensures k.clean == (old(k.clean) && ok)
    ensures ok ==> name in old(k.nodes)
    ensures k.nodes == if ok then LabelNodes(old(k.nodes), {name}, AwLabel(id)) else old(k.nodes)
  {
    ok := k.PatchNodeLabel(name, AwLabel(id));
  }

  /** How far labelling has got: `start` carried the label, `seen` are the running machines
      visited, `touched` those of them that were labelled. */
  ghost predicate Labelled(start: set<string>, seen: set<string>, touched: set<string>, d: int) {
    && touched <= seen
    && (|start| <= d ==> |start + touched| <= d)
    && (|start + touched| != d || |start| > d ==> touched == seen)
  }

  lemma LabelNext(start: set<string>, seen: set<string>, touched: set<string>, d: int, n: string)
    requires Labelled(start, seen, touched, d) && n !in seen
    ensures |start + touched| != d ==> Labelled(start, seen + {n}, touched + {n}, d)
    ensures |start + touched| == d ==> Labelled(start, seen + {n}, touched, d)
  {
    assert start + (touched + {n}) == (start + touched) + {n};
    SmallerSet(start, start + touched);
  }

  /** Where all touched machines are of type t, the carriers grow by just those. */
  lemma CarryingTouched(before: map<string, Machine>, touched: set<string>, id: AwId, t: string, owner: string)
    requires ValidId(id) && touched <= MachinesOf(before, t, owner)
    ensures Carrying(LabelMachines(before, touched, AwLabel(id)), id, t) == Carrying(before, id, t) + touched
  {
    OwnerKeysApart();
    forall n | n in touched
      ensures TYPE_LABEL in before[n].labels && before[n].labels[TYPE_LABEL] == t
    {
      MatchesTwo(before[n].labels, TYPE_LABEL, t, OWNER_LABEL, owner);
    }
    CarryingAfter(before, touched, {}, id, t);
    NothingTouched(LabelMachines(before, touched, AwLabel(id)), map[], AwLabel(id));
    assert (set n | n in touched && TYPE_LABEL in before[n].labels && before[n].labels[TYPE_LABEL] == t) == touched;
  }

  /** What has been written when the running machines `seen` have been visited. */
  ghost predicate LabelProgress(machines0: map<string, Machine>, nodes0: map<string, Node>, k: Client, id: AwId,
        t: string, d: int, seen: set<string>, touched: set<string>, touchedNodes: set<string>)
    reads k
  {
    && touched <= seen
    && k.machines == LabelMachines(machines0, touched, AwLabel(id))
    && k.nodes == LabelNodes(nodes0, touchedNodes, AwLabel(id))
    && touchedNodes == NodeNames(machines0, touched)
    && (k.clean ==> Labelled(Carrying(machines0, id, t), seen, touched, d))
  }

  /** The machines of one MachineSet, as listed before the loop. */
  ghost predicate ListedMachines(machines: map<string, Machine>, t: string, owner: string,
        items: map<string, Machine>) {
    items == map n | n in MachinesOf(machines, t, owner) :: machines[n]
  }

  /** One round of the loop. On an error the machine may be labelled and its node not. */
  method VisitMachine(k: Client, id: AwId, t: string, d: int, ghost owner: string, items: map<string, Machine>,
        todo: set<string>, n: string, withLabel: map<string, Machine>, ghost machines0: map<string, Machine>,
        ghost nodes0: map<string, Node>, ghost touched: set<string>, ghost touchedNodes: set<string>)
    returns (err: bool, withLabel': map<string, Machine>, ghost touched': set<string>, ghost touchedNodes': set<string>)
    requires ValidId(id) && n in todo && todo <= items.Keys && ListedMachines(machines0, t, owner, items)
    requires LabelProgress(machines0, nodes0, k, id, t, d, Running(items) - todo, touched, touchedNodes)
    modifies k`machines, k`nodes, k`clean
    ensures k.clean ==> old(k.clean) && !err
    ensures !err ==>
              LabelProgress(machines0, nodes0, k, id, t, d, Running(items) - (todo - {n}), touched', touchedNodes')
    ensures touched' <= Running(items) && touchedNodes' <= NodeNames(machines0, touched')
    ensures k.machines == LabelMachines(machines0, touched', AwLabel(id))
    ensures k.nodes == LabelNodes(nodes0, touchedNodes', AwLabel(id))
  {
    err, touched', touchedNodes' := false, touched, touchedNodes;
    VisitPhase(items, todo, n);
    CarryingTouched(machines0, touched, id, t, owner);
    withLabel' := RelistLabelled(k, id, t, withLabel);
    if items[n].phase == "Running" && k.clean {
      LabelNext(Carrying(machines0, id, t), Running(items) - todo, touched, d, n);
    }
    if |withLabel'| != d && items[n].phase == "Running" {
      var nodeName := items[n].nodeName;
      var labelled, noded := LabelMachineAndNode(k, id, n, nodeName);
      LabelTwice(machines0, touched, {n}, AwLabel(id));
      LabelNodesTwice(nodes0, touchedNodes, {nodeName}, AwLabel(id));
      OneMoreNode(machines0, touched, n);
      if labelled {
        touched' := touched + {n};
      }
      if noded {
        touchedNodes' := touchedNodes + {nodeName};
      }
      err := !noded;
    }
  }

  /** The loop over the machines of one MachineSet. */
  method LabelLoop(k: Client, id: AwId, t: string, d: int, ghost owner: string, items: map<string, Machine>)
    returns (err: bool, ghost touched: set<string>, ghost touchedNodes: set<string>)
    requires ValidId(id) && ListedMachines(k.machines, t, owner, items)
    modifies k`machines, k`nodes, k`clean
    ensures k.clean ==> old(k.clean) && !err
    ensures touched <= Running(items) && touchedNodes <= NodeNames(old(k.machines), touched)
    ensures k.machines == LabelMachines(old(k.machines), touched, AwLabel(id))
    ensures k.nodes == LabelNodes(old(k.nodes), touchedNodes, AwLabel(id))
    ensures !err ==> LabelProgress(old(k.machines), old(k.nodes), k, id, t, d, Running(items), touched, touchedNodes)
  {
    ghost var machines0, nodes0 := k.machines, k.nodes;
    err, touched, touchedNodes := false, {}, {};
    NothingTouched(machines0, nodes0, AwLabel(id));
    NothingLabelled(Carrying(machines0, id, t), d);
    var withLabel: map<string, Machine> := map[];
    var todo := items.Keys;
    assert Running(items) - todo == {};
    while todo != {}
      invariant todo <= items.Keys
      invariant k.clean ==> old(k.clean)
      invariant LabelProgress(machines0, nodes0, k, id, t, d, Running(items) - todo, touched, touchedNodes)
    {
      var n :| n in todo;
      err, withLabel, touched, touchedNodes :=
        VisitMachine(k, id, t, d, owner, items, todo, n, withLabel, machines0, nodes0, touched, touchedNodes);
      if err {
        return;
      }
      todo := todo - {n};
    }
    assert Running(items) - todo == Running(items);
  }

  lemma NothingLabelled(start: set<string>, d: int)
    ensures Labelled(start, {}, {}, d)
  {
    assert start + {} == start;
  }

  /** The labelling loop labels running machines, with their nodes, while the number of machines
      carrying the label is not the demand. It ends with the demand, or with all running machines of
      the MachineSet labelled if they are too few; had it started with more than the demand, it
      labels them all. */
  method LabelRunningMachines(k: Client, id: AwId, t: string, d: int, ghost owner: string, items: map<string, Machine>)
    returns (err: bool, ghost touched: set<string>, ghost touchedNodes: set<string>)
    requires ValidId(id) && ListedMachines(k.machines, t, owner, items)
    modifies k`machines, k`nodes, k`clean
    ensures k.clean ==> old(k.clean) && !err
    ensures touched <= Running(items) && touchedNodes <= NodeNames(old(k.machines), touched)
    ensures k.machines == LabelMachines(old(k.machines), touched, AwLabel(id))
    ensures k.nodes == LabelNodes(old(k.nodes), touchedNodes, AwLabel(id))
    ensures k.clean ==> touchedNodes == NodeNames(old(k.machines), touched)
    ensures k.clean ==>
      var start, free := Carrying(old(k.machines), id, t), Running(items) - Carrying(old(k.machines), id, t);
      && Carrying(k.machines, id, t) == start + touched
      && (|start| <= d ==> |Carrying(k.machines, id, t)| == Min(d, |start| + |free|))
      && (|start| > d ==> touched == Running(items))
      && (|Carrying(k.machines, id, t)| == d || touched == Running(items))
  {
    err, touched, touchedNodes := LabelLoop(k, id, t, d, owner, items);
    CarryingTouched(old(k.machines), touched, id, t, owner);
    if k.clean {
      LabelCount(Carrying(old(k.machines), id, t), touched, Running(items), d);
    }
  }

  /** The labelled machines as last listed: a failed listing leaves the previous one. */
  method RelistLabelled(k: Client, id: AwId, t: string, previous: map<string, Machine>)
    returns (items: map<string, Machine>)
    modifies k`clean
    ensures k.clean ==> old(k.clean) && |items| == |Carrying(k.machines, id, t)|
  {
    var ok, listed := k.ListMachines(AwSelector(id, t));
    items := if ok then listed else previous;
    assert ok ==> items.Keys == Carrying(k.machines, id, t);
    assert |items| == |items.Keys|;
  }

  /** Lines 299-305: the label goes onto the machine first, then onto its node. */
  method LabelMachineAndNode(k: Client, id: AwId, name: string, nodeName: string) returns (labelled: bool, noded: bool)
    modifies k`machines, k`nodes, k`clean
    ensures k.clean == (old(k.clean) && noded)
    ensures noded ==> labelled
    ensures k.machines == if labelled then LabelMachines(old(k.machines), {name}, AwLabel(id)) else old(k.machines)
    ensures k.nodes == if noded then LabelNodes(old(k.nodes), {nodeName}, AwLabel(id)) else old(k.nodes)
  {
    labelled := AddLabelToMachine(k, id, name);
    noded := false;
    if labelled {
      noded := AddLabelToNode(k, id, nodeName);
    }
  }

  lemma OneMoreNode(machines: map<string, Machine>, touched: set<string>, n: string)
    requires n in machines
    ensures NodeNames(machines, touched + {n}) == NodeNames(machines, touched) + {machines[n].nodeName}
  {
  }

  lemma LabelCount(start: set<string>, touched: set<string>, running: set<string>, d: int)
    requires touched <= running
    requires |start| <= d ==> |start + touched| <= d
    requires |start + touched| != d || |start| > d ==> touched == running
    ensures |start| <= d ==> |start + touched| == Min(d, |start| + |running - start|)
  {
    var free := running - start;
    assert start + running == start + free;
    assert |start + free| == |start| + |free|;
    var new_ := touched - start;
    assert start + touched == start + new_;
    assert |start + new_| == |start| + |new_|;
    SmallerSet(new_, free);
  }

  // ----- the one-step removal -----

  predicate NodeLeadsToOwner(machines: map<string, Machine>, node: Node, sets: map<string, MachineSet>) {
    MachineOfNode(node).Some? && RemovableOwner(machines, sets, MachineOfNode(node).value)
  }

  /** All the nodes are ones the removal selects. */
  predicate AllSelectable(nodes: map<string, Node>, id: AwId, t: string) {
    forall n | n in nodes :: Matches(map[id.name := id.name, NODE_TYPE_LABEL := t], nodes[n].labels)
  }

  lemma NoneLeads(machines: map<string, Machine>, nodes: map<string, Node>, sets: map<string, MachineSet>, id: AwId,
        t: string)
    requires forall n | n in nodes :: !NodeLeadsToOwner(machines, nodes[n], sets)
    ensures !LeadsToOwner(machines, nodes, sets, id, t)
  {
  }

  lemma OneLeads(machines: map<string, Machine>, nodes: map<string, Node>, sets: map<string, MachineSet>, id: AwId,
        t: string, n: string)
    requires AllSelectable(nodes, id, t) && n in nodes && NodeLeadsToOwner(machines, nodes[n], sets)
    ensures LeadsToOwner(machines, nodes, sets, id, t)
  {
    assert MachineOfNode(nodes[n]).value in NamedByNodes(nodes, id, t);
  }

  lemma NamedAsListed(nodes: map<string, Node>, id: AwId, t: string, items: map<string, Node>)
    requires var sel := map[id.name := id.name, NODE_TYPE_LABEL := t];
             items == map n | n in nodes && Matches(sel, nodes[n].labels) :: nodes[n]
    ensures NamedByNodes(items, id, t) == NamedByNodes(nodes, id, t) && AllSelectable(items, id, t)
  {
    forall m | m in NamedByNodes(nodes, id, t)
      ensures m in NamedByNodes(items, id, t)
    {
      var sel := map[id.name := id.name, NODE_TYPE_LABEL := t];
      var n :| n in nodes && Matches(sel, nodes[n].labels) && MachineOfNode(nodes[n]) == Some(m);
      assert n in items && items[n] == nodes[n];
    }
  }

  lemma RemovableMarked(machines: map<string, Machine>, marked: set<string>, sets: map<string, MachineSet>, m: string)
    ensures RemovableOwner(MarkMachines(machines, marked), sets, m) <==> RemovableOwner(machines, sets, m)
  {
    MarkingLeaves(machines, marked);
  }

  /** Takes one replica from the MachineSet named `owner`, if it exists; a failed update is only logged. */
  method LowerOwner(k: Client, id: AwId, d: int, owner: string) returns (found: bool, ghost lowered: Option<string>)
    modifies k`machineSets, k`clean
    ensures k.clean ==> old(k.clean)
    ensures lowered.Some? ==> found && lowered.value == owner && owner in old(k.machineSets)
    ensures k.clean ==> (found <==> owner in old(k.machineSets)) && (lowered.Some? <==> found)
    ensures k.machineSets ==
      if lowered.Some? then old(k.machineSets)[owner := LoweredByOne(old(k.machineSets)[owner], id, d)]
           else old(k.machineSets)
  {
    found, lowered := false, None;
    AllSelected(k.machineSets);
    var _, sets := k.ListMachineSets(map[]);
    if owner in sets {
      found := true;
      var newReplicas := Wrap32(sets[owner].replicas - 1);
      var updated := sets[owner].(replicas := newReplicas, labels := sets[owner].labels[ClaimKey(id) := FormatInt(d)]);
      var ok := k.UpdateMachineSet(owner, updated);
      if ok {
        lowered := Some(owner);
      }
    }
  }

  /** Marks one machine and lowers its owner. `res` is Done when the next node is to be tried,
      Failed when the machine is missing: writing to the nil annotation map then panics. */
  method RemoveOneMachine(k: Client, id: AwId, d: int, name: string)
    returns (res: Result, ghost marked: set<string>, ghost lowered: Option<string>)
    modifies k`machines, k`machineSets, k`clean
    ensures k.clean ==> old(k.clean)
    ensures marked <= {name} * old(k.machines).Keys && k.machines == MarkMachines(old(k.machines), marked)
    ensures k.clean ==> name in marked
    ensures lowered.Some? ==> res.Requeue? && name in old(k.machines) && lowered.value in old(k.machineSets)
                              && LabelOf(old(k.machines)[name].labels, OWNER_LABEL) == lowered.value
    ensures k.clean ==>
              (lowered.Some? <==> RemovableOwner(old(k.machines), old(k.machineSets), name))
              && (res.Done? <==> lowered.None?)
    ensures k.clean ==> !res.Failed?
    ensures k.machineSets ==
      if lowered.Some?
           then old(k.machineSets)[lowered.value := LoweredByOne(old(k.machineSets)[lowered.value], id, d)]
           else old(k.machineSets)
  {
    res, marked, lowered := Done, {}, None;
    NothingTouched(k.machines, map[], "");
    var found, machine := k.GetMachine(name);
    if !found {
      return Failed, marked, lowered;
    }
    var updated := machine.value.(annotations := machine.value.annotations[DELETE_ANNOTATION := "true"]);
    MarkOne(k.machines, name);
    var ok := k.UpdateMachine(name, updated);
    if ok {
      marked := {name};
    }
    var owner := LabelOf(updated.labels, OWNER_LABEL);
    if owner != "" {
      var lower;
      lower, lowered := LowerOwner(k, id, d, owner);
      if lower {
        res := Requeue;
      }
    }
  }

  /** The loop over the selected nodes; stops after the first MachineSet it lowers. */
  method RemoveFirst(k: Client, id: AwId, t: string, d: int, nodes: map<string, Node>)
    returns (res: Result, ghost marked: set<string>, ghost lowered: Option<string>)
    requires AllSelectable(nodes, id, t) && forall n | n in nodes :: n in k.nodes && nodes[n] == k.nodes[n]
    requires NodesNameMachines(nodes)
    modifies k`machines, k`machineSets, k`clean
    ensures k.clean ==> old(k.clean)
    ensures marked <= NamedByNodes(k.nodes, id, t) * old(k.machines).Keys
            && k.machines == MarkMachines(old(k.machines), marked)
    ensures lowered.Some? ==> res.Requeue? && lowered.value in old(k.machineSets) && NamedByNodes(k.nodes, id, t) != {}
    ensures k.clean ==> !res.Failed?
    ensures k.clean && lowered.Some? ==> exists m ::
              m in marked && LabelOf(old(k.machines)[m].labels, OWNER_LABEL) == lowered.value
    ensures k.clean ==> (lowered.Some? <==> LeadsToOwner(old(k.machines), nodes, old(k.machineSets), id, t))
    ensures k.clean && lowered.None? ==> NamedByNodes(nodes, id, t) <= marked
    ensures k.machineSets ==
      if lowered.Some?
           then old(k.machineSets)[lowered.value := LoweredByOne(old(k.machineSets)[lowered.value], id, d)]
           else old(k.machineSets)
  {
    res, marked, lowered := Done, {}, None;
    ghost var machines0 := k.machines;
    NothingTouched(machines0, map[], "");
    var todo := nodes.Keys;
    while todo != {}
      invariant todo <= nodes.Keys && res.Done? && lowered.None?
      invariant k.clean ==> old(k.clean)
      invariant marked <= NamedByNodes(k.nodes, id, t) * machines0.Keys
      invariant k.machines == MarkMachines(machines0, marked) && k.machineSets == old(k.machineSets)
      invariant k.clean ==> forall n | n in nodes && n !in todo :: !NodeLeadsToOwner(machines0, nodes[n], k.machineSets)
      invariant k.clean ==> forall n | n in nodes && n !in todo ::
                  MachineOfNode(nodes[n]).Some? ==> MachineOfNode(nodes[n]).value in marked
    {
      var n :| n in todo;
      todo := todo - {n};
      if MACHINE_ANNOTATION in nodes[n].annotations {
        var machineName := Split(nodes[n].annotations[MACHINE_ANNOTATION], '/');
        RemovableMarked(machines0, marked, k.machineSets, machineName[1]);
        assert machineName[1] in NamedByNodes(k.nodes, id, t);
        ghost var more;
        res, more, lowered := RemoveOneMachine(k, id, d, machineName[1]);
        MarkTwice(machines0, marked, more);
        MarkingLeaves(machines0, marked);
        marked := marked + more;
        if !res.Done? {
          if k.clean {
            OneLeads(machines0, nodes, old(k.machineSets), id, t, n);
          }
          return;
        }
      }
    }
    if k.clean {
      NoneLeads(machines0, nodes, k.machineSets, id, t);
    }
  }

  /** removeMachinesBasedOnReplicas: at most one MachineSet loses one replica, and none does unless
      more labelled machines run than are demanded. When no call fails, one does if and only if that is
      so and a selected node leads to a MachineSet. The loop around the body never runs twice. */
  method RemoveMachinesBasedOnReplicas(k: Client, id: AwId, t: string, d: int)
    returns (res: Result, ghost marked: set<string>, ghost lowered: Option<string>)
    requires NodesNameMachines(k.nodes)
    modifies k`machines, k`machineSets, k`clean
    ensures k.clean ==> old(k.clean)
    ensures marked <= NamedByNodes(k.nodes, id, t) * old(k.machines).Keys
            && k.machines == MarkMachines(old(k.machines), marked)
    ensures marked != {} || lowered.Some? ==> d < |Running(old(k.machines)) * Carrying(old(k.machines), id, t)|
    ensures lowered.Some? ==> res.Requeue? && lowered.value in old(k.machineSets) && NamedByNodes(k.nodes, id, t) != {}
    ensures k.clean ==> !res.Failed?
    ensures k.clean && lowered.Some? ==> exists m ::
              m in marked && LabelOf(old(k.machines)[m].labels, OWNER_LABEL) == lowered.value
    ensures k.clean ==> (lowered.Some? <==> d < |Running(old(k.machines)) * Carrying(old(k.machines), id, t)|
                                            && LeadsToOwner(old(k.machines), k.nodes, old(k.machineSets), id, t))
    ensures k.clean && lowered.None? && d < |Running(old(k.machines)) * Carrying(old(k.machines), id, t)| ==>
              marked == NamedByNodes(k.nodes, id, t)
    ensures k.machineSets ==
      if lowered.Some?
           then old(k.machineSets)[lowered.value := LoweredByOne(old(k.machineSets)[lowered.value], id, d)]
           else old(k.machineSets)
  {
    res, marked, lowered := Done, {}, None;
    NothingTouched(k.machines, map[], "");
    var listed, nodes := k.ListNodes(map[id.name := id.name, NODE_TYPE_LABEL := t]);
    if listed {
      NamedAsListed(k.nodes, id, t, nodes);
    }
    var running := FilterAwMachines(k, id, t);
    var numberOfMachines := |running|;
    if d < numberOfMachines {
      res, marked, lowered := RemoveFirst(k, id, t, d, nodes);
    }
  }

  // ----- finalisation -----

  /** Marks the machine of one labelled node, unless it is gone or going. */
  method MarkMachineOf(k: Client, name: string) returns (ok: bool, ghost marked: set<string>)
    modifies k`machines, k`clean
    ensures k.clean == (old(k.clean) && ok)
    ensures marked <= {name} * NotDeleting(old(k.machines)) && k.machines == MarkMachines(old(k.machines), marked)
    ensures ok ==> marked == {name} * NotDeleting(old(k.machines))
  {
    marked := {};
    NothingTouched(k.machines, map[], "");
    var all;
    ok, all := k.ListMachines(map[]);
    if ok && name in all && all[name].phase != "Deleting" {
      var updated := all[name].(annotations := all[name].annotations[DELETE_ANNOTATION := "true"]);
      MarkOne(k.machines, name);
      ok := k.UpdateMachine(name, updated);
      if ok {
        marked := {name};
      }
    }
  }

  /** The machines to mark for the nodes in `names`. */
  function ReachedFrom(machines: map<string, Machine>, nodes: map<string, Node>, names: set<string>): set<string> {
    set n | n in names && n in nodes && MachineOfNode(nodes[n]).Some?
        && MachineOfNode(nodes[n]).value in NotDeleting(machines)
          :: MachineOfNode(nodes[n]).value
  }

  lemma ReachedNext(machines: map<string, Machine>, nodes: map<string, Node>, names: set<string>, n: string,
        marked: set<string>)
    requires n in nodes
    ensures ReachedFrom(machines, nodes, names + {n}) ==
            ReachedFrom(machines, nodes, names)
            + (if MachineOfNode(nodes[n]).Some? then {MachineOfNode(nodes[n]).value} * NotDeleting(machines) else {})
    ensures ReachedFrom(MarkMachines(machines, marked), nodes, names) == ReachedFrom(machines, nodes, names)
  {
    MarkingLeaves(machines, marked);
  }

  lemma ReachedListed(machines: map<string, Machine>, nodes: map<string, Node>, key: string, items: map<string, Node>)
    requires items == map n | n in nodes && Matches(map[key := key], nodes[n].labels) :: nodes[n]
    ensures ReachedFrom(machines, items, items.Keys) == Reached(machines, nodes, key)
  {
    forall n | n in nodes
      ensures Matches(map[key := key], nodes[n].labels) <==> key in nodes[n].labels && nodes[n].labels[key] == key
    {
      MatchesOne(nodes[n].labels, key, key);
    }
    forall x | x in Reached(machines, nodes, key)
      ensures x in ReachedFrom(machines, items, items.Keys)
    {
      var n :| n in nodes && key in nodes[n].labels && nodes[n].labels[key] == key
          && MachineOfNode(nodes[n]) == Some(x) && x in NotDeleting(machines);
      assert n in items;
    }
  }

  /** Marks, for every labelled node, the machine behind it. */
  method MarkLabelled(k: Client, nodes: map<string, Node>) returns (ok: bool, ghost marked: set<string>)
    requires NodesNameMachines(nodes)
    modifies k`machines, k`clean
    ensures k.clean == (old(k.clean) && ok)
    ensures k.machines == MarkMachines(old(k.machines), marked)
    ensures marked <= ReachedFrom(old(k.machines), nodes, nodes.Keys)
    ensures ok ==> marked == ReachedFrom(old(k.machines), nodes, nodes.Keys)
  {
    ok, marked := true, {};
    ghost var machines0 := k.machines;
    NothingTouched(machines0, map[], "");
    var todo := nodes.Keys;
    assert ReachedFrom(machines0, nodes, nodes.Keys - todo) == {};
    while todo != {}
      invariant todo <= nodes.Keys && ok
      invariant k.clean == old(k.clean)
      invariant marked == ReachedFrom(machines0, nodes, nodes.Keys - todo)
      invariant k.machines == MarkMachines(machines0, marked)
    {
      var n :| n in todo;
      ReachedNext(machines0, nodes, nodes.Keys - todo, n, marked);
      assert nodes.Keys - (todo - {n}) == (nodes.Keys - todo) + {n};
      todo := todo - {n};
      if MACHINE_ANNOTATION in nodes[n].annotations {
        var machineName := Split(nodes[n].annotations[MACHINE_ANNOTATION], '/');
        ghost var more;
        ok, more := MarkMachineOf(k, machineName[1]);
        MarkTwice(machines0, marked, more);
        MarkingLeaves(machines0, marked);
        marked := marked + more;
        if !ok {
          assert marked <= ReachedFrom(machines0, nodes, nodes.Keys) by {
            assert forall x | x in nodes.Keys - todo :: x in nodes.Keys;
          }
          return;
        }
      }
    }
    assert nodes.Keys - todo == nodes.Keys;
  }

  method RemoveMachineSetLabel(k: Client, id: AwId, name: string) returns (ok: bool)
    modifies k`machineSets, k`clean
    ensures k.clean == (old(k.clean) && ok)
    ensures ok ==> name in old(k.machineSets)
    ensures k.machineSets ==
      if ok then
        old(k.machineSets)[name := old(k.machineSets)[name].(labels :=
            old(k.machineSets)[name].labels - {ClaimKey(id)})]
      else old(k.machineSets)
  {
    var found, _ := k.GetMachineSet(name);
    if !found {
      return false;
    }
    ok := k.PatchMachineSetDropLabel(name, ClaimKey(id));
  }

  /** Gives back the claim of one MachineSet: first the replicas, then the label. */
  method GiveBackOne(k: Client, id: AwId, n: string, ms: MachineSet) returns (ok: bool, ghost lowered: bool)
    requires n in k.machineSets && k.machineSets[n] == ms && ClaimKey(id) in ms.labels
    modifies k`machineSets, k`clean
    ensures k.clean ==> old(k.clean)
    ensures k.clean && Atoi(ms.labels[ClaimKey(id)]).Some? ==> ok
    ensures k.clean && !ok ==> !lowered
    ensures ok ==> lowered
    ensures k.machineSets == if !lowered then old(k.machineSets)
              else old(k.machineSets)[n := GivenBack(ms, ClaimKey(id), ok)]
  {
    ok, lowered := false, false;
    var intValue := Atoi(ms.labels[ClaimKey(id)]);
    if intValue.None? {
      return;
    }
    var replicaCount := Wrap32(intValue.value);
    var totalReplicas := Wrap32(ms.replicas - replicaCount);
    WrapLaws(intValue.value, ms.replicas);
    var updated := k.UpdateMachineSet(n, ms.(replicas := totalReplicas));
    if !updated {
      return;
    }
    lowered := true;
    ok := RemoveMachineSetLabel(k, id, n);
  }

  predicate HolderListing(sets: map<string, MachineSet>, key: string, items: map<string, MachineSet>) {
    items.Keys == Holders(sets, key) && forall n | n in items :: items[n] == sets[n]
  }

  /** One round of the loop below. */
  method GiveBackNextClaim(k: Client, id: AwId, items: map<string, MachineSet>, todo: set<string>, n: string,
        ghost sets0: map<string, MachineSet>, ghost released: set<string>)
    returns (ok: bool, ghost released': set<string>, ghost stuck: set<string>)
    requires n in todo && todo <= items.Keys && HolderListing(sets0, ClaimKey(id), items)
    requires GivingBack(sets0, ClaimKey(id), items.Keys - todo, released, {}, true, k.clean, k.machineSets)
    modifies k`machineSets, k`clean
    ensures k.clean ==> old(k.clean)
    ensures GivingBack(sets0, ClaimKey(id), items.Keys - (todo - {n}), released', stuck, ok, k.clean, k.machineSets)
  {
    GiveBackNext(sets0, ClaimKey(id), released, n);
    ghost var lowered, now := false, k.machineSets;
    ok, lowered := GiveBackOne(k, id, n, items[n]);
    GivingBackNext(sets0, ClaimKey(id), items.Keys - todo, released, n, lowered, ok, k.clean, now, k.machineSets);
    released', stuck := if ok then released + {n} else released, if lowered && !ok then {n} else {};
    SeenNext(items.Keys, todo, n);
  }

  lemma SeenNext(all: set<string>, todo: set<string>, n: string)
    requires n in todo && todo <= all
    ensures all - (todo - {n}) == (all - todo) + {n}
  {
  }

  /** Gives back all claims of the AppWrapper, stopping at the first error. */
  method GiveBackClaims(k: Client, id: AwId, items: map<string, MachineSet>)
    returns (ok: bool, ghost released: set<string>, ghost stuck: set<string>)
    requires HolderListing(k.machineSets, ClaimKey(id), items)
    modifies k`machineSets, k`clean
    ensures k.clean ==> old(k.clean)
    ensures ClaimsGivenBack(old(k.machineSets), ClaimKey(id), released, stuck, ok, k.clean, k.machineSets)
  {
    ok, released, stuck := true, {}, {};
    ghost var sets0 := k.machineSets;
    NothingGivenBack(sets0, ClaimKey(id));
    var todo := items.Keys;
    while todo != {} && ok
      invariant k.clean ==> old(k.clean)
      invariant todo <= items.Keys
      invariant GivingBack(sets0, ClaimKey(id), items.Keys - todo, released, stuck, ok, k.clean, k.machineSets)
    {
      var n :| n in todo;
      ok, released, stuck := GiveBackNextClaim(k, id, items, todo, n, sets0, released);
      todo := todo - {n};
    }
  }

  lemma GivingBackNext(sets: map<string, MachineSet>, key: string, seen: set<string>, released: set<string>,
        n: string, lowered: bool, ok: bool, clean: bool, now: map<string, MachineSet>, now': map<string, MachineSet>)
    requires n in Holders(sets, key) && n !in seen
    requires GivingBack(sets, key, seen, released, {}, true, true, now)
    requires ok ==> lowered
    requires clean && !ok ==> !lowered
    requires clean && Atoi(sets[n].labels[key]).Some? ==> ok
    requires now' == if lowered then now[n := GivenBack(sets[n], key, ok)] else now
    ensures GivingBack(sets, key, seen + {n}, if ok then released + {n} else released, if lowered && !ok then {n}
              else {}, ok, clean, now')
  {
    GiveBackNext(sets, key, released, n);
  }

  /** The claims given back so far, when the holders `seen` have been visited. */
  ghost predicate GivingBack(sets: map<string, MachineSet>, key: string, seen: set<string>, released: set<string>,
        stuck: set<string>, ok: bool, clean: bool, now: map<string, MachineSet>) {
    && seen <= Holders(sets, key)
    && released + stuck <= seen && released * stuck == {} && |stuck| <= 1
    && (ok ==> released == seen && stuck == {})
    && (clean ==> stuck == {})
    && (clean && ClaimsParse(sets, key) ==> ok)
    && now == GiveBack(sets, key, released, stuck)
  }

  /** The marking half of the finalisation; a failed listing of nodes passes for an empty one. */
  method MarkForDeletion(k: Client, id: AwId) returns (ok: bool, ghost marked: set<string>)
    requires NodesNameMachines(k.nodes)
    modifies k`machines, k`clean
    ensures k.clean ==> old(k.clean) && ok
    ensures k.machines == MarkMachines(old(k.machines), marked)
    ensures marked <= Reached(old(k.machines), k.nodes, AwLabel(id))
    ensures k.clean ==> marked == Reached(old(k.machines), k.nodes, AwLabel(id))
  {
    var okNodes, nodes := k.ListNodes(map[AwLabel(id) := AwLabel(id)]);
    if okNodes {
      ReachedListed(k.machines, k.nodes, AwLabel(id), nodes);
    }
    ok, marked := MarkLabelled(k, nodes);
  }

  /** The ledger half: every claim goes back to its MachineSet. */
  method ReleaseClaims(k: Client, id: AwId) returns (ok: bool, ghost released: set<string>, ghost stuck: set<string>)
    modifies k`machineSets, k`clean
    ensures k.clean ==> old(k.clean)
    ensures ClaimsGivenBack(old(k.machineSets), ClaimKey(id), released, stuck, ok, k.clean, k.machineSets)
  {
    ok, released, stuck := false, {}, {};
    NothingGivenBack(k.machineSets, ClaimKey(id));
    var listed, sets := k.ListMachineSetsHaving(ClaimKey(id));
    if listed {
      ok, released, stuck := GiveBackClaims(k, id, sets);
    }
  }

  /** annotateToDeleteMachine */
  method AnnotateToDeleteMachine(k: Client, id: AwId)
    returns (err: bool, ghost marked: set<string>, ghost released: set<string>, ghost stuck: set<string>)
    requires NodesNameMachines(k.nodes)
    modifies k`machines, k`machineSets, k`clean
    ensures k.clean ==> old(k.clean)
    ensures ClaimsReleased(old(k.State()), id, marked, released, stuck, !err, k.clean, k.State())
  {
    released, stuck := {}, {};
    NothingGivenBack(k.machineSets, ClaimKey(id));
    var ok;
    ok, marked := MarkForDeletion(k, id);
    if ok {
      ok, released, stuck := ReleaseClaims(k, id);
    }
    err := !ok;
  }

  // ----- scaling -----

  /** Lines 270-308: the labelling loop over the machines of MachineSet n. */
  method LabelMachinesOf(k: Client, id: AwId, demand: map<string, int>, n: string)
    returns (err: bool, ghost touched: set<string>, ghost touchedNodes: set<string>)
    requires ValidId(id) && n in Pairs(k.machineSets, demand)
    modifies k`machines, k`nodes, k`clean
    ensures k.clean ==> old(k.clean) && !err
    ensures Grown(old(k.State()), demand, id, touched, touchedNodes, {}, k.clean, k.State())
    ensures OwnedBy(old(k.machines), touched, n)
    ensures k.clean ==> FilledAt(k.machineSets, k.machines, demand, id, n)
  {
    var t := k.machineSets[n].instanceType;
    err, touched, touchedNodes := false, {}, {};
    NothingTouched(k.machines, k.nodes, AwLabel(id));
    ghost var s := k.State();
    var _, items := k.ListMachines(OwnerSelector(t, n));
    if |items| > 0 {
      err, touched, touchedNodes := LabelRunningMachines(k, id, t, demand[t], n, items);
      ListedPhases(s.machines, OwnerSelector(t, n), items);
    }
    GrownByOneSet(s, demand, id, n, touched, touchedNodes, k.clean, k.State());
    FilledBy(s.machines, touched, id, t, n, demand[t]);
  }

  lemma FilledBy(machines: map<string, Machine>, touched: set<string>, id: AwId, t: string, n: string, d: int)
    requires ValidId(id) && touched <= MachinesOf(machines, t, n)
    ensures var after := LabelMachines(machines, touched, AwLabel(id));
            |Carrying(after, id, t)| == d || touched == Running(machines) * MachinesOf(machines, t, n) ==>
              Filled(after, id, t, n, d)
  {
    CarryingTouched(machines, touched, id, t, n);
    OwnedAfterLabels(machines, touched, id, t, n);
  }

  /** What is filled stays so while other MachineSets are. */
  lemma StillFilled(s1: State, s2: State, demand: map<string, int>, id: AwId, touched: set<string>,
        touchedNodes: set<string>, marked: set<string>, u: string, o: string)
    requires ValidId(id) && u in demand && Grown(s1, demand, id, touched, touchedNodes, marked, true, s2)
    requires Filled(s1.machines, id, u, o, demand[u])
    ensures Filled(s2.machines, id, u, o, demand[u])
  {
    CarryingAfter(s1.machines, touched, marked, id, u);
    SmallerSet(Carrying(s1.machines, id, u), Carrying(s2.machines, id, u));
    OwnedAfterLabels(s1.machines, touched, id, u, o);
    MarkingLeaves(LabelMachines(s1.machines, touched, AwLabel(id)), marked);
  }

  /** What one (type, MachineSet) pair of the loops does: nothing, a wait, or the one update of the pass. */
  ghost predicate PairActed(maxNodes: int, s: State, demand: map<string, int>, n: string, scaled: bool,
        done: Option<Result>, e: Event, sets': map<string, MachineSet>)
    requires e.Scale? && n in s.machineSets
  {
    match e.act {
      case NoUpdate =>
        && sets' == s.machineSets && e.marked == {}
        && (e.clean && Gate(s.machines, e.id, demand, maxNodes) && done.None? ==> scaled)
        && (e.clean && done.Some? ==>
              && Gate(s.machines, e.id, demand, maxNodes) && ClaimMatches(s.machineSets[n], e.id, demand)
              && FoundRunning(s, e, n) != demand[s.machineSets[n].instanceType])
      case Raise(o, _, _, before) => o == n && before == {} && done == Some(Requeue)
          && Raised(maxNodes, s, demand, e, sets') && (e.clean ==> DueHere(s, demand, e, n, scaled))
      case Shrink(o, _) => o == n && done.Some? && Shrunk(s, demand, e, sets')
          && (e.clean ==> Gate(s.machines, e.id, demand, maxNodes) && DueHere(s, demand, e, n, scaled))
    }
  }

  /** No MachineSet with the claim was met so far, or another number of machines runs than is demanded. */
  predicate DueHere(s: State, demand: map<string, int>, e: Event, n: string, scaled: bool)
    requires e.Scale? && n in s.machineSets
  {
    s.machineSets[n].instanceType in demand
    && (!scaled || FoundRunning(s, e, n) != demand[s.machineSets[n].instanceType])
  }

  /** Lines 333-351: the claim differs from the demand, so the MachineSet is updated, or one machine
      is removed when the claim looks larger. Errors of the update are only logged. */
  method UpdateClaim(k: Client, ghost v: Visit, d: int, ms: MachineSet, id: AwId, n: string, totalReplicas: int,
        ghost gated: nat)
    returns (res: Result, ghost x: Decision)
    requires NodesNameMachines(k.nodes) && v.id == id && v.n == n && v.totalReplicas == totalReplicas
    requires n in k.machineSets && k.machineSets[n] == ms
    requires LabelOf(ms.labels, ClaimKey(id)) != FormatInt(d)
    modifies k`machines, k`machineSets, k`clean
    ensures k.clean ==> old(k.clean)
    ensures x.done == Some(res) && x.clean == k.clean && k.machines == MarkMachines(old(k.machines), x.marked)
    ensures ClaimUpdated(old(k.State()), v, ms, d, gated, x, k.machineSets)
  {
    ghost var marked := {};
    NothingTouched(k.machines, map[], "");
    if StrLess(FormatInt(d), LabelOf(ms.labels, ClaimKey(id))) {
      ghost var lowered;
      res, marked, lowered := RemoveMachinesBasedOnReplicas(k, id, ms.instanceType, d);
      if !res.Failed? {
        res := Requeue;
      }
      x := Decision(Some(res), marked, Shrink(n, lowered), k.clean);
    } else {
      var ok := k.UpdateMachineSet(n,
            ms.(replicas := totalReplicas, labels := ms.labels[ClaimKey(id) := FormatInt(d)]));
      res := Requeue;
      x := Decision(Some(res), marked, if ok then Raise(n, v.counted, gated, {}) else NoUpdate, k.clean);
    }
  }

  /** The effect of an update: none if the call failed; claim and replicas; or the one-step removal, which
      lowers a MachineSet, when no call fails, if and only if more labelled machines run than demanded and a
      selected node leads to a MachineSet. */
  ghost predicate ClaimUpdated(s: State, v: Visit, ms: MachineSet, d: int, gated: nat, x: Decision,
        sets': map<string, MachineSet>) {
    && x.done.Some? && Answered(x.done, x.clean)
    && match x.act {
         case NoUpdate => !x.clean && x.marked == {} && sets' == s.machineSets
         case Raise(o, c, g, before) =>
           && x.done == Some(Requeue) && o == v.n && c == v.counted && g == gated && before == {} && x.marked == {}
           && !StrLess(FormatInt(d), LabelOf(ms.labels, ClaimKey(v.id)))
           && sets' == s.machineSets[v.n := Claimed(v, ms, d)]
         case Shrink(o, lowered) =>
           && o == v.n && StrLess(FormatInt(d), LabelOf(ms.labels, ClaimKey(v.id)))
           && ShrunkBy(s, v.id, ms.instanceType, d, LabelledRunning(s.machines, v.id, ms.instanceType), x.marked,
                       lowered, x.clean, sets')
       }
  }

  /** What the decision at MachineSet n goes by: `isScaled`, the replicas an update would ask for, and the
      machines counted for them. */
  datatype Visit = Visit(id: AwId, demand: map<string, int>, n: string, scaled: bool, totalReplicas: int, counted: nat)

  /** What was decided: whether the pass ends here, and with which answer, and what was written. */
  datatype Decision = Decision(done: Option<Result>, marked: set<string>, act: ReuseAct, clean: bool)

  function Claimed(v: Visit, ms: MachineSet, d: int): MachineSet {
    ms.(replicas := v.totalReplicas, labels := ms.labels[ClaimKey(v.id) := FormatInt(d)])
  }

  function LabelledRunning(machines: map<string, Machine>, id: AwId, t: string): nat {
    |Running(machines) * Carrying(machines, id, t)|
  }

  /** As many machines of type t run with the label as are demanded. */
  predicate Served(machines: map<string, Machine>, id: AwId, t: string, d: int) {
    LabelledRunning(machines, id, t) == d
  }

  /** A pass that ends early is never reported as done, and as failed only if a call failed. */
  predicate Answered(done: Option<Result>, clean: bool) {
    done.Some? ==> !done.value.Done? && (clean ==> done.value.Requeue?)
  }

  /** The decision taken in state s, after labelling. */
  ghost predicate PairDecided(maxNodes: int, v: Visit, s: State, x: Decision, sets': map<string, MachineSet>)
    requires v.n in Pairs(s.machineSets, v.demand)
  {
    var ms, key := s.machineSets[v.n], ClaimKey(v.id);
    var d := v.demand[ms.instanceType];
    var due := !v.scaled || !Served(s.machines, v.id, ms.instanceType, d);
    && Answered(x.done, x.clean)
    && match x.act {
         case NoUpdate =>
           && sets' == s.machineSets && x.marked == {}
           && (x.clean && Gate(s.machines, v.id, v.demand, maxNodes) && x.done.None? ==> !due)
           && (x.clean && x.done.Some? ==>
                 && Gate(s.machines, v.id, v.demand, maxNodes) && ClaimMatches(ms, v.id, v.demand)
                 && !Served(s.machines, v.id, ms.instanceType, d))
         case Raise(o, c, g, before) =>
           && x.done == Some(Requeue) && o == v.n && c == v.counted && before == {} && x.marked == {}
               && (x.clean ==> due)
           && LabelOf(ms.labels, key) != FormatInt(d) && !StrLess(FormatInt(d), LabelOf(ms.labels, key))
           && (g == 0 || g == |GateMachines(s.machines, v.id)|) && (x.clean ==> g == |GateMachines(s.machines, v.id)|)
           && Wrap32(g + SumValues(v.demand)) <= maxNodes
           && sets' == s.machineSets[v.n := Claimed(v, ms, d)]
         case Shrink(o, lowered) =>
           && x.done.Some? && o == v.n && (x.clean ==> due && Gate(s.machines, v.id, v.demand, maxNodes))
           && StrLess(FormatInt(d), LabelOf(ms.labels, key))
           && ShrunkBy(s, v.id, ms.instanceType, d, LabelledRunning(s.machines, v.id, ms.instanceType), x.marked,
                       lowered, x.clean, sets')
       }
  }

  /** Lines 311-312: the labelled running machines, and whether the gate is open. */
  method Assess(k: Client, maxNodes: int, id: AwId, demand: map<string, int>, t: string)
    returns (running: int, can: bool, ghost gated: nat)
    modifies k`clean
    ensures k.clean ==> old(k.clean)
    ensures k.clean ==> running == |Running(k.machines) * Carrying(k.machines, id, t)|
    ensures (gated == 0 || gated == |GateMachines(k.machines, id)|)
            && (k.clean ==> gated == |GateMachines(k.machines, id)|)
    ensures can <==> Wrap32(gated + SumValues(demand)) <= maxNodes
  {
    var names := FilterAwMachines(k, id, t);
    running := |names|;
    can, gated := CanScaleMachineset(k, maxNodes, id, demand);
  }

  /** Lines 310-355: whether to update, wait, or go on. */
  method DecidePair(k: Client, maxNodes: int, v: Visit, ms: MachineSet)
    returns (done: Option<Result>, ghost x: Decision)
    requires NodesNameMachines(k.nodes)
    requires v.n in Pairs(k.machineSets, v.demand) && k.machineSets[v.n] == ms
    requires ClaimMatches(ms, v.id, v.demand) ==> v.scaled
    modifies k`machines, k`machineSets, k`clean
    ensures k.clean ==> old(k.clean)
    ensures x.done == done && x.clean == k.clean && k.machines == MarkMachines(old(k.machines), x.marked)
    ensures PairDecided(maxNodes, v, old(k.State()), x, k.machineSets)
  {
    var d := v.demand[ms.instanceType];
    done, x := None, Decision(None, {}, NoUpdate, false);
    ghost var s := k.State();
    NothingTouched(k.machines, map[], "");
    FormatIntNotEmpty(d);
    var running, can; ghost var gated;
    running, can, gated := Assess(k, maxNodes, v.id, v.demand, ms.instanceType);
    if (!v.scaled || running != d) && can {
      if LabelOf(ms.labels, ClaimKey(v.id)) != FormatInt(d) {
        ghost var clean := k.clean;
        var res;
        res, x := UpdateClaim(k, v, d, ms, v.id, v.n, v.totalReplicas, gated);
        UpdateDecides(maxNodes, v, s, gated, clean, x, k.machineSets);
        return Some(res), x;
      } else if d != running {
        done := Some(Requeue);
      }
    }
    x := Decision(done, {}, NoUpdate, k.clean);
  }

  lemma UpdateDecides(maxNodes: int, v: Visit, s: State, gated: nat, clean: bool, x: Decision,
        sets': map<string, MachineSet>)
    requires v.n in Pairs(s.machineSets, v.demand)
    requires var ms := s.machineSets[v.n];
             var d := v.demand[ms.instanceType];
             && LabelOf(ms.labels, ClaimKey(v.id)) != FormatInt(d)
             && (clean ==> !v.scaled || !Served(s.machines, v.id, ms.instanceType, d))
             && ClaimUpdated(s, v, ms, d, gated, x, sets')
    requires (x.clean ==> clean) && Wrap32(gated + SumValues(v.demand)) <= maxNodes
    requires (gated == 0 || gated == |GateMachines(s.machines, v.id)|)
             && (clean ==> gated == |GateMachines(s.machines, v.id)|)
    ensures PairDecided(maxNodes, v, s, x, sets')
  {
  }

  lemma FormatIntNotEmpty(d: int)
    ensures FormatInt(d) != ""
  {
    if d >= 0 {
      FormatNatValue(d);
    }
  }

  /** What s1 shows of the machines and nodes a decision looks at is what s shows, but for the AppWrapper's label. */
  ghost predicate Undisturbed(s: State, s1: State, id: AwId) {
    && s1.machineSets == s.machineSets
    && GateMachines(s1.machines, id) == GateMachines(s.machines, id)
    && s1.machines.Keys == s.machines.Keys
    && (forall m | m in s.machines ::
        LabelOf(s1.machines[m].labels, OWNER_LABEL) == LabelOf(s.machines[m].labels, OWNER_LABEL))
    && (forall t: string :: NamedByNodes(s1.nodes, id, t) == NamedByNodes(s.nodes, id, t))
  }

  /** The visit counted what there was to count in s. */
  ghost predicate VisitOf(v: Visit, s: State, clean: bool) {
    && v.n in Pairs(s.machineSets, v.demand)
    && var ms := s.machineSets[v.n];
    && CountedFor(s.machines, v.id, ms.instanceType, v.counted, clean)
    && v.totalReplicas == RaisedTo(ms, v.demand[ms.instanceType], v.counted)
  }

  /** Labelling does not disturb what the decision is about. */
  lemma DecisionAtStart(maxNodes: int, v: Visit, s: State, s1: State, x: Decision, e: Event,
        sets': map<string, MachineSet>)
    requires e.Scale? && e.id == v.id && e.marked == x.marked && e.act == x.act && e.clean == x.clean
    requires VisitOf(v, s, x.clean) && Undisturbed(s, s1, v.id) && PairDecided(maxNodes, v, s1, x, sets')
    requires s1.machines == LabelMachines(s.machines, e.touched, AwLabel(v.id))
    ensures PairActed(maxNodes, s, v.demand, v.n, v.scaled, x.done, e, sets')
  {
    match x.act {
      case NoUpdate => NothingAtStart(maxNodes, v, s, s1, x, e, sets');
      case Raise(_, _, _, _) => RaiseAtStart(maxNodes, v, s, s1, x, e, sets');
      case Shrink(_, _) => ShrinkAtStart(maxNodes, v, s, s1, x, e, sets');
    }
  }

  lemma NothingAtStart(maxNodes: int, v: Visit, s: State, s1: State, x: Decision, e: Event,
        sets': map<string, MachineSet>)
    requires e.Scale? && e.act == x.act == NoUpdate && e.id == v.id && e.marked == x.marked && e.clean == x.clean
    requires VisitOf(v, s, x.clean) && Undisturbed(s, s1, v.id) && PairDecided(maxNodes, v, s1, x, sets')
    requires s1.machines == LabelMachines(s.machines, e.touched, AwLabel(v.id))
    ensures PairActed(maxNodes, s, v.demand, v.n, v.scaled, x.done, e, sets')
  {
    GateUndisturbed(maxNodes, s, s1, v.demand, v.id);
    CountedAfter(s.machines, e.touched, v.id, s.machineSets[v.n].instanceType);
  }

  lemma RaiseAtStart(maxNodes: int, v: Visit, s: State, s1: State, x: Decision, e: Event,
        sets': map<string, MachineSet>)
    requires e.Scale? && e.act.Raise? && e.id == v.id && e.marked == x.marked && e.act == x.act && e.clean == x.clean
    requires VisitOf(v, s, x.clean) && Undisturbed(s, s1, v.id) && PairDecided(maxNodes, v, s1, x, sets')
    requires s1.machines == LabelMachines(s.machines, e.touched, AwLabel(v.id))
    ensures e.act.set_ == v.n && e.act.before == {} && x.done == Some(Requeue)
            && Raised(maxNodes, s, v.demand, e, sets')
    ensures e.clean ==> DueHere(s, v.demand, e, v.n, v.scaled)
  {
    CountedBefore(s.machines, v.id, s.machineSets[v.n].instanceType);
    CountedAfter(s.machines, e.touched, v.id, s.machineSets[v.n].instanceType);
  }

  lemma CountedBefore(machines: map<string, Machine>, id: AwId, t: string)
    ensures CountedAt(machines, {}, id, t) == Running(machines) * Carrying(machines, id, t)
  {
    NothingTouched(machines, map[], AwLabel(id));
  }

  lemma ShrinkAtStart(maxNodes: int, v: Visit, s: State, s1: State, x: Decision, e: Event,
        sets': map<string, MachineSet>)
    requires e.Scale? && e.act.Shrink? && e.id == v.id && e.marked == x.marked && e.act == x.act && e.clean == x.clean
    requires VisitOf(v, s, x.clean) && Undisturbed(s, s1, v.id) && PairDecided(maxNodes, v, s1, x, sets')
    requires s1.machines == LabelMachines(s.machines, e.touched, AwLabel(v.id))
    ensures e.act.set_ == v.n && x.done.Some? && Shrunk(s, v.demand, e, sets')
    ensures e.clean ==> Gate(s.machines, v.id, v.demand, maxNodes) && DueHere(s, v.demand, e, v.n, v.scaled)
  {
    var t := s.machineSets[v.n].instanceType;
    CountedAfter(s.machines, e.touched, v.id, t);
    GateUndisturbed(maxNodes, s, s1, v.demand, v.id);
    ShrunkFromStart(v, s, s1, e, sets');
  }

  lemma GateUndisturbed(maxNodes: int, s: State, s1: State, demand: map<string, int>, id: AwId)
    requires Undisturbed(s, s1, id)
    ensures Gate(s1.machines, id, demand, maxNodes) <==> Gate(s.machines, id, demand, maxNodes)
  {
  }

  lemma ShrunkFromStart(v: Visit, s: State, s1: State, e: Event, sets': map<string, MachineSet>)
    requires e.Scale? && e.act.Shrink? && e.id == v.id && e.act.set_ == v.n && v.n in Pairs(s.machineSets, v.demand)
    requires Undisturbed(s, s1, v.id) && s1.machines == LabelMachines(s.machines, e.touched, AwLabel(v.id))
    requires var t := s.machineSets[v.n].instanceType;
             && StrLess(FormatInt(v.demand[t]), LabelOf(s.machineSets[v.n].labels, ClaimKey(v.id)))
             && ShrunkBy(s1, v.id, t, v.demand[t], LabelledRunning(s1.machines, v.id, t), e.marked, e.act.lowered,
                         e.clean, sets')
    ensures Shrunk(s, v.demand, e, sets')
  {
    var t := s.machineSets[v.n].instanceType;
    CountedAfter(s.machines, e.touched, v.id, t);
    ShrunkAlike(s, s1, v.id, t, v.demand[t], LabelledRunning(s1.machines, v.id, t), e.marked, e.act.lowered, e.clean,
        sets');
  }

  lemma CountedAfter(machines: map<string, Machine>, touched: set<string>, id: AwId, t: string)
    ensures LabelledRunning(LabelMachines(machines, touched, AwLabel(id)), id, t)
              == |CountedAt(machines, touched, id, t)|
  {
    assert Running(LabelMachines(machines, touched, AwLabel(id))) == Running(machines);
  }

  /** The removal does the same whether it is seen from before or after the labelling. */
  lemma ShrunkAlike(s: State, s1: State, id: AwId, t: string, d: int, running: nat, marked: set<string>,
        lowered: Option<string>, clean: bool, sets': map<string, MachineSet>)
    requires Undisturbed(s, s1, id) && ShrunkBy(s1, id, t, d, running, marked, lowered, clean, sets')
    ensures ShrunkBy(s, id, t, d, running, marked, lowered, clean, sets')
  {
    SameLead(s, s1, id, t);
  }

  lemma SameLead(s: State, s1: State, id: AwId, t: string)
    requires Undisturbed(s, s1, id)
    ensures LeadsToOwner(s1.machines, s1.nodes, s1.machineSets, id, t)
        <==> LeadsToOwner(s.machines, s.nodes, s.machineSets, id, t)
  {
    assert forall m :: RemovableOwner(s1.machines, s1.machineSets, m) <==> RemovableOwner(s.machines, s.machineSets, m);
  }

  lemma GrownThenMarked(s: State, s1: State, s2: State, demand: map<string, int>, id: AwId, touched: set<string>,
        touchedNodes: set<string>, marked: set<string>, cleanLabels: bool, clean: bool)
    requires ValidId(id) && (clean ==> cleanLabels)
    requires s1.machineSets == s.machineSets
    requires Grown(s, demand, id, touched, touchedNodes, {}, cleanLabels, s1)
    requires s2 == s1.(machines := MarkMachines(s1.machines, marked), machineSets := s2.machineSets)
    ensures Grown(s, demand, id, touched, touchedNodes, marked, clean, s2)
    ensures Undisturbed(s, s1, id) && s1.machines == LabelMachines(s.machines, touched, AwLabel(id))
  {
    NothingTouched(LabelMachines(s.machines, touched, AwLabel(id)), map[], "");
    GrownUndisturbed(s, s1, demand, id, touched, touchedNodes, cleanLabels);
    MarkedCarrying(s1.machines, marked, id);
  }

  lemma GrownUndisturbed(s: State, s1: State, demand: map<string, int>, id: AwId, touched: set<string>,
        touchedNodes: set<string>, clean: bool)
    requires ValidId(id) && s1.machineSets == s.machineSets
             && Grown(s, demand, id, touched, touchedNodes, {}, clean, s1)
    ensures Undisturbed(s, s1, id)
  {
    var L := AwLabel(id);
    NothingTouched(LabelMachines(s.machines, touched, L), s.nodes, L);
    LabellingLeaves(s, touched, touchedNodes, id, demand);
    assert s1 == s.(machines := LabelMachines(s.machines, touched, L), nodes := LabelNodes(s.nodes, touchedNodes, L));
    KeysApart(id);
    NamedAfterLabels(s.nodes, touchedNodes, id);
  }

  /** The removal selects on other labels than the one that is written. */
  lemma NamedAfterLabels(nodes: map<string, Node>, touched: set<string>, id: AwId)
    requires ValidId(id)
    ensures forall t: string ::
              NamedByNodes(LabelNodes(nodes, touched, AwLabel(id)), id, t) == NamedByNodes(nodes, id, t)
  {
    KeysApart(id);
    var after := LabelNodes(nodes, touched, AwLabel(id));
    forall t: string
      ensures NamedByNodes(after, id, t) == NamedByNodes(nodes, id, t)
    {
      forall n | n in nodes
        ensures Matches(map[id.name := id.name, NODE_TYPE_LABEL := t], after[n].labels) <==>
                Matches(map[id.name := id.name, NODE_TYPE_LABEL := t], nodes[n].labels)
      {
        MatchesTwo(after[n].labels, id.name, id.name, NODE_TYPE_LABEL, t);
        MatchesTwo(nodes[n].labels, id.name, id.name, NODE_TYPE_LABEL, t);
      }
      assert forall n | n in nodes :: MachineOfNode(after[n]) == MachineOfNode(nodes[n]);
      SameNamed(nodes, after, id, t);
    }
  }

  lemma SameNamed(nodes: map<string, Node>, after: map<string, Node>, id: AwId, t: string)
    requires after.Keys == nodes.Keys
    requires forall n | n in nodes ::
               && MachineOfNode(after[n]) == MachineOfNode(nodes[n])
               && (Matches(map[id.name := id.name, NODE_TYPE_LABEL := t], after[n].labels) <==>
                   Matches(map[id.name := id.name, NODE_TYPE_LABEL := t], nodes[n].labels))
    ensures NamedByNodes(after, id, t) == NamedByNodes(nodes, id, t)
  {
    var sel := map[id.name := id.name, NODE_TYPE_LABEL := t];
    assert forall n | n in nodes && Matches(sel, nodes[n].labels) && MachineOfNode(nodes[n]).Some? :: n in after;
  }

  lemma MarkedCarrying(machines: map<string, Machine>, marked: set<string>, id: AwId)
    ensures forall t :: Carrying(MarkMachines(machines, marked), id, t) == Carrying(machines, id, t)
  {
    MarkingLeaves(machines, marked);
  }

  /** Lines 253-308: the replicas the update would ask for, computed from the labelled machines
      counted before the labelling loop runs, and then that loop. */
  method CountAndLabel(k: Client, id: AwId, demand: map<string, int>, n: string, ms: MachineSet)
    returns (err: bool, totalReplicas: int, counted: nat, ghost touched: set<string>, ghost touchedNodes: set<string>)
    requires NodesNameMachines(k.nodes) && ValidId(id)
    requires n in Pairs(k.machineSets, demand) && k.machineSets[n] == ms
    modifies k`machines, k`nodes, k`clean
    ensures k.clean ==> old(k.clean) && !err
    ensures Grown(old(k.State()), demand, id, touched, touchedNodes, {}, k.clean, k.State())
    ensures OwnedBy(old(k.machines), touched, n)
    ensures totalReplicas == RaisedTo(ms, demand[ms.instanceType], counted)
    ensures CountedFor(old(k.machines), id, ms.instanceType, counted, k.clean)
    ensures k.clean ==> FilledAt(k.machineSets, k.machines, demand, id, n)
  {
    var running := FilterAwMachines(k, id, ms.instanceType);
    counted := |running|;
    var existingReplicas := Wrap32(ms.replicas - Wrap32(|running|));
    totalReplicas := Wrap32(Wrap32(demand[ms.instanceType]) + existingReplicas);
    WrapTotal(ms.replicas, demand[ms.instanceType], |running|);
    err, touched, touchedNodes := LabelMachinesOf(k, id, demand, n);
  }

  lemma NamesAfterLabels(nodes: map<string, Node>, touched: set<string>, key: string)
    requires NodesNameMachines(nodes)
    ensures NodesNameMachines(LabelNodes(nodes, touched, key))
  {
    forall n | n in nodes && MACHINE_ANNOTATION in nodes[n].annotations
      ensures MachineOfNode(LabelNodes(nodes, touched, key)[n]).Some?
    {
      assert MachineOfNode(nodes[n]).Some?;
    }
  }

  ghost predicate CountedFor(machines: map<string, Machine>, id: AwId, t: string, counted: nat, clean: bool) {
    var seen := |Running(machines) * Carrying(machines, id, t)|;
    (counted == 0 || counted == seen) && (clean ==> counted == seen)
  }

  /** Lines 251-364: one MachineSet of a demanded type. */
  method ReusePair(k: Client, maxNodes: int, id: AwId, demand: map<string, int>, n: string, ms: MachineSet,
        isScaled: bool)
    returns (scaled: bool, done: Option<Result>, ghost e: Event)
    requires NodesNameMachines(k.nodes) && ValidId(id)
    requires n in Pairs(k.machineSets, demand) && k.machineSets[n] == ms
    modifies k`machines, k`nodes, k`machineSets, k`clean
    ensures k.clean ==> old(k.clean)
    ensures e.Scale? && e.id == id && e.clean == k.clean && e.seen == {n}
    ensures scaled <==> isScaled || ClaimMatches(old(k.machineSets)[n], id, demand)
    ensures Grown(old(k.State()), demand, id, e.touched, e.touchedNodes, e.marked, e.clean, k.State())
    ensures OwnedBy(old(k.machines), e.touched, n)
    ensures PairActed(maxNodes, old(k.State()), demand, n, scaled, done, e, k.machineSets)
    ensures GoesOnServed(maxNodes, old(k.machines), k.machines, id, demand, ms.instanceType, done, e.clean)
    ensures e.clean ==> FilledAt(old(k.machineSets), k.machines, demand, id, n)
  {
    ghost var s := k.State();
    scaled := isScaled || (ClaimKey(id) in ms.labels && ms.labels[ClaimKey(id)] == FormatInt(demand[ms.instanceType]));
    var err, totalReplicas, counted; ghost var touched, touchedNodes;
    err, totalReplicas, counted, touched, touchedNodes := CountAndLabel(k, id, demand, n, ms);
    if err {
      e := Scale(id, touched, touchedNodes, {}, {n}, NoUpdate, k.clean);
      return scaled, Some(Failed), e;
    }
    ghost var s1, clean1 := k.State(), k.clean;
    NamesAfterLabels(s.nodes, touchedNodes, AwLabel(id));
    var v := Visit(id, demand, n, scaled, totalReplicas, counted);
    ghost var x;
    done, x := DecidePair(k, maxNodes, v, ms);
    e := Scale(id, touched, touchedNodes, x.marked, {n}, x.act, k.clean);
    PairConcludes(maxNodes, v, s, s1, clean1, x, e, k.State());
  }

  /** The labelling from s to s1 and the decision in s1, which leads to s2, seen as one from s. */
  lemma PairConcludes(maxNodes: int, v: Visit, s: State, s1: State, clean1: bool, x: Decision, e: Event, s2: State)
    requires ValidId(v.id) && e.Scale? && e.id == v.id && e.marked == x.marked && e.act == x.act && e.clean == x.clean
    requires (x.clean ==> clean1) && VisitOf(v, s, clean1) && s1.machineSets == s.machineSets
    requires Grown(s, v.demand, v.id, e.touched, e.touchedNodes, {}, clean1, s1)
    requires clean1 ==> FilledAt(s1.machineSets, s1.machines, v.demand, v.id, v.n)
    requires PairDecided(maxNodes, v, s1, x, s2.machineSets)
    requires s2 == s1.(machines := MarkMachines(s1.machines, x.marked), machineSets := s2.machineSets)
    ensures Grown(s, v.demand, v.id, e.touched, e.touchedNodes, e.marked, e.clean, s2)
    ensures PairActed(maxNodes, s, v.demand, v.n, v.scaled, x.done, e, s2.machineSets)
    ensures GoesOnServed(maxNodes, s.machines, s2.machines, v.id, v.demand, s.machineSets[v.n].instanceType, x.done,
              e.clean)
    ensures e.clean ==> FilledAt(s.machineSets, s2.machines, v.demand, v.id, v.n)
  {
    var t := s.machineSets[v.n].instanceType;
    GrownThenMarked(s, s1, s2, v.demand, v.id, e.touched, e.touchedNodes, x.marked, clean1, x.clean);
    DecisionAtStart(maxNodes, v, s, s1, x, e, s2.machineSets);
    DecidedServed(maxNodes, v, s, s1, s2.machines, x, s2.machineSets);
    FilledMarked(s1.machines, x.marked, v.id, t, v.n, v.demand[t]);
  }

  /** The loops go on after a pair, with the gate open, only if its type is served; and no pair ends the
      pass with nothing left to do. */
  ghost predicate GoesOnServed(maxNodes: int, before: map<string, Machine>, after: map<string, Machine>, id: AwId,
        demand: map<string, int>, t: string, done: Option<Result>, clean: bool)
    requires t in demand
  {
    && Answered(done, clean)
    && (clean && done.None? && Gate(before, id, demand, maxNodes) ==> Served(after, id, t, demand[t]))
  }

  lemma DecidedServed(maxNodes: int, v: Visit, s: State, s1: State, after: map<string, Machine>, x: Decision,
        sets': map<string, MachineSet>)
    requires v.n in Pairs(s.machineSets, v.demand) && Undisturbed(s, s1, v.id)
             && after == MarkMachines(s1.machines, x.marked)
    requires PairDecided(maxNodes, v, s1, x, sets')
    ensures GoesOnServed(maxNodes, s.machines, after, v.id, v.demand, s.machineSets[v.n].instanceType, x.done, x.clean)
  {
    if x.done.None? && x.clean && Gate(s.machines, v.id, v.demand, maxNodes) {
      GoingOnIsServed(maxNodes, v, s1, x, sets');
      NothingTouched(s1.machines, map[], "");
    }
  }

  lemma GoingOnIsServed(maxNodes: int, v: Visit, s: State, x: Decision, sets': map<string, MachineSet>)
    requires v.n in Pairs(s.machineSets, v.demand) && PairDecided(maxNodes, v, s, x, sets')
    requires x.done.None? && x.clean && Gate(s.machines, v.id, v.demand, maxNodes)
    ensures x.marked == {} && Served(s.machines, v.id, s.machineSets[v.n].instanceType,
              v.demand[s.machineSets[v.n].instanceType])
  {
  }

  lemma WrapTotal(r: int, d: int, c: int)
    ensures Wrap32(Wrap32(d) + Wrap32(r - Wrap32(c))) == Wrap32(r + d - c)
  {
    WrapLaws(c, r);
    WrapAdd(d, r - c);
  }

  /** Machines labelled so far are not run by a MachineSet still to visit. */
  ghost predicate NotOwnedBy(machines: map<string, Machine>, touched: set<string>, pending: set<string>) {
    forall m | m in touched && m in machines :: LabelOf(machines[m].labels, OWNER_LABEL) !in pending
  }

  /** What holds between two rounds of the loops: labels grown, nothing else written, `isScaled` telling
      whether a MachineSet with the demanded claim was met, and `pending` the MachineSets still to visit. */
  ghost predicate Passing(maxNodes: int, s0: State, s1: State, demand: map<string, int>, id: AwId,
        touched: set<string>, touchedNodes: set<string>, clean: bool, scaled: bool, pending: set<string>)
  {
    && s1.machineSets == s0.machineSets
    && Grown(s0, demand, id, touched, touchedNodes, {}, clean, s1)
    && NotOwnedBy(s0.machines, touched, pending)
    && (scaled ==> exists n :: n in s0.machineSets && ClaimMatches(s0.machineSets[n], id, demand))
    && (!scaled ==> NoneMatches(s0, demand, id, Pairs(s0.machineSets, demand) - pending))
    && (clean && Gate(s0.machines, id, demand, maxNodes) && !scaled ==> Pairs(s0.machineSets, demand) <= pending)
  }

  /** When no call failed, labelling came to its end at the MachineSets visited so far, and if the gate is open
      their types are served. */
  ghost predicate ServedSoFar(maxNodes: int, s0: State, machines: map<string, Machine>, demand: map<string, int>,
        id: AwId, clean: bool, pending: set<string>) {
    clean ==>
      && AllFilled(s0.machineSets, machines, demand, id, pending)
      && (Gate(s0.machines, id, demand, maxNodes) ==> AllServed(s0.machineSets, machines, demand, id, pending))
  }

  /** None of the MachineSets has the claim set. */
  ghost predicate NoneMatches(s: State, demand: map<string, int>, id: AwId, seen: set<string>) {
    forall o | o in seen && o in s.machineSets :: !ClaimMatches(s.machineSets[o], id, demand)
  }

  ghost predicate AllFilled(sets: map<string, MachineSet>, machines: map<string, Machine>, demand: map<string, int>,
        id: AwId, pending: set<string>) {
    FilledIn(sets, machines, demand, id, Pairs(sets, demand) - pending)
  }

  lemma AllStillFilled(s1: State, s2: State, demand: map<string, int>, id: AwId, n: string, touched: set<string>,
        touchedNodes: set<string>, marked: set<string>, pending: set<string>)
    requires ValidId(id) && n in Pairs(s1.machineSets, demand)
    requires Grown(s1, demand, id, touched, touchedNodes, marked, true, s2)
    requires FilledAt(s1.machineSets, s2.machines, demand, id, n)
    requires AllFilled(s1.machineSets, s1.machines, demand, id, pending)
    ensures AllFilled(s1.machineSets, s2.machines, demand, id, pending - {n})
  {
    forall o | o in Pairs(s1.machineSets, demand) && o !in pending - {n}
      ensures FilledAt(s1.machineSets, s2.machines, demand, id, o)
    {
      if o != n {
        assert FilledAt(s1.machineSets, s1.machines, demand, id, o);
        StillFilled(s1, s2, demand, id, touched, touchedNodes, marked, s1.machineSets[o].instanceType, o);
      }
    }
  }

  ghost predicate AllServed(sets: map<string, MachineSet>, machines: map<string, Machine>, demand: map<string, int>,
        id: AwId, pending: set<string>) {
    forall n | n in Pairs(sets, demand) && n !in pending ::
        Served(machines, id, sets[n].instanceType, demand[sets[n].instanceType])
  }

  /** Labelling the machines of MachineSet n does not show in the counts of other types. */
  lemma OtherTypesKept(s1: State, s2: State, demand: map<string, int>, id: AwId, n: string, touched: set<string>,
        touchedNodes: set<string>, marked: set<string>, clean: bool, u: string)
    requires ValidId(id) && n in s1.machineSets && u != s1.machineSets[n].instanceType
    requires Grown(s1, demand, id, touched, touchedNodes, marked, clean, s2) && OwnedBy(s1.machines, touched, n)
    ensures Running(s2.machines) * Carrying(s2.machines, id, u) == Running(s1.machines) * Carrying(s1.machines, id, u)
  {
    CarryingAfter(s1.machines, touched, marked, id, u);
    MarkingLeaves(LabelMachines(s1.machines, touched, AwLabel(id)), marked);
    assert Running(LabelMachines(s1.machines, touched, AwLabel(id))) == Running(s1.machines);
    forall m | m in touched
      ensures s1.machines[m].labels[TYPE_LABEL] != u
    {
      assert LabelOf(s1.machines[m].labels, OWNER_LABEL) == n;
    }
  }

  lemma ServedNext(maxNodes: int, s0: State, s1: State, s2: State, demand: map<string, int>, id: AwId, n: string,
        done: Option<Result>, last: Event, clean: bool, pending: set<string>)
    requires ValidId(id) && last.Scale? && (last.clean ==> clean) && done.None?
    requires s1.machineSets == s0.machineSets && n in Pairs(s0.machineSets, demand)
    requires GateMachines(s1.machines, id) == GateMachines(s0.machines, id)
    requires Grown(s1, demand, id, last.touched, last.touchedNodes, last.marked, last.clean, s2)
             && OwnedBy(s1.machines, last.touched, n)
    requires GoesOnServed(maxNodes, s1.machines, s2.machines, id, demand, s0.machineSets[n].instanceType, done,
               last.clean)
    requires ServedSoFar(maxNodes, s0, s1.machines, demand, id, clean, pending)
    requires last.clean ==> FilledAt(s0.machineSets, s2.machines, demand, id, n)
    ensures ServedSoFar(maxNodes, s0, s2.machines, demand, id, last.clean, pending - {n})
  {
    if last.clean {
      AllStillFilled(s1, s2, demand, id, n, last.touched, last.touchedNodes, last.marked, pending);
    }
    if last.clean && Gate(s0.machines, id, demand, maxNodes) {
      AllStillServed(s1, s2, demand, id, n, last.touched, last.touchedNodes, last.marked, last.clean, pending);
    }
  }

  lemma AllStillServed(s1: State, s2: State, demand: map<string, int>, id: AwId, n: string, touched: set<string>,
        touchedNodes: set<string>, marked: set<string>, clean: bool, pending: set<string>)
    requires ValidId(id) && n in Pairs(s1.machineSets, demand)
    requires Grown(s1, demand, id, touched, touchedNodes, marked, clean, s2) && OwnedBy(s1.machines, touched, n)
    requires Served(s2.machines, id, s1.machineSets[n].instanceType, demand[s1.machineSets[n].instanceType])
    requires AllServed(s1.machineSets, s1.machines, demand, id, pending)
    ensures AllServed(s1.machineSets, s2.machines, demand, id, pending - {n})
  {
    forall o | o in Pairs(s1.machineSets, demand) && o !in pending - {n}
      ensures Served(s2.machines, id, s1.machineSets[o].instanceType, demand[s1.machineSets[o].instanceType])
    {
      assert o !in pending || o == n;
      StillServed(s1, s2, demand, id, n, touched, touchedNodes, marked, clean, s1.machineSets[o].instanceType);
    }
  }

  lemma StillServed(s1: State, s2: State, demand: map<string, int>, id: AwId, n: string, touched: set<string>,
        touchedNodes: set<string>, marked: set<string>, clean: bool, u: string)
    requires ValidId(id) && n in Pairs(s1.machineSets, demand) && u in demand
    requires Grown(s1, demand, id, touched, touchedNodes, marked, clean, s2) && OwnedBy(s1.machines, touched, n)
    requires Served(s2.machines, id, s1.machineSets[n].instanceType, demand[s1.machineSets[n].instanceType])
    requires Served(s1.machines, id, u, demand[u]) || u == s1.machineSets[n].instanceType
    ensures Served(s2.machines, id, u, demand[u])
  {
    if u != s1.machineSets[n].instanceType {
      OtherTypesKept(s1, s2, demand, id, n, touched, touchedNodes, marked, clean, u);
    }
  }

  /** The event of a pass that ends at its last pair with event `last`, after visiting `seen` and labelling
      `touched`. */
  function PassEvent(touched: set<string>, touchedNodes: set<string>, seen: set<string>, last: Event): Event
    requires last.Scale?
  {
    last.(
      touched := touched + last.touched,
      touchedNodes := touchedNodes + last.touchedNodes,
      seen := seen + last.seen,
      act := if last.act.Raise? then last.act.(before := touched) else last.act)
  }

  /** A pass is its labelling so far followed by what its last pair does. */
  lemma PassEnds(maxNodes: int, s0: State, s1: State, s2: State, demand: map<string, int>, id: AwId, n: string,
        touched: set<string>, touchedNodes: set<string>, seen: set<string>, clean: bool, scaled: bool,
        done: Option<Result>, last: Event)
    requires ValidId(id) && last.Scale? && last.id == id && last.seen == {n} && (last.clean ==> clean)
    requires s1.machineSets == s0.machineSets && Grown(s0, demand, id, touched, touchedNodes, {}, clean, s1)
    requires Grown(s1, demand, id, last.touched, last.touchedNodes, last.marked, last.clean, s2)
    requires n in Pairs(s0.machineSets, demand) && seen <= Pairs(s0.machineSets, demand)
    requires PairActed(maxNodes, s1, demand, n, scaled, done, last, s2.machineSets) && done.Some?
    requires NotOwnedBy(s0.machines, touched, {n})
    requires !scaled ==> NoneMatches(s0, demand, id, seen + {n})
    requires last.clean ==> FilledIn(s0.machineSets, s2.machines, demand, id, seen + {n})
    ensures ReuseScaled(maxNodes, s0, demand, PassEvent(touched, touchedNodes, seen, last), s2)
  {
    PassGrows(s0, s1, s2, demand, id, touched, touchedNodes, seen, clean, last);
    SeenAreFilled(s0, s2, demand, id, n, touched, touchedNodes, seen, done, last);
    SameDecision(s0, s1, demand, id, touched, touchedNodes, clean);
    PassActs(maxNodes, s0, s1, demand, id, n, touched, touchedNodes, seen, scaled, done, last, s2.machineSets);
  }

  lemma PassGrows(s0: State, s1: State, s2: State, demand: map<string, int>, id: AwId, touched: set<string>,
        touchedNodes: set<string>, seen: set<string>, clean: bool, last: Event)
    requires ValidId(id) && last.Scale? && last.id == id && (last.clean ==> clean)
    requires s1.machineSets == s0.machineSets && Grown(s0, demand, id, touched, touchedNodes, {}, clean, s1)
    requires Grown(s1, demand, id, last.touched, last.touchedNodes, last.marked, last.clean, s2)
    ensures var e := PassEvent(touched, touchedNodes, seen, last);
            Grown(s0, demand, id, e.touched, e.touchedNodes, e.marked, e.clean, s2)
  {
    GrownTwice(s0, s1, s2, demand, id, touched, touchedNodes, clean, last.touched, last.touchedNodes, last.marked,
        last.clean);
  }

  lemma SeenAreFilled(s0: State, s2: State, demand: map<string, int>, id: AwId, n: string, touched: set<string>,
        touchedNodes: set<string>, seen: set<string>, done: Option<Result>, last: Event)
    requires last.Scale? && last.id == id && last.seen == {n} && (last.act.NoUpdate? || last.act.set_ == n)
    requires n in Pairs(s0.machineSets, demand) && seen <= Pairs(s0.machineSets, demand)
    requires last.clean ==> FilledIn(s0.machineSets, s2.machines, demand, id, seen + {n})
    ensures Fills(s0, demand, PassEvent(touched, touchedNodes, seen, last), s2)
  {
  }

  /** The labels written so far do not show in the later decision, but for the machines counted. */
  ghost predicate SameForDecision(s0: State, s1: State, id: AwId, touched: set<string>) {
    && Undisturbed(s0, s1, id)
    && s1.machines == LabelMachines(s0.machines, touched, AwLabel(id))
    && Running(s1.machines) == Running(s0.machines)
    && (forall t: string :: CountedAt(s1.machines, {}, id, t) == CountedAt(s0.machines, touched, id, t))
  }

  lemma SameDecision(s0: State, s1: State, demand: map<string, int>, id: AwId, touched: set<string>,
        touchedNodes: set<string>, clean: bool)
    requires ValidId(id) && s1.machineSets == s0.machineSets
    requires Grown(s0, demand, id, touched, touchedNodes, {}, clean, s1)
    ensures SameForDecision(s0, s1, id, touched)
  {
    var L := AwLabel(id);
    GrownUndisturbed(s0, s1, demand, id, touched, touchedNodes, clean);
    NothingTouched(LabelMachines(s0.machines, touched, L), s0.nodes, L);
    NothingTouched(s1.machines, s1.nodes, L);
    LabellingLeaves(s0, touched, touchedNodes, id, demand);
    assert s1 == s0.(machines := LabelMachines(s0.machines, touched, L),
             nodes := LabelNodes(s0.nodes, touchedNodes, L));
  }

  lemma PassActs(maxNodes: int, s0: State, s1: State, demand: map<string, int>, id: AwId, n: string,
        touched: set<string>, touchedNodes: set<string>, seen: set<string>, scaled: bool, done: Option<Result>,
        last: Event, sets2: map<string, MachineSet>)
    requires last.Scale? && last.id == id && last.seen == {n} && s1.machineSets == s0.machineSets
    requires n in Pairs(s0.machineSets, demand) && SameForDecision(s0, s1, id, touched)
    requires PairActed(maxNodes, s1, demand, n, scaled, done, last, sets2) && done.Some?
    requires NotOwnedBy(s0.machines, touched, {n})
    requires !scaled ==> NoneMatches(s0, demand, id, seen + {n})
    ensures ReuseActed(maxNodes, s0, demand, PassEvent(touched, touchedNodes, seen, last), sets2)
  {
    match last.act {
      case NoUpdate => WaitInPass(maxNodes, s0, s1, demand, id, n, touched, touchedNodes, seen, scaled, done, last,
          sets2);
      case Raise(_, _, _, _) =>
        RaiseActs(maxNodes, s0, s1, demand, id, n, touched, touchedNodes, seen, scaled, done, last, sets2);
      case Shrink(_, _) =>
        ShrinkActs(maxNodes, s0, s1, demand, id, n, touched, touchedNodes, seen, scaled, done, last, sets2);
    }
  }

  lemma RaiseActs(maxNodes: int, s0: State, s1: State, demand: map<string, int>, id: AwId, n: string,
        touched: set<string>, touchedNodes: set<string>, seen: set<string>, scaled: bool, done: Option<Result>,
        last: Event, sets2: map<string, MachineSet>)
    requires last.Scale? && last.id == id && last.seen == {n} && s1.machineSets == s0.machineSets && last.act.Raise?
    requires n in Pairs(s0.machineSets, demand) && SameForDecision(s0, s1, id, touched)
    requires PairActed(maxNodes, s1, demand, n, scaled, done, last, sets2) && done.Some?
    requires NotOwnedBy(s0.machines, touched, {n})
    requires !scaled ==> NoneMatches(s0, demand, id, seen + {n})
    ensures ReuseActed(maxNodes, s0, demand, PassEvent(touched, touchedNodes, seen, last), sets2)
  {
    RaiseInPass(maxNodes, s0, s1, demand, id, touched, touchedNodes, seen, last, sets2);
    if last.clean {
      DueInPass(s0, s1, demand, id, n, touched, touchedNodes, seen, scaled, last);
    }
  }

  lemma ShrinkActs(maxNodes: int, s0: State, s1: State, demand: map<string, int>, id: AwId, n: string,
        touched: set<string>, touchedNodes: set<string>, seen: set<string>, scaled: bool, done: Option<Result>,
        last: Event, sets2: map<string, MachineSet>)
    requires last.Scale? && last.id == id && last.seen == {n} && s1.machineSets == s0.machineSets && last.act.Shrink?
    requires n in Pairs(s0.machineSets, demand) && SameForDecision(s0, s1, id, touched)
    requires PairActed(maxNodes, s1, demand, n, scaled, done, last, sets2) && done.Some?
    requires !scaled ==> NoneMatches(s0, demand, id, seen + {n})
    ensures ReuseActed(maxNodes, s0, demand, PassEvent(touched, touchedNodes, seen, last), sets2)
  {
    ShrinkInPass(s0, s1, demand, id, touched, touchedNodes, seen, last, sets2);
    if last.clean {
      DueInPass(s0, s1, demand, id, n, touched, touchedNodes, seen, scaled, last);
    }
    SameGate(maxNodes, s0, s1, demand, id, touched);
    ShrinkIsAct(maxNodes, s0, demand, PassEvent(touched, touchedNodes, seen, last), sets2);
  }

  lemma SameGate(maxNodes: int, s0: State, s1: State, demand: map<string, int>, id: AwId, touched: set<string>)
    requires SameForDecision(s0, s1, id, touched)
    ensures Gate(s1.machines, id, demand, maxNodes) <==> Gate(s0.machines, id, demand, maxNodes)
  {
    GateUndisturbed(maxNodes, s0, s1, demand, id);
  }

  lemma ShrinkIsAct(maxNodes: int, s: State, demand: map<string, int>, e: Event, sets': map<string, MachineSet>)
    requires e.Scale? && e.act.Shrink? && Shrunk(s, demand, e, sets')
    requires e.clean ==> Gate(s.machines, e.id, demand, maxNodes) && Due(s, demand, e, e.act.set_)
    ensures ReuseActed(maxNodes, s, demand, e, sets')
  {
  }

  lemma WaitIsAct(maxNodes: int, s: State, demand: map<string, int>, e: Event, n: string,
        sets': map<string, MachineSet>)
    requires e.Scale? && e.act.NoUpdate? && e.marked == {} && sets' == s.machineSets
    requires e.clean ==> Gate(s.machines, e.id, demand, maxNodes) && Waits(s, demand, e, n)
    ensures ReuseActed(maxNodes, s, demand, e, sets')
  {
  }

  lemma WaitInPass(maxNodes: int, s0: State, s1: State, demand: map<string, int>, id: AwId, n: string,
        touched: set<string>, touchedNodes: set<string>, seen: set<string>, scaled: bool, done: Option<Result>,
        last: Event, sets2: map<string, MachineSet>)
    requires last.Scale? && last.id == id && last.seen == {n} && s1.machineSets == s0.machineSets && last.act.NoUpdate?
    requires n in Pairs(s0.machineSets, demand) && SameForDecision(s0, s1, id, touched)
    requires PairActed(maxNodes, s1, demand, n, scaled, done, last, sets2) && done.Some?
    ensures ReuseActed(maxNodes, s0, demand, PassEvent(touched, touchedNodes, seen, last), sets2)
  {
    FoundInPass(s0, s1, id, touched, touchedNodes, seen, n, last);
    SameGate(maxNodes, s0, s1, demand, id, touched);
    WaitIsAct(maxNodes, s0, demand, PassEvent(touched, touchedNodes, seen, last), n, sets2);
  }

  lemma DueInPass(s0: State, s1: State, demand: map<string, int>, id: AwId, n: string, touched: set<string>,
        touchedNodes: set<string>, seen: set<string>, scaled: bool, last: Event)
    requires last.Scale? && last.id == id && last.seen == {n} && s1.machineSets == s0.machineSets
    requires n in Pairs(s0.machineSets, demand) && SameForDecision(s0, s1, id, touched)
    requires DueHere(s1, demand, last, n, scaled) && (!scaled ==> NoneMatches(s0, demand, id, seen + {n}))
    ensures Due(s0, demand, PassEvent(touched, touchedNodes, seen, last), n)
  {
    FoundInPass(s0, s1, id, touched, touchedNodes, seen, n, last);
  }

  /** The machines that a pass found running at its last pair are those that pair found. */
  lemma FoundInPass(s0: State, s1: State, id: AwId, touched: set<string>, touchedNodes: set<string>,
        seen: set<string>, n: string, last: Event)
    requires last.Scale? && last.id == id && n in s0.machineSets && s1.machineSets == s0.machineSets
    requires SameForDecision(s0, s1, id, touched)
    ensures FoundRunning(s0, PassEvent(touched, touchedNodes, seen, last), n) == FoundRunning(s1, last, n)
  {
    LabelTwice(s0.machines, touched, last.touched, AwLabel(id));
  }

  lemma RaiseInPass(maxNodes: int, s0: State, s1: State, demand: map<string, int>, id: AwId, touched: set<string>,
        touchedNodes: set<string>, seen: set<string>, last: Event, sets2: map<string, MachineSet>)
    requires last.Scale? && last.id == id && last.act.Raise? && last.act.before == {}
             && s1.machineSets == s0.machineSets
    requires SameForDecision(s0, s1, id, touched) && Raised(maxNodes, s1, demand, last, sets2)
    requires NotOwnedBy(s0.machines, touched, {last.act.set_})
    ensures Raised(maxNodes, s0, demand, PassEvent(touched, touchedNodes, seen, last), sets2)
  {
    var t := s0.machineSets[last.act.set_].instanceType;
    assert CountedAt(s1.machines, {}, id, t) == CountedAt(s0.machines, touched, id, t);
  }

  lemma ShrinkInPass(s0: State, s1: State, demand: map<string, int>, id: AwId, touched: set<string>,
        touchedNodes: set<string>, seen: set<string>, last: Event, sets2: map<string, MachineSet>)
    requires last.Scale? && last.id == id && last.act.Shrink? && s1.machineSets == s0.machineSets
    requires SameForDecision(s0, s1, id, touched) && Shrunk(s1, demand, last, sets2)
    ensures Shrunk(s0, demand, PassEvent(touched, touchedNodes, seen, last), sets2)
  {
    var t := s1.machineSets[last.act.set_].instanceType;
    LabelTwice(s0.machines, touched, last.touched, AwLabel(id));
    assert CountedAt(s1.machines, last.touched, id, t) == CountedAt(s0.machines, touched + last.touched, id, t);
    ShrunkAlike(s0, s1, id, t, demand[t], |CountedAt(s1.machines, last.touched, id, t)|, last.marked,
        last.act.lowered, last.clean, sets2);
  }

  /** One round of the inner loop, at a MachineSet of the demanded type. */
  method VisitPair(k: Client, maxNodes: int, id: AwId, demand: map<string, int>, n: string, ms: MachineSet,
        isScaled: bool, ghost s0: State, ghost touched: set<string>, ghost touchedNodes: set<string>,
        ghost pending: set<string>)
    returns (scaled: bool, done: Option<Result>, ghost touched': set<string>, ghost touchedNodes': set<string>,
              ghost e: Event)
    requires k.Valid() && ValidId(id)
    requires n in Pairs(s0.machineSets, demand) && s0.machineSets[n] == ms && n in pending
    requires Passing(maxNodes, s0, k.State(), demand, id, touched, touchedNodes, k.clean, isScaled, pending)
    requires ServedSoFar(maxNodes, s0, k.machines, demand, id, k.clean, pending)
    modifies k`machines, k`nodes, k`machineSets, k`clean
    ensures k.clean ==> old(k.clean)
    ensures done.None? ==>
              k.Valid() && Passing(maxNodes, s0, k.State(), demand, id, touched', touchedNodes', k.clean, scaled,
              pending - {n})
    ensures done.None? ==> ServedSoFar(maxNodes, s0, k.machines, demand, id, k.clean, pending - {n})
    ensures Answered(done, k.clean)
    ensures done.Some? ==>
              e.Scale? && e.id == id && e.clean == k.clean && ReuseScaled(maxNodes, s0, demand, e, k.State())
  {
    ghost var s1, clean1 := k.State(), k.clean;
    ghost var last;
    scaled, done, last := ReusePair(k, maxNodes, id, demand, n, ms, isScaled);
    touched', touchedNodes' := touched + last.touched, touchedNodes + last.touchedNodes;
    e := PassEvent(touched, touchedNodes, Pairs(s0.machineSets, demand) - pending, last);
    if done.Some? {
      RoundEnds(maxNodes, s0, s1, k.State(), demand, id, n, touched, touchedNodes, clean1, isScaled, scaled, done,
          last, pending);
    } else {
      RoundGoesOn(maxNodes, s0, s1, k.State(), demand, id, n, touched, touchedNodes, clean1, isScaled, scaled, done,
          last, pending);
    }
  }

  lemma RoundEnds(maxNodes: int, s0: State, s1: State, s2: State, demand: map<string, int>, id: AwId, n: string,
        touched: set<string>, touchedNodes: set<string>, clean: bool, isScaled: bool, scaled: bool,
        done: Option<Result>, last: Event, pending: set<string>)
    requires ValidId(id) && last.Scale? && last.id == id && last.seen == {n} && n in Pairs(s0.machineSets, demand)
             && (last.clean ==> clean) && done.Some? && n in pending
    requires Passing(maxNodes, s0, s1, demand, id, touched, touchedNodes, clean, isScaled, pending)
    requires ServedSoFar(maxNodes, s0, s1.machines, demand, id, clean, pending)
    requires scaled <==> isScaled || ClaimMatches(s1.machineSets[n], id, demand)
    requires Grown(s1, demand, id, last.touched, last.touchedNodes, last.marked, last.clean, s2)
    requires PairActed(maxNodes, s1, demand, n, scaled, done, last, s2.machineSets)
    requires last.clean ==> FilledAt(s0.machineSets, s2.machines, demand, id, n)
    ensures ReuseScaled(maxNodes, s0, demand,
              PassEvent(touched, touchedNodes, Pairs(s0.machineSets, demand) - pending, last), s2)
  {
    var seen := Pairs(s0.machineSets, demand) - pending;
    if last.clean {
      AllStillFilled(s1, s2, demand, id, n, last.touched, last.touchedNodes, last.marked, pending);
      OneMoreSeen(Pairs(s0.machineSets, demand), pending, n);
    }
    PassEnds(maxNodes, s0, s1, s2, demand, id, n, touched, touchedNodes, seen, clean, scaled, done, last);
  }

  lemma OneMoreSeen(all: set<string>, pending: set<string>, n: string)
    requires n in all && n in pending
    ensures (all - pending) + {n} == all - (pending - {n})
  {
  }

  lemma RoundGoesOn(maxNodes: int, s0: State, s1: State, s2: State, demand: map<string, int>, id: AwId, n: string,
        touched: set<string>, touchedNodes: set<string>, clean: bool, isScaled: bool, scaled: bool,
        done: Option<Result>, last: Event, pending: set<string>)
    requires ValidId(id) && s1.Valid() && last.Scale? && last.id == id && n in Pairs(s0.machineSets, demand)
             && (last.clean ==> clean) && done.None?
    requires Passing(maxNodes, s0, s1, demand, id, touched, touchedNodes, clean, isScaled, pending)
    requires ServedSoFar(maxNodes, s0, s1.machines, demand, id, clean, pending)
    requires scaled <==> isScaled || ClaimMatches(s1.machineSets[n], id, demand)
    requires Grown(s1, demand, id, last.touched, last.touchedNodes, last.marked, last.clean, s2)
    requires OwnedBy(s1.machines, last.touched, n)
    requires PairActed(maxNodes, s1, demand, n, scaled, done, last, s2.machineSets)
    requires GoesOnServed(maxNodes, s1.machines, s2.machines, id, demand, s0.machineSets[n].instanceType, done,
               last.clean)
    requires last.clean ==> FilledAt(s0.machineSets, s2.machines, demand, id, n)
    ensures s2.Valid()
    ensures Passing(maxNodes, s0, s2, demand, id, touched + last.touched, touchedNodes + last.touchedNodes,
              last.clean, scaled, pending - {n})
    ensures ServedSoFar(maxNodes, s0, s2.machines, demand, id, last.clean, pending - {n})
  {
    PassGoesOn(maxNodes, s0, s1, s2, demand, id, n, touched, touchedNodes, clean, isScaled, scaled, done, last,
        pending);
    SameDecision(s0, s1, demand, id, touched, touchedNodes, clean);
    ServedNext(maxNodes, s0, s1, s2, demand, id, n, done, last, clean, pending);
  }

  lemma PassGoesOn(maxNodes: int, s0: State, s1: State, s2: State, demand: map<string, int>, id: AwId, n: string,
        touched: set<string>, touchedNodes: set<string>, clean: bool, isScaled: bool, scaled: bool,
        done: Option<Result>, last: Event, pending: set<string>)
    requires ValidId(id) && s1.Valid() && last.Scale? && last.id == id && n in s0.machineSets
             && (last.clean ==> clean) && done.None?
    requires Passing(maxNodes, s0, s1, demand, id, touched, touchedNodes, clean, isScaled, pending)
    requires scaled <==> isScaled || ClaimMatches(s1.machineSets[n], id, demand)
    requires Grown(s1, demand, id, last.touched, last.touchedNodes, last.marked, last.clean, s2)
    requires OwnedBy(s1.machines, last.touched, n)
    requires PairActed(maxNodes, s1, demand, n, scaled, done, last, s2.machineSets)
    ensures s2.Valid()
    ensures Passing(maxNodes, s0, s2, demand, id, touched + last.touched, touchedNodes + last.touchedNodes,
              last.clean, scaled, pending - {n})
  {
    SameDecision(s0, s1, demand, id, touched, touchedNodes, clean);
    StillPending(maxNodes, s0, s1, demand, id, n, touched, isScaled, scaled, done, last, s2.machineSets, pending,
        clean);
    GrownTwice(s0, s1, s2, demand, id, touched, touchedNodes, clean, last.touched, last.touchedNodes, {}, last.clean);
    GrownValid(s1, demand, id, last.touched, last.touchedNodes, {}, last.clean, s2);
  }

  lemma StillPending(maxNodes: int, s0: State, s1: State, demand: map<string, int>, id: AwId, n: string,
        touched: set<string>, isScaled: bool, scaled: bool, done: Option<Result>, last: Event,
        sets2: map<string, MachineSet>, pending: set<string>, clean: bool)
    requires last.Scale? && last.id == id && n in s0.machineSets && (last.clean ==> clean) && done.None?
    requires s1.machineSets == s0.machineSets && SameForDecision(s0, s1, id, touched)
    requires scaled <==> isScaled || ClaimMatches(s1.machineSets[n], id, demand)
    requires PairActed(maxNodes, s1, demand, n, scaled, done, last, sets2)
    requires isScaled ==> exists m :: m in s0.machineSets && ClaimMatches(s0.machineSets[m], id, demand)
    requires clean && Gate(s0.machines, id, demand, maxNodes) && !isScaled ==> Pairs(s0.machineSets, demand) <= pending
    ensures last.act.NoUpdate? && sets2 == s0.machineSets && last.marked == {}
    ensures scaled ==> exists m :: m in s0.machineSets && ClaimMatches(s0.machineSets[m], id, demand)
    ensures last.clean && Gate(s0.machines, id, demand, maxNodes) && !scaled ==>
              Pairs(s0.machineSets, demand) <= pending - {n}
  {
  }

  /** The inner loop: the MachineSets of one demanded type. */
  method ReuseOneType(k: Client, maxNodes: int, id: AwId, demand: map<string, int>, t: string,
        all: map<string, MachineSet>, isScaled: bool, ghost s0: State, ghost touched0: set<string>,
        ghost touchedNodes0: set<string>, ghost pending0: set<string>)
    returns (scaled: bool, done: Option<Result>, ghost touched: set<string>, ghost touchedNodes: set<string>,
              ghost pending: set<string>, ghost e: Event)
    requires k.Valid() && ValidId(id) && t in demand
    requires all == s0.machineSets || all == map[]
    requires Passing(maxNodes, s0, k.State(), demand, id, touched0, touchedNodes0, k.clean, isScaled, pending0)
    requires forall n | n in all && all[n].instanceType == t :: n in pending0
    requires ServedSoFar(maxNodes, s0, k.machines, demand, id, k.clean, pending0)
    modifies k`machines, k`nodes, k`machineSets, k`clean
    ensures k.clean ==> old(k.clean)
    ensures done.None? ==>
      && k.Valid() && Passing(maxNodes, s0, k.State(), demand, id, touched, touchedNodes, k.clean, scaled, pending)
      && pending <= pending0 && (forall n | n in pending && n in all :: all[n].instanceType != t)
      && forall n | n in pending0 && n in all && all[n].instanceType != t :: n in pending
    ensures done.None? ==> ServedSoFar(maxNodes, s0, k.machines, demand, id, k.clean, pending)
    ensures Answered(done, k.clean)
    ensures done.Some? ==>
              e.Scale? && e.id == id && e.clean == k.clean && ReuseScaled(maxNodes, s0, demand, e, k.State())
  {
    scaled, done, touched, touchedNodes, pending := isScaled, None, touched0, touchedNodes0, pending0;
    e := Idle(id);
    var todo := all.Keys;
    while todo != {} && done.None?
      invariant k.clean ==> old(k.clean)
      invariant todo <= all.Keys
      invariant done.None? ==>
                  k.Valid() && Passing(maxNodes, s0, k.State(), demand, id, touched, touchedNodes, k.clean, scaled,
                  pending)
      invariant done.None? ==> ServedSoFar(maxNodes, s0, k.machines, demand, id, k.clean, pending)
      invariant Answered(done, k.clean)
      invariant pending <= pending0 && forall n | n in pending && n in all && all[n].instanceType == t :: n in todo
      invariant forall n | n in pending0 && n in all && (all[n].instanceType != t || n in todo) :: n in pending
      invariant done.Some? ==>
                  e.Scale? && e.id == id && e.clean == k.clean && ReuseScaled(maxNodes, s0, demand, e, k.State())
    {
      var n :| n in todo;
      todo := todo - {n};
      if t == all[n].instanceType {
        scaled, done, touched, touchedNodes, e := VisitPair(k, maxNodes, id, demand, n, all[n], scaled, s0, touched,
            touchedNodes, pending);
        pending := pending - {n};
      }
    }
  }

  /** reconcileReuseMachineSet. When it reports that it is done, no call failed and the gate is open, each
      demanded type that has a MachineSet has just the demanded number of labelled running machines. */
  method ReconcileReuseMachineSet(k: Client, maxNodes: int, id: AwId, demand: map<string, int>)
    returns (res: Result, ghost e: Event)
    requires k.Valid() && ValidId(id) && k.clean
    modifies k`machines, k`nodes, k`machineSets, k`clean
    ensures e.Scale? && e.id == id && e.clean == k.clean
    ensures ReuseScaled(maxNodes, old(k.State()), demand, e, k.State())
    ensures res.Done? && k.clean && Gate(old(k.machines), id, demand, maxNodes) ==>
      AllServed(k.machineSets, k.machines, demand, id, {})
    ensures res.Done? && k.clean ==> AllFilled(k.machineSets, k.machines, demand, id, {})
    ensures (k.clean ==> !res.Failed?) && (res.Done? ==> e.act.NoUpdate?)
  {
    ghost var s0 := k.State();
    ghost var touched, touchedNodes, pending := {}, {}, Pairs(s0.machineSets, demand);
    var isScaled, done := false, None;
    e := Idle(id);
    var _, all := k.ListMachineSets(map[]);
    AllSelected(s0.machineSets);
    NothingTouched(s0.machines, s0.nodes, AwLabel(id));
    var types := demand.Keys;
    while types != {} && done.None?
      invariant types <= demand.Keys
      invariant done.None? ==>
                  k.Valid() && Passing(maxNodes, s0, k.State(), demand, id, touched, touchedNodes, k.clean, isScaled,
                  pending)
      invariant done.None? ==> ServedSoFar(maxNodes, s0, k.machines, demand, id, k.clean, pending)
      invariant Answered(done, k.clean)
      invariant k.clean ==> all == s0.machineSets
      invariant all == s0.machineSets || all == map[]
      invariant done.None? ==> forall n | n in pending && n in all :: all[n].instanceType in types
      invariant done.None? ==> pending <= Pairs(s0.machineSets, demand)
      invariant done.None? ==> forall n | n in all && all[n].instanceType in types :: n in pending
      invariant done.Some? ==>
                  e.Scale? && e.id == id && e.clean == k.clean && ReuseScaled(maxNodes, s0, demand, e, k.State())
    {
      var t :| t in types;
      types := types - {t};
      isScaled, done, touched, touchedNodes, pending,
          e := ReuseOneType(k, maxNodes, id, demand, t, all, isScaled, s0, touched, touchedNodes, pending);
    }
    match done {
      case Some(r) =>
        res := r;
      case None =>
        res := Done;
        e := Scale(id, touched, touchedNodes, {}, Pairs(s0.machineSets, demand) - pending, NoUpdate, k.clean);
        PassOver(maxNodes, s0, k.State(), demand, id, isScaled, pending, e);
    }
  }

  /** A pass that visited everything. */
  lemma PassOver(maxNodes: int, s0: State, s1: State, demand: map<string, int>, id: AwId, scaled: bool,
        pending: set<string>, e: Event)
    requires e.Scale? && e == Scale(id, e.touched, e.touchedNodes, {}, Pairs(s0.machineSets, demand) - pending,
               NoUpdate, e.clean)
    requires Passing(maxNodes, s0, s1, demand, id, e.touched, e.touchedNodes, e.clean, scaled, pending)
    requires ServedSoFar(maxNodes, s0, s1.machines, demand, id, e.clean, pending)
    requires e.clean ==> pending == {}
    ensures ReuseScaled(maxNodes, s0, demand, e, s1)
    ensures e.clean && Gate(s0.machines, id, demand, maxNodes) ==>
              AllServed(s1.machineSets, s1.machines, demand, id, {})
    ensures e.clean ==> AllFilled(s1.machineSets, s1.machines, demand, id, {})
  {
    assert e.clean ==> e.seen == Pairs(s0.machineSets, demand);
  }

  lemma AllSelected(sets: map<string, MachineSet>)
    ensures (map n | n in sets && Matches(map[], sets[n].labels) :: sets[n]) == sets
  {
  }
}
