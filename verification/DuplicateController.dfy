/** controllers/machineset.go, the strategy that copies a MachineSet per AppWrapper and type. */
module DuplicateController {
  import opened GoPrimitives
  import opened Model
  import opened Steps
  import opened Effects
  import opened Cluster
  import opened ReuseController

  /** Lines 115-141: labels the nodes of the machines that carry the copy label. When only the second listing
      fails, the first one, of all machines, is still in the variable. Patch errors are only logged. */
  method LabelCopyNodes(k: Client, id: AwId) returns (ghost labelled: set<string>)
    modifies k`nodes, k`clean
    ensures k.clean ==> old(k.clean)
    ensures k.nodes == LabelNodes(old(k.nodes), labelled, AwLabel(id))
    ensures labelled <= NodeNames(k.machines, k.machines.Keys)
    ensures k.clean ==> labelled == CopyNodes(k.machines, id)
  {
    labelled := {};
    ghost var nodes0 := k.nodes;
    NothingTouched(k.machines, nodes0, AwLabel(id));
    var _, machines := k.ListMachines(map[]);
    var ok, owned := k.ListMachines(map[COPY_LABEL := AwLabel(id)]);
    if ok {
      machines := owned;
      ListedNames(k.machines, map[COPY_LABEL := AwLabel(id)], machines);
    }
    var todo := machines.Keys;
    while todo != {}
      invariant todo <= machines.Keys
      invariant k.clean ==> old(k.clean) && ok
      invariant k.nodes == LabelNodes(nodes0, labelled, AwLabel(id))
      invariant labelled <= NodeNames(machines, machines.Keys - todo)
      invariant k.clean ==> labelled == NodeNames(machines, machines.Keys - todo)
    {
      var n :| n in todo;
      OneMoreNode(machines, machines.Keys - todo, n);
      assert machines.Keys - (todo - {n}) == (machines.Keys - todo) + {n};
      todo := todo - {n};
      var nodeName := machines[n].nodeName;
      var patched := k.PatchNodeLabel(nodeName, AwLabel(id));
      LabelNodesTwice(nodes0, labelled, {nodeName}, AwLabel(id));
      if patched {
        labelled := labelled + {nodeName};
      }
    }
    assert machines.Keys - todo == machines.Keys;
  }

  lemma ListedNames(machines: map<string, Machine>, selector: Labels, items: map<string, Machine>)
    requires items == map n | n in Select(machines, selector) :: machines[n]
    ensures NodeNames(items, items.Keys) == NodeNames(machines, Select(machines, selector))
  {
    assert items.Keys == Select(machines, selector);
    forall x | x in NodeNames(items, items.Keys)
      ensures x in NodeNames(machines, Select(machines, selector))
    {
      var n :| n in items && items[n].nodeName == x;
      assert machines[n].nodeName == x;
    }
    forall x | x in NodeNames(machines, Select(machines, selector))
      ensures x in NodeNames(items, items.Keys)
    {
      var n :| n in Select(machines, selector) && machines[n].nodeName == x;
      assert items[n].nodeName == x;
    }
  }

  /** What one (type, MachineSet) pair does to the MachineSets: create the copy, wait for it, or nothing. */
  ghost predicate PairCopied(sets: map<string, MachineSet>, demand: map<string, int>, id: AwId, source: string,
        done: Option<Result>, created: bool, clean: bool, sets': map<string, MachineSet>)
    requires source in sets && sets[source].instanceType in demand
  {
    var t := sets[source].instanceType;
    var name := CopyName(id, t);
    Answered(done, clean) &&
    if created then
      && done == Some(Requeue) && name !in sets
      && sets' == sets[name := CopyOf(sets[source], id, demand[t])]
    else
      && sets' == sets
      && (clean ==> name in Copies(sets, id) && (done.None? <==> CopyReady(sets, id, t, demand[t])))
  }

  /** Lines 57-142: one template of a demanded type. */
  method CopyPair(k: Client, id: AwId, demand: map<string, int>, source: string, ms: MachineSet)
    returns (done: Option<Result>, ghost created: bool, ghost labelled: set<string>)
    requires source in k.machineSets && k.machineSets[source] == ms && ms.instanceType in demand
    modifies k`machineSets, k`nodes, k`clean
    ensures k.clean ==> old(k.clean)
    ensures k.nodes == LabelNodes(old(k.nodes), labelled, AwLabel(id))
    ensures labelled <= NodeNames(k.machines, k.machines.Keys)
    ensures k.clean ==> labelled == if done.None? then CopyNodes(k.machines, id) else {}
    ensures PairCopied(old(k.machineSets), demand, id, source, done, created, k.clean, k.machineSets)
  {
    var t := ms.instanceType;
    done, created, labelled := None, false, {};
    NothingTouched(k.machines, k.nodes, AwLabel(id));
    var replicas := Wrap32(demand[t]);
    WrapLaws(demand[t], 0);
    var copy := ms.(
      replicas := replicas,
      taints := [id.name],
      templateLabels := map[id.name := id.name],
      selector := map[id.name := id.name],
      labels := ms.labels[COPY_LABEL := AwLabel(id)]);
    var name := id.name + "-" + id.namespace + "-" + t;
    assert name == CopyName(id, t);
    var ok, existing := k.ListMachineSets(map[COPY_LABEL := AwLabel(id)]);
    if !ok {
      return Some(Failed), created, labelled;
    }
    if name !in existing {
      var made := k.CreateMachineSet(name, copy);
      if !made {
        return Some(Failed), created, labelled;
      }
      return Some(Requeue), true, labelled;
    }
    WrapMinus(demand[t], existing[name].available);
    if Wrap32(replicas - existing[name].available) != 0 {
      return Some(Requeue), created, labelled;
    }
    labelled := LabelCopyNodes(k, id);
  }

  lemma WrapMinus(d: int, a: int)
    ensures Wrap32(Wrap32(d) - a) == Wrap32(d - a)
  {
    WrapLaws(d, -a);
  }

  /** Between two rounds: only node labels were written, and the copy of every visited template is ready. */
  ghost predicate Copying(s0: State, k: Client, id: AwId, demand: map<string, int>, labelled: set<string>,
        pending: set<string>)
    reads k
  {
    && k.machineSets == s0.machineSets
    && k.machines == s0.machines
    && k.nodes == LabelNodes(s0.nodes, labelled, AwLabel(id))
    && labelled <= NodeNames(s0.machines, s0.machines.Keys)
    && (k.clean ==> labelled == if Pairs(s0.machineSets, demand) <= pending then {} else CopyNodes(s0.machines, id))
    && (k.clean ==> forall n | n in Pairs(s0.machineSets, demand) && n !in pending ::
          CopyReady(s0.machineSets, id, s0.machineSets[n].instanceType, demand[s0.machineSets[n].instanceType]))
  }

  /** The outcome of a pass that returned early. */
  ghost predicate CopyPassEnded(s0: State, k: Client, id: AwId, demand: map<string, int>, e: Event)
    reads k
  {
    && e.Copy? && e.id == id && e.clean == k.clean
    && k.machines == s0.machines
    && k.nodes == LabelNodes(s0.nodes, e.copyNodes, AwLabel(id))
    && CopyNodesLabelled(s0.machines, id, e.copyNodes, k.clean)
    && CreatedOrWaits(s0.machineSets, demand, e, k.machineSets)
  }

  /** One round of the inner loop, at a template of the demanded type. */
  method CopyRound(k: Client, id: AwId, demand: map<string, int>, n: string, ms: MachineSet, ghost s0: State,
        ghost labelled0: set<string>, ghost pending: set<string>)
    returns (done: Option<Result>, ghost labelled: set<string>, ghost e: Event)
    requires n in Pairs(s0.machineSets, demand) && s0.machineSets[n] == ms
    requires Copying(s0, k, id, demand, labelled0, pending)
    modifies k`machineSets, k`nodes, k`clean
    ensures k.clean ==> old(k.clean)
    ensures if done.None? then Copying(s0, k, id, demand, labelled, pending - {n})
            else CopyPassEnded(s0, k, id, demand, e)
    ensures Answered(done, k.clean)
  {
    ghost var created, more;
    done, created, more := CopyPair(k, id, demand, n, ms);
    LabelNodesTwice(s0.nodes, labelled0, more, AwLabel(id));
    labelled := labelled0 + more;
    e := Copy(id, if created then Some(NewCopy(ms.instanceType, n)) else None, labelled, k.clean);
  }

  /** The inner loop: the templates of one type. */
  method CopyOneType(k: Client, id: AwId, demand: map<string, int>, t: string, all: map<string, MachineSet>,
        ghost s0: State, ghost labelled0: set<string>, ghost pending0: set<string>)
    returns (done: Option<Result>, ghost labelled: set<string>, ghost pending: set<string>, ghost e: Event)
    requires t in demand && (all == s0.machineSets || all == map[])
    requires Copying(s0, k, id, demand, labelled0, pending0)
    modifies k`machineSets, k`nodes, k`clean
    ensures k.clean ==> old(k.clean)
    ensures pending <= pending0 && forall n | n in pending && n in all :: done.Some? || all[n].instanceType != t
    ensures if done.None? then Copying(s0, k, id, demand, labelled, pending) else CopyPassEnded(s0, k, id, demand, e)
    ensures Answered(done, k.clean)
  {
    done, labelled, pending, e := None, labelled0, pending0, Idle(id);
    var todo := all.Keys;
    while todo != {} && done.None?
      invariant k.clean ==> old(k.clean)
      invariant todo <= all.Keys
      invariant pending <= pending0 && forall n | n in pending && n in all && all[n].instanceType == t ::
                  done.Some? || n in todo
      invariant if done.None? then Copying(s0, k, id, demand, labelled, pending)
                  else CopyPassEnded(s0, k, id, demand, e)
      invariant Answered(done, k.clean)
    {
      var n :| n in todo;
      todo := todo - {n};
      if t == all[n].instanceType {
        done, labelled, e := CopyRound(k, id, demand, n, all[n], s0, labelled, pending);
        pending := pending - {n};
      }
    }
  }

  /** reconcileCreateMachineSet. When it reports that it is done and no call failed, all copies are ready. */
  method ReconcileCreateMachineSet(k: Client, id: AwId, demand: map<string, int>) returns (res: Result, ghost e: Event)
    requires k.clean
    modifies k`machineSets, k`nodes, k`clean
    ensures e.Copy? && e.id == id && e.clean == k.clean
    ensures Copied(old(k.State()), demand, e, k.State())
    ensures res.Done? && k.clean ==> CopiesReady(k.machineSets, id, demand)
    ensures res.Done? && k.clean && Pairs(old(k.machineSets), demand) != {} ==> e.copyNodes == CopyNodes(k.machines, id)
    ensures (k.clean ==> !res.Failed?) && (res.Done? ==> e.created.None?)
  {
    ghost var s0 := k.State();
    ghost var labelled, pending := {}, Pairs(s0.machineSets, demand);
    var done := None;
    e := Idle(id);
    NothingTouched(s0.machines, s0.nodes, AwLabel(id));
    var _, all := k.ListMachineSets(map[]);
    AllSelected(s0.machineSets);
    var types := demand.Keys;
    while types != {} && done.None?
      invariant k.clean ==> all == s0.machineSets
      invariant types <= demand.Keys
      invariant pending <= Pairs(s0.machineSets, demand) && forall n | n in pending && n in all ::
                  done.Some? || all[n].instanceType in types
      invariant if done.None? then Copying(s0, k, id, demand, labelled, pending)
                  else CopyPassEnded(s0, k, id, demand, e)
      invariant Answered(done, k.clean)
    {
      var t :| t in types;
      types := types - {t};
      done, labelled, pending, e := CopyOneType(k, id, demand, t, all, s0, labelled, pending);
    }
    match done {
      case Some(r) =>
        res := r;
      case None =>
        res := Done;
        e := Copy(id, None, labelled, k.clean);
    }
  }

  /** deleteMachineSet: stops at the first failure. */
  method DeleteCopies(k: Client, id: AwId) returns (err: bool, ghost deleted: set<string>)
    requires k.clean
    modifies k`machineSets, k`clean
    ensures Discarded(old(k.State()), id, deleted, !err, k.clean, k.State())
  {
    err, deleted := false, {};
    ghost var sets0 := k.machineSets;
    assert sets0 - {} == sets0;
    var ok, items := k.ListMachineSets(map[COPY_LABEL := AwLabel(id)]);
    if !ok {
      return true, {};
    }
    assert items.Keys == Copies(sets0, id);
    var todo := items.Keys;
    while todo != {}
      invariant !err && k.clean && todo <= items.Keys
      invariant deleted == items.Keys - todo
      invariant k.machineSets == sets0 - deleted
    {
      var n :| n in todo;
      todo := todo - {n};
      var gone := k.DeleteMachineSet(n);
      if !gone {
        return true, deleted;
      }
      assert sets0 - deleted - {n} == sets0 - (deleted + {n});
      deleted := deleted + {n};
    }
  }
}
