/** How the writes of a pass compose, and what they leave alone. */
module Effects {
  import opened GoPrimitives
  import opened Model
  import opened Steps

  /** Labelling in two goes is labelling once. */
  lemma LabelTwice(machines: map<string, Machine>, a: set<string>, b: set<string>, key: string)
    ensures LabelMachines(LabelMachines(machines, a, key), b, key) == LabelMachines(machines, a + b, key)
  {
    forall n | n in machines
      ensures machines[n].labels[key := key][key := key] == machines[n].labels[key := key]
    {
    }
  }

  lemma LabelNodesTwice(nodes: map<string, Node>, a: set<string>, b: set<string>, key: string)
    ensures LabelNodes(LabelNodes(nodes, a, key), b, key) == LabelNodes(nodes, a + b, key)
  {
    forall n | n in nodes
      ensures nodes[n].labels[key := key][key := key] == nodes[n].labels[key := key]
    {
    }
  }

  lemma NothingTouched(machines: map<string, Machine>, nodes: map<string, Node>, key: string)
    ensures LabelMachines(machines, {}, key) == machines
    ensures MarkMachines(machines, {}) == machines
    ensures LabelNodes(nodes, {}, key) == nodes
  {
  }

  lemma MarkTwice(machines: map<string, Machine>, a: set<string>, b: set<string>)
    ensures MarkMachines(MarkMachines(machines, a), b) == MarkMachines(machines, a + b)
  {
    forall n | n in machines
      ensures machines[n].annotations[DELETE_ANNOTATION := "true"][DELETE_ANNOTATION := "true"]
                == machines[n].annotations[DELETE_ANNOTATION := "true"]
    {
    }
  }

  lemma MarkOne(machines: map<string, Machine>, n: string)
    requires n in machines
    ensures machines[n := machines[n].(annotations := machines[n].annotations[DELETE_ANNOTATION := "true"])]
              == MarkMachines(machines, {n})
  {
  }

  /** Marks change neither labels nor phases. */
  lemma MarkingLeaves(machines: map<string, Machine>, marked: set<string>)
    ensures NotDeleting(MarkMachines(machines, marked)) == NotDeleting(machines)
    ensures Running(MarkMachines(machines, marked)) == Running(machines)
    ensures forall n | n in machines :: MarkMachines(machines, marked)[n].labels == machines[n].labels
  {
  }

  /** The machines carrying the label afterwards: those before, and the touched ones of the type. */
  lemma CarryingAfter(machines: map<string, Machine>, touched: set<string>, marked: set<string>, id: AwId, t: string)
    requires ValidId(id) && touched <= machines.Keys
    ensures var after := MarkMachines(LabelMachines(machines, touched, AwLabel(id)), marked);
            Carrying(after, id, t)
            == Carrying(machines, id, t) + (set n | n in touched && TYPE_LABEL in machines[n].labels
                && machines[n].labels[TYPE_LABEL] == t)
  {
    KeysApart(id);
    var L := AwLabel(id);
    var after := MarkMachines(LabelMachines(machines, touched, L), marked);
    var sel := AwSelector(id, t);
    assert sel.Keys == {L, TYPE_LABEL};
    forall n | n in machines
      ensures Matches(sel, after[n].labels) <==>
              Matches(sel, machines[n].labels)
              || (n in touched && TYPE_LABEL in machines[n].labels && machines[n].labels[TYPE_LABEL] == t)
    {
      MatchesTwo(after[n].labels, L, L, TYPE_LABEL, t);
      MatchesTwo(machines[n].labels, L, L, TYPE_LABEL, t);
    }
  }

  lemma MatchesTwo(labels: Labels, k1: string, v1: string, k2: string, v2: string)
    requires k1 != k2
    ensures Matches(map[k1 := v1, k2 := v2], labels)
            <==> k1 in labels && labels[k1] == v1 && k2 in labels && labels[k2] == v2
  {
    var sel := map[k1 := v1, k2 := v2];
    assert k1 in sel && k2 in sel;
  }

  lemma MatchesOne(labels: Labels, k: string, v: string)
    ensures Matches(map[k := v], labels) <==> k in labels && labels[k] == v
  {
    assert k in map[k := v];
  }

  lemma OwnerKeysApart()
    ensures TYPE_LABEL != OWNER_LABEL
  {
    assert |TYPE_LABEL| != |OWNER_LABEL|;
  }

  lemma OwnedAfterLabels(machines: map<string, Machine>, touched: set<string>, id: AwId, t: string, n: string)
    requires ValidId(id)
    ensures var after := LabelMachines(machines, touched, AwLabel(id));
            Running(after) == Running(machines) && MachinesOf(after, t, n) == MachinesOf(machines, t, n)
  {
    KeysApart(id);
    OwnerKeysApart();
    var after := LabelMachines(machines, touched, AwLabel(id));
    forall m | m in machines
      ensures Matches(OwnerSelector(t, n), after[m].labels) <==> Matches(OwnerSelector(t, n), machines[m].labels)
    {
      MatchesTwo(after[m].labels, TYPE_LABEL, t, OWNER_LABEL, n);
      MatchesTwo(machines[m].labels, TYPE_LABEL, t, OWNER_LABEL, n);
    }
  }

  lemma FilledMarked(machines: map<string, Machine>, marked: set<string>, id: AwId, t: string, n: string, d: int)
    ensures Filled(MarkMachines(machines, marked), id, t, n, d) <==> Filled(machines, id, t, n, d)
  {
    MarkingLeaves(machines, marked);
    assert MachinesOf(MarkMachines(machines, marked), t, n) == MachinesOf(machines, t, n);
    assert Carrying(MarkMachines(machines, marked), id, t) == Carrying(machines, id, t);
  }

  /** The labels the gate, ownership and phases depend on are not written. */
  lemma LabellingLeaves(s: State, touched: set<string>, touchedNodes: set<string>, id: AwId, demand: map<string, int>)
    requires ValidId(id)
    ensures var s' := s.(machines := LabelMachines(s.machines, touched, AwLabel(id)),
              nodes := LabelNodes(s.nodes, touchedNodes, AwLabel(id)));
            && Eligible(s', demand) == Eligible(s, demand)
            && GateMachines(s'.machines, id) == GateMachines(s.machines, id)
            && Running(s'.machines) == Running(s.machines)
            && (forall x :: NodeNames(s'.machines, x) == NodeNames(s.machines, x))
  {
    KeysApart(id);
    var s' := s.(machines := LabelMachines(s.machines, touched, AwLabel(id)),
          nodes := LabelNodes(s.nodes, touchedNodes, AwLabel(id)));
    forall n | n in s.machines
      ensures Matches(map[id.name := id.name], s'.machines[n].labels) <==>
                Matches(map[id.name := id.name], s.machines[n].labels)
    {
      MatchesOne(s'.machines[n].labels, id.name, id.name);
      MatchesOne(s.machines[n].labels, id.name, id.name);
    }
    assert Select(s'.machines, map[id.name := id.name]) == Select(s.machines, map[id.name := id.name]);
    assert NotDeleting(s'.machines) == NotDeleting(s.machines);
  }

  /** Same machines in the same phases on the same nodes, nodes naming the same machines. */
  ghost predicate SameShape(s: State, s': State) {
    && s'.machines.Keys == s.machines.Keys && s'.nodes.Keys == s.nodes.Keys
    && (forall m | m in s.machines ::
        s'.machines[m].phase == s.machines[m].phase && s'.machines[m].nodeName == s.machines[m].nodeName)
    && (forall n | n in s.nodes :: s'.nodes[n].annotations == s.nodes[n].annotations)
  }

  lemma ValidKept(s: State, s': State)
    requires s.Valid() && SameShape(s, s')
    requires forall a | a in s'.aws :: a in s.aws && s'.aws[a].items == s.aws[a].items
    requires forall n | n in s'.machineSets :: Fits32(s'.machineSets[n].replicas)
    ensures s'.Valid()
  {
    forall n | n in s'.nodes && MACHINE_ANNOTATION in s'.nodes[n].annotations
      ensures MachineOfNode(s'.nodes[n]).Some?
    {
      assert MachineOfNode(s.nodes[n]).Some?;
    }
    forall m | m in s'.machines && s'.machines[m].phase == "Running"
      ensures NodeOf(s'.nodes, s'.machines[m].nodeName, m)
    {
      assert NodeOf(s.nodes, s.machines[m].nodeName, m);
    }
  }

  lemma GrownShape(s: State, demand: map<string, int>, id: AwId, touched: set<string>, touchedNodes: set<string>,
        marked: set<string>, clean: bool, s': State)
    requires Grown(s, demand, id, touched, touchedNodes, marked, clean, s')
    ensures SameShape(s, s')
  {
  }

  /** Labels and marks keep the cluster well formed. */
  lemma GrownValid(s: State, demand: map<string, int>, id: AwId, touched: set<string>, touchedNodes: set<string>,
        marked: set<string>, clean: bool, s': State)
    requires s.Valid() && Grown(s, demand, id, touched, touchedNodes, marked, clean, s')
    requires forall n | n in s'.machineSets :: Fits32(s'.machineSets[n].replicas)
    ensures s'.Valid()
  {
    GrownShape(s, demand, id, touched, touchedNodes, marked, clean, s');
    ValidKept(s, s');
  }

  /** Two stretches of one pass make one: the second may also set deletion marks. */
  lemma GrownTwice(s0: State, s1: State, s2: State, demand: map<string, int>, id: AwId, t0: set<string>,
        n0: set<string>, c0: bool, t1: set<string>, n1: set<string>, marked: set<string>, c1: bool)
    requires ValidId(id) && (c1 ==> c0)
    requires s1.machineSets == s0.machineSets
    requires Grown(s0, demand, id, t0, n0, {}, c0, s1)
    requires Grown(s1, demand, id, t1, n1, marked, c1, s2)
    ensures Grown(s0, demand, id, t0 + t1, n0 + n1, marked, c1, s2)
  {
    var L := AwLabel(id);
    NothingTouched(LabelMachines(s0.machines, t0, L), s0.nodes, L);
    LabellingLeaves(s0, t0, n0, id, demand);
    assert s1 == s0.(machines := LabelMachines(s0.machines, t0, L), nodes := LabelNodes(s0.nodes, n0, L));
    LabelTwice(s0.machines, t0, t1, L);
    LabelNodesTwice(s0.nodes, n0, n1, L);
    assert NodeNames(s0.machines, t0 + t1) == NodeNames(s0.machines, t0) + NodeNames(s0.machines, t1);
    assert NodeNames(s1.machines, t1) == NodeNames(s0.machines, t1);
  }

  /** One more MachineSet gives back its claim. */
  lemma GiveBackNext(sets: map<string, MachineSet>, key: string, released: set<string>, n: string)
    requires n in sets && n !in released
    ensures var now := GiveBack(sets, key, released, {});
            && now[n] == sets[n]
            && now[n := GivenBack(sets[n], key, true)] == GiveBack(sets, key, released + {n}, {})
            && now[n := GivenBack(sets[n], key, false)] == GiveBack(sets, key, released, {n})
  {
  }

  lemma NothingGivenBack(sets: map<string, MachineSet>, key: string)
    ensures GiveBack(sets, key, {}, {}) == sets
  {
  }

  ghost predicate OwnedBy(machines: map<string, Machine>, touched: set<string>, n: string) {
    forall m | m in touched :: m in machines && LabelOf(machines[m].labels, OWNER_LABEL) == n
  }

  /** Labelling machines of one MachineSet of type t is one step of growth. */
  lemma GrownByOneSet(s: State, demand: map<string, int>, id: AwId, n: string, touched: set<string>,
        touchedNodes: set<string>, clean: bool, s': State)
    requires ValidId(id) && n in Pairs(s.machineSets, demand)
    requires var t := s.machineSets[n].instanceType;
             && touched <= MachinesOf(s.machines, t, n) * Running(s.machines)
             && (clean ==> |Carrying(s.machines, id, t)| <= demand[t] ==> |Carrying(s'.machines, id, t)| <= demand[t])
    requires touchedNodes <= NodeNames(s.machines, touched)
    requires clean ==> touchedNodes == NodeNames(s.machines, touched)
    requires s' == s.(machines := LabelMachines(s.machines, touched, AwLabel(id)),
               nodes := LabelNodes(s.nodes, touchedNodes, AwLabel(id)))
    ensures Grown(s, demand, id, touched, touchedNodes, {}, clean, s')
    ensures OwnedBy(s.machines, touched, n)
  {
    var t := s.machineSets[n].instanceType;
    OwnerKeysApart();
    forall x | x in touched
      ensures TYPE_LABEL in s.machines[x].labels && s.machines[x].labels[TYPE_LABEL] == t
      ensures x in Eligible(s, demand)
    {
      MatchesTwo(s.machines[x].labels, TYPE_LABEL, t, OWNER_LABEL, n);
    }
    NothingTouched(s'.machines, s.nodes, AwLabel(id));
    forall u | u in demand && u != t
      ensures Carrying(s'.machines, id, u) == Carrying(s.machines, id, u)
    {
      CarryingAfter(s.machines, touched, {}, id, u);
    }
  }
}
