/** A small cluster for concrete runs: one AppWrapper that asks for one m5.xlarge, one MachineSet of that type,
    and at most one machine of it, with its node. */
module Scenario {
  import opened GoPrimitives
  import opened Sums
  import opened Model
  import opened Steps
  import opened Effects
  import opened SoloLives

  const TYPE := "m5.xlarge"
  const SET := "workers"
  const MACHINE := "w0"
  const NODE := "n0"
  const JOB := AwId("job", "default")
  const LABEL := "job-default"
  const DEMAND: map<string, int> := map[TYPE := 1]
  const CONTEXT := Context(Reuse, 3)

  function Job(state: string, deleting: bool, finalizers: seq<string>): AppWrapper {
    AppWrapper(map[ORDERED_INSTANCE := TYPE], [[1]], state, ["Insufficient"], finalizers, deleting)
  }

  function Workers(replicas: int, labels: Labels): MachineSet {
    MachineSet(TYPE, replicas, 0, labels, [], map[], map[])
  }

  function Claim1(): Labels {
    map[ClaimKey(JOB) := "1"]
  }

  function MachineLabels(): Labels {
    map[TYPE_LABEL := TYPE, OWNER_LABEL := SET]
  }

  /** The machine, with or without the AppWrapper's label and the deletion mark. */
  function Worker(labelled: bool, marked: bool): Machine {
    Machine("Running",
            if labelled then MachineLabels()[AwLabel(JOB) := AwLabel(JOB)] else MachineLabels(),
            if marked then map[][DELETE_ANNOTATION := "true"] else map[],
            NODE)
  }

  function WorkerNode(labelled: bool): Node {
    Node(if labelled then map[][AwLabel(JOB) := AwLabel(JOB)] else map[],
         map[MACHINE_ANNOTATION := "ns/w0"])
  }

  function ClusterOf(aws: map<AwId, AppWrapper>, workers: MachineSet, machines: map<string, Machine>,
        nodes: map<string, Node>): State {
    State(aws, map[SET := workers], machines, nodes, map[])
  }

  function Empty(aw: AppWrapper, workers: MachineSet): State {
    ClusterOf(map[JOB := aw], workers, map[], map[])
  }

  function Populated(aws: map<AwId, AppWrapper>, workers: MachineSet, labelled: bool, marked: bool): State {
    ClusterOf(aws, workers, map[MACHINE := Worker(labelled, marked)], map[NODE := WorkerNode(labelled)])
  }

  lemma JobIsValid()
    ensures ValidId(JOB) && AwLabel(JOB) == LABEL
  {
  }

  lemma JobDemands(state: string, deleting: bool, finalizers: seq<string>)
    ensures DemandOf(Job(state, deleting, finalizers)) == DEMAND && GoInts(Job(state, deleting, finalizers).items)
  {
    OneTypeDemands(Job(state, deleting, finalizers), TYPE);
  }

  lemma OneTypeDemands(aw: AppWrapper, t: string)
    requires aw.labels == map[ORDERED_INSTANCE := t] && '_' !in t && t != "" && aw.items == [[1]]
    ensures DemandOf(aw) == map[t := 1]
  {
    SplitPlain(t, '_');
    assert InstanceRequired(aw.labels) == [t];
    assert AddPods(map[], [t], [1], 0, 1) == AddPods(map[], [t], [1], 0, 0)[t := 1];
    assert AddItems([t], [[1]], 1) == AddPods(AddItems([t], [[1]], 0), [t], [1], 0, 1);
  }

  lemma DemandIsOne()
    ensures SumValues(DEMAND) == 1
  {
    SumValuesAdd(map[], TYPE, 1);
    assert map[][TYPE := 1] == DEMAND;
  }

  lemma Written()
    ensures FormatInt(1) == "1" && Atoi("1") == Some(1) && !StrLess("1", "")
  {
    AtoiInvertsFormatInt(1);
    assert FormatNat(1) == "1";
  }

  lemma JobIsScalable(aws: map<AwId, AppWrapper>)
    requires JOB in aws && aws[JOB] == Job(PENDING, false, [FINALIZER])
    ensures Scalable(aws, JOB)
  {
    assert OccursAt("Insufficient", "Insufficient", 0);
    assert Contains(aws[JOB].conditions[0], "Insufficient");
  }

  lemma NodeNamesWorker(labelled: bool)
    ensures MachineOfNode(WorkerNode(labelled)) == Some(MACHINE)
  {
    assert "ns/w0" == "ns" + ['/'] + "w0";
    SplitAfterWord("ns", '/', "w0");
    SplitPlain("w0", '/');
  }

  // ----- what the little cluster shows -----

  lemma EmptyIsValid(state: string, deleting: bool, finalizers: seq<string>, workers: MachineSet)
    requires Fits32(workers.replicas)
    ensures Empty(Job(state, deleting, finalizers), workers).Valid()
  {
    JobIsValid();
    JobDemands(state, deleting, finalizers);
  }

  lemma PopulatedIsValid(aws: map<AwId, AppWrapper>, workers: MachineSet, labelled: bool, marked: bool)
    requires Fits32(workers.replicas) && forall id | id in aws :: ValidId(id) && GoInts(aws[id].items)
    ensures Populated(aws, workers, labelled, marked).Valid()
  {
    NodeNamesWorker(labelled);
  }

  lemma OnlyWorkers(sets: map<string, MachineSet>, workers: MachineSet)
    requires sets == map[SET := workers] && workers.instanceType == TYPE
    ensures Pairs(sets, DEMAND) == {SET}
  {
  }

  lemma NothingThere(id: AwId)
    ensures GateMachines(map[], id) == {} && Reached(map[], map[], AwLabel(id)) == {}
    ensures forall t, before :: CountedAt(map[], before, id, t) == {} && Carrying(map[], id, t) == {}
  {
  }

  lemma WorkerCarries(labelled: bool, marked: bool)
    ensures var machines := map[MACHINE := Worker(labelled, marked)];
            && Carrying(machines, JOB, TYPE) == (if labelled then {MACHINE} else {})
            && GateMachines(machines, JOB) == {}
            && CountedAt(machines, {}, JOB, TYPE) == Carrying(machines, JOB, TYPE)
  {
    var machines := map[MACHINE := Worker(labelled, marked)];
    JobIsValid();
    KeysApart(JOB);
    NothingTouched(machines, map[], AwLabel(JOB));
    CarryingIs(machines, JOB, TYPE, MACHINE);
    MatchesOne(machines[MACHINE].labels, JOB.name, JOB.name);
  }

  lemma WorkerReached(marked: bool)
    ensures Reached(map[MACHINE := Worker(true, marked)], map[NODE := WorkerNode(true)], AwLabel(JOB)) == {MACHINE}
  {
    NodeNamesWorker(true);
    var nodes := map[NODE := WorkerNode(true)];
    assert NODE in nodes && AwLabel(JOB) in nodes[NODE].labels && MachineOfNode(nodes[NODE]) == Some(MACHINE);
  }

  /** The labelling of the machine and its node. */
  lemma WorkerGrows(s: State, s': State)
    requires s.machines == map[MACHINE := Worker(false, false)] && s.nodes == map[NODE := WorkerNode(false)]
    requires s' == s.(machines := map[MACHINE := Worker(true, false)], nodes := map[NODE := WorkerNode(true)])
    requires s.machineSets.Keys == {SET} && s.machineSets[SET].instanceType == TYPE
    ensures Grown(s, DEMAND, JOB, {MACHINE}, {NODE}, {}, true, s')
  {
    WorkerCarries(true, false);
    assert LabelMachines(s.machines, {MACHINE}, AwLabel(JOB)) == s'.machines;
    NothingTouched(s'.machines, s'.nodes, AwLabel(JOB));
    assert LabelNodes(s.nodes, {NODE}, AwLabel(JOB)) == s'.nodes;
    assert NodeNames(s.machines, {MACHINE}) == {NODE};
    WorkerIsEligible(s);
  }

  lemma WorkerIsEligible(s: State)
    requires s.machines == map[MACHINE := Worker(false, false)]
    requires s.machineSets.Keys == {SET} && s.machineSets[SET].instanceType == TYPE
    ensures MACHINE in Eligible(s, DEMAND)
  {
    OwnerKeysApart();
  }

  /** A pass that touches nothing. */
  lemma NothingGrows(s: State, s': State)
    requires s' == s.(machineSets := s'.machineSets)
    ensures Grown(s, DEMAND, JOB, {}, {}, {}, true, s')
  {
    NothingTouched(s.machines, s.nodes, AwLabel(JOB));
    assert NodeNames(s.machines, {}) == {};
  }

  /** The MachineSet gives back a claim of 1, and the label unless it is stuck. */
  lemma WorkersGiveBack(replicas: int, ok: bool)
    requires Fits32(replicas - 1)
    ensures GivenBack(Workers(replicas, Claim1()), ClaimKey(JOB), ok)
              == Workers(replicas - 1, if ok then map[] else Claim1())
    ensures Holders(map[SET := Workers(replicas, Claim1())], ClaimKey(JOB)) == {SET}
    ensures GiveBack(map[SET := Workers(replicas, Claim1())], ClaimKey(JOB), if ok then {SET} else {}, if ok then {}
              else {SET})
            == map[SET := Workers(replicas - 1, if ok then map[] else Claim1())]
  {
    Written();
    assert Claim1() - {ClaimKey(JOB)} == map[];
    var ms := Workers(replicas, Claim1());
    assert ClaimIn(ms.labels, ClaimKey(JOB)) == 1;
    assert GivenBack(ms, ClaimKey(JOB), ok) == Workers(replicas - 1, if ok then map[] else Claim1());
  }

  lemma NoHeir(aws: map<AwId, AppWrapper>, aw: AppWrapper)
    requires aws == map[JOB := aw] && aw.labels == map[ORDERED_INSTANCE := TYPE]
    ensures forall h :: !HeirFor(aws, JOB, h)
  {
  }

  /** A clean finalisation of the populated cluster, but for the AppWrapper. */
  lemma WorkerReleases(s: State, s': State)
    requires s.machineSets == map[SET := Workers(1, Claim1())] && s'.machineSets == map[SET := Workers(0, map[])]
    requires s.machines == map[MACHINE := Worker(true, false)] && s'.machines == map[MACHINE := Worker(true, true)]
    requires s.nodes == map[NODE := WorkerNode(true)] == s'.nodes && s'.pools == s.pools
    ensures ClaimsReleased(s, JOB, {MACHINE}, {SET}, {}, true, true, s')
  {
    WorkerReached(false);
    WorkersGiveBack(1, true);
    assert MarkMachines(s.machines, {MACHINE}) == s'.machines;
  }

  // ----- runs from steps -----

  lemma ScaleStep(c: Context, s: State, e: Event, s': State)
    requires c.backend.Reuse? && e.Scale? && e.id == JOB && s.Valid() && s'.Valid() && Scalable(s.aws, JOB)
    requires DemandOf(s.aws[JOB]) == DEMAND && ReuseScaled(c.maxNodes, s, DEMAND, e, s')
    ensures Step(c, s, e, s')
  {
  }

  /** The first k events of a run. */
  ghost predicate RunsTo(c: Context, states: seq<State>, events: seq<Event>, k: nat) {
    && |states| == |events| + 1
    && k <= |events|
    && (k > 0 ==> RunsTo(c, states, events, k - 1) && StepTaken(c, states, events, k - 1))
  }

  lemma {:induction false} RunsAlong(c: Context, states: seq<State>, events: seq<Event>, k: nat)
    requires RunsTo(c, states, events, k)
    ensures forall i: nat | i < k :: StepTaken(c, states, events, i)
  {
    if k > 0 {
      RunsAlong(c, states, events, k - 1);
    }
  }

  lemma RunsThrough(c: Context, states: seq<State>, events: seq<Event>)
    requires RunsTo(c, states, events, |events|)
    ensures Run(c, states, events)
  {
    RunsAlong(c, states, events, |events|);
  }
}
