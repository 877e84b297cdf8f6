/** Runs in which the reuse strategy falls short: what the hypotheses and leaks of the theorems stand for. */
module Witnesses {
  import opened GoPrimitives
  import opened Sums
  import opened Model
  import opened Steps
  import opened Effects
  import opened Ledger
  import opened Cancellation
  import opened SoloLives
  import opened Scenario

  // ----- machines labelled before the claim is set -----

  const TIGHT := Context(Reuse, 1)

  /** A machine on its way that carries the bare name of the AppWrapper, and so closes the gate. */
  function Other(): Machine {
    Machine("Provisioning", map["job" := "job"], map[], "")
  }

  function Held1(state: string): map<AwId, AppWrapper> {
    map[JOB := Job(state, false, [FINALIZER])]
  }

  /** The populated cluster with the other machine in it. */
  function Crowded(labelled: bool): State {
    ClusterOf(Held1(PENDING), Workers(1, map[]), map[MACHINE := Worker(labelled, false), "x" := Other()],
        map[NODE := WorkerNode(labelled)])
  }

  function C0(): State {
    Crowded(false)
  }

  function C1(): State {
    Crowded(true)
  }

  function C2(): State {
    Populated(Held1(PENDING), Workers(1, map[]), true, false)
  }

  function C3(): State {
    Populated(Held1(PENDING), Workers(1, Claim1()), true, false)
  }

  function C4(): State {
    Populated(Held1(COMPLETED), Workers(1, Claim1()), true, false)
  }

  function C5(): State {
    Populated(map[JOB := Job(COMPLETED, false, [])], Workers(0, map[]), true, true)
  }

  function Labelling(): Event {
    Scale(JOB, {MACHINE}, {NODE}, {}, {SET}, NoUpdate, true)
  }

  function Counting(): Event {
    Scale(JOB, {}, {}, {}, {SET}, Raise(SET, 1, 0, {}), true)
  }

  function Taking(): Event {
    Release(JOB, {MACHINE}, {SET}, {}, true, true)
  }

  /** While the gate is closed a pass labels the running machine; the gate opens; the next pass counts that
      machine, asks for no replica more, and still claims one; finalisation takes it away. */
  function CountingStates(): seq<State> {
    [C0(), C1(), C2(), C3(), C4(), C5()]
  }

  function CountingEvents(): seq<Event> {
    [Labelling(), Environment, Counting(), Environment, Taking()]
  }

  lemma HeldAreValid(state: string, finalizers: seq<string>)
    ensures var aws := map[JOB := Job(state, false, finalizers)];
            forall id | id in aws :: ValidId(id) && GoInts(aws[id].items)
  {
    JobIsValid();
    JobDemands(state, false, finalizers);
  }

  lemma CrowdedIsValid(labelled: bool)
    ensures Crowded(labelled).Valid()
  {
    HeldAreValid(PENDING, [FINALIZER]);
    NodeNamesWorker(labelled);
  }

  lemma CrowdedCounts(labelled: bool)
    ensures GateMachines(Crowded(labelled).machines, JOB) == {"x"}
    ensures Carrying(Crowded(labelled).machines, JOB, TYPE) == (if labelled then {MACHINE} else {})
  {
    var machines := Crowded(labelled).machines;
    JobIsValid();
    KeysApart(JOB);
    CarryingIs(machines, JOB, TYPE, MACHINE);
    CarryingIs(machines, JOB, TYPE, "x");
    MatchesOne(machines[MACHINE].labels, JOB.name, JOB.name);
    MatchesOne(machines["x"].labels, JOB.name, JOB.name);
  }

  lemma GateIsClosed()
    ensures !Gate(Crowded(false).machines, JOB, DEMAND, 1)
  {
    CrowdedCounts(false);
    DemandIsOne();
  }

  lemma CrowdedGrows()
    ensures Grown(Crowded(false), DEMAND, JOB, {MACHINE}, {NODE}, {}, true, Crowded(true))
  {
    CrowdedCounts(true);
    CrowdedLabelled();
    CrowdedIsEligible();
  }

  lemma CrowdedLabelled()
    ensures MarkMachines(LabelMachines(Crowded(false).machines, {MACHINE}, AwLabel(JOB)), {}) == Crowded(true).machines
    ensures LabelNodes(Crowded(false).nodes, {NODE}, AwLabel(JOB)) == Crowded(true).nodes
  {
    NothingTouched(LabelMachines(Crowded(false).machines, {MACHINE}, AwLabel(JOB)), map[], AwLabel(JOB));
  }

  lemma CrowdedIsEligible()
    ensures MACHINE in Eligible(Crowded(false), DEMAND)
    ensures NodeNames(Crowded(false).machines, {MACHINE}) == {NODE}
  {
    OwnerKeysApart();
  }

  lemma LabelsWhileClosed()
    ensures Step(TIGHT, C0(), Labelling(), C1())
  {
    CrowdedIsValid(false);
    CrowdedIsValid(true);
    JobDemands(PENDING, false, [FINALIZER]);
    JobIsScalable(Crowded(false).aws);
    ClosedPass(C0(), C1(), Labelling());
    ScaleStep(TIGHT, C0(), Labelling(), C1());
  }

  lemma ClosedPass(s: State, s': State, e: Event)
    requires s == C0() && s' == C1() && e == Labelling()
    ensures ReuseScaled(1, s, DEMAND, e, s')
  {
    CrowdedGrows();
    GateIsClosed();
    CrowdedFills(s, s', e);
  }

  lemma CrowdedFills(s: State, s': State, e: Event)
    requires s == C0() && s' == C1() && e == Labelling()
    ensures Fills(s, DEMAND, e, s')
  {
    CrowdedCounts(true);
    assert FilledAt(s.machineSets, s'.machines, DEMAND, JOB, SET);
  }

  // The code has no choice in these two passes.

  /** A clean pass at the crowded cluster is the one that labels the machine. */
  lemma ClosedPassIsForced(e: Event, s': State)
    requires Step(TIGHT, C0(), e, s') && e.Scale? && e.id == JOB && e.clean
    ensures e == Labelling() && s' == C1()
  {
    JobDemands(PENDING, false, [FINALIZER]);
    ClosedPassActs(C0(), e, s');
    ClosedPassLabels(C0(), e, s');
    CrowdedLabelled();
  }

  lemma ClosedPassActs(s: State, e: Event, s': State)
    requires s == C0() && e.Scale? && e.id == JOB && e.clean && ReuseActed(1, s, DEMAND, e, s'.machineSets)
    ensures e.act == NoUpdate && e.marked == {} && s'.machineSets == s.machineSets
  {
    GateIsClosed();
    Written();
    OnlyWorkers(s.machineSets, Workers(1, map[]));
    NoUpdateWhileClosed(1, s, e, s'.machineSets);
  }

  lemma NoUpdateWhileClosed(maxNodes: int, s: State, e: Event, sets': map<string, MachineSet>)
    requires e.Scale? && e.id == JOB && e.clean && ReuseActed(maxNodes, s, DEMAND, e, sets')
    requires Pairs(s.machineSets, DEMAND) == {SET} && s.machineSets[SET] == Workers(1, map[])
    requires !Gate(s.machines, JOB, DEMAND, maxNodes) && !StrLess(FormatInt(1), "")
    ensures e.act == NoUpdate && e.marked == {} && sets' == s.machineSets
  {
  }

  lemma ClosedPassLabels(s: State, e: Event, s': State)
    requires s == C0() && e.Scale? && e.id == JOB && e.clean && e.act == NoUpdate && e.marked == {}
    requires Grown(s, DEMAND, JOB, e.touched, e.touchedNodes, {}, true, s') && Fills(s, DEMAND, e, s')
    ensures e.touched == {MACHINE} && e.touchedNodes == {NODE} && e.seen == {SET}
  {
    CrowdedIsEligible();
    OtherIsNotEligible();
    OnlyWorkers(s.machineSets, Workers(1, map[]));
    NotFilledYet(s);
    OneIsLabelled(s, e, s');
  }

  lemma OtherIsNotEligible()
    ensures Eligible(Crowded(false), DEMAND) <= {MACHINE}
  {
  }

  lemma OneIsLabelled(s: State, e: Event, s': State)
    requires e.Scale? && e.id == JOB && e.clean && e.act == NoUpdate
    requires Pairs(s.machineSets, DEMAND) == {SET} && s.machineSets[SET].instanceType == TYPE
    requires Eligible(s, DEMAND) <= {MACHINE} && NodeNames(s.machines, {MACHINE}) == {NODE}
    requires !Filled(s.machines, JOB, TYPE, SET, 1)
    requires Grown(s, DEMAND, JOB, e.touched, e.touchedNodes, {}, true, s') && Fills(s, DEMAND, e, s')
    ensures e.touched == {MACHINE} && e.touchedNodes == {NODE} && e.seen == {SET}
  {
    assert FilledAt(s.machineSets, s'.machines, DEMAND, JOB, SET);
    NothingTouched(s.machines, s.nodes, AwLabel(JOB));
    assert e.touched != {};
  }

  lemma NotFilledYet(s: State)
    requires s == C0()
    ensures !Filled(s.machines, JOB, TYPE, SET, 1)
  {
    CrowdedCounts(false);
    OwnerKeysApart();
    MatchesTwo(s.machines[MACHINE].labels, TYPE_LABEL, TYPE, OWNER_LABEL, SET);
    assert MACHINE in Running(s.machines) * MachinesOf(s.machines, TYPE, SET);
  }

  /** A clean pass once the gate is open counts the machine and claims one. */
  lemma CountingPassIsForced(e: Event, s': State)
    requires Step(TIGHT, C2(), e, s') && e.Scale? && e.id == JOB && e.clean
    ensures e.act == Raise(SET, 1, 0, {}) && s' == C3()
  {
    JobDemands(PENDING, false, [FINALIZER]);
    CountingPassActs(C2(), e, s');
    WorkerStaysLabelled(C2(), e, s');
  }

  lemma CountingPassActs(s: State, e: Event, s': State)
    requires s == C2() && e.Scale? && e.id == JOB && e.clean && ReuseActed(1, s, DEMAND, e, s'.machineSets)
    requires e.touched <= Eligible(s, DEMAND)
    ensures e.act == Raise(SET, 1, 0, {}) && e.marked == {} && s'.machineSets == map[SET := Workers(1, Claim1())]
  {
    DemandIsOne();
    Written();
    WorkerCarries(true, false);
    OnlyWorkers(s.machineSets, Workers(1, map[]));
    ClaimsOne(s, e, s'.machineSets);
  }

  lemma ClaimsOne(s: State, e: Event, sets': map<string, MachineSet>)
    requires e.Scale? && e.id == JOB && e.clean && ReuseActed(1, s, DEMAND, e, sets')
    requires s.machineSets == map[SET := Workers(1, map[])] && Pairs(s.machineSets, DEMAND) == {SET}
    requires s.machines == map[MACHINE := Worker(true, false)] && CountedAt(s.machines, {}, JOB, TYPE) == {MACHINE}
    requires GateMachines(s.machines, JOB) == {} && SumValues(DEMAND) == 1
    requires FormatInt(1) == "1" && !StrLess(FormatInt(1), "") && e.touched <= Eligible(s, DEMAND)
    ensures e.act == Raise(SET, 1, 0, {}) && e.marked == {} && sets' == map[SET := Workers(1, Claim1())]
  {
    var ms := s.machineSets[SET];
    assert !ClaimMatches(ms, JOB, DEMAND) && Gate(s.machines, JOB, DEMAND, 1);
    assert e.act.Raise?;
    RaisesByOne(s, e, sets');
  }

  lemma RaisesByOne(s: State, e: Event, sets': map<string, MachineSet>)
    requires e.Scale? && e.id == JOB && e.clean && e.act.Raise? && Raised(1, s, DEMAND, e, sets')
    requires s.machineSets == map[SET := Workers(1, map[])] && Pairs(s.machineSets, DEMAND) == {SET}
    requires s.machines == map[MACHINE := Worker(true, false)] && CountedAt(s.machines, {}, JOB, TYPE) == {MACHINE}
    requires GateMachines(s.machines, JOB) == {} && FormatInt(1) == "1" && e.touched <= Eligible(s, DEMAND)
    ensures e.act == Raise(SET, 1, 0, {}) && e.marked == {} && sets' == map[SET := Workers(1, Claim1())]
  {
    var ms := s.machineSets[SET];
    assert e.act.set_ == SET;
    NoneBefore(s, e.touched, e.act.before);
    assert RaisedTo(ms, 1, 1) == 1;
    assert ms.(replicas := 1, labels := ms.labels[ClaimKey(JOB) := "1"]) == Workers(1, Claim1());
  }

  lemma NoneBefore(s: State, touched: set<string>, before: set<string>)
    requires s.machines == map[MACHINE := Worker(true, false)] && before <= touched <= Eligible(s, DEMAND)
    requires forall m | m in before && m in s.machines :: LabelOf(s.machines[m].labels, OWNER_LABEL) != SET
    ensures before == {}
  {
    OwnerKeysApart();
    assert LabelOf(s.machines[MACHINE].labels, OWNER_LABEL) == SET;
    assert before <= {MACHINE};
  }

  lemma WorkerStaysLabelled(s: State, e: Event, s': State)
    requires s == C2() && e.Scale? && e.id == JOB && e.marked == {}
    requires Grown(s, DEMAND, JOB, e.touched, e.touchedNodes, {}, true, s')
    ensures s'.machines == s.machines && s'.nodes == s.nodes
  {
    NothingTouched(LabelMachines(s.machines, e.touched, AwLabel(JOB)), s.nodes, AwLabel(JOB));
    assert Worker(true, false).labels[AwLabel(JOB) := AwLabel(JOB)] == Worker(true, false).labels;
    assert WorkerNode(true).labels[AwLabel(JOB) := AwLabel(JOB)] == WorkerNode(true).labels;
  }

  lemma OtherGoes()
    ensures Step(TIGHT, C1(), Environment, C2())
  {
    CrowdedIsValid(true);
    HeldAreValid(PENDING, [FINALIZER]);
    PopulatedIsValid(Held1(PENDING), Workers(1, map[]), true, false);
  }

  lemma RaisesCounting()
    ensures Step(TIGHT, C2(), Counting(), C3())
  {
    HeldAreValid(PENDING, [FINALIZER]);
    PopulatedIsValid(Held1(PENDING), Workers(1, map[]), true, false);
    PopulatedIsValid(Held1(PENDING), Workers(1, Claim1()), true, false);
    JobDemands(PENDING, false, [FINALIZER]);
    JobIsScalable(Held1(PENDING));
    CountingPass(C2(), C3(), Counting());
    ScaleStep(TIGHT, C2(), Counting(), C3());
  }

  lemma CountingPass(s: State, s': State, e: Event)
    requires s == C2() && s' == C3() && e == Counting()
    ensures ReuseScaled(1, s, DEMAND, e, s')
  {
    DemandIsOne();
    Written();
    WorkerCarries(true, false);
    OnlyWorkers(s.machineSets, Workers(1, map[]));
    CountingRaise(s, s', e);
    CountingActs(s, s', e);
    CountingFills(s, s', e);
    NothingGrows(s, s');
  }

  lemma CountingActs(s: State, s': State, e: Event)
    requires s == C2() && s' == C3() && e == Counting() && Pairs(s.machineSets, DEMAND) == {SET}
    requires Raised(1, s, DEMAND, e, s'.machineSets)
    ensures ReuseActed(1, s, DEMAND, e, s'.machineSets)
  {
    assert Due(s, DEMAND, e, SET);
  }

  lemma CountingFills(s: State, s': State, e: Event)
    requires s == C2() && s' == C3() && e == Counting() && Pairs(s.machineSets, DEMAND) == {SET}
    requires Carrying(s'.machines, JOB, TYPE) == {MACHINE}
    ensures Fills(s, DEMAND, e, s')
  {
    assert FilledAt(s.machineSets, s'.machines, DEMAND, JOB, SET);
  }

  lemma CountingRaise(s: State, s': State, e: Event)
    requires s == C2() && s' == C3() && e == Counting()
    requires GateMachines(s.machines, JOB) == {} && SumValues(DEMAND) == 1
             && CountedAt(s.machines, {}, JOB, TYPE) == {MACHINE}
    requires Pairs(s.machineSets, DEMAND) == {SET} && FormatInt(1) == "1" && !StrLess("1", "")
    ensures Raised(1, s, DEMAND, e, s'.machineSets)
  {
    var ms := Workers(1, map[]);
    assert s.machineSets[SET] == ms && RaisedTo(ms, 1, 1) == 1;
    assert ms.(replicas := 1, labels := ms.labels[ClaimKey(JOB) := "1"]) == Workers(1, Claim1());
    assert s.machineSets[SET := Workers(1, Claim1())] == s'.machineSets;
  }

  lemma Completes()
    ensures Step(TIGHT, C3(), Environment, C4())
  {
    HeldAreValid(PENDING, [FINALIZER]);
    HeldAreValid(COMPLETED, [FINALIZER]);
    PopulatedIsValid(Held1(PENDING), Workers(1, Claim1()), true, false);
    PopulatedIsValid(Held1(COMPLETED), Workers(1, Claim1()), true, false);
  }

  lemma TakesAway()
    ensures Step(TIGHT, C4(), Taking(), C5())
  {
    HeldAreValid(COMPLETED, [FINALIZER]);
    HeldAreValid(COMPLETED, []);
    PopulatedIsValid(Held1(COMPLETED), Workers(1, Claim1()), true, false);
    PopulatedIsValid(map[JOB := Job(COMPLETED, false, [])], Workers(0, map[]), true, true);
    var s, s' := C4(), C5();
    assert Without([FINALIZER], FINALIZER) == [];
    assert s'.aws == DropFinalizer(s.aws, JOB);
    NoHeir(s.aws, Job(COMPLETED, false, [FINALIZER]));
    WorkerReleases(s, s');
  }

  lemma {:induction false} TotalOfFive(f: nat -> int)
    ensures Total(f, 5) == f(0) + f(1) + f(2) + f(3) + f(4)
  {
    assert Total(f, 5) == Total(f, 4) + f(4);
    assert Total(f, 4) == Total(f, 3) + f(3);
    assert Total(f, 3) == Total(f, 2) + f(2);
    assert Total(f, 2) == Total(f, 1) + f(1);
    assert Total(f, 1) == Total(f, 0) + f(0);
  }

  lemma CountedAndTaken()
    ensures CountedRaises(CountingEvents(), JOB, SET, 5) == 1
    ensures NetEffect(CountingStates(), CountingEvents(), JOB, SET, 5) == -1
  {
    TotalOfFive(CountedInAt(CountingEvents(), JOB, SET));
    TotalOfFive(EffectAt(CountingStates(), CountingEvents(), JOB, SET));
    EffectsOneByOne();
  }

  lemma EffectsOneByOne()
    ensures var f := EffectAt(CountingStates(), CountingEvents(), JOB, SET);
            f(0) == 0 && f(1) == 0 && f(2) == 0 && f(3) == 0 && f(4) == -1
    ensures var g := CountedInAt(CountingEvents(), JOB, SET);
            g(0) == 0 && g(1) == 0 && g(2) == 1 && g(3) == 0 && g(4) == 0
  {
  }

  /** Scale-up and finalisation need not cancel: in this run without a failing call the AppWrapper counts one
      machine and, from no claim to no claim, leaves the MachineSet one replica short. */
  lemma CountedMachinesAreLost()
    ensures Run(TIGHT, CountingStates(), CountingEvents())
    ensures Holders(CountingStates()[0].machineSets, ClaimKey(JOB)) == {}
              == Holders(CountingStates()[5].machineSets, ClaimKey(JOB))
    ensures forall i | 0 <= i < |CountingEvents()| :: CleanBy(CountingEvents()[i], JOB)
    ensures CountedRaises(CountingEvents(), JOB, SET, 5) == 1
    ensures NetEffect(CountingStates(), CountingEvents(), JOB, SET, 5) == -1
  {
    CountingRunsPast5();
    RunsThrough(TIGHT, CountingStates(), CountingEvents());
    CountedAndTaken();
    NoClaimAtTheEnds();
    NoCallFails();
  }

  lemma CountingInOrder()
    ensures |CountingStates()| == 6 && |CountingEvents()| == 5
    ensures CountingStates()[0] == C0() && CountingStates()[1] == C1() && CountingStates()[2] == C2()
    ensures CountingStates()[3] == C3() && CountingStates()[4] == C4() && CountingStates()[5] == C5()
    ensures CountingEvents()[0] == Labelling() && CountingEvents()[1] == Environment
    ensures CountingEvents()[2] == Counting() && CountingEvents()[3] == Environment && CountingEvents()[4] == Taking()
  {
  }

  lemma CountingRunsPast1()
    ensures RunsTo(TIGHT, CountingStates(), CountingEvents(), 1)
  {
    CountingInOrder();
    LabelsWhileClosed();
  }

  lemma CountingRunsPast2()
    ensures RunsTo(TIGHT, CountingStates(), CountingEvents(), 2)
  {
    CountingInOrder();
    CountingRunsPast1();
    OtherGoes();
  }

  lemma CountingRunsPast3()
    ensures RunsTo(TIGHT, CountingStates(), CountingEvents(), 3)
  {
    CountingInOrder();
    CountingRunsPast2();
    RaisesCounting();
  }

  lemma CountingRunsPast4()
    ensures RunsTo(TIGHT, CountingStates(), CountingEvents(), 4)
  {
    CountingInOrder();
    CountingRunsPast3();
    Completes();
  }

  lemma CountingRunsPast5()
    ensures RunsTo(TIGHT, CountingStates(), CountingEvents(), 5)
  {
    CountingInOrder();
    CountingRunsPast4();
    TakesAway();
  }

  lemma NoClaimAtTheEnds()
    ensures Holders(CountingStates()[0].machineSets, ClaimKey(JOB)) == {}
              == Holders(CountingStates()[5].machineSets, ClaimKey(JOB))
  {
  }

  lemma NoCallFails()
    ensures forall i | 0 <= i < |CountingEvents()| :: CleanBy(CountingEvents()[i], JOB)
  {
  }

  // ----- two MachineSets of one type -----

  /** The MachineSet with the claim and its machine, and another of the type, with or without the claim. */
  function TwoSets(other: MachineSet): State {
    State(Held1(PENDING), map[SET := Workers(1, Claim1()), "spare" := other],
          map[MACHINE := Worker(true, false)], map[NODE := WorkerNode(true)], map[])
  }

  function Before(): State {
    TwoSets(Workers(0, map[]))
  }

  function After(): State {
    TwoSets(Workers(0, Claim1()))
  }

  function WorkersFirst(): Event {
    Scale(JOB, {}, {}, {}, {SET, "spare"}, NoUpdate, true)
  }

  function SpareFirst(): Event {
    Scale(JOB, {}, {}, {}, {"spare"}, Raise("spare", 1, 0, {}), true)
  }

  lemma TwoSetsAreValid(other: MachineSet)
    requires Fits32(other.replicas)
    ensures TwoSets(other).Valid()
  {
    HeldAreValid(PENDING, [FINALIZER]);
    NodeNamesWorker(true);
  }

  lemma TwoSetsFilled(other: MachineSet, n: string)
    requires other.instanceType == TYPE && n in TwoSets(other).machineSets
    ensures FilledAt(TwoSets(other).machineSets, TwoSets(other).machines, DEMAND, JOB, n)
  {
    WorkerCarries(true, false);
  }

  lemma WorkersFirstPasses(s: State, e: Event)
    requires s == Before() && e == WorkersFirst()
    ensures ReuseScaled(3, s, DEMAND, e, s)
  {
    assert Pairs(s.machineSets, DEMAND) == {SET, "spare"};
    Written();
    assert ClaimMatches(s.machineSets[SET], JOB, DEMAND);
    TwoSetsFilled(Workers(0, map[]), SET);
    TwoSetsFilled(Workers(0, map[]), "spare");
    NothingGrows(s, s);
  }

  lemma SpareFirstPasses(s: State, e: Event, s': State)
    requires s == Before() && e == SpareFirst() && s' == After()
    ensures ReuseScaled(3, s, DEMAND, e, s')
  {
    assert Pairs(s.machineSets, DEMAND) == {SET, "spare"};
    DemandIsOne();
    Written();
    WorkerCarries(true, false);
    SpareRaised(s, e, s');
    SpareActs(s, e, s');
    SpareFills(s, e, s');
    NothingGrows(s, s');
  }

  lemma SpareFills(s: State, e: Event, s': State)
    requires s == Before() && e == SpareFirst() && s' == After() && "spare" in Pairs(s.machineSets, DEMAND)
    ensures Fills(s, DEMAND, e, s')
  {
    TwoSetsFilled(Workers(0, Claim1()), "spare");
  }

  lemma SpareRaised(s: State, e: Event, s': State)
    requires s == Before() && e == SpareFirst() && s' == After()
    requires GateMachines(s.machines, JOB) == {} && SumValues(DEMAND) == 1
             && CountedAt(s.machines, {}, JOB, TYPE) == {MACHINE}
    requires "spare" in Pairs(s.machineSets, DEMAND) && FormatInt(1) == "1" && !StrLess("1", "")
    ensures Raised(3, s, DEMAND, e, s'.machineSets)
  {
    var ms := Workers(0, map[]);
    assert s.machineSets["spare"] == ms && RaisedTo(ms, 1, 1) == 0;
    assert ms.(replicas := 0, labels := ms.labels[ClaimKey(JOB) := "1"]) == Workers(0, Claim1());
    assert s.machineSets["spare" := Workers(0, Claim1())] == s'.machineSets;
  }

  lemma SpareActs(s: State, e: Event, s': State)
    requires s == Before() && e == SpareFirst() && "spare" in Pairs(s.machineSets, DEMAND)
    requires Raised(3, s, DEMAND, e, s'.machineSets)
    ensures ReuseActed(3, s, DEMAND, e, s'.machineSets)
  {
    assert !ClaimMatches(s.machineSets["spare"], JOB, DEMAND);
    assert Due(s, DEMAND, e, "spare");
  }

  /** Of two MachineSets of the demanded type, one with the claim and its machine running, one without: a clean
      pass that visits the first one first changes nothing, and one that visits the other first claims there as
      well. That claim adds no replica, and will be taken off again. */
  lemma OrderDecides()
    ensures Step(CONTEXT, Before(), WorkersFirst(), Before())
    ensures Step(CONTEXT, Before(), SpareFirst(), After())
    ensures Claim(After(), SET, JOB) == 1 && Claim(After(), "spare", JOB) == 1
    ensures Replicas(After(), SET) == 1 && Replicas(After(), "spare") == 0
  {
    WorkersFirstSteps();
    SpareFirstSteps();
    BothClaimed();
  }

  lemma BothClaimed()
    ensures Claim(After(), SET, JOB) == 1 && Claim(After(), "spare", JOB) == 1
    ensures Replicas(After(), SET) == 1 && Replicas(After(), "spare") == 0
  {
    Written();
  }

  lemma WorkersFirstSteps()
    ensures Step(CONTEXT, Before(), WorkersFirst(), Before())
  {
    TwoSetsAreValid(Workers(0, map[]));
    JobDemands(PENDING, false, [FINALIZER]);
    JobIsScalable(Held1(PENDING));
    WorkersFirstPasses(Before(), WorkersFirst());
    ScaleStep(CONTEXT, Before(), WorkersFirst(), Before());
  }

  lemma SpareFirstSteps()
    ensures Step(CONTEXT, Before(), SpareFirst(), After())
  {
    TwoSetsAreValid(Workers(0, map[]));
    TwoSetsAreValid(Workers(0, Claim1()));
    JobDemands(PENDING, false, [FINALIZER]);
    JobIsScalable(Held1(PENDING));
    SpareFirstPasses(Before(), SpareFirst(), After());
    ScaleStep(CONTEXT, Before(), SpareFirst(), After());
  }

  // ----- a claim given back twice -----

  /** The first finalisation takes the replica but fails to remove the label; the second takes it again. */
  function TwiceStates(): seq<State> {
    [Empty(Job(COMPLETED, false, [FINALIZER]), Workers(1, Claim1())),
     Empty(Job(COMPLETED, false, [FINALIZER]), Workers(0, Claim1())),
     Empty(Job(COMPLETED, false, []), Workers(-1, map[]))]
  }

  function TwiceEvents(): seq<Event> {
    [Release(JOB, {}, {}, {SET}, false, false),
     Release(JOB, {}, {SET}, {}, true, true)]
  }

  lemma EmptyReleases(s: State, s': State, ok: bool)
    requires exists r :: Fits32(r - 1) && s.machineSets == map[SET := Workers(r, Claim1())]
                         && s'.machineSets == map[SET := Workers(r - 1, if ok then map[] else Claim1())]
    requires s.machines == map[] == s'.machines && s.nodes == map[] == s'.nodes && s'.pools == s.pools
    ensures ClaimsReleased(s, JOB, {}, if ok then {SET} else {}, if ok then {} else {SET}, ok, ok, s')
  {
    var r :| Fits32(r - 1) && s.machineSets == map[SET := Workers(r, Claim1())]
             && s'.machineSets == map[SET := Workers(r - 1, if ok then map[] else Claim1())];
    WorkersGiveBack(r, ok);
    NothingThere(JOB);
    NothingTouched(s.machines, s.nodes, AwLabel(JOB));
  }

  lemma FirstFinalisation()
    ensures Step(CONTEXT, TwiceStates()[0], TwiceEvents()[0], TwiceStates()[1])
  {
    EmptyIsValid(COMPLETED, false, [FINALIZER], Workers(1, Claim1()));
    EmptyIsValid(COMPLETED, false, [FINALIZER], Workers(0, Claim1()));
    assert TwiceStates()[0].machineSets == map[SET := Workers(1, Claim1())]
           && TwiceStates()[1].machineSets == map[SET := Workers(1 - 1, Claim1())];
    EmptyReleases(TwiceStates()[0], TwiceStates()[1], false);
  }

  lemma SecondFinalisation()
    ensures Step(CONTEXT, TwiceStates()[1], TwiceEvents()[1], TwiceStates()[2])
  {
    EmptyIsValid(COMPLETED, false, [FINALIZER], Workers(0, Claim1()));
    EmptyIsValid(COMPLETED, false, [], Workers(-1, map[]));
    var s, s' := TwiceStates()[1], TwiceStates()[2];
    assert s.machineSets == map[SET := Workers(0, Claim1())] && s'.machineSets == map[SET := Workers(0 - 1, map[])];
    EmptyReleases(s, s', true);
    FinalizerDropped(s.aws, s'.aws);
    NoHeir(s.aws, Job(COMPLETED, false, [FINALIZER]));
  }

  lemma FinalizerDropped(aws: map<AwId, AppWrapper>, aws': map<AwId, AppWrapper>)
    requires aws == map[JOB := Job(COMPLETED, false, [FINALIZER])] && aws' == map[JOB := Job(COMPLETED, false, [])]
    ensures Held(aws, JOB) && aws' == DropFinalizer(aws, JOB)
  {
    assert Without([FINALIZER], FINALIZER) == [];
  }

  lemma TwiceRuns()
    ensures RunsTo(CONTEXT, TwiceStates(), TwiceEvents(), 2)
  {
    FirstFinalisation();
    SecondFinalisation();
    assert RunsTo(CONTEXT, TwiceStates(), TwiceEvents(), 1);
  }

  /** A label removal that fails after its replica update costs a replica more: one claim of 1, and the MachineSet
      goes from one replica to minus one. The first event leaks minus the claim, the second nothing. */
  lemma ClaimGivenBackTwice()
    ensures Run(CONTEXT, TwiceStates(), TwiceEvents())
    ensures Claim(TwiceStates()[0], SET, JOB) == 1 && Claim(TwiceStates()[2], SET, JOB) == 0
    ensures Replicas(TwiceStates()[0], SET) == 1 && Replicas(TwiceStates()[2], SET) == -1
    ensures Leak(TwiceStates()[0], TwiceEvents()[0], SET) == -1 && Leak(TwiceStates()[1], TwiceEvents()[1], SET) == 0
  {
    TwiceRuns();
    RunsThrough(CONTEXT, TwiceStates(), TwiceEvents());
    Written();
  }

  // ----- claims left behind by a hand-over -----

  /** The user empties the label of an AppWrapper that holds a claim; when it completes it is its own heir. */
  function Emptied(finalizers: seq<string>): AppWrapper {
    Job(COMPLETED, false, finalizers).(labels := map[ORDERED_INSTANCE := ""])
  }

  function LeftStates(): seq<State> {
    [Empty(Job(PENDING, false, [FINALIZER]), Workers(1, Claim1())),
     Empty(Emptied([FINALIZER]), Workers(1, Claim1())),
     Empty(Emptied([]), Workers(1, Claim1()))]
  }

  function LeftEvents(): seq<Event> {
    [Environment, Swap(JOB, JOB, {}, {}, true)]
  }

  lemma EmptiedIsValid(finalizers: seq<string>)
    ensures Empty(Emptied(finalizers), Workers(1, Claim1())).Valid()
  {
    JobIsValid();
  }

  lemma LabelEmptied()
    ensures Step(CONTEXT, LeftStates()[0], LeftEvents()[0], LeftStates()[1])
  {
    EmptyIsValid(PENDING, false, [FINALIZER], Workers(1, Claim1()));
    EmptiedIsValid([FINALIZER]);
  }

  lemma HandedToItself()
    ensures Step(CONTEXT, LeftStates()[1], LeftEvents()[1], LeftStates()[2])
  {
    EmptiedIsValid([FINALIZER]);
    EmptiedIsValid([]);
    var s, s' := LeftStates()[1], LeftStates()[2];
    assert Without([FINALIZER], FINALIZER) == [];
    assert s'.aws == DropFinalizer(s.aws, JOB);
    NothingSwapped(s, s');
  }

  lemma NothingSwapped(s: State, s': State)
    requires s.machines == map[] == s'.machines && s.nodes == map[] == s'.nodes && s'.machineSets == s.machineSets
             && s'.pools == s.pools
    ensures Swapped(s, JOB, JOB, {}, {}, true, s')
  {
    assert SwapMachines(s.machines, {}, JOB, JOB) == map[];
    assert SwapNodes(s.nodes, {}, JOB, JOB) == map[];
    assert Select(s.machines, map[JOB.name := JOB.name]) == {};
    assert NodeNames(s.machines, {}) == {};
  }

  lemma LeftRuns()
    ensures RunsTo(CONTEXT, LeftStates(), LeftEvents(), 2)
  {
    LabelEmptied();
    HandedToItself();
    assert RunsTo(CONTEXT, LeftStates(), LeftEvents(), 1);
  }

  /** A hand-over leaves the claim behind, with nobody to give it back: the AppWrapper has lost its finalizer. */
  lemma ClaimLeftBehind()
    ensures Run(CONTEXT, LeftStates(), LeftEvents())
    ensures Held(LeftStates()[1].aws, JOB) && !Held(LeftStates()[2].aws, JOB)
    ensures SET in Holders(LeftStates()[2].machineSets, ClaimKey(JOB))
  {
    LeftRuns();
    RunsThrough(CONTEXT, LeftStates(), LeftEvents());
  }
}
