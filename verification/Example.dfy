/** A life that meets all the hypotheses of the cancellation theorem: the AppWrapper asks for one m5.xlarge, the
    MachineSet goes from no replicas to one, a machine comes up and is labelled, and when the AppWrapper is
    deleted the machine is marked, the replica taken back and the AppWrapper gone. */
module Example {
  import opened GoPrimitives
  import opened Sums
  import opened Model
  import opened Steps
  import opened Ledger
  import opened FixedDemand
  import opened Cancellation
  import opened SoloLives
  import opened Scenario

  function Stored(deleting: bool): map<AwId, AppWrapper> {
    map[JOB := Job(PENDING, deleting, [FINALIZER])]
  }

  // Nothing there; claimed; the machine is up; it is labelled; the AppWrapper is deleted; finalised.

  function S0(): State {
    Empty(Job(PENDING, false, [FINALIZER]), Workers(0, map[]))
  }

  function S1(): State {
    Empty(Job(PENDING, false, [FINALIZER]), Workers(1, Claim1()))
  }

  function S2(): State {
    Populated(Stored(false), Workers(1, Claim1()), false, false)
  }

  function S3(): State {
    Populated(Stored(false), Workers(1, Claim1()), true, false)
  }

  function S4(): State {
    Populated(Stored(true), Workers(1, Claim1()), true, false)
  }

  function S5(): State {
    Populated(map[], Workers(0, map[]), true, true)
  }

  function E0(): Event {
    Scale(JOB, {}, {}, {}, {SET}, Raise(SET, 0, 0, {}), true)
  }

  function E2(): Event {
    Scale(JOB, {MACHINE}, {NODE}, {}, {SET}, NoUpdate, true)
  }

  function E4(): Event {
    Release(JOB, {MACHINE}, {SET}, {}, true, true)
  }

  function States(): seq<State> {
    [S0(), S1(), S2(), S3(), S4(), S5()]
  }

  function Events(): seq<Event> {
    [E0(), Environment, E2(), Environment, E4()]
  }

  lemma FirstPass()
    ensures Step(CONTEXT, S0(), E0(), S1())
  {
    EmptyIsValid(PENDING, false, [FINALIZER], Workers(0, map[]));
    EmptyIsValid(PENDING, false, [FINALIZER], Workers(1, Claim1()));
    JobDemands(PENDING, false, [FINALIZER]);
    JobIsScalable(S0().aws);
    FirstPassScales(S0(), S1(), E0());
    ScaleStep(CONTEXT, S0(), E0(), S1());
  }

  lemma FirstPassScales(s: State, s': State, e: Event)
    requires s == S0() && s' == S1() && e == E0()
    ensures ReuseScaled(3, s, DEMAND, e, s')
  {
    DemandIsOne();
    Written();
    NothingThere(JOB);
    OnlyWorkers(s.machineSets, Workers(0, map[]));
    FirstPassRaises(s, s', e);
    NothingGrows(s, s');
  }

  lemma FirstPassRaises(s: State, s': State, e: Event)
    requires s == S0() && s' == S1() && e == E0()
    requires GateMachines(s.machines, JOB) == {} && SumValues(DEMAND) == 1 && CountedAt(s.machines, {}, JOB, TYPE) == {}
    requires Pairs(s.machineSets, DEMAND) == {SET} && FormatInt(1) == "1" && !StrLess("1", "")
    ensures Raised(3, s, DEMAND, e, s'.machineSets)
  {
    var ms := Workers(0, map[]);
    assert s.machineSets[SET] == ms && RaisedTo(ms, 1, 0) == 1;
    assert ms.(replicas := 1, labels := ms.labels[ClaimKey(JOB) := "1"]) == Workers(1, Claim1());
    assert s.machineSets[SET := Workers(1, Claim1())] == s'.machineSets;
  }

  lemma MachineComesUp()
    ensures Step(CONTEXT, S1(), Environment, S2())
  {
    EmptyIsValid(PENDING, false, [FINALIZER], Workers(1, Claim1()));
    StoredAreValid(false);
    PopulatedIsValid(Stored(false), Workers(1, Claim1()), false, false);
  }

  lemma StoredAreValid(deleting: bool)
    ensures forall id | id in Stored(deleting) :: ValidId(id) && GoInts(Stored(deleting)[id].items)
  {
    JobIsValid();
    JobDemands(PENDING, deleting, [FINALIZER]);
  }

  lemma SecondPass()
    ensures Step(CONTEXT, S2(), E2(), S3())
  {
    StoredAreValid(false);
    PopulatedIsValid(Stored(false), Workers(1, Claim1()), false, false);
    PopulatedIsValid(Stored(false), Workers(1, Claim1()), true, false);
    JobDemands(PENDING, false, [FINALIZER]);
    JobIsScalable(S2().aws);
    SecondPassScales(S2(), S3(), E2());
    ScaleStep(CONTEXT, S2(), E2(), S3());
  }

  lemma SecondPassScales(s: State, s': State, e: Event)
    requires s == S2() && s' == S3() && e == E2()
    ensures ReuseScaled(3, s, DEMAND, e, s')
  {
    Written();
    WorkerGrows(s, s');
    assert ClaimMatches(s.machineSets[SET], JOB, DEMAND);
  }

  lemma Deleted()
    ensures Step(CONTEXT, S3(), Environment, S4())
  {
    StoredAreValid(false);
    StoredAreValid(true);
    PopulatedIsValid(Stored(false), Workers(1, Claim1()), true, false);
    PopulatedIsValid(Stored(true), Workers(1, Claim1()), true, false);
  }

  lemma Finalises()
    ensures Step(CONTEXT, S4(), E4(), S5())
  {
    StoredAreValid(true);
    PopulatedIsValid(Stored(true), Workers(1, Claim1()), true, false);
    PopulatedIsValid(map[], Workers(0, map[]), true, true);
    var s, s' := S4(), S5();
    assert Without([FINALIZER], FINALIZER) == [];
    assert s'.aws == DropFinalizer(s.aws, JOB);
    NoHeir(s.aws, Job(PENDING, true, [FINALIZER]));
    WorkerReleases(s, s');
  }

  // ----- the hypotheses -----

  ghost predicate Fits(s: State) {
    Demands(s, JOB, DEMAND) && Solo(s, DEMAND, TYPE, SET)
  }

  lemma StateFits(s: State, workers: MachineSet)
    requires s.machineSets == map[SET := workers] && workers.instanceType == TYPE
    requires JOB in s.aws ==> exists state, deleting, finalizers :: s.aws[JOB] == Job(state, deleting, finalizers)
    ensures Fits(s)
  {
    OnlyWorkers(s.machineSets, workers);
    if JOB in s.aws {
      var state, deleting, finalizers :| s.aws[JOB] == Job(state, deleting, finalizers);
      JobDemands(state, deleting, finalizers);
    }
  }

  lemma PassIsFit(s: State, e: Event, s': State)
    requires By(e, JOB) && e.Scale? && GateMachines(s.machines, JOB) == {}
    ensures UntilFinalised(CONTEXT, s, e, s', JOB, DEMAND)
  {
    DemandIsOne();
    assert Gate(s.machines, JOB, DEMAND, 3);
  }

  lemma FirstPassIsFit()
    ensures UntilFinalised(CONTEXT, S0(), E0(), S1(), JOB, DEMAND)
  {
    NothingThere(JOB);
    PassIsFit(S0(), E0(), S1());
  }

  lemma SecondPassIsFit()
    ensures UntilFinalised(CONTEXT, S2(), E2(), S3(), JOB, DEMAND)
  {
    WorkerCarries(false, false);
    PassIsFit(S2(), E2(), S3());
  }

  lemma NewMachineIsFit()
    ensures UntilFinalised(CONTEXT, S1(), Environment, S2(), JOB, DEMAND)
  {
    KeysApart(JOB);
    assert LabelsKept(S1(), S2(), JOB);
  }

  lemma DeletionIsFit()
    ensures UntilFinalised(CONTEXT, S3(), Environment, S4(), JOB, DEMAND)
  {
    SameLabelsKept(S3(), S4(), JOB);
  }

  lemma Concludes(s0: State, e0: Event, s1: State, e1: Event, s2: State, e2: Event, s3: State, e3: Event, s4: State,
        e4: Event, s5: State)
    requires Fits(s0) && Fits(s1) && Fits(s2) && Fits(s3) && Fits(s4) && Fits(s5) && ValidId(JOB)
    requires s0.machines == map[] && s0.nodes == map[] && s0.machineSets == map[SET := Workers(0, map[])]
    requires EventFits(e0) && EventFits(e1) && EventFits(e2) && EventFits(e3) && EventFits(e4)
    requires UntilFinalised(CONTEXT, s0, e0, s1, JOB, DEMAND) && UntilFinalised(CONTEXT, s1, e1, s2, JOB, DEMAND)
    requires UntilFinalised(CONTEXT, s2, e2, s3, JOB, DEMAND) && UntilFinalised(CONTEXT, s3, e3, s4, JOB, DEMAND)
    ensures SoloLife(CONTEXT, [s0, s1, s2, s3, s4, s5], [e0, e1, e2, e3, e4], JOB, DEMAND, TYPE, SET, 4)
  {
    var states, events := [s0, s1, s2, s3, s4, s5], [e0, e1, e2, e3, e4];
    AllFit(states);
    EventsFit(events);
    SteadyFrom(states, events);
    NotFinalisedBefore(states, events);
    LifeOf(states, events);
  }

  lemma EventsFit(events: seq<Event>)
    requires |events| == 5
    requires EventFits(events[0]) && EventFits(events[1]) && EventFits(events[2]) && EventFits(events[3])
             && EventFits(events[4])
    ensures forall i | 0 <= i < |events| :: EventFits(events[i])
  {
  }

  lemma LifeOf(states: seq<State>, events: seq<Event>)
    requires |states| == 6 && |events| == 5 && SteadyLife(states, events, JOB, DEMAND)
    requires forall i: nat | i < |states| :: SoloAt(states, DEMAND, TYPE, SET, i)
    requires forall i: nat | i < 4 :: NotYetFinalised(CONTEXT, states, events, JOB, DEMAND, i)
    requires states[0].machines == map[] && states[0].nodes == map[]
             && states[0].machineSets == map[SET := Workers(0, map[])]
    ensures SoloLife(CONTEXT, states, events, JOB, DEMAND, TYPE, SET, 4)
  {
  }

  predicate EventFits(e: Event) {
    Apart(e, JOB) && CleanBy(e, JOB)
  }

  lemma AllFit(states: seq<State>)
    requires |states| == 6
    requires Fits(states[0]) && Fits(states[1]) && Fits(states[2]) && Fits(states[3]) && Fits(states[4])
             && Fits(states[5])
    ensures forall i | 0 <= i < |states| :: Demands(states[i], JOB, DEMAND)
    ensures forall i: nat | i < |states| :: SoloAt(states, DEMAND, TYPE, SET, i)
  {
    forall i: nat | i < |states|
      ensures Fits(states[i])
    {
      assert i == 0 || i == 1 || i == 2 || i == 3 || i == 4 || i == 5;
    }
  }

  lemma SteadyFrom(states: seq<State>, events: seq<Event>)
    requires |states| == |events| + 1 && ValidId(JOB) && states[0].machineSets == map[SET := Workers(0, map[])]
    requires forall i | 0 <= i < |states| :: Demands(states[i], JOB, DEMAND)
    requires forall i | 0 <= i < |events| :: EventFits(events[i])
    ensures SteadyLife(states, events, JOB, DEMAND)
  {
  }

  lemma NotFinalisedBefore(states: seq<State>, events: seq<Event>)
    requires |states| == 6 && |events| == 5
    requires UntilFinalised(CONTEXT, states[0], events[0], states[1], JOB, DEMAND)
    requires UntilFinalised(CONTEXT, states[1], events[1], states[2], JOB, DEMAND)
    requires UntilFinalised(CONTEXT, states[2], events[2], states[3], JOB, DEMAND)
    requires UntilFinalised(CONTEXT, states[3], events[3], states[4], JOB, DEMAND)
    ensures forall i: nat | i < 4 :: NotYetFinalised(CONTEXT, states, events, JOB, DEMAND, i)
  {
    forall i: nat | i < 4
      ensures NotYetFinalised(CONTEXT, states, events, JOB, DEMAND, i)
    {
      assert i == 0 || i == 1 || i == 2 || i == 3;
    }
  }

  lemma StatesFit()
    ensures Fits(S0()) && Fits(S1()) && Fits(S2()) && Fits(S3()) && Fits(S4())
            && Fits(S5())
  {
    StateFits(S0(), Workers(0, map[]));
    StateFits(S1(), Workers(1, Claim1()));
    StateFits(S2(), Workers(1, Claim1()));
    StateFits(S3(), Workers(1, Claim1()));
    StateFits(S4(), Workers(1, Claim1()));
    StateFits(S5(), Workers(0, map[]));
  }

  lemma Lives()
    ensures SoloLife(CONTEXT, [S0(), S1(), S2(), S3(), S4(), S5()], [E0(), Environment, E2(), Environment, E4()],
                     JOB, DEMAND, TYPE, SET, 4)
  {
    JobIsValid();
    StatesFit();
    FirstPassIsFit();
    SecondPassIsFit();
    NewMachineIsFit();
    DeletionIsFit();
    Concludes(S0(), E0(), S1(), Environment, S2(), E2(), S3(), Environment, S4(), E4(), S5());
  }

  lemma StatesInOrder()
    ensures |States()| == 6 && |Events()| == 5
    ensures States()[0] == S0() && States()[1] == S1() && States()[2] == S2()
    ensures States()[3] == S3() && States()[4] == S4() && States()[5] == S5()
    ensures Events()[0] == E0() && Events()[1] == Environment && Events()[2] == E2()
    ensures Events()[3] == Environment && Events()[4] == E4()
  {
  }

  lemma RunsPast1()
    ensures RunsTo(CONTEXT, States(), Events(), 1)
  {
    StatesInOrder();
    FirstPass();
  }

  lemma RunsPast2()
    ensures RunsTo(CONTEXT, States(), Events(), 2)
  {
    StatesInOrder();
    RunsPast1();
    MachineComesUp();
  }

  lemma RunsPast3()
    ensures RunsTo(CONTEXT, States(), Events(), 3)
  {
    StatesInOrder();
    RunsPast2();
    SecondPass();
  }

  lemma RunsPast4()
    ensures RunsTo(CONTEXT, States(), Events(), 4)
  {
    StatesInOrder();
    RunsPast3();
    Deleted();
  }

  lemma RunsPast5()
    ensures RunsTo(CONTEXT, States(), Events(), 5)
  {
    StatesInOrder();
    RunsPast4();
    Finalises();
  }

  /** The hypotheses can be met: this run is one of the reuse strategy, it is a solo life up to its finalisation,
      it takes the MachineSet from 0 replicas to 1 and back, and it marks the one machine on the way out. */
  lemma ZeroOneZero()
    ensures Run(CONTEXT, States(), Events())
    ensures SoloLife(CONTEXT, States(), Events(), JOB, DEMAND, TYPE, SET, 4)
    ensures By(Events()[4], JOB) && Events()[4].Release? && Events()[4].marked == {MACHINE}
    ensures MarksMatch(States()[4], {MACHINE}, States()[5], JOB, DEMAND, TYPE, SET)
    ensures Replicas(States()[0], SET) == 0 && Replicas(States()[1], SET) == 1 && Replicas(States()[5], SET) == 0
    ensures JOB !in States()[5].aws
  {
    RunsPast5();
    RunsThrough(CONTEXT, States(), Events());
    Lives();
    assert States()[4] == S4() && States()[5] == S5() && Events()[4] == E4();
    ScaleUpAndFinalisationCancel(CONTEXT, States(), Events(), JOB, DEMAND, TYPE, SET, 4);
  }
}
