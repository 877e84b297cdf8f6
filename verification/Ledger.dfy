/** The claim ledger over whole runs of the reuse strategy: how spec.replicas and the claims in the
    MachineSet labels move against each other, under any API failures and any interleaving. */
module Ledger {
  import opened GoPrimitives
  import opened Sums
  import opened Model
  import opened Steps

  predicate By(e: Event, id: AwId) {
    !e.Environment? && e.id == id
  }

  /** The event is not by another AppWrapper that shares id's label. */
  predicate Apart(e: Event, id: AwId) {
    e.Environment? || e.id == id || AwLabel(e.id) != AwLabel(id)
  }

  function Replicas(s: State, n: string): int {
    if n in s.machineSets then s.machineSets[n].replicas else 0
  }

  function Claim(s: State, n: string, id: AwId): int {
    if n in s.machineSets then ClaimIn(s.machineSets[n].labels, ClaimKey(id)) else 0
  }

  /** Replicas of a MachineSet that no claim accounts for. */
  ghost function Drift(s: State, n: string): int {
    Replicas(s, n) - if n in s.machineSets then ClaimTotal(s.machineSets[n].labels) else 0
  }

  /** What an event of the controller does to the replicas of n beyond what it does to the claim. */
  function Leak(s: State, e: Event, n: string): int {
    match e
    case Scale(id, _, _, _, _, Raise(o, counted, _, _), _) => if o == n then Claim(s, n, id) - counted else 0
    case Scale(id, _, _, _, _, Shrink(o, Some(lowered)), _) =>
      if lowered == n then Claim(s, n, id) - DemandAt(s, id, o) - 1 else 0
    case Release(id, _, _, stuck, _, _) => if n in stuck then -Claim(s, n, id) else 0
    case _ => 0
  }

  /** The AppWrapper's demand for the instance type of MachineSet o. */
  function DemandAt(s: State, id: AwId, o: string): int {
    if o in s.machineSets && id in s.aws then At(DemandOf(s.aws[id]), s.machineSets[o].instanceType) else 0
  }

  // ----- demand values are Go ints -----

  predicate ValuesFit(m: map<string, int>) {
    forall t | t in m :: Fits64(m[t])
  }

  lemma {:induction false} PodsFit(base: map<string, int>, names: seq<string>, pods: seq<int>, item: nat, n: nat)
    requires n <= |pods| && ValuesFit(base)
    requires forall j | 0 <= j < |pods| :: Fits64(pods[j])
    ensures ValuesFit(AddPods(base, names, pods, item, n))
  {
    if n > 0 {
      PodsFit(base, names, pods, item, n - 1);
      var m := AddPods(base, names, pods, item, n - 1);
      assert Fits64(pods[n - 1]);
    }
  }

  lemma {:induction false} ItemsFit(names: seq<string>, items: seq<seq<int>>, n: nat)
    requires n <= |items| && GoInts(items)
    ensures ValuesFit(AddItems(names, items, n))
  {
    if n > 0 {
      ItemsFit(names, items, n - 1);
      PodsFit(AddItems(names, items, n - 1), names, items[n - 1], n - 1, |items[n - 1]|);
    }
  }

  lemma DemandFits(aw: AppWrapper)
    requires GoInts(aw.items)
    ensures ValuesFit(DemandOf(aw))
  {
    ItemsFit(InstanceRequired(aw.labels), aw.items, |aw.items|);
  }

  // ----- one step -----

  /** The MachineSets after an event of the reuse strategy, as a function of the state before. */
  function SetsAfter(s: State, e: Event): map<string, MachineSet> {
    match e
    case Scale(id, _, _, _, _, Raise(o, counted, _, _), _) =>
      if o in s.machineSets then
        var d := DemandAt(s, id, o);
        s.machineSets[o := s.machineSets[o].(
          replicas := RaisedTo(s.machineSets[o], d, counted),
          labels := s.machineSets[o].labels[ClaimKey(id) := FormatInt(d)])]
      else s.machineSets
    case Scale(id, _, _, _, _, Shrink(o, Some(lowered)), _) =>
      if lowered in s.machineSets
           then s.machineSets[lowered := LoweredByOne(s.machineSets[lowered], id, DemandAt(s, id, o))]
      else s.machineSets
    case Release(id, _, released, stuck, _, _) => GiveBack(s.machineSets, ClaimKey(id), released, stuck)
    case _ => s.machineSets
  }

  lemma StepSets(c: Context, s: State, e: Event, s': State)
    requires c.backend.Reuse? && Step(c, s, e, s') && !e.Environment?
    ensures s'.machineSets == SetsAfter(s, e)
    ensures e.id in s.aws ==> ValidId(e.id)
    ensures e.id !in s.aws ==> s'.machineSets == s.machineSets
    ensures e.Scale? || e.Release? ==> e.id in s.aws
    ensures e.Scale? ==> ValuesFit(DemandOf(s.aws[e.id]))
    ensures e.Scale? && e.act.Raise? ==>
              e.act.set_ in s.machineSets && s.machineSets[e.act.set_].instanceType in DemandOf(s.aws[e.id])
    ensures e.Scale? && e.act.Shrink? ==>
              e.act.set_ in s.machineSets && s.machineSets[e.act.set_].instanceType in DemandOf(s.aws[e.id])
    ensures e.Release? ==> e.released * e.stuck == {} && (e.clean || e.dropped ==> e.stuck == {})
    ensures forall n | n in s.machineSets :: Fits32(s.machineSets[n].replicas)
  {
    if e.Scale? {
      DemandFits(s.aws[e.id]);
    }
  }

  /** One event of the reuse strategy moves the replicas of a MachineSet by exactly the change of the
      acting AppWrapper's claim there plus the leak, in int32 arithmetic. */
  lemma StepBalances(c: Context, s: State, e: Event, s': State, n: string)
    requires c.backend.Reuse? && Step(c, s, e, s') && !e.Environment? && n in s.machineSets
    ensures n in s'.machineSets
    ensures Replicas(s', n) == Wrap32(Replicas(s, n) + (Claim(s', n, e.id) - Claim(s, n, e.id)) + Leak(s, e, n))
  {
    StepSets(c, s, e, s');
    SetsBalance(s, e, s', n);
    BalancesInStates(s, s', ClaimKey(e.id), e.id, n, Leak(s, e, n));
  }

  lemma BalancesInStates(s: State, s': State, key: string, id: AwId, n: string, leak: int)
    requires n in s.machineSets && n in s'.machineSets && key == ClaimKey(id)
    requires SetBalances(s.machineSets[n], s'.machineSets[n], key, leak)
    ensures Replicas(s', n) == Wrap32(Replicas(s, n) + (Claim(s', n, id) - Claim(s, n, id)) + leak)
  {
  }

  /** ms' is ms after its claim under `key` changed, with a leak. */
  predicate SetBalances(ms: MachineSet, ms': MachineSet, key: string, leak: int) {
    ms'.replicas == Wrap32(ms.replicas + (ClaimIn(ms'.labels, key) - ClaimIn(ms.labels, key)) + leak)
  }

  lemma RaiseBalances(ms: MachineSet, key: string, d: int, counted: int)
    requires Fits64(d)
    ensures SetBalances(ms, ms.(replicas := RaisedTo(ms, d, counted), labels := ms.labels[key := FormatInt(d)]), key,
              ClaimIn(ms.labels, key) - counted)
  {
    AtoiInvertsFormatInt(d);
    assert ms.replicas + (d - ClaimIn(ms.labels, key)) + (ClaimIn(ms.labels, key) - counted)
             == ms.replicas + d - counted;
  }

  lemma ShrinkBalances(ms: MachineSet, id: AwId, d: int)
    requires Fits64(d)
    ensures SetBalances(ms, LoweredByOne(ms, id, d), ClaimKey(id), ClaimIn(ms.labels, ClaimKey(id)) - d - 1)
  {
    AtoiInvertsFormatInt(d);
    assert ms.replicas + (d - ClaimIn(ms.labels, ClaimKey(id))) + (ClaimIn(ms.labels, ClaimKey(id)) - d - 1)
             == ms.replicas - 1;
  }

  lemma GiveBackBalances(ms: MachineSet, key: string)
    ensures SetBalances(ms, GivenBack(ms, key, true), key, 0)
    ensures SetBalances(ms, GivenBack(ms, key, false), key, 0 - ClaimIn(ms.labels, key))
  {
  }

  lemma SetsBalance(s: State, e: Event, s': State, n: string)
    requires !e.Environment? && n in s.machineSets && s'.machineSets == SetsAfter(s, e)
             && Fits32(s.machineSets[n].replicas)
    requires e.Scale? ==> e.id in s.aws && ValuesFit(DemandOf(s.aws[e.id]))
    requires e.Release? ==> e.released * e.stuck == {}
    ensures n in s'.machineSets
    ensures SetBalances(s.machineSets[n], s'.machineSets[n], ClaimKey(e.id), Leak(s, e, n))
  {
    var ms := s.machineSets[n];
    match e {
      case Scale(id, _, _, _, _, Raise(o, counted, _, _), _) =>
        if o == n {
          RaiseBalances(ms, ClaimKey(id), DemandAt(s, id, o), counted);
        }
      case Scale(id, _, _, _, _, Shrink(o, lowered), _) =>
        if lowered == Some(n) {
          ShrinkBalances(ms, id, DemandAt(s, id, o));
        }
      case Release(id, _, released, stuck, _, _) =>
        assert n !in released * stuck;
        GiveBackBalances(ms, ClaimKey(id));
      case _ =>
    }
  }

  /** Only the acting AppWrapper's key is written: every other own label stays, and MachineSets neither
      come nor go, in a step of the reuse strategy by the controller. */
  lemma StepKeepsOtherClaims(c: Context, s: State, e: Event, s': State)
    requires c.backend.Reuse? && Step(c, s, e, s') && !e.Environment?
    ensures s'.machineSets.Keys == s.machineSets.Keys
    ensures forall n | n in s.machineSets ::
              && s'.machineSets[n].instanceType == s.machineSets[n].instanceType
              && OnlyKeyDiffers(s.machineSets[n].labels, s'.machineSets[n].labels, ClaimKey(e.id))
  {
    StepSets(c, s, e, s');
    SetsKeepOtherClaims(s, e);
  }

  lemma SetsKeepOtherClaims(s: State, e: Event)
    requires !e.Environment?
    ensures SetsAfter(s, e).Keys == s.machineSets.Keys
    ensures forall n | n in s.machineSets ::
              && SetsAfter(s, e)[n].instanceType == s.machineSets[n].instanceType
              && OnlyKeyDiffers(s.machineSets[n].labels, SetsAfter(s, e)[n].labels, ClaimKey(e.id))
  {
  }

  ghost predicate OnlyKeyDiffers(a: Labels, b: Labels, key: string) {
    forall k | k != key :: (k in a <==> k in b) && (k in a ==> b[k] == a[k])
  }

  lemma {:induction false} SumWithZeros(keys: set<string>, more: set<string>, f: string -> int)
    requires forall x | x in more :: f(x) == 0
    requires keys !! more
    ensures Sum(keys + more, f) == Sum(keys, f)
    decreases |more|
  {
    if more == {} {
      assert keys + more == keys;
    } else {
      var x :| x in more;
      SumTakeOut(keys + more, f, x);
      assert keys + more - {x} == keys + (more - {x});
      SumWithZeros(keys, more - {x}, f);
    }
  }

  /** Changing one claim moves the total by as much. */
  lemma TotalFollowsClaim(a: Labels, b: Labels, key: string)
    requires OwnKey(key) && key != COPY_LABEL && OnlyKeyDiffers(a, b, key)
    ensures ClaimTotal(b) - ClaimTotal(a) == ClaimIn(b, key) - ClaimIn(a, key)
  {
    var f, g := k => ClaimIn(a, k), k => ClaimIn(b, k);
    var keys := ClaimKeys(a) + {key};
    SumWithZeros(ClaimKeys(a), {key} - ClaimKeys(a), f);
    SumWithZeros(ClaimKeys(b), {key} - ClaimKeys(b), g);
    assert ClaimKeys(a) + ({key} - ClaimKeys(a)) == keys;
    assert ClaimKeys(b) + ({key} - ClaimKeys(b)) == keys;
    SumChangedAt(keys, f, g, key);
  }

  lemma TotalKept(a: Labels, b: Labels)
    requires SameOwnKeys(a, b)
    ensures ClaimTotal(b) == ClaimTotal(a)
  {
    assert ClaimKeys(a) == ClaimKeys(b);
    SumSame(ClaimKeys(a), k => ClaimIn(a, k), k => ClaimIn(b, k));
  }

  // ----- claims are canonical decimals -----

  ghost predicate Decimal(text: string) {
    exists v :: Fits64(v) && text == FormatInt(v)
  }

  ghost predicate DecimalClaims(s: State) {
    forall n, k | n in s.machineSets && k in ClaimKeys(s.machineSets[n].labels) :: Decimal(s.machineSets[n].labels[k])
  }

  lemma WrittenIsDecimal(s: State, e: Event, n: string)
    requires !e.Environment? && n in s.machineSets && (e.Scale? ==> e.id in s.aws && ValuesFit(DemandOf(s.aws[e.id])))
    requires ClaimKey(e.id) in SetsAfter(s, e)[n].labels
    ensures SetsAfter(s, e).Keys == s.machineSets.Keys
    ensures || (ClaimKey(e.id) in s.machineSets[n].labels
              && SetsAfter(s, e)[n].labels[ClaimKey(e.id)] == s.machineSets[n].labels[ClaimKey(e.id)])
            || Decimal(SetsAfter(s, e)[n].labels[ClaimKey(e.id)])
  {
    if e.Scale? && !e.act.NoUpdate? {
      assert Fits64(DemandAt(s, e.id, e.act.set_));
    }
  }

  lemma StepKeepsDecimals(c: Context, s: State, e: Event, s': State)
    requires c.backend.Reuse? && Step(c, s, e, s') && DecimalClaims(s)
    ensures DecimalClaims(s')
  {
    forall n, k | n in s'.machineSets && k in ClaimKeys(s'.machineSets[n].labels)
      ensures Decimal(s'.machineSets[n].labels[k])
    {
      if e.Environment? {
        assert k in ClaimKeys(s.machineSets[n].labels);
      } else {
        StepSets(c, s, e, s');
        SetsKeepOtherClaims(s, e);
        if k == ClaimKey(e.id) {
          WrittenIsDecimal(s, e, n);
        }
        assert k in ClaimKeys(s.machineSets[n].labels) || k == ClaimKey(e.id);
      }
    }
  }

  /** Every claim in every reachable state is the canonical decimal of a Go int, so that it parses: with
      any AppWrappers, any demands, changing ones included, and any failures. */
  lemma ClaimsStayDecimal(c: Context, states: seq<State>, events: seq<Event>, k: nat)
    requires c.backend.Reuse? && Run(c, states, events) && k <= |events| && DecimalClaims(states[0])
    ensures DecimalClaims(states[k])
    ensures forall id | ValidId(id) :: ClaimsParse(states[k].machineSets, ClaimKey(id))
  {
    forall i | 0 <= i < |states| - 1 && DecimalClaims(states[i])
      ensures DecimalClaims(states[i + 1])
    {
      StepAt(c, states, events, i);
      StepKeepsDecimals(c, states[i], events[i], states[i + 1]);
    }
    Throughout(s => DecimalClaims(s), states, k);
    forall id | ValidId(id)
      ensures ClaimsParse(states[k].machineSets, ClaimKey(id))
    {
      DecimalsParse(states[k], id);
    }
  }

  lemma DecimalsParse(s: State, id: AwId)
    requires DecimalClaims(s) && ValidId(id)
    ensures ClaimsParse(s.machineSets, ClaimKey(id))
  {
    KeysApart(id);
    forall n | n in Holders(s.machineSets, ClaimKey(id))
      ensures Atoi(s.machineSets[n].labels[ClaimKey(id)]).Some?
    {
      assert ClaimKey(id) in ClaimKeys(s.machineSets[n].labels);
      var v :| Fits64(v) && s.machineSets[n].labels[ClaimKey(id)] == FormatInt(v);
      AtoiInvertsFormatInt(v);
    }
  }

  // ----- drift over a run -----

  /** The change of drift an event accounts for; the environment may set replicas as it likes. */
  function DriftChange(s: State, e: Event, s': State, n: string): int {
    if e.Environment? then Replicas(s', n) - Replicas(s, n) else Leak(s, e, n)
  }

  function DriftChangeAt(states: seq<State>, events: seq<Event>, n: string): nat -> int
    requires |states| == |events| + 1
  {
    (i: nat) => if i < |events| then DriftChange(states[i], events[i], states[i + 1], n) else 0
  }

  ghost function DriftAt(states: seq<State>, n: string): nat -> int {
    (i: nat) => if i < |states| then Drift(states[i], n) else 0
  }

  /** The changes of drift the first k events account for. */
  function DriftChanges(states: seq<State>, events: seq<Event>, n: string, k: nat): int
    requires |states| == |events| + 1 && k <= |events|
  {
    Total(DriftChangeAt(states, events, n), k)
  }

  ghost predicate Drifts(s: State, e: Event, s': State, n: string) {
    Wrap32(Drift(s', n) - Drift(s, n)) == Wrap32(DriftChange(s, e, s', n))
  }

  lemma DriftFollows(r: int, claim: int, leak: int)
    ensures Wrap32(Wrap32(r + claim + leak) - r - claim) == Wrap32(leak)
  {
    WrapDifference(r + claim, leak);
  }

  lemma SetsDrift(s: State, e: Event, s': State, n: string)
    requires !e.Environment? && n in s.machineSets && s'.machineSets == SetsAfter(s, e)
             && Fits32(s.machineSets[n].replicas) && ValidId(e.id)
    requires e.Scale? ==> e.id in s.aws && ValuesFit(DemandOf(s.aws[e.id]))
    requires e.Release? ==> e.released * e.stuck == {}
    ensures n in s'.machineSets
    ensures Wrap32(Drift(s', n) - Drift(s, n)) == Wrap32(Leak(s, e, n))
  {
    KeysApart(e.id);
    SetsBalance(s, e, s', n);
    SetsKeepOtherClaims(s, e);
    TotalFollowsClaim(s.machineSets[n].labels, s'.machineSets[n].labels, ClaimKey(e.id));
    DriftFollows(Replicas(s, n), Claim(s', n, e.id) - Claim(s, n, e.id), Leak(s, e, n));
  }

  lemma StepDrifts(c: Context, s: State, e: Event, s': State, n: string)
    requires c.backend.Reuse? && Step(c, s, e, s') && n in s.machineSets && n in s'.machineSets
    ensures Drifts(s, e, s', n)
  {
    if e.Environment? {
      TotalKept(s.machineSets[n].labels, s'.machineSets[n].labels);
    } else {
      StepSets(c, s, e, s');
      if e.id in s.aws {
        SetsDrift(s, e, s', n);
      }
    }
  }

  function Zero(i: nat): int {
    0
  }

  lemma {:induction false} TotalZero(k: nat)
    ensures Total(Zero, k) == 0
  {
    if k > 0 {
      TotalZero(k - 1);
    }
  }

  /** Drift accounting. Over any run, with any failures and any AppWrappers, the drift of a MachineSet
      changes by exactly the sum of: the old claim less the machines counted at each raise, the old claim
      less the new one less one at each one-step removal, minus the claim at each failed label removal,
      and what the environment does to its replicas. All other events, clean finalisations among them,
      leave it alone. */
  lemma DriftAccounting(c: Context, states: seq<State>, events: seq<Event>, n: string, k: nat)
    requires c.backend.Reuse? && Run(c, states, events) && k <= |events|
    requires forall i | 0 <= i < |states| :: n in states[i].machineSets
    ensures Wrap32(Drift(states[k], n) - Drift(states[0], n)) == Wrap32(DriftChanges(states, events, n, k))
  {
    EachDrifts(c, states, events, n);
    DriftAddsUp(states, events, n, k);
  }

  lemma DriftAddsUp(states: seq<State>, events: seq<Event>, n: string, k: nat)
    requires |states| == |events| + 1 && k <= |events|
    requires forall i: nat | i < |events| :: Balances(DriftChangeAt(states, events, n), Zero, DriftAt(states, n), i)
    ensures Wrap32(Drift(states[k], n) - Drift(states[0], n)) == Wrap32(DriftChanges(states, events, n, k))
  {
    DriftSeries(states, n, k);
    TotalZero(k);
    SumsBalance(DriftChangeAt(states, events, n), Zero, DriftAt(states, n), k,
                DriftChanges(states, events, n, k), Drift(states[0], n), Drift(states[k], n), 0);
  }

  lemma EachDrifts(c: Context, states: seq<State>, events: seq<Event>, n: string)
    requires c.backend.Reuse? && Run(c, states, events)
    requires forall i | 0 <= i < |states| :: n in states[i].machineSets
    ensures forall i: nat | i < |events| :: Balances(DriftChangeAt(states, events, n), Zero, DriftAt(states, n), i)
  {
    forall i: nat | i < |events|
      ensures Balances(DriftChangeAt(states, events, n), Zero, DriftAt(states, n), i)
    {
      StepAt(c, states, events, i);
      StepDrifts(c, states[i], events[i], states[i + 1], n);
      DriftStepBalances(states, events, n, i);
    }
  }

  lemma DriftSeries(states: seq<State>, n: string, k: nat)
    requires k < |states|
    ensures DriftAt(states, n)(0) == Drift(states[0], n) && DriftAt(states, n)(k) == Drift(states[k], n)
  {
  }

  lemma DriftStepBalances(states: seq<State>, events: seq<Event>, n: string, i: nat)
    requires |states| == |events| + 1 && i < |events|
    requires Drifts(states[i], events[i], states[i + 1], n)
    ensures Balances(DriftChangeAt(states, events, n), Zero, DriftAt(states, n), i)
  {
  }

  /** A finalisation leaves a drift as it is if and only if the label was not stuck there or the claim is 0
      modulo 2^32; no label is stuck in a clean finalisation, or in one that drops the finalizer. */
  lemma FinalisationKeepsDrift(c: Context, s: State, e: Event, s': State, n: string)
    requires c.backend.Reuse? && Step(c, s, e, s') && e.Release? && n in s.machineSets
    ensures n in s'.machineSets
    ensures Wrap32(Drift(s', n) - Drift(s, n)) == 0 <==> n !in e.stuck || Wrap32(Claim(s, n, e.id)) == 0
    ensures e.clean || e.dropped ==> e.stuck == {}
  {
    StepBalances(c, s, e, s', n);
    StepDrifts(c, s, e, s', n);
    StepSets(c, s, e, s');
    StuckDrifts(s, e, s', n);
  }

  lemma StuckDrifts(s: State, e: Event, s': State, n: string)
    requires e.Release? && Drifts(s, e, s', n)
    ensures Wrap32(Drift(s', n) - Drift(s, n)) == 0 <==> n !in e.stuck || Wrap32(Claim(s, n, e.id)) == 0
  {
    WrapOpposite(Claim(s, n, e.id));
  }

  // ----- one AppWrapper's net effect -----

  /** What an event did to the replicas of n, if it is by id. */
  function Effect(s: State, e: Event, s': State, id: AwId, n: string): int {
    if By(e, id) then Replicas(s', n) - Replicas(s, n) else 0
  }

  function OwnLeak(s: State, e: Event, id: AwId, n: string): int {
    if By(e, id) then Leak(s, e, n) else 0
  }

  function EffectAt(states: seq<State>, events: seq<Event>, id: AwId, n: string): nat -> int
    requires |states| == |events| + 1
  {
    (i: nat) => if i < |events| then Effect(states[i], events[i], states[i + 1], id, n) else 0
  }

  function LeakAt(states: seq<State>, events: seq<Event>, id: AwId, n: string): nat -> int
    requires |states| == |events| + 1
  {
    (i: nat) => if i < |events| then OwnLeak(states[i], events[i], id, n) else 0
  }

  function ClaimAt(states: seq<State>, id: AwId, n: string): nat -> int {
    (i: nat) => if i < |states| then Claim(states[i], n, id) else 0
  }

  /** What the events of one AppWrapper did to the replicas of n, among the first k events. */
  function NetEffect(states: seq<State>, events: seq<Event>, id: AwId, n: string, k: nat): int
    requires |states| == |events| + 1 && k <= |events|
  {
    Total(EffectAt(states, events, id, n), k)
  }

  function Leaks(states: seq<State>, events: seq<Event>, id: AwId, n: string, k: nat): int
    requires |states| == |events| + 1 && k <= |events|
  {
    Total(LeakAt(states, events, id, n), k)
  }

  /** The event's int32 arithmetic on n does not overflow. */
  predicate NoOverflow(s: State, e: Event, s': State, n: string) {
    !e.Environment? ==> Fits32(Replicas(s, n) + (Claim(s', n, e.id) - Claim(s, n, e.id)) + Leak(s, e, n))
  }

  lemma OthersKeepClaim(c: Context, s: State, e: Event, s': State, n: string, id: AwId)
    requires c.backend.Reuse? && Step(c, s, e, s') && n in s.machineSets && n in s'.machineSets && ValidId(id)
    requires !By(e, id) && Apart(e, id)
    ensures ClaimKey(id) in s'.machineSets[n].labels <==> ClaimKey(id) in s.machineSets[n].labels
    ensures ClaimKey(id) in s.machineSets[n].labels ==>
              s'.machineSets[n].labels[ClaimKey(id)] == s.machineSets[n].labels[ClaimKey(id)]
  {
    KeysApart(id);
    if !e.Environment? {
      if ClaimKey(e.id) == ClaimKey(id) {
        ClaimKeyInjective(e.id, id);
      }
      StepKeepsOtherClaims(c, s, e, s');
    }
  }

  /** How one event bears on one AppWrapper's account at n. */
  ghost predicate Balanced(s: State, e: Event, s': State, id: AwId, n: string) {
    var x := Claim(s', n, id) - Claim(s, n, id) + OwnLeak(s, e, id, n);
    && Wrap32(Effect(s, e, s', id, n)) == Wrap32(x)
    && (NoOverflow(s, e, s', n) ==> Effect(s, e, s', id, n) == x)
  }

  lemma StepBalanced(c: Context, s: State, e: Event, s': State, id: AwId, n: string)
    requires c.backend.Reuse? && Step(c, s, e, s') && ValidId(id) && Apart(e, id)
    requires n in s.machineSets && n in s'.machineSets
    ensures Balanced(s, e, s', id, n)
  {
    if By(e, id) {
      StepBalances(c, s, e, s', n);
      OwnBalanced(s, e, s', id, n);
    } else {
      OthersKeepClaim(c, s, e, s', n, id);
    }
  }

  lemma OwnBalanced(s: State, e: Event, s': State, id: AwId, n: string)
    requires By(e, id)
    requires Replicas(s', n) == Wrap32(Replicas(s, n) + (Claim(s', n, id) - Claim(s, n, id)) + Leak(s, e, n))
    ensures Balanced(s, e, s', id, n)
  {
    AccountMoves(Replicas(s, n), Claim(s', n, id) - Claim(s, n, id) + Leak(s, e, n));
  }

  lemma AccountMoves(r: int, x: int)
    ensures Wrap32(Wrap32(r + x) - r) == Wrap32(x)
    ensures Fits32(r + x) ==> Wrap32(r + x) - r == x
  {
    WrapDifference(r, x);
    WrapLaws(r + x, 0);
  }

  /** The ledger: whatever other AppWrappers and the environment do in between, and whatever fails, the
      net effect of an AppWrapper on a MachineSet is the change of its claim there plus its leaks. */
  lemma LedgerBalances(c: Context, states: seq<State>, events: seq<Event>, id: AwId, n: string, k: nat)
    requires c.backend.Reuse? && Run(c, states, events) && ValidId(id) && k <= |events|
    requires forall i | 0 <= i < |states| :: n in states[i].machineSets
    requires forall i | 0 <= i < |events| :: Apart(events[i], id)
    ensures Wrap32(NetEffect(states, events, id, n, k))
            == Wrap32(Claim(states[k], n, id) - Claim(states[0], n, id) + Leaks(states, events, id, n, k))
  {
    EachBalances(c, states, events, id, n);
    AccountAddsUp(states, events, id, n, k);
  }

  lemma AccountAddsUp(states: seq<State>, events: seq<Event>, id: AwId, n: string, k: nat)
    requires |states| == |events| + 1 && k <= |events|
    requires forall i: nat | i < |events| ::
               Balances(EffectAt(states, events, id, n), LeakAt(states, events, id, n), ClaimAt(states, id, n), i)
    ensures Wrap32(NetEffect(states, events, id, n, k))
            == Wrap32(Claim(states[k], n, id) - Claim(states[0], n, id) + Leaks(states, events, id, n, k))
  {
    ClaimSeries(states, id, n, k);
    SumsBalance(EffectAt(states, events, id, n), LeakAt(states, events, id, n), ClaimAt(states, id, n), k,
                NetEffect(states, events, id, n, k), Claim(states[0], n, id), Claim(states[k], n, id),
                    Leaks(states, events, id, n, k));
  }

  /** The same without int32 arithmetic, where none of it overflows. */
  lemma LedgerBalancesExactly(c: Context, states: seq<State>, events: seq<Event>, id: AwId, n: string, k: nat)
    requires c.backend.Reuse? && Run(c, states, events) && ValidId(id) && k <= |events|
    requires forall i | 0 <= i < |states| :: n in states[i].machineSets
    requires forall i | 0 <= i < |events| :: Apart(events[i], id)
    requires forall i | 0 <= i < k :: NoOverflow(states[i], events[i], states[i + 1], n)
    ensures NetEffect(states, events, id, n, k) == Claim(states[k], n, id) - Claim(states[0], n, id) + Leaks(states,
              events, id, n, k)
  {
    EachBalances(c, states, events, id, n);
    TotalsBalanceExactly(EffectAt(states, events, id, n), LeakAt(states, events, id, n), ClaimAt(states, id, n), k);
    ClaimSeries(states, id, n, k);
  }

  lemma EachBalances(c: Context, states: seq<State>, events: seq<Event>, id: AwId, n: string)
    requires c.backend.Reuse? && Run(c, states, events) && ValidId(id)
    requires forall i | 0 <= i < |states| :: n in states[i].machineSets
    requires forall i | 0 <= i < |events| :: Apart(events[i], id)
    ensures forall i: nat | i < |events| ::
              Balances(EffectAt(states, events, id, n), LeakAt(states, events, id, n), ClaimAt(states, id, n), i)
    ensures forall i: nat | i < |events| && NoOverflow(states[i], events[i], states[i + 1], n) ::
              BalancesExactly(EffectAt(states, events, id, n), LeakAt(states, events, id, n), ClaimAt(states, id, n), i)
  {
    forall i: nat | i < |events|
      ensures Balances(EffectAt(states, events, id, n), LeakAt(states, events, id, n), ClaimAt(states, id, n), i)
      ensures NoOverflow(states[i], events[i], states[i + 1], n) ==>
                BalancesExactly(EffectAt(states, events, id, n), LeakAt(states, events, id, n),
                    ClaimAt(states, id, n), i)
    {
      StepAt(c, states, events, i);
      StepBalanced(c, states[i], events[i], states[i + 1], id, n);
      AccountStepBalances(states, events, id, n, i);
    }
  }

  lemma ClaimSeries(states: seq<State>, id: AwId, n: string, k: nat)
    requires k < |states|
    ensures ClaimAt(states, id, n)(0) == Claim(states[0], n, id) && ClaimAt(states, id, n)(k) == Claim(states[k], n, id)
  {
  }

  lemma AccountStepBalances(states: seq<State>, events: seq<Event>, id: AwId, n: string, i: nat)
    requires |states| == |events| + 1 && i < |events|
    requires Balanced(states[i], events[i], states[i + 1], id, n)
    ensures Balances(EffectAt(states, events, id, n), LeakAt(states, events, id, n), ClaimAt(states, id, n), i)
    ensures NoOverflow(states[i], events[i], states[i + 1], n) ==>
              BalancesExactly(EffectAt(states, events, id, n), LeakAt(states, events, id, n), ClaimAt(states, id, n), i)
  {
  }
}
