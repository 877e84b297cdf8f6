/** controllers/appwrapper_controller.go: the lifecycle of an AppWrapper and the choice of backend. */
module AppWrapperController {
  import opened GoPrimitives
  import opened Model
  import opened Steps
  import opened Effects
  import opened Cluster
  import opened ReuseController
  import opened DuplicateController
  import opened PoolController

  datatype MachineType = Unset | OfMachineSet | OfMachinePool | OfNodePool

  function LowerChar(c: char): char {
    if 'A' <= c <= 'Z' then (c as int - 'A' as int + 'a' as int) as char else c
  }

  /** strings.ToLower on ASCII text. */
  function ToLower(s: string): string {
    seq(|s|, i requires 0 <= i < |s| => LowerChar(s[i]))
  }

  // ----- demand -----

  /** discoverInstanceTypes */
  method DiscoverInstanceTypes(aw: AppWrapper) returns (demand: map<string, int>)
    ensures demand == DemandOf(aw)
  {
    demand := map[];
    var instanceRequired := InstanceRequired(aw.labels);
    if |instanceRequired| < 1 {
      NoNamesNoDemand(aw.items, |aw.items|);
      return;
    }
    for item := 0 to |aw.items|
      invariant demand == AddItems(instanceRequired, aw.items, item)
    {
      ghost var base := demand;
      for idx := 0 to |aw.items[item]|
        invariant demand == AddPods(base, instanceRequired, aw.items[item], item, idx)
      {
        var combinedIndex := idx + item;
        if combinedIndex < |instanceRequired| {
          demand := demand[instanceRequired[combinedIndex] := aw.items[item][idx]];
        }
      }
    }
  }

  lemma {:induction false} NoNamesNoDemand(items: seq<seq<int>>, n: nat)
    requires n <= |items|
    ensures AddItems([], items, n) == map[]
  {
    if n > 0 {
      NoNamesNoDemand(items, n - 1);
      NoNamesNoPods(items[n - 1], n - 1, |items[n - 1]|);
    }
  }

  lemma {:induction false} NoNamesNoPods(pods: seq<int>, item: nat, n: nat)
    requires n <= |pods|
    ensures AddPods(map[], [], pods, item, n) == map[]
  {
    if n > 0 {
      NoNamesNoPods(pods, item, n - 1);
    }
  }

  /** containsInsufficientCondition */
  method ContainsInsufficientCondition(aw: AppWrapper) returns (found: bool)
    ensures found <==> Insufficient(aw)
  {
    for i := 0 to |aw.conditions|
      invariant forall j | 0 <= j < i :: !Contains(aw.conditions[j], "Insufficient")
    {
      if Contains(aw.conditions[i], "Insufficient") {
        return true;
      }
    }
    return false;
  }

  // ----- ownership transfer -----

  /** findExactMatch. Only AppWrappers whose `orderedinstance` is present and empty are listed, so an
      AppWrapper that asks for instances never finds a match. */
  method FindExactMatch(k: Client, id: AwId) returns (found: Option<AwId>)
    requires id in k.aws
    modifies k`clean
    ensures k.clean ==> old(k.clean)
    ensures found.Some? ==> HeirFor(k.aws, id, found.value)
    ensures k.clean && found.None? ==> forall h :: !HeirFor(k.aws, id, h)
  {
    found := None;
    var ok, items := k.ListAppWrappers(map[ORDERED_INSTANCE := ""]);
    if !ok {
      return;
    }
    forall a | a in k.aws
      ensures Matches(map[ORDERED_INSTANCE := ""], k.aws[a].labels) <==>
                ORDERED_INSTANCE in k.aws[a].labels && k.aws[a].labels[ORDERED_INSTANCE] == ""
    {
      MatchesOne(k.aws[a].labels, ORDERED_INSTANCE, "");
    }
    var existing := LabelOf(k.aws[id].labels, ORDERED_INSTANCE);
    var todo := items.Keys;
    while todo != {}
      modifies {}
      invariant todo <= items.Keys && found.None?
      invariant forall h | h in items && h !in todo :: !HeirFor(k.aws, id, h)
    {
      var a :| a in todo;
      todo := todo - {a};
      if items[a].state != PENDING && LabelOf(items[a].labels, ORDERED_INSTANCE) == existing {
        return Some(a);
      }
    }
    assert forall h :: HeirFor(k.aws, id, h) ==> h in items;
  }

  /** patchMachineLabels and patchNodeLabels for one machine. */
  method SwapLabelsOf(k: Client, id: AwId, heir: AwId, name: string, nodeName: string)
    returns (swapped: bool, noded: bool)
    modifies k`machines, k`nodes, k`clean
    ensures k.clean == (old(k.clean) && noded) && (noded ==> swapped)
    ensures swapped ==> name in old(k.machines) && AwLabel(id) in old(k.machines)[name].labels
    ensures k.machines == if swapped then SwapMachines(old(k.machines), {name}, id, heir) else old(k.machines)
    ensures noded ==> nodeName in old(k.nodes) && AwLabel(id) in old(k.nodes)[nodeName].labels
    ensures k.nodes == if noded then SwapNodes(old(k.nodes), {nodeName}, id, heir) else old(k.nodes)
  {
    swapped, noded := false, false;
    var found, _ := k.GetMachine(name);
    if !found {
      return;
    }
    swapped := k.PatchMachineSwapLabel(name, AwLabel(id), AwLabel(heir), heir.name);
    if swapped {
      noded := k.PatchNodeSwapLabel(nodeName, AwLabel(id), heir.name + "-" + id.namespace, heir.name);
    }
  }

  /** What has been written when the machines `seen` have been handed over. */
  ghost predicate HandedOver(s0: State, k: Client, id: AwId, heir: AwId, seen: set<string>, handed: set<string>,
        handedNodes: set<string>)
    reads k
  {
    && seen <= s0.machines.Keys && seen <= handed
    && k.machines == SwapMachines(s0.machines, handed, id, heir)
    && k.nodes == SwapNodes(s0.nodes, handedNodes, id, heir)
    && (forall m | m in handed :: m in s0.machines && AwLabel(id) in s0.machines[m].labels)
    && (forall x | x in handedNodes :: x in s0.nodes && AwLabel(id) in s0.nodes[x].labels)
    && handedNodes == NodeNames(s0.machines, seen)
  }

  lemma SwapTwice(labels: Labels, gone: string, key: string, value: string)
    ensures SwapLabels(SwapLabels(labels, gone, key, value), gone, key, value) == SwapLabels(labels, gone, key, value)
  {
  }

  lemma SwapOneMore(s: State, handed: set<string>, handedNodes: set<string>, id: AwId, heir: AwId, n: string, x: string)
    requires n !in handed
    ensures SwapMachines(SwapMachines(s.machines, handed, id, heir), {n}, id, heir)
              == SwapMachines(s.machines, handed + {n}, id, heir)
    ensures SwapNodes(SwapNodes(s.nodes, handedNodes, id, heir), {x}, id, heir)
              == SwapNodes(s.nodes, handedNodes + {x}, id, heir)
  {
    if x in s.nodes {
      SwapTwice(s.nodes[x].labels, AwLabel(id), NodeHeirLabel(id, heir), heir.name);
    }
  }

  lemma NothingHanded(s: State, id: AwId, heir: AwId)
    ensures SwapMachines(s.machines, {}, id, heir) == s.machines && SwapNodes(s.nodes, {}, id, heir) == s.nodes
  {
  }

  /** One round of the loop. On an error the machine may have changed hands and its node not. */
  method HandOverNext(k: Client, id: AwId, heir: AwId, name: string, nodeName: string, ghost s0: State,
        ghost handed: set<string>, ghost handedNodes: set<string>)
    returns (ok: bool, ghost handed': set<string>, ghost handedNodes': set<string>)
    requires HandedOver(s0, k, id, heir, handed, handed, handedNodes)
    requires name in s0.machines && name !in handed && s0.machines[name].nodeName == nodeName
    modifies k`machines, k`nodes, k`clean
    ensures k.clean == (old(k.clean) && ok)
    ensures handed <= handed' <= handed + {name} && (ok ==> handed' == handed + {name})
    ensures HandedOver(s0, k, id, heir, if ok then handed' else handed, handed', handedNodes')
  {
    var swapped;
    swapped, ok := SwapLabelsOf(k, id, heir, name, nodeName);
    SwapOneMore(s0, handed, handedNodes, id, heir, name, nodeName);
    OneMoreNode(s0.machines, handed, name);
    handed' := if swapped then handed + {name} else handed;
    handedNodes' := if ok then handedNodes + {nodeName} else handedNodes;
  }

  /** The loop over the machines listed. */
  method HandOverAll(k: Client, id: AwId, heir: AwId, all: map<string, Machine>)
    returns (ok: bool, ghost seen: set<string>, ghost handed: set<string>, ghost handedNodes: set<string>)
    requires all == map n | n in Select(k.machines, map[id.name := id.name]) :: k.machines[n]
    modifies k`machines, k`nodes, k`clean
    ensures k.clean == (old(k.clean) && ok)
    ensures HandedOver(old(k.State()), k, id, heir, seen, handed, handedNodes)
    ensures handed <= all.Keys && (ok ==> seen == handed == all.Keys)
  {
    ghost var s0 := k.State();
    ok, seen, handed, handedNodes := true, {}, {}, {};
    NothingHanded(s0, id, heir);
    var todo := all.Keys;
    while todo != {} && ok
      decreases |todo|
      invariant k.clean == (old(k.clean) && ok)
      invariant todo <= all.Keys && handed <= all.Keys
      invariant HandedOver(s0, k, id, heir, seen, handed, handedNodes)
      invariant ok ==> seen == handed == all.Keys - todo
    {
      var n :| n in todo;
      ok, handed, handedNodes := HandOverNext(k, id, heir, n, all[n].nodeName, s0, handed, handedNodes);
      SeenNext(all.Keys, todo, n);
      seen := if ok then handed else seen;
      todo := todo - {n};
    }
  }

  /** swapNodeLabels: hands the machines over by rewriting labels, and nothing but labels; stops at the
      first error. */
  method SwapNodeLabels(k: Client, id: AwId, heir: AwId)
    returns (err: bool, ghost handed: set<string>, ghost handedNodes: set<string>)
    modifies k`machines, k`nodes, k`clean
    ensures k.clean ==> old(k.clean) && !err
    ensures Swapped(old(k.State()), id, heir, handed, handedNodes, !err, k.State())
  {
    handed, handedNodes := {}, {};
    NothingHanded(k.State(), id, heir);
    var ok, all := k.ListMachines(map[id.name := id.name]);
    if !ok {
      return true, handed, handedNodes;
    }
    ghost var seen;
    ok, seen, handed, handedNodes := HandOverAll(k, id, heir, all);
    err := !ok;
  }

  // ----- dispatch -----

  function BackendOf(machineType: MachineType, strategy: string): Backend {
    match machineType
    case OfMachineSet =>
      if ToLower(strategy) == "reuse" then Reuse
      else if ToLower(strategy) == "duplicate" then Duplicate
      else Unsupported
    case OfMachinePool => MachinePools
    case OfNodePool => NodePools
    case Unset => Unsupported
  }

  /** The event a reconcile must be when no call fails. */
  ghost predicate Dispatched(b: Backend, s: State, id: AwId, e: Event) {
    if id !in s.aws then e == Idle(id)
    else if FINALIZER !in s.aws[id].finalizers then e == Adopt(id)
    else if Ending(s.aws[id]) then
      match b
      case Reuse => if exists h :: HeirFor(s.aws, id, h) then e.Swap? else e.Release?
      case Duplicate => e.Discard?
      case MachinePools => e.DropPools?
      case NodePools => e.DropPools?
      case Unsupported => e.LetGo?
    else if Scalable(s.aws, id) then
      match b
      case Reuse => e.Scale?
      case Duplicate => e.Copy?
      case MachinePools => e.AddPools?
      case NodePools => e.AddPools?
      case Unsupported => e == Idle(id)
    else e == Idle(id)
  }

  predicate Finalising(e: Event) {
    e.Release? || e.Swap? || e.Discard? || e.DropPools? || e.LetGo?
  }

  /** What finalizeScalingDownMachines did, before the finalizer is dropped. */
  ghost predicate Finalised(b: Backend, s: State, id: AwId, e: Event, err: bool, clean: bool, s': State) {
    && Finalising(e) && e.id == id && !e.dropped && s'.aws == s.aws
    && match e {
         case Release(_, marked, released, stuck, _, _) =>
           && b.Reuse? && ClaimsReleased(s, id, marked, released, stuck, !err, clean, s')
           && (clean ==> forall h :: !HeirFor(s.aws, id, h))
         case Swap(_, heir, handed, handedNodes, _) =>
           && b.Reuse? && HeirFor(s.aws, id, heir) && Swapped(s, id, heir, handed, handedNodes, !err, s')
           && (clean ==> !err)
         case Discard(_, deleted, _, _) => b.Duplicate? && Discarded(s, id, deleted, !err, clean, s')
         case DropPools(_, calls, _, _) =>
           && (b.MachinePools? || b.NodePools?) && PoolsDropped(s, id, calls, s')
           && err == !calls.connected && clean == (calls.connected && calls.listed && calls.refused == {})
         case LetGo(_, _) => b.Unsupported? && !err && s' == s
       }
  }

  /** What the answer of a reconcile means. Doing nothing is done if and only if no call failed. Finalising is done if
      and only if the finalizer went, and failed otherwise. A pass that changed MachineSets is not done; one that
      says so, with no failing call, has labelled to the end at every MachineSet of a demanded type, and leaves every
      demanded type served: by labelled running machines, if the gate is open, or by copies that are ready. Scaling
      fails only if a call did. */
  ghost predicate Reported(maxNodes: int, s: State, e: Event, res: Result, clean: bool, s': State) {
    match e
    case Idle(_) => clean <==> res.Done?
    case Adopt(_) => res.Done?
    case Scale(id, _, _, _, _, act, _) =>
      && (clean ==> !res.Failed?) && (res.Done? ==> act.NoUpdate?)
      && id in s.aws
      && (res.Done? && clean && Gate(s.machines, id, DemandOf(s.aws[id]), maxNodes) ==>
            AllServed(s'.machineSets, s'.machines, DemandOf(s.aws[id]), id, {}))
      && (res.Done? && clean ==> AllFilled(s'.machineSets, s'.machines, DemandOf(s.aws[id]), id, {}))
    case Copy(id, created, _, _) =>
      && (clean ==> !res.Failed?) && (res.Done? ==> created.None?)
      && id in s.aws
      && (res.Done? && clean ==> CopiesReady(s'.machineSets, id, DemandOf(s.aws[id])))
      && (res.Done? && clean && Pairs(s.machineSets, DemandOf(s.aws[id])) != {} ==>
            e.copyNodes == CopyNodes(s.machines, id))
    case AddPools(_, _, _) => !res.Requeue? && (clean ==> res.Done?)
    case _ => res == if Finalising(e) && e.dropped then Done else Failed
  }

  /** The event says truly whether a call failed; one that deletes pools also how the client's connection and
      listing went. */
  ghost predicate TellsTruly(k: Client, e: Event)
    reads k
  {
    && (e.Scale? || e.Copy? || e.AddPools? || e.Release? || e.Discard? || e.DropPools? ==> e.clean == k.clean)
    && (e.DropPools? ==> CallsSeen(k, e.calls))
  }

  predicate SameKind(e1: Event, e: Event) {
    && (e1.Release? <==> e.Release?) && (e1.Swap? <==> e.Swap?) && (e1.Discard? <==> e.Discard?)
    && (e1.DropPools? <==> e.DropPools?) && (e1.LetGo? <==> e.LetGo?)
  }

  class Reconciler {
    const k: Client
    const ocmSecretConfigured: bool
    const strategy: string
    const maxScaleoutAllowed: int
    /** What the cluster manager says about the cluster when asked: whether its control plane is hosted. */
    const hypershiftEnabled: bool

    var machineType: MachineType
    var machineCheck: bool
    var machineNameCharacterLimit: int
    var ocmClusterID: string

    constructor (k: Client, ocmSecretConfigured: bool, strategy: string, maxScaleoutAllowed: int,
          hypershiftEnabled: bool)
      requires Fits32(maxScaleoutAllowed)
      ensures this.k == k && this.ocmSecretConfigured == ocmSecretConfigured
      ensures this.strategy == strategy && this.maxScaleoutAllowed == maxScaleoutAllowed
              && this.hypershiftEnabled == hypershiftEnabled
      ensures machineType == Unset && !machineCheck && machineNameCharacterLimit == 0 && ocmClusterID == ""
    {
      this.k, this.ocmSecretConfigured, this.strategy := k, ocmSecretConfigured, strategy;
      this.maxScaleoutAllowed, this.hypershiftEnabled := maxScaleoutAllowed, hypershiftEnabled;
      machineType, machineCheck, machineNameCharacterLimit, ocmClusterID := Unset, false, 0, "";
    }

    /** From setup on: MachineSets are used exactly when no OCM secret is configured, and the name
        limit goes with the kind of pool, which is settled by the first successful check. */
    ghost predicate Valid()
      reads this
    {
      && machineType != Unset && Fits32(maxScaleoutAllowed)
      && (machineType.OfMachineSet? <==> !ocmSecretConfigured)
      && machineNameCharacterLimit == (if machineType.OfNodePool? then 15 else 30)
      && (machineType.OfNodePool? <==> ocmSecretConfigured && hypershiftEnabled && machineCheck)
    }

    ghost function Context(): Context
      reads this
    {
      Steps.Context.Context(BackendOf(machineType, strategy), maxScaleoutAllowed)
    }

    /** SetupWithManager. Nothing is reconciled unless it reaches its end: not when the secret cannot be
        read, nor when it holds no token, although no error is returned then. */
    method SetupWithManager() returns (started: bool)
      requires !machineCheck && Fits32(maxScaleoutAllowed)
      modifies this
      ensures started ==> Valid()
      ensures machineCheck == old(machineCheck) && ocmClusterID == old(ocmClusterID)
    {
      machineNameCharacterLimit := 30;
      var clientOk: bool := *;
      if !clientOk {
        return false;
      }
      machineType := OfMachineSet;
      if ocmSecretConfigured {
        var readable: bool, token: string := *, *;
        if !readable {
          return false;
        } else if |token| > 0 {
          machineType := OfMachinePool;
        } else {
          return false;
        }
      }
      started := *;
    }

    /** setMachineType: asks the cluster manager whether the cluster is hosted. */
    method SetMachineType() returns (err: bool)
      requires Valid() && !machineCheck && ocmSecretConfigured
      modifies this`machineType, this`machineNameCharacterLimit, this`ocmClusterID, k`clean
      ensures k.clean == (old(k.clean) && !err)
      ensures err ==> machineType == old(machineType) && machineNameCharacterLimit == old(machineNameCharacterLimit)
      ensures !err ==> if hypershiftEnabled then machineType.OfNodePool? && machineNameCharacterLimit == 15
                       else machineType.OfMachinePool? && machineNameCharacterLimit == 30
    {
      if ocmClusterID == "" {
        var found := k.Call();
        if !found {
          return true;
        }
        ocmClusterID := *;
      }
      var ok := k.Call();
      if !ok {
        return true;
      }
      if hypershiftEnabled {
        machineType := OfNodePool;
        machineNameCharacterLimit := 15;
      }
      err := false;
    }

    /** finalizeScalingDownMachines */
    method FinalizeScalingDownMachines(id: AwId) returns (err: bool, ghost e: Event)
      requires Valid() && k.Valid() && k.clean && id in k.aws
      modifies k`machines, k`nodes, k`machineSets, k`pools, k`clean, k`connected, k`listed
      ensures Finalised(BackendOf(machineType, strategy), old(k.State()), id, e, err, k.clean, k.State())
      ensures e.DropPools? ==> CallsSeen(k, e.calls)
      ensures k.clean ==>
                (e.Swap? <==> BackendOf(machineType, strategy).Reuse? && exists h :: HeirFor(old(k.aws), id, h))
    {
      err := false;
      match machineType {
        case OfMachineSet =>
          if ToLower(strategy) == "reuse" {
            var matched := FindExactMatch(k, id);
            if matched.Some? {
              ghost var handed, handedNodes;
              err, handed, handedNodes := SwapNodeLabels(k, id, matched.value);
              e := Swap(id, matched.value, handed, handedNodes, false);
            } else {
              ghost var marked, released, stuck;
              err, marked, released, stuck := AnnotateToDeleteMachine(k, id);
              e := Release(id, marked, released, stuck, false, k.clean);
            }
          } else if ToLower(strategy) == "duplicate" {
            ghost var deleted;
            err, deleted := DeleteCopies(k, id);
            e := Discard(id, deleted, false, k.clean);
          } else {
            e := LetGo(id, false);
          }
        case OfNodePool =>
          ghost var calls;
          err, calls := DeletePools(k, id);
          e := DropPools(id, calls, false, k.clean);
        case OfMachinePool =>
          ghost var calls;
          err, calls := DeletePools(k, id);
          e := DropPools(id, calls, false, k.clean);
        case Unset =>
          assert false;
      }
    }

    /** Lines 116-122: take the AppWrapper into care. */
    method ReconcileNew(id: AwId, aw: AppWrapper) returns (res: Result, ghost e: Event)
      requires k.Valid() && k.clean && id in k.aws && k.aws[id] == aw && FINALIZER !in aw.finalizers
      modifies k`aws, k`clean, k`updated
      ensures e == Idle(id) || e == Adopt(id)
      ensures Step(Context(), old(k.State()), e, k.State())
      ensures k.clean ==> e == Adopt(id)
      ensures if e.Adopt? then res.Done? else res.Requeue? && !k.clean
      ensures k.updated == Some(e.Adopt?)
    {
      ghost var s := k.State();
      var adopted := k.UpdateAppWrapper(id, aw.(finalizers := aw.finalizers + [FINALIZER]));
      if !adopted {
        return Requeue, Idle(id);
      }
      AdoptSteps(Context(), s, id, k.State());
      return Done, Adopt(id);
    }

    /** Lines 124-133: undo the scaling, then drop the finalizer. */
    method ReconcileEnding(id: AwId, aw: AppWrapper) returns (res: Result, ghost e: Event)
      requires Valid() && k.Valid() && k.clean && id in k.aws && k.aws[id] == aw && Finalizable(k.State(), id)
      requires k.updated.None?
      modifies k
      ensures Finalising(e) && e.id == id && res == if e.dropped then Done else Failed
      ensures k.updated.None? || k.updated == Some(e.dropped)
      ensures e.DropPools? && e.calls.connected ==> k.updated == Some(e.calls.stored)
      ensures TellsTruly(k, e)
      ensures Step(Context(), old(k.State()), e, k.State())
      ensures k.clean ==> Dispatched(BackendOf(machineType, strategy), old(k.State()), id, e)
    {
      ghost var s := k.State();
      var err;
      err, e := FinalizeScalingDownMachines(id);
      res, e := FinishEnding(id, aw, err, e, s);
    }

    /** Lines 125-133: drop the finalizer unless undoing the scaling, from state s, failed. */
    method FinishEnding(id: AwId, aw: AppWrapper, err: bool, ghost e1: Event, ghost s: State)
      returns (res: Result, ghost e: Event)
      requires Valid() && s.Valid() && Finalizable(s, id) && s.aws[id] == aw && k.updated.None?
      requires Finalised(BackendOf(machineType, strategy), s, id, e1, err, k.clean, k.State())
      requires e1.DropPools? ==> CallsSeen(k, e1.calls)
      modifies k`aws, k`clean, k`updated
      ensures Finalising(e) && e.id == id && res == if e.dropped then Done else Failed
      ensures k.clean ==> old(k.clean)
      ensures k.updated.None? || k.updated == Some(e.dropped)
      ensures e.DropPools? && e.calls.connected ==> k.updated == Some(e.calls.stored)
      ensures TellsTruly(k, e)
      ensures SameKind(e1, e)
      ensures Step(Context(), s, e, k.State())
    {
      ghost var s1, clean1 := k.State(), k.clean;
      var dropped := false;
      if !err {
        dropped := k.UpdateAppWrapper(id, aw.(finalizers := Without(aw.finalizers, FINALIZER)));
      }
      e := Finished(Context(), s, id, e1, err, clean1, s1, dropped, k.clean, k.State());
      res := if dropped then Done else Failed;
    }

    /** Lines 137-155: scale up through the backend in use. */
    method ReconcilePending(id: AwId, aw: AppWrapper) returns (res: Result, ghost e: Event)
      requires Valid() && k.Valid() && k.clean && id in k.aws && k.aws[id] == aw && Scalable(k.aws, id)
      modifies k
      ensures e.Scale? || e.Copy? || e.AddPools? || e.Idle?
      ensures e.id == id && TellsTruly(k, e) && (e.Idle? ==> k.clean)
      ensures Step(Context(), old(k.State()), e, k.State())
      ensures Reported(maxScaleoutAllowed, old(k.State()), e, res, k.clean, k.State())
      ensures k.clean ==> Dispatched(BackendOf(machineType, strategy), old(k.State()), id, e)
    {
      var demand := DiscoverInstanceTypes(aw);
      ghost var s := k.State();
      res, e := Done, Idle(id);
      if ocmSecretConfigured {
        match machineType {
          case OfNodePool =>
            res, e := ScalePools(k, id, demand, machineNameCharacterLimit);
          case OfMachinePool =>
            res, e := ScalePools(k, id, demand, machineNameCharacterLimit);
          case _ =>
        }
      } else if ToLower(strategy) == "reuse" {
        res, e := ReconcileReuseMachineSet(k, maxScaleoutAllowed, id, demand);
      } else if ToLower(strategy) == "duplicate" {
        res, e := ReconcileCreateMachineSet(k, id, demand);
      }
      ScaledSteps(Context(), s, id, demand, e, k.State());
    }

    /** Lines 135-157: scale up if the AppWrapper is pending for lack of resources. */
    method ReconcileKept(id: AwId, aw: AppWrapper) returns (res: Result, ghost e: Event)
      requires Valid() && k.Valid() && k.clean && k.updated.None? && id in k.aws && k.aws[id] == aw
      requires FINALIZER in aw.finalizers && !Ending(aw)
      modifies k
      ensures e.Scale? || e.Copy? || e.AddPools? || e.Idle?
      ensures e.id == id && TellsTruly(k, e) && (e.Idle? ==> k.clean)
      ensures Reported(maxScaleoutAllowed, old(k.State()), e, res, k.clean, k.State())
      ensures Step(Context(), old(k.State()), e, k.State())
      ensures k.clean ==> Dispatched(BackendOf(machineType, strategy), old(k.State()), id, e)
    {
      var insufficient := ContainsInsufficientCondition(aw);
      if aw.state == PENDING && insufficient {
        res, e := ReconcilePending(id, aw);
      } else {
        res, e := Done, Idle(id);
      }
    }

    /** Lines 115-157: what the state of the AppWrapper asks for. */
    method ReconcileStored(id: AwId, aw: AppWrapper) returns (res: Result, ghost e: Event)
      requires Valid() && k.Valid() && k.clean && k.updated.None? && id in k.aws && k.aws[id] == aw
      modifies k
      ensures !e.Environment? && e.id == id && TellsTruly(k, e)
      ensures e.Idle? && !k.clean ==> res == if k.updated.Some? then Requeue else Failed
      ensures Reported(maxScaleoutAllowed, old(k.State()), e, res, k.clean, k.State())
      ensures Step(Context(), old(k.State()), e, k.State())
      ensures k.clean ==> Dispatched(BackendOf(machineType, strategy), old(k.State()), id, e)
      ensures Finalising(e) ==> k.updated.None? || k.updated == Some(e.dropped)
      ensures e.DropPools? && e.calls.connected ==> k.updated == Some(e.calls.stored)
    {
      if FINALIZER !in aw.finalizers {
        res, e := ReconcileNew(id, aw);
      } else if Ending(aw) {
        res, e := ReconcileEnding(id, aw);
      } else {
        res, e := ReconcileKept(id, aw);
      }
    }

    /** Lines 103-157: an AppWrapper that is gone is left alone. */
    method ReconcileChecked(id: AwId) returns (res: Result, ghost e: Event)
      requires Valid() && k.Valid() && k.clean && k.updated.None?
      modifies k
      ensures !e.Environment? && e.id == id && TellsTruly(k, e)
      ensures e.Idle? && !k.clean ==> res == if k.updated.Some? then Requeue else Failed
      ensures Reported(maxScaleoutAllowed, old(k.State()), e, res, k.clean, k.State())
      ensures Step(Context(), old(k.State()), e, k.State())
      ensures k.clean ==> Dispatched(BackendOf(machineType, strategy), old(k.State()), id, e)
      ensures Finalising(e) ==> k.updated.None? || k.updated == Some(e.dropped)
      ensures e.DropPools? && e.calls.connected ==> k.updated == Some(e.calls.stored)
    {
      e := Idle(id);
      var ok, found := k.GetAppWrapper(id);
      if !ok {
        return Failed, e;
      }
      match found {
        case None =>
          return Done, e;
        case Some(aw) =>
          res, e := ReconcileStored(id, aw);
      }
    }

    /** Reconcile: every call is one step of the state machine, and when no API call fails the step is
        the one the AppWrapper's state and the backend ask for. The event is clean if and only if no call failed.
        An event that drops the finalizer is one whose update of the AppWrapper went through, and a deletion
        pass that reached the pools tried that update. */
    method Reconcile(id: AwId) returns (res: Result, ghost e: Event)
      requires Valid() && k.Valid()
      modifies this`machineType, this`machineCheck, this`machineNameCharacterLimit, this`ocmClusterID, k
      ensures Valid() && k.Valid()
      ensures old(machineCheck) ==> machineCheck && machineType == old(machineType)
      ensures !e.Environment? && e.id == id && TellsTruly(k, e)
      ensures e.Idle? && !k.clean ==> res == if k.updated.Some? then Requeue else Failed
      ensures e != Idle(id) ==> machineCheck
      ensures Reported(maxScaleoutAllowed, old(k.State()), e, res, k.clean, k.State())
      ensures Step(Context(), old(k.State()), e, k.State())
      ensures k.clean ==> Dispatched(BackendOf(machineType, strategy), old(k.State()), id, e)
      ensures Finalising(e) ==> k.updated.None? || k.updated == Some(e.dropped)
      ensures e.DropPools? && e.calls.connected ==> k.updated == Some(e.calls.stored)
    {
      k.clean, k.updated, k.connected, k.listed := true, None, None, None;
      e := Idle(id);
      if !machineCheck && machineType != OfMachineSet {
        var failed := SetMachineType();
        if failed {
          return Failed, e;
        }
      }
      machineCheck := true;
      res, e := ReconcileChecked(id);
    }
  }

  // ----- the calls as steps -----

  /** The event of a finalisation, once it is known whether the finalizer went. */
  function FinishedEvent(e: Event, dropped: bool, clean: bool): Event
    requires Finalising(e)
  {
    match e
    case Release(id, marked, released, stuck, _, _) => Release(id, marked, released, stuck, dropped, clean)
    case Swap(id, heir, handed, handedNodes, _) => Swap(id, heir, handed, handedNodes, dropped)
    case Discard(id, deleted, _, _) => Discard(id, deleted, dropped, clean)
    case DropPools(id, calls, _, _) => DropPools(id, calls.(stored := dropped), dropped, clean)
    case LetGo(id, _) => LetGo(id, dropped)
  }

  lemma FinalisedSteps(c: Context, s: State, id: AwId, e1: Event, err: bool, clean1: bool, s1: State, dropped: bool,
        clean: bool, s2: State)
    requires s.Valid() && Finalizable(s, id)
    requires Finalised(c.backend, s, id, e1, err, clean1, s1)
    requires clean == (clean1 && (err || dropped)) && (dropped ==> !err)
    requires s2 == s1.(aws := if dropped then DropFinalizer(s.aws, id) else s.aws)
    ensures Step(c, s, FinishedEvent(e1, dropped, clean), s2)
    ensures Finalising(FinishedEvent(e1, dropped, clean)) && FinishedEvent(e1, dropped, clean).id == id
  {
    FinalisedValid(c, s, id, e1, err, clean1, s1);
    assert s2.Valid();
    if e1.Release? {
      ReleaseSteps(c, s, id, e1, err, clean1, s1, dropped, clean, s2);
    }
  }

  /** A finalisation and the update that drops the finalizer, if there was one, as one event. */
  lemma Finished(c: Context, s: State, id: AwId, e1: Event, err: bool, clean1: bool, s1: State, dropped: bool,
        clean: bool, s2: State)
    returns (e: Event)
    requires s.Valid() && Finalizable(s, id)
    requires Finalised(c.backend, s, id, e1, err, clean1, s1)
    requires clean == (clean1 && (err || dropped)) && (dropped ==> !err)
    requires s2 == s1.(aws := if dropped then DropFinalizer(s.aws, id) else s.aws)
    ensures Step(c, s, e, s2)
    ensures Finalising(e) && e.id == id && e.dropped == dropped && SameKind(e1, e)
    ensures e.Release? || e.Discard? || e.DropPools? ==> e.clean == clean
    ensures e.DropPools? ==> e.calls == e1.calls.(stored := dropped)
  {
    FinalisedSteps(c, s, id, e1, err, clean1, s1, dropped, clean, s2);
    e := FinishedEvent(e1, dropped, clean);
  }

  lemma ReleaseSteps(c: Context, s: State, id: AwId, e1: Event, err: bool, clean1: bool, s1: State, dropped: bool,
        clean: bool, s2: State)
    requires e1.Release? && Finalised(c.backend, s, id, e1, err, clean1, s1)
    requires clean == (clean1 && (err || dropped)) && (dropped ==> !err)
    requires s2 == s1.(aws := s2.aws)
    ensures ClaimsReleased(s, id, e1.marked, e1.released, e1.stuck, dropped, clean, s2)
  {
  }

  lemma FinalisedValid(c: Context, s: State, id: AwId, e1: Event, err: bool, clean1: bool, s1: State)
    requires s.Valid() && Finalizable(s, id)
    requires Finalised(c.backend, s, id, e1, err, clean1, s1)
    ensures s1.Valid()
  {
    FinalisedShape(c, s, id, e1, err, clean1, s1);
    ValidKept(s, s1);
  }

  lemma FinalisedShape(c: Context, s: State, id: AwId, e1: Event, err: bool, clean1: bool, s1: State)
    requires s.Valid() && Finalised(c.backend, s, id, e1, err, clean1, s1)
    ensures SameShape(s, s1) && s1.aws == s.aws
    ensures forall n | n in s1.machineSets :: Fits32(s1.machineSets[n].replicas)
  {
    if e1.Release? {
      GivenBackFits(s.machineSets, ClaimKey(id), e1.released, e1.stuck);
    }
  }

  lemma GivenBackFits(sets: map<string, MachineSet>, key: string, released: set<string>, stuck: set<string>)
    requires forall n | n in sets :: Fits32(sets[n].replicas)
    ensures forall n | n in sets :: Fits32(GiveBack(sets, key, released, stuck)[n].replicas)
  {
  }

  lemma AdoptSteps(c: Context, s: State, id: AwId, s1: State)
    requires s.Valid() && id in s.aws && FINALIZER !in s.aws[id].finalizers
    requires var aw := s.aws[id].(finalizers := s.aws[id].finalizers + [FINALIZER]);
             s1 == s.(aws := StoreAw(s.aws, id, aw))
    ensures Step(c, s, Adopt(id), s1)
  {
  }

  lemma ScaledSteps(c: Context, s: State, id: AwId, demand: map<string, int>, e: Event, s1: State)
    requires s.Valid() && Scalable(s.aws, id) && demand == DemandOf(s.aws[id]) && !e.Environment? && e.id == id
    requires match e
             case Idle(_) => s1 == s
             case Scale(_, _, _, _, _, _, _) => c.backend.Reuse? && ReuseScaled(c.maxNodes, s, demand, e, s1)
             case Copy(_, _, _, _) => c.backend.Duplicate? && Copied(s, demand, e, s1)
             case AddPools(_, _, _) => (c.backend.MachinePools? || c.backend.NodePools?) && PoolsAdded(s, demand, e, s1)
             case _ => false
    ensures Step(c, s, e, s1)
  {
    match e {
      case Scale(_, touched, touchedNodes, marked, _, act, clean) =>
        ScaledFits(c.maxNodes, s, demand, e, s1);
        GrownValid(s, demand, id, touched, touchedNodes, marked, clean, s1);
      case Copy(_, _, _, _) => CopiedValid(s, demand, e, s1);
      case AddPools(_, _, _) => PooledValid(s, demand, e, s1);
      case Idle(_) =>
    }
  }

  lemma CopiedValid(s: State, demand: map<string, int>, e: Event, s1: State)
    requires s.Valid() && e.Copy? && Copied(s, demand, e, s1)
    ensures s1.Valid()
  {
    assert SameShape(s, s1);
    if e.created.Some? {
      WrapLaws(demand[e.created.value.instance], 0);
    }
    ValidKept(s, s1);
  }

  lemma PooledValid(s: State, demand: map<string, int>, e: Event, s1: State)
    requires s.Valid() && e.AddPools? && PoolsAdded(s, demand, e, s1)
    ensures s1.Valid()
  {
    assert SameShape(s, s1);
    ValidKept(s, s1);
  }

  lemma ScaledFits(maxNodes: int, s: State, demand: map<string, int>, e: Event, s1: State)
    requires s.Valid() && e.Scale? && ReuseScaled(maxNodes, s, demand, e, s1)
    ensures forall n | n in s1.machineSets :: Fits32(s1.machineSets[n].replicas)
  {
    match e.act {
      case NoUpdate =>
      case Raise(_, _, _, _) => RaisedFits(maxNodes, s, demand, e, s1.machineSets);
      case Shrink(_, _) => ShrunkFits(s, demand, e, s1.machineSets);
    }
  }

  lemma RaisedFits(maxNodes: int, s: State, demand: map<string, int>, e: Event, sets': map<string, MachineSet>)
    requires forall n | n in s.machineSets :: Fits32(s.machineSets[n].replicas)
    requires e.Scale? && e.act.Raise? && Raised(maxNodes, s, demand, e, sets')
    ensures forall n | n in sets' :: Fits32(sets'[n].replicas)
  {
    var ms := s.machineSets[e.act.set_];
    WrapLaws(ms.replicas + demand[ms.instanceType] - e.act.counted, 0);
  }

  lemma ShrunkFits(s: State, demand: map<string, int>, e: Event, sets': map<string, MachineSet>)
    requires forall n | n in s.machineSets :: Fits32(s.machineSets[n].replicas)
    requires e.Scale? && e.act.Shrink? && Shrunk(s, demand, e, sets')
    ensures forall n | n in sets' :: Fits32(sets'[n].replicas)
  {
    if e.act.lowered.Some? {
      WrapLaws(s.machineSets[e.act.lowered.value].replicas - 1, 0);
    }
  }
}
