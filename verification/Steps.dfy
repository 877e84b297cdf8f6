/** The controller as a state machine. One event stands for one call of Reconcile, or for
    something the rest of the cluster did in between. The methods of the controller modules
    are proved to take only these steps; the theorems are about runs of these steps. */
module Steps {
  import opened GoPrimitives
  import opened Sums
  import opened Model

  datatype Backend = Reuse | Duplicate | MachinePools | NodePools | Unsupported

  datatype Context = Context(backend: Backend, maxNodes: int)

  /** What one pass of the reuse strategy does to the MachineSets. */
  datatype ReuseAct =
    | NoUpdate
    /** The claim is set: `counted` labelled running machines were subtracted, `gated` machines
        entered the scale gate, `before` were labelled earlier in the pass, for other MachineSets. */
    | Raise(set_: string, counted: nat, gated: nat, before: set<string>)
    /** The shrink path was taken at set_; `lowered` lost one replica. */
    | Shrink(set_: string, lowered: Option<string>)

  datatype NewCopy = NewCopy(instance: string, source: string)

  /** How the calls of a deletion pass over pools went: the connection, the listing, the deletions, of which
      those of the pools in `refused` failed, and the update of the AppWrapper. */
  datatype PoolCalls = PoolCalls(connected: bool, listed: bool, refused: set<string>, stored: bool)

  /** `clean` says that every API call of the pass succeeded,
      `dropped` that the finalizer was removed. */
  datatype Event =
    | Environment
    | Idle(id: AwId)
    | Adopt(id: AwId)
    /** `seen` are the MachineSets visited, with the one of the update. */
    | Scale(id: AwId, touched: set<string>, touchedNodes: set<string>, marked: set<string>, seen: set<string>,
        act: ReuseAct, clean: bool)
    | Release(id: AwId, marked: set<string>, released: set<string>, stuck: set<string>, dropped: bool, clean: bool)
    | Swap(id: AwId, heir: AwId, handed: set<string>, handedNodes: set<string>, dropped: bool)
    | Copy(id: AwId, created: Option<NewCopy>, copyNodes: set<string>, clean: bool)
    | Discard(id: AwId, deleted: set<string>, dropped: bool, clean: bool)
    | AddPools(id: AwId, pools: map<string, string>, clean: bool)
    | DropPools(id: AwId, calls: PoolCalls, dropped: bool, clean: bool)
    | LetGo(id: AwId, dropped: bool)

  // ----- reuse -----

  ghost predicate Gate(machines: map<string, Machine>, id: AwId, demand: map<string, int>, maxNodes: int) {
    Wrap32(|GateMachines(machines, id)| + SumValues(demand)) <= maxNodes
  }

  function CountedAt(machines: map<string, Machine>, before: set<string>, id: AwId, t: string): set<string> {
    Running(machines) * Carrying(LabelMachines(machines, before, AwLabel(id)), id, t)
  }

  /** The replicas of a MachineSet whose claim is set to d: d more, less the machines counted. */
  function RaisedTo(ms: MachineSet, d: int, counted: int): int {
    Wrap32(ms.replicas + d - counted)
  }

  ghost predicate Raised(maxNodes: int, s: State, demand: map<string, int>, e: Event, sets': map<string, MachineSet>)
    requires e.Scale? && e.act.Raise?
  {
    var key, n := ClaimKey(e.id), e.act.set_;
    && n in Pairs(s.machineSets, demand)
    && var ms := s.machineSets[n];
    var d := demand[ms.instanceType];
    var seen := CountedAt(s.machines, e.act.before, e.id, ms.instanceType);
    && LabelOf(ms.labels, key) != FormatInt(d)
    && !StrLess(FormatInt(d), LabelOf(ms.labels, key))
    && e.act.before <= e.touched
    && (forall m | m in e.act.before && m in s.machines :: LabelOf(s.machines[m].labels, OWNER_LABEL) != n)
    && (e.act.counted == 0 || e.act.counted == |seen|)
    && (e.act.gated == 0 || e.act.gated == |GateMachines(s.machines, e.id)|)
    && (e.clean ==> e.act.counted == |seen| && e.act.gated == |GateMachines(s.machines, e.id)|)
    && Wrap32(e.act.gated + SumValues(demand)) <= maxNodes
    && e.marked == {}
    && sets' == s.machineSets[n := ms.(
         replicas := RaisedTo(ms, d, e.act.counted),
         labels := ms.labels[key := FormatInt(d)])]
  }

  /** A MachineSet after losing one replica to a smaller demand. */
  function LoweredByOne(ms: MachineSet, id: AwId, d: int): MachineSet {
    ms.(replicas := Wrap32(ms.replicas - 1), labels := ms.labels[ClaimKey(id) := FormatInt(d)])
  }

  /** The machine is stored and so is the MachineSet it names as its owner. */
  predicate RemovableOwner(machines: map<string, Machine>, sets: map<string, MachineSet>, m: string) {
    m in machines && LabelOf(machines[m].labels, OWNER_LABEL) != "" && LabelOf(machines[m].labels, OWNER_LABEL) in sets
  }

  /** A node that the removal selects leads to a MachineSet. */
  predicate LeadsToOwner(machines: map<string, Machine>, nodes: map<string, Node>, sets: map<string, MachineSet>,
        id: AwId, t: string) {
    exists m | m in NamedByNodes(nodes, id, t) :: RemovableOwner(machines, sets, m)
  }

  /** The effect of the one-step removal, which found `running` labelled running machines: nothing unless
      they are more than demanded; and when no call fails a MachineSet is lowered if and only if they are and
      a selected node leads to one, and otherwise all machines that selected nodes name are marked. */
  ghost predicate ShrunkBy(s: State, id: AwId, t: string, d: int, running: nat, marked: set<string>,
        lowered: Option<string>, clean: bool, sets': map<string, MachineSet>)
  {
    && marked <= s.machines.Keys * NamedByNodes(s.nodes, id, t)
    && (marked != {} || lowered.Some? ==> d < running)
    && (clean && lowered.None? && d < running ==> marked == NamedByNodes(s.nodes, id, t))
    && (clean ==> (lowered.Some? <==> d < running && LeadsToOwner(s.machines, s.nodes, s.machineSets, id, t)))
    && match lowered {
         case None => sets' == s.machineSets
         case Some(o) =>
           && o in s.machineSets && NamedByNodes(s.nodes, id, t) != {}
           && (clean ==> exists m :: m in marked && LabelOf(s.machines[m].labels, OWNER_LABEL) == o)
           && sets' == s.machineSets[o := LoweredByOne(s.machineSets[o], id, d)]
       }
  }

  ghost predicate Shrunk(s: State, demand: map<string, int>, e: Event, sets': map<string, MachineSet>)
    requires e.Scale? && e.act.Shrink?
  {
    var n := e.act.set_;
    && n in Pairs(s.machineSets, demand)
    && var t := s.machineSets[n].instanceType;
    && StrLess(FormatInt(demand[t]), LabelOf(s.machineSets[n].labels, ClaimKey(e.id)))
    && ShrunkBy(s, e.id, t, demand[t], |CountedAt(s.machines, e.touched, e.id, t)|, e.marked, e.act.lowered, e.clean,
                sets')
  }

  /** Labels and deletion marks written by a pass: only onto eligible machines and their nodes, and,
      when no call failed, never past the demand of a type that was within it. */
  ghost predicate Grown(s: State, demand: map<string, int>, id: AwId, touched: set<string>,
        touchedNodes: set<string>, marked: set<string>, clean: bool, s': State) {
    && s'.aws == s.aws && s'.pools == s.pools
    && s'.machines == MarkMachines(LabelMachines(s.machines, touched, AwLabel(id)), marked)
    && s'.nodes == LabelNodes(s.nodes, touchedNodes, AwLabel(id))
    && touched <= Eligible(s, demand)
    && touchedNodes <= NodeNames(s.machines, touched)
    && (clean ==> touchedNodes == NodeNames(s.machines, touched))
    && (clean ==> forall t | t in demand ::
          |Carrying(s.machines, id, t)| <= demand[t] ==> |Carrying(s'.machines, id, t)| <= demand[t])
  }

  /** The machines that the pass, after labelling, found running with the label, of the type of MachineSet n. */
  function FoundRunning(s: State, e: Event, n: string): nat
    requires e.Scale? && n in s.machineSets
  {
    |CountedAt(s.machines, e.touched, e.id, s.machineSets[n].instanceType)|
  }

  /** The pass has business at MachineSet n: none of the MachineSets visited, n among them, has the claim set, or
      another number of machines runs with the label than is demanded. */
  ghost predicate Due(s: State, demand: map<string, int>, e: Event, n: string)
    requires e.Scale? && n in Pairs(s.machineSets, demand)
  {
    || (forall o | o in e.seen && o in s.machineSets :: !ClaimMatches(s.machineSets[o], e.id, demand))
    || FoundRunning(s, e, n) != demand[s.machineSets[n].instanceType]
  }

  /** The pass stopped at n to wait for machines: the claim is set there, and they are not as many as demanded. */
  ghost predicate Waits(s: State, demand: map<string, int>, e: Event, n: string)
    requires e.Scale?
  {
    && n in e.seen && n in Pairs(s.machineSets, demand) && ClaimMatches(s.machineSets[n], e.id, demand)
    && FoundRunning(s, e, n) != demand[s.machineSets[n].instanceType]
  }

  /** The MachineSets after a pass. When no call failed: a pass that writes nothing visited every demanded
      MachineSet or stopped, with the gate open, to wait for machines, and with the gate open it found the claim
      set somewhere if there was any demanded MachineSet; and a pass updates a MachineSet only with the gate open
      and where it has business. */
  ghost predicate ReuseActed(maxNodes: int, s: State, demand: map<string, int>, e: Event,
        sets': map<string, MachineSet>)
    requires e.Scale?
  {
    match e.act {
      case NoUpdate =>
        && sets' == s.machineSets && e.marked == {}
        && (e.clean && Gate(s.machines, e.id, demand, maxNodes) && Pairs(s.machineSets, demand) != {} ==>
              exists n :: n in s.machineSets && ClaimMatches(s.machineSets[n], e.id, demand))
        && (e.clean ==>
              || e.seen == Pairs(s.machineSets, demand)
              || (Gate(s.machines, e.id, demand, maxNodes) && exists n :: Waits(s, demand, e, n)))
      case Raise(n, _, _, _) => Raised(maxNodes, s, demand, e, sets') && (e.clean ==> Due(s, demand, e, n))
      case Shrink(n, _) =>
        && Shrunk(s, demand, e, sets')
        && (e.clean ==> Gate(s.machines, e.id, demand, maxNodes) && Due(s, demand, e, n))
    }
  }

  /** Labelling has come to its end at MachineSet n of type t: the number of machines that carry the label is the
      demand, or all running machines of the MachineSet carry it. */
  ghost predicate Filled(machines: map<string, Machine>, id: AwId, t: string, n: string, d: int) {
    |Carrying(machines, id, t)| == d || Running(machines) * MachinesOf(machines, t, n) <= Carrying(machines, id, t)
  }

  ghost predicate FilledAt(sets: map<string, MachineSet>, machines: map<string, Machine>, demand: map<string, int>,
        id: AwId, n: string)
    requires n in Pairs(sets, demand)
  {
    Filled(machines, id, sets[n].instanceType, n, demand[sets[n].instanceType])
  }

  ghost predicate FilledIn(sets: map<string, MachineSet>, machines: map<string, Machine>, demand: map<string, int>,
        id: AwId, seen: set<string>) {
    forall n | n in seen :: n in Pairs(sets, demand) && FilledAt(sets, machines, demand, id, n)
  }

  /** A pass visits MachineSets of demanded types, the one it updates among them; when no call fails it labels to
      the end at each, and it visits one if there is one. */
  ghost predicate Fills(s: State, demand: map<string, int>, e: Event, s': State)
    requires e.Scale?
  {
    && e.seen <= Pairs(s.machineSets, demand)
    && (!e.act.NoUpdate? ==> e.act.set_ in e.seen)
    && (e.clean ==>
          && (Pairs(s.machineSets, demand) != {} ==> e.seen != {})
          && FilledIn(s.machineSets, s'.machines, demand, e.id, e.seen))
  }

  /** One pass of the reuse strategy for a pending AppWrapper with the given demand. */
  ghost predicate ReuseScaled(maxNodes: int, s: State, demand: map<string, int>, e: Event, s': State)
    requires e.Scale?
  {
    && Grown(s, demand, e.id, e.touched, e.touchedNodes, e.marked, e.clean, s')
    && ReuseActed(maxNodes, s, demand, e, s'.machineSets)
    && Fills(s, demand, e, s')
  }

  predicate Dropped(s: State, id: AwId, dropped: bool, s': State) {
    id in s.aws && s'.aws == if dropped then DropFinalizer(s.aws, id) else s.aws
  }

  predicate ClaimsParse(sets: map<string, MachineSet>, key: string) {
    forall n | n in Holders(sets, key) :: Atoi(sets[n].labels[key]).Some?
  }

  /** The ledger half of the finalisation: each holder is released, stuck, or not reached. */
  ghost predicate ClaimsGivenBack(sets: map<string, MachineSet>, key: string, released: set<string>,
        stuck: set<string>, ok: bool, clean: bool, sets': map<string, MachineSet>) {
    && released + stuck <= Holders(sets, key)
    && released * stuck == {} && |stuck| <= 1
    && sets' == GiveBack(sets, key, released, stuck)
    && (ok ==> released == Holders(sets, key) && stuck == {})
    && (clean ==> stuck == {})
    && (clean && ClaimsParse(sets, key) ==> ok)
  }

  /** annotateToDeleteMachine. */
  ghost predicate ClaimsReleased(s: State, id: AwId, marked: set<string>, released: set<string>, stuck: set<string>,
        ok: bool, clean: bool, s': State) {
    && s'.nodes == s.nodes && s'.pools == s.pools
    && marked <= Reached(s.machines, s.nodes, AwLabel(id))
    && (clean ==> marked == Reached(s.machines, s.nodes, AwLabel(id)))
    && s'.machines == MarkMachines(s.machines, marked)
    && ClaimsGivenBack(s.machineSets, ClaimKey(id), released, stuck, ok, clean, s'.machineSets)
  }

  /** swapNodeLabels: machines that carry the bare old name, and their nodes, change labels, all of them
      unless there was an error. */
  ghost predicate Swapped(s: State, id: AwId, heir: AwId, handed: set<string>, handedNodes: set<string>, ok: bool,
        s': State) {
    && s'.machineSets == s.machineSets && s'.pools == s.pools
    && s'.machines == SwapMachines(s.machines, handed, id, heir)
    && s'.nodes == SwapNodes(s.nodes, handedNodes, id, heir)
    && handed <= Select(s.machines, map[id.name := id.name])
    && handedNodes <= NodeNames(s.machines, handed)
    && (forall m | m in handed :: AwLabel(id) in s.machines[m].labels)
    && (forall x | x in handedNodes :: x in s.nodes && AwLabel(id) in s.nodes[x].labels)
    && (ok ==> handed == Select(s.machines, map[id.name := id.name]) && handedNodes == NodeNames(s.machines, handed))
  }

  // ----- duplicate -----

  function CopyName(id: AwId, t: string): string {
    AwLabel(id) + "-" + t
  }

  function CopyOf(source: MachineSet, id: AwId, d: int): MachineSet {
    source.(
      replicas := Wrap32(d),
      available := 0,
      taints := [id.name],
      templateLabels := map[id.name := id.name],
      selector := map[id.name := id.name],
      labels := source.labels[COPY_LABEL := AwLabel(id)])
  }

  /** MachineSets labelled as copies made for the AppWrapper. */
  function Copies(sets: map<string, MachineSet>, id: AwId): set<string> {
    set n | n in sets && Matches(map[COPY_LABEL := AwLabel(id)], sets[n].labels)
  }

  predicate HasTemplate(sets: map<string, MachineSet>, t: string) {
    exists n :: n in sets && sets[n].instanceType == t
  }

  /** The AppWrapper's copy for type t is there, and as many machines are available in it as are demanded. */
  predicate CopyReady(sets: map<string, MachineSet>, id: AwId, t: string, d: int) {
    CopyName(id, t) in Copies(sets, id) && Wrap32(d - sets[CopyName(id, t)].available) == 0
  }

  /** Every demanded type that has a template has its copy ready. */
  ghost predicate CopiesReady(sets: map<string, MachineSet>, id: AwId, demand: map<string, int>) {
    forall n | n in Pairs(sets, demand) :: CopyReady(sets, id, sets[n].instanceType, demand[sets[n].instanceType])
  }

  /** The MachineSets after a pass: one copy more, or, when no call failed, all copies are ready, or one copy
      is waited for. */
  ghost predicate CreatedOrWaits(sets: map<string, MachineSet>, demand: map<string, int>, e: Event,
        sets': map<string, MachineSet>)
    requires e.Copy?
  {
    match e.created {
      case None =>
        && sets' == sets
        && (e.clean ==>
              || CopiesReady(sets, e.id, demand)
              || (exists t :: t in demand && CopyName(e.id, t) in Copies(sets, e.id)
                    && Wrap32(demand[t] - sets[CopyName(e.id, t)].available) != 0))
      case Some(NewCopy(t, source)) =>
        && t in demand && source in sets && sets[source].instanceType == t
        && CopyName(e.id, t) !in sets
        && sets' == sets[CopyName(e.id, t) := CopyOf(sets[source], e.id, demand[t])]
    }
  }

  /** The nodes of the machines that carry the label of copies. */
  function CopyNodes(machines: map<string, Machine>, id: AwId): set<string> {
    NodeNames(machines, Select(machines, map[COPY_LABEL := AwLabel(id)]))
  }

  /** Nodes of machines were labelled; when no call failed, none or those of the machines of copies. */
  predicate CopyNodesLabelled(machines: map<string, Machine>, id: AwId, labelled: set<string>, clean: bool) {
    && labelled <= NodeNames(machines, machines.Keys)
    && (clean ==> labelled == {} || labelled == CopyNodes(machines, id))
  }

  ghost predicate Copied(s: State, demand: map<string, int>, e: Event, s': State)
    requires e.Copy?
  {
    && s'.aws == s.aws && s'.pools == s.pools && s'.machines == s.machines
    && s'.nodes == LabelNodes(s.nodes, e.copyNodes, AwLabel(e.id))
    && CopyNodesLabelled(s.machines, e.id, e.copyNodes, e.clean)
    && CreatedOrWaits(s.machineSets, demand, e, s'.machineSets)
  }

  ghost predicate Discarded(s: State, id: AwId, deleted: set<string>, ok: bool, clean: bool, s': State) {
    && s'.machines == s.machines && s'.nodes == s.nodes && s'.pools == s.pools
    && deleted <= Copies(s.machineSets, id)
    && s'.machineSets == s.machineSets - deleted
    && (ok ==> deleted == Copies(s.machineSets, id))
    && (clean ==> ok)
  }

  // ----- pools -----

  /** hasAwLabel */
  predicate HasAwLabel(labels: Labels, id: AwId) {
    AwLabel(id) in labels && labels[AwLabel(id)] == AwLabel(id)
  }

  function OwnedPools(pools: map<string, Pool>, id: AwId): set<string> {
    set p | p in pools && HasAwLabel(pools[p].labels, id)
  }

  function PoolsFor(pools: map<string, Pool>, id: AwId, t: string): set<string> {
    set p | p in OwnedPools(pools, id) && pools[p].instanceType == t
  }

  function NewPool(id: AwId, t: string, d: int): Pool {
    Pool(t, d, map[AwLabel(id) := AwLabel(id)])
  }

  /** Whether `d` machines of type t are what the pool seen first, or its absence, amounts to.
      More than one pool may qualify, and any of them may be seen first. */
  predicate MayDiffer(pools: map<string, Pool>, id: AwId, t: string, d: int) {
    if PoolsFor(pools, id, t) == {} then d != 0 else exists p | p in PoolsFor(pools, id, t) :: pools[p].replicas != d
  }

  predicate MayAgree(pools: map<string, Pool>, id: AwId, t: string, d: int) {
    if PoolsFor(pools, id, t) == {} then d == 0 else exists p | p in PoolsFor(pools, id, t) :: pools[p].replicas == d
  }

  ghost predicate PoolsAdded(s: State, demand: map<string, int>, e: Event, s': State)
    requires e.AddPools?
  {
    && s'.aws == s.aws && s'.machineSets == s.machineSets && s'.machines == s.machines && s'.nodes == s.nodes
    && e.pools.Keys !! s.pools.Keys
    && (forall p | p in e.pools :: e.pools[p] in demand && MayDiffer(s.pools, e.id, e.pools[p], demand[e.pools[p]]))
    && (forall p, q | p in e.pools && q in e.pools && e.pools[p] == e.pools[q] :: p == q)
    && (e.clean ==> forall t | t in demand && t !in e.pools.Values :: MayAgree(s.pools, e.id, t, demand[t]))
    && s'.pools.Keys == s.pools.Keys + e.pools.Keys
    && (forall p | p in s.pools :: s'.pools[p] == s.pools[p])
    && (forall p | p in e.pools :: s'.pools[p] == NewPool(e.id, e.pools[p], demand[e.pools[p]]))
  }

  /** The pools a deletion pass gets rid of. */
  function GonePools(pools: map<string, Pool>, id: AwId, calls: PoolCalls): set<string> {
    if calls.connected && calls.listed then OwnedPools(pools, id) - calls.refused else {}
  }

  ghost predicate PoolsDropped(s: State, id: AwId, calls: PoolCalls, s': State) {
    && s'.machineSets == s.machineSets && s'.machines == s.machines && s'.nodes == s.nodes
    && calls.refused <= OwnedPools(s.pools, id)
    && (!calls.connected || !calls.listed ==> calls.refused == {})
    && s'.pools == s.pools - GonePools(s.pools, id, calls)
  }

  /** Every call of a deletion pass succeeded. */
  predicate AllCallsWell(calls: PoolCalls) {
    calls.connected && calls.listed && calls.refused == {} && calls.stored
  }

  // ----- environment -----

  predicate NoOwnKeys(labels: Labels) {
    forall k | k in labels :: !OwnKey(k)
  }

  predicate SameOwnKeys(a: Labels, b: Labels) {
    && (forall k | k in a && OwnKey(k) :: k in b && b[k] == a[k])
    && (forall k | k in b && OwnKey(k) :: k in a)
  }

  /** Anything may happen between two reconciles, except that only the controller takes off its
      finalizer and writes its own MachineSet labels, and instance types do not change. */
  ghost predicate EnvStep(s: State, s': State) {
    && (forall id | Held(s.aws, id) :: Held(s'.aws, id))
    && (forall n | n in s'.machineSets ::
          if n in s.machineSets
          then s'.machineSets[n].instanceType == s.machineSets[n].instanceType
               && SameOwnKeys(s.machineSets[n].labels, s'.machineSets[n].labels)
          else NoOwnKeys(s'.machineSets[n].labels))
  }

  // ----- steps and runs -----

  predicate Finalizable(s: State, id: AwId) {
    Held(s.aws, id) && Ending(s.aws[id])
  }

  ghost predicate Step(c: Context, s: State, e: Event, s': State) {
    && s.Valid() && s'.Valid()
    && match e {
         case Environment => EnvStep(s, s')
         case Idle(_) => s' == s
         case Adopt(id) =>
           && id in s.aws && FINALIZER !in s.aws[id].finalizers
           && s' == s.(aws := s.aws[id := s.aws[id].(finalizers := s.aws[id].finalizers + [FINALIZER])])
         case Scale(id, _, _, _, _, _, _) =>
           c.backend.Reuse? && Scalable(s.aws, id) && ReuseScaled(c.maxNodes, s, DemandOf(s.aws[id]), e, s')
         case Release(id, marked, released, stuck, dropped, clean) =>
           && c.backend.Reuse? && Finalizable(s, id) && Dropped(s, id, dropped, s')
           && (clean ==> forall h :: !HeirFor(s.aws, id, h))
           && ClaimsReleased(s, id, marked, released, stuck, dropped, clean, s')
         case Swap(id, heir, handed, handedNodes, dropped) =>
           && c.backend.Reuse? && Finalizable(s, id) && Dropped(s, id, dropped, s')
           && HeirFor(s.aws, id, heir) && Swapped(s, id, heir, handed, handedNodes, dropped, s')
         case Copy(id, _, _, _) =>
           c.backend.Duplicate? && Scalable(s.aws, id) && Copied(s, DemandOf(s.aws[id]), e, s')
         case Discard(id, deleted, dropped, clean) =>
           && c.backend.Duplicate? && Finalizable(s, id) && Dropped(s, id, dropped, s')
           && Discarded(s, id, deleted, dropped, clean, s')
         case AddPools(id, _, _) =>
           (c.backend.MachinePools? || c.backend.NodePools?) && Scalable(s.aws, id)
               && PoolsAdded(s, DemandOf(s.aws[id]), e, s')
         case DropPools(id, calls, dropped, clean) =>
           && (c.backend.MachinePools? || c.backend.NodePools?) && Finalizable(s, id) && Dropped(s, id, dropped, s')
           && dropped == (calls.connected && calls.stored) && clean == AllCallsWell(calls)
           && PoolsDropped(s, id, calls, s')
         case LetGo(id, dropped) =>
           && c.backend.Unsupported? && Finalizable(s, id) && Dropped(s, id, dropped, s')
           && s' == s.(aws := s'.aws)
       }
  }

  /** states[i] is the cluster before events[i], states[i + 1] after it. */
  ghost predicate Run(c: Context, states: seq<State>, events: seq<Event>) {
    |states| == |events| + 1 && forall i: nat | i < |events| :: StepTaken(c, states, events, i)
  }

  ghost predicate StepTaken(c: Context, states: seq<State>, events: seq<Event>, i: nat)
    requires |states| == |events| + 1 && i < |events|
  {
    Step(c, states[i], events[i], states[i + 1])
  }

  lemma StepAt(c: Context, states: seq<State>, events: seq<Event>, i: nat)
    requires Run(c, states, events) && i < |events|
    ensures Step(c, states[i], events[i], states[i + 1])
  {
    assert StepTaken(c, states, events, i);
  }

  lemma LastStep(c: Context, states: seq<State>, events: seq<Event>, k: nat)
    requires Run(c, states, events) && 0 < k <= |events|
    ensures Step(c, states[k - 1], events[k - 1], states[k])
  {
    StepAt(c, states, events, k - 1);
    assert states[k - 1 + 1] == states[k];
  }

  /** Induction over a run: what holds at first and is kept by each step holds throughout. */
  lemma {:induction false} Throughout(inv: State -> bool, states: seq<State>, k: nat)
    requires k < |states| && inv(states[0])
    requires forall i | 0 <= i < |states| - 1 :: inv(states[i]) ==> inv(states[i + 1])
    ensures inv(states[k])
  {
    if k > 0 {
      Throughout(inv, states, k - 1);
      assert inv(states[k - 1]) ==> inv(states[k - 1 + 1]);
    }
  }
}
