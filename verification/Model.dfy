/** The objects the controller reads and writes, the keys it writes them under, and the
    state of the whole cluster as one value. */
module Model {
  import opened GoPrimitives
  import opened Sums

  type Labels = map<string, string>

  // ----- keys -----

  const TYPE_LABEL := "machine.openshift.io/instance-type"
  const OWNER_LABEL := "machine.openshift.io/cluster-api-machineset"
  const NODE_TYPE_LABEL := "node.kubernetes.io/instance-type"
  const MACHINE_ANNOTATION := "machine.openshift.io/machine"
  const DELETE_ANNOTATION := "machine.openshift.io/cluster-api-delete-machine"
  const ORDERED_INSTANCE := "orderedinstance"
  const FINALIZER := "instascale.codeflare.dev/finalizer"
  const OWN_PREFIX := "instascale.codeflare.dev-"
  const COPY_LABEL := "instascale.codeflare.dev-aw"

  const PENDING := "Pending"
  const COMPLETED := "Completed"

  // ----- objects -----

  datatype AwId = AwId(name: string, namespace: string)

  /** An AppWrapper: `items` holds, per generic item, the replicas of its pod templates. */
  datatype AppWrapper = AppWrapper(
    labels: Labels, items: seq<seq<int>>, state: string, conditions: seq<string>,
    finalizers: seq<string>, deleting: bool)

  datatype MachineSet = MachineSet(
    instanceType: string, replicas: int, available: int, labels: Labels,
    taints: seq<string>, templateLabels: Labels, selector: Labels)

  datatype Machine = Machine(phase: string, labels: Labels, annotations: Labels, nodeName: string)

  datatype Node = Node(labels: Labels, annotations: Labels)

  /** A machine pool or a node pool. */
  datatype Pool = Pool(instanceType: string, replicas: int, labels: Labels)

  /** Kubernetes object names contain no slash and are not empty. */
  predicate ValidId(id: AwId) {
    id.name != "" && id.namespace != "" && '/' !in id.name && '/' !in id.namespace
  }

  /** The label naming an AppWrapper on machines, nodes and pools: key and value alike. */
  function AwLabel(id: AwId): string {
    id.name + "-" + id.namespace
  }

  /** The MachineSet label holding the AppWrapper's claim. */
  function ClaimKey(id: AwId): string {
    OWN_PREFIX + AwLabel(id)
  }

  predicate OwnKey(key: string) {
    OWN_PREFIX <= key
  }

  lemma KeysApart(id: AwId)
    requires ValidId(id)
    ensures AwLabel(id) != TYPE_LABEL && AwLabel(id) != OWNER_LABEL && AwLabel(id) != NODE_TYPE_LABEL
    ensures AwLabel(id) != id.name
    ensures OwnKey(ClaimKey(id)) && OwnKey(COPY_LABEL)
    ensures ClaimKey(id) != COPY_LABEL
  {
    assert '/' !in AwLabel(id);
    assert TYPE_LABEL[20] == '/' && OWNER_LABEL[20] == '/' && NODE_TYPE_LABEL[18] == '/';
    assert |AwLabel(id)| > |id.name|;
    assert AwLabel(id)[|id.name|] == '-';
    assert ClaimKey(id)[|OWN_PREFIX|..] == AwLabel(id);
    assert COPY_LABEL[|OWN_PREFIX|..] == "aw";
    assert '-' !in "aw";
  }

  lemma ClaimKeyInjective(a: AwId, b: AwId)
    requires ClaimKey(a) == ClaimKey(b)
    ensures AwLabel(a) == AwLabel(b)
  {
    assert ClaimKey(a)[|OWN_PREFIX|..] == AwLabel(a);
    assert ClaimKey(b)[|OWN_PREFIX|..] == AwLabel(b);
  }

  /** Two AppWrappers can share one label, and so one claim: hence the hypothesis
      of distinct labels in the theorems about several AppWrappers. */
  lemma LabelsCanCollide()
    ensures var a, b := AwId("a-b", "c"), AwId("a", "b-c");
            a != b && ValidId(a) && ValidId(b) && ClaimKey(a) == ClaimKey(b)
  {
    assert AwLabel(AwId("a-b", "c")) == "a-b-c" == AwLabel(AwId("a", "b-c"));
  }

  /** The dash between name and namespace of b is one inside the name of a, whose namespace ends that of b. */
  predicate DashMoved(a: AwId, b: AwId) {
    && |b.name| < |a.name|
    && var w := a.name[|b.name| + 1..];
    a.name == b.name + "-" + w && b.namespace == w + "-" + a.namespace
  }

  /** Two AppWrappers share a label if and only if they are the same or the separating dash moved. */
  lemma LabelsCollideIff(a: AwId, b: AwId)
    ensures ClaimKey(a) == ClaimKey(b) <==> AwLabel(a) == AwLabel(b)
    ensures AwLabel(a) == AwLabel(b) <==> a == b || DashMoved(a, b) || DashMoved(b, a)
  {
    if ClaimKey(a) == ClaimKey(b) {
      ClaimKeyInjective(a, b);
    }
    if |a.name| == |b.name| {
      SplitAtDash(a, b);
    } else if |b.name| < |a.name| {
      LabelsMove(a, b);
    } else {
      LabelsMove(b, a);
    }
  }

  lemma SplitAtDash(a: AwId, b: AwId)
    requires |a.name| == |b.name|
    ensures AwLabel(a) == AwLabel(b) <==> a == b
  {
    var n := |a.name|;
    assert AwLabel(a)[..n] == a.name && AwLabel(a)[n + 1..] == a.namespace;
    assert AwLabel(b)[..n] == b.name && AwLabel(b)[n + 1..] == b.namespace;
  }

  lemma LabelsMove(a: AwId, b: AwId)
    requires |b.name| < |a.name|
    ensures AwLabel(a) == AwLabel(b) <==> DashMoved(a, b)
  {
    var n, w := |b.name|, a.name[|b.name| + 1..];
    if AwLabel(a) == AwLabel(b) {
      assert AwLabel(b)[..n] == b.name && AwLabel(b)[n] == '-' && AwLabel(b)[n + 1..] == b.namespace;
      assert AwLabel(a)[..n] == a.name[..n] && AwLabel(a)[n] == a.name[n];
      assert AwLabel(a)[n + 1..] == w + "-" + a.namespace;
      assert a.name == a.name[..n] + [a.name[n]] + w;
    }
    if DashMoved(a, b) {
      assert AwLabel(a) == b.name + "-" + (w + "-" + a.namespace) == AwLabel(b);
    }
  }

  // ----- selectors -----

  predicate Matches(selector: Labels, labels: Labels) {
    forall k | k in selector :: k in labels && labels[k] == selector[k]
  }

  /** labels[k] as Go reads it: "" when absent. */
  function LabelOf(labels: Labels, k: string): string {
    if k in labels then labels[k] else ""
  }

  function AwSelector(id: AwId, t: string): Labels {
    map[AwLabel(id) := AwLabel(id), TYPE_LABEL := t]
  }

  function OwnerSelector(t: string, set_: string): Labels {
    map[TYPE_LABEL := t, OWNER_LABEL := set_]
  }

  function Select(machines: map<string, Machine>, selector: Labels): set<string> {
    set n | n in machines && Matches(selector, machines[n].labels)
  }

  function Running(machines: map<string, Machine>): set<string> {
    set n | n in machines && machines[n].phase == "Running"
  }

  function NotDeleting(machines: map<string, Machine>): set<string> {
    set n | n in machines && machines[n].phase != "Deleting"
  }

  /** Machines of type t carrying the AppWrapper's label, in any phase. */
  function Carrying(machines: map<string, Machine>, id: AwId, t: string): set<string> {
    Select(machines, AwSelector(id, t))
  }

  /** Machines of type t, run by the named MachineSet. */
  function MachinesOf(machines: map<string, Machine>, t: string, set_: string): set<string> {
    Select(machines, OwnerSelector(t, set_))
  }

  /** The machines the scale gate counts; it selects on the bare AppWrapper name. */
  function GateMachines(machines: map<string, Machine>, id: AwId): set<string> {
    Select(machines, map[id.name := id.name]) * NotDeleting(machines)
  }

  // ----- claims -----

  /** The number a label stands for: 0 when absent or not a number. */
  function ClaimIn(labels: Labels, key: string): int {
    if key in labels && Atoi(labels[key]).Some? then Atoi(labels[key]).value else 0
  }

  function ClaimKeys(labels: Labels): set<string> {
    set k | k in labels && OwnKey(k) && k != COPY_LABEL
  }

  ghost function ClaimTotal(labels: Labels): int {
    Sum(ClaimKeys(labels), k => ClaimIn(labels, k))
  }

  // ----- demand -----

  /** getInstanceRequired */
  function InstanceRequired(labels: Labels): seq<string> {
    if ORDERED_INSTANCE in labels then Split(labels[ORDERED_INSTANCE], '_') else []
  }

  /** The map after writing the first n pod templates of item `item` over `base`. */
  function AddPods(base: map<string, int>, names: seq<string>, pods: seq<int>, item: nat, n: nat): map<string, int>
    requires n <= |pods|
  {
    if n == 0 then base
    else
      var m := AddPods(base, names, pods, item, n - 1);
      if n - 1 + item < |names| then m[names[n - 1 + item] := pods[n - 1]] else m
  }

  /** The map after writing the first n items. */
  function AddItems(names: seq<string>, items: seq<seq<int>>, n: nat): map<string, int>
    requires n <= |items|
  {
    if n == 0 then map[]
    else AddPods(AddItems(names, items, n - 1), names, items[n - 1], n - 1, |items[n - 1]|)
  }

  /** Replica numbers are Go ints. */
  predicate GoInts(items: seq<seq<int>>) {
    forall i, j | 0 <= i < |items| && 0 <= j < |items[i]| :: Fits64(items[i][j])
  }

  /** What discoverInstanceTypes computes. */
  function DemandOf(aw: AppWrapper): map<string, int> {
    AddItems(InstanceRequired(aw.labels), aw.items, |aw.items|)
  }

  // ----- the cluster -----

  datatype State = State(
    aws: map<AwId, AppWrapper>,
    machineSets: map<string, MachineSet>,
    machines: map<string, Machine>,
    nodes: map<string, Node>,
    pools: map<string, Pool>)
  {
    /** What the API server and the machine controllers guarantee. */
    predicate Valid() {
      && (forall id | id in aws :: ValidId(id) && GoInts(aws[id].items))
      && (forall n | n in machineSets :: Fits32(machineSets[n].replicas))
      && NodesNameMachines(nodes)
      && RunningHaveNodes(machines, nodes)
    }
  }

  /** The machine a node names in its annotation "namespace/name". */
  function MachineOfNode(node: Node): Option<string> {
    if MACHINE_ANNOTATION in node.annotations
    then
      var parts := Split(node.annotations[MACHINE_ANNOTATION], '/');
      if |parts| >= 2 then Some(parts[1]) else None
    else None
  }

  predicate NodesNameMachines(nodes: map<string, Node>) {
    forall n | n in nodes && MACHINE_ANNOTATION in nodes[n].annotations :: MachineOfNode(nodes[n]).Some?
  }

  predicate NodeOf(nodes: map<string, Node>, nodeName: string, machine: string) {
    nodeName in nodes && MachineOfNode(nodes[nodeName]) == Some(machine)
  }

  /** A Running machine has its node. */
  predicate RunningHaveNodes(machines: map<string, Machine>, nodes: map<string, Node>) {
    forall m | m in machines && machines[m].phase == "Running" :: NodeOf(nodes, machines[m].nodeName, m)
  }

  // ----- effects of writes -----

  function LabelMachines(machines: map<string, Machine>, touched: set<string>, key: string): map<string, Machine> {
    map n | n in machines ::
      if n in touched then machines[n].(labels := machines[n].labels[key := key]) else machines[n]
  }

  function LabelNodes(nodes: map<string, Node>, touched: set<string>, key: string): map<string, Node> {
    map n | n in nodes ::
      if n in touched then nodes[n].(labels := nodes[n].labels[key := key]) else nodes[n]
  }

  /** Ask the machine controller to prefer these machines when it scales down. */
  function MarkMachines(machines: map<string, Machine>, marked: set<string>): map<string, Machine> {
    map n | n in machines ::
      if n in marked then machines[n].(annotations := machines[n].annotations[DELETE_ANNOTATION := "true"])
           else machines[n]
  }

  function NodeNames(machines: map<string, Machine>, touched: set<string>): set<string> {
    set n | n in touched && n in machines :: machines[n].nodeName
  }

  /** A MachineSet that gave back its claim, and lost the label if all went well. */
  function GivenBack(ms: MachineSet, key: string, ok: bool): MachineSet {
    ms.(replicas := Wrap32(ms.replicas - ClaimIn(ms.labels, key)), labels := if ok then ms.labels - {key}
        else ms.labels)
  }

  /** Finalisation: `released` MachineSets give back the claim and lose the label,
      `stuck` ones give it back but keep the label. */
  function GiveBack(sets: map<string, MachineSet>, key: string, released: set<string>,
        stuck: set<string>): map<string, MachineSet> {
    map n | n in sets :: if n in released + stuck then GivenBack(sets[n], key, n in released) else sets[n]
  }

  function Holders(sets: map<string, MachineSet>, key: string): set<string> {
    set n | n in sets && key in sets[n].labels
  }

  /** The non-Deleting machines reached through nodes that carry the label. */
  function Reached(machines: map<string, Machine>, nodes: map<string, Node>, key: string): set<string> {
    set n | n in nodes && key in nodes[n].labels && nodes[n].labels[key] == key
            && MachineOfNode(nodes[n]).Some?
            && MachineOfNode(nodes[n]).value in NotDeleting(machines)
         :: MachineOfNode(nodes[n]).value
  }

  /** Machines named by the nodes the one-step removal selects: they carry the bare AppWrapper name. */
  function NamedByNodes(nodes: map<string, Node>, id: AwId, t: string): set<string> {
    set n | n in nodes && Matches(map[id.name := id.name, NODE_TYPE_LABEL := t], nodes[n].labels)
        && MachineOfNode(nodes[n]).Some?
          :: MachineOfNode(nodes[n]).value
  }

  // ----- hand-over -----

  /** One JSON patch that removes one label and adds another. */
  function SwapLabels(labels: Labels, gone: string, key: string, value: string): Labels {
    (labels - {gone})[key := value]
  }

  /** The machines after `handed` of them went from one AppWrapper to another: the new label has the bare
      name as its value, unlike every other label. */
  function SwapMachines(machines: map<string, Machine>, handed: set<string>, old_: AwId,
        new_: AwId): map<string, Machine> {
    map n | n in machines ::
      if n in handed
      then machines[n].(labels := SwapLabels(machines[n].labels, AwLabel(old_), AwLabel(new_), new_.name))
      else machines[n]
  }

  /** The label a hand-over puts on nodes: the new name, but the old namespace. */
  function NodeHeirLabel(old_: AwId, new_: AwId): string {
    AwLabel(AwId(new_.name, old_.namespace))
  }

  function SwapNodes(nodes: map<string, Node>, handed: set<string>, old_: AwId, new_: AwId): map<string, Node> {
    map n | n in nodes ::
      if n in handed
      then nodes[n].(labels := SwapLabels(nodes[n].labels, AwLabel(old_), NodeHeirLabel(old_, new_), new_.name))
      else nodes[n]
  }

  // ----- the MachineSet pairs of a demand -----

  /** MachineSets whose instance type is demanded. */
  function Pairs(sets: map<string, MachineSet>, demand: map<string, int>): set<string> {
    set n | n in sets && sets[n].instanceType in demand
  }

  predicate ClaimMatches(ms: MachineSet, id: AwId, demand: map<string, int>) {
    && ms.instanceType in demand
    && ClaimKey(id) in ms.labels
    && ms.labels[ClaimKey(id)] == FormatInt(demand[ms.instanceType])
  }

  /** Machines the labelling loop may touch: running, and run by a MachineSet of a demanded type. */
  function Eligible(s: State, demand: map<string, int>): set<string> {
    set n | n in Running(s.machines)
            && TYPE_LABEL in s.machines[n].labels && s.machines[n].labels[TYPE_LABEL] in demand
            && OWNER_LABEL in s.machines[n].labels && s.machines[n].labels[OWNER_LABEL] in s.machineSets
            && s.machineSets[s.machines[n].labels[OWNER_LABEL]].instanceType == s.machines[n].labels[TYPE_LABEL]
  }

  // ----- AppWrapper lifecycle -----

  function Without<T(==)>(s: seq<T>, x: T): seq<T> {
    if s == [] then []
    else if s[0] == x then Without(s[1..], x)
    else [s[0]] + Without(s[1..], x)
  }

  /** Storing an AppWrapper: one being deleted goes away with its last finalizer. */
  function StoreAw(aws: map<AwId, AppWrapper>, id: AwId, aw: AppWrapper): map<AwId, AppWrapper> {
    if aw.deleting && aw.finalizers == [] then aws - {id} else aws[id := aw]
  }

  predicate Held(aws: map<AwId, AppWrapper>, id: AwId) {
    id in aws && FINALIZER in aws[id].finalizers
  }

  predicate Ending(aw: AppWrapper) {
    aw.deleting || aw.state == COMPLETED
  }

  predicate Insufficient(aw: AppWrapper) {
    exists i | 0 <= i < |aw.conditions| :: Contains(aw.conditions[i], "Insufficient")
  }

  predicate Scalable(aws: map<AwId, AppWrapper>, id: AwId) {
    Held(aws, id) && !Ending(aws[id]) && aws[id].state == PENDING && Insufficient(aws[id])
  }

  /** What `aws` is after the finalizer of id is taken off. */
  function DropFinalizer(aws: map<AwId, AppWrapper>, id: AwId): map<AwId, AppWrapper>
    requires id in aws
  {
    StoreAw(aws, id, aws[id].(finalizers := Without(aws[id].finalizers, FINALIZER)))
  }

  lemma {:induction false} WithoutMember<T>(s: seq<T>, x: T, y: T)
    ensures y in Without(s, x) <==> y in s && y != x
  {
    if s != [] {
      WithoutMember(s[1..], x, y);
      assert s == [s[0]] + s[1..];
    }
  }

  /** An AppWrapper the reuse strategy may hand the machines to: not pending, and with
      an empty `orderedinstance` label, which is all the listing selects. */
  predicate Heir(aw: AppWrapper) {
    ORDERED_INSTANCE in aw.labels && aw.labels[ORDERED_INSTANCE] == "" && aw.state != PENDING
  }

  predicate HeirFor(aws: map<AwId, AppWrapper>, id: AwId, heir: AwId) {
    id in aws && heir in aws && Heir(aws[heir]) && LabelOf(aws[id].labels, ORDERED_INSTANCE) == ""
  }
}
