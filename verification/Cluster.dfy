/** The Kubernetes API server and the cluster manager's pool API as the controller's client sees
    them. A call may fail at any time, for no visible reason, and then changes nothing. A listing is
    returned as the map of the matching objects: its order is arbitrary, so loops over it pick the
    next object arbitrarily. */
module Cluster {
  import opened GoPrimitives
  import opened Model

  class Client {
    var aws: map<AwId, AppWrapper>
    var machineSets: map<string, MachineSet>
    var machines: map<string, Machine>
    var nodes: map<string, Node>
    var pools: map<string, Pool>

    /** No call has failed since this was last set. */
    ghost var clean: bool

    /** How the last update of an AppWrapper went, if there was one since this was last set. */
    ghost var updated: Option<bool>

    /** How the last connection to the cluster manager's pools went, and the last listing of them. */
    ghost var connected: Option<bool>
    ghost var listed: Option<bool>

    ghost function State(): State
      reads this
    {
      Model.State.State(aws, machineSets, machines, nodes, pools)
    }

    ghost predicate Valid()
      reads this
    {
      State().Valid()
    }

    /** Reaching the API: succeeds or fails. */
    method Call() returns (ok: bool)
      modifies `clean
      ensures clean == (old(clean) && ok)
    {
      ok := *;
      clean := clean && ok;
    }

    /** Connecting to the cluster manager's pools. */
    method Connect() returns (ok: bool)
      modifies `clean, `connected
      ensures clean == (old(clean) && ok) && connected == Some(ok)
    {
      ok := Call();
      connected := Some(ok);
    }

    // ----- listings -----

    method ListAppWrappers(selector: Labels) returns (ok: bool, items: map<AwId, AppWrapper>)
      modifies `clean
      ensures clean == (old(clean) && ok)
      ensures items == if ok then map a | a in aws && Matches(selector, aws[a].labels) :: aws[a] else map[]
    {
      ok := Call();
      items := if ok then map a | a in aws && Matches(selector, aws[a].labels) :: aws[a] else map[];
    }

    method ListMachineSets(selector: Labels) returns (ok: bool, items: map<string, MachineSet>)
      modifies `clean
      ensures clean == (old(clean) && ok)
      ensures items == if ok then map n | n in machineSets && Matches(selector, machineSets[n].labels) ::
                machineSets[n] else map[]
    {
      ok := Call();
      items := if ok then map n | n in machineSets && Matches(selector, machineSets[n].labels) :: machineSets[n]
          else map[];
    }

    /** client.HasLabels */
    method ListMachineSetsHaving(key: string) returns (ok: bool, items: map<string, MachineSet>)
      modifies `clean
      ensures clean == (old(clean) && ok)
      ensures items == if ok then map n | n in machineSets && key in machineSets[n].labels :: machineSets[n] else map[]
    {
      ok := Call();
      items := if ok then map n | n in machineSets && key in machineSets[n].labels :: machineSets[n] else map[];
    }

    method ListMachines(selector: Labels) returns (ok: bool, items: map<string, Machine>)
      modifies `clean
      ensures clean == (old(clean) && ok)
      ensures items == if ok then map n | n in Select(machines, selector) :: machines[n] else map[]
    {
      ok := Call();
      items := if ok then map n | n in Select(machines, selector) :: machines[n] else map[];
    }

    method ListNodes(selector: Labels) returns (ok: bool, items: map<string, Node>)
      modifies `clean
      ensures clean == (old(clean) && ok)
      ensures items == if ok then map n | n in nodes && Matches(selector, nodes[n].labels) :: nodes[n] else map[]
    {
      ok := Call();
      items := if ok then map n | n in nodes && Matches(selector, nodes[n].labels) :: nodes[n] else map[];
    }

    method ListPools() returns (ok: bool, items: map<string, Pool>)
      modifies `clean, `listed
      ensures clean == (old(clean) && ok) && listed == Some(ok)
      ensures items == if ok then pools else map[]
    {
      ok := Call();
      listed := Some(ok);
      items := if ok then pools else map[];
    }

    // ----- AppWrappers -----

    /** None when there is no such AppWrapper, which is not a failure. */
    method GetAppWrapper(id: AwId) returns (ok: bool, found: Option<AppWrapper>)
      modifies `clean
      ensures clean == (old(clean) && ok)
      ensures ok ==> found == if id in aws then Some(aws[id]) else None
    {
      ok := Call();
      found := if ok && id in aws then Some(aws[id]) else None;
    }

    /** Rejected when it would add a finalizer to an object that is being deleted. */
    method UpdateAppWrapper(id: AwId, aw: AppWrapper) returns (ok: bool)
      requires id in aws
      modifies `aws, `clean, `updated
      ensures clean == (old(clean) && ok) && updated == Some(ok)
      ensures ok ==> !aw.deleting || forall f | f in aw.finalizers :: f in old(aws)[id].finalizers
      ensures aws == if ok then StoreAw(old(aws), id, aw) else old(aws)
    {
      ok := *;
      if aw.deleting && exists i | 0 <= i < |aw.finalizers| :: aw.finalizers[i] !in aws[id].finalizers {
        ok := false;
      }
      clean, updated := clean && ok, Some(ok);
      if ok {
        aws := StoreAw(aws, id, aw);
      }
    }

    // ----- MachineSets -----

    method GetMachineSet(name: string) returns (ok: bool, ms: Option<MachineSet>)
      modifies `clean
      ensures clean == (old(clean) && ok)
      ensures ok ==> name in machineSets && ms == Some(machineSets[name])
    {
      ok := *;
      ok := ok && name in machineSets;
      clean := clean && ok;
      ms := if ok then Some(machineSets[name]) else None;
    }

    method UpdateMachineSet(name: string, ms: MachineSet) returns (ok: bool)
      modifies `machineSets, `clean
      ensures clean == (old(clean) && ok)
      ensures ok ==> name in old(machineSets)
      ensures machineSets == if ok then old(machineSets)[name := ms] else old(machineSets)
    {
      ok := *;
      ok := ok && name in machineSets;
      clean := clean && ok;
      if ok {
        machineSets := machineSets[name := ms];
      }
    }

    /** JSON patch "remove" of one label; fails when the label is absent. */
    method PatchMachineSetDropLabel(name: string, key: string) returns (ok: bool)
      modifies `machineSets, `clean
      ensures clean == (old(clean) && ok)
      ensures ok ==> name in old(machineSets) && key in old(machineSets)[name].labels
      ensures machineSets ==
        if ok then old(machineSets)[name := old(machineSets)[name].(labels := old(machineSets)[name].labels - {key})]
        else old(machineSets)
    {
      ok := *;
      ok := ok && name in machineSets && key in machineSets[name].labels;
      clean := clean && ok;
      if ok {
        machineSets := machineSets[name := machineSets[name].(labels := machineSets[name].labels - {key})];
      }
    }

    /** Fails when the name is taken; a new object starts without status. */
    method CreateMachineSet(name: string, ms: MachineSet) returns (ok: bool)
      modifies `machineSets, `clean
      ensures clean == (old(clean) && ok)
      ensures ok ==> name !in old(machineSets)
      ensures machineSets == if ok then old(machineSets)[name := ms.(available := 0)] else old(machineSets)
    {
      ok := *;
      ok := ok && name !in machineSets;
      clean := clean && ok;
      if ok {
        machineSets := machineSets[name := ms.(available := 0)];
      }
    }

    method DeleteMachineSet(name: string) returns (ok: bool)
      modifies `machineSets, `clean
      ensures clean == (old(clean) && ok)
      ensures machineSets == if ok then old(machineSets) - {name} else old(machineSets)
    {
      ok := *;
      ok := ok && name in machineSets;
      clean := clean && ok;
      if ok {
        machineSets := machineSets - {name};
      }
    }

    // ----- Machines and Nodes -----

    method GetMachine(name: string) returns (ok: bool, machine: Option<Machine>)
      modifies `clean
      ensures clean == (old(clean) && ok)
      ensures if ok then name in machines && machine == Some(machines[name]) else machine == None
    {
      ok := *;
      ok := ok && name in machines;
      clean := clean && ok;
      machine := if ok then Some(machines[name]) else None;
    }

    method UpdateMachine(name: string, machine: Machine) returns (ok: bool)
      modifies `machines, `clean
      ensures clean == (old(clean) && ok)
      ensures ok ==> name in old(machines)
      ensures machines == if ok then old(machines)[name := machine] else old(machines)
    {
      ok := *;
      ok := ok && name in machines;
      clean := clean && ok;
      if ok {
        machines := machines[name := machine];
      }
    }

    /** JSON patch "add" of the label key := key. */
    method PatchMachineLabel(name: string, key: string) returns (ok: bool)
      modifies `machines, `clean
      ensures clean == (old(clean) && ok)
      ensures ok ==> name in old(machines)
      ensures machines == if ok then LabelMachines(old(machines), {name}, key) else old(machines)
    {
      ok := *;
      ok := ok && name in machines;
      clean := clean && ok;
      if ok {
        machines := machines[name := machines[name].(labels := machines[name].labels[key := key])];
      }
    }

    method PatchNodeLabel(name: string, key: string) returns (ok: bool)
      modifies `nodes, `clean
      ensures clean == (old(clean) && ok)
      ensures ok ==> name in old(nodes)
      ensures nodes == if ok then LabelNodes(old(nodes), {name}, key) else old(nodes)
    {
      ok := *;
      ok := ok && name in nodes;
      clean := clean && ok;
      if ok {
        nodes := nodes[name := nodes[name].(labels := nodes[name].labels[key := key])];
      }
    }

    /** One JSON patch that removes a label, which must be there, and adds another. */
    method PatchMachineSwapLabel(name: string, gone: string, key: string, value: string) returns (ok: bool)
      modifies `machines, `clean
      ensures clean == (old(clean) && ok)
      ensures ok ==> name in old(machines) && gone in old(machines)[name].labels
      ensures machines ==
        if ok then
          old(machines)[name := old(machines)[name].(labels := (old(machines)[name].labels - {gone})[key := value])]
        else old(machines)
    {
      ok := *;
      ok := ok && name in machines && gone in machines[name].labels;
      clean := clean && ok;
      if ok {
        machines := machines[name := machines[name].(labels := (machines[name].labels - {gone})[key := value])];
      }
    }

    method PatchNodeSwapLabel(name: string, gone: string, key: string, value: string) returns (ok: bool)
      modifies `nodes, `clean
      ensures clean == (old(clean) && ok)
      ensures ok ==> name in old(nodes) && gone in old(nodes)[name].labels
      ensures nodes ==
        if ok then old(nodes)[name := old(nodes)[name].(labels := (old(nodes)[name].labels - {gone})[key := value])]
        else old(nodes)
    {
      ok := *;
      ok := ok && name in nodes && gone in nodes[name].labels;
      clean := clean && ok;
      if ok {
        nodes := nodes[name := nodes[name].(labels := (nodes[name].labels - {gone})[key := value])];
      }
    }

    // ----- pools -----

    /** Fails when the identifier is taken. */
    method AddPool(poolId: string, pool: Pool) returns (ok: bool)
      modifies `pools, `clean
      ensures clean == (old(clean) && ok)
      ensures ok ==> poolId !in old(pools)
      ensures pools == if ok then old(pools)[poolId := pool] else old(pools)
    {
      ok := *;
      ok := ok && poolId !in pools;
      clean := clean && ok;
      if ok {
        pools := pools[poolId := pool];
      }
    }

    method DeletePool(poolId: string) returns (ok: bool)
      modifies `pools, `clean
      ensures clean == (old(clean) && ok)
      ensures pools == if ok then old(pools) - {poolId} else old(pools)
    {
      ok := *;
      clean := clean && ok;
      if ok {
        pools := pools - {poolId};
      }
    }
  }
}
