/** When the controller acts on an AppWrapper, and what it leaves alone, said on the fields of the objects. */
module LifecycleOnFields {
  import opened GoPrimitives
  import opened Model
  import opened Steps
  import opened Effects
  import opened Texts
  import opened Sums
  import opened ReuseController
  import opened ReuseOnFields
  import opened AppWrapperController

  predicate Undoes(e: Event) {
    e.Release? || e.Swap? || e.Discard? || e.DropPools? || e.LetGo?
  }

  predicate ScalesUp(e: Event) {
    e.Scale? || e.Copy? || e.AddPools?
  }

  lemma EndedIffEnding(aw: AppWrapper)
    ensures Ended(aw) <==> FINALIZER in aw.finalizers && Ending(aw)
  {
  }

  lemma WaitingIffScalable(aws: map<AwId, AppWrapper>, id: AwId)
    requires id in aws
    ensures Waiting(aws[id]) <==> Scalable(aws, id)
  {
    forall i | 0 <= i < |aws[id].conditions|
      ensures Within(aws[id].conditions[i], "Insufficient") <==> Contains(aws[id].conditions[i], "Insufficient")
    {
      ContainsIff(aws[id].conditions[i], "Insufficient");
    }
  }

  /** With any failures: an AppWrapper is finalised only when it is in care and being deleted or completed, scaled up
      only when it is in care, pending and not being deleted, with an insufficient condition, and adopted only
      when it is not in care. */
  lemma ActsOnlyOn(c: Context, s: State, e: Event, s': State)
    requires Step(c, s, e, s') && !e.Environment? && !e.Idle?
    ensures e.id in s.aws
    ensures Undoes(e) ==> Ended(s.aws[e.id])
    ensures ScalesUp(e) ==> Waiting(s.aws[e.id])
    ensures e.Adopt? ==> !HasFinalizer(s.aws[e.id])
  {
    StoredActor(c, s, e, s');
    WaitingIffScalable(s.aws, e.id);
  }

  lemma StoredActor(c: Context, s: State, e: Event, s': State)
    requires Step(c, s, e, s') && !e.Environment? && !e.Idle?
    ensures e.id in s.aws
    ensures Undoes(e) ==> Finalizable(s, e.id)
    ensures ScalesUp(e) ==> Scalable(s.aws, e.id)
    ensures e.Adopt? ==> FINALIZER !in s.aws[e.id].finalizers
  {
  }

  /** When no call fails: a reconcile finalises if and only if the AppWrapper is in care and being deleted or
      completed, scales up if and only if it waits and there is a backend for it, adopts it if and only if it is
      stored and not in care, and does nothing otherwise. */
  lemma CleanReconcile(b: Backend, s: State, id: AwId, e: Event)
    requires Dispatched(b, s, id, e)
    ensures Undoes(e) <==> id in s.aws && Ended(s.aws[id])
    ensures ScalesUp(e) <==> id in s.aws && Waiting(s.aws[id]) && !b.Unsupported?
    ensures e.Adopt? <==> id in s.aws && !HasFinalizer(s.aws[id])
    ensures e.Swap? <==> && id in s.aws && Ended(s.aws[id]) && b.Reuse? && AsksForNothing(s.aws[id])
                         && exists h :: h in s.aws && MayInherit(s.aws[h])
  {
    if id in s.aws {
      WaitingIffScalable(s.aws, id);
      HeirsOnFields(s.aws, id);
    }
  }

  /** `orderedinstance` is absent or empty. */
  predicate AsksForNothing(aw: AppWrapper) {
    "orderedinstance" in aw.labels ==> aw.labels["orderedinstance"] == ""
  }

  predicate MayInherit(aw: AppWrapper) {
    Has(aw.labels, "orderedinstance", "") && aw.state != "Pending"
  }

  lemma HeirsOnFields(aws: map<AwId, AppWrapper>, id: AwId)
    requires id in aws
    ensures (exists h :: HeirFor(aws, id, h)) <==> AsksForNothing(aws[id]) && exists h :: h in aws && MayInherit(aws[h])
    ensures forall h :: HeirFor(aws, id, h) <==> AsksForNothing(aws[id]) && h in aws && MayInherit(aws[h])
  {
    assert forall h :: HeirFor(aws, id, h) <==> AsksForNothing(aws[id]) && h in aws && MayInherit(aws[h]);
    if h :| h in aws && MayInherit(aws[h]) {
      assert AsksForNothing(aws[id]) ==> HeirFor(aws, id, h);
    }
  }

  /** No MachineSet goes or loses id's claim, and one changes only when it is updated by a pass. */
  predicate SetsStay(s: State, e: Event, s': State, id: AwId) {
    forall n | n in s.machineSets ::
      && n in s'.machineSets
      && (ClaimText(id) in s.machineSets[n].labels ==> ClaimText(id) in s'.machineSets[n].labels)
      && (s'.machineSets[n] == s.machineSets[n] || (e.Scale? && !e.act.NoUpdate?))
  }

  /** No machine goes, and one is marked only by the one-step removal. */
  predicate MachinesStay(s: State, e: Event, s': State) {
    forall m | m in s.machines ::
      && m in s'.machines
      && (s'.machines[m].annotations == s.machines[m].annotations || (e.Scale? && e.act.Shrink?))
  }

  predicate PoolsStay(s: State, s': State) {
    forall p | p in s.pools :: p in s'.pools && s'.pools[p] == s.pools[p]
  }

  /** A reconcile of an AppWrapper that is neither being deleted nor completed, with any failures: it keeps its
      finalizer, no MachineSet and no pool goes, no claim is given back, and only the one-step removal marks a
      machine. */
  lemma LiveAppWrapperIsNotUndone(c: Context, s: State, e: Event, s': State, id: AwId)
    requires Step(c, s, e, s') && !e.Environment? && e.id == id && id in s.aws
    requires !s.aws[id].deleting && s.aws[id].state != "Completed"
    ensures id in s'.aws && (HasFinalizer(s.aws[id]) ==> HasFinalizer(s'.aws[id]))
    ensures SetsStay(s, e, s', id) && MachinesStay(s, e, s') && PoolsStay(s, s')
  {
    if !e.Idle? {
      ActsOnlyOn(c, s, e, s');
    }
    LiveIsKept(c, s, e, s', id);
    LiveKeepsSets(c, s, e, s', id);
    LiveKeepsMachines(c, s, e, s');
    LiveKeepsPools(c, s, e, s');
  }

  lemma LiveIsKept(c: Context, s: State, e: Event, s': State, id: AwId)
    requires Step(c, s, e, s') && !e.Environment? && e.id == id && id in s.aws && !Undoes(e)
    ensures id in s'.aws && (HasFinalizer(s.aws[id]) ==> HasFinalizer(s'.aws[id]))
  {
  }

  lemma LiveKeepsSets(c: Context, s: State, e: Event, s': State, id: AwId)
    requires Step(c, s, e, s') && !e.Environment? && e.id == id && !Undoes(e)
    ensures SetsStay(s, e, s', id)
  {
    TextsAreWritten(id);
  }

  lemma LiveKeepsMachines(c: Context, s: State, e: Event, s': State)
    requires Step(c, s, e, s') && !e.Environment? && !Undoes(e)
    ensures MachinesStay(s, e, s')
  {
    NothingTouched(s.machines, s.nodes, "");
  }

  lemma LiveKeepsPools(c: Context, s: State, e: Event, s': State)
    requires Step(c, s, e, s') && !e.Environment? && !Undoes(e)
    ensures PoolsStay(s, s')
  {
  }

  // ----- the answer -----

  /** A pass of the reuse strategy that is reported done, with no failing call, changed no MachineSet, and left at every
      MachineSet of a demanded type as many machines with the label as are demanded, or none of its running
      machines without; and if the gate is open, as many run with the label as are demanded. */
  lemma DoneMeansLabelled(maxNodes: int, s: State, e: Event, s': State, n: string)
    requires Reported(maxNodes, s, e, Done, true, s') && e.Scale? && ValidId(e.id)
    requires n in s'.machineSets && s'.machineSets[n].instanceType in DemandOf(s.aws[e.id])
    ensures e.act.NoUpdate?
    ensures var t := s'.machineSets[n].instanceType;
            var d := DemandOf(s.aws[e.id])[t];
            && (|WithLabelAndType(s'.machines, e.id, t)| == d || NoneFree(s'.machines, e.id, t, n))
            && (Wrap32(|WithBareName(s.machines, e.id)| + SumValues(DemandOf(s.aws[e.id]))) <= maxNodes ==>
                  |RunningWithLabel(s'.machines, {}, e.id, t)| == d)
  {
    var demand, t := DemandOf(s.aws[e.id]), s'.machineSets[n].instanceType;
    assert n in Pairs(s'.machineSets, demand) - {};
    FilledOnFields(s'.machines, e.id, t, n, demand[t]);
    if Wrap32(|WithBareName(s.machines, e.id)| + SumValues(demand)) <= maxNodes {
      CountsOnFields(s.machines, {}, e.id, t);
      ServedOnFields(s'.machineSets, s'.machines, demand, e.id, n);
    }
  }

  lemma ServedOnFields(sets: map<string, MachineSet>, machines: map<string, Machine>, demand: map<string, int>,
        id: AwId, n: string)
    requires ValidId(id) && AllServed(sets, machines, demand, id, {}) && n in Pairs(sets, demand)
    ensures |RunningWithLabel(machines, {}, id, sets[n].instanceType)| == demand[sets[n].instanceType]
  {
    CountsOnFields(machines, {}, id, sets[n].instanceType);
    assert Served(machines, id, sets[n].instanceType, demand[sets[n].instanceType]);
  }

  lemma FilledOnFields(machines: map<string, Machine>, id: AwId, t: string, n: string, d: int)
    requires ValidId(id)
    ensures Filled(machines, id, t, n, d) ==> |WithLabelAndType(machines, id, t)| == d || NoneFree(machines, id, t, n)
  {
    forall m | m in machines
      ensures m in Carrying(machines, id, t) <==> m in WithLabelAndType(machines, id, t)
      ensures m in Running(machines) * MachinesOf(machines, t, n) <==>
                machines[m].phase == "Running" && HasType(machines[m].labels, t) && HasOwner(machines[m].labels, n)
    {
      SelectedMachines(machines, id, t, n, m);
    }
    assert Carrying(machines, id, t) == WithLabelAndType(machines, id, t);
  }

  function WithLabelAndType(machines: map<string, Machine>, id: AwId, t: string): set<string> {
    set m | m in machines && HasLabelText(machines[m].labels, id) && HasType(machines[m].labels, t)
  }

  /** All running machines of MachineSet n carry the label. */
  predicate NoneFree(machines: map<string, Machine>, id: AwId, t: string, n: string) {
    forall m | m in machines && machines[m].phase == "Running" && HasType(machines[m].labels, t)
               && HasOwner(machines[m].labels, n) :: HasLabelText(machines[m].labels, id)
  }

  // ----- the finalizer -----

  /** The other AppWrappers are as they were; this one is as it was but for its finalizers. */
  predicate OnlyFinalizers(s: State, s': State, id: AwId) {
    && (forall o | o != id && o in s.aws :: o in s'.aws && s'.aws[o] == s.aws[o])
    && (forall o | o != id && o in s'.aws :: o in s.aws)
    && (id in s'.aws ==> id in s.aws && s'.aws[id] == s.aws[id].(finalizers := s'.aws[id].finalizers))
  }

  /** A finalisation writes the finalizers of its AppWrapper only: it takes the finalizer off and no other, and an
      AppWrapper being deleted goes with its last one. Adopting puts the finalizer on. */
  lemma FinalizersOnFields(c: Context, s: State, e: Event, s': State)
    requires Step(c, s, e, s') && (Undoes(e) || e.Adopt?)
    ensures e.id in s.aws && OnlyFinalizers(s, s', e.id)
    ensures Undoes(e) && !e.dropped ==> s'.aws == s.aws
    ensures Undoes(e) && e.dropped ==>
              var others := forall f | f in s.aws[e.id].finalizers :: f == "instascale.codeflare.dev/finalizer";
              && (e.id !in s'.aws <==> s.aws[e.id].deleting && others)
              && (e.id in s'.aws ==> forall f :: f in s'.aws[e.id].finalizers <==>
                      f in s.aws[e.id].finalizers && f != "instascale.codeflare.dev/finalizer")
    ensures e.Adopt? ==>
              && e.id in s'.aws
              && s'.aws[e.id].finalizers == s.aws[e.id].finalizers + ["instascale.codeflare.dev/finalizer"]
              && s'.machineSets == s.machineSets && s'.machines == s.machines && s'.nodes == s.nodes
              && s'.pools == s.pools
  {
    if Undoes(e) {
      DroppedOnFields(s, e.id, e.dropped, s');
    }
  }

  lemma DroppedOnFields(s: State, id: AwId, dropped: bool, s': State)
    requires Dropped(s, id, dropped, s')
    ensures OnlyFinalizers(s, s', id)
    ensures !dropped ==> s'.aws == s.aws
    ensures dropped ==>
              var others := forall f | f in s.aws[id].finalizers :: f == FINALIZER;
              && (id !in s'.aws <==> s.aws[id].deleting && others)
              && (id in s'.aws ==> forall f :: f in s'.aws[id].finalizers <==>
                      f in s.aws[id].finalizers && f != FINALIZER)
  {
    var before, after := s.aws[id].finalizers, Without(s.aws[id].finalizers, FINALIZER);
    forall f
      ensures f in after <==> f in before && f != FINALIZER
    {
      WithoutMember(before, FINALIZER, f);
    }
    if after != [] {
      assert after[0] in after;
    }
  }

  // ----- the backend -----

  /** The text is the lower-case one, up to the case of its letters. */
  predicate SameButCase(text: string, lower: string) {
    && |text| == |lower|
    && forall i | 0 <= i < |text| :: text[i] == lower[i] || text[i] as int + 32 == lower[i] as int
  }

  /** MachineSets are reused or copied as the strategy's text says, in any case of its letters; pools are used as
      the machine type says. */
  lemma BackendByText(machineType: MachineType, strategy: string)
    ensures BackendOf(machineType, strategy).Reuse? <==>
              machineType.OfMachineSet? && SameButCase(strategy, "reuse")
    ensures BackendOf(machineType, strategy).Duplicate? <==>
              machineType.OfMachineSet? && SameButCase(strategy, "duplicate")
    ensures BackendOf(machineType, strategy).MachinePools? <==> machineType.OfMachinePool?
    ensures BackendOf(machineType, strategy).NodePools? <==> machineType.OfNodePool?
  {
    LowerIff(strategy, "reuse");
    LowerIff(strategy, "duplicate");
  }

  lemma LowerIff(text: string, lower: string)
    requires forall i | 0 <= i < |lower| :: 'a' <= lower[i] <= 'z'
    ensures ToLower(text) == lower <==> SameButCase(text, lower)
  {
    if ToLower(text) == lower {
      forall i | 0 <= i < |text|
        ensures text[i] == lower[i] || text[i] as int + 32 == lower[i] as int
      {
        assert ToLower(text)[i] == LowerChar(text[i]);
      }
    }
    if SameButCase(text, lower) {
      forall i | 0 <= i < |text|
        ensures ToLower(text)[i] == lower[i]
      {
        assert text[i] == lower[i] || text[i] as int + 32 == lower[i] as int;
      }
    }
  }
}
