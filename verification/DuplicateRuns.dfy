/** Whole runs of the strategy that duplicates MachineSets: the original collection is never changed, each
    type gets at most one copy, and when every AppWrapper is finalised the collection is what it was. */
module DuplicateRuns {
  import opened GoPrimitives
  import opened Sums
  import opened Model
  import opened Steps
  import opened Effects
  import opened Ledger
  import opened Lifecycle
  import opened FixedDemand

  /** A MachineSet up to its status, which the cluster sets. */
  function Spec(ms: MachineSet): MachineSet {
    ms.(available := 0)
  }

  predicate IsCopy(ms: MachineSet) {
    COPY_LABEL in ms.labels
  }

  function Originals(sets: map<string, MachineSet>): map<string, MachineSet> {
    map n | n in sets && !IsCopy(sets[n]) :: Spec(sets[n])
  }

  // ----- conservation -----

  /** No event of the controller changes, removes or adds an original. */
  lemma OriginalsUntouched(c: Context, s: State, e: Event, s': State)
    requires c.backend.Duplicate? && Step(c, s, e, s') && !e.Environment?
    ensures Originals(s'.machineSets) == Originals(s.machineSets)
  {
    match e {
      case Copy(id, Some(NewCopy(t, source)), _, _) =>
        AddingACopy(s.machineSets, CopyName(id, t), CopyOf(s.machineSets[source], id, DemandOf(s.aws[id])[t]));
      case Discard(id, deleted, _, _) =>
        forall n | n in deleted
          ensures n in s.machineSets && IsCopy(s.machineSets[n])
        {
          InCopies(s, id, n);
        }
        DeletingCopies(s.machineSets, deleted);
      case _ =>
    }
  }

  lemma AddingACopy(sets: map<string, MachineSet>, n: string, ms: MachineSet)
    requires n !in sets && IsCopy(ms)
    ensures Originals(sets[n := ms]) == Originals(sets)
  {
  }

  lemma DeletingCopies(sets: map<string, MachineSet>, deleted: set<string>)
    requires forall n | n in deleted :: n in sets && IsCopy(sets[n])
    ensures Originals(sets - deleted) == Originals(sets)
  {
  }

  /** Every copy was made for an AppWrapper that is stored and carries the finalizer. */
  ghost predicate EveryCopyHeld(s: State) {
    forall n | n in s.machineSets && IsCopy(s.machineSets[n]) :: MadeForHeld(s, n)
  }

  ghost predicate MadeForHeld(s: State, n: string)
    requires n in s.machineSets && IsCopy(s.machineSets[n])
  {
    exists id :: Held(s.aws, id) && s.machineSets[n].labels[COPY_LABEL] == AwLabel(id)
  }

  lemma CopyStaysHeld(c: Context, s: State, e: Event, s': State, n: string)
    requires c.backend.Duplicate? && Step(c, s, e, s') && EveryCopyHeld(s)
    requires n in s'.machineSets && IsCopy(s'.machineSets[n])
    ensures MadeForHeld(s', n)
  {
    if e.Copy? && n !in s.machineSets {
      assert Held(s'.aws, e.id);
    } else {
      assert n in s.machineSets && IsCopy(s.machineSets[n])
             && s'.machineSets[n].labels[COPY_LABEL] == s.machineSets[n].labels[COPY_LABEL] by {
        assert OwnKey(COPY_LABEL);
      }
      assert MadeForHeld(s, n);
      var id :| Held(s.aws, id) && s.machineSets[n].labels[COPY_LABEL] == AwLabel(id);
      HolderStays(c, s, e, s', n, id);
    }
  }

  lemma HolderStays(c: Context, s: State, e: Event, s': State, n: string, id: AwId)
    requires c.backend.Duplicate? && Step(c, s, e, s') && Held(s.aws, id)
    requires n in s.machineSets && IsCopy(s.machineSets[n]) && s.machineSets[n].labels[COPY_LABEL] == AwLabel(id)
    requires n in s'.machineSets
    ensures Held(s'.aws, id)
  {
    if By(e, id) {
      OwnEventKeepsAw(c, s, e, s');
      if e.Discard? && e.dropped {
        InCopies(s, id, n);
      }
    } else {
      OthersKeepAw(c, s, e, s', id);
    }
  }

  /** The original collection is conserved. From a cluster without copies, whatever API calls fail and
      however the AppWrappers interleave: if the rest of the cluster leaves the originals as they are,
      they are the same in every reachable state; and once no AppWrapper carries the finalizer any more,
      the whole collection is the initial one. Copies of copies are no exception. */
  lemma CollectionIsRestored(c: Context, states: seq<State>, events: seq<Event>, k: nat)
    requires c.backend.Duplicate? && Run(c, states, events) && k <= |events|
    requires forall n | n in states[0].machineSets :: !IsCopy(states[0].machineSets[n])
    requires forall i | 0 <= i < |events| && events[i].Environment? ::
               Originals(states[i + 1].machineSets) == Originals(states[i].machineSets)
    ensures Originals(states[k].machineSets) == Originals(states[0].machineSets)
    ensures (forall id :: !Held(states[k].aws, id)) ==>
              && states[k].machineSets.Keys == states[0].machineSets.Keys
              && forall n | n in states[0].machineSets ::
                  Spec(states[k].machineSets[n]) == Spec(states[0].machineSets[n])
  {
    OriginalsConserved(c, states, events, k);
    if forall id :: !Held(states[k].aws, id) {
      NoCopyLeft(states[k]);
      OnlyOriginals(states[k]);
      OnlyOriginals(states[0]);
      SameOriginals(states[0].machineSets, states[k].machineSets);
    }
  }

  lemma NoCopyLeft(s: State)
    requires EveryCopyHeld(s) && forall id :: !Held(s.aws, id)
    ensures forall n | n in s.machineSets :: !IsCopy(s.machineSets[n])
  {
    forall n | n in s.machineSets && IsCopy(s.machineSets[n])
      ensures false
    {
      CopyNeedsHolder(s, n);
    }
  }

  lemma CopyNeedsHolder(s: State, n: string)
    requires EveryCopyHeld(s) && n in s.machineSets && IsCopy(s.machineSets[n])
    ensures exists id :: Held(s.aws, id)
  {
    assert MadeForHeld(s, n);
  }

  lemma OnlyOriginals(s: State)
    requires forall n | n in s.machineSets :: !IsCopy(s.machineSets[n])
    ensures Originals(s.machineSets).Keys == s.machineSets.Keys
  {
  }

  lemma SameOriginals(a: map<string, MachineSet>, b: map<string, MachineSet>)
    requires Originals(a) == Originals(b) && Originals(a).Keys == a.Keys && Originals(b).Keys == b.Keys
    ensures a.Keys == b.Keys && forall n | n in a :: Spec(b[n]) == Spec(a[n])
  {
    forall n | n in a
      ensures Spec(b[n]) == Spec(a[n])
    {
      assert n in Originals(a) && Originals(a)[n] == Originals(b)[n];
    }
  }

  lemma {:induction false} OriginalsConserved(c: Context, states: seq<State>, events: seq<Event>, k: nat)
    requires c.backend.Duplicate? && Run(c, states, events) && k <= |events|
    requires forall n | n in states[0].machineSets :: !IsCopy(states[0].machineSets[n])
    requires forall i | 0 <= i < |events| && events[i].Environment? ::
               Originals(states[i + 1].machineSets) == Originals(states[i].machineSets)
    ensures Originals(states[k].machineSets) == Originals(states[0].machineSets)
    ensures EveryCopyHeld(states[k])
  {
    if k > 0 {
      OriginalsConserved(c, states, events, k - 1);
      LastStep(c, states, events, k);
      CopiesStepHeld(c, states[k - 1], events[k - 1], states[k]);
      if !events[k - 1].Environment? {
        OriginalsUntouched(c, states[k - 1], events[k - 1], states[k]);
      } else {
        assert states[k] == states[k - 1 + 1];
      }
    }
  }

  lemma CopiesStepHeld(c: Context, s: State, e: Event, s': State)
    requires c.backend.Duplicate? && Step(c, s, e, s') && EveryCopyHeld(s)
    ensures EveryCopyHeld(s')
  {
    forall n | n in s'.machineSets && IsCopy(s'.machineSets[n])
      ensures MadeForHeld(s', n)
    {
      CopyStaysHeld(c, s, e, s', n);
    }
  }

  // ----- one copy per type -----

  /** id's copies are named after it and their type, and run as many replicas as are demanded. */
  ghost predicate CopiesAgree(s: State, id: AwId, demand: map<string, int>) {
    forall n | n in Copies(s.machineSets, id) ::
      var t := s.machineSets[n].instanceType;
      t in demand && n == CopyName(id, t) && s.machineSets[n].replicas == Wrap32(demand[t])
  }

  /** The environment does not scale id's copies. */
  ghost predicate CopiesNotScaled(s: State, s': State, id: AwId) {
    forall n | n in Copies(s.machineSets, id) && n in s'.machineSets ::
        s'.machineSets[n].replicas == s.machineSets[n].replicas
  }

  lemma CopiesStepAgree(c: Context, s: State, e: Event, s': State, id: AwId, demand: map<string, int>)
    requires c.backend.Duplicate? && Step(c, s, e, s') && Apart(e, id) && Demands(s, id, demand)
    requires e.Environment? ==> CopiesNotScaled(s, s', id)
    requires CopiesAgree(s, id, demand)
    ensures CopiesAgree(s', id, demand)
  {
    forall n | n in Copies(s'.machineSets, id)
      ensures var t := s'.machineSets[n].instanceType;
              t in demand && n == CopyName(id, t) && s'.machineSets[n].replicas == Wrap32(demand[t])
    {
      InCopies(s', id, n);
      InCopies(s, id, n);
      assert OwnKey(COPY_LABEL);
      if n in Copies(s.machineSets, id) {
        CopyUnchanged(c, s, e, s', id, n);
      } else {
        assert e.Copy? && e.id == id;
      }
    }
  }

  lemma CopyUnchanged(c: Context, s: State, e: Event, s': State, id: AwId, n: string)
    requires c.backend.Duplicate? && Step(c, s, e, s') && n in s.machineSets && n in s'.machineSets
    requires e.Environment? ==> s'.machineSets[n].replicas == s.machineSets[n].replicas
    ensures s'.machineSets[n].instanceType == s.machineSets[n].instanceType
    ensures s'.machineSets[n].replicas == s.machineSets[n].replicas
  {
  }

  /** At most one copy per AppWrapper and type, in every reachable state and under any failures, and its
      replicas are the demand, as int32. */
  lemma {:induction false} OneCopyPerType(c: Context, states: seq<State>, events: seq<Event>, id: AwId,
        demand: map<string, int>, k: nat)
    requires c.backend.Duplicate? && Run(c, states, events) && k <= |events|
    requires forall i | 0 <= i < |events| :: Apart(events[i], id)
    requires forall i | 0 <= i < |states| :: Demands(states[i], id, demand)
    requires forall i | 0 <= i < |events| && events[i].Environment? :: CopiesNotScaled(states[i], states[i + 1], id)
    requires Copies(states[0].machineSets, id) == {}
    ensures CopiesAgree(states[k], id, demand)
    ensures forall a, b | a in Copies(states[k].machineSets, id) && b in Copies(states[k].machineSets, id)
                          && states[k].machineSets[a].instanceType == states[k].machineSets[b].instanceType :: a == b
  {
    if k > 0 {
      OneCopyPerType(c, states, events, id, demand, k - 1);
      LastStep(c, states, events, k);
      assert events[k - 1].Environment? ==> CopiesNotScaled(states[k - 1], states[k - 1 + 1], id);
      CopiesStepAgree(c, states[k - 1], events[k - 1], states[k], id, demand);
    }
  }

  // ----- bounded creation -----

  /** The demanded types that have a template but no copy. */
  ghost function Missing(s: State, id: AwId, demand: map<string, int>): set<string> {
    set t | t in demand && HasTemplate(s.machineSets, t) && CopyName(id, t) !in Copies(s.machineSets, id)
  }

  predicate IsCreate(e: Event, id: AwId) {
    By(e, id) && e.Copy? && e.created.Some?
  }

  function Creates(events: seq<Event>, id: AwId, k: nat): nat
    requires k <= |events|
  {
    if k == 0 then 0 else Creates(events, id, k - 1) + if IsCreate(events[k - 1], id) then 1 else 0
  }

  /** The environment deletes none of id's copies, and adds no MachineSets. */
  ghost predicate CopiesNotDeleted(s: State, s': State, id: AwId) {
    s'.machineSets.Keys <= s.machineSets.Keys && Copies(s.machineSets, id) <= s'.machineSets.Keys
  }

  lemma OneReconcileCreatesOne(c: Context, s: State, e: Event, s': State, a: string, b: string)
    requires c.backend.Duplicate? && Step(c, s, e, s') && !e.Environment?
    requires a in s'.machineSets && a !in s.machineSets && b in s'.machineSets && b !in s.machineSets
    ensures a == b
    ensures IsCreate(e, e.id) && a == CopyName(e.id, e.created.value.instance)
  {
  }

  lemma CopiesStay(c: Context, s: State, e: Event, s': State, id: AwId)
    requires c.backend.Duplicate? && Step(c, s, e, s') && Apart(e, id)
    requires e.Environment? ==> CopiesNotDeleted(s, s', id)
    requires By(e, id) ==> !e.Discard?
    ensures Copies(s.machineSets, id) <= Copies(s'.machineSets, id)
  {
    assert OwnKey(COPY_LABEL);
    forall n | n in Copies(s.machineSets, id)
      ensures n in Copies(s'.machineSets, id)
    {
      InCopies(s, id, n);
      InCopies(s', id, n);
      if e.Discard? {
        InCopies(s, e.id, n);
      }
    }
  }

  lemma TemplatesComeFromTemplates(c: Context, s: State, e: Event, s': State, t: string)
    requires c.backend.Duplicate? && Step(c, s, e, s') && HasTemplate(s'.machineSets, t)
    requires e.Environment? ==> s'.machineSets.Keys <= s.machineSets.Keys
    ensures HasTemplate(s.machineSets, t)
  {
    var n :| n in s'.machineSets && s'.machineSets[n].instanceType == t;
    if n !in s.machineSets {
      assert s.machineSets[e.created.value.source].instanceType == t;
    } else {
      assert s.machineSets[n].instanceType == t;
    }
  }

  lemma MissingFalls(c: Context, s: State, e: Event, s': State, id: AwId, demand: map<string, int>)
    requires c.backend.Duplicate? && Step(c, s, e, s') && Apart(e, id) && Demands(s, id, demand)
    requires e.Environment? ==> CopiesNotDeleted(s, s', id)
    requires By(e, id) ==> !e.Discard?
    ensures Missing(s', id, demand) <= Missing(s, id, demand)
    ensures IsCreate(e, id) ==> e.created.value.instance in Missing(s, id, demand) - Missing(s', id, demand)
  {
    CopiesStay(c, s, e, s', id);
    forall t | t in Missing(s', id, demand)
      ensures t in Missing(s, id, demand)
    {
      TemplatesComeFromTemplates(c, s, e, s', t);
    }
    if IsCreate(e, id) {
      CreatedWasMissing(s.machineSets, demand, e, s'.machineSets, id);
    }
  }

  lemma CreatedWasMissing(sets: map<string, MachineSet>, demand: map<string, int>, e: Event,
        sets': map<string, MachineSet>, id: AwId)
    requires IsCreate(e, id) && CreatedOrWaits(sets, demand, e, sets')
    ensures var t := e.created.value.instance;
            t in demand && HasTemplate(sets, t) && CopyName(id, t) !in Copies(sets, id)
                && CopyName(id, t) in Copies(sets', id)
  {
    var t := e.created.value.instance;
    MatchesOne(sets'[CopyName(id, t)].labels, COPY_LABEL, AwLabel(id));
    assert sets[e.created.value.source].instanceType == t;
  }

  lemma OneMoreCreate(c: Context, s: State, e: Event, s': State, id: AwId, demand: map<string, int>)
    requires c.backend.Duplicate? && Step(c, s, e, s') && Apart(e, id) && Demands(s, id, demand)
    requires e.Environment? ==> CopiesNotDeleted(s, s', id)
    requires By(e, id) ==> !e.Discard?
    ensures (if IsCreate(e, id) then 1 else 0) + |Missing(s', id, demand)| <= |Missing(s, id, demand)|
  {
    MissingFalls(c, s, e, s', id, demand);
    SmallerSet(Missing(s', id, demand), Missing(s, id, demand));
  }

  /** Bounded creation. Until it is finalised, an AppWrapper with a fixed demand creates at most one
      MachineSet per demanded type that has a template and no copy: their number falls with every
      create and never rises, whatever fails and whatever the others do. */
  lemma CreatesAreBounded(c: Context, states: seq<State>, events: seq<Event>, id: AwId, demand: map<string, int>,
        k: nat)
    requires c.backend.Duplicate? && Run(c, states, events) && k <= |events|
    requires forall i | 0 <= i < |events| :: Apart(events[i], id)
    requires forall i | 0 <= i < |states| :: Demands(states[i], id, demand)
    requires forall i | 0 <= i < k && events[i].Environment? :: CopiesNotDeleted(states[i], states[i + 1], id)
    requires forall i | 0 <= i < k && By(events[i], id) :: !events[i].Discard?
    ensures Creates(events, id, k) + |Missing(states[k], id, demand)| <= |Missing(states[0], id, demand)|
    ensures Creates(events, id, k) <= |demand|
  {
    forall i: nat | i < k
      ensures MissingFallAt(states, events, id, demand, i)
    {
      StepAt(c, states, events, i);
      OneMoreCreate(c, states[i], events[i], states[i + 1], id, demand);
    }
    CreatesAddUp(states, events, id, demand, k);
    SmallerSet(Missing(states[0], id, demand), demand.Keys);
  }

  /** A create at i takes a type off the list of the missing ones, and no event adds to the list. */
  ghost predicate MissingFallAt(states: seq<State>, events: seq<Event>, id: AwId, demand: map<string, int>, i: nat)
    requires |states| == |events| + 1 && i < |events|
  {
    (if IsCreate(events[i], id) then 1
        else 0) + |Missing(states[i + 1], id, demand)| <= |Missing(states[i], id, demand)|
  }

  lemma {:induction false} CreatesAddUp(states: seq<State>, events: seq<Event>, id: AwId, demand: map<string, int>,
        k: nat)
    requires |states| == |events| + 1 && k <= |events| && forall i: nat | i < k ::
               MissingFallAt(states, events, id, demand, i)
    ensures Creates(events, id, k) + |Missing(states[k], id, demand)| <= |Missing(states[0], id, demand)|
  {
    if k > 0 {
      CreatesAddUp(states, events, id, demand, k - 1);
      assert MissingFallAt(states, events, id, demand, k - 1);
    }
  }
}
