/** What the lifecycle guarantees over whole runs, whatever API calls fail: an AppWrapper that owns
    anything in the MachineSets is still stored and still carries the finalizer. */
module Lifecycle {
  import opened Model
  import opened Steps
  import opened Effects
  import opened Ledger

  // ----- AppWrappers through a step -----

  /** Events of others leave an AppWrapper alone; the environment keeps the finalizer on. */
  lemma OthersKeepAw(c: Context, s: State, e: Event, s': State, id: AwId)
    requires Step(c, s, e, s') && !By(e, id)
    ensures Held(s.aws, id) ==> Held(s'.aws, id)
    ensures !e.Environment? ==> (id in s.aws <==> id in s'.aws) && (id in s.aws ==> s'.aws[id] == s.aws[id])
  {
  }

  /** An AppWrapper's own events keep it held, unless they drop the finalizer. */
  lemma OwnEventKeepsAw(c: Context, s: State, e: Event, s': State)
    requires Step(c, s, e, s') && !e.Environment? && Held(s.aws, e.id)
    ensures Held(s'.aws, e.id) || DropsFinalizer(e)
  {
  }

  predicate DropsFinalizer(e: Event) {
    match e
    case Release(_, _, _, _, dropped, _) => dropped
    case Swap(_, _, _, _, dropped) => dropped
    case Discard(_, _, dropped, _) => dropped
    case DropPools(_, _, dropped, _) => dropped
    case LetGo(_, dropped) => dropped
    case _ => false
  }

  // ----- claims -----

  predicate NoOrphanedClaim(s: State, id: AwId) {
    Holders(s.machineSets, ClaimKey(id)) != {} ==> Held(s.aws, id)
  }

  /** The AppWrapper asks for instances: its `orderedinstance` is there and not empty. */
  predicate AsksForInstances(s: State, id: AwId) {
    id in s.aws ==> LabelOf(s.aws[id].labels, ORDERED_INSTANCE) != ""
  }

  lemma OthersAddNoClaim(c: Context, s: State, e: Event, s': State, id: AwId)
    requires c.backend.Reuse? && Step(c, s, e, s') && ValidId(id) && !By(e, id) && Apart(e, id)
    ensures Holders(s'.machineSets, ClaimKey(id)) <= Holders(s.machineSets, ClaimKey(id))
  {
    KeysApart(id);
    if !e.Environment? {
      StepKeepsOtherClaims(c, s, e, s');
      if ClaimKey(e.id) == ClaimKey(id) {
        ClaimKeyInjective(e.id, id);
      }
    }
  }

  lemma OwnStepKeepsClaimHeld(c: Context, s: State, e: Event, s': State, id: AwId)
    requires c.backend.Reuse? && Step(c, s, e, s') && By(e, id)
    requires AsksForInstances(s, id) && NoOrphanedClaim(s, id)
    ensures NoOrphanedClaim(s', id)
  {
    match e {
      case Scale(_, _, _, _, _, _, _) => OwnEventKeepsAw(c, s, e, s');
      case Release(_, _, released, _, dropped, _) =>
        OwnEventKeepsAw(c, s, e, s');
        if dropped {
          assert s'.machineSets == GiveBack(s.machineSets, ClaimKey(id), released, {});
          assert Holders(s'.machineSets, ClaimKey(id)) == {};
        }
      case Swap(_, _, _, _, _) =>
        assert false;
      case _ =>
    }
  }

  /** No orphaned claims. Under any API failures, in every state reached by the reuse strategy, a
      MachineSet carries a claim only of an AppWrapper that is stored with its finalizer. So an
      AppWrapper that has left the store owns nothing. */
  lemma {:induction false} ClaimsAreHeld(c: Context, states: seq<State>, events: seq<Event>, id: AwId, k: nat)
    requires c.backend.Reuse? && Run(c, states, events) && ValidId(id) && k <= |events|
    requires forall i | 0 <= i < |events| :: Apart(events[i], id)
    requires forall i | 0 <= i < |states| :: AsksForInstances(states[i], id)
    requires NoOrphanedClaim(states[0], id)
    ensures NoOrphanedClaim(states[k], id)
    ensures id !in states[k].aws ==> Holders(states[k].machineSets, ClaimKey(id)) == {}
  {
    if k > 0 {
      ClaimsAreHeld(c, states, events, id, k - 1);
      LastStep(c, states, events, k);
      ClaimStep(c, states[k - 1], events[k - 1], states[k], id);
    }
  }

  lemma ClaimStep(c: Context, s: State, e: Event, s': State, id: AwId)
    requires c.backend.Reuse? && Step(c, s, e, s') && ValidId(id) && Apart(e, id)
    requires AsksForInstances(s, id) && NoOrphanedClaim(s, id)
    ensures NoOrphanedClaim(s', id)
  {
    if By(e, id) {
      OwnStepKeepsClaimHeld(c, s, e, s', id);
    } else {
      OthersAddNoClaim(c, s, e, s', id);
      OthersKeepAw(c, s, e, s', id);
    }
  }

  /** An AppWrapper whose `orderedinstance` is there but empty is its own heir as soon as it is not pending. */
  lemma OwnHeir(aws: map<AwId, AppWrapper>, id: AwId)
    requires id in aws && LabelOf(aws[id].labels, ORDERED_INSTANCE) == ""
    ensures HeirFor(aws, id, id) <==> ORDERED_INSTANCE in aws[id].labels && aws[id].state != PENDING
  {
  }

  /** The hypothesis is needed. When every call succeeds, finalisation of an AppWrapper with claims
      leaves no claim if and only if no heir is stored, that is, unless the AppWrapper's own
      `orderedinstance` is empty and so is that of a stored AppWrapper that is not pending. */
  lemma FinalisationReleasesIff(c: Context, s: State, e: Event, s': State, id: AwId)
    requires c.backend.Reuse? && Step(c, s, e, s') && By(e, id)
    requires e.Swap? || (e.Release? && e.clean)
    requires Holders(s.machineSets, ClaimKey(id)) != {} && ClaimsParse(s.machineSets, ClaimKey(id))
    ensures Holders(s'.machineSets, ClaimKey(id)) == {} <==> forall h :: !HeirFor(s.aws, id, h)
  {
    if e.Release? {
      assert s'.machineSets == GiveBack(s.machineSets, ClaimKey(id), e.released, {});
    }
  }

  // ----- copies -----

  predicate NoOrphanedCopy(s: State, id: AwId) {
    Copies(s.machineSets, id) != {} ==> Held(s.aws, id)
  }

  lemma InCopies(s: State, id: AwId, n: string)
    ensures n in Copies(s.machineSets, id) <==>
            n in s.machineSets && COPY_LABEL in s.machineSets[n].labels
                && s.machineSets[n].labels[COPY_LABEL] == AwLabel(id)
  {
    if n in s.machineSets {
      MatchesOne(s.machineSets[n].labels, COPY_LABEL, AwLabel(id));
    }
  }

  lemma OthersAddNoCopy(c: Context, s: State, e: Event, s': State, id: AwId)
    requires c.backend.Duplicate? && Step(c, s, e, s') && !By(e, id) && Apart(e, id)
    ensures Copies(s'.machineSets, id) <= Copies(s.machineSets, id)
  {
    assert OwnKey(COPY_LABEL);
    forall n | n in Copies(s'.machineSets, id)
      ensures n in Copies(s.machineSets, id)
    {
      InCopies(s', id, n);
      InCopies(s, id, n);
    }
  }

  lemma CopyStep(c: Context, s: State, e: Event, s': State, id: AwId)
    requires c.backend.Duplicate? && Step(c, s, e, s') && Apart(e, id)
    requires NoOrphanedCopy(s, id)
    ensures NoOrphanedCopy(s', id)
  {
    if By(e, id) {
      if e.Discard? && e.dropped {
        assert Copies(s'.machineSets, id) == {};
      }
      if Held(s.aws, id) {
        OwnEventKeepsAw(c, s, e, s');
      }
    } else {
      OthersAddNoCopy(c, s, e, s', id);
      OthersKeepAw(c, s, e, s', id);
    }
  }

  /** No orphaned copies: the same for the strategy that duplicates MachineSets, whatever
      `orderedinstance` says. */
  lemma {:induction false} CopiesAreHeld(c: Context, states: seq<State>, events: seq<Event>, id: AwId, k: nat)
    requires c.backend.Duplicate? && Run(c, states, events) && k <= |events|
    requires forall i | 0 <= i < |events| :: Apart(events[i], id)
    requires NoOrphanedCopy(states[0], id)
    ensures NoOrphanedCopy(states[k], id)
    ensures id !in states[k].aws ==> Copies(states[k].machineSets, id) == {}
  {
    if k > 0 {
      CopiesAreHeld(c, states, events, id, k - 1);
      LastStep(c, states, events, k);
      CopyStep(c, states[k - 1], events[k - 1], states[k], id);
    }
  }
}
