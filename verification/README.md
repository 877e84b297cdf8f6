# InstaScale in Dafny

InstaScale is a Kubernetes controller that adds machines to a cluster for pending AppWrappers and takes
them away again when the AppWrappers complete or are deleted. This project models its reconciler and
proves what it keeps over whole runs: that what it scales up it scales down, that nothing of an
AppWrapper outlives it, that no AppWrapper raises a MachineSet twice, and under exactly which conditions this holds.

## How the model is built

`Cluster.Client` holds the stored objects (AppWrappers, MachineSets, Machines, Nodes, pools) in map fields
that its List, Get, Update, Patch, Create and Delete methods read and reassign. Every call may fail at any
time; a failed call changes nothing. A listing is a map, so a loop over it visits its objects in an arbitrary
order, as do the loops over Go maps. The client's ghost field `clean` says that no call of the current reconcile
has failed; `updated`, `connected` and `listed` keep how the update of the AppWrapper, the connection to the pools
and their listing went.

The controller modules keep the methods, loops and early returns of the Go files:

| module | source |
|---|---|
| `ReuseController` | controllers/machineset.go, strategy "reuse" |
| `DuplicateController` | controllers/machineset.go, strategy "duplicate" |
| `PoolController` | controllers/machinepools.go and controllers/nodepools.go, the same algorithm twice, and the pool names of controllers/utils.go |
| `AppWrapperController` | controllers/appwrapper_controller.go |

`Steps.Step` is the specification they are proved against: one event per call of `Reconcile`, with
an `Environment` event for anything the rest of the cluster does in between. `Reconciler.Reconcile` is proved to
take one such step, and, when no call fails, the one that the AppWrapper's state and the backend ask for. The event
says of the calls what the client saw: it is clean if and only if no call failed (`TellsTruly`), so that theorems
about clean events are about reconciles without a failing call.
The theorems are about `Steps.Run`: any finite sequence of steps, by any AppWrappers, with any failures unless
a hypothesis says otherwise. Each is a lemma over all such runs:

* `Ledger`: the accounting behind the claim labels, in int32 arithmetic and without overflow.
* `Lifecycle`: nobody owns a claim or a copy without being stored and carrying the finalizer.
* `FixedDemand`: at most one raise per MachineSet, no shrinking, the scale-out limit.
* `Cancellation`, `SoloLives`: scale-up and finalisation cancel; deletion marks match replicas.
* `DuplicateRuns`, `PoolRuns`: what is created is bounded, agrees with the demand and disappears again.
* `Finalisation`: finalising again changes nothing.
* `Demand`: what the demand map is, and when it is what one would expect.
* `LifecycleOnFields`, `ReuseOnFields`, `DuplicateOnFields`, `PoolsOnFields`: what each event does to the fields of the
  objects, when it may happen, and what a done answer means, in terms that neither the controller nor `Step` uses
  (`Texts`: labels, keys and words spelled out).
* `BareName`: the gate and the one-step removal select on a label that the reuse strategy never writes.
* `Example`: a run that meets the hypotheses of the cancellation theorem, with a machine that is marked.
* `Witnesses`: runs in which machines are lost, a claim is given back twice, and a claim is left behind, and a pass
  that depends on the order of a listing.
  `Scenario` holds the small cluster both use.

Int32 arithmetic is explicit (`Wrap32`), decimal labels are strings (`FormatInt`, `Atoi`), and the
comparison that decides about shrinking is Go's comparison of strings (`StrLess`).

## Assumptions

* Reads see earlier writes, reconciles run one at a time, and object names are unique; AppWrapper names
  contain no slash.
* A Running machine has its node, and a node's machine annotation, if present, names a machine as
  "namespace/name" (`Model.State.Valid`). The copies of the duplicate strategy and the hand-over visit machines in
  any phase and dereference their node; for a machine without one the Go code panics, and here the patch of its
  node fails.
* The OCM client takes a missing response for an empty list, which is what a failed listing of pools comes to.
* The scale-out limit is an int32 (`AppWrapperController.Reconciler.Valid`).
* Only the controller writes labels under its own prefix and removes its own finalizer, and a MachineSet's
  instance type does not change (`Steps.EnvStep`).
* Theorems about one AppWrapper among others ask that no other one has the same `name-namespace` label
  (`Ledger.Apart`); `Model.LabelsCollideIff` says which ones do, and `Model.LabelsCanCollide` that there are some.
* Where the Go code would panic on the annotations of a machine it failed to get, the model returns an error.

## Where the code differs from what one may expect

* The shrink test compares decimal strings. `DecimalTextOrder` says exactly what that means,
  `TextOrderAgreesIff` when it is the comparison of the numbers, and `ShrinkTestDisagrees` gives a demand for which it
  is not.
* Machines that already run with the AppWrapper's label when its claim is set are subtracted from the replicas but
  not from the claim. The net effect is minus their number, and zero if and only if there were none
  (`NetEffectIsMinusCounted`). In the run of `CountedMachinesAreLost` no call fails and a replica is lost;
  `ClosedPassIsForced` and `CountingPassIsForced` say that its two passes are the only ones possible there.
* A claim met at one MachineSet keeps a pass from claiming at those visited later, not at those visited earlier
  (`UpdatesOnlyWhenDue`). Of two MachineSets of one type, one with the claim and enough machines, the other is
  claimed as well if the listing has it first (`OrderDecides`).
* A failed label removal gives the claim back and keeps it, to be given back again (`Leak`); in the run of
  `ClaimGivenBackTwice` a MachineSet goes from one replica to minus one.
* Deleting pools fails only if the connection does. The finalizer is dropped after a failed listing or deletion,
  and then pools are left exactly if there were any (`DeletionIsExact`, `FailedDeletionLeaks`); the theorems about
  pools ask for passes in which the listing and the deletions succeed.
* A transfer of machines is attempted only for AppWrappers whose `orderedinstance` is empty, because
  that is what the listing selects; then the claims stay behind (`FinalisationReleasesIff`, `ClaimLeftBehind`). A
  completed AppWrapper of this kind is its own heir (`OwnHeir`).
* The gate and the one-step removal select on the bare name of the AppWrapper, while passes write
  `name-namespace`. Unless somebody else writes the bare name, the gate counts no machine and a removal lowers
  nothing (`BareNameSelectsNothing`).
* The demand map pairs pod templates and instance names by position only if every item starts at its
  own index (`DemandIsPairingIff`).
* The scale gate adds int32 numbers. `GateAgreesIff` says when its answer is right, and `GateCanOverflow` gives an
  AppWrapper for which it is not.

## Model

| member | source | states |
|---|---|---|
| `AppWrapperController.Reconciler.Reconcile` | controllers/appwrapper_controller.go:91-158 | every call is one step of the state machine and keeps the cluster and the reconciler valid; with no failing call it is the step the AppWrapper's state and the backend ask for; a finalisation is reported done if and only if the finalizer went, a pass that changed a MachineSet is not reported done, and one reported done, with no failing call, left every demanded type served; the event is clean if and only if no call failed, and tells how the connection, the listing of pools and the update of the AppWrapper went; MachineSets are used if and only if no OCM secret is configured, and the machine type never changes after the first successful check |
| `AppWrapperController.Reconciler.ReconcileStored` | controllers/appwrapper_controller.go:115-157 | adopts, finalises, scales or does nothing as the AppWrapper's finalizer, state, deletion and conditions say, with the same meaning of the answer and the same truth of the event |
| `AppWrapperController.Reconciler.ReconcileNew` | controllers/appwrapper_controller.go:115-122 | adopts the AppWrapper and is done, or does nothing and asks to be called again if the update fails |
| `AppWrapperController.Reconciler.ReconcileEnding` | controllers/appwrapper_controller.go:124-133 | the step is one of the finalising events; the finalizer goes if and only if the finalisation returned no error and the update went through, and the answer is done in that case and an error otherwise; the event is clean if and only if no call failed |
| `AppWrapperController.Reconciler.ReconcilePending` | controllers/appwrapper_controller.go:135-155 | the step is a pass of the backend in use, with the demand of the AppWrapper; reported done with no failing call, it left every demanded type served by labelled machines or ready copies; the event is clean if and only if no call failed |
| `AppWrapperController.Reconciler.FinalizeScalingDownMachines` | controllers/appwrapper_controller.go:160-235 | what each backend undoes; with no failing call machines are handed over if and only if an heir is stored |
| `AppWrapperController.Reconciler.SetMachineType` | controllers/appwrapper_controller.go:237-254 | without an error the machine type is NodePool with name limit 15 if the cluster is hosted and MachinePool with 30 if not; on an error neither changes |
| `AppWrapperController.Reconciler.SetupWithManager` | controllers/appwrapper_controller.go:257-289 | a controller that starts uses MachineSets if and only if no OCM secret is configured, with the limit 30 |
| `AppWrapperController.FindExactMatch` | controllers/appwrapper_controller.go:321-362 | finds an heir only where one is; with no failing call finds one if there is one; an heir needs both `orderedinstance` labels empty |
| `AppWrapperController.DiscoverInstanceTypes` | controllers/appwrapper_controller.go:295-319 | the nested loops compute the demand characterised by the lemmas of `Demand` |
| `AppWrapperController.ContainsInsufficientCondition` | controllers/utils.go:70-77 | true if and only if some condition's message contains the word |
| `AppWrapperController.SwapNodeLabels` | controllers/machineset.go:657-690 | on every machine with the bare-name label the AppWrapper's own label becomes the heir's, and on its node the heir's name with the old namespace; all of them without an error, or those before the first error; no other label and nothing else changes |
| `Demand.EveryLabelNames` | controllers/utils.go:34-39 | every label lists exactly one sequence of underscore-free names joined by underscores |
| `Demand.NoLabelNoDemand` | controllers/appwrapper_controller.go:299-303 | without the label nothing is demanded |
| `Demand.LastWriterWins` | controllers/appwrapper_controller.go:309-317 | a type is demanded if and only if some position id+idx of the names that the label joins with underscores names it, with the value of the last such position in loop order |
| `Demand.DemandIsPairingIff` | controllers/appwrapper_controller.go:309-317 | with distinct and enough names, joined by underscores in the label, the demand pairs names and flattened replicas by position if and only if every non-empty item starts at its own index |
| `Demand.OrdinaryItemsAreAligned` | controllers/appwrapper_controller.go:309-317 | that is so for one pod template per item and for a single item |
| `Demand.TwoPodsThenOne` | controllers/appwrapper_controller.go:311-314 | an input for which it is not so, and the demand it yields |
| `GoPrimitives.JoinInvertsSplit` | controllers/utils.go:34-39 | joining the parts of a split text gives it back |
| `GoPrimitives.SplitInvertsJoin` | controllers/utils.go:34-39 | splitting a join of underscore-free names gives the names back |
| `GoPrimitives.ContainsIff` | controllers/utils.go:70-77 | a text contains a word if and only if it is the word with something before and after |
| `GoPrimitives.StrLessIff` | controllers/machineset.go:333-333 | one text is smaller if and only if the two agree up to a position where it ends or has the smaller character |
| `GoPrimitives.DecimalText` | controllers/machineset.go:264-266 | one digit more at the end for ten times the number plus the digit, and a dash for negative numbers |
| `GoPrimitives.WrapIsRemainder` | controllers/machineset.go:257-258 | int32 conversion and arithmetic, as a remainder modulo 2^32 |
| `GoPrimitives.AtoiInvertsFormatInt` | controllers/machineset.go:531-537 | a claim read back is the number written, for every Go int |
| `GoPrimitives.FormatIntInjective` | controllers/machineset.go:264-266 | equal claims mean equal demands |
| `GoPrimitives.DecimalTextOrder` | controllers/machineset.go:333-333 | the string comparison of two decimals compares their leading digits up to the shorter length, ties going to the shorter |
| `GoPrimitives.TextOrderAgreesIff` | controllers/machineset.go:333-333 | it is the numeric comparison if and only if the digit counts agree or the shorter number is at most the leading digits of the longer |
| `GoPrimitives.ShrinkTestAgreesAtEqualLength` | controllers/machineset.go:333-333 | it is the numeric comparison when digit counts agree, and an absent claim never shrinks |
| `GoPrimitives.ShrinkTestDisagrees` | controllers/machineset.go:333-333 | it is not for 9 and 10, either way round |
| `Model.KeysApart` | controllers/machineset.go:151-155 | the keys the controller writes differ from the keys it selects on |
| `Model.ClaimKeyInjective` | controllers/machineset.go:263-263 | equal claim keys mean equal AppWrapper labels |
| `Model.LabelsCanCollide` | controllers/machineset.go:151-151 | two valid AppWrappers with the same claim key |
| `Model.LabelsCollideIff` | controllers/machineset.go:151-151 | two AppWrappers share label and claim key if and only if they are the same, or the dash between name and namespace of one lies inside the name of the other |
| `ReuseController.FilterAwMachines` | controllers/machineset.go:149-173 | lists exactly the labelled running machines of the type, each once; none when the listing fails |
| `ReuseController.FilterAllRunningAwMachines` | controllers/machineset.go:175-197 | lists exactly the non-Deleting machines labelled with the bare name |
| `ReuseController.AddUpDemand` | controllers/machineset.go:205-211 | the wrapping sum is that of the mathematical sum, whatever the order of the map |
| `ReuseController.CanScaleMachineset` | controllers/machineset.go:199-221 | open if and only if the wrapped total is within the limit |
| `ReuseController.AddLabelToMachine` | controllers/machineset.go:622-643 | adds the label to that machine and to nothing else |
| `ReuseController.AddLabelToNode` | controllers/machineset.go:645-654 | adds the label to that node and to nothing else |
| `ReuseController.LabelRunningMachines` | controllers/machineset.go:285-308 | ends with min(demand, labelled before + unlabelled running machines of the MachineSet) labelled; labels only running machines, each with its node, and leaves all other labels |
| `ReuseController.CountAndLabel` | controllers/machineset.go:253-308 | the replicas asked for are old + demand - labelled running machines before the loop, as int32; the loop's labels grow within the demand, and with no failing call until the demand is labelled or no running machine of the MachineSet is left |
| `ReuseController.DecidePair` | controllers/machineset.go:310-363 | updates, waits or goes on exactly as isScaled, the labelled running machines, the gate and the claim say |
| `ReuseController.UpdateClaim` | controllers/machineset.go:328-351 | sets claim and replicas in one update, or takes the removal path if and only if the text of the demand is smaller |
| `ReuseController.RemoveMachinesBasedOnReplicas` | controllers/machineset.go:373-472 | ends; at most one MachineSet loses one replica, the owner named by a machine just marked; with no failing call one does if and only if more labelled machines run than demanded and a selected node leads to a MachineSet |
| `ReuseController.RemoveFirst` | controllers/machineset.go:389-468 | stops at the first MachineSet lowered, having marked the machines of the nodes visited |
| `ReuseController.RemoveOneMachine` | controllers/machineset.go:407-465 | marks the machine and lowers its owner by one if it exists |
| `ReuseController.ReusePair` | controllers/machineset.go:251-365 | isScaled is raised by exactly a claim equal to the demand, here or at an earlier MachineSet, and with no failing call the MachineSet is updated only if it is not raised or the labelled running machines are not as many as demanded; the loops go on, with an open gate, only if the type is served; with no failing call labelling came to its end at the MachineSet, and a removal lowers one if and only if more labelled machines run than demanded and a selected node leads to one |
| `ReuseController.ReconcileReuseMachineSet` | controllers/machineset.go:223-370 | one pass of the state machine; when it reports that it is done, with no failing call, labelling came to its end at every MachineSet of a demanded type, and with an open gate every demanded type that has a MachineSet has exactly the demanded number of labelled running machines |
| `ReuseController.MarkForDeletion` | controllers/machineset.go:475-520 | marks exactly the non-Deleting machines reached through labelled nodes |
| `ReuseController.GiveBackOne` | controllers/machineset.go:531-551 | takes the claim off the replicas, then the label; which of the two happened on an error |
| `ReuseController.RemoveMachineSetLabel` | controllers/machineset.go:692-719 | removes that one label of that one MachineSet |
| `ReuseController.ReleaseClaims` | controllers/machineset.go:521-553 | every holder is released, or the loop stopped at the first error with at most one label stuck |
| `ReuseController.AnnotateToDeleteMachine` | controllers/machineset.go:474-554 | marking followed by the release of the claims |
| `DuplicateController.CopyPair` | controllers/machineset.go:57-142 | creates the copy of the template with the demanded replicas, waits for it, or finds it available |
| `DuplicateController.CopyRound` | controllers/machineset.go:57-142 | goes on with all copies so far ready and the nodes of all machines of copies labelled, or ends the pass with a copy made or waited for |
| `DuplicateController.LabelCopyNodes` | controllers/machineset.go:115-141 | labels the nodes of exactly the machines that carry the copy label when no call fails |
| `DuplicateController.ReconcileCreateMachineSet` | controllers/machineset.go:43-147 | a pass creates at most one copy; a clean pass that reports it is done found the copy of every demanded type that has a template, with all its replicas available |
| `DuplicateController.DeleteCopies` | controllers/machineset.go:721-748 | deletes copies of the AppWrapper only, and all of them unless it returns an error |
| `PoolController.GenerateMachineName` | controllers/utils.go:41-61 | the name is the first min(length, limit-5) characters, a dash and four hexadecimal digits, within the limit |
| `PoolController.HexText` | controllers/utils.go:41-61 | the suffix is the number in base 16 with digits 0-9a-f |
| `PoolController.FirstMatch` | controllers/machinepools.go:47-54 | the replicas of some pool of the type with the AppWrapper's label, key and value alike; 0 when there is none |
| `PoolController.ScaleOneType` | controllers/machinepools.go:37-86 | adds one pool if the first match differs from the demand |
| `PoolController.ScalePools` | controllers/nodepools.go:29-91 | adds at most one pool per type, labelled and sized for the demand; with no failing call every type left alone may agree with its demand |
| `PoolController.DeletePools` | controllers/machinepools.go:90-123 | is an error if and only if the connection fails; deletes exactly the pools of the AppWrapper whose deletion is not refused, and none if the listing fails, which is not an error; its report of the connection and the listing is what the client saw |
| `Ledger.StepBalances` | controllers/machineset.go:253-259 | one event moves replicas by the change of the acting AppWrapper's claim plus the leak, as int32 |
| `Ledger.DriftAccounting` | controllers/machineset.go:525-552 | over any run, with any failures, replicas minus claims changes by exactly the leaks: old claim minus machines counted at a raise, old claim minus new minus one at a removal, minus the claim at a stuck label |
| `Ledger.FinalisationKeepsDrift` | controllers/machineset.go:521-553 | a finalisation, clean or not, leaves the drift of a MachineSet as it is if and only if its label was not stuck or its claim is 0 modulo 2^32 |
| `Ledger.LedgerBalances` | controllers/machineset.go:223-370 | an AppWrapper's net effect on a MachineSet over any run is the change of its claim plus its leaks, whatever others do |
| `Ledger.LedgerBalancesExactly` | controllers/machineset.go:257-258 | the same in unbounded arithmetic as long as nothing overflows |
| `Ledger.ClaimsStayDecimal` | controllers/machineset.go:329-329 | every claim in every reachable state is a canonical decimal and parses |
| `Lifecycle.ClaimsAreHeld` | controllers/appwrapper_controller.go:115-133 | no orphaned claims: under any failures a claim is of a stored AppWrapper with its finalizer, if `orderedinstance` is not empty |
| `Lifecycle.FinalisationReleasesIff` | controllers/appwrapper_controller.go:169-197 | a clean finalisation leaves no claim if and only if no heir is stored |
| `Lifecycle.OwnHeir` | controllers/appwrapper_controller.go:326-358 | an AppWrapper without a non-empty `orderedinstance` is its own heir if and only if the label is there and it is not pending |
| `Lifecycle.CopiesAreHeld` | controllers/machineset.go:721-748 | no orphaned copies, under any failures |
| `FixedDemand.ClaimsStayAgreed` | controllers/machineset.go:329-351 | with a fixed demand every claim is the demand, and the shrink path is never entered |
| `FixedDemand.ScalingChangesOneSet` | controllers/machineset.go:332-351 | a pass changes the replicas of at most one MachineSet |
| `FixedDemand.MeasureFalls` | controllers/machineset.go:261-268 | the demanded MachineSets without the claim become fewer with each raise and never more before finalisation |
| `FixedDemand.RaisesAreBounded` | controllers/machineset.go:233-367 | hence an AppWrapper raises at most that many times, whatever fails and whatever others do |
| `FixedDemand.GateIsExact` | controllers/machineset.go:205-220 | below 2^31 the gate is open if and only if machines plus demand are within the limit |
| `FixedDemand.GateAgreesIff` | controllers/machineset.go:205-220 | for all totals, the gate is open exactly when machines plus demand are within the limit if and only if the total fits int32 or wraps to the same side of the limit |
| `FixedDemand.GateCanOverflow` | controllers/machineset.go:209-211 | a stored, scalable AppWrapper whose demand is beyond any limit and passes the gate |
| `FixedDemand.ClaimsWithinLimit` | controllers/machineset.go:199-221 | with one MachineSet per type the claims of an AppWrapper never exceed the limit, in any reachable state |
| `Cancellation.NetEffectIsMinusCounted` | controllers/machineset.go:253-259 | from no claim to no claim the net effect is minus the machines counted by the raises, and zero if and only if that number is |
| `Cancellation.ReplicasAreRestored` | controllers/machineset.go:525-552 | once no AppWrapper carries the finalizer no claim is left, and replicas are the initial ones but for the environment and the leaks |
| `SoloLives.StaysSettled` | controllers/machineset.go:285-351 | between two passes the claim is set or nothing is labelled, never more than the demand is labelled, and labelled machines belong to the one MachineSet |
| `SoloLives.PassSettles` | controllers/machineset.go:251-351 | a clean pass that the gate lets through sets the claim and counts no machine |
| `SoloLives.PassLabelsExactly` | controllers/machineset.go:285-308 | after a clean pass, with the gate open or not, min(demand, labelled before + free running machines of the MachineSet) machines are labelled, or all running ones if more than the demand were before |
| `SoloLives.MarksMatchReplicas` | controllers/machineset.go:488-547 | the machines marked are the non-Deleting ones reached through labelled nodes, all of the MachineSet lowered, and no more than the replicas taken away |
| `SoloLives.ScaleUpAndFinalisationCancel` | controllers/machineset.go:474-554 | for one demanded type with one MachineSet the net effect up to and including the finalisation is zero, whatever others do short of handing their machines over to its label, and the marks match |
| `LifecycleOnFields.CleanReconcile` | controllers/appwrapper_controller.go:115-157 | with no failing call a reconcile finalises if and only if the AppWrapper carries the finalizer and is being deleted or "Completed"; scales up if and only if it carries it, is not being deleted, is "Pending" with an "Insufficient" condition and has a backend; adopts if and only if it does not carry it; hands over if and only if, besides, it asks for no instances and some stored AppWrapper that is not pending has the empty label |
| `LifecycleOnFields.ActsOnlyOn` | controllers/appwrapper_controller.go:115-155 | with any failures it finalises, scales up or adopts only then |
| `LifecycleOnFields.LiveAppWrapperIsNotUndone` | controllers/appwrapper_controller.go:124-133 | as long as the AppWrapper is neither being deleted nor "Completed", no reconcile of it drops its finalizer, removes a MachineSet, a claim or a pool, or marks a machine outside the shrink path |
| `LifecycleOnFields.FinalizersOnFields` | controllers/appwrapper_controller.go:115-133 | adopting and finalising write that one finalizer of that one AppWrapper; one being deleted goes with its last finalizer |
| `LifecycleOnFields.BackendByText` | controllers/appwrapper_controller.go:167-168 | "reuse" and "duplicate", in any case of their letters, and nothing else, name the two MachineSet strategies |
| `LifecycleOnFields.DoneMeansLabelled` | controllers/machineset.go:223-370 | a done answer of the reuse strategy with no failing call: at every demanded MachineSet as many machines have the label as demanded or no running one is without, and with an open gate as many run as demanded |
| `ReuseOnFields.PassOnMachines` | controllers/machineset.go:285-308 | a pass puts the label, key and value alike, on running machines of MachineSets of demanded types and on their nodes, marks machines in the shrink path only, and writes nothing else on them |
| `ReuseOnFields.RaiseChangesOneSet` | controllers/machineset.go:253-351 | a raise sets one MachineSet's claim text and its replicas to old + demand - labelled running machines, as int32, with the gate's machines plus demand within the limit, and touches no other |
| `ReuseOnFields.UpdatesOnlyWhenDue` | controllers/machineset.go:261-313 | with no failing call a pass that visited a MachineSet with the claim set updates or lowers one only if another number of labelled machines runs than is demanded |
| `ReuseOnFields.ShrinkLowersOneSet` | controllers/machineset.go:373-472 | the shrink path takes one replica from at most one MachineSet; with no failing call from one if and only if more labelled machines run than demanded and a node with the bare name leads through its machine to one |
| `ReuseOnFields.NodeNamesMachine` | controllers/machineset.go:407-412 | the machine of a node is the text after the slash of its annotation |
| `ReuseOnFields.ReleaseOnFields` | controllers/machineset.go:474-554 | the finalisation takes each claim off the replicas and removes that label, and marks just the non-Deleting machines that labelled nodes name; all claims when the finalizer goes, all machines when no call fails |
| `ReuseOnFields.SwapOnFields` | controllers/machineset.go:556-690 | the hand-over exchanges one label on machines with the bare name and on their nodes, and writes nothing else |
| `DuplicateOnFields.CopyOnFields` | controllers/machineset.go:57-99 | a pass makes at most one MachineSet, name-namespace-type, of a demanded type and with its demand, whose selector is its template's labels and which is otherwise its source, and labels nodes of machines |
| `DuplicateOnFields.CopyTextInjective` | controllers/machineset.go:66-66 | copies for different types have different names |
| `DuplicateOnFields.ReadyMeansServed` | controllers/machineset.go:84-113 | in any run, all copies ready means that every demanded type with a template has its own MachineSet of that type, labelled as a copy, with the demanded replicas and as many available |
| `DuplicateOnFields.DoneMeansNodesLabelled` | controllers/machineset.go:115-141 | a done answer with no failing call means that the nodes of all machines of copies are labelled |
| `DuplicateOnFields.DiscardOnFields` | controllers/machineset.go:721-748 | the finalisation deletes MachineSets with the AppWrapper's copy label and no others, all of them when the finalizer goes |
| `PoolsOnFields.DropPoolsOnFields` | controllers/machinepools.go:99-120 | a deletion pass leaves every pool without the AppWrapper's label as it is, and with no failing call none with it |
| `PoolsOnFields.AddPoolsOnFields` | controllers/machinepools.go:47-86 | a pass leaves the pools there, and adds at most one per demanded type, with the label and the demand, where there is none or one with other replicas; with no failing call every demanded type has a pool |
| `Example.ZeroOneZero` | functional-tests/appwrapper_reconciler_test.go:183-219 | a run from 0 replicas to 1 and, when the AppWrapper is deleted, back, in which a machine is labelled and marked; it meets the hypotheses of that theorem |
| `Witnesses.CountedMachinesAreLost` | controllers/machineset.go:253-268 | a run without a failing call in which a pass labels a machine while the gate is closed, a later raise counts it, and the net effect is -1 |
| `Witnesses.ClosedPassIsForced` | controllers/machineset.go:285-312 | at the first state of that run every clean pass is the one that labels the machine |
| `Witnesses.CountingPassIsForced` | controllers/machineset.go:253-351 | at the third state every clean pass counts the machine and claims one without adding a replica |
| `Witnesses.OrderDecides` | controllers/machineset.go:233-351 | a state with two MachineSets of one type in which a clean pass changes nothing or claims at the second one as well, depending on which is listed first |
| `Witnesses.ClaimGivenBackTwice` | controllers/machineset.go:531-551 | a run in which a label removal fails and the next finalisation takes the same claim again |
| `Witnesses.ClaimLeftBehind` | controllers/appwrapper_controller.go:169-180 | a run in which a hand-over drops the finalizer of an AppWrapper that holds a claim |
| `BareName.BareNameSelectsNothing` | controllers/machineset.go:175-185 | over any run in which nobody else writes the bare name, with any failures, the gate counts no machine of the AppWrapper and no removal marks or lowers anything |
| `DuplicateRuns.OriginalsUntouched` | controllers/machineset.go:57-98 | no event of the controller changes, adds or removes a MachineSet that is not a copy |
| `DuplicateRuns.CollectionIsRestored` | controllers/machineset.go:721-748 | under any failures the originals are the same in every reachable state, and once no AppWrapper carries the finalizer the collection is the initial one, copies of copies included |
| `DuplicateRuns.OneCopyPerType` | controllers/machineset.go:80-99 | at most one copy per AppWrapper and type, with the demanded replicas |
| `DuplicateRuns.OneReconcileCreatesOne` | controllers/machineset.go:90-98 | a reconcile creates at most one MachineSet, under the copy's name |
| `DuplicateRuns.MissingFalls` | controllers/machineset.go:85-99 | the demanded types with a template and no copy become fewer with each create and never more |
| `DuplicateRuns.CreatesAreBounded` | controllers/machineset.go:50-99 | hence an AppWrapper creates at most as many MachineSets as it demands types |
| `PoolRuns.OnePoolPerType` | controllers/machinepools.go:37-86 | at most one pool per AppWrapper and type, with the demanded replicas, in every reachable state |
| `PoolRuns.RepeatedPassChangesNothing` | controllers/machinepools.go:56-86 | after a clean pass every demanded type has its pool, and then a pass adds none |
| `PoolRuns.PoolsAreRestored` | controllers/machinepools.go:99-120 | as long as no pass that drops the finalizer fails to list or delete, initial pools stay as they are, and once no AppWrapper carries the finalizer there are no others |
| `PoolRuns.DeletionIsExact` | controllers/nodepools.go:102-123 | a deletion pass leaves all other pools; it drops the finalizer if and only if the connection and the update succeed, and then leaves none of its own pools if and only if there were none or the listing and all deletions succeeded |
| `PoolRuns.FailedDeletionLeaks` | controllers/machinepools.go:106-120 | both for a failed listing and for a failed deletion, a step after which a pool is left and its AppWrapper's finalizer is gone |
| `Finalisation.FinalisedOwnsNothing` | controllers/appwrapper_controller.go:124-133 | a finalisation that drops the finalizer leaves no claim, copy or pool, if `orderedinstance` is not empty and no listing or deletion of pools failed |
| `Finalisation.FinalisationIsIdempotent` | controllers/appwrapper_controller.go:115-133 | after it no reconcile of an AppWrapper that stays completed, deleting or gone changes any MachineSet or pool, in any of the backends |

## Left out

- PoolController.ScalePools: pagination is not modelled; a listing is complete
- AppWrapperController.Reconciler.SetMachineType: whether the cluster is hosted is a constant of the reconciler, and the cluster identifier is arbitrary
- SoloLives.ScaleUpAndFinalisationCancel: asks that no machine or node carries the label at first and that neither the environment nor a hand-over puts it on one; NetEffectIsMinusCounted says what happens otherwise, CountedMachinesAreLost that it does
- AppWrapperController.Reconciler.Reconcile: the result is done, requeue or failed, without the delay before the next call
- DuplicateController.CopyPair: the template's provider configuration is one instance type field; its JSON decoding is left out
- Machines that two AppWrappers label at the same time: labels of different AppWrappers are independent, and the theorems count each on its own
- The list of existing machine names and its membership test, which serve a log message only
- Status resets and defaulting by the API server other than the available replicas of a new MachineSet
- Deletion of a MachineSet takes effect at once; finalizers on MachineSets are not modelled
- Lower-casing of the strategy name beyond ASCII
- Stale caches, resource-version conflicts as such (they are failing calls), concurrent reconciles
- OCM connections, tokens and cluster identifiers, Kubernetes client set-up, flags, configuration maps and logging
- A bound on all AppWrappers together and convergence of a reduced demand, which the code does not provide
