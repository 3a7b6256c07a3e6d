# EIP operator: verification model

The operator gives AWS Elastic IP addresses to Kubernetes pods and nodes. An `Eip` object selects a pod by
name or nodes by labels. Three controllers (Eip, pod, node), a sweep at startup and a labeller of egress
nodes work at the same time on two stores that know nothing of each other: the Kubernetes API server and
AWS EC2. Every call can fail, every copy can be out of date, and the process can die between any two calls.
A second program, an agent, keeps the marks in place that route answers out of the interface a connection
came in on.

The project proves what holds in spite of that, and where the operator ends up when it is left alone.

## How it is built

| part | files | what it is |
|---|---|---|
| stores | `Base`, `Kube`, `Aws` | Eips, pods, nodes, addresses; each call of `eip.rs` and `aws.rs` as a function of the store, with its own concurrency rule: compare-and-swap on the version, merge patch by name, or server-side apply |
| small steps | `Protocol`, `Calls` | a transition system: one step is one API call of one reconcile, a step of a user or of the cluster, a start of a reconcile from any copy the watch may still deliver, a failure, a crash, or a step of the sweep |
| invariant | `Invariants`, `Interference`, `Effects`, `EipSteps`, `ActorSteps`, `Runs` | what holds of the stores and of every copy a task holds; each call keeps it, and keeps what the other tasks rely on (rely/guarantee) |
| results over all runs | `Safety`, `PodAddresses` | the main theorems on reachable states and steps |
| controllers | `Services`, `Uninterrupted`, `ReconcileCalls`, `Detaching`, `NodeController`, `PodController`, `EipController`, `Atomic`, `PodResults` | the reconciles as methods that change the stores call by call; each is proved to be a run of the transition system, and to do what one function of the state says |
| convergence | `Settling`, `Convergence`, `ApplyTurns`, `Turning`, `Rest`, `Watches`, `TurnRuns` | reconciles one after another in a quiet cluster, applies and cleanups: a measure, its decrease, and the states of rest; and each such turn is a run of the transition system |
| limits | `Limits`, `Stranding`, `StrandingSteps`, `Witnesses` | what does not hold of nodes: exactly when, and runs from the beginning in which it happens |
| other parts | `Eni`, `Startup`, `Selectors`, `Egress`, `Finalizers`, `Agent` | interface lookup, startup sweep with real tags, selector printing and matching, egress hand-over, legacy finalizer removal, the agent |

### The main results

- Over all interleaved runs: `Runs.InvRun`, and on it `Safety.OneAddressPerUid`, `NoLeak`, `AllocationIsForever`,
  `ClaimSafety`, `MoveSafety`, `DisassociationIsolated`, `NoSelfConflict`, `PodClaimsAreLive`,
  `PodCleanupComplete`, `NodeCleanupComplete`, `EachEipConserved` and `AutocreatedEipGoes`;
  `PodAddresses.AttachedIsClaimed` and `PodCleanupLoosens`.
- Of single reconciles: `Apply` and `Cleanup` of the three controllers, and `PodResults.PodApplyIdempotent`.
- Left alone: `Turning.TurnProgress`, `Rest.Converges`, `Rest.RestIsCalm`, `Rest.ReachableIsSane`, and for the
  operator's own runs `TurnRuns.TurnIsRun` and `OperatorConverges`.
- What does not hold, exactly: `Rest.NotReadyWithdraws`, the lemmas of `Limits`, `Stranding.OnlyWithdrawalStrands`,
  `StrandingSteps.OnlyTheseStrand`, the runs of `Witnesses`.
- Beside the controllers: `Startup.Ec2.CleanupOrphanEips` with `LiveAddressIsKept`,
  `Selectors.ListingIsResources`, `Egress.LabelEgressNodes` with `NeverUnserved`, `Finalizers.RemovalIsSafe`,
  `Eni.FromPrivateIpIsFirstOwner`, `Agent.EveryPassCompletes` and `AnswersLeaveWhereTheyCameIn`.

### What is taken for granted

- Kubernetes: one global counter gives resource versions. `replace_status` succeeds only if the version is
  current; a merge patch is unconditional; a write that changes nothing takes no version. Names are reused,
  uids are not.
- Scheduling: reconciles of one object never overlap, and node reconciles never overlap at all. A reconcile
  may start from an old copy, but copies of one object never go back, also over a restart of the process. A
  finalizer is there before an apply runs, and goes only after a cleanup has succeeded. Node copies are
  arbitrary.
- AWS: allocation and association ids are fresh, and what has been allocated is seen by every later listing.
  Associating an address takes it from where it was and displaces whatever was at that interface and IP.
  Releasing an associated or a missing address fails. Nobody else releases the operator's addresses.
- One operator process; an Eip's selector does not change; pods and nodes do not share names (a pod's
  cleanup does not look at the kind of selector, `eip_operator/src/controller/pod.rs:129-133`).
- Convergence starts in any reachable state. It also takes for granted that from then on no call fails,
  nothing is created, changed or newly deleted from outside, every turn works on current copies, the server
  lists Eips in a fixed order, and no two resources that stay share an interface and IP. Eips, pods and nodes
  may be in deletion: their turns are cleanups, after which they go. A node in deletion is one whose name is in
  the set `leaving`; a pod's interface can be found only while its node is there. For the operator's own runs
  (`TurnRuns`) every object that gets a turn is one the operator watches, and a pod whose annotation names an
  interface has that one.

### What the code does not do

Four things one might expect do not hold of the code. Each is stated as it is, with the exact condition and
a run from the beginning in which it happens:

- a node claims at most one Eip: a ready node's reconcile adds its first choice to its claims exactly if that
  Eip's address is there but not at the node, and gives no claim up (`Limits.NodeTurnClaims`,
  `Witnesses.NodeClaimsTwo`);
- an address at a node belongs to an Eip that the node claims. Three calls break this and no other call, step
  of a user or crash does, in any interleaving (`StrandingSteps.OnlyTheseStrand`). Call by call:
  - a node that is not ready gives up the claim in the status only: after its reconcile an address is unclaimed
    at its place exactly if it was, or if the node says where it is and the Eip is its first choice
    (`Limits.NotReadyLeavesAddress`, `Witnesses.UnclaimedAtNode`);
  - an Eip's reconcile that withdraws a claim disassociates only the id that its status names, which is written
    last and by a patch of its own. If a reconcile stopped before that patch, the id is missing or old, and the
    address stays where it is without its claim: exactly then (`Limits.EipTurnLeavesAddress`,
    `Witnesses.WithdrawnInPlace`). Among whole reconciles, from any sane state, it is the only one that can do
    this to a node in service (`Stranding.OnlyWithdrawalStrands`);
  - a node's associate can come after its claim has been withdrawn (`Witnesses.AssociatesLate`).

  A ready node's reconcile leaves such an address exactly if there was one and it takes nothing
  (`Limits.ReadyLeavesUnclaimed`). Of pods it does hold: an Eip for a pod whose recorded address is on an
  interface is claimed by that pod, in every reachable state (`PodAddresses.AttachedIsClaimed`);
- a node's cleanup takes away all its claims: it leaves exactly those on Eips that do not match its labels
  (`Limits.CleanupLeavesUnmatched`, `Safety.NodeCleanupComplete`, `Witnesses.ClaimOutlivesNode`);
- at rest, a node that is not ready claims nothing: it withdraws a claim exactly if it has an IP, a well-formed
  provider id and a Ready condition, and the Eip is its first choice; so a claim stays if one of these is
  missing, or behind an unclaimed Eip that is listed earlier (`Rest.NotReadyWithdraws`, `Rest.NotReadyAtRest`,
  `Witnesses.NotReadyKeepsItsClaim`).

The comment on `cleanup_orphan_eips` speaks of pod uids; the code compares Eip uids
(`eip_operator/src/main.rs:237-246`), and the model follows the code.

## Model

| member | source | states |
|---|---|---|
| Runs.InvStep | eip_operator/src/main.rs:111-183 | every step of every reconcile, user, crash or sweep keeps the invariant of the stores, of all copies held by running reconciles and of the startup phase |
| Runs.InvRun | eip_operator/src/main.rs:56-187 | so does every run, of any length and interleaving |
| Calls.CallEffect | eip_operator/src/controller/eip.rs:43-195 | each call changes the two stores only by the write it names; a refused write changes nothing |
| Safety.OneAddressPerUid | eip_operator/src/controller/eip.rs:53-91 | no two addresses ever carry the uid of the same Eip, whatever crashed between allocating and recording |
| Safety.NeverTwoTagged | eip_operator/src/controller/eip.rs:88-90 | so the listing by uid never has two entries and that error is never returned |
| Safety.NoLeak | eip_operator/src/controller/eip.rs:176-195 | in every reachable state each address belongs to an Eip that exists, with its finalizer, in the tagged namespace |
| Safety.NothingLeftBehind | eip_operator/src/aws.rs:174-188 | when an Eip is gone no address carries its uid, however often cleanup stopped midway or raced an associate |
| Safety.SweepIsHarmless | eip_operator/src/main.rs:244-254 | the sweep after any crash disassociates and releases nothing the operator has allocated for Eips |
| Safety.AllocationNamesTheAddress | eip_operator/src/controller/eip.rs:92-101 | until deletion starts a recorded allocation is the one live address with the Eip's uid, with that public IP; a claimed Eip has one |
| Safety.AllocationIsForever | eip_operator/src/eip.rs:353-377 | over any run, a recorded allocation and public IP never change |
| Safety.ClaimSafety | eip_operator/src/eip.rs:403-448 | a claim never passes from one resource to another directly; only the resource itself makes it; only the resource itself, or for a node an Eip reconcile whose listing lacks it, withdraws it |
| Safety.MoveSafety | eip_operator/src/controller/node.rs:118-186 | whenever a resource moves an Eip's address to itself, or its cleanup takes it off, nobody else claims that Eip at that moment |
| Safety.AssociationIsOwn | eip_operator/src/eip.rs:379-401 | the association a status names is never one of another Eip's address, also when the name was reused |
| Safety.DisassociationIsolated | eip_operator/src/controller/eip.rs:124-131 | an Eip reconcile's disassociate call changes nothing but that association of that Eip's own address: neither another Eip's nor a newer one |
| Safety.SwapSeesCurrent | eip_operator/src/eip.rs:403-448 | every compare-and-swap that changes the store, a claim or a clearing by an Eip's reconcile, a node's or a cleanup, was based on the object as it is, so it overwrites nothing unseen |
| Safety.NoSelfConflict | eip_operator/src/controller/eip.rs:92-131 | when an Eip reconcile withdraws a claim, its own earlier status write was no change, so it cannot make the withdrawal fail |
| Safety.PodClaimsAreLive | eip_operator/src/controller/pod.rs:118-152 | in every reachable state a pod that is claimed for exists and has its finalizer |
| Safety.PodCleanupComplete | eip_operator/src/controller/pod.rs:118-152 | when a pod's cleanup is past its loop, no Eip of the namespace names the pod, whatever ran in between |
| Safety.NodeCleanupComplete | eip_operator/src/controller/node.rs:165-192 | over all interleavings, when a node's cleanup is past its loop, the node claims only Eips of its namespace that do not match the labels of the copy |
| PodAddresses.AttachedIsClaimed | eip_operator/src/controller/pod.rs:93-147 | in every reachable state an Eip for a pod whose recorded address is on an interface is claimed by that pod: no failed call, crash or interleaving leaves an address attached without its claim |
| PodAddresses.PodCleanupLoosens | eip_operator/src/controller/pod.rs:118-152 | when a pod's cleanup has succeeded, no Eip that selects the pod is claimed, and none has its recorded address on an interface, whatever ran since the cleanup took them off |
| Safety.DetachedMeansUnassociated | eip_operator/src/controller/pod.rs:135-147 | whenever a cleanup is about to clear a claim, the Eip's address has no association |
| Safety.AddressStaysOn | eip_operator/src/controller/eip.rs:176-195 | over any run, an address stays allocated, with its uid, unless the cleanup of its Eip has begun |
| Safety.EachEipConserved | eip_operator/src/controller/pod.rs:148-151 | over any run, an Eip that had an address and is not being deleted has exactly that address, and an Eip that is gone has none: an autocreated Eip leaves nothing behind, however many applies, aborts and retries there were |
| Safety.Conservation | eip_operator/src/controller/eip.rs:61-91 | over any run after which just the Eips are left that had addresses before, and none is being deleted, exactly the same addresses are allocated |
| Safety.AutocreatedEipGoes | eip_operator/src/controller/pod.rs:148-151 | once the cleanup of a pod has deleted the Eip made for it, then after any further run that Eip is in deletion, or gone for good with every address it ever had |
| Kube.FirstFree | eip_operator/src/controller/node.rs:70-75 | the Eip found is free for the node, and if none is found none is free |
| Kube.FirstFreeIsFirst | eip_operator/src/controller/node.rs:70-75 | it is the first such Eip of the listing |
| Protocol.InstanceId | eip_operator/src/controller/node.rs:52-57 | the instance id is what follows the last slash, and is missing exactly if there is no slash |
| NodeController.Controller.Apply | eip_operator/src/controller/node.rs:38-151 | the reconcile is a run of the transition system whatever calls fail; when it succeeds it has done what `NodeApplied` says. In terms of the stores: whatever fails, only the first Eip of the listing that matches and names no resource or the node is touched, and an address moves only to the node's own IP on the first interface of its instance that owns it; on success that Eip's address is there and the status tells so, or the status is cleared if the node is not ready; every answer is given with its condition, and a requeue happens exactly if the claim was answered with a conflict |
| NodeController.Controller.LetGo | eip_operator/src/controller/node.rs:85-100 | a node that is not ready clears the claim in the status, and touches no address |
| NodeController.ChoiceIsFirst | eip_operator/src/controller/node.rs:60-75 | the Eip chosen is the first of the listing that matches the node and names no resource or the node; none is chosen only if there is none |
| NodeController.InterfaceKnown | eip_operator/src/controller/node.rs:112-117 | the interface looked up is the first of the node's instance that owns its IP, and it is missing exactly if none is known to |
| NodeController.Controller.Take | eip_operator/src/controller/node.rs:106-150 | claim by compare-and-swap, then associate, then record, unless the address is in place; afterwards the address is on an interface that owns the node's IP; exactly a conflict of the claim is answered with a requeue, and then nothing has changed |
| NodeController.Controller.Cleanup | eip_operator/src/controller/node.rs:155-193 | on success exactly the Eips of the namespace that match the node and name it are free, exactly their addresses are loose, and the node is labelled "false"; when no call fails it succeeds exactly if those Eips have their addresses and the node is there, and else says which is missing |
| PodController.Controller.Apply | eip_operator/src/controller/pod.rs:34-114 | as for nodes, with the Eip created first if the pod asks for it. In terms of the stores: an address moves only to the pod's IP on the annotated interface or the first one of its node's instance that owns it; if no Eip selects the pod it succeeds, if several do it fails with that error, and in both cases nothing but the Eip asked for has changed; if one does, on success the pod has its address, as for `Take`; every other answer is given with its condition |
| PodController.Controller.Locate | eip_operator/src/controller/pod.rs:57-75 | the interface is the annotated one, or the first of the node's instance that owns the pod's IP; else the error names the first thing that is missing, in the order of the code |
| PodController.Controller.Attach | eip_operator/src/controller/pod.rs:76-113 | if no Eip of the namespace selects the pod it succeeds and changes nothing; if two do it fails with `MultipleEipsTaggedForPod` and changes nothing; if one does, the answer depends on its address and on the pod as stated; in any listing order |
| PodController.SelectingAre | eip_operator/src/controller/pod.rs:76-92 | the filter finds none, one or several Eips exactly as none, one or several of the namespace select the pod |
| PodController.Controller.Take | eip_operator/src/controller/pod.rs:93-113 | the claim is written always, the address is moved only if it is elsewhere, the annotation last; on success status, place and annotation agree, and after a move the status names the new association |
| PodController.TakenIs | eip_operator/src/controller/pod.rs:93-113 | the same of the state that a pod's taking leaves: claim, interface, IP, address, annotation and, after a move, association |
| PodController.Controller.Move | eip_operator/src/controller/pod.rs:101-111 | the address moves to the pod's interface and IP and its association is recorded, or the first failed call ends the reconcile |
| PodController.Controller.Cleanup | eip_operator/src/controller/pod.rs:118-153 | on success exactly the Eips of the namespace that named the pod are free, exactly their addresses are loose, and the Eip of the pod's name is deleted just if the pod is marked for autocreation; then the pod goes; when no call fails it succeeds exactly if those Eips have their addresses, and else says what is missing |
| Detaching.ClaimedAreCurrent | eip_operator/src/controller/pod.rs:127-133 | in any listing order, the filter gives exactly the Eips of the namespace that name the resource, each once |
| Detaching.DetachEips | eip_operator/src/controller/pod.rs:135-147 | the loop frees exactly the listed Eips and loosens exactly their addresses, or stops at the first failed call; without failed calls it stops exactly at an Eip that has no address |
| Detaching.CleanupMeans | eip_operator/src/controller/pod.rs:127-147 | what the loop has freed and loosened is exactly the claims of the resource and their addresses, by namespace, name and, for a node, labels |
| EipController.Controller.Apply | eip_operator/src/controller/eip.rs:43-172 | the reconcile is a run of the transition system whatever calls fail. On success the status names the one address with the Eip's uid, or, if the copy's claim is by a resource that does not match, the claim, the place and the association are gone from the status and no address has that association. From a copy that is not current such a claim is answered with a conflict, never with success. Whatever fails, no other Eip is touched and at most one address is new, the Eip's own. It asks exactly the matching resources to reconcile, or none if one of them has the Eip |
| EipController.Controller.FindOrAllocate | eip_operator/src/controller/eip.rs:53-91 | the one address tagged with the uid, or a new one; more than one is an error and changes nothing |
| EipController.Controller.Check | eip_operator/src/controller/eip.rs:94-171 | a claim by a resource that is not listed is withdrawn, with the association that the status names, that one and no other, or the reconcile fails: with a conflict exactly if the copy is not current; any other claim stays and nothing changes |
| EipController.Controller.Cleanup | eip_operator/src/controller/eip.rs:176-195 | on success no address carries the Eip's uid and the object goes, as `EipCleaned` says; every other address is as it was, also when a call failed |
| EipController.Controller.DisassociateAndRelease | eip_operator/src/aws.rs:174-188 | the address is released after its association, if the listing showed one, is removed; on failure at most the association is gone |
| Eni.FindIp | eip_operator/src/aws.rs:225-238 | the interface's id, if it has one and the IP is among its own |
| Eni.FindNic | eip_operator/src/aws.rs:223-239 | the first interface with an id that owns the IP; none only if none does |
| Eni.FromPrivateIpIsFirstOwner | eip_operator/src/aws.rs:214-241 | sound and complete over lists with anything missing; the lookup panics exactly if a reservation or instance list is present and empty |
| Services.Ec2.FindInterface | eip_operator/src/aws.rs:214-241 | the controllers' lookup answers with the first interface of the instance that owns the IP, and when it does not fail with none only if none is known to own it |
| PodResults.MatchesOne | eip_operator/src/controller/pod.rs:76-92 | in any listing order, the filter gives a single Eip exactly if one Eip of the namespace selects the pod |
| PodResults.CreatedStays | eip_operator/src/eip.rs:322-337 | once the pod's Eip is there with the pod's selector, creating it again changes nothing |
| PodResults.TakingServes | eip_operator/src/controller/pod.rs:93-113 | afterwards claim, interface, IP and annotation agree with where the address is; no other Eip, pod or address changes but the one displaced |
| PodResults.AppliedServes | eip_operator/src/controller/pod.rs:34-114 | a pod reconcile that reaches its Eip serves the pod |
| PodResults.PodApplyIdempotent | eip_operator/src/controller/pod.rs:34-114 | a second reconcile, in any listing order, changes nothing in either store: no version, no association |
| Convergence.AssociateBrings | eip_operator/src/aws.rs:97-114 | the address is at the interface and IP afterwards; an address that was elsewhere stays there |
| Convergence.RecordLess | eip_operator/src/controller/eip.rs:53-92 | recording an address brings the operator closer to rest |
| Convergence.WithdrawLess | eip_operator/src/controller/eip.rs:122-132 | so does withdrawing a claim by a resource that does not match or is not ready |
| Convergence.ClaimLess | eip_operator/src/controller/node.rs:121-124 | so does a claim by one that matches and is ready |
| Convergence.NodeMoveLess | eip_operator/src/controller/node.rs:126-136 | so does bringing an address to the node that claims it: nobody else's address is led astray |
| Convergence.PodMoveLess | eip_operator/src/controller/pod.rs:101-111 | the same for a pod |
| Convergence.CleanLess | eip_operator/src/controller/node.rs:87-96 | so does clearing an unclaimed status that still tells of a place |
| Convergence.SyncLess | eip_operator/src/controller/pod.rs:100-113 | so does bringing status and annotation up to date |
| Turning.CleanProgress | eip_operator/src/controller/eip.rs:176-195 | the cleanup of an Eip in deletion brings the operator closer to rest |
| Turning.PodCleanupProgress | eip_operator/src/controller/pod.rs:118-153 | so does that of a pod, also if it stops at an Eip whose address is already released; with all addresses there, the pod goes |
| Turning.NodeCleanupProgress | eip_operator/src/controller/node.rs:155-193 | the same for a node in deletion |
| Turning.EipTurnProgress | eip_operator/src/controller/eip.rs:43-195 | an Eip's turn (finalizer, apply or cleanup) changes nothing, or comes closer to rest |
| Turning.NodeTurnProgress | eip_operator/src/controller/node.rs:38-193 | the same for a node's turn |
| Turning.PodTurnProgress | eip_operator/src/controller/pod.rs:34-153 | the same for a pod's turn |
| Turning.TurnProgress | eip_operator/src/main.rs:130-158 | every turn keeps the assumptions of convergence, and changes nothing or decreases the measure |
| Rest.ComesToRest | eip_operator/src/main.rs:130-158 | in every infinite run of turns, applies and cleanups, only finitely many change anything |
| Rest.RestIsCalm | eip_operator/src/controller/eip.rs:109-195 | the states of rest are exactly the calm ones: nothing is in deletion or without a finalizer, addresses are recorded, no claim is by a resource that does not match, every ready node's first choice is at the node, every pod is served |
| Rest.CalmStays | eip_operator/src/controller/node.rs:38-193 | in a calm state no turn changes anything |
| Rest.Converges | eip_operator/src/main.rs:130-158 | every fair run reaches a calm state and stays in it |
| Rest.NotReadyWithdraws | eip_operator/src/controller/node.rs:51-100 | a node that is not ready withdraws its claim on an Eip exactly if it says where it is and whether it is ready, and that Eip is its first choice |
| Rest.NotReadyAtRest | eip_operator/src/controller/node.rs:51-100 | at rest, one that says where it is keeps a claim on a matching Eip only behind an unclaimed Eip listed earlier |
| Watches.ReachableWatches | eip_operator/src/main.rs:130-158 | in every reachable state the current object is the latest its watch can deliver, so a reconcile from it can start |
| TurnRuns.TurnIsRun | eip_operator/src/main.rs:130-158 | from a reachable state in which nothing is going on, every turn, apply, cleanup or finalizer, is a run of the transition system to the state the turn gives, but for what the scheduler notes |
| TurnRuns.StatesAreReached | eip_operator/src/main.rs:130-158 | so every state of a run of turns is one the operator reaches |
| TurnRuns.OperatorConverges | eip_operator/src/main.rs:130-158 | and a fair run of its reconciles brings the operator itself to a calm state |
| TurnRuns.NodeApplyRuns | eip_operator/src/controller/node.rs:38-151 | what `NodeApplied` says of a node's reconcile is a run of the transition system, in every branch |
| Rest.ReachableIsSane | eip_operator/src/main.rs:130-158 | every reachable state is one convergence starts from, also with deletions pending or cleanups half done |
| Limits.NodeTurnClaims | eip_operator/src/controller/node.rs:70-149 | after a ready node's reconcile it claims exactly what it did, and its first choice if that Eip's address is there but not at the node |
| Limits.ReadyLeavesUnclaimed | eip_operator/src/controller/node.rs:118-137 | a ready node's reconcile leaves an address at the node that it does not claim exactly if there was one and it takes nothing |
| Limits.NotReadyLeavesAddress | eip_operator/src/controller/node.rs:87-100 | after the reconcile of a node that is not ready an address is unclaimed at its place exactly if it was, or if the node says where it is and the Eip is its first choice |
| Limits.EipTurnLeavesAddress | eip_operator/src/controller/eip.rs:109-132 | a withdrawn claim can leave the address attached: after the reconcile of an Eip that has an address, the address is unclaimed at a place exactly if it was there, unclaimed or with its claim withdrawn now, and, if a claim is withdrawn, the status did not name the association it has |
| Stranding.OnlyWithdrawalStrands | eip_operator/src/controller/eip.rs:122-132 | of all turns of Eips, pods and nodes, exactly such a withdrawal leaves a node in service with an address that it does not claim, if it had none before |
| StrandingSteps.OnlyTheseStrand | eip_operator/src/controller/node.rs:85-137 | over all interleavings, an address comes to be at a place while the given node does not claim its Eip exactly by an associate there that finds the claim gone, by the clearing of the node's reconcile when it is not ready, or by that of the Eip's own when its listing lacks the node; never by a cleanup, a user, a crash or the sweep |
| StrandingSteps.ReachableUnrecorded | eip_operator/src/controller/eip.rs:53-92 | in every reachable state the address of an Eip that has not recorded it yet is on no interface |
| Limits.CleanupLeavesUnmatched | eip_operator/src/controller/node.rs:165-172 | after a node's cleanup it still claims exactly those of its Eips that do not match its labels |
| Witnesses.NodeClaimsTwo | eip_operator/src/controller/node.rs:70-75 | a reachable state in which a node claims two Eips |
| Witnesses.NotReadyKeepsItsClaim | eip_operator/src/controller/node.rs:70-100 | a reachable state of rest in which a node that is not ready claims an Eip |
| Witnesses.UnclaimedAtNode | eip_operator/src/controller/node.rs:87-120 | a reachable state in which an address is at a ready node that does not claim it, and the node's turn changes nothing |
| Witnesses.WithdrawnInPlace | eip_operator/src/controller/eip.rs:122-132 | a reachable state in which a node in service claims an Eip, and the Eip's turn leaves the address there without the claim |
| Witnesses.AssociatesLate | eip_operator/src/controller/node.rs:121-136 | a reachable state in which a node's next call associates an address whose claim has been withdrawn meanwhile |
| Witnesses.ClaimOutlivesNode | eip_operator/src/controller/node.rs:165-172 | a reachable state in which an Eip is claimed for a node that was cleaned up and is gone |
| Startup.AllocatedTags | eip_operator/src/aws.rs:35-70 | unless configured tags use the operator's keys, the first-match lookup gives back the Eip's uid and the filters see exactly its namespace and cluster, never the legacy tag |
| Startup.GetTagIsFirst | eip_operator/src/aws.rs:190-199 | the lookup answers with the value of the first tag that has the key |
| Startup.EveryTagReadsBack | eip_operator/src/aws.rs:35-71 | looking up any key that the configured tags do not use gives what the operator wrote under it: uid, name, namespace, cluster, pod or node selector, display name, or nothing |
| Startup.Ec2.AllocateAddress | eip_operator/src/aws.rs:26-82 | a new address with those tags; nothing else changes |
| Startup.Ec2.DisassociateAndRelease | eip_operator/src/aws.rs:174-188 | the address is gone, or on failure at most its association is |
| Startup.Ec2.ReleaseOrphans | eip_operator/src/main.rs:244-254 | exactly the orphans of the list are gone; it fails on an orphan listed twice; all other addresses stay as they are, also on failure |
| Startup.Ec2.CleanupOrphanEips | eip_operator/src/main.rs:199-254 | whatever fails, an address stays as it is if it carries neither the cluster's tag nor its legacy tag, if it is of another namespace than the one confined to, if it carries the uid of a listed Eip, or if another cluster's operator allocated it; on success no address with those tags is left without the uid of a listed Eip; without failed calls it fails exactly if an orphan carries both cluster tags |
| Startup.LiveAddressIsKept | eip_operator/src/main.rs:206-254 | an address allocated for an Eip that exists is kept, confined to a namespace or not |
| Startup.KeptIsLive | eip_operator/src/main.rs:244-254 | every address in scope that is left carries the uid of a listed Eip |
| Startup.SweptIsClean | eip_operator/src/main.rs:244-254 | a second sweep finds nothing |
| Selectors.MatchesNode | eip_operator/src/eip.rs:153-170 | the loop over the selector answers whether all its labels are among the node's |
| Selectors.PrintedReadsBack | eip_operator/src/eip.rs:205-216 | parsing the printed selector gives exactly the labels back, in any order of printing, the empty selector included |
| Selectors.LabelSelectorAgrees | eip_operator/src/eip.rs:153-170 | the server selects a node exactly if `matches_node` does |
| Selectors.FieldSelectorAgrees | eip_operator/src/eip.rs:144-151 | the server selects a name exactly if `matches_pod` does |
| Selectors.ListingIsResources | eip_operator/src/eip.rs:199-217 | so the Eip controller's listing is the set of resources that match |
| Egress.LabelEgressNodes | eip_operator/src/egress.rs:40-89 | no node that the selector does not match is ever touched, and of the others only that one label; no label changes unless a matching, ready node claims the Eip; then the changes are a hand-over, and on success exactly that node carries "true" and every other matching one "false"; the answers, error by error |
| Egress.EgressNodesMatch | eip_operator/src/egress.rs:41 | the nodes listed are exactly those that the selector matches by labels, or by name |
| Egress.ServerListsEgressNodes | eip_operator/src/egress.rs:41 | and exactly those that the API server selects for the selector as it is printed |
| Egress.MakeServing | eip_operator/src/egress.rs:71-84 | the loop labels the claiming node first and then every other one |
| Egress.NeverUnserved | eip_operator/src/egress.rs:71-84 | after the first label the node serves in every state in between, no listed node starts to serve, and the set of serving ones only shrinks |
| Finalizers.PathPointsBack | eip_operator/src/main.rs:189-194 | the path made for a position reads back as that position (decimal, no leading zero) |
| Finalizers.RemovalIsSafe | eip_operator/src/main.rs:267-282 | against any later list, the patch succeeds exactly if the legacy name is at the position, and then removes one occurrence and keeps the rest in order; otherwise nothing changes |
| Finalizers.Pods.RemoveLegacyFinalizers | eip_operator/src/main.rs:256-284 | while others go on changing the lists, each write drops the legacy name of a listed pod at the position it was listed at and nothing else; on success every listed pod that had the name has been written; without failed calls the loop stops only at a pod whose list has changed there |
| Agent.RuleManager.GetEniIndexes | cilium_eip_no_masquerade_agent/src/main.rs:48-65 | exactly the marks of the rules with the mask; it cannot be read exactly if such a rule has no mark |
| Agent.RuleManager.Pass | cilium_eip_no_masquerade_agent/src/main.rs:122-134 | after a pass every mark from 1 to 15 is set and covered, and only what was missing has been added; if a rule cannot be read only the restoring rule has been |
| Agent.EveryPassCompletes | cilium_eip_no_masquerade_agent/src/main.rs:119-140 | over any number of passes with any deletions in between, each pass ends complete, and nothing is ever there twice unless it was at the start |
| Agent.SecondPassIsIdle | cilium_eip_no_masquerade_agent/src/main.rs:122-134 | a pass over complete tables adds nothing |
| Agent.MarkRoundTrip | cilium_eip_no_masquerade_agent/src/main.rs:75-88 | for all 32-bit marks, setting and restoring keep the upper 28 bits, and the packet's mark is i and no other |
| Agent.AnswersLeaveWhereTheyCameIn | cilium_eip_no_masquerade_agent/src/main.rs:75-108 | with other ip rules of any priority beside the agent's, an answer to a connection from eth{i} is looked up in table 10 + i unless a rule up to priority 200 selects it, and never if one below 200 does |

## Left out

- CRD registration and the upgrade of old Eip objects: the replacement object carries no finalizers, so runs are those after the upgrade.
- The refresh labels: a label patch makes a listed resource reconcile, which the transition system lets it do at any time; `EipController.Controller.Apply` returns which resources are asked.
- Selectors.PrintedReadsBack: of the server's selector syntax, only the part the operator prints, equality requirements joined by commas.
- Startup.Ec2.CleanupOrphanEips: the removal of the legacy finalizer that follows the releases is `Finalizers.Pods.RemoveLegacyFinalizers`.
- The watch on the management label: every pod and node of the model is managed.
- The reading of the pod-eni annotation and of the autocreate label: the interface and the flag are fields of the pod.
- AWS answers with fields missing (an allocation id, a public IP, an address list) other than in the interface lookup: such an answer is a failed call.
- The panic of the interface lookup in the controllers: there it counts as an interface that is not found; `Eni` says exactly when it happens.
- Server-side apply on a node or pod that does not exist: it is refused in the model.
- Writes by others between two calls of one method in `NodeController`, `PodController` and `EipController`: these run without interruption except that any call may fail or conflict; interleaving is the transition system's part.
- The labeller interleaved with node cleanup, and its watch loop.
- What other ip rules select: any set of packets; and other rules of the iptables chain: they leave the marks alone.
- The removal of a node object after its cleanup: the finalizer goes and the cluster removes the node, which is a step of the cluster in the transition system and part of the node's turn in convergence.
- Quota reporting, retry backoff, tracing, TLS, environment parsing.
- Text of the iptables rules: the agent's rules are distinguished by kind and interface; a rule is removed only by others.
- The wait for the chain to exist: a pass starts when it does.
