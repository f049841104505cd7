# Verification of the CSI volume group operator

The operator keeps VolumeGroups in step with the claims their selectors match. Two controllers share
one versioned object store: the VolumeGroup controller and the VolumeGroupContent controller. A
storage driver holds the groups of the backend. This project models the protocol between them and
proves what it keeps, over every interleaving of users, both controllers, failures and crashes.

`dafny verify dfyconfig.toml` checks the whole project.

## How the model is built

- **Membership.** `kube.dfy` and `cluster.dfy` hold the objects and the single writes of a membership
  update. `membership_plan.dfy` gives the list of writes that turns a recorded claim list into the
  matching one and proves what it amounts to; `agreement.dfy` relates the claim list, the volume list
  and the members of the backend, and `plan_effect.dfy` says what the writes leave of every stored
  claim and group. `scans.dfy` (the loops that read), `synchroniser.dfy` (the in-memory group, whose
  claim list is a slice of an array edited in place, and the API server, any request of which may
  fail), `membership_update.dfy` and `update_pvcs.dfy` are the methods themselves.
  `second_run.dfy` says what the next call does.
- **The worker of the VolumeGroup controller** (`group_controller.dfy`) is a step system: a work queue,
  one worker, users who edit claims and groups between any two of its steps, and the other controller,
  whose release of a claim is three steps (the check, the update, the delete request) with anything in
  between. `refinement.dfy` proves that every call of the method `UpdatePVCs`, however it ends, has the
  effect of a run of that worker. `exclusivity.dfy`, `protection.dfy`, `quiescence.dfy` and
  `members.dfy` are its invariants: for each, the exact condition under which a step keeps it, lifted
  to all runs; `others_kept.dfy` is about the finalizers of others. `exclusivity_race.dfy`, `cut_addition.dfy`, `release_race.dfy` and
  `unlisted_member.dfy`, over the worlds of `scenario.dfy`, are the runs that break them: each starts
  in an idle state that satisfies the invariants.
- **The life of groups and contents** (`lifecycle.dfy`) is a second step system, of both controllers:
  each works on a copy it read earlier, and may fail, crash or lose an answer of the driver between
  any two writes. `backend_safety.dfy`, `provisioning.dfy`, `bind_once.dfy`, `provisioning_run.dfy` with
  `provisioning_stuck.dfy` (provisioning completes, and exactly when), `requested.dfy`, `deletion.dfy` and
  `abandoned.dfy` are about all its runs; `rebinding.dfy` is a run that breaks the condition of one.
- **Lists and retries.** `go_slices.dfy`, `list_equality.dfy`, `conflict_retry.dfy`, `finalizers.dfy`,
  and `claim_deletion.dfy` with `snapshot_deletion.dfy`: the loop that ranges over the slice which its
  own body shifts.

## What is assumed

- UIDs, resource versions and the backend's group ids are never reused; ids are not empty.
- VolumeGroupClasses and StorageClasses do not change, and class names are not empty (with an empty
  class name in any group the operator fails to list groups at all).
- Selectors are present and valid; any predicate on labels is allowed.
- Where it matters (`BoundOneToOne`, `OneClaimPerVolume`), claims and volumes are bound one to one, and
  (`Members.Separate`) no two groups name one content or one backend group.
- The driver creates idempotently by name and replaces the members of a group by the given list. A
  call may take effect although its answer is lost.
- Each controller has one worker, and reads see the latest writes.
- Users do not write the reference of a content to its group, nor the operator's finalizers. Other
  finalizers of a claim, a group or a content are theirs to set and clear at any time.
- Only the VolumeGroup controller writes claim lists, and it has one worker; so its own release of a
  claim, which it has just unlisted, is one step (`Synchroniser.Client.RemoveFinalizerFromPVC` has the
  two requests apart).
- A claim marked for deletion disappears when its last finalizer goes; in the model this is the step
  `DeleteClaim`, enabled at any time.
- In `ClaimDeletion` a status update leaves the list in the same array; `SnapshotDeletion` is the
  other case.

All invariants hold before any group exists (`BindOnce.InitialIsBound`, `ProvisioningRun.InitialIsConsistent`,
`Quiescence.NoGroupsYet`).

## Where the code does not do what it is meant to do

Each of these is a theorem, with the exact condition where there is one.

- `DeletePVCsUnderVGC` steps over the volume behind each one it handles. It does what is meant exactly
  when no two neighbouring volumes before the last position both have a claim
  (`IntendedExactlyWhenApart`). README.md of the repository (line 96) promises the deletion of the
  claims.
- When the secret of the class is not found, the proposed claim list is stored although the driver was
  not told (`StatusFollowsBackend`). The next reconcile does not notice exactly when the claims of each
  name come in the stored order, which they do when names are distinct (`LostSecretIsNotRepaired`).
- Listed claims keep their protection finalizer exactly in the runs whose steps are harmless
  (`GuardedExactlyWhenHarmless`). Five kinds of steps can do harm: an addition cut between its writes,
  a lost secret, a claim on its way into a list that vanishes by a user or by the other controller,
  and a late release. One cut addition, one lost secret or one late release is enough for an idle group
  to list a claim that is gone (`CutLeavesIdleGroupStale`, `LostSecretLeavesIdleGroupStale`,
  `ReleaseTakesFromListed`).
- The other controller checks that no group lists a claim, and takes its finalizer in a later request
  without asking again. That update is the only step that takes the finalizer from a listed claim
  (`OnlyLateReleasesTake`), and it does so only if a group came to list the claim after the check
  (`UnlistedUnlessListedSince`, `ComesToBeListed`).
- Deletions of claims wake no group. Groups stay queued or on course exactly when no claim vanishes
  that a group nobody watches matches (`QuietExactlyWhenWatched`); in harmless runs none does.
- The backend can keep a volume that an idle group does not list, in a run without a harmful step: a
  push, a failure before the first write, and a claim that leaves the selector before the next try
  (`BackendKeepsAVolume`). The members of idle groups are the volumes of their lists exactly when no
  reconcile finds the lists equal while the backend has others (`RecordedExactlyWhenInformed`).
- Two groups can list one claim when the selector of a group is edited while that group is in process
  (`RaceSharesAClaim`). Exclusive lists together with nothing disputed in flight last exactly as long
  as every scan that takes a claim is guarded (`SafeExactlyWhenGuarded`); the lists alone can stay
  exclusive after an unguarded scan, when the call fails before it writes.
- A failed addition of a claim that was listed before drops it from memory
  (`FailedAdditionRestores`), and finalizer updates overwrite what others wrote (`AddFinalizer`,
  `RemoveFinalizer`).
- A group that is deleted before it is bound leaves its content behind for good
  (`UnboundContentIsNeverMarked`).
- From rest the controllers cannot bind a dynamic group whose content was marked for deletion before it
  was ready (`BindsExactlyUnlessStuck`).
- The finalizers of others on a claim are overwritten exactly when the operator adds its own from a copy
  that is no longer current (`OnlyStaleCopiesOverwrite`).
- A new group under an old name holds up the deletion of the old content
  (`FinishesExactlyWhenKeyIsFree`), because the existence check goes by name.
- A group that binds to a content in the hands of the worker that is deleting it can lose its backend
  group (`BackendOfAnExistingGroup`); stored reference, copy and check agree exactly without such a
  binding (`RefKeptExactlyWithoutRebinding`).
- A claim whose deletion fails after its finalizer was taken stays, unprotected (`DeletePVC`).

## Model

| member | source | states |
|---|---|---|
| Refinement.EveryCallIsARun | controllers/volumegroup_controller.go:155-172 | from the moment the group was read, whatever way a call of updatePVCs ends, some run of the step system has exactly its effect on the store, and after an error the group is queued again |
| Quiescence.IdleMeansSynchronised | controllers/volumegroup_controller.go:132-172 | over every run whose steps do no harm to the protection, a live group of the driver that is neither queued nor in process lists exactly the claims that are bound, of a class of the driver that puts them in no static group, and matched by its selector |
| Quiescence.WatchedMeansSynchronised | controllers/volumegroup_controller.go:132-172 | the same over every run in which no claim vanishes that an unwatched group matches, protected or not |
| Quiescence.QuietExactlyWhenWatched | controllers/utils/predicate.go:35-94 | over every run, each live group is throughout queued, in process on a course that ends with the matching claims, or synchronised, if and only if no claim vanishes that an unwatched group matches |
| Quiescence.QuietStep | controllers/volumegroup_controller.go:155-172 | a step of users, worker or the other controller leaves each live group queued, on course or synchronised if and only if it makes no claim vanish that an unwatched group matches |
| Quiescence.ClaimEditWakes | controllers/utils/predicate.go:35-94 | a created or edited claim changes the matching claims only of groups that the events enqueue, through the old or the new labels |
| Quiescence.VanishedWasOnItsWay | controllers/utils/predicate.go:39-41 | ignoring deletions of claims is nearly sound: with listed claims protected, a vanishing claim that an unwatched group matches is on its way into the list of that group, which is in process |
| CutAddition.CutLeavesIdleGroupStale | controllers/utils/controller_utils.go:85-103 | from an idle state with all invariants, a run with exactly one harmful step, a failure between the writes of an addition, ends with an idle group, not synchronised, that lists a claim which is gone |
| CutAddition.LostSecretLeavesIdleGroupStale | controllers/utils/controller_utils.go:135-150 | the same with one lost secret as the only harmful step |
| Exclusivity.SafeStep | controllers/utils/persistentvolumeclaim.go:46-71 | every step keeps the lists exclusive, a scan that takes a claim exactly when its own group, or no group, is among those that list the claim |
| Exclusivity.SafeExactlyWhenGuarded | controllers/utils/persistentvolumeclaim.go:46-71 | over every run, lists stay exclusive with nothing disputed in flight, throughout, if and only if every taking scan is guarded |
| Exclusivity.CheckIsSound | controllers/utils/persistentvolumeclaim.go:46-71 | success of the two-bucket check for a claim new to a matching group means that no group of the driver lists the claim, and that this group alone wants it |
| Exclusivity.ExclusiveWithoutEditsInFlight | controllers/volumegroup_controller.go:245-273 | with MultipleVGsToPVC other than "true", lists stay exclusive in every run in which nobody edits the selector of the group in process |
| ExclusivityRace.RaceSharesAClaim | controllers/volumegroup_controller.go:245-273 | from a safe idle state, a run with one selector edit between read and scan ends with a claim in two lists |
| Protection.GuardedStep | controllers/utils/finalizers.go:85-132 | a step keeps each listed claim protected, or its addition half done by the worker, and what is on its way standing, if and only if it is harmless; only a cut addition, a lost secret, a vanishing claim and the late update of a release can do harm |
| Protection.GuardedExactlyWhenHarmless | controllers/utils/finalizers.go:85-132 | over every run, that protection holds throughout if and only if every step is harmless |
| Protection.ListedClaimsAreProtected | controllers/utils/finalizers.go:85-132 | over every run of harmless steps, outside an addition, each claim listed by a group of the driver exists and carries the pvc-protection finalizer |
| ReleaseRace.OnlyLateReleasesTake | controllers/utils/finalizers.go:98-132 | in every state, a step takes the finalizer from a claim that a group of the driver lists if and only if it is the update of a release of that claim, checked before |
| ReleaseRace.ComesToBeListed | controllers/utils/controller_utils.go:85-103 | an unlisted claim is listed after a step if and only if the step is the first write of its addition, or a lost secret with the claim among the matching ones |
| ReleaseRace.UnlistedUnlessListedSince | controllers/utils/finalizers.go:98-132 | over every run between check and update of a release in which no step lists the claim, no group lists it at the update |
| ReleaseRace.ChecksBeforeReleasing | controllers/utils/finalizers.go:121-132 | the check of a release goes on to the update if and only if the claim has the finalizer and no list of a group of the driver has it |
| ReleaseRace.ReleasesOnlyWhatWasUnlisted | controllers/utils/finalizers.go:98-119 | from any check to its update, over every run: the update takes the finalizer of a listed claim only if some step listed the claim since the check |
| ReleaseRace.UnlistedClaimIsReleased | controllers/utils/persistentvolumeclaim.go:202-220 | undisturbed, the three steps remove a claim that no group lists and that only the operator holds, and rid any other unlisted one of the operator's finalizer and no other |
| ReleaseRace.ReleaseTakesFromListed | controllers/utils/persistentvolumeclaim.go:202-220 | from an idle state with all invariants, a run whose only harmful step is one late update of a release ends with an idle group, not synchronised, that lists a claim which is gone |
| Members.RecordedStep | controllers/volumegroup_controller.go:155-172 | a step keeps the backend of each idle group in agreement with its list if and only if it is not a settling that finds the lists equal while the backend has other volumes |
| Members.RecordedExactlyWhenInformed | controllers/utils/controller_utils.go:135-175 | over every run, the backend has exactly the volumes that each idle group lists, throughout, if and only if no reconcile settles uninformed |
| UnlistedMember.BackendKeepsAVolume | controllers/volumegroup_controller.go:155-172 | from an idle state with all invariants, a run of harmless steps ends with an idle group whose backend group has other volumes than its list names |
| UpdatePvcs.StatusFollowsBackend | controllers/utils/controller_utils.go:135-150 | whatever the outcome, a changed claim list means the driver accepted those very members, except after a lost secret; then the list is the proposed one and the members are as before |
| UpdatePvcs.SuccessSettlesEveryClaim | controllers/utils/controller_utils.go:85-133 | after a successful call each claim that left the list and that no other group of the driver lists has lost the protection finalizer, each claim new to the list has it, both with all other finalizers as before, every other claim and group is untouched, and the error is cleared if anything was written |
| UpdatePvcs.SuccessMeansAgreement | controllers/volumegroup_controller.go:155-172 | a successful call keeps claim list, volume list and backend members in correspondence, and the list holds exactly the claims the group is meant to hold |
| UpdatePvcs.SettledMeansSynchronised | controllers/volumegroup_controller.go:160-162 | when the lists are found equal the stored list already holds exactly the claims the group is meant to hold |
| UpdatePvcs.UpdatePVCs | controllers/volumegroup_controller.go:155-172 | what each way the call can end leaves in the store and in memory, for matching claims collected from a listing without a dispute; when no request fails and nothing it looks up is missing, it ends settled or synchronised, and when no request fails and it ends otherwise the stored group shows an error |
| UpdatePvcs.FindMatching | controllers/volumegroup_controller.go:351-371 | claims that are found match, are handled, are undisputed and pairwise distinct, and nothing but the requests changes |
| UpdatePvcs.ModifyVolumesInVG | controllers/utils/controller_utils.go:135-150 | an accepted push replaces the members by the volumes of the matching claims; the proposed list is stored exactly when the secret is lost; a refusal changes no status |
| SecondRun.SecondRunChangesNothing | controllers/utils/controller_utils.go:152-181 | with the same claims matching, a second call writes nothing and sends the same member set or nothing, even when it takes the lists for different |
| SecondRun.LostSecretIsNotRepaired | controllers/utils/modify_volumegroup.go:69-82 | when the stored list is a permutation of the matching one, the worker settles if and only if the claims of each name come in the same order, and can then neither push nor lose the secret again; with distinct names they always do |
| SecondRun.NextScanFindsTheStoredList | controllers/utils/modify_volumegroup.go:75-80 | after a lost secret, claims matching in the unchanged store are a permutation of the stored list |
| Agreement.RunRestoresAgreement | controllers/utils/controller_utils.go:152-175 | three-way agreement: pushing the matching claims and completing the plan leaves the three records in correspondence for exactly those claims, for arbitrary old and new lists |
| Agreement.VolumeIdsMeaning | controllers/utils/persistentvolumeclaim.go:32-44 | the handles sent are exactly those of the volumes the claims name, and sending fails exactly when one of them is missing |
| MembershipPlan.PlanSynchronises | controllers/utils/controller_utils.go:152-175 | the writes refine set difference: the list ends as the kept claims in old order followed by the new ones in matching order, keys distinct and exactly the matching ones |
| MembershipPlan.PlanTouchesOnce | controllers/utils/controller_utils.go:158-173 | the claims removed and those added are exactly the two differences of the lists, each handled once |
| MembershipPlan.SecondPlanIsEmpty | controllers/utils/controller_utils.go:152-175 | a synchronised list leaves nothing to write |
| PlanEffect.PlanSettlesClaims | controllers/utils/controller_utils.go:85-133 | what the whole plan leaves of each stored claim, said of its finalizers: removed claims are let go unless another group of the driver lists them, added ones held, all others unchanged |
| PlanEffect.PlanSettlesGroup | controllers/utils/handle_messages.go:43-53 | the whole plan changes the list and the error of its group only, and leaves the error "" exactly when the keys of the lists differ or it was "" |
| MembershipUpdate.UpdatePvcAndPvList | controllers/utils/controller_utils.go:152-175 | a success has written the whole plan, the list in memory is the synchronised one, the error is cleared if the lists differ, and every claim is released, protected or untouched as the difference of the lists says; a failure has written a prefix of the plan, and the list in memory is a permutation of the list after that prefix; without failing requests or missing objects it succeeds |
| MembershipUpdate.RemoveUnmatched | controllers/utils/controller_utils.go:155-165 | the first loop, over a copy of the list it edits, writes exactly the removals, in order |
| MembershipUpdate.AddUnlisted | controllers/utils/controller_utils.go:166-173 | the second loop writes exactly the additions, judged by the list as it was at the start |
| MembershipUpdate.RemoveVolume | controllers/utils/controller_utils.go:105-133 | writes a prefix of the removal of one claim; on success the claim has lost the protection finalizer, and no other, unless another group of the driver lists it, and the error is ""; says what is in memory when the first write fails; succeeds when no request fails and all it needs is present |
| MembershipUpdate.AddVolume | controllers/utils/controller_utils.go:85-103 | writes a prefix of the addition of one claim; on success the claim has the protection finalizer and, if the copy was current, all it had before, and the error is ""; says what is in memory when the first write fails; succeeds when no request fails and all it needs is present |
| MembershipUpdate.AddMatchingPV | controllers/utils/volumegroupcontent.go:38-53 | the volume of a bound claim is written to the content, nothing for an unbound one; without failing requests it succeeds exactly when content and volume exist |
| MembershipUpdate.HandleSuccess | controllers/utils/handle_messages.go:43-53 | clears the error as the last write of a plan; a failed event is an error after that write |
| MembershipUpdate.ReportError | controllers/utils/handle_messages.go:26-41 | the error is stored with the list in memory, or nothing is |
| Synchroniser.FailedAdditionRestores | controllers/utils/volumegroup.go:232-256 | rollback of a failed addition restores the list exactly when the claim was not listed before |
| Synchroniser.FailedRemovalPermutes | controllers/utils/volumegroup.go:198-222 | rollback of a failed removal leaves a permutation of the list exactly when that copy of the claim was listed, and moves the claim to the end |
| Synchroniser.Group.AddPVCToVG | controllers/utils/volumegroup.go:232-246 | stores and keeps the extended list, or stores nothing and rolls the slice back |
| Synchroniser.Group.RemovePVCFromVG | controllers/utils/volumegroup.go:198-212 | stores and keeps the shortened list, or stores nothing and appends the claim again |
| Synchroniser.Group.RemoveFromPVCList | controllers/utils/volumegroup.go:214-222 | the in-place shift removes the first claim of that key and keeps the order of the others |
| Synchroniser.Group.AppendToPVCList | controllers/utils/volumegroup.go:248-256 | appends a claim whose namespaced name is not listed, and otherwise leaves the list |
| Synchroniser.Client.UpdateList | controllers/utils/volumegroup.go:102-114 | a success replaces the stored claim list of the group and no other field of it or object, a failure stores nothing |
| Synchroniser.Client.UpdateError | controllers/utils/volumegroup.go:116-127 | a success stores the message together with the claim list in memory, and nothing else |
| Synchroniser.Client.FindVolumeAndContent | controllers/utils/persistentvolume.go:32-48 | succeeds only if the content exists and the volume of a bound claim does, and then does unless a request fails |
| Synchroniser.Client.RemovePVFromVGC | controllers/utils/volumegroupcontent.go:164-177 | removes the volume from the stored list, or changes nothing |
| Synchroniser.Client.AddPVToVGC | controllers/utils/volumegroupcontent.go:189-214 | adds the volume to the stored list unless it is there, or changes nothing |
| Synchroniser.Client.RemoveFinalizerFromPVC | controllers/utils/finalizers.go:98-119 | takes the protection finalizer, and no other, exactly when no group of the driver listed the claim at the check, whatever others made of the store before the update, and fails for a missing claim |
| Synchroniser.Client.AddFinalizerToPVC | controllers/utils/finalizers.go:85-96 | the stored finalizers become those of the copy followed by the new entry, or stay when the copy has it already; nothing else of the claim or of others changes |
| OthersKept.OnlyStaleCopiesOverwrite | controllers/utils/finalizers.go:85-119 | in every state, a step of the worker or of the other controller changes a finalizer of others on a claim that stays if and only if it adds the operator's from a copy with other finalizers than the stored claim; nothing else of a claim changes |
| OthersKept.AdditionAddsOne | controllers/utils/finalizers.go:85-96 | from a current copy the addition loses no finalizer, and the operator's is the only new one |
| OthersKept.ReleaseTakesOne | controllers/utils/finalizers.go:98-119 | the update of a release takes the operator's finalizer and loses no other |
| Scans.GetMatchingPVCs | controllers/volumegroup_controller.go:351-371 | returns exactly the stored claims that are bound, of a class of the driver that puts them in no static group, and matched by the selector, each once; fails exactly when the claims cannot be listed, or MultipleVGsToPVC is not "true" and a matched claim of the driver is contested |
| Scans.MatchingIsMeant | controllers/volumegroup_controller.go:351-371 | with the stored selector, the matching claims are the ones the group is meant to hold |
| Scans.IsPVCCanBeAddedToVG | controllers/volumegroup_controller.go:263-273 | the two-bucket loop refuses a claim if and only if MultipleVGsToPVC is not "true" and there are two groups of the driver of which one matches and does not list it and the other lists or matches it |
| GroupController.RefusedExactlyWhenContested | controllers/utils/persistentvolumeclaim.go:46-71 | the same of the check as the step system uses it |
| Scans.GetPVCList | controllers/utils/persistentvolumeclaim.go:133-192 | returns exactly the bound claims of the driver; fails exactly when a bound claim has no known storage class |
| Scans.GetVGList | controllers/utils/volumegroup.go:141-180 | returns exactly the groups whose class exists and names the driver, each once |
| Scans.IsPVCPartAnyVG | controllers/utils/volumegroup.go:258-265 | answers whether some group of the driver lists the claim |
| Scans.IsPVCInPVCList | controllers/utils/volumegroup.go:267-274 | answers whether the namespaced name is in the list |
| Scans.IsFinalizerToBeRemoved | controllers/utils/finalizers.go:121-132 | answers, for an existing claim, whether it has the finalizer and no group of the driver lists it |
| Scans.VolumeIdsOf | controllers/utils/persistentvolumeclaim.go:32-44 | the loop computes the volume handles of the claims in order, skipping unbound ones and failing on a missing volume |
| Scans.CreateRequests | controllers/utils/predicate.go:66-94 | requests exactly the groups, of any driver, whose selector matches the labels, each once |
| ListEquality.EqualMeansSameOrderPerName | controllers/utils/controller_utils.go:177-181 | two lists are taken for equal if and only if, for every name, their claims of that name are the same in the same order |
| ListEquality.EqualIsPermutation | controllers/utils/controller_utils.go:177-181 | lists taken for equal are permutations of each other |
| ListEquality.PermutationIsEqual | controllers/utils/controller_utils.go:177-181 | permutations with pairwise distinct names are taken for equal |
| ListEquality.SwappedNamespacesDiffer | controllers/utils/controller_utils.go:177-181 | two permutations with a repeated name can be taken for different |
| GoSlices.RemoveByIndex | controllers/utils/utils.go:29-36 | the tail moves one place down in the same array, and the slot freed at the end keeps its old value |
| GoSlices.Append | controllers/utils/volumegroup.go:248-256 | the appended slice, in the same array while there is room and otherwise in a new one |
| ConflictRetry.TryOnce | controllers/utils/volumegroup.go:129-139 | one attempt: stored on top of what others wrote if the copy is current, otherwise a reload that makes it current |
| ConflictRetry.UpdateWithRetry | controllers/utils/volumegroup.go:102-114 | at most five attempts; a success is the immediately preceding stored version with only the target fields set, a failure stores nothing, and an attempt is in conflict only if others wrote just before it or the copy was old |
| ConflictRetry.UpdateVGStatusPVCList | controllers/utils/volumegroup.go:102-114 | a success replaces the claim list of the preceding version and nothing else, so the fields of concurrent writers survive |
| ConflictRetry.UpdateVGStatus | controllers/utils/volumegroup.go:85-100 | a success has stored the bound status twice over, leaving the claim list of the preceding version alone |
| Finalizers.UpdateFinalizer | controllers/utils/finalizers.go:134-154 | every attempt sets the list computed before the first, so other fields of concurrent writers survive but not their finalizers |
| Finalizers.AddFinalizer | controllers/utils/finalizers.go:33-57 | the entry is there afterwards, and it is the only change to the list exactly when no other writer touched the finalizers |
| Finalizers.RemoveFinalizer | controllers/utils/finalizers.go:59-83 | the entry is gone afterwards, and no finalizer that others added since the read survives |
| Finalizers.Contains | controllers/common/utils/strings.go:18-26 | answers membership |
| Finalizers.Remove | controllers/common/utils/strings.go:28-37 | all entries equal to the string go, all others stay as often as they were |
| Finalizers.HasOtherFinalizers | controllers/utils/finalizers.go:156-165 | true exactly when some entry does not contain the group name |
| Finalizers.SubstringMeaning | controllers/utils/finalizers.go:156-165 | an entry contains the group name if and only if it is some text, the name, and some text |
| Finalizers.OwnFinalizersAreOwn | controllers/utils/finalizers.go:156-165 | the operator's three finalizers are never taken for another's |
| ClaimDeletion.DeletePVCsUnderVGC | controllers/utils/volumegroupcontent.go:320-347 | without a failing request the loop completes; then the loop over the array that its body shifts ends with exactly the survivors listed, the claim that a volume no longer listed refers to, or else the claims that name it, are deleted or marked, and so is no other claim; after a failure still only claims of volumes of the list may be |
| ClaimDeletion.ResolveMeaning | controllers/utils/volumegroupcontent.go:323-336 | a volume has a claim if and only if its reference has both parts or some claim names it, and the claim found is the one referred to, or else one that names it |
| ClaimDeletion.OddPositionsSurvive | controllers/utils/volumegroupcontent.go:322-345 | when all volumes have claims, exactly the odd positions other than the last survive |
| ClaimDeletion.IntendedExactlyWhenApart | controllers/utils/volumegroupcontent.go:320-347 | the loop leaves exactly the volumes without a claim if and only if no two neighbours before the last position both have one |
| ClaimDeletion.HandleVolume | controllers/utils/volumegroupcontent.go:323-344 | one turn: nothing for a volume without a claim; otherwise a claim of that volume is deleted or marked and the list closes up in place; whatever the outcome no claim of another volume is touched |
| ClaimDeletion.Content.RemovePVFromVGC | controllers/utils/volumegroupcontent.go:164-187 | shifts the list in place, and on a failed update restores a permutation of it |
| ClaimDeletion.Content.RemoveFromPVList | controllers/utils/volumegroupcontent.go:179-187 | removes the first volume of that name and leaves the array behind the list untouched |
| ClaimDeletion.Store.DeletePVC | controllers/utils/persistentvolumeclaim.go:202-220 | on success the claim is gone, was missing, or is marked because a group lists it or other finalizers keep it; on failure no claim is gone or marked, but this one may have lost its finalizer; no other claim changes |
| SnapshotDeletion.DeletePVCsOverSnapshot | controllers/utils/volumegroupcontent.go:320-347 | over a copy of the list, exactly the volumes that refer to no claim and that no claim names stay listed; the claims of all others are deleted or marked, and no other claim |
| Lifecycle.MakeVGNameRoundTrip | controllers/utils/utils.go:87-92 | the UID can be read back from the generated name, so different groups get different names |
| BackendSafety.SoundStep | controllers/volumegroupcontent/volumegroupcontent_controller.go:121-172 | every step keeps references pointing at the group they were taken from or at none, and what was found gone stays gone |
| BackendSafety.BackendDeletedOnlyAfterGroup | controllers/volumegroupcontent/volumegroupcontent_controller.go:121-172 | over every run, the driver is asked to delete a group only for a stored content marked for deletion with policy Delete, and the VolumeGroup found gone at the check still does not exist at the call |
| BackendSafety.RefKeptExactlyWithoutRebinding | controllers/utils/volumegroupcontent.go:216-262 | over every run, stored content, copy and check agree on the reference throughout if and only if no group binds to the content the worker means to delete |
| BackendSafety.NoGroupAtTheCall | controllers/volumegroupcontent/volumegroupcontent_controller.go:121-172 | in such runs no VolumeGroup with the UID the content refers to exists at the call, even after a reload of the copy |
| BackendSafety.RetainNeverDeletes | controllers/volumegroupcontent/volumegroupcontent_controller.go:141-153 | with policy Retain everywhere the driver is never asked to delete a group |
| Rebinding.BackendOfAnExistingGroup | controllers/utils/volumegroupcontent.go:216-262 | a run in which a group binds to a marked content, the copy is reloaded, and the backend group of an existing group may be deleted |
| Provisioning.ProvisionedStep | controllers/volumegroupcontent/volumegroupcontent_controller.go:106-119 | every step keeps: an up-to-date copy is the stored object, ready contents have handles, one id per backend name, and every answer of Create accounted for |
| Provisioning.AtMostOneBackendGroup | controllers/volumegroupcontent/volumegroupcontent_controller.go:174-203 | over every run ready implies a handle, no two backend groups have the same name, and two answers of Create for one name differ only if one of them was deleted |
| Provisioning.HandleIsForEver | controllers/volumegroupcontent/volumegroupcontent_controller.go:174-212 | a stored handle never changes, and Create is never called for that content again |
| BindOnce.BoundStep | controllers/volumegroup_controller.go:115-141 | every step keeps groups naming their own content only, references right, and bound contents ready and held |
| BindOnce.DynamicGroupsAreProvisioned | controllers/volumegroup_controller.go:115-141 | over every run a dynamic group has at most one content, and is bound only to that one, when it is ready, held, has a handle and refers back to the group |
| BindOnce.BoundForEver | controllers/volumegroup_controller.go:174-201 | a bound dynamic group keeps its content name, and no reconcile creates a content for it again |
| ProvisioningRun.ProvisioningCompletes | controllers/volumegroupcontent/volumegroupcontent_controller.go:174-203 | from every point where users, failures, crashes and lost answers may leave a live unbound dynamic group, unless its content was marked before it was ready: a pass of the group controller, one of the content controller and one of the group controller is a run, and ends with the group held and bound to its own content, which is ready, held, refers back, and has the policy of the class and the id the driver answered |
| ProvisioningStuck.BindsExactlyUnlessStuck | controllers/volumegroup_controller.go:115-141 | from rest the controllers alone can bind a live dynamic group if and only if its content was not marked for deletion before it was ready |
| ProvisioningRun.BoundGroupsBecomeReady | controllers/volumegroup_controller.go:174-190 | from any state, for a live group that names a live content, static or dynamic: a pass of each controller makes the group held and the content ready, held, referring to the group, with the policy and the handle it had, or else those of the class and the driver |
| Requested.LiveGroupsStay | controllers/volumegroup_controller.go:98-113 | over every run in which no user asks to delete it, a group that is not marked stays and stays unmarked, whatever fails or crashes |
| Requested.LiveExactlyUnlessAsked | controllers/volumegroup_controller.go:203-230 | over every run, an unmarked content stays and stays unmarked, throughout, if and only if no user asks to delete it and no marked group that names it is deleted while its policy is Delete |
| Requested.AddedVolumesAreListed | controllers/utils/volumegroupcontent.go:189-214 | the volumes the worker of a bound group adds are listed in the content of that group, and no other content, group or field changes |
| Deletion.NothingComesBack | controllers/volumegroupcontent/volumegroupcontent_controller.go:99-153 | over every run, whatever users do, a group, a content and a backend group that are gone stay gone, and a mark stays |
| Deletion.RemainingNeverGrows | controllers/volumegroupcontent/volumegroupcontent_controller.go:99-153 | over every run that does not hinder the deletion, the work left (mark the content, drop the group; the set of volumes left to handle; delete the backend group, drop the content) never grows |
| Deletion.WorkGetsLess | controllers/utils/volumegroupcontent.go:320-347 | each step of the two passes that has something to do leaves strictly less, the deletion of one claim included |
| Deletion.DeletionTerminates | controllers/volumegroup_controller.go:203-230 | for a static or dynamic group whose content no other group claims: from every point where users, failures and crashes may leave its deletion, one pass of each controller, with any claim deletions in it, leaves neither group, content nor backend group |
| Deletion.DeletingABoundGroup | controllers/volumegroup_controller.go:105-113 | deletion of a group bound to a held content of policy Delete that no other group claims starts in such a state, also in the middle of a reconcile of either object |
| Deletion.BoundGroupsAreExclusive | controllers/volumegroup_controller.go:115-141 | a bound dynamic group meets that by the invariants of all runs: no other group, stored or in the worker, claims its content |
| Deletion.PassIsForced | controllers/volumegroupcontent/volumegroupcontent_controller.go:121-153 | during a deletion, the next step of the pass is enabled and is the only one apart from an error |
| Deletion.GroupPassRuns | controllers/volumegroup_controller.go:203-230 | the reconcile of a deleted group removes it and touches exactly the content it names, if that has policy Delete: it goes at once, or is marked while finalizers hold it |
| Deletion.ContentPassRuns | controllers/volumegroupcontent/volumegroupcontent_controller.go:121-153 | the reconcile of a marked content that only the operator holds, with no group at the key it refers to, removes that content, and its backend group exactly if the policy is Delete |
| Deletion.FinishesExactlyWhenKeyIsFree | controllers/utils/volumegroup.go:50-61 | the content controller can finish a marked content if and only if it refers to no group or no group has the key it refers to |
| Abandoned.UnboundContentIsNeverMarked | controllers/volumegroup_controller.go:203-220 | the content of a group deleted before it was bound outlives the group unmarked, in every later run without a user's delete |

## Left out

- gRPC connections, main, flags, manager set-up, waiting for CRDs, events, logging and messages: no state of interest; a failed event is a failed request.
- Label selectors: an arbitrary predicate; how it is computed is not modelled.
- Secrets, parameters, validation and creation times: a lookup that may fail, or nothing.
- Contents without a class (thin contents), and the error field of a content.
- Reconcile of both controllers: the order of its writes is the step system of `lifecycle.dfy`, not a method; its membership part is a method and refines the step system of `group_controller.dfy`.
- The status of a group in `lifecycle.dfy`: it has names, handles, readiness, finalizers, deletion marks and the volumes of a content only; which volume a claim deletion unlists is arbitrary there, and `ClaimDeletion` is the loop itself.
- The order in which an API server lists objects: any order.
- The compared fields of two claims in IsPVCListEqual: a claim is equal to its copy if all its modelled fields are.
- BindOnce.DynamicGroupsAreProvisioned: for users who leave the operator's generated content names alone, as for `BoundForEver`.
- Deletion.DeletionTerminates: for users who put no further finalizer on the two objects, do not reuse their names, and let no other group claim the content; `FinishesExactlyWhenKeyIsFree` says why the name of the group counts.
- Deletion.DeletingABoundGroup: not for a reconcile that is just creating the content or binding the group in its own copy; `Abandoned` is about groups not yet bound.
- Members.RecordedExactlyWhenInformed: for claims and volumes bound one to one at each push, and new groups that share no content with another.
- ConflictRetry.UpdateVGStatus: between its two updates any versions may be stored, and then it fails; that it is not retried is the code's choice.
- MembershipUpdate.UpdatePvcAndPvList: the methods run undisturbed; interference by others is in the step system that they refine.
