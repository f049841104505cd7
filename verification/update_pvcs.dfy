/** One call of updatePVCs: the status follows the backend, with one exception. */
module UpdatePvcs {
  import opened Kube
  import opened Cluster
  import opened MembershipPlan
  import opened GroupController
  import opened Synchroniser
  import opened MembershipUpdate
  import opened PlanEffect
  import Agreement
  import ListEquality
  import Scans

  /** How the push of a membership to the driver ended. */
  datatype Push = Accepted | SecretLost | Refused

  /** The backend was told the volumes of these claims. */
  ghost predicate Pushed(before: World, w: World, c: Key, matching: seq<PVC>) {
    && c in before.vgcs && Agreement.VolumeIds(before, matching).Some?
    && w == Agreement.Push(before, c, Agreement.VolumeIds(before, matching).value)
  }

  /** ModifyVolumesInVG works on a copy of the group whose list is already the proposed one. That
      copy is written only when the secret is not found; the caller's group stays as it is. A
      refused push may still have reached the backend, when the answer was lost. */
  method ModifyVolumesInVG(client: Client, group: Group, matching: seq<PVC>) returns (push: Push)
    requires group.Valid()
    modifies client
    ensures push == Accepted ==>
      Pushed(old(client.w), client.w, group.content, matching) && client.w.vgs == old(client.w).vgs
    ensures push == SecretLost ==>
      group.key in old(client.w).vgs && client.w == Reported(old(client.w), group.key, matching, ERROR)
    ensures push == Refused ==> client.w == old(client.w) || Pushed(old(client.w), client.w, group.content, matching)
    ensures old(client.faults) == [] ==>
      client.faults == [] && push != SecretLost
      && (push == Accepted <==>
            group.content in old(client.w).vgcs && Agreement.VolumeIds(old(client.w), matching).Some?)
  {
    var ok := client.Request();
    if !ok || group.content !in client.w.vgcs {
      return Refused;
    }
    ok := client.Request();
    var ids := Scans.VolumeIdsOf(client.w, matching);
    if !ok || ids.None? {
      return Refused;
    }
    ok := client.Request();
    if !ok {
      return Refused;
    }
    var secretFound := client.Request();
    if !secretFound {
      ok := client.UpdateError(group.key, matching, ERROR);
      return if ok then SecretLost else Refused;
    }
    var sent := client.Request();
    if !sent {
      return Refused;
    }
    client.w := Agreement.Push(client.w, group.content, ids.value);
    var answered := client.Request();
    push := if answered then Accepted else Refused;
  }

  /** How a call of updatePVCs ended. */
  datatype Outcome = ListingFailed | Settled | NotPushed(push: Push) | Stopped | Synchronised

  /** A refused push changed no list, whether or not it reached the backend. */
  ghost predicate AfterRefusal(before: World, w: World, g: Key, c: Key, list: seq<PVC>, matching: seq<PVC>) {
    exists v :: (v == before || Pushed(before, v, c, matching)) && PerhapsReported(v, w, g, list)
  }

  /** The push was accepted, and a prefix of the plan was written. */
  ghost predicate AfterStop(before: World, w: World, g: Key, c: Key, list: seq<PVC>, matching: seq<PVC>,
                            now: seq<PVC>) {
    exists v, done :: Pushed(before, v, c, matching)
        && StoredAfterFailure(v, list, g, Plan(g, c, list, matching), done, w, now)
  }

  /** The push was accepted, and the whole plan was written. */
  ghost predicate AfterSuccess(before: World, w: World, g: Key, c: Key, list: seq<PVC>, matching: seq<PVC>,
                               now: seq<PVC>) {
    && now == MembershipPlan.Synchronised(list, matching)
    && exists v :: Pushed(before, v, c, matching) && WroteAll(v, w, Plan(g, c, list, matching))
  }

  /** What each outcome of updatePVCs says of the store `w` and the list in memory `now`. */
  ghost predicate Ended(outcome: Outcome, before: World, w: World, g: Key, c: Key, list: seq<PVC>, matching: seq<PVC>,
                        now: seq<PVC>) {
    match outcome
    case ListingFailed => PerhapsReported(before, w, g, list)
    case Settled => w == before && now == list && SameList(list, matching)
    case NotPushed(SecretLost) => !SameList(list, matching) && g in before.vgs
        && w == Reported(before, g, matching, ERROR)
    case NotPushed(_) => !SameList(list, matching) && AfterRefusal(before, w, g, c, list, matching)
    case Stopped => !SameList(list, matching) && AfterStop(before, w, g, c, list, matching, now)
    case Synchronised => !SameList(list, matching) && AfterSuccess(before, w, g, c, list, matching, now)
  }

  /** The comparison of updatePVCs. */
  predicate SameList(list: seq<PVC>, matching: seq<PVC>) {
    ListEquality.IsPVCListEqual(AsSlice(matching), AsSlice(list))
  }

  /** Nothing is missing that a call for the group `g` may look up. */
  ghost predicate Complete(w: World, g: Key, c: Key, list: seq<PVC>, selector: Selector) {
    && g in w.vgs && c in w.vgcs && Scans.Listable(w) && Scans.Undisputed(w, selector)
    && AllPresent(w, g, c, list)
    && forall k :: k in w.pvcs && Eligible(w, w.pvcs[k]) && selector(w.pvcs[k].labels) ==> Present(w, g, c, w.pvcs[k])
  }

  lemma CompleteIsListable(w: World, g: Key, c: Key, list: seq<PVC>, selector: Selector)
    ensures Complete(w, g, c, list, selector) ==> c in w.vgcs && Scans.Listable(w) && Scans.Undisputed(w, selector)
  {
  }

  lemma MatchingIsPresent(w: World, g: Key, c: Key, list: seq<PVC>, selector: Selector, matching: seq<PVC>)
    requires Complete(w, g, c, list, selector) && Scans.IsMatching(w, selector, matching)
    ensures AllPresent(w, g, c, list + matching) && Agreement.VolumeIds(w, matching).Some?
  {
    Agreement.VolumeIdsMeaning(w, matching);
    assert forall p :: p in matching ==> p == w.pvcs[KeyOf(p)] && Present(w, g, c, p);
  }

  lemma PushKeepsPresent(before: World, v: World, g: Key, c: Key, matching: seq<PVC>, ps: seq<PVC>)
    requires Pushed(before, v, c, matching)
    ensures AllPresent(before, g, c, ps) ==> AllPresent(v, g, c, ps)
  {
  }

  /** getMatchingPVCs on what the API server lists. */
  method FindMatching(client: Client, selector: Selector) returns (found: Option<seq<PVC>>)
    requires WellKeyed(client.w.pvcs)
    modifies client`faults
    ensures found.Some? ==> Scans.IsMatching(client.w, selector, found.value) && UniqueKeys(found.value)
    ensures found.Some? ==> Scans.Collected(client.w, selector, found.value) && Scans.Undisputed(client.w, selector)
    ensures old(client.faults) == [] ==>
      client.faults == [] && (found.Some? <==> Scans.Listable(client.w) && Scans.Undisputed(client.w, selector))
  {
    var ok := client.Request();
    var claims := client.ListClaims();
    var groups := client.ListGroups();
    found := Scans.GetMatchingPVCs(client.w, claims, groups, selector);
    if !ok {
      found := None;
    }
  }

  /** updatePVCs: the claim list changes only after the driver accepted that very membership, or
      when the secret is not found. */
  method UpdatePVCs(client: Client, group: Group, selector: Selector) returns (outcome: Outcome, matching: seq<PVC>)
    requires group.Valid() && InSync(group, client.w) && UniqueKeys(group.PVCList()) && WellKeyed(client.w.pvcs)
    modifies group, group.claims, client
    ensures group.Valid()
    ensures outcome != ListingFailed ==>
      Scans.IsMatching(old(client.w), selector, matching) && Scans.Collected(old(client.w), selector, matching)
      && Scans.Undisputed(old(client.w), selector)
    ensures Ended(outcome, old(client.w), client.w, group.key, group.content, old(group.PVCList()), matching,
        group.PVCList())
    ensures outcome == Synchronised ==> InSync(group, client.w)
    ensures
      && old(client.faults) == []
      && Complete(old(client.w), group.key, group.content, old(group.PVCList()), selector)
      ==> outcome == Settled || outcome == Synchronised
    ensures old(client.faults) == [] && outcome != Settled && outcome != Synchronised ==>
      ShowsError(client.w, group.key)
  {
    hide Plan, ApplyAll, StoredAfterFailure, MembershipPlan.Synchronised, UniqueKeys, ListEquality.IsPVCListEqual;
    hide Scans.IsMatching, Scans.Collected, Scans.Undisputed, Scans.Listable;
    hide Ended, PerhapsReported, Pushed, Reported, SameList, WroteAll, Complete, AllPresent, Agreement.VolumeIds;
    ghost var before, list, g, c := client.w, group.PVCList(), group.key, group.content;
    matching := [];
    CompleteIsListable(before, g, c, list, selector);
    var found := FindMatching(client, selector);
    if found.None? {
      ReportError(client, group);
      EndedBadly(before, before, client.w, g, c, list, matching, list);
      return ListingFailed, matching;
    }
    matching := found.value;
    if Complete(before, g, c, list, selector) {
      MatchingIsPresent(before, g, c, list, selector, matching);
    }
    if SameList(group.claims[..group.count], matching) {
      EndedSettled(before, g, c, list, matching);
      return Settled, matching;
    }
    var push := ModifyVolumesInVG(client, group, matching);
    ghost var v := client.w;
    if push == SecretLost {
      // The report finds the group changed, reloads it, and so keeps the list just written.
      var ok := client.UpdateError(group.key, matching, ERROR);
      EndedLost(before, v, client.w, g, c, list, matching, list);
      return NotPushed(SecretLost), matching;
    }
    if push == Refused {
      ReportError(client, group);
      EndedBadly(before, v, client.w, g, c, list, matching, list);
      return NotPushed(Refused), matching;
    }
    PushKeepsPresent(before, v, g, c, matching, list + matching);
    ghost var done;
    var ok;
    ok, done := UpdatePvcAndPvList(client, group, matching);
    if ok {
      EndedWell(before, v, client.w, g, c, list, matching, group.PVCList());
      return Synchronised, matching;
    }
    EndedHalfway(before, v, done, client.w, g, c, list, matching, group.PVCList());
    return Stopped, matching;
  }

  lemma EndedBadly(before: World, v: World, w: World, g: Key, c: Key, list: seq<PVC>, matching: seq<PVC>, now: seq<PVC>)
    requires PerhapsReported(v, w, g, list) && (v == before || Pushed(before, v, c, matching))
    ensures !SameList(list, matching) ==> Ended(NotPushed(Refused), before, w, g, c, list, matching, now)
    ensures v == before ==> Ended(ListingFailed, before, w, g, c, list, matching, now)
  {
  }

  lemma EndedSettled(w: World, g: Key, c: Key, list: seq<PVC>, matching: seq<PVC>)
    requires SameList(list, matching)
    ensures Ended(Settled, w, w, g, c, list, matching, list)
  {
  }

  lemma EndedLost(before: World, v: World, w: World, g: Key, c: Key, list: seq<PVC>, matching: seq<PVC>, now: seq<PVC>)
    requires !SameList(list, matching)
    requires g in before.vgs && v == Reported(before, g, matching, ERROR)
        && (w == v || w == Reported(v, g, matching, ERROR))
    ensures Ended(NotPushed(SecretLost), before, w, g, c, list, matching, now)
  {
  }

  lemma EndedHalfway(before: World, v: World, done: nat, w: World, g: Key, c: Key, list: seq<PVC>, matching: seq<PVC>,
                     now: seq<PVC>)
    requires !SameList(list, matching)
    requires Pushed(before, v, c, matching) && StoredAfterFailure(v, list, g, Plan(g, c, list, matching), done, w, now)
    ensures Ended(Stopped, before, w, g, c, list, matching, now)
  {
  }

  lemma EndedWell(before: World, v: World, w: World, g: Key, c: Key, list: seq<PVC>, matching: seq<PVC>, now: seq<PVC>)
    requires !SameList(list, matching)
    requires Pushed(before, v, c, matching) && WroteAll(v, w, Plan(g, c, list, matching))
    requires now == MembershipPlan.Synchronised(list, matching)
    ensures Ended(Synchronised, before, w, g, c, list, matching, now)
  {
  }

  lemma UniqueMatching(w: World, selector: Selector, matching: seq<PVC>)
    requires Scans.IsMatching(w, selector, matching)
    ensures UniqueKeys(matching)
  {
  }

  // ---- the status never runs ahead of the backend ----

  lemma PlanKeepsMembers(w: World, c: Key, plan: seq<Write>)
    requires c in w.vgcs
    ensures ApplyAll(w, plan).members == w.members
  {
    Agreement.ApplyAllPV(w, plan, c);
  }

  lemma ReportKeepsMembers(v: World, w: World, g: Key, list: seq<PVC>)
    requires PerhapsReported(v, w, g, list)
    ensures w.members == v.members
    ensures g in v.vgs && v.vgs[g].pvcList == list ==> g in w.vgs && w.vgs[g].pvcList == list
  {
  }

  /** The backend was last told exactly the volumes of the matching claims. */
  ghost predicate BackendHas(before: World, w: World, c: Key, matching: seq<PVC>) {
    && c in before.vgcs && Agreement.VolumeIds(before, matching).Some?
    && w.members == before.members[before.vgcs[c].handle := Agreement.VolumeIds(before, matching).value]
  }

  lemma RefusalKeepsList(before: World, w: World, g: Key, c: Key, list: seq<PVC>, matching: seq<PVC>)
    requires AfterRefusal(before, w, g, c, list, matching) && g in before.vgs && before.vgs[g].pvcList == list
    ensures g in w.vgs && w.vgs[g].pvcList == list
  {
    var v :| (v == before || Pushed(before, v, c, matching)) && PerhapsReported(v, w, g, list);
    ReportKeepsMembers(v, w, g, list);
  }

  lemma StopFollowsPush(before: World, w: World, g: Key, c: Key, list: seq<PVC>, matching: seq<PVC>, now: seq<PVC>)
    requires AfterStop(before, w, g, c, list, matching, now)
    ensures BackendHas(before, w, c, matching)
  {
    hide Plan, ApplyAll, Writable;
    var plan := Plan(g, c, list, matching);
    var v, done: nat :| Pushed(before, v, c, matching) && StoredAfterFailure(v, list, g, plan, done, w, now);
    var u :| StoppedAt(v, list, g, plan, done, u, now) && PerhapsReported(u, w, g, now);
    PlanKeepsMembers(v, c, plan[..done]);
  }

  lemma SuccessFollowsPush(before: World, w: World, g: Key, c: Key, list: seq<PVC>, matching: seq<PVC>, now: seq<PVC>)
    requires AfterSuccess(before, w, g, c, list, matching, now)
    ensures BackendHas(before, w, c, matching)
    ensures w == ApplyAll(Agreement.Push(before, c, Agreement.VolumeIds(before, matching).value),
        Plan(g, c, list, matching))
  {
    hide Plan, ApplyAll, Writable, MembershipPlan.Synchronised;
    var v :| Pushed(before, v, c, matching) && WroteAll(v, w, Plan(g, c, list, matching));
    PlanKeepsMembers(v, c, Plan(g, c, list, matching));
  }

  /** Whatever the outcome, a changed claim list means that the driver has accepted the matching
      claims as members, except after a lost secret; then the list is the matching one although
      the members are as before. */
  lemma StatusFollowsBackend(outcome: Outcome, before: World, w: World, g: Key, c: Key, list: seq<PVC>,
                             matching: seq<PVC>, now: seq<PVC>)
    requires Ended(outcome, before, w, g, c, list, matching, now)
    requires g in before.vgs && before.vgs[g].pvcList == list
    ensures outcome != NotPushed(SecretLost) ==>
      BackendHas(before, w, c, matching) || (g in w.vgs && w.vgs[g].pvcList == list)
    ensures outcome == NotPushed(SecretLost) ==> w.members == before.members && w.vgs[g].pvcList == matching
  {
    hide Plan, ApplyAll, SameList, BackendHas, AfterRefusal, AfterStop, AfterSuccess;
    match outcome {
      case NotPushed(Refused) => RefusalKeepsList(before, w, g, c, list, matching);
      case NotPushed(Accepted) => RefusalKeepsList(before, w, g, c, list, matching);
      case NotPushed(SecretLost) =>
      case Stopped => StopFollowsPush(before, w, g, c, list, matching, now);
      case Synchronised => SuccessFollowsPush(before, w, g, c, list, matching, now);
      case ListingFailed => ReportKeepsMembers(before, w, g, list);
      case Settled =>
    }
  }

  /** When nothing is written the list already holds the claims the group is meant to hold. */
  lemma SettledMeansSynchronised(before: World, w: World, g: Key, c: Key, matching: seq<PVC>, now: seq<PVC>)
    requires g in before.vgs && WellKeyed(before.pvcs) && Scans.IsMatching(before, before.vgs[g].selector, matching)
    requires Ended(Settled, before, w, g, c, before.vgs[g].pvcList, matching, now)
    ensures forall k :: k in Keys(w.vgs[g].pvcList) <==> Meant(before, g, k)
  {
    Scans.MatchingIsMeant(before, g, matching);
    ListEquality.EqualIsPermutation(AsSlice(matching), AsSlice(before.vgs[g].pvcList));
  }

  /** A successful call leaves the three records in correspondence, and the list holds exactly the
      claims the group is meant to hold. */
  lemma SuccessMeansAgreement(before: World, w: World, g: Key, c: Key, matching: seq<PVC>, now: seq<PVC>)
    requires Agreement.Agree(before, g, c) && WellKeyed(before.pvcs) && UniqueKeys(before.vgs[g].pvcList)
    requires Scans.IsMatching(before, before.vgs[g].selector, matching)
    requires Agreement.BoundOneToOne(before.vgs[g].pvcList, matching)
    requires Ended(Synchronised, before, w, g, c, before.vgs[g].pvcList, matching, now)
    ensures Agreement.Agree(w, g, c) && forall k :: k in Keys(w.vgs[g].pvcList) <==> Meant(before, g, k)
  {
    UniqueMatching(before, before.vgs[g].selector, matching);
    Scans.MatchingIsMeant(before, g, matching);
    SuccessFollowsPush(before, w, g, c, before.vgs[g].pvcList, matching, now);
    hide Plan, ApplyAll, Scans.IsMatching, WellKeyed, Agreement.Agree, MatchingKeys, Meant, UniqueKeys;
    hide Ended, AfterSuccess, Agreement.BoundOneToOne, Agreement.Push;
    Agreement.RunRestoresAgreement(before, g, c, matching);
  }

  // ---- what a success leaves of every claim and group ----

  /** What holds of the claims once the driver was told holds of them before, which it did not touch. */
  lemma PushLeavesClaims(before: World, v: World, w: World, g: Key, c: Key, list: seq<PVC>, matching: seq<PVC>, k: Key)
    requires Pushed(before, v, c, matching) && k in before.pvcs
    requires ClaimSettled(v, w, g, list, matching, k)
    ensures ClaimSettled(before, w, g, list, matching, k)
  {
    assert ListedElsewhere(v, g, k) <==> ListedElsewhere(before, g, k) by {
      assert forall h :: Ours(v, h) <==> Ours(before, h);
    }
    hide ListedElsewhere, Freed, Held;
  }

  lemma IsMatchingIsCurrent(w: World, selector: Selector, matching: seq<PVC>)
    requires Scans.IsMatching(w, selector, matching)
    ensures Current(w, matching) && UniqueKeys(matching)
  {
  }

  /** After a successful call every claim that left the list and that no other group of the driver
      lists is rid of the protection finalizer, every claim that came to be listed has it, both with
      all other finalizers as they were, and no other claim is touched. The error of the group is
      cleared if anything was written, and no other group is touched. */
  lemma SuccessSettlesEveryClaim(before: World, w: World, g: Key, c: Key, selector: Selector, matching: seq<PVC>,
                                 now: seq<PVC>)
    requires g in before.vgs && UniqueKeys(before.vgs[g].pvcList) && Scans.IsMatching(before, selector, matching)
    requires Ended(Synchronised, before, w, g, c, before.vgs[g].pvcList, matching, now)
    ensures var list := before.vgs[g].pvcList;
      && w.pvcs.Keys == before.pvcs.Keys && w.vgs.Keys == before.vgs.Keys
      && (forall k :: k in before.pvcs ==> ClaimSettled(before, w, g, list, matching, k))
      && (forall k :: k in before.pvcs && k in Keys(list) - Keys(matching) && !ListedElsewhere(before, g, k) ==>
            PVC_FINALIZER !in w.pvcs[k].finalizers)
      && (forall h :: h in before.vgs && h != g ==> w.vgs[h] == before.vgs[h])
      && w.vgs[g].error == (if Keys(list) == Keys(matching) then before.vgs[g].error else "")
  {
    var list := before.vgs[g].pvcList;
    IsMatchingIsCurrent(before, selector, matching);
    hide Plan, ApplyAll, Writable, UniqueKeys, Scans.IsMatching, SameList, ClaimSettled;
    var v :| Pushed(before, v, c, matching) && WroteAll(v, w, Plan(g, c, list, matching));
    hide Ended, Pushed, WroteAll, OnlyGroup;
    PushSettles(before, v, w, g, c, matching);
    forall k | k in before.pvcs && k in Keys(list) - Keys(matching) && !ListedElsewhere(before, g, k)
      ensures PVC_FINALIZER !in w.pvcs[k].finalizers
    {
      SettledIsUnprotected(before, w, g, list, matching, k);
    }
  }

  lemma PushSettles(before: World, v: World, w: World, g: Key, c: Key, matching: seq<PVC>)
    requires g in before.vgs && UniqueKeys(before.vgs[g].pvcList) && UniqueKeys(matching) && Current(before, matching)
    requires Pushed(before, v, c, matching) && WroteAll(v, w, Plan(g, c, before.vgs[g].pvcList, matching))
    ensures var list := before.vgs[g].pvcList;
      && w.pvcs.Keys == before.pvcs.Keys && w.vgs.Keys == before.vgs.Keys
      && (forall k :: k in before.pvcs ==> ClaimSettled(before, w, g, list, matching, k))
      && (forall h :: h in before.vgs && h != g ==> w.vgs[h] == before.vgs[h])
      && w.vgs[g].error == (if Keys(list) == Keys(matching) then before.vgs[g].error else "")
  {
    var list := before.vgs[g].pvcList;
    assert v.pvcs == before.pvcs && v.vgs == before.vgs && Current(v, matching);
    hide Plan, WroteAll, UniqueKeys, ClaimSettled, Current, Pushed;
    PlanSettles(v, w, list, g, c, matching);
    forall k | k in before.pvcs ensures ClaimSettled(before, w, g, list, matching, k) {
      PushLeavesClaims(before, v, w, g, c, list, matching, k);
    }
  }

  lemma SettledIsUnprotected(before: World, w: World, g: Key, list: seq<PVC>, matching: seq<PVC>, k: Key)
    requires k in before.pvcs && ClaimSettled(before, w, g, list, matching, k)
    requires k in Keys(list) && k !in Keys(matching) && !ListedElsewhere(before, g, k)
    ensures k in w.pvcs && PVC_FINALIZER !in w.pvcs[k].finalizers
  {
    assert multiset(w.pvcs[k].finalizers)[PVC_FINALIZER] == 0;
  }
}
