/** What the next call of updatePVCs does. */
module SecondRun {
  import opened Kube
  import opened Cluster
  import opened MembershipPlan
  import opened GroupController
  import opened UpdatePvcs
  import opened Agreement
  import ListEquality
  import Scans

  lemma SynchronisedAlready(list: seq<PVC>, matching: seq<PVC>)
    requires Keys(list) == Keys(matching)
    ensures MembershipPlan.Synchronised(list, matching) == list
    ensures Removals(list, matching) == [] && Additions(list, matching) == []
  {
    DropNothing(list, Keys(list) - Keys(matching));
    DropKeysKeys(list, Keys(matching));
    DropKeysKeys(matching, Keys(list));
    NoKeysNoClaims(Removals(list, matching));
    NoKeysNoClaims(Additions(list, matching));
    assert list + [] == list;
  }

  lemma SameVolumes(list: seq<PVC>, matching: seq<PVC>)
    requires Keys(list) == Keys(matching) && BoundOneToOne(list, matching)
    ensures VolumeNames(list) == VolumeNames(matching)
  {
    SynchronisedAlready(list, matching);
    SynchronisedVolumes(list, matching);
  }

  /** Idempotence: with the same claims matching, a second call writes nothing and tells the
      driver the same member set or nothing, even if it takes the lists for different because the
      copies of the claims differ. */
  lemma SecondRunChangesNothing(outcome: Outcome, w: World, w': World, g: Key, c: Key, matching: seq<PVC>,
                                now: seq<PVC>)
    requires Agree(w, g, c) && Keys(w.vgs[g].pvcList) == Keys(matching) && BoundOneToOne(w.vgs[g].pvcList, matching)
    requires outcome == Settled || outcome == UpdatePvcs.Synchronised
    requires Ended(outcome, w, w', g, c, w.vgs[g].pvcList, matching, now)
    ensures now == w.vgs[g].pvcList
    ensures w' == w.(members := w'.members)
    ensures w'.members.Keys == w.members.Keys
    ensures forall h :: h in w.members ==> h == w.vgcs[c].handle || w'.members[h] == w.members[h]
    ensures ToSet(w'.members[w.vgcs[c].handle]) == ToSet(w.members[w.vgcs[c].handle])
  {
    var list := w.vgs[g].pvcList;
    SynchronisedAlready(list, matching);
    if outcome == UpdatePvcs.Synchronised {
      SuccessFollowsPush(w, w', g, c, list, matching, now);
      assert Plan(g, c, list, matching) == [];
      SameVolumes(list, matching);
      VolumeIdsMeaning(w, matching);
    }
  }

  ghost predicate DistinctNames(s: seq<PVC>) {
    forall i, j :: 0 <= i < j < |s| ==> s[i].name != s[j].name
  }

  /** With distinct names there is one order per name. */
  lemma DistinctNamesAreInOrder(matching: seq<PVC>, stored: seq<PVC>)
    requires multiset(matching) == multiset(stored) && DistinctNames(matching)
    ensures ListEquality.SamePerName(matching, stored)
  {
    var x, y := AsSlice(matching), AsSlice(stored);
    assert |matching| == |multiset(matching)| == |multiset(stored)| == |stored|;
    ListEquality.PermutationIsEqual(x, y);
    ListEquality.EqualMeansSameOrderPerName(x, y);
    hide ListEquality.IsPVCListEqual, ListEquality.SamePerName;
  }

  /** A claim list written for want of a secret is not repaired: the next scan, which collects the
      same claims, settles exactly when the claims of each name come in the stored order, and can
      then not push; with distinct names they always do. */
  lemma LostSecretIsNotRepaired(s: State)
    requires s.worker.Scanning? && s.worker.scan == [] && s.worker.g in s.world.vgs
    requires multiset(s.worker.matching) == multiset(s.world.vgs[s.worker.g].pvcList)
    ensures var matching, stored := s.worker.matching, s.world.vgs[s.worker.g].pvcList;
      && (Enabled(s, SettleEqual) <==> ListEquality.SamePerName(matching, stored))
      && (ListEquality.SamePerName(matching, stored) ==>
            !Enabled(s, GroupController.Push) && !Enabled(s, SecretMissing) && Next(s, SettleEqual).world == s.world)
      && (DistinctNames(matching) ==> ListEquality.SamePerName(matching, stored))
  {
    var matching, stored := s.worker.matching, s.world.vgs[s.worker.g].pvcList;
    assert |matching| == |multiset(matching)| == |multiset(stored)| == |stored|;
    ListEquality.EqualMeansSameOrderPerName(AsSlice(matching), AsSlice(stored));
    if DistinctNames(matching) {
      DistinctNamesAreInOrder(matching, stored);
    }
    hide ListEquality.IsPVCListEqual, ListEquality.SamePerName, DistinctNames;
  }

  lemma {:induction false} SameMembersOnce(a: seq<PVC>, b: seq<PVC>)
    requires UniqueKeys(a) && UniqueKeys(b) && forall p :: p in a <==> p in b
    ensures multiset(a) == multiset(b)
  {
    forall p ensures multiset(a)[p] == multiset(b)[p] {
      ListEquality.CountedOnce(a, p);
      ListEquality.CountedOnce(b, p);
    }
  }

  /** While the claims are unchanged, the scan after a lost secret is always of that kind: it
      collects the stored list again, in some order. */
  lemma NextScanFindsTheStoredList(before: World, w: World, g: Key, selector: Selector, stored: seq<PVC>,
                                   matching: seq<PVC>)
    requires g in before.vgs && w == Reported(before, g, stored, ERROR)
    requires Scans.IsMatching(before, selector, stored) && Scans.IsMatching(w, selector, matching)
    ensures multiset(matching) == multiset(w.vgs[g].pvcList)
  {
    SameMembersOnce(matching, stored);
  }
}
