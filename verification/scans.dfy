/** The loops that read: each is proved against the set or list it is meant to find. */
module Scans {
  import opened Kube
  import opened Cluster
  import opened Agreement
  import opened GroupController

  /** The order in which the API server lists the objects of these keys. */
  ghost predicate Enumerates(listing: seq<Key>, ks: set<Key>) {
    && (forall i, j :: 0 <= i < j < |listing| ==> listing[i] != listing[j])
    && (forall k :: k in listing <==> k in ks)
  }

  function ToKeys(listing: seq<Key>): set<Key> {
    set k | k in listing
  }

  lemma EnumerationGrows(listing: seq<Key>, ks: set<Key>, k: Key)
    requires Enumerates(listing, ks) && k !in ks
    ensures Enumerates(listing + [k], ks + {k})
  {
  }

  lemma {:induction false} EnumerationSize(listing: seq<Key>, ks: set<Key>)
    requires Enumerates(listing, ks)
    ensures |ks| == |listing|
  {
    if listing == [] {
      assert ks == {};
    } else {
      assert ks == {listing[0]} + (ks - {listing[0]});
      assert listing == [listing[0]] + listing[1..];
      EnumerationSize(listing[1..], ks - {listing[0]});
    }
  }

  method IsPVCInPVCList(k: Key, list: seq<PVC>) returns (found: bool)
    ensures found <==> k in Keys(list)
  {
    for i := 0 to |list|
      invariant k !in Keys(list[..i])
    {
      assert list[..i + 1] == list[..i] + [list[i]];
      KeysConcat(list[..i], [list[i]]);
      if KeyOf(list[i]) == k {
        assert list[i] in list;
        return true;
      }
    }
    assert list[..|list|] == list;
    return false;
  }

  // ---- groups ----

  ghost function OurGroups(w: World): set<Key> {
    set g | g in w.vgs && Ours(w, g)
  }

  /** getProvisionedVGs: a group whose class is missing is dropped without an error. */
  method GetVGList(w: World, listing: seq<Key>) returns (groups: seq<Key>)
    requires Enumerates(listing, w.vgs.Keys)
    ensures Enumerates(groups, OurGroups(w))
    ensures forall g :: g in groups <==>
      g in w.vgs && w.vgs[g].className in w.vgClasses && w.vgClasses[w.vgs[g].className] == w.config.driver
  {
    groups := [];
    ghost var ks: set<Key> := {};
    for i := 0 to |listing|
      invariant Enumerates(groups, ks)
      invariant ks == set g | g in listing[..i] && Ours(w, g)
    {
      assert listing[..i + 1] == listing[..i] + [listing[i]];
      if Ours(w, listing[i]) {
        assert listing[i] !in ks;
        EnumerationGrows(groups, ks, listing[i]);
        groups, ks := groups + [listing[i]], ks + {listing[i]};
      }
    }
    assert listing[..|listing|] == listing;
    assert ks == OurGroups(w);
  }

  lemma ListedMeaning(w: World, k: Key)
    ensures Listed(w, k) <==>
      exists g, p :: Ours(w, g) && p in w.vgs[g].pvcList && p.namespace == k.namespace && p.name == k.name
  {
    if g, p :| Ours(w, g) && p in w.vgs[g].pvcList && p.namespace == k.namespace && p.name == k.name {
      assert KeyOf(p) in Keys(w.vgs[g].pvcList);
    }
  }

  /** IsPVCPartAnyVG over the groups of the driver. */
  method IsPVCPartAnyVG(w: World, listing: seq<Key>, k: Key) returns (found: bool)
    requires Enumerates(listing, w.vgs.Keys)
    ensures found <==> Listed(w, k)
    ensures found <==>
      exists g, p :: Ours(w, g) && p in w.vgs[g].pvcList && p.namespace == k.namespace && p.name == k.name
  {
    var groups := GetVGList(w, listing);
    ListedMeaning(w, k);
    for i := 0 to |groups|
      invariant forall g :: g in groups[..i] && g in w.vgs ==> k !in Keys(w.vgs[g].pvcList)
    {
      assert groups[i] in groups && groups[i] in OurGroups(w);
      var here := IsPVCInPVCList(k, w.vgs[groups[i]].pvcList);
      if here { return true; }
      assert groups[..i + 1] == groups[..i] + [groups[i]];
    }
    assert groups[..|groups|] == groups;
    assert forall g :: g in w.vgs && Ours(w, g) ==> g in OurGroups(w) && g in groups;
    return false;
  }

  /** isFinalizerShouldBeREmovedFromPVC; None when the claim is not found. */
  method IsFinalizerToBeRemoved(w: World, listing: seq<Key>, k: Key) returns (answer: Option<bool>)
    requires Enumerates(listing, w.vgs.Keys)
    ensures answer.Some? <==> k in w.pvcs
    ensures answer.Some? ==> (answer.value <==> Removable(w, k))
    ensures answer.Some? ==> (answer.value <==> PVC_FINALIZER in w.pvcs[k].finalizers && !Listed(w, k))
  {
    if k !in w.pvcs {
      return None;
    }
    var part := IsPVCPartAnyVG(w, listing, k);
    answer := Some(!part && PVC_FINALIZER in w.pvcs[k].finalizers);
  }

  /** IsPVCCanBeAddedToVG: the two buckets are the groups that list the claim and the groups that
      match it and do not list it. */
  method IsPVCCanBeAddedToVG(w: World, listing: seq<Key>, p: PVC) returns (ok: bool)
    requires Enumerates(listing, w.vgs.Keys)
    ensures ok <==> CanBeAdded(w, p)
    ensures !ok <==> w.config.multipleVGsToPVC != "true" && Contested(w, p)
  {
    RefusedExactlyWhenContested(w, p);
    hide Contested;
    if w.config.multipleVGsToPVC == "true" {
      return true;
    }
    var groups := GetVGList(w, listing);
    assert forall g :: g in groups ==> g in OurGroups(w);
    var with, candidates: seq<Key> := [], [];
    ghost var seen: set<Key> := {};
    for i := 0 to |groups|
      invariant seen == ToKeys(groups[..i])
      invariant Enumerates(with, seen * GroupsWith(w, p)) && Enumerates(candidates, seen * NewGroupsFor(w, p))
    {
      var g := groups[i];
      NextOf(groups, OurGroups(w), i);
      assert g in OurGroups(w);
      assert g in GroupsWith(w, p) <==> KeyOf(p) in Keys(w.vgs[g].pvcList);
      assert g in NewGroupsFor(w, p) <==> KeyOf(p) !in Keys(w.vgs[g].pvcList) && w.vgs[g].selector(p.labels);
      hide Enumerates, GroupsWith, NewGroupsFor, Keys, OurGroups, Ours;
      var listed := IsPVCInPVCList(KeyOf(p), w.vgs[g].pvcList);
      Bucket(with, seen, GroupsWith(w, p), g);
      Bucket(candidates, seen, NewGroupsFor(w, p), g);
      if listed {
        with := with + [g];
      } else if w.vgs[g].selector(p.labels) {
        candidates := candidates + [g];
      }
      seen := seen + {g};
    }
    assert groups[..|groups|] == groups;
    assert seen * GroupsWith(w, p) == GroupsWith(w, p) && seen * NewGroupsFor(w, p) == NewGroupsFor(w, p) by {
      assert seen == OurGroups(w);
    }
    EnumerationSize(with, GroupsWith(w, p));
    EnumerationSize(candidates, NewGroupsFor(w, p));
    return !(|with| > 0 && |candidates| > 0) && |candidates| <= 1;
  }

  lemma NextOf(listing: seq<Key>, ks: set<Key>, i: nat)
    requires Enumerates(listing, ks) && i < |listing|
    ensures listing[i] in ks && listing[i] !in ToKeys(listing[..i])
        && ToKeys(listing[..i + 1]) == ToKeys(listing[..i]) + {listing[i]}
  {
  }

  /** One more group goes into its bucket, or not. */
  lemma Bucket(bucket: seq<Key>, seen: set<Key>, ks: set<Key>, g: Key)
    requires Enumerates(bucket, seen * ks) && g !in seen
    ensures Enumerates(if g in ks then bucket + [g] else bucket, (seen + {g}) * ks)
  {
    if g in ks {
      EnumerationGrows(bucket, seen * ks, g);
      assert (seen + {g}) * ks == seen * ks + {g};
    } else {
      assert (seen + {g}) * ks == seen * ks;
    }
  }

  // ---- claims ----

  /** Every bound claim has a known storage class; otherwise listing fails. */
  ghost predicate Listable(w: World) {
    forall k :: k in w.pvcs && w.pvcs[k].phase == Bound ==>
      w.pvcs[k].storageClass.Some? && w.pvcs[k].storageClass.value in w.storageClasses
  }

  predicate HasKnownClass(w: World, p: PVC) {
    p.storageClass.Some? && p.storageClass.value in w.storageClasses
  }

  /** GetPVCList: first the bound claims, then among them those of the driver. */
  method GetPVCList(w: World, listing: seq<Key>) returns (items: Option<seq<PVC>>)
    requires Enumerates(listing, w.pvcs.Keys) && WellKeyed(w.pvcs)
    ensures items.Some? <==> Listable(w)
    ensures items.Some? ==> IsListing(w, items.value)
    ensures items.Some? ==> forall p :: p in items.value <==>
      && KeyOf(p) in w.pvcs && w.pvcs[KeyOf(p)] == p && p.phase == Bound
      && p.storageClass.Some? && p.storageClass.value in w.storageClasses
      && w.storageClasses[p.storageClass.value].provisioner == w.config.driver
  {
    var bound: seq<PVC> := [];
    for i := 0 to |listing|
      invariant UniqueKeys(bound)
      invariant forall p :: p in bound <==> KeyOf(p) in listing[..i] && w.pvcs[KeyOf(p)] == p && p.phase == Bound
    {
      assert listing[..i + 1] == listing[..i] + [listing[i]];
      var p := w.pvcs[listing[i]];
      if p.phase == Bound {
        assert KeyOf(p) !in Keys(bound);
        AppendKeys(bound, p);
        bound := bound + [p];
      }
    }
    assert listing[..|listing|] == listing;
    var provisioned: seq<PVC> := [];
    for i := 0 to |bound|
      invariant UniqueKeys(provisioned)
      invariant forall p :: p in bound[..i] ==> HasKnownClass(w, p)
      invariant forall p :: p in provisioned <==> p in bound[..i] && Provisioned(w, p)
    {
      var p := bound[i];
      assert p in bound;
      assert bound[..i + 1] == bound[..i] + [p];
      if !HasKnownClass(w, p) {
        return None;
      }
      if w.storageClasses[p.storageClass.value].provisioner == w.config.driver {
        assert KeyOf(p) !in Keys(provisioned);
        AppendKeys(provisioned, p);
        provisioned := provisioned + [p];
      }
    }
    assert bound[..|bound|] == bound;
    items := Some(provisioned);
  }

  /** What getMatchingPVCs may return for a selector: the claims it matches and the operator
      handles, each once and in its stored version. */
  ghost predicate IsMatching(w: World, selector: Selector, matching: seq<PVC>) {
    && UniqueKeys(matching)
    && forall p :: p in matching <==>
         KeyOf(p) in w.pvcs && w.pvcs[KeyOf(p)] == p && Eligible(w, p) && selector(p.labels)
  }

  /** The claims of a listing that getMatchingPVCs takes, in their order. */
  function Taken(w: World, selector: Selector, items: seq<PVC>): seq<PVC> {
    if items == [] then []
    else
      var p := items[|items| - 1];
      Taken(w, selector, items[..|items| - 1]) + (if selector(p.labels) && Eligible(w, p) then [p] else [])
  }

  /** What is taken from some listing of the claims. */
  ghost predicate Collected(w: World, selector: Selector, matching: seq<PVC>) {
    exists items :: IsListing(w, items) && matching == Taken(w, selector, items)
  }

  /** No claim of the driver that the selector matches is disputed between groups. */
  ghost predicate Undisputed(w: World, selector: Selector) {
    forall k :: k in w.pvcs && Provisioned(w, w.pvcs[k]) && selector(w.pvcs[k].labels) ==> CanBeAdded(w, w.pvcs[k])
  }

  /** Claims must not be shared, and a claim of the driver that the selector matches is contested. */
  ghost predicate RefusedFor(w: World, selector: Selector) {
    && w.config.multipleVGsToPVC != "true"
    && exists k :: k in w.pvcs && Provisioned(w, w.pvcs[k]) && selector(w.pvcs[k].labels) && Contested(w, w.pvcs[k])
  }

  lemma UndisputedMeaning(w: World, selector: Selector)
    ensures Undisputed(w, selector) <==> !RefusedFor(w, selector)
  {
    forall k | k in w.pvcs
      ensures !CanBeAdded(w, w.pvcs[k]) <==> w.config.multipleVGsToPVC != "true" && Contested(w, w.pvcs[k])
    {
      RefusedExactlyWhenContested(w, w.pvcs[k]);
    }
    hide CanBeAdded, Contested, Provisioned;
  }

  predicate StoredAs(w: World, p: PVC) {
    KeyOf(p) in w.pvcs && w.pvcs[KeyOf(p)] == p
  }

  lemma MatchingMeaning(w: World, selector: Selector, matching: seq<PVC>)
    requires IsMatching(w, selector, matching)
    ensures forall p :: p in matching <==> StoredAs(w, p) && MeantFor(w, selector, p)
  {
  }

  /** getMatchingPVCs: it fails exactly when the claims cannot be listed or one is disputed. */
  method GetMatchingPVCs(w: World, claims: seq<Key>, groups: seq<Key>, selector: Selector)
    returns (matching: Option<seq<PVC>>)
    requires Enumerates(claims, w.pvcs.Keys) && WellKeyed(w.pvcs) && Enumerates(groups, w.vgs.Keys)
    ensures matching.Some? <==> Listable(w) && Undisputed(w, selector)
    ensures matching.None? <==> !Listable(w) || RefusedFor(w, selector)
    ensures matching.Some? ==> forall p :: p in matching.value <==> StoredAs(w, p) && MeantFor(w, selector, p)
    ensures matching.Some? ==> IsMatching(w, selector, matching.value) && Collected(w, selector, matching.value)
  {
    UndisputedMeaning(w, selector);
    hide RefusedFor, MeantFor, IsMatching, Collected, Undisputed, CanBeAdded, Eligible, IsListing, Listable, StoredAs;
    hide WellKeyed, Provisioned;
    var items := GetPVCList(w, claims);
    if items.None? {
      return None;
    }
    var result: seq<PVC> := [];
    for i := 0 to |items.value|
      invariant UniqueKeys(result) && result == Taken(w, selector, items.value[..i])
      invariant forall p :: p in result <==> p in items.value[..i] && Eligible(w, p) && selector(p.labels)
      invariant forall p :: p in items.value[..i] && selector(p.labels) ==> CanBeAdded(w, p)
    {
      var p := items.value[i];
      assert items.value[..i + 1] == items.value[..i] + [p];
      assert items.value[..i + 1][..i] == items.value[..i];
      if selector(p.labels) {
        var ok := IsPVCCanBeAddedToVG(w, groups, p);
        if !ok {
          Disputed(w, items.value, selector, p);
          return None;
        }
      }
      var listed := IsPVCInPVCList(KeyOf(p), result);
      EarlierKeys(items.value, i, result, w);
      if selector(p.labels) && !listed && Eligible(w, p) {
        AppendKeys(result, p);
        result := result + [p];
      }
    }
    assert items.value[..|items.value|] == items.value;
    CollectedAll(w, selector, items.value, result);
    matching := Some(result);
  }

  /** What was taken from the whole listing. */
  lemma CollectedAll(w: World, selector: Selector, items: seq<PVC>, result: seq<PVC>)
    requires WellKeyed(w.pvcs) && IsListing(w, items) && UniqueKeys(result) && result == Taken(w, selector, items)
    requires forall p :: p in result <==> p in items && Eligible(w, p) && selector(p.labels)
    requires forall p :: p in items && selector(p.labels) ==> CanBeAdded(w, p)
    ensures IsMatching(w, selector, result) && Collected(w, selector, result) && Undisputed(w, selector)
    ensures forall p :: p in result <==> StoredAs(w, p) && MeantFor(w, selector, p)
  {
    hide CanBeAdded;
    MatchingMeaning(w, selector, result);
  }

  lemma Disputed(w: World, items: seq<PVC>, selector: Selector, p: PVC)
    requires IsListing(w, items) && p in items && selector(p.labels) && !CanBeAdded(w, p)
    ensures !Undisputed(w, selector)
  {
  }

  lemma EarlierKeys(items: seq<PVC>, i: nat, result: seq<PVC>, w: World)
    requires IsListing(w, items) && i < |items|
    requires forall p :: p in result ==> p in items[..i]
    ensures KeyOf(items[i]) !in Keys(result)
  {
  }

  /** With the stored selector of a group, the matching claims are the ones it is meant to hold. */
  lemma MatchingIsMeant(w: World, g: Key, matching: seq<PVC>)
    requires g in w.vgs && WellKeyed(w.pvcs) && IsMatching(w, w.vgs[g].selector, matching)
    ensures Keys(matching) == MatchingKeys(w, g)
    ensures forall k :: k in Keys(matching) <==> Meant(w, g, k)
  {
  }

  // ---- volumes ----

  function Prepend(ids: seq<string>, rest: Option<seq<string>>): Option<seq<string>> {
    match rest
    case None => None
    case Some(r) => Some(ids + r)
  }

  /** getPVCListVolumeIds. */
  method VolumeIdsOf(w: World, list: seq<PVC>) returns (ids: Option<seq<string>>)
    ensures ids == VolumeIds(w, list)
  {
    var found: seq<string> := [];
    assert list[0..] == list;
    assert VolumeIds(w, list).Some? ==> [] + VolumeIds(w, list).value == VolumeIds(w, list).value;
    for i := 0 to |list|
      invariant VolumeIds(w, list) == Prepend(found, VolumeIds(w, list[i..]))
    {
      var v := list[i].volumeName;
      assert list[i..][1..] == list[i + 1..];
      if v != "" {
        if v !in w.pvs {
          return None;
        }
        ghost var rest := VolumeIds(w, list[i + 1..]);
        if rest.Some? {
          assert found + ([w.pvs[v]] + rest.value) == found + [w.pvs[v]] + rest.value;
        }
        found := found + [w.pvs[v]];
      }
    }
    assert list[|list|..] == [];
    ids := Some(found);
    assert found + [] == found;
  }

  // ---- events ----

  /** CreateRequests. */
  method CreateRequests(w: World, listing: seq<Key>, labels: Labels) returns (requests: seq<Key>)
    requires Enumerates(listing, w.vgs.Keys)
    ensures Enumerates(requests, Affected(w, labels))
    ensures forall g :: g in requests <==> g in w.vgs && w.vgs[g].selector(labels)
  {
    requests := [];
    ghost var ks: set<Key> := {};
    for i := 0 to |listing|
      invariant Enumerates(requests, ks)
      invariant ks == set g | g in listing[..i] && g in w.vgs && w.vgs[g].selector(labels)
    {
      assert listing[..i + 1] == listing[..i] + [listing[i]];
      assert listing[i] in listing;
      if w.vgs[listing[i]].selector(labels) {
        assert listing[i] !in ks;
        EnumerationGrows(requests, ks, listing[i]);
        requests, ks := requests + [listing[i]], ks + {listing[i]};
      }
    }
    assert listing[..|listing|] == listing;
    assert ks == Affected(w, labels);
  }
}
