/** What a completed plan leaves of every claim and group, said of the stored objects and not of
    the writes. */
module PlanEffect {
  import opened Kube
  import opened Cluster
  import opened MembershipPlan

  // ---- one claim ----

  /** Only the finalizers differ. */
  ghost predicate SameButFinalizers(p: PVC, q: PVC) {
    q == p.(finalizers := q.finalizers, resourceVersion := q.resourceVersion)
  }

  /** The protection finalizer is gone, and every other finalizer is there as often as before. */
  ghost predicate Freed(p: PVC, q: PVC) {
    && SameButFinalizers(p, q)
    && (forall f :: multiset(q.finalizers)[f] == if f == PVC_FINALIZER then 0 else multiset(p.finalizers)[f])
  }

  /** The protection finalizer is there, once if it is new, and all others are as they were. */
  ghost predicate Held(p: PVC, q: PVC) {
    && SameButFinalizers(p, q) && PVC_FINALIZER in q.finalizers
    && (forall f :: f != PVC_FINALIZER ==> multiset(q.finalizers)[f] == multiset(p.finalizers)[f])
    && (multiset(q.finalizers)[PVC_FINALIZER] == 1 || q.finalizers == p.finalizers)
  }

  lemma {:induction false} RemoveAllCounts(s: seq<string>, x: string)
    ensures forall f :: multiset(RemoveAll(s, x))[f] == if f == x then 0 else multiset(s)[f]
  {
    if s != [] {
      RemoveAllCounts(s[..|s| - 1], x);
      assert s == s[..|s| - 1] + [s[|s| - 1]];
    }
  }

  lemma StripFrees(pvcs: map<Key, PVC>, k: Key)
    requires k in pvcs
    ensures var v := Strip(pvcs, k);
      v.Keys == pvcs.Keys && Freed(pvcs[k], v[k]) && forall l :: l in pvcs && l != k ==> v[l] == pvcs[l]
  {
    RemoveAllCounts(pvcs[k].finalizers, PVC_FINALIZER);
  }

  lemma ProtectHolds(pvcs: map<Key, PVC>, p: PVC)
    requires KeyOf(p) in pvcs && pvcs[KeyOf(p)].finalizers == p.finalizers
    ensures Held(pvcs[KeyOf(p)], Protect(pvcs, p)[KeyOf(p)])
  {
  }

  // ---- what a list of writes leaves alone ----

  ghost predicate WritesTo(plan: seq<Write>, g: Key) {
    forall x :: x in plan && (x.DropPVC? || x.AppendClaim? || x.ClearError?) ==> x.g == g
  }

  ghost predicate Leaves(plan: seq<Write>, k: Key) {
    forall x :: x in plan ==> !(x.DropFinalizer? && x.k == k) && !(x.AddFinalizer? && KeyOf(x.p) == k)
  }

  lemma {:induction false} ClaimLeft(w: World, plan: seq<Write>, k: Key)
    requires Leaves(plan, k)
    ensures var v := ApplyAll(w, plan); (k in v.pvcs <==> k in w.pvcs) && (k in w.pvcs ==> v.pvcs[k] == w.pvcs[k])
    decreases |plan|
  {
    if plan != [] {
      assert plan[0] in plan;
      ClaimLeft(Apply(w, plan[0]), plan[1..], k);
    }
  }

  /** Only the claim list and the error of `g` change among the groups. */
  ghost predicate OnlyGroup(w: World, v: World, g: Key) {
    && v.config == w.config && v.vgClasses == w.vgClasses && v.storageClasses == w.storageClasses && v.pvs == w.pvs
    && v.members == w.members && v.pvcs.Keys == w.pvcs.Keys && v.vgcs.Keys == w.vgcs.Keys && v.vgs.Keys == w.vgs.Keys
    && (forall h :: h in w.vgs && h != g ==> v.vgs[h] == w.vgs[h])
    && (g in w.vgs ==> v.vgs[g] == w.vgs[g].(pvcList := v.vgs[g].pvcList, error := v.vgs[g].error))
  }

  lemma OneWriteOnlyGroup(w: World, x: Write, g: Key)
    requires WritesTo([x], g)
    ensures OnlyGroup(w, Apply(w, x), g)
  {
    assert x in [x];
    hide Removable, Strip;
    assert Apply(w, x).pvcs.Keys == w.pvcs.Keys by {
      if x.DropFinalizer? && Removable(w, x.k) {
        StripKeys(w, x.k);
      }
    }
  }

  lemma StripKeys(w: World, k: Key)
    requires Removable(w, k)
    ensures k in w.pvcs && Strip(w.pvcs, k).Keys == w.pvcs.Keys
  {
  }

  lemma {:induction false} OnlyItsGroup(w: World, plan: seq<Write>, g: Key)
    requires WritesTo(plan, g)
    ensures OnlyGroup(w, ApplyAll(w, plan), g)
    decreases |plan|
  {
    if plan != [] {
      assert plan[0] in plan;
      OneWriteOnlyGroup(w, plan[0], g);
      hide Apply;
      OnlyItsGroup(Apply(w, plan[0]), plan[1..], g);
    }
  }

  /** Another group of the driver lists the claim. */
  ghost predicate ListedElsewhere(w: World, g: Key, k: Key) {
    exists h :: h in w.vgs && h != g && Ours(w, h) && k in Keys(w.vgs[h].pvcList)
  }

  lemma ElsewhereStays(w: World, v: World, g: Key, k: Key)
    requires OnlyGroup(w, v, g)
    ensures ListedElsewhere(v, g, k) <==> ListedElsewhere(w, g, k)
    ensures g in w.vgs && k !in Keys(v.vgs[g].pvcList) ==> (Listed(v, k) <==> ListedElsewhere(w, g, k))
  {
    assert forall h :: Ours(v, h) <==> Ours(w, h);
  }

  // ---- one removal and one addition ----

  /** The writes of a removal before that to the claim. */
  function Unlisting(g: Key, c: Key, p: PVC): seq<Write> {
    [DropPVC(g, KeyOf(p))] + (if p.volumeName != "" then [DropPV(c, p.volumeName)] else [])
  }

  ghost predicate LetGo(w: World, v: World, g: Key, k: Key) {
    && k in w.pvcs && k in v.pvcs
    && if ListedElsewhere(w, g, k) then v.pvcs[k] == w.pvcs[k] else Freed(w.pvcs[k], v.pvcs[k])
  }

  lemma ReleaseLetsGo(w: World, u: World, g: Key, k: Key)
    requires g in w.vgs && k in w.pvcs && OnlyGroup(w, u, g) && u.pvcs == w.pvcs && k !in Keys(u.vgs[g].pvcList)
    ensures LetGo(w, Apply(u, DropFinalizer(k)), g, k)
  {
    ElsewhereStays(w, u, g, k);
    var v := Apply(u, DropFinalizer(k));
    if Removable(u, k) {
      StripFrees(u.pvcs, k);
    } else if !ListedElsewhere(w, g, k) {
      assert PVC_FINALIZER !in u.pvcs[k].finalizers;
    }
  }

  lemma RemovalLetsGo(w: World, g: Key, c: Key, p: PVC)
    requires g in w.vgs && KeyOf(p) in w.pvcs && KeyOf(p) !in Keys(RemoveKey(w.vgs[g].pvcList, KeyOf(p)))
    ensures LetGo(w, ApplyAll(w, RemovePlan(g, c, p)), g, KeyOf(p))
  {
    var k, head := KeyOf(p), Unlisting(g, c, p);
    var u := ApplyAll(w, head);
    ClaimsLeft(w, head);
    assert RemovePlan(g, c, p) == head + [DropFinalizer(k)] + [ClearError(g)];
    OnlyItsGroup(w, head, g);
    ApplyAllList(w, head, g);
    ListAfterQuiet(RemoveKey(w.vgs[g].pvcList, k), g, head[1..]);
    hide Apply;
    ReleaseLetsGo(w, u, g, k);
    ApplyAllOne(w, head, DropFinalizer(k));
    ApplyAllOne(w, head + [DropFinalizer(k)], ClearError(g));
    ClaimsLeftByError(Apply(u, DropFinalizer(k)), g);
  }

  /** The writes that touch no claim. */
  lemma {:induction false} ClaimsLeft(w: World, plan: seq<Write>)
    requires forall x :: x in plan ==> !x.DropFinalizer? && !x.AddFinalizer?
    ensures ApplyAll(w, plan).pvcs == w.pvcs
    decreases |plan|
  {
    if plan != [] {
      assert plan[0] in plan;
      ClaimsLeft(Apply(w, plan[0]), plan[1..]);
    }
  }

  /** The writes of an addition before that to the claim. */
  function Listing(g: Key, c: Key, p: PVC): seq<Write> {
    [AppendClaim(g, p)] + (if p.volumeName != "" then [AppendPV(c, p.volumeName)] else [])
  }

  lemma AdditionHolds(w: World, g: Key, c: Key, p: PVC)
    requires KeyOf(p) in w.pvcs && w.pvcs[KeyOf(p)].finalizers == p.finalizers
    ensures var v := ApplyAll(w, AddPlan(g, c, p)); KeyOf(p) in v.pvcs && Held(w.pvcs[KeyOf(p)], v.pvcs[KeyOf(p)])
  {
    var head := Listing(g, c, p);
    var u := ApplyAll(w, head);
    ClaimsLeft(w, head);
    assert AddPlan(g, c, p) == head + [AddFinalizer(p)] + [ClearError(g)];
    ApplyAllOne(w, head, AddFinalizer(p));
    ApplyAllOne(w, head + [AddFinalizer(p)], ClearError(g));
    ProtectHolds(w.pvcs, p);
    assert Apply(u, AddFinalizer(p)).pvcs == Protect(w.pvcs, p);
    hide Apply;
    ClaimsLeftByError(Apply(u, AddFinalizer(p)), g);
  }

  lemma ClaimsLeftByError(w: World, g: Key)
    ensures Apply(w, ClearError(g)).pvcs == w.pvcs
  {
  }

  // ---- the whole plan ----

  lemma {:induction false} RemovalsLeave(g: Key, c: Key, ps: seq<PVC>)
    ensures WritesTo(RemovePlans(g, c, ps), g)
    ensures forall k :: k !in Keys(ps) ==> Leaves(RemovePlans(g, c, ps), k)
  {
    if ps != [] {
      RemovalsLeave(g, c, ps[1..]);
      KeysCons(ps);
    }
  }

  lemma {:induction false} AdditionsLeave(g: Key, c: Key, ps: seq<PVC>)
    ensures WritesTo(AddPlans(g, c, ps), g)
    ensures forall k :: k !in Keys(ps) ==> Leaves(AddPlans(g, c, ps), k)
  {
    if ps != [] {
      AdditionsLeave(g, c, ps[1..]);
      KeysCons(ps);
    }
  }

  /** The claims of a list of distinct keys around the one at `i`. */
  lemma Around(ps: seq<PVC>, i: nat)
    requires UniqueKeys(ps) && i < |ps|
    ensures ps == ps[..i] + [ps[i]] + ps[i + 1..]
    ensures KeyOf(ps[i]) !in Keys(ps[..i]) && KeyOf(ps[i]) !in Keys(ps[i + 1..])
  {
  }

  lemma OnePlan(g: Key, c: Key, p: PVC)
    ensures RemovePlans(g, c, [p]) == RemovePlan(g, c, p) && AddPlans(g, c, [p]) == AddPlan(g, c, p)
  {
    assert [p][1..] == [];
    assert RemovePlans(g, c, []) == [] && AddPlans(g, c, []) == [];
  }

  /** Every removed claim is let go. */
  lemma RemovalsLetGo(w: World, g: Key, c: Key, ps: seq<PVC>, i: nat)
    requires g in w.vgs && UniqueKeys(w.vgs[g].pvcList) && UniqueKeys(ps) && i < |ps| && KeyOf(ps[i]) in w.pvcs
    ensures LetGo(w, ApplyAll(w, RemovePlans(g, c, ps)), g, KeyOf(ps[i]))
  {
    var p, k := ps[i], KeyOf(ps[i]);
    var head, tail := RemovePlans(g, c, ps[..i]), RemovePlans(g, c, ps[i + 1..]);
    var u := ApplyAll(w, head);
    var v := ApplyAll(u, RemovePlan(g, c, p));
    Around(ps, i);
    OnePlan(g, c, p);
    RemovePlansConcat(g, c, ps[..i], [p]);
    RemovePlansConcat(g, c, ps[..i] + [p], ps[i + 1..]);
    ApplyAllConcat(w, head, RemovePlan(g, c, p));
    ApplyAllConcat(w, head + RemovePlan(g, c, p), tail);
    RemovalsLeave(g, c, ps[..i]);
    RemovalsLeave(g, c, ps[i + 1..]);
    hide RemovePlan, RemovePlans, ApplyAll, Leaves, WritesTo;
    ClaimLeft(w, head, k);
    ClaimLeft(v, tail, k);
    OnlyItsGroup(w, head, g);
    ApplyAllList(w, head, g);
    RemovePlansList(w.vgs[g].pvcList, g, c, ps[..i]);
    DropKeysUnique(w.vgs[g].pvcList, Keys(ps[..i]));
    RemoveKeyKeys(u.vgs[g].pvcList, k);
    RemovalLetsGo(u, g, c, p);
    ElsewhereStays(w, u, g, k);
  }

  /** Every added claim is held. */
  lemma AdditionsHold(w: World, g: Key, c: Key, ps: seq<PVC>, i: nat)
    requires UniqueKeys(ps) && i < |ps| && KeyOf(ps[i]) in w.pvcs && w.pvcs[KeyOf(ps[i])].finalizers == ps[i].finalizers
    ensures var k, v := KeyOf(ps[i]), ApplyAll(w, AddPlans(g, c, ps)); k in v.pvcs && Held(w.pvcs[k], v.pvcs[k])
  {
    var p, k := ps[i], KeyOf(ps[i]);
    var head, tail := AddPlans(g, c, ps[..i]), AddPlans(g, c, ps[i + 1..]);
    var u := ApplyAll(w, head);
    var v := ApplyAll(u, AddPlan(g, c, p));
    Around(ps, i);
    OnePlan(g, c, p);
    AddPlansConcat(g, c, ps[..i], [p]);
    AddPlansConcat(g, c, ps[..i] + [p], ps[i + 1..]);
    ApplyAllConcat(w, head, AddPlan(g, c, p));
    ApplyAllConcat(w, head + AddPlan(g, c, p), tail);
    AdditionsLeave(g, c, ps[..i]);
    AdditionsLeave(g, c, ps[i + 1..]);
    hide AddPlan, AddPlans, ApplyAll, Leaves, WritesTo;
    ClaimLeft(w, head, k);
    ClaimLeft(v, tail, k);
    AdditionHolds(u, g, c, p);
  }

  /** What becomes of the stored claim `k`: a removed one is let go, an added one is held, and any
      other is as it was. */
  ghost predicate ClaimSettled(w: World, v: World, g: Key, list: seq<PVC>, matching: seq<PVC>, k: Key)
    requires k in w.pvcs
  {
    && k in v.pvcs
    && (k in Keys(list) && k !in Keys(matching) ==> LetGo(w, v, g, k))
    && (k in Keys(matching) && k !in Keys(list) ==> Held(w.pvcs[k], v.pvcs[k]))
    && ((k in Keys(list) <==> k in Keys(matching)) ==> v.pvcs[k] == w.pvcs[k])
  }

  /** The matching claims are copies of the stored ones. */
  ghost predicate Current(w: World, matching: seq<PVC>) {
    forall p :: p in matching ==> KeyOf(p) in w.pvcs && w.pvcs[KeyOf(p)] == p
  }

  /** The whole plan settles every claim. */
  lemma PlanSettlesClaims(w: World, g: Key, c: Key, matching: seq<PVC>, k: Key)
    requires g in w.vgs && UniqueKeys(w.vgs[g].pvcList) && UniqueKeys(matching) && Current(w, matching) && k in w.pvcs
    ensures var list := w.vgs[g].pvcList; ClaimSettled(w, ApplyAll(w, Plan(g, c, list, matching)), g, list, matching, k)
  {
    var list := w.vgs[g].pvcList;
    var rs, ads := Removals(list, matching), Additions(list, matching);
    var u := ApplyAll(w, RemovePlans(g, c, rs));
    PlanTouchesOnce(list, matching);
    RemovalsLeave(g, c, rs);
    AdditionsLeave(g, c, ads);
    ApplyAllConcat(w, RemovePlans(g, c, rs), AddPlans(g, c, ads));
    DropKeysMembers(matching, Keys(list));
    hide RemovePlans, AddPlans, ApplyAll, Leaves, WritesTo, Removals, Additions, Freed, Held;
    if k in Keys(rs) {
      var i := IndexOf(rs, k);
      RemovalsLetGo(w, g, c, rs, i);
      ClaimLeft(u, AddPlans(g, c, ads), k);
    } else if k in Keys(ads) {
      var i := IndexOf(ads, k);
      ClaimLeft(w, RemovePlans(g, c, rs), k);
      assert ads[i] in ads && ads[i] in matching;
      AdditionsHold(u, g, c, ads, i);
    } else {
      ClaimLeft(w, RemovePlans(g, c, rs), k);
      ClaimLeft(u, AddPlans(g, c, ads), k);
    }
  }

  ghost function IndexOf(ps: seq<PVC>, k: Key): (i: nat)
    requires k in Keys(ps)
    ensures i < |ps| && KeyOf(ps[i]) == k
  {
    var i :| 0 <= i < |ps| && KeyOf(ps[i]) == k;
    i
  }

  // ---- the group ----

  lemma ErrorCleared(w: World, plan: seq<Write>, g: Key)
    requires g in w.vgs && plan != [] && plan[|plan| - 1] == ClearError(g)
    ensures var v := ApplyAll(w, plan); g in v.vgs && v.vgs[g].error == ""
  {
    var head := plan[..|plan| - 1];
    assert plan == head + [ClearError(g)];
    ApplyAllOne(w, head, ClearError(g));
    ApplyAllList(w, head, g);
  }

  lemma {:induction false} RemovalsEndInClear(g: Key, c: Key, ps: seq<PVC>)
    requires ps != []
    ensures var plan := RemovePlans(g, c, ps); plan != [] && plan[|plan| - 1] == ClearError(g)
  {
    if |ps| > 1 {
      RemovalsEndInClear(g, c, ps[1..]);
    }
  }

  lemma {:induction false} AdditionsEndInClear(g: Key, c: Key, ps: seq<PVC>)
    requires ps != []
    ensures var plan := AddPlans(g, c, ps); plan != [] && plan[|plan| - 1] == ClearError(g)
  {
    if |ps| > 1 {
      AdditionsEndInClear(g, c, ps[1..]);
    }
  }

  /** The whole plan sets the list of the group, and clears its error if it writes anything: which
      it does exactly when the keys differ. Nothing else of any group changes. */
  lemma PlanSettlesGroup(w: World, g: Key, c: Key, matching: seq<PVC>)
    requires g in w.vgs && UniqueKeys(w.vgs[g].pvcList) && UniqueKeys(matching)
    ensures var list := w.vgs[g].pvcList;
      var v := ApplyAll(w, Plan(g, c, list, matching));
      && OnlyGroup(w, v, g)
      && v.vgs[g].pvcList == Synchronised(list, matching)
      && v.vgs[g].error == if Keys(list) == Keys(matching) then w.vgs[g].error else ""
  {
    var list := w.vgs[g].pvcList;
    var rs, ads := Removals(list, matching), Additions(list, matching);
    PlanSynchronises(g, c, list, matching);
    PlanTouchesOnce(list, matching);
    ApplyAllList(w, Plan(g, c, list, matching), g);
    RemovalsLeave(g, c, rs);
    AdditionsLeave(g, c, ads);
    assert WritesTo(Plan(g, c, list, matching), g);
    OnlyItsGroup(w, Plan(g, c, list, matching), g);
    NoKeysNoClaims(rs);
    NoKeysNoClaims(ads);
    if ads != [] {
      AdditionsEndInClear(g, c, ads);
    } else if rs != [] {
      RemovalsEndInClear(g, c, rs);
    }
    hide Removals, Additions, RemovePlans, AddPlans, Synchronised, OnlyGroup, WritesTo;
    if rs != [] || ads != [] {
      ErrorCleared(w, Plan(g, c, list, matching), g);
    } else {
      assert Plan(g, c, list, matching) == [] by {
        NoPlanWithoutDifference(g, c);
      }
    }
  }

  lemma NoPlanWithoutDifference(g: Key, c: Key)
    ensures RemovePlans(g, c, []) == [] && AddPlans(g, c, []) == []
  {
  }
}
