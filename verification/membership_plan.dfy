/** The writes that turn the recorded membership of a group into the matching one, and what
    they amount to when none of them fails. */
module MembershipPlan {
  import opened Kube
  import opened Cluster

  function RemovePlan(g: Key, c: Key, p: PVC): seq<Write> {
    [DropPVC(g, KeyOf(p))]
    + (if p.volumeName != "" then [DropPV(c, p.volumeName)] else [])
    + [DropFinalizer(KeyOf(p)), ClearError(g)]
  }

  function AddPlan(g: Key, c: Key, p: PVC): seq<Write> {
    [AppendClaim(g, p)]
    + (if p.volumeName != "" then [AppendPV(c, p.volumeName)] else [])
    + [AddFinalizer(p), ClearError(g)]
  }

  function RemovePlans(g: Key, c: Key, ps: seq<PVC>): seq<Write> {
    if ps == [] then [] else RemovePlan(g, c, ps[0]) + RemovePlans(g, c, ps[1..])
  }

  function AddPlans(g: Key, c: Key, ps: seq<PVC>): seq<Write> {
    if ps == [] then [] else AddPlan(g, c, ps[0]) + AddPlans(g, c, ps[1..])
  }

  function Removals(list: seq<PVC>, matching: seq<PVC>): seq<PVC> {
    DropKeys(list, Keys(matching))
  }

  function Additions(list: seq<PVC>, matching: seq<PVC>): seq<PVC> {
    DropKeys(matching, Keys(list))
  }

  function Plan(g: Key, c: Key, list: seq<PVC>, matching: seq<PVC>): seq<Write> {
    RemovePlans(g, c, Removals(list, matching)) + AddPlans(g, c, Additions(list, matching))
  }

  /** What a claim list is meant to become: the claims that still match in their old order,
      then the new ones in matching order. */
  function Synchronised(list: seq<PVC>, matching: seq<PVC>): seq<PVC> {
    KeepKeys(list, Keys(matching)) + DropKeys(matching, Keys(list))
  }

  /** The claims a list of writes appends. */
  function AppendedClaims(todo: seq<Write>): set<Key> {
    set x | x in todo && x.AppendClaim? :: KeyOf(x.p)
  }

  // ---- claim lists ----

  function ListStep(list: seq<PVC>, g: Key, x: Write): seq<PVC> {
    if x.DropPVC? && x.g == g then RemoveKey(list, x.k)
    else if x.AppendClaim? && x.g == g then AppendPVC(list, x.p)
    else list
  }

  function ListAfter(list: seq<PVC>, g: Key, plan: seq<Write>): seq<PVC>
    decreases |plan|
  {
    if plan == [] then list else ListAfter(ListStep(list, g, plan[0]), g, plan[1..])
  }

  lemma ApplyList(w: World, x: Write, g: Key)
    requires g in w.vgs
    ensures g in Apply(w, x).vgs
    ensures Apply(w, x).vgs[g].pvcList == ListStep(w.vgs[g].pvcList, g, x)
  {
  }

  lemma {:induction false} ApplyAllList(w: World, plan: seq<Write>, g: Key)
    requires g in w.vgs
    ensures g in ApplyAll(w, plan).vgs
    ensures ApplyAll(w, plan).vgs[g].pvcList == ListAfter(w.vgs[g].pvcList, g, plan)
    decreases |plan|
  {
    if plan != [] {
      ApplyList(w, plan[0], g);
      ApplyAllList(Apply(w, plan[0]), plan[1..], g);
    }
  }

  lemma {:induction false} ListAfterConcat(list: seq<PVC>, g: Key, a: seq<Write>, b: seq<Write>)
    ensures ListAfter(list, g, a + b) == ListAfter(ListAfter(list, g, a), g, b)
    decreases |a|
  {
    if a == [] {
      assert a + b == b;
    } else {
      assert (a + b)[1..] == a[1..] + b;
      ListAfterConcat(ListStep(list, g, a[0]), g, a[1..], b);
    }
  }

  /** A plan prefix with no list write leaves the list alone. */
  lemma {:induction false} ListAfterQuiet(list: seq<PVC>, g: Key, plan: seq<Write>)
    requires forall x :: x in plan ==> !x.DropPVC? && !x.AppendClaim?
    ensures ListAfter(list, g, plan) == list
  {
    if plan != [] {
      assert plan[0] in plan;
      ListAfterQuiet(list, g, plan[1..]);
    }
  }

  lemma {:induction false} RemovePlansConcat(g: Key, c: Key, a: seq<PVC>, b: seq<PVC>)
    ensures RemovePlans(g, c, a + b) == RemovePlans(g, c, a) + RemovePlans(g, c, b)
  {
    if a == [] {
      assert a + b == b;
    } else {
      assert (a + b)[1..] == a[1..] + b;
      RemovePlansConcat(g, c, a[1..], b);
    }
  }

  lemma {:induction false} AddPlansConcat(g: Key, c: Key, a: seq<PVC>, b: seq<PVC>)
    ensures AddPlans(g, c, a + b) == AddPlans(g, c, a) + AddPlans(g, c, b)
  {
    if a == [] {
      assert a + b == b;
    } else {
      assert (a + b)[1..] == a[1..] + b;
      AddPlansConcat(g, c, a[1..], b);
    }
  }

  lemma RemovePlanList(list: seq<PVC>, g: Key, c: Key, p: PVC)
    ensures ListAfter(list, g, RemovePlan(g, c, p)) == RemoveKey(list, KeyOf(p))
  {
    var plan := RemovePlan(g, c, p);
    ListAfterQuiet(RemoveKey(list, KeyOf(p)), g, plan[1..]);
  }

  lemma AddPlanList(list: seq<PVC>, g: Key, c: Key, p: PVC)
    ensures ListAfter(list, g, AddPlan(g, c, p)) == AppendPVC(list, p)
  {
    var plan := AddPlan(g, c, p);
    ListAfterQuiet(AppendPVC(list, p), g, plan[1..]);
  }

  lemma {:induction false} RemovePlansList(list: seq<PVC>, g: Key, c: Key, ps: seq<PVC>)
    requires UniqueKeys(list)
    ensures ListAfter(list, g, RemovePlans(g, c, ps)) == DropKeys(list, Keys(ps))
    decreases |ps|
  {
    if ps == [] {
      assert Keys(ps) == {};
      DropNothing(list, {});
    } else {
      var k := KeyOf(ps[0]);
      RemovePlanList(list, g, c, ps[0]);
      ListAfterConcat(list, g, RemovePlan(g, c, ps[0]), RemovePlans(g, c, ps[1..]));
      RemoveKeyIsDrop(list, k);
      DropKeysUnique(list, {k});
      RemovePlansList(DropKeys(list, {k}), g, c, ps[1..]);
      DropTwice(list, {k}, Keys(ps[1..]));
      KeysCons(ps);
    }
  }

  lemma {:induction false} AddPlansList(list: seq<PVC>, g: Key, c: Key, ps: seq<PVC>)
    requires UniqueKeys(ps) && Keys(list) !! Keys(ps)
    ensures ListAfter(list, g, AddPlans(g, c, ps)) == list + ps
    decreases |ps|
  {
    if ps == [] {
      assert list + ps == list;
    } else {
      AddPlanList(list, g, c, ps[0]);
      ListAfterConcat(list, g, AddPlan(g, c, ps[0]), AddPlans(g, c, ps[1..]));
      AppendFirst(list, ps);
      hide AddPlan, AppendPVC, UniqueKeys, Keys;
      AddPlansList(list + [ps[0]], g, c, ps[1..]);
      assert list + [ps[0]] + ps[1..] == list + ps;
    }
  }

  lemma AppendFirst(list: seq<PVC>, ps: seq<PVC>)
    requires ps != [] && UniqueKeys(ps) && Keys(list) !! Keys(ps)
    ensures AppendPVC(list, ps[0]) == list + [ps[0]]
    ensures UniqueKeys(ps[1..]) && Keys(list + [ps[0]]) !! Keys(ps[1..])
  {
    UniqueTail(ps);
    KeysCons(ps);
    AppendKeys(list, ps[0]);
  }

  lemma KeptIsNotRemoved(list: seq<PVC>, matching: seq<PVC>)
    ensures DropKeys(list, Keys(Removals(list, matching))) == KeepKeys(list, Keys(matching))
  {
    DropKeysKeys(list, Keys(matching));
    DropDepends(list, Keys(list) - Keys(matching), Keys(list) - Keys(matching));
  }

  /** The whole plan refines set difference: the list ends as the kept claims in their old
      order followed by the new ones, and its keys are exactly the matching keys. */
  lemma PlanSynchronises(g: Key, c: Key, list: seq<PVC>, matching: seq<PVC>)
    requires UniqueKeys(list) && UniqueKeys(matching)
    ensures ListAfter(list, g, Plan(g, c, list, matching)) == Synchronised(list, matching)
    ensures UniqueKeys(Synchronised(list, matching))
    ensures Keys(Synchronised(list, matching)) == Keys(matching)
  {
    var rs, ads := Removals(list, matching), Additions(list, matching);
    var kept := KeepKeys(list, Keys(matching));
    RemovePlansList(list, g, c, rs);
    KeptIsNotRemoved(list, matching);
    DropKeysKeys(list, Keys(list) - Keys(matching));
    DropKeysUnique(list, Keys(list) - Keys(matching));
    DropKeysKeys(matching, Keys(list));
    DropKeysUnique(matching, Keys(list));
    AddPlansList(kept, g, c, ads);
    ListAfterConcat(list, g, RemovePlans(g, c, rs), AddPlans(g, c, ads));
    KeysConcat(kept, ads);
    UniqueConcat(kept, ads);
  }

  lemma UniqueConcat(a: seq<PVC>, b: seq<PVC>)
    requires UniqueKeys(a) && UniqueKeys(b) && Keys(a) !! Keys(b)
    ensures UniqueKeys(a + b)
  {
    var s := a + b;
    forall i, j | 0 <= i < j < |s| ensures KeyOf(s[i]) != KeyOf(s[j]) {
      if i < |a| <= j {
        assert KeyOf(a[i]) in Keys(a) && KeyOf(b[j - |a|]) in Keys(b);
      }
    }
  }

  /** Every dropped and every new claim is handled exactly once: the claims removed are the
      listed ones that no longer match, those added the matching ones that are not listed,
      neither with a repetition. */
  lemma PlanTouchesOnce(list: seq<PVC>, matching: seq<PVC>)
    requires UniqueKeys(list) && UniqueKeys(matching)
    ensures UniqueKeys(Removals(list, matching)) && UniqueKeys(Additions(list, matching))
    ensures Keys(Removals(list, matching)) == Keys(list) - Keys(matching)
    ensures Keys(Additions(list, matching)) == Keys(matching) - Keys(list)
  {
    DropKeysKeys(list, Keys(matching));
    DropKeysUnique(list, Keys(matching));
    DropKeysKeys(matching, Keys(list));
    DropKeysUnique(matching, Keys(list));
  }

  /** A second run with the same matching claims has nothing to write. */
  lemma SecondPlanIsEmpty(g: Key, c: Key, list: seq<PVC>, matching: seq<PVC>)
    requires UniqueKeys(list) && UniqueKeys(matching)
    ensures Plan(g, c, Synchronised(list, matching), matching) == []
  {
    PlanSynchronises(g, c, list, matching);
    var s := Synchronised(list, matching);
    DropKeysKeys(s, Keys(matching));
    DropKeysKeys(matching, Keys(s));
    assert Keys(Removals(s, matching)) == {} && Keys(Additions(s, matching)) == {};
    NoKeysNoClaims(Removals(s, matching));
    NoKeysNoClaims(Additions(s, matching));
  }

  lemma NoKeysNoClaims(s: seq<PVC>)
    ensures s == [] <==> Keys(s) == {}
  {
    if s != [] {
      assert KeyOf(s[0]) in Keys(s);
    }
  }
}
