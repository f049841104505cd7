/** updatePVCs and what it calls, as methods over the in-memory group and the API server: what
    they write is a prefix of the plan, and all of it when they succeed. */
module MembershipUpdate {
  import opened Kube
  import opened Cluster
  import opened MembershipPlan
  import opened PlanEffect
  import opened GroupController
  import opened Synchroniser
  import Scans

  /** The claim list in memory is the stored one. */
  ghost predicate InSync(group: Group, w: World)
    reads group, group.claims
    requires group.Valid()
  {
    group.key in w.vgs ==> w.vgs[group.key].pvcList == group.PVCList()
  }

  /** Every write found the object it updates. */
  predicate Writable(w: World, plan: seq<Write>)
    decreases |plan|
  {
    plan == [] || (CanWrite(w, plan[0]) && Writable(Apply(w, plan[0]), plan[1..]))
  }

  lemma {:induction false} WritableConcat(w: World, a: seq<Write>, b: seq<Write>)
    ensures Writable(w, a + b) <==> Writable(w, a) && Writable(ApplyAll(w, a), b)
    decreases |a|
  {
    if a == [] {
      assert a + b == b;
    } else {
      assert (a + b)[1..] == a[1..] + b && (a + b)[0] == a[0];
      hide Apply, CanWrite;
      WritableConcat(Apply(w, a[0]), a[1..], b);
    }
  }

  /** Some prefix of the plan was written. */
  ghost predicate WrotePrefix(before: World, w: World, plan: seq<Write>, done: nat) {
    done <= |plan| && w == ApplyAll(before, plan[..done]) && Writable(before, plan[..done])
  }

  /** The whole plan was written. */
  ghost predicate WroteAll(before: World, w: World, plan: seq<Write>) {
    w == ApplyAll(before, plan) && Writable(before, plan)
  }

  lemma WroteNothing(w: World, plan: seq<Write>)
    ensures WrotePrefix(w, w, plan, 0)
  {
  }

  lemma WroteOneMore(before: World, w: World, plan: seq<Write>, done: nat, v: World)
    requires WrotePrefix(before, w, plan, done) && done < |plan| && CanWrite(w, plan[done]) && v == Apply(w, plan[done])
    ensures WrotePrefix(before, v, plan, done + 1)
  {
    assert plan[..done + 1] == plan[..done] + [plan[done]];
    ApplyAllOne(before, plan[..done], plan[done]);
    WritableConcat(before, plan[..done], [plan[done]]);
    assert [plan[done]][1..] == [];
    assert Writable(w, [plan[done]]);
  }

  lemma StoredIsDrop(w: World, g: Key, k: Key)
    requires g in w.vgs
    ensures Stored(w, g, RemoveKey(w.vgs[g].pvcList, k)) == Apply(w, DropPVC(g, k))
  {
  }

  lemma StoredIsAppend(w: World, g: Key, p: PVC)
    requires g in w.vgs
    ensures Stored(w, g, AppendPVC(w.vgs[g].pvcList, p)) == Apply(w, AppendClaim(g, p))
  {
  }

  lemma ReportedIsClear(w: World, g: Key)
    requires g in w.vgs
    ensures Reported(w, g, w.vgs[g].pvcList, "") == Apply(w, ClearError(g))
  {
  }

  /** A release that nobody disturbs. */
  lemma ReleasedIsDrop(w: World, k: Key)
    requires k in w.pvcs
    ensures Apply(w, DropFinalizer(k)) == if Removable(w, k) then w.(pvcs := Strip(w.pvcs, k)) else w
  {
    hide Removable, Strip;
  }

  /** The writes behind the first of a removal or an addition leave the claim lists alone. */
  lemma ListsStay(w: World, x: Write, g: Key)
    requires !x.DropPVC? && !x.AppendClaim?
    ensures g in Apply(w, x).vgs <==> g in w.vgs
    ensures g in w.vgs ==> Apply(w, x).vgs[g].pvcList == w.vgs[g].pvcList
  {
  }

  /** All that handling the claim needs is there. */
  predicate Present(w: World, g: Key, c: Key, p: PVC) {
    g in w.vgs && c in w.vgcs && (p.volumeName != "" ==> p.volumeName in w.pvs) && KeyOf(p) in w.pvcs
  }

  /** HandleSuccessMessage clears the error, which is the last write of a plan for one claim, and
      then records an event. */
  method HandleSuccess(client: Client, group: Group, ghost before: World, ghost plan: seq<Write>, ghost written: nat)
    returns (ok: bool, ghost done: nat)
    requires group.Valid() && InSync(group, client.w)
    requires WrotePrefix(before, client.w, plan, written) && written + 1 == |plan|
        && plan[written] == ClearError(group.key)
    modifies client
    ensures InSync(group, client.w) && WrotePrefix(before, client.w, plan, done) && written <= done
    ensures ok ==> done == |plan|
    ensures old(client.faults) == [] ==> client.faults == [] && (ok <==> group.key in old(client.w).vgs)
  {
    done := written;
    ghost var w := client.w;
    ok := client.UpdateError(group.key, group.claims[..group.count], "");
    if !ok { return; }
    ReportedIsClear(w, group.key);
    WroteOneMore(before, w, plan, done, client.w);
    ListsStay(w, plan[done], group.key);
    done := done + 1;
    ok := client.Request();
  }

  /** GetPVFromPVC, GetVGC and RemovePVFromVGC: the second write of a removal, for a bound claim. */
  method RemoveMatchingPV(client: Client, group: Group, p: PVC, ghost before: World) returns (ok: bool, ghost done: nat)
    requires group.Valid() && InSync(group, client.w)
    requires WrotePrefix(before, client.w, RemovePlan(group.key, group.content, p), 1)
    modifies client
    ensures InSync(group, client.w) && WrotePrefix(before, client.w, RemovePlan(group.key, group.content, p), done)
        && done >= 1
    ensures ok ==> done + 2 == |RemovePlan(group.key, group.content, p)|
    ensures client.w.vgs.Keys == old(client.w).vgs.Keys && client.w.pvcs == old(client.w).pvcs
    ensures old(client.faults) == [] ==>
      client.faults == []
      && (ok <==> group.content in old(client.w).vgcs && (p.volumeName != "" ==> p.volumeName in old(client.w).pvs))
  {
    hide WrotePrefix;
    ghost var plan := RemovePlan(group.key, group.content, p);
    done := 1;
    ok := client.FindVolumeAndContent(p.volumeName, group.content);
    if !ok { return; }
    if p.volumeName != "" {
      ghost var w := client.w;
      ok := client.RemovePVFromVGC(group.content, p.volumeName);
      if !ok { return; }
      WroteOneMore(before, w, plan, done, client.w);
      ListsStay(w, plan[done], group.key);
      done := done + 1;
    }
  }

  /** RemoveVolumeFromPvcListAndPvList. */
  method RemoveVolume(client: Client, group: Group, p: PVC) returns (ok: bool, ghost done: nat)
    requires group.Valid() && InSync(group, client.w)
    modifies group, group.claims, client
    ensures group.Valid() && (group.claims == old(group.claims) || fresh(group.claims))
    ensures WrotePrefix(old(client.w), client.w, RemovePlan(group.key, group.content, p), done)
    ensures ok ==> done == |RemovePlan(group.key, group.content, p)|
    ensures old(client.faults) == [] ==>
      client.faults == [] && (Present(old(client.w), group.key, group.content, p) ==> ok)
    ensures done > 0 ==> InSync(group, client.w) && group.PVCList() == RemoveKey(old(group.PVCList()), KeyOf(p))
    ensures done == 0 ==> group.PVCList() == AppendPVC(RemoveKey(old(group.PVCList()), KeyOf(p)), p)
    ensures ok ==>
      && OnlyGroup(old(client.w), client.w, group.key) && group.key in client.w.vgs
      && client.w.vgs[group.key].error == ""
      && (KeyOf(p) !in Keys(group.PVCList()) ==> LetGo(old(client.w), client.w, group.key, KeyOf(p)))
  {
    hide Apply, WrotePrefix, RemoveKey, AppendPVC, Writable, OnlyGroup, LetGo;
    ghost var before := client.w;
    ghost var plan := RemovePlan(group.key, group.content, p);
    done := 0;
    WroteNothing(before, plan);
    ok := group.RemovePVCFromVG(client, p);
    if !ok { return; }
    StoredIsDrop(before, group.key, KeyOf(p));
    WroteOneMore(before, before, plan, 0, client.w);
    done := 1;
    ok, done := RemoveMatchingPV(client, group, p, before);
    if !ok { return; }
    ghost var w := client.w;
    ok := client.RemoveFinalizerFromPVC(KeyOf(p), client.w);
    if !ok { return; }
    ReleasedIsDrop(w, KeyOf(p));
    WroteOneMore(before, w, plan, done, client.w);
    ListsStay(w, plan[done], group.key);
    done := done + 1;
    ok, done := HandleSuccess(client, group, before, plan, done);
    if ok {
      RemovalEnds(before, client.w, group.key, group.content, p);
    }
  }

  lemma RemovalEnds(before: World, w: World, g: Key, c: Key, p: PVC)
    requires WrotePrefix(before, w, RemovePlan(g, c, p), |RemovePlan(g, c, p)|)
    ensures OnlyGroup(before, w, g) && g in w.vgs && w.vgs[g].error == "" && KeyOf(p) in w.pvcs
    ensures KeyOf(p) !in Keys(RemoveKey(before.vgs[g].pvcList, KeyOf(p))) ==> LetGo(before, w, g, KeyOf(p))
  {
    var plan := RemovePlan(g, c, p);
    assert plan[..|plan|] == plan;
    FirstWriteFindsGroup(before, plan);
    ClaimWriteFindsClaim(before, plan, |plan| - 2);
    OnlyItsGroup(before, plan, g);
    ErrorCleared(before, plan, g);
    hide WrotePrefix, ApplyAll, Apply, OnlyGroup, LetGo;
    if KeyOf(p) !in Keys(RemoveKey(before.vgs[g].pvcList, KeyOf(p))) {
      RemovalLetsGo(before, g, c, p);
    }
  }

  lemma FirstWriteFindsGroup(w: World, plan: seq<Write>)
    requires Writable(w, plan) && plan != [] && (plan[0].DropPVC? || plan[0].AppendClaim?)
    ensures plan[0].g in w.vgs
  {
  }

  /** A written release or addition of the finalizer found its claim. */
  lemma {:induction false} ClaimWriteFindsClaim(w: World, plan: seq<Write>, i: nat)
    requires Writable(w, plan) && i < |plan|
    ensures plan[i].DropFinalizer? ==> plan[i].k in w.pvcs
    decreases |plan|
  {
    if i > 0 {
      ObjectStays(w, plan[0]);
      hide Apply;
      ClaimWriteFindsClaim(Apply(w, plan[0]), plan[1..], i - 1);
    }
  }

  /** AddMatchingPVToMatchingVGC: the second write of an addition, for a bound claim. */
  method AddMatchingPV(client: Client, group: Group, p: PVC, ghost before: World) returns (ok: bool, ghost done: nat)
    requires group.Valid() && InSync(group, client.w)
    requires WrotePrefix(before, client.w, AddPlan(group.key, group.content, p), 1)
    modifies client
    ensures InSync(group, client.w) && WrotePrefix(before, client.w, AddPlan(group.key, group.content, p), done)
        && done >= 1
    ensures ok ==> done + 2 == |AddPlan(group.key, group.content, p)|
    ensures client.w.vgs.Keys == old(client.w).vgs.Keys && client.w.pvcs == old(client.w).pvcs
    ensures old(client.faults) == [] ==>
      client.faults == []
      && (ok <==> group.content in old(client.w).vgcs && (p.volumeName != "" ==> p.volumeName in old(client.w).pvs))
  {
    hide WrotePrefix;
    ghost var plan := AddPlan(group.key, group.content, p);
    done := 1;
    ok := client.FindVolumeAndContent(p.volumeName, group.content);
    if !ok { return; }
    if p.volumeName != "" {
      ghost var w := client.w;
      ok := client.AddPVToVGC(group.content, p.volumeName);
      if !ok { return; }
      WroteOneMore(before, w, plan, done, client.w);
      ListsStay(w, plan[done], group.key);
      done := done + 1;
    }
  }

  /** AddVolumeToPvcListAndPvList. */
  method AddVolume(client: Client, group: Group, p: PVC) returns (ok: bool, ghost done: nat)
    requires group.Valid() && InSync(group, client.w)
    modifies group, group.claims, client
    ensures group.Valid() && (group.claims == old(group.claims) || fresh(group.claims))
    ensures WrotePrefix(old(client.w), client.w, AddPlan(group.key, group.content, p), done)
    ensures ok ==> done == |AddPlan(group.key, group.content, p)|
    ensures old(client.faults) == [] ==>
      client.faults == [] && (Present(old(client.w), group.key, group.content, p) ==> ok)
    ensures done > 0 ==> InSync(group, client.w) && group.PVCList() == AppendPVC(old(group.PVCList()), p)
    ensures done == 0 ==> group.PVCList() == RemoveKey(AppendPVC(old(group.PVCList()), p), KeyOf(p))
    ensures ok ==>
      && OnlyGroup(old(client.w), client.w, group.key) && group.key in client.w.vgs
      && client.w.vgs[group.key].error == ""
      && (KeyOf(p) in old(client.w).pvcs && old(client.w).pvcs[KeyOf(p)].finalizers == p.finalizers ==>
            KeyOf(p) in client.w.pvcs && Held(old(client.w).pvcs[KeyOf(p)], client.w.pvcs[KeyOf(p)]))
  {
    hide Apply, WrotePrefix, RemoveKey, AppendPVC, Writable, OnlyGroup, Held;
    ghost var before := client.w;
    ghost var plan := AddPlan(group.key, group.content, p);
    done := 0;
    WroteNothing(before, plan);
    ok := group.AddPVCToVG(client, p);
    if !ok { return; }
    StoredIsAppend(before, group.key, p);
    WroteOneMore(before, before, plan, 0, client.w);
    done := 1;
    ok, done := AddMatchingPV(client, group, p, before);
    if !ok { return; }
    ghost var w := client.w;
    ok := client.AddFinalizerToPVC(p);
    if !ok { return; }
    WroteOneMore(before, w, plan, done, client.w);
    ListsStay(w, plan[done], group.key);
    done := done + 1;
    ok, done := HandleSuccess(client, group, before, plan, done);
    if ok {
      AdditionEnds(before, client.w, group.key, group.content, p);
    }
  }

  lemma AdditionEnds(before: World, w: World, g: Key, c: Key, p: PVC)
    requires WrotePrefix(before, w, AddPlan(g, c, p), |AddPlan(g, c, p)|)
    ensures OnlyGroup(before, w, g) && g in w.vgs && w.vgs[g].error == ""
    ensures KeyOf(p) in before.pvcs && before.pvcs[KeyOf(p)].finalizers == p.finalizers ==>
      KeyOf(p) in w.pvcs && Held(before.pvcs[KeyOf(p)], w.pvcs[KeyOf(p)])
  {
    var plan := AddPlan(g, c, p);
    assert plan[..|plan|] == plan;
    FirstWriteFindsGroup(before, plan);
    OnlyItsGroup(before, plan, g);
    ErrorCleared(before, plan, g);
    hide WrotePrefix, ApplyAll, Apply, OnlyGroup, Held;
    if KeyOf(p) in before.pvcs && before.pvcs[KeyOf(p)].finalizers == p.finalizers {
      AdditionHolds(before, g, c, p);
    }
  }

  // ---- the two loops, against the plan ----

  lemma {:induction false} DropKeysConcat(a: seq<PVC>, b: seq<PVC>, ks: set<Key>)
    ensures DropKeys(a + b, ks) == DropKeys(a, ks) + DropKeys(b, ks)
  {
    if a == [] {
      assert a + b == b;
    } else {
      assert (a + b)[1..] == a[1..] + b;
      DropKeysConcat(a[1..], b, ks);
    }
  }

  lemma SplitAt(s: seq<PVC>, i: nat)
    requires i < |s|
    ensures s[..i] + [s[i]] == s[..i + 1] && s[..i + 1] + s[i + 1..] == s
  {
  }

  lemma DropOne(p: PVC, ks: set<Key>)
    ensures DropKeys([p], ks) == if KeyOf(p) in ks then [] else [p]
  {
  }

  /** What the first `i` turns of the removing loop write. */
  function RemovedSoFar(g: Key, c: Key, list: seq<PVC>, matching: seq<PVC>, i: nat): seq<Write>
    requires i <= |list|
  {
    RemovePlans(g, c, Removals(list[..i], matching))
  }

  lemma RemovalTurn(g: Key, c: Key, list: seq<PVC>, matching: seq<PVC>, i: nat)
    requires i < |list|
    ensures RemovedSoFar(g, c, list, matching, i + 1) ==
            RemovedSoFar(g, c, list, matching, i)
            + (if KeyOf(list[i]) in Keys(matching) then [] else RemovePlan(g, c, list[i]))
    ensures RemovedSoFar(g, c, list, matching, i + 1) <= Plan(g, c, list, matching)
  {
    var ks := Keys(matching);
    SplitAt(list, i);
    DropKeysConcat(list[..i], [list[i]], ks);
    DropKeysConcat(list[..i + 1], list[i + 1..], ks);
    DropOne(list[i], ks);
    var one := DropKeys([list[i]], ks);
    RemovePlansConcat(g, c, DropKeys(list[..i], ks), one);
    RemovePlansConcat(g, c, DropKeys(list[..i + 1], ks), DropKeys(list[i + 1..], ks));
    if one != [] {
      assert one[1..] == [] && RemovePlan(g, c, list[i]) + [] == RemovePlan(g, c, list[i]);
    }
  }

  /** What the removing loop and the first `i` turns of the adding loop write. */
  function AddedSoFar(g: Key, c: Key, list: seq<PVC>, matching: seq<PVC>, i: nat): seq<Write>
    requires i <= |matching|
  {
    RemovePlans(g, c, Removals(list, matching)) + AddPlans(g, c, Additions(list, matching[..i]))
  }

  lemma AddPlansTurn(g: Key, c: Key, list: seq<PVC>, matching: seq<PVC>, i: nat)
    requires i < |matching|
    ensures AddPlans(g, c, Additions(list, matching[..i + 1])) ==
            AddPlans(g, c, Additions(list, matching[..i]))
            + (if KeyOf(matching[i]) in Keys(list) then [] else AddPlan(g, c, matching[i]))
    ensures AddPlans(g, c, Additions(list, matching[..i + 1])) <= AddPlans(g, c, Additions(list, matching))
  {
    var ks := Keys(list);
    SplitAt(matching, i);
    DropKeysConcat(matching[..i], [matching[i]], ks);
    DropKeysConcat(matching[..i + 1], matching[i + 1..], ks);
    DropOne(matching[i], ks);
    var one := DropKeys([matching[i]], ks);
    AddPlansConcat(g, c, DropKeys(matching[..i], ks), one);
    AddPlansConcat(g, c, DropKeys(matching[..i + 1], ks), DropKeys(matching[i + 1..], ks));
    if one != [] {
      assert one[1..] == [] && AddPlan(g, c, matching[i]) + [] == AddPlan(g, c, matching[i]);
    }
  }

  lemma AdditionTurn(g: Key, c: Key, list: seq<PVC>, matching: seq<PVC>, i: nat)
    requires i < |matching|
    ensures AddedSoFar(g, c, list, matching, i + 1) ==
            AddedSoFar(g, c, list, matching, i)
            + (if KeyOf(matching[i]) in Keys(list) then [] else AddPlan(g, c, matching[i]))
    ensures AddedSoFar(g, c, list, matching, i + 1) <= Plan(g, c, list, matching)
  {
    AddPlansTurn(g, c, list, matching, i);
    hide AddPlan, AddPlans, RemovePlans, Additions, Removals;
  }

  lemma SoFarEnds(g: Key, c: Key, list: seq<PVC>, matching: seq<PVC>)
    ensures RemovedSoFar(g, c, list, matching, 0) == []
    ensures RemovedSoFar(g, c, list, matching, |list|) == AddedSoFar(g, c, list, matching, 0)
    ensures AddedSoFar(g, c, list, matching, |matching|) == Plan(g, c, list, matching)
  {
    assert list[..0] == [] && list[..|list|] == list && matching[..0] == [] && matching[..|matching|] == matching;
  }

  /** A prefix of the next part after all of the parts before is a prefix of the plan. */
  lemma PrefixAfter(before: World, v: World, w: World, sofar: seq<Write>, next: seq<Write>, plan: seq<Write>, done: nat)
    requires v == ApplyAll(before, sofar) && Writable(before, sofar) && WrotePrefix(v, w, next, done)
        && sofar + next <= plan
    ensures WrotePrefix(before, w, plan, |sofar| + done)
    ensures plan[..|sofar| + done] == sofar + next[..done]
    ensures done == |next| ==> w == ApplyAll(before, sofar + next) && Writable(before, sofar + next)
  {
    assert plan[..|sofar| + done] == sofar + next[..done];
    ApplyAllConcat(before, sofar, next[..done]);
    WritableConcat(before, sofar, next[..done]);
    assert done == |next| ==> next[..done] == next;
  }

  // ---- the list when a write fails ----

  lemma RemovalPrefixList(list: seq<PVC>, g: Key, c: Key, p: PVC, done: nat)
    requires 0 < done <= |RemovePlan(g, c, p)|
    ensures ListAfter(list, g, RemovePlan(g, c, p)[..done]) == RemoveKey(list, KeyOf(p))
  {
    var plan := RemovePlan(g, c, p)[..done];
    ListAfterQuiet(RemoveKey(list, KeyOf(p)), g, plan[1..]);
  }

  lemma AdditionPrefixList(list: seq<PVC>, g: Key, c: Key, p: PVC, done: nat)
    requires 0 < done <= |AddPlan(g, c, p)|
    ensures ListAfter(list, g, AddPlan(g, c, p)[..done]) == AppendPVC(list, p)
  {
    var plan := AddPlan(g, c, p)[..done];
    ListAfterQuiet(AppendPVC(list, p), g, plan[1..]);
  }

  /** Before its turn a claim to be removed is still listed, once. */
  lemma StillListed(list: seq<PVC>, matching: seq<PVC>, g: Key, c: Key, i: nat)
    requires UniqueKeys(list) && i < |list|
    ensures var l := ListAfter(list, g, RemovedSoFar(g, c, list, matching, i)); UniqueKeys(l) && list[i] in l
  {
    var earlier := Removals(list[..i], matching);
    RemovePlansList(list, g, c, earlier);
    DropKeysUnique(list, Keys(earlier));
    DropKeysMembers(list, Keys(earlier));
    DropKeysMembers(list[..i], Keys(matching));
  }

  /** Before its turn a claim to be added is not listed. */
  lemma NotYetListed(list: seq<PVC>, matching: seq<PVC>, g: Key, c: Key, i: nat)
    requires UniqueKeys(list) && UniqueKeys(matching) && i < |matching| && KeyOf(matching[i]) !in Keys(list)
    ensures var l := ListAfter(list, g, AddedSoFar(g, c, list, matching, i));
      UniqueKeys(l) && KeyOf(matching[i]) !in Keys(l)
  {
    var rs, ads := Removals(list, matching), Additions(list, matching[..i]);
    var kept := DropKeys(list, Keys(rs));
    RemovePlansList(list, g, c, rs);
    DropKeysUnique(list, Keys(rs));
    DropKeysKeys(list, Keys(rs));
    DropKeysUnique(matching[..i], Keys(list));
    DropKeysKeys(matching[..i], Keys(list));
    AddPlansList(kept, g, c, ads);
    ListAfterConcat(list, g, RemovePlans(g, c, rs), AddPlans(g, c, ads));
    KeysConcat(kept, ads);
    UniqueConcat(kept, ads);
  }

  // ---- UpdatePvcAndPvList ----

  /** The writes so far, in the store and in memory. */
  ghost predicate At(before: World, list: seq<PVC>, g: Key, sofar: seq<Write>, w: World, now: seq<PVC>) {
    w == ApplyAll(before, sofar) && Writable(before, sofar) && now == ListAfter(list, g, sofar)
  }

  /** The run stopped after a prefix of the plan; the list in memory has the claims it had after
      that prefix, in some order. */
  ghost predicate StoppedAt(before: World, list: seq<PVC>, g: Key, plan: seq<Write>, done: nat, w: World,
                            now: seq<PVC>) {
    WrotePrefix(before, w, plan, done) && multiset(now) == multiset(ListAfter(list, g, plan[..done]))
  }

  lemma {:induction false} ObjectsStay(before: World, plan: seq<Write>)
    ensures var w := ApplyAll(before, plan);
      w.vgs.Keys == before.vgs.Keys && w.vgcs.Keys == before.vgcs.Keys && w.pvs == before.pvs
          && w.pvcs.Keys == before.pvcs.Keys
    decreases |plan|
  {
    if plan != [] {
      ObjectStays(before, plan[0]);
      hide Apply;
      ObjectsStay(Apply(before, plan[0]), plan[1..]);
    }
  }

  lemma ObjectStays(w: World, x: Write)
    ensures var v := Apply(w, x);
      v.vgs.Keys == w.vgs.Keys && v.vgcs.Keys == w.vgcs.Keys && v.pvs == w.pvs && v.pvcs.Keys == w.pvcs.Keys
  {
    hide Listed;
  }

  /** What was there at the start is there at each turn. */
  lemma PresentStays(before: World, list: seq<PVC>, g: Key, c: Key, sofar: seq<Write>, w: World, now: seq<PVC>, p: PVC)
    requires At(before, list, g, sofar, w, now)
    ensures Present(w, g, c, p) <==> Present(before, g, c, p)
  {
    ObjectsStay(before, sofar);
  }

  ghost predicate AllPresent(w: World, g: Key, c: Key, ps: seq<PVC>) {
    forall p :: p in ps ==> Present(w, g, c, p)
  }

  lemma RemovalDone(before: World, list: seq<PVC>, g: Key, c: Key, matching: seq<PVC>, i: nat,
                    v: World, w: World, now: seq<PVC>, now': seq<PVC>)
    requires i < |list| && KeyOf(list[i]) !in Keys(matching)
    requires At(before, list, g, RemovedSoFar(g, c, list, matching, i), v, now)
    requires WrotePrefix(v, w, RemovePlan(g, c, list[i]), |RemovePlan(g, c, list[i])|)
    requires now' == RemoveKey(now, KeyOf(list[i]))
    ensures At(before, list, g, RemovedSoFar(g, c, list, matching, i + 1), w, now')
  {
    var sofar, next := RemovedSoFar(g, c, list, matching, i), RemovePlan(g, c, list[i]);
    RemovalTurn(g, c, list, matching, i);
    PrefixAfter(before, v, w, sofar, next, Plan(g, c, list, matching), |next|);
    RemovePlanList(now, g, c, list[i]);
    ListAfterConcat(list, g, sofar, next);
  }

  lemma RemovalStopped(before: World, list: seq<PVC>, g: Key, c: Key, matching: seq<PVC>, i: nat,
                       v: World, w: World, done: nat, now: seq<PVC>, now': seq<PVC>)
    requires UniqueKeys(list) && i < |list| && KeyOf(list[i]) !in Keys(matching)
    requires At(before, list, g, RemovedSoFar(g, c, list, matching, i), v, now)
    requires WrotePrefix(v, w, RemovePlan(g, c, list[i]), done)
    requires now' == if done > 0 then RemoveKey(now, KeyOf(list[i]))
        else AppendPVC(RemoveKey(now, KeyOf(list[i])), list[i])
    ensures StoppedAt(before, list, g, Plan(g, c, list, matching), |RemovedSoFar(g, c, list, matching, i)| + done, w,
        now')
  {
    var sofar, next := RemovedSoFar(g, c, list, matching, i), RemovePlan(g, c, list[i]);
    RemovalTurn(g, c, list, matching, i);
    PrefixAfter(before, v, w, sofar, next, Plan(g, c, list, matching), done);
    ListAfterConcat(list, g, sofar, next[..done]);
    if done > 0 {
      RemovalPrefixList(now, g, c, list[i], done);
    } else {
      StillListed(list, matching, g, c, i);
      FailedRemovalPermutes(now, list[i]);
      assert next[..0] == [];
    }
  }

  lemma AdditionDone(before: World, list: seq<PVC>, g: Key, c: Key, matching: seq<PVC>, i: nat,
                     v: World, w: World, now: seq<PVC>, now': seq<PVC>)
    requires i < |matching| && KeyOf(matching[i]) !in Keys(list)
    requires At(before, list, g, AddedSoFar(g, c, list, matching, i), v, now)
    requires WrotePrefix(v, w, AddPlan(g, c, matching[i]), |AddPlan(g, c, matching[i])|)
    requires now' == AppendPVC(now, matching[i])
    ensures At(before, list, g, AddedSoFar(g, c, list, matching, i + 1), w, now')
  {
    var sofar, next := AddedSoFar(g, c, list, matching, i), AddPlan(g, c, matching[i]);
    AdditionTurn(g, c, list, matching, i);
    PrefixAfter(before, v, w, sofar, next, Plan(g, c, list, matching), |next|);
    AddPlanList(now, g, c, matching[i]);
    ListAfterConcat(list, g, sofar, next);
  }

  lemma AdditionStopped(before: World, list: seq<PVC>, g: Key, c: Key, matching: seq<PVC>, i: nat,
                        v: World, w: World, done: nat, now: seq<PVC>, now': seq<PVC>)
    requires UniqueKeys(list) && UniqueKeys(matching) && i < |matching| && KeyOf(matching[i]) !in Keys(list)
    requires At(before, list, g, AddedSoFar(g, c, list, matching, i), v, now)
    requires WrotePrefix(v, w, AddPlan(g, c, matching[i]), done)
    requires now' == if done > 0 then AppendPVC(now, matching[i])
        else RemoveKey(AppendPVC(now, matching[i]), KeyOf(matching[i]))
    ensures StoppedAt(before, list, g, Plan(g, c, list, matching), |AddedSoFar(g, c, list, matching, i)| + done, w,
        now')
  {
    hide AddedSoFar, AddPlan, Plan, AppendPVC, RemoveKey, UniqueKeys;
    var sofar, next := AddedSoFar(g, c, list, matching, i), AddPlan(g, c, matching[i]);
    AdditionTurn(g, c, list, matching, i);
    PrefixAfter(before, v, w, sofar, next, Plan(g, c, list, matching), done);
    ListAfterConcat(list, g, sofar, next[..done]);
    if done > 0 {
      AdditionPrefixList(now, g, c, matching[i], done);
    } else {
      NotYetListed(list, matching, g, c, i);
      FailedAdditionRestores(now, matching[i]);
      assert next[..0] == [];
    }
  }

  /** The store after an error was reported, or could not be; with the error goes the list. */
  ghost predicate PerhapsReported(v: World, w: World, g: Key, list: seq<PVC>) {
    w == v || (g in v.vgs && w == Reported(v, g, list, ERROR))
  }

  /** The stored group, if there is one, shows an error. */
  ghost predicate ShowsError(w: World, g: Key) {
    g in w.vgs ==> w.vgs[g].error != ""
  }

  /** HandleErrorMessage. */
  method ReportError(client: Client, group: Group)
    requires group.Valid()
    modifies client
    ensures PerhapsReported(old(client.w), client.w, group.key, group.PVCList())
    ensures old(client.faults) == [] ==> client.faults == [] && ShowsError(client.w, group.key)
  {
    var ok := client.UpdateError(group.key, group.claims[..group.count], ERROR);
    if ok {
      ok := client.Request();
    }
  }

  /** The first loop: every claim of the copy that no longer matches goes. */
  method RemoveUnmatched(client: Client, group: Group, snapshot: array<PVC>, matching: seq<PVC>)
    returns (ok: bool, ghost done: nat)
    requires group.Valid() && InSync(group, client.w) && snapshot != group.claims
    requires snapshot[..] == group.PVCList() && UniqueKeys(group.PVCList())
    modifies group, group.claims, client
    ensures group.Valid() && (group.claims == old(group.claims) || fresh(group.claims))
    ensures ok ==>
      && InSync(group, client.w)
      && At(old(client.w), snapshot[..], group.key,
          RemovedSoFar(group.key, group.content, snapshot[..], matching, snapshot.Length),
            client.w, group.PVCList())
    ensures !ok ==>
      StoppedAt(old(client.w), snapshot[..], group.key, Plan(group.key, group.content, snapshot[..], matching), done,
                client.w, group.PVCList())
    ensures old(client.faults) == [] ==>
      client.faults == [] && (AllPresent(old(client.w), group.key, group.content, snapshot[..]) ==> ok)
  {
    hide At, Present, StoppedAt, WrotePrefix, Plan, RemovedSoFar, UniqueKeys, RemovePlan, AppendPVC, RemoveKey;
    ghost var before, list, g, c := client.w, snapshot[..], group.key, group.content;
    StartAt(before, list, g, c, matching);
    for i := 0 to snapshot.Length
      invariant group.Valid() && (group.claims == old(group.claims) || fresh(group.claims)) && group.claims != snapshot
      invariant snapshot[..] == list && InSync(group, client.w)
      invariant At(before, list, g, RemovedSoFar(g, c, list, matching, i), client.w, group.PVCList())
      invariant old(client.faults) == [] ==> client.faults == []
    {
      assert snapshot[i] == list[i];
      ghost var v, now := client.w, group.PVCList();
      RemovalTurn(g, c, list, matching, i);
      PlansNotEmpty(g, c, list[i]);
      PresentStays(before, list, g, c, RemovedSoFar(g, c, list, matching, i), v, now, list[i]);
      var stays := Scans.IsPVCInPVCList(KeyOf(snapshot[i]), matching);
      if stays {
        assert RemovedSoFar(g, c, list, matching, i + 1) == RemovedSoFar(g, c, list, matching, i);
      } else {
        ok, done := RemoveVolume(client, group, snapshot[i]);
        if !ok {
          RemovalStopped(before, list, g, c, matching, i, v, client.w, done, now, group.PVCList());
          done := |RemovedSoFar(g, c, list, matching, i)| + done;
          return;
        }
        RemovalDone(before, list, g, c, matching, i, v, client.w, now, group.PVCList());
      }
    }
    ok, done := true, 0;
  }

  /** The second loop: every matching claim that was not listed at the start is added. */
  method AddUnlisted(client: Client, group: Group, snapshot: array<PVC>, matching: seq<PVC>, ghost before: World)
    returns (ok: bool, ghost done: nat)
    requires group.Valid() && InSync(group, client.w) && snapshot != group.claims
    requires UniqueKeys(snapshot[..]) && UniqueKeys(matching)
    requires At(before, snapshot[..], group.key, AddedSoFar(group.key, group.content, snapshot[..], matching, 0),
        client.w, group.PVCList())
    modifies group, group.claims, client
    ensures group.Valid() && (group.claims == old(group.claims) || fresh(group.claims))
    ensures ok ==>
      && InSync(group, client.w)
      && At(before, snapshot[..], group.key, AddedSoFar(group.key, group.content, snapshot[..], matching, |matching|),
            client.w, group.PVCList())
    ensures !ok ==>
      StoppedAt(before, snapshot[..], group.key, Plan(group.key, group.content, snapshot[..], matching), done,
                client.w, group.PVCList())
    ensures old(client.faults) == [] ==>
      client.faults == [] && (AllPresent(before, group.key, group.content, matching) ==> ok)
  {
    hide At, Present, StoppedAt, WrotePrefix, Plan, AddedSoFar, UniqueKeys, AddPlan, AppendPVC, RemoveKey;
    ghost var list, g, c := snapshot[..], group.key, group.content;
    for i := 0 to |matching|
      invariant group.Valid() && (group.claims == old(group.claims) || fresh(group.claims)) && group.claims != snapshot
      invariant snapshot[..] == list && InSync(group, client.w)
      invariant At(before, list, g, AddedSoFar(g, c, list, matching, i), client.w, group.PVCList())
      invariant old(client.faults) == [] ==> client.faults == []
    {
      ghost var v, now := client.w, group.PVCList();
      AdditionTurn(g, c, list, matching, i);
      PlansNotEmpty(g, c, matching[i]);
      PresentStays(before, list, g, c, AddedSoFar(g, c, list, matching, i), v, now, matching[i]);
      var listed := Scans.IsPVCInPVCList(KeyOf(matching[i]), snapshot[..]);
      if listed {
        assert AddedSoFar(g, c, list, matching, i + 1) == AddedSoFar(g, c, list, matching, i);
      } else {
        ok, done := AddVolume(client, group, matching[i]);
        if !ok {
          AdditionStopped(before, list, g, c, matching, i, v, client.w, done, now, group.PVCList());
          done := |AddedSoFar(g, c, list, matching, i)| + done;
          return;
        }
        AdditionDone(before, list, g, c, matching, i, v, client.w, now, group.PVCList());
      }
    }
    ok, done := true, 0;
  }

  /** What a failed run may leave in the store: a prefix of the plan, and perhaps the error, with
      the list that is in memory. */
  ghost predicate StoredAfterFailure(before: World, list: seq<PVC>, g: Key, plan: seq<Write>, done: nat, w: World,
                                     now: seq<PVC>) {
    exists v :: StoppedAt(before, list, g, plan, done, v, now) && PerhapsReported(v, w, g, now)
  }

  /** UpdatePvcAndPvList: both loops go by a copy of the list that their bodies edit in place. A
      success has written the whole plan, a failure a prefix of it. */
  method UpdatePvcAndPvList(client: Client, group: Group, matching: seq<PVC>) returns (ok: bool, ghost done: nat)
    requires group.Valid() && InSync(group, client.w)
    requires UniqueKeys(group.PVCList()) && UniqueKeys(matching)
    modifies group, group.claims, client
    ensures group.Valid() && (group.claims == old(group.claims) || fresh(group.claims))
    ensures ok ==>
      && WroteAll(old(client.w), client.w, Plan(group.key, group.content, old(group.PVCList()), matching))
      && group.PVCList() == Synchronised(old(group.PVCList()), matching) && InSync(group, client.w)
      && OnlyGroup(old(client.w), client.w, group.key)
    ensures ok && group.key in old(client.w).vgs ==>
      && group.key in client.w.vgs
      && client.w.vgs[group.key].error
         == (if Keys(old(group.PVCList())) == Keys(matching) then old(client.w).vgs[group.key].error else "")
      && (Current(old(client.w), matching) ==>
            forall k :: k in old(client.w).pvcs ==>
              ClaimSettled(old(client.w), client.w, group.key, old(group.PVCList()), matching, k))
    ensures !ok ==>
      StoredAfterFailure(old(client.w), old(group.PVCList()), group.key,
                         Plan(group.key, group.content, old(group.PVCList()), matching), done, client.w,
                         group.PVCList())
    ensures
      && old(client.faults) == []
      && AllPresent(old(client.w), group.key, group.content, old(group.PVCList()) + matching)
      ==> ok
    ensures old(client.faults) == [] && !ok ==> ShowsError(client.w, group.key)
  {
    hide At, Present, StoppedAt, Plan, RemovedSoFar, AddedSoFar, UniqueKeys, ApplyAll, Synchronised, WroteAll;
    hide OnlyGroup, ClaimSettled, Current;
    ghost var before, list, g, c := client.w, group.PVCList(), group.key, group.content;
    var n, claims := group.count, group.claims;
    var snapshot := new PVC[n](i requires 0 <= i < n && n <= claims.Length reads claims => claims[i]);
    assert snapshot[..] == list;
    assert AllPresent(before, g, c, list + matching) ==>
      AllPresent(before, g, c, list) && AllPresent(before, g, c, matching);
    ok, done := RemoveUnmatched(client, group, snapshot, matching);
    if ok {
      SoFarEnds(g, c, list, matching);
      ok, done := AddUnlisted(client, group, snapshot, matching, before);
    }
    if ok {
      EndAt(before, list, g, c, matching, client.w, group.PVCList());
      PlanSettles(before, client.w, list, g, c, matching);
    } else {
      ReportError(client, group);
    }
  }

  /** What the whole plan leaves, said of the stored objects. */
  lemma PlanSettles(before: World, w: World, list: seq<PVC>, g: Key, c: Key, matching: seq<PVC>)
    requires WroteAll(before, w, Plan(g, c, list, matching)) && UniqueKeys(list) && UniqueKeys(matching)
    requires g in before.vgs ==> before.vgs[g].pvcList == list
    ensures OnlyGroup(before, w, g)
    ensures g in before.vgs ==>
      && g in w.vgs && w.vgs[g].error == (if Keys(list) == Keys(matching) then before.vgs[g].error else "")
      && (Current(before, matching) ==>
            forall k :: k in before.pvcs ==> ClaimSettled(before, w, g, list, matching, k))
  {
    RemovalsLeave(g, c, Removals(list, matching));
    AdditionsLeave(g, c, Additions(list, matching));
    assert WritesTo(Plan(g, c, list, matching), g);
    OnlyItsGroup(before, Plan(g, c, list, matching), g);
    hide Plan, ApplyAll, Writable, UniqueKeys, ClaimSettled, Current, OnlyGroup, WritesTo;
    if g in before.vgs {
      PlanSettlesGroup(before, g, c, matching);
      GroupStays(before, w, g);
      if Current(before, matching) {
        forall k | k in before.pvcs ensures ClaimSettled(before, w, g, list, matching, k) {
          PlanSettlesClaims(before, g, c, matching, k);
        }
      }
    }
  }

  lemma GroupStays(before: World, w: World, g: Key)
    requires OnlyGroup(before, w, g) && g in before.vgs
    ensures g in w.vgs
  {
  }

  lemma PlansNotEmpty(g: Key, c: Key, p: PVC)
    ensures |RemovePlan(g, c, p)| > 0 && |AddPlan(g, c, p)| > 0
  {
  }

  lemma StartAt(before: World, list: seq<PVC>, g: Key, c: Key, matching: seq<PVC>)
    ensures At(before, list, g, RemovedSoFar(g, c, list, matching, 0), before, list)
  {
  }

  lemma EndAt(before: World, list: seq<PVC>, g: Key, c: Key, matching: seq<PVC>, w: World, now: seq<PVC>)
    requires UniqueKeys(list) && UniqueKeys(matching)
    requires At(before, list, g, AddedSoFar(g, c, list, matching, |matching|), w, now)
    ensures WroteAll(before, w, Plan(g, c, list, matching)) && now == Synchronised(list, matching)
  {
    SoFarEnds(g, c, list, matching);
    PlanSynchronises(g, c, list, matching);
  }
}
