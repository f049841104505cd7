/** The three records of one membership: the claim list of the group, the volume list of its
    content, and the members the backend was told. */
module Agreement {
  import opened Kube
  import opened Cluster
  import opened MembershipPlan

  function VolumeNames(s: seq<PVC>): set<string> {
    set p | p in s && p.volumeName != "" :: p.volumeName
  }

  function ToSet(s: seq<string>): set<string> {
    set x | x in s
  }

  ghost predicate NoDuplicates(s: seq<string>) {
    forall i, j :: 0 <= i < j < |s| ==> s[i] != s[j]
  }

  /** The volume handles sent to the driver for a claim list; None when a volume is missing. */
  function VolumeIds(w: World, s: seq<PVC>): Option<seq<string>> {
    if s == [] then Some([])
    else if s[0].volumeName == "" then VolumeIds(w, s[1..])
    else if s[0].volumeName !in w.pvs then None
    else
      match VolumeIds(w, s[1..])
      case None => None
      case Some(rest) => Some([w.pvs[s[0].volumeName]] + rest)
  }

  /** Claims and volumes are bound one to one, and a listed copy of a claim names the volume
      its current version names. */
  ghost predicate BoundOneToOne(list: seq<PVC>, matching: seq<PVC>) {
    forall p, q :: p in list && q in list + matching ==>
      (KeyOf(p) == KeyOf(q) ==> p.volumeName == q.volumeName) &&
      (p.volumeName == q.volumeName != "" ==> KeyOf(p) == KeyOf(q))
  }

  /** The three records of the group `g` with content `c` correspond. */
  ghost predicate Agree(w: World, g: Key, c: Key) {
    && g in w.vgs && c in w.vgcs && w.vgcs[c].handle in w.members
    && NoDuplicates(w.vgcs[c].pvList)
    && ToSet(w.vgcs[c].pvList) == VolumeNames(w.vgs[g].pvcList)
    && (forall v :: v in VolumeNames(w.vgs[g].pvcList) ==> v in w.pvs)
    && ToSet(w.members[w.vgcs[c].handle]) ==
       set v | v in VolumeNames(w.vgs[g].pvcList) && v in w.pvs :: w.pvs[v]
  }

  /** The driver accepted `ids` as the members of the group behind the content `c`. */
  function Push(w: World, c: Key, ids: seq<string>): World
    requires c in w.vgcs
  {
    w.(members := w.members[w.vgcs[c].handle := ids])
  }

  // ---- volume lists ----

  function PVStep(list: seq<string>, c: Key, x: Write): seq<string> {
    if x.DropPV? && x.c == c then RemoveName(list, x.pv)
    else if x.AppendPV? && x.c == c then AppendName(list, x.pv)
    else list
  }

  function PVAfter(list: seq<string>, c: Key, plan: seq<Write>): seq<string>
    decreases |plan|
  {
    if plan == [] then list else PVAfter(PVStep(list, c, plan[0]), c, plan[1..])
  }

  lemma {:induction false} PVAfterConcat(list: seq<string>, c: Key, a: seq<Write>, b: seq<Write>)
    ensures PVAfter(list, c, a + b) == PVAfter(PVAfter(list, c, a), c, b)
    decreases |a|
  {
    if a == [] {
      assert a + b == b;
    } else {
      assert (a + b)[1..] == a[1..] + b;
      PVAfterConcat(PVStep(list, c, a[0]), c, a[1..], b);
    }
  }

  lemma ApplyPV(w: World, x: Write, c: Key)
    requires c in w.vgcs
    ensures c in Apply(w, x).vgcs && Apply(w, x).vgcs[c].handle == w.vgcs[c].handle
    ensures Apply(w, x).vgcs[c].pvList == PVStep(w.vgcs[c].pvList, c, x)
    ensures Apply(w, x).pvs == w.pvs && Apply(w, x).members == w.members
  {
  }

  lemma {:induction false} ApplyAllPV(w: World, plan: seq<Write>, c: Key)
    requires c in w.vgcs
    ensures c in ApplyAll(w, plan).vgcs && ApplyAll(w, plan).vgcs[c].handle == w.vgcs[c].handle
    ensures ApplyAll(w, plan).vgcs[c].pvList == PVAfter(w.vgcs[c].pvList, c, plan)
    ensures ApplyAll(w, plan).pvs == w.pvs && ApplyAll(w, plan).members == w.members
    decreases |plan|
  {
    if plan != [] {
      ApplyPV(w, plan[0], c);
      ApplyAllPV(Apply(w, plan[0]), plan[1..], c);
    }
  }

  lemma {:induction false} PVAfterQuiet(list: seq<string>, c: Key, plan: seq<Write>)
    requires forall x :: x in plan ==> !x.DropPV? && !x.AppendPV?
    ensures PVAfter(list, c, plan) == list
    decreases |plan|
  {
    if plan != [] {
      assert plan[0] in plan;
      PVAfterQuiet(list, c, plan[1..]);
    }
  }

  lemma RemovePlanPV(list: seq<string>, g: Key, c: Key, p: PVC)
    ensures PVAfter(list, c, RemovePlan(g, c, p)) ==
            if p.volumeName == "" then list else RemoveName(list, p.volumeName)
  {
    var tail := [DropFinalizer(KeyOf(p)), ClearError(g)];
    var plan := RemovePlan(g, c, p);
    if p.volumeName == "" {
      PVAfterQuiet(list, c, plan);
    } else {
      assert plan[1..][0] == DropPV(c, p.volumeName) && plan[1..][1..] == tail;
      PVAfterQuiet(RemoveName(list, p.volumeName), c, tail);
    }
  }

  lemma AddPlanPV(list: seq<string>, g: Key, c: Key, p: PVC)
    ensures PVAfter(list, c, AddPlan(g, c, p)) ==
            if p.volumeName == "" then list else AppendName(list, p.volumeName)
  {
    var tail := [AddFinalizer(p), ClearError(g)];
    var plan := AddPlan(g, c, p);
    if p.volumeName == "" {
      PVAfterQuiet(list, c, plan);
    } else {
      assert plan[1..][0] == AppendPV(c, p.volumeName) && plan[1..][1..] == tail;
      PVAfterQuiet(AppendName(list, p.volumeName), c, tail);
    }
  }

  lemma {:induction false} RemoveNameSet(s: seq<string>, x: string)
    requires NoDuplicates(s)
    ensures NoDuplicates(RemoveName(s, x))
    ensures forall y :: y in RemoveName(s, x) <==> y in s && y != x
  {
    if s != [] {
      RemoveNameSet(s[1..], x);
      assert s == [s[0]] + s[1..];
      assert s[0] !in s[1..];
      if s[0] != x {
        assert RemoveName(s, x) == [s[0]] + RemoveName(s[1..], x);
      }
    }
  }

  lemma VolumeNamesCons(ps: seq<PVC>)
    requires ps != []
    ensures VolumeNames(ps) ==
            (if ps[0].volumeName == "" then {} else {ps[0].volumeName}) + VolumeNames(ps[1..])
  {
  }

  lemma {:induction false} RemovePlansPV(list: seq<string>, g: Key, c: Key, ps: seq<PVC>)
    requires NoDuplicates(list)
    ensures NoDuplicates(PVAfter(list, c, RemovePlans(g, c, ps)))
    ensures ToSet(PVAfter(list, c, RemovePlans(g, c, ps))) == ToSet(list) - VolumeNames(ps)
    decreases |ps|
  {
    if ps != [] {
      RemovePlanPV(list, g, c, ps[0]);
      PVAfterConcat(list, c, RemovePlan(g, c, ps[0]), RemovePlans(g, c, ps[1..]));
      RemoveNameSet(list, ps[0].volumeName);
      VolumeNamesCons(ps);
      var next := if ps[0].volumeName == "" then list else RemoveName(list, ps[0].volumeName);
      RemovePlansPV(next, g, c, ps[1..]);
    }
  }

  lemma {:induction false} AddPlansPV(list: seq<string>, g: Key, c: Key, ps: seq<PVC>)
    requires NoDuplicates(list)
    ensures NoDuplicates(PVAfter(list, c, AddPlans(g, c, ps)))
    ensures ToSet(PVAfter(list, c, AddPlans(g, c, ps))) == ToSet(list) + VolumeNames(ps)
    decreases |ps|
  {
    if ps != [] {
      AddPlanPV(list, g, c, ps[0]);
      PVAfterConcat(list, c, AddPlan(g, c, ps[0]), AddPlans(g, c, ps[1..]));
      VolumeNamesCons(ps);
      var next := if ps[0].volumeName == "" then list else AppendName(list, ps[0].volumeName);
      AddPlansPV(next, g, c, ps[1..]);
    }
  }

  lemma {:induction false} VolumeIdsMeaning(w: World, s: seq<PVC>)
    ensures VolumeIds(w, s).Some? <==> forall v :: v in VolumeNames(s) ==> v in w.pvs
    ensures VolumeIds(w, s).Some? ==>
      ToSet(VolumeIds(w, s).value) == set v | v in VolumeNames(s) && v in w.pvs :: w.pvs[v]
  {
    if s != [] {
      VolumeIdsMeaning(w, s[1..]);
      VolumeNamesCons(s);
      var v := s[0].volumeName;
      if v != "" && v !in w.pvs {
        assert v in VolumeNames(s);
      } else if v != "" && VolumeIds(w, s[1..]).Some? {
        var rest := VolumeIds(w, s[1..]).value;
        assert ToSet([w.pvs[v]] + rest) == {w.pvs[v]} + ToSet(rest);
      }
    }
  }

  /** The volumes of the kept claims and of the new ones are the volumes of the matching ones. */
  lemma VolumesReconcile(list: seq<PVC>, matching: seq<PVC>)
    requires BoundOneToOne(list, matching)
    ensures VolumeNames(list) - VolumeNames(Removals(list, matching)) + VolumeNames(Additions(list, matching))
            == VolumeNames(matching)
  {
    var rs, ads := Removals(list, matching), Additions(list, matching);
    DropKeysMembers(list, Keys(matching));
    DropKeysMembers(matching, Keys(list));
    forall v | v in VolumeNames(list) - VolumeNames(rs) ensures v in VolumeNames(matching) {
      var p :| p in list && p.volumeName == v;
      assert p !in rs;
      var q :| q in matching && KeyOf(q) == KeyOf(p);
      assert q in list + matching;
    }
    forall v | v in VolumeNames(matching) && v !in VolumeNames(ads) ensures v in VolumeNames(list) - VolumeNames(rs) {
      var q :| q in matching && q.volumeName == v;
      assert q !in ads;
      var p :| p in list && KeyOf(p) == KeyOf(q);
      assert q in list + matching;
      forall r | r in rs ensures r.volumeName != v {
        assert r in list && p in list + matching;
        assert KeyOf(q) in Keys(matching);
      }
    }
  }

  /** The claim list after a full run names the volumes the matching claims name. */
  lemma SynchronisedVolumes(list: seq<PVC>, matching: seq<PVC>)
    requires BoundOneToOne(list, matching)
    ensures VolumeNames(Synchronised(list, matching)) == VolumeNames(matching)
  {
    var kept, ads := KeepKeys(list, Keys(matching)), Additions(list, matching);
    DropKeysMembers(list, Keys(list) - Keys(matching));
    DropKeysMembers(matching, Keys(list));
    forall v | v in VolumeNames(kept + ads) ensures v in VolumeNames(matching) {
      var p: PVC :| p in kept + ads && p.volumeName == v;
      if p in kept {
        assert KeyOf(p) in Keys(list);
        var q :| q in matching && KeyOf(q) == KeyOf(p);
        assert q in list + matching;
      }
    }
    forall v | v in VolumeNames(matching) ensures v in VolumeNames(kept + ads) {
      var q :| q in matching && q.volumeName == v;
      if q !in ads {
        var p :| p in list && KeyOf(p) == KeyOf(q);
        assert q in list + matching && KeyOf(q) in Keys(matching);
        assert p in kept + ads;
      } else {
        assert q in kept + ads;
      }
    }
  }

  /** Three-way agreement: a run that pushes the matching claims and completes its plan leaves
      claim list, volume list and backend members in correspondence, all of them for exactly
      the matching claims, whatever the old and the new lists were. */
  lemma RunRestoresAgreement(w: World, g: Key, c: Key, matching: seq<PVC>)
    requires Agree(w, g, c)
    requires UniqueKeys(w.vgs[g].pvcList) && UniqueKeys(matching)
    requires BoundOneToOne(w.vgs[g].pvcList, matching)
    requires VolumeIds(w, matching).Some?
    ensures var list := w.vgs[g].pvcList;
            var w' := ApplyAll(Push(w, c, VolumeIds(w, matching).value), Plan(g, c, list, matching));
            Agree(w', g, c) && Keys(w'.vgs[g].pvcList) == Keys(matching)
  {
    var list := w.vgs[g].pvcList;
    var ids := VolumeIds(w, matching).value;
    var v := Push(w, c, ids);
    var plan := Plan(g, c, list, matching);
    var rs, ads := Removals(list, matching), Additions(list, matching);
    PlanSynchronises(g, c, list, matching);
    ApplyAllList(v, plan, g);
    ApplyAllPV(v, plan, c);
    RemovePlansPV(w.vgcs[c].pvList, g, c, rs);
    AddPlansPV(PVAfter(w.vgcs[c].pvList, c, RemovePlans(g, c, rs)), g, c, ads);
    PVAfterConcat(w.vgcs[c].pvList, c, RemovePlans(g, c, rs), AddPlans(g, c, ads));
    VolumesReconcile(list, matching);
    SynchronisedVolumes(list, matching);
    VolumeIdsMeaning(w, matching);
  }
}
