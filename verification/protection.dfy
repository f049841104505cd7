/** Every listed claim carries the protection finalizer, and the operator drops that finalizer
    only when no group of the driver lists the claim. */
module Protection {
  import opened Kube
  import opened Cluster
  import opened MembershipPlan
  import opened GroupController
  import ListEquality

  ghost predicate Protected(pvcs: map<Key, PVC>, k: Key) {
    k in pvcs && PVC_FINALIZER in pvcs[k].finalizers
  }

  /** The claim whose addition has begun and is not finished: its finalizer write comes next. */
  function NextProtect(todo: seq<Write>): Option<PVC> {
    if todo == [] then None
    else match todo[0]
      case AddFinalizer(p) => Some(p)
      case AppendPV(_, _) => NextProtect(todo[1..])
      case _ => None
  }

  ghost predicate HalfAdded(worker: Worker) {
    worker.Writing? && NextProtect(worker.todo).Some?
  }

  /** Every claim appended is protected before anything but its volume is written. */
  ghost predicate Structured(todo: seq<Write>) {
    todo != [] ==>
      Structured(todo[1..]) && (todo[0].AppendClaim? ==> NextProtect(todo[1..]) == Some(todo[0].p))
  }

  /** The copies of claims that are on their way into the list of the worker's group. */
  ghost function InFlight(worker: Worker): set<PVC> {
    match worker
    case Scanning(_, selector, scan, matching) => set p | p in scan + matching && (p in matching || selector(p.labels))
    case Writing(_, todo) => Handled(todo)
    case _ => {}
  }

  function Handled(todo: seq<Write>): set<PVC> {
    set x | x in todo && (x.AppendClaim? || x.AddFinalizer?) :: x.p
  }

  ghost function InFlightKeys(worker: Worker): set<Key> {
    set p | p in InFlight(worker) :: KeyOf(p)
  }

  /** The claims still to be released. */
  function ToRelease(todo: seq<Write>): set<Key> {
    set x | x in todo && x.DropFinalizer? :: x.k
  }

  ghost predicate UniqueLists(vgs: map<Key, VG>) {
    forall g :: g in vgs ==> UniqueKeys(vgs[g].pvcList)
  }

  /** The worker's own state is in order. */
  ghost predicate WorkerInOrder(w: World, worker: Worker) {
    && (!worker.Idle? ==> Ours(w, worker.g))
    && (worker.Scanning? ==> UniqueKeys(worker.scan) && UniqueKeys(worker.matching))
    && (worker.Writing? ==>
          && Structured(worker.todo)
          && (forall x :: x in worker.todo && (x.DropPVC? || x.AppendClaim?) ==> x.g == worker.g)
          && (forall p :: p in Handled(worker.todo) ==> KeyOf(p) !in ToRelease(worker.todo)))
  }

  /** What is on its way still exists, and has not lost its protection. */
  ghost predicate CopiesStand(pvcs: map<Key, PVC>, worker: Worker) {
    forall p :: p in InFlight(worker) ==>
      KeyOf(p) in pvcs && (PVC_FINALIZER in p.finalizers ==> Protected(pvcs, KeyOf(p)))
  }

  /** The finalizer of `k`, just listed by `g`, is the worker's next write to a claim. */
  ghost predicate IsNext(worker: Worker, g: Key, k: Key) {
    HalfAdded(worker) && worker.g == g && KeyOf(NextProtect(worker.todo).value) == k
  }

  /** A listed claim is protected, or its addition by this worker is half done. */
  ghost predicate Covered(pvcs: map<Key, PVC>, worker: Worker, g: Key, k: Key) {
    || Protected(pvcs, k)
    || IsNext(worker, g, k)
  }

  ghost predicate AllCovered(w: World, worker: Worker) {
    forall g, k :: Ours(w, g) && k in Keys(w.vgs[g].pvcList) ==> Covered(w.pvcs, worker, g, k)
  }

  /** What holds whatever happens: keys are right, lists have no key twice, and the worker's own
      state is in order. */
  ghost predicate OrderlyIn(w: World, worker: Worker) {
    WellKeyed(w.pvcs) && UniqueLists(w.vgs) && WorkerInOrder(w, worker)
  }

  ghost predicate Orderly(s: State) {
    OrderlyIn(s.world, s.worker)
  }

  ghost predicate GuardedIn(w: World, worker: Worker) {
    OrderlyIn(w, worker) && CopiesStand(w.pvcs, worker) && AllCovered(w, worker)
  }

  ghost predicate Guarded(s: State) {
    GuardedIn(s.world, s.worker)
  }

  // ---- the steps that can do harm ----

  /** The claim whose addition is cut is protected, if it is listed already. */
  ghost predicate CutHarmless(w: World, worker: Worker) {
    HalfAdded(worker) && worker.g in w.vgs ==>
      var k := KeyOf(NextProtect(worker.todo).value);
      k in Keys(w.vgs[worker.g].pvcList) ==> Protected(w.pvcs, k)
  }

  /** A claim that vanishes is not on its way into the list of the group in process. */
  ghost predicate VanishHarmless(pvcs: map<Key, PVC>, worker: Worker, k: Key) {
    Vanishes(pvcs, k) ==> k !in InFlightKeys(worker)
  }

  /** A claim that loses its finalizer is listed by no group of the driver, unless its finalizer is
      the next write anyway, and no copy on its way was taken with the finalizer. */
  ghost predicate StripHarmless(w: World, worker: Worker, k: Key) {
    Protected(w.pvcs, k) ==>
      && (forall g :: Ours(w, g) && k in Keys(w.vgs[g].pvcList) ==> IsNext(worker, g, k))
      && (forall p :: p in InFlight(worker) && KeyOf(p) == k ==> PVC_FINALIZER !in p.finalizers)
  }

  /** The step does no harm to the protection. Only five kinds of steps can. */
  ghost predicate Harmless(s: State, e: Step) {
    var w := s.world;
    match e
    case Fail => CutHarmless(w, s.worker)
    case FailReporting(_) => CutHarmless(w, s.worker)
    case Restart => CutHarmless(w, s.worker)
    case SecretMissing => s.worker.Scanning? ==> forall p :: p in s.worker.matching ==> Protected(w.pvcs, KeyOf(p))
    case DeleteClaim(k) => VanishHarmless(w.pvcs, s.worker, k)
    case DeleteRequest => s.releaser.Deleting? ==> VanishHarmless(w.pvcs, s.worker, s.releaser.k)
    case ReleaseWrite => s.releaser.Releasing? ==> StripHarmless(w, s.worker, s.releaser.k)
    case _ => true
  }

  // ---- frames ----

  /** The claims may change as long as those listed or in flight keep their protection. */
  lemma ClaimsFrame(w: World, v: World, worker: Worker)
    requires GuardedIn(w, worker)
    requires v == w.(pvcs := v.pvcs) && WellKeyed(v.pvcs)
    requires forall k :: (Listed(w, k) || k in InFlightKeys(worker)) && Protected(w.pvcs, k) ==> Protected(v.pvcs, k)
    requires forall k :: k in InFlightKeys(worker) && k in w.pvcs ==> k in v.pvcs
    ensures GuardedIn(v, worker)
  {
  }

  /** Groups may leave, and lists may become empty. */
  lemma GroupsFrame(w: World, v: World, worker: Worker)
    requires GuardedIn(w, worker)
    requires v == w.(vgs := v.vgs)
    requires forall g :: g in v.vgs ==> v.vgs[g].pvcList == [] || (g in w.vgs && v.vgs[g].pvcList == w.vgs[g].pvcList)
    requires forall g :: Ours(v, g) ==> v.vgs[g].pvcList == [] || Ours(w, g)
    requires !worker.Idle? ==> Ours(v, worker.g)
    ensures GuardedIn(v, worker)
  {
  }

  lemma IdleFrame(w: World, worker: Worker)
    requires GuardedIn(w, worker) && !HalfAdded(worker)
    ensures GuardedIn(w, Idle)
  {
  }

  // ---- one step ----

  lemma ClaimEdit(s: State, e: Step)
    requires Guarded(s) && Enabled(s, e)
    requires e.CreateClaim? || e.Relabel? || e.ChangePhase? || e.OtherFinalizers?
    ensures Guarded(Next(s, e))
  {
    var w, v := s.world, Next(s, e).world;
    assert forall k :: Protected(w.pvcs, k) ==> Protected(v.pvcs, k);
    assert WellKeyed(v.pvcs);
    hide GuardedIn, Enabled, Protected;
    ClaimsFrame(w, v, s.worker);
  }

  /** A claim vanishes without harm exactly when it is not on its way into the list in process. */
  lemma Vanishing(w: World, worker: Worker, k: Key)
    requires GuardedIn(w, worker)
    ensures GuardedIn(w.(pvcs := AfterDelete(w.pvcs, k)), worker) <==> VanishHarmless(w.pvcs, worker, k)
  {
    var v := w.(pvcs := AfterDelete(w.pvcs, k));
    if Vanishes(w.pvcs, k) && k in InFlightKeys(worker) {
      var p :| p in InFlight(worker) && KeyOf(p) == k;
      assert k !in v.pvcs;
      assert !CopiesStand(v.pvcs, worker);
    } else {
      assert forall l :: Protected(w.pvcs, l) ==> Protected(v.pvcs, l);
      assert forall l :: l in InFlightKeys(worker) && l in w.pvcs ==> l in v.pvcs;
      assert WellKeyed(v.pvcs);
      hide GuardedIn, Protected, InFlightKeys, AfterDelete;
      ClaimsFrame(w, v, worker);
    }
  }

  lemma StripFrame(pvcs: map<Key, PVC>, k: Key)
    requires k in pvcs && WellKeyed(pvcs)
    ensures var v := Strip(pvcs, k);
      && WellKeyed(v) && v.Keys == pvcs.Keys && !Protected(v, k)
      && forall l :: l != k ==> (Protected(v, l) <==> Protected(pvcs, l))
  {
    RemoveAllRemoves(pvcs[k].finalizers, PVC_FINALIZER);
  }

  lemma {:induction false} RemoveAllRemoves(s: seq<string>, x: string)
    ensures x !in RemoveAll(s, x)
    decreases |s|
  {
    if s != [] {
      RemoveAllRemoves(s[..|s| - 1], x);
    }
  }

  lemma StripKeeps(w: World, v: World, worker: Worker, k: Key)
    requires GuardedIn(w, worker) && StripHarmless(w, worker, k)
    requires v == w.(pvcs := v.pvcs) && WellKeyed(v.pvcs) && v.pvcs.Keys == w.pvcs.Keys
    requires forall l :: l != k ==> (Protected(v.pvcs, l) <==> Protected(w.pvcs, l))
    ensures GuardedIn(v, worker)
  {
    hide Protected, InFlight, IsNext;
    forall g, l | Ours(v, g) && l in Keys(v.vgs[g].pvcList) ensures Covered(v.pvcs, worker, g, l) {
      assert Ours(w, g) && Covered(w.pvcs, worker, g, l);
    }
    assert WorkerInOrder(v, worker);
  }

  lemma StripBreaks(w: World, v: World, worker: Worker, k: Key)
    requires !StripHarmless(w, worker, k) && v == w.(pvcs := v.pvcs) && !Protected(v.pvcs, k)
    ensures !GuardedIn(v, worker)
  {
    hide Protected, InFlight, IsNext, WorkerInOrder;
    if exists g :: Ours(w, g) && k in Keys(w.vgs[g].pvcList) && !IsNext(worker, g, k) {
      var g :| Ours(w, g) && k in Keys(w.vgs[g].pvcList) && !IsNext(worker, g, k);
      assert Ours(v, g) && !Covered(v.pvcs, worker, g, k);
    } else {
      var p :| p in InFlight(worker) && KeyOf(p) == k && PVC_FINALIZER in p.finalizers;
      assert !CopiesStand(v.pvcs, worker);
    }
  }

  /** The late update of a release does no harm exactly when nobody has come to need it. */
  lemma Stripping(w: World, worker: Worker, k: Key)
    requires GuardedIn(w, worker) && k in w.pvcs
    ensures GuardedIn(w.(pvcs := Strip(w.pvcs, k)), worker) <==> StripHarmless(w, worker, k)
  {
    var v := w.(pvcs := Strip(w.pvcs, k));
    StripFrame(w.pvcs, k);
    hide GuardedIn, StripHarmless, Protected, Strip;
    if StripHarmless(w, worker, k) {
      StripKeeps(w, v, worker, k);
    } else {
      StripBreaks(w, v, worker, k);
    }
  }

  lemma OtherController(s: State, e: Step)
    requires Guarded(s) && Enabled(s, e)
    requires e.DeleteClaim? || e.DeleteRequest? || e.ReleaseWrite? || e.ReleaseCheck? || e.ReleaseStop?
    ensures Guarded(Next(s, e)) <==> Harmless(s, e)
  {
    hide GuardedIn, Removable, Strip, AfterDelete, VanishHarmless, StripHarmless;
    if e.DeleteClaim? {
      Vanishing(s.world, s.worker, e.k);
    } else if e.DeleteRequest? {
      Vanishing(s.world, s.worker, s.releaser.k);
    } else if e.ReleaseWrite? {
      Stripping(s.world, s.worker, s.releaser.k);
    }
  }

  /** Release drops the finalizer of an unlisted claim at most. */
  lemma ReleaseFrame(w: World, k: Key)
    requires WellKeyed(w.pvcs)
    ensures WellKeyed(Release(w, k)) && Release(w, k).Keys == w.pvcs.Keys
    ensures forall l :: l != k && l in w.pvcs ==> Release(w, k)[l] == w.pvcs[l]
    ensures Listed(w, k) ==> Release(w, k) == w.pvcs
  {
  }

  lemma GroupEdit(s: State, e: Step)
    requires Guarded(s) && Enabled(s, e)
    requires e.CreateGroup? || e.Select? || e.DeleteGroup? || e.VanishGroup? || e.RemoveGroup?
    ensures Guarded(Next(s, e))
  {
    var w, v := s.world, Next(s, e).world;
    assert !s.worker.Idle? ==> Ours(v, s.worker.g);
    hide GuardedIn, Enabled;
    GroupsFrame(w, v, s.worker);
  }

  lemma Begin(s: State, e: Step)
    requires Guarded(s) && Enabled(s, e) && (e.Start? || e.List?)
    ensures Guarded(Next(s, e))
  {
    var w, worker := s.world, Next(s, e).worker;
    assert AllCovered(w, worker);
    hide AllCovered;
    assert CopiesStand(w.pvcs, worker);
  }

  lemma ScanStep(s: State)
    requires Guarded(s) && Enabled(s, Scan)
    ensures Guarded(Next(s, Scan))
  {
    var w, before, after := s.world, s.worker, Next(s, Scan).worker;
    var p := before.scan[0];
    assert before.scan == [p] + before.scan[1..];
    UniqueTail(before.scan);
    AppendKeys(before.matching, p);
    assert InFlight(after) <= InFlight(before);
    assert UniqueKeys(after.matching);
    hide Enabled, Keys, UniqueKeys, InFlight;
  }

  lemma End(s: State, e: Step)
    requires Guarded(s) && Enabled(s, e) && (e.SettleEqual? || e.Finish?)
    ensures Guarded(Next(s, e))
  {
    assert !HalfAdded(s.worker);
    hide GuardedIn, Enabled;
    IdleFrame(s.world, s.worker);
  }

  /** Cutting an addition does no harm exactly when the claim is protected or not listed yet. */
  lemma Cutting(w: World, worker: Worker)
    requires GuardedIn(w, worker)
    ensures GuardedIn(w, Idle) <==> CutHarmless(w, worker)
  {
    hide Protected, NextProtect, UniqueKeys, WellKeyed;
    if CutHarmless(w, worker) {
      forall g, k | Ours(w, g) && k in Keys(w.vgs[g].pvcList) ensures Covered(w.pvcs, Idle, g, k) {
        assert Covered(w.pvcs, worker, g, k);
      }
    } else {
      var k := KeyOf(NextProtect(worker.todo).value);
      assert Ours(w, worker.g) && !Covered(w.pvcs, Idle, worker.g, k);
    }
  }

  /** Reporting an error permutes a list at most. */
  lemma ReportFrame(w: World, v: World, worker: Worker, g: Key, list: seq<PVC>)
    requires g in w.vgs && v == Reported(w, g, list, ERROR) && multiset(list) == multiset(w.vgs[g].pvcList)
    ensures GuardedIn(v, Idle) <==> GuardedIn(w, Idle)
  {
    var before := w.vgs[g].pvcList;
    ListEquality.PermutationKeys(list, before);
    assert UniqueKeys(list) <==> UniqueKeys(before) by {
      if UniqueKeys(before) { ListEquality.PermutationUnique(before, list); }
      if UniqueKeys(list) { ListEquality.PermutationUnique(list, before); }
    }
    assert forall h :: Ours(v, h) == Ours(w, h);
    assert forall h :: h in w.vgs ==> Keys(v.vgs[h].pvcList) == Keys(w.vgs[h].pvcList);
    assert forall h :: h in w.vgs ==> UniqueKeys(v.vgs[h].pvcList) == UniqueKeys(w.vgs[h].pvcList);
    hide Keys, UniqueKeys, WellKeyed, Ours, Protected, HalfAdded;
  }

  lemma FailStep(s: State, e: Step)
    requires Guarded(s) && Enabled(s, e) && (e.Fail? || e.FailReporting? || e.Restart?)
    ensures Guarded(Next(s, e)) <==> Harmless(s, e)
  {
    hide GuardedIn, CutHarmless, Reported;
    Cutting(s.world, s.worker);
    if e.FailReporting? {
      ReportFrame(s.world, Next(s, e).world, s.worker, s.worker.g, e.list);
    }
  }

  /** Storing the proposed list does no harm exactly when all its claims are protected already. */
  lemma SecretStep(s: State)
    requires Guarded(s) && Enabled(s, SecretMissing)
    ensures Guarded(Next(s, SecretMissing)) <==> Harmless(s, SecretMissing)
  {
    var w, g, matching := s.world, s.worker.g, s.worker.matching;
    var v := Reported(w, g, matching, ERROR);
    assert Next(s, SecretMissing).world == v && Next(s, SecretMissing).worker == Idle;
    hide Enabled, Next;
    SecretFrame(w, v, s.worker);
  }

  lemma SecretFrame(w: World, v: World, worker: Worker)
    requires GuardedIn(w, worker) && worker.Scanning? && worker.g in w.vgs
    requires v == Reported(w, worker.g, worker.matching, ERROR)
    ensures GuardedIn(v, Idle) <==> forall p :: p in worker.matching ==> Protected(w.pvcs, KeyOf(p))
  {
    var g, matching := worker.g, worker.matching;
    assert forall h :: Ours(v, h) == Ours(w, h);
    hide Protected, UniqueKeys, WellKeyed;
    if forall p :: p in matching ==> Protected(w.pvcs, KeyOf(p)) {
      forall h, k | Ours(v, h) && k in Keys(v.vgs[h].pvcList) ensures Covered(v.pvcs, Idle, h, k) {
        if h != g {
          assert k in Keys(w.vgs[h].pvcList) && Covered(w.pvcs, worker, h, k);
        }
      }
    } else {
      var p :| p in matching && !Protected(w.pvcs, KeyOf(p));
      assert Ours(v, g) && KeyOf(p) in Keys(v.vgs[g].pvcList) && !Covered(v.pvcs, Idle, g, KeyOf(p));
    }
  }

  // ---- the plan ----

  lemma {:induction false} NextProtectConcat(a: seq<Write>, b: seq<Write>)
    requires NextProtect(a).Some?
    ensures NextProtect(a + b) == NextProtect(a)
  {
    assert (a + b)[1..] == a[1..] + b;
    if a[0].AppendPV? { NextProtectConcat(a[1..], b); }
  }

  lemma {:induction false} StructuredConcat(a: seq<Write>, b: seq<Write>)
    requires Structured(a) && Structured(b)
    ensures Structured(a + b)
  {
    if a == [] {
      assert a + b == b;
    } else {
      assert (a + b)[1..] == a[1..] + b;
      StructuredConcat(a[1..], b);
      if a[0].AppendClaim? { NextProtectConcat(a[1..], b); }
    }
  }

  lemma {:induction false} NoClaimsStructured(a: seq<Write>)
    requires forall x :: x in a ==> !x.AppendClaim?
    ensures Structured(a)
  {
    if a != [] { NoClaimsStructured(a[1..]); }
  }

  lemma AddPlanStructured(g: Key, c: Key, p: PVC)
    ensures Structured(AddPlan(g, c, p))
  {
    var a := AddPlan(g, c, p);
    var tail := [AddFinalizer(p), ClearError(g)];
    NoClaimsStructured(a[1..]);
    if p.volumeName == "" {
      assert a[1..] == tail;
    } else {
      assert a[1..] == [AppendPV(c, p.volumeName)] + tail && a[1..][1..] == tail;
    }
  }

  lemma {:induction false} RemovePlansShape(g: Key, c: Key, ps: seq<PVC>)
    ensures forall x :: x in RemovePlans(g, c, ps) ==> !x.AppendClaim? && !x.AddFinalizer?
    ensures forall x :: x in RemovePlans(g, c, ps) && x.DropPVC? ==> x.g == g
    ensures forall x :: x in RemovePlans(g, c, ps) && x.DropFinalizer? ==> x.k in Keys(ps)
  {
    if ps != [] {
      RemovePlansShape(g, c, ps[1..]);
      KeysCons(ps);
    }
  }

  lemma {:induction false} AddPlansShape(g: Key, c: Key, ps: seq<PVC>)
    ensures Structured(AddPlans(g, c, ps))
    ensures forall x :: x in AddPlans(g, c, ps) ==> !x.DropPVC? && !x.DropFinalizer?
    ensures forall x :: x in AddPlans(g, c, ps) && x.AppendClaim? ==> x.g == g && x.p in ps
    ensures forall x :: x in AddPlans(g, c, ps) && x.AddFinalizer? ==> x.p in ps
  {
    if ps != [] {
      AddPlansShape(g, c, ps[1..]);
      AddPlanStructured(g, c, ps[0]);
      StructuredConcat(AddPlan(g, c, ps[0]), AddPlans(g, c, ps[1..]));
      assert ps == [ps[0]] + ps[1..];
    }
  }

  lemma PlanShape(g: Key, c: Key, list: seq<PVC>, matching: seq<PVC>)
    ensures var plan := Plan(g, c, list, matching);
            && Structured(plan)
            && (forall x :: x in plan && (x.DropPVC? || x.AppendClaim?) ==> x.g == g)
            && (forall p :: p in Handled(plan) ==> p in matching)
            && ToRelease(plan) !! Keys(matching)
  {
    var rs, ads := Removals(list, matching), Additions(list, matching);
    RemovePlansShape(g, c, rs);
    AddPlansShape(g, c, ads);
    NoClaimsStructured(RemovePlans(g, c, rs));
    StructuredConcat(RemovePlans(g, c, rs), AddPlans(g, c, ads));
    DropKeysMembers(matching, Keys(list));
    DropKeysKeys(list, Keys(matching));
  }

  lemma PlanInOrder(w: World, before: Worker, c: Key)
    requires OrderlyIn(w, before) && before.Scanning? && before.g in w.vgs
    ensures var after := Writing(before.g, Plan(before.g, c, w.vgs[before.g].pvcList, before.matching));
      WorkerInOrder(w, after) && InFlight(after) <= InFlight(before)
  {
    PlanShape(before.g, c, w.vgs[before.g].pvcList, before.matching);
    hide Plan, Structured, UniqueKeys;
  }

  lemma PushEffect(s: State)
    requires Enabled(s, Push)
    ensures var t, g := Next(s, Push), s.worker.g;
      && s.worker.Scanning? && g in s.world.vgs && t.world == s.world.(members := t.world.members)
      && t.worker == Writing(g, Plan(g, ContentKey(s.world, g), s.world.vgs[g].pvcList, s.worker.matching))
  {
  }

  lemma PushStep(s: State)
    requires Guarded(s) && Enabled(s, Push)
    ensures Guarded(Next(s, Push))
  {
    assert OrderlyIn(s.world, s.worker);
    hide Enabled, Next, Plan, GuardedIn, OrderlyIn, WorkerInOrder;
    PushEffect(s);
    PlanInOrder(s.world, s.worker, ContentKey(s.world, s.worker.g));
    MembersFrame(s.world, Next(s, Push).world, s.worker, Next(s, Push).worker);
  }

  /** Told members do not matter here. */
  lemma MembersFrame(w: World, v: World, before: Worker, after: Worker)
    requires GuardedIn(w, before) && !HalfAdded(before)
    requires v == w.(members := v.members) && WorkerInOrder(w, after) && InFlight(after) <= InFlight(before)
    ensures GuardedIn(v, after)
  {
  }

  // ---- one write ----

  lemma WorkerTail(w: World, g: Key, todo: seq<Write>)
    requires WorkerInOrder(w, Writing(g, todo)) && todo != []
    ensures WorkerInOrder(w, Writing(g, todo[1..]))
    ensures InFlight(Writing(g, todo[1..])) <= InFlight(Writing(g, todo))
    ensures todo[0].DropFinalizer? ==> todo[0].k !in InFlightKeys(Writing(g, todo))
    ensures todo[0].AppendClaim? || todo[0].AddFinalizer? ==> todo[0].p in InFlight(Writing(g, todo))
  {
  }

  /** What a write to a claim list does to the lists. */
  lemma ListWriteEffect(w: World, x: Write)
    requires x.DropPVC? || x.AppendClaim?
    requires UniqueLists(w.vgs) && x.g in w.vgs
    ensures var v := Apply(w, x);
      && v.pvcs == w.pvcs && v.vgs.Keys == w.vgs.Keys && UniqueLists(v.vgs)
      && (forall h :: Ours(v, h) == Ours(w, h))
      && (forall h :: h in w.vgs && h != x.g ==> v.vgs[h] == w.vgs[h])
      && Keys(v.vgs[x.g].pvcList)
         <= Keys(w.vgs[x.g].pvcList)
            - (if x.DropPVC? then {x.k} else {}) + (if x.AppendClaim? then {KeyOf(x.p)} else {})
  {
    assert Apply(w, x).vgs == GroupsAfter(w.vgs, x);
    var list := w.vgs[x.g].pvcList;
    if x.DropPVC? {
      RemoveKeyKeys(list, x.k);
    } else {
      AppendKeys(list, x.p);
    }
  }

  /** A write to a claim list. */
  lemma ListWrite(w: World, g: Key, todo: seq<Write>)
    requires GuardedIn(w, Writing(g, todo)) && todo != []
    requires todo[0].DropPVC? || todo[0].AppendClaim?
    ensures GuardedIn(Apply(w, todo[0]), Writing(g, todo[1..]))
  {
    var x := todo[0];
    var v := Apply(w, x);
    var before, after := Writing(g, todo), Writing(g, todo[1..]);
    WorkerTail(w, g, todo);
    assert x.g == g;
    ListWriteEffect(w, x);
    hide Apply, Ours, UniqueLists;
    assert OrderlyIn(v, after) && CopiesStand(v.pvcs, after);
    hide OrderlyIn, CopiesStand;
    forall h, k | Ours(v, h) && k in Keys(v.vgs[h].pvcList) ensures Covered(v.pvcs, after, h, k) {
      if k in Keys(w.vgs[h].pvcList) {
        assert Covered(w.pvcs, before, h, k);
      }
    }
  }

  /** A write that touches neither claims nor claim lists. */
  lemma QuietWrite(w: World, g: Key, todo: seq<Write>)
    requires GuardedIn(w, Writing(g, todo)) && todo != []
    requires todo[0].DropPV? || todo[0].AppendPV? || todo[0].ClearError?
    ensures GuardedIn(Apply(w, todo[0]), Writing(g, todo[1..]))
  {
    var x := todo[0];
    var v := Apply(w, x);
    var before, after := Writing(g, todo), Writing(g, todo[1..]);
    WorkerTail(w, g, todo);
    assert v.pvcs == w.pvcs && v.vgs == GroupsAfter(w.vgs, x);
    assert forall h :: Ours(v, h) == Ours(w, h);
    assert forall h :: h in w.vgs ==> v.vgs[h].pvcList == w.vgs[h].pvcList;
    assert UniqueLists(v.vgs);
    forall h, k | Ours(v, h) && k in Keys(v.vgs[h].pvcList) ensures Covered(v.pvcs, after, h, k) {
      assert Covered(w.pvcs, before, h, k);
    }
  }

  lemma ReleaseWrite(w: World, g: Key, todo: seq<Write>)
    requires GuardedIn(w, Writing(g, todo)) && todo != [] && todo[0].DropFinalizer?
    ensures GuardedIn(Apply(w, todo[0]), Writing(g, todo[1..]))
  {
    var x := todo[0];
    var v := Apply(w, x);
    WorkerTail(w, g, todo);
    ReleaseFrame(w, x.k);
    assert v == w.(pvcs := Release(w, x.k));
    assert forall k :: Listed(w, k) && Protected(w.pvcs, k) ==> Protected(v.pvcs, k) by {
      hide Listed;
    }
    TailFrame(w, g, todo);
    hide GuardedIn, Release, Listed, InFlight;
    ClaimsFrame(w, v, Writing(g, todo[1..]));
  }

  /** Dropping a write that is no protection from the front of the todo list. */
  lemma TailFrame(w: World, g: Key, todo: seq<Write>)
    requires GuardedIn(w, Writing(g, todo)) && todo != []
    requires NextProtect(todo) == None
    ensures GuardedIn(w, Writing(g, todo[1..]))
  {
  }

  lemma ProtectWrite(w: World, g: Key, todo: seq<Write>)
    requires GuardedIn(w, Writing(g, todo)) && todo != [] && todo[0].AddFinalizer?
    requires CanWrite(w, todo[0])
    ensures GuardedIn(Apply(w, todo[0]), Writing(g, todo[1..]))
  {
    var p := todo[0].p;
    var v := Apply(w, todo[0]);
    var before, after := Writing(g, todo), Writing(g, todo[1..]);
    WorkerTail(w, g, todo);
    assert v == w.(pvcs := Protect(w.pvcs, p));
    assert forall k :: Protected(w.pvcs, k) ==> Protected(v.pvcs, k);
    assert forall k :: k in w.pvcs ==> k in v.pvcs;
    assert WellKeyed(v.pvcs);
    assert Protected(v.pvcs, KeyOf(p));
    hide Protect, Protected, Apply;
    ClaimsFrame(w, v, before);
    forall h, k | Ours(v, h) && k in Keys(v.vgs[h].pvcList) ensures Covered(v.pvcs, after, h, k) {
      assert Covered(v.pvcs, before, h, k);
    }
  }

  lemma WriteStep(s: State)
    requires Guarded(s) && Enabled(s, WriteNext)
    ensures Guarded(Next(s, WriteNext))
  {
    hide GuardedIn, Apply;
    var w, g, todo := s.world, s.worker.g, s.worker.todo;
    match todo[0]
    case DropPVC(_, _) => ListWrite(w, g, todo);
    case AppendClaim(_, _) => ListWrite(w, g, todo);
    case DropFinalizer(_) => ReleaseWrite(w, g, todo);
    case AddFinalizer(_) => ProtectWrite(w, g, todo);
    case DropPV(_, _) => QuietWrite(w, g, todo);
    case AppendPV(_, _) => QuietWrite(w, g, todo);
    case ClearError(_) => QuietWrite(w, g, todo);
  }

  lemma SkipStep(s: State, e: Step)
    requires Guarded(s) && Enabled(s, e) && e.Skip?
    ensures Guarded(Next(s, e))
  {
  }

  // ---- order ----

  lemma ClaimsOrderly(s: State, e: Step)
    requires Orderly(s) && Enabled(s, e)
    requires e.CreateClaim? || e.Relabel? || e.ChangePhase? || e.OtherFinalizers? || e.DeleteClaim? || e.Skip?
          || e.ReleaseCheck? || e.ReleaseWrite? || e.DeleteRequest? || e.ReleaseStop?
    ensures Orderly(Next(s, e))
  {
    hide Removable, UniqueKeys, Structured;
  }

  lemma GroupsOrderly(s: State, e: Step)
    requires Orderly(s) && Enabled(s, e)
    requires e.CreateGroup? || e.Select? || e.DeleteGroup? || e.VanishGroup? || e.RemoveGroup?
    ensures Orderly(Next(s, e))
  {
    hide Structured;
  }

  lemma WorkerOrderly(s: State, e: Step)
    requires Orderly(s) && Enabled(s, e)
    requires e.Start? || e.List? || e.SettleEqual? || e.Finish? || e.Fail? || e.Restart?
    ensures Orderly(Next(s, e))
  {
  }

  lemma SecretOrderly(s: State)
    requires Orderly(s) && Enabled(s, SecretMissing)
    ensures Orderly(Next(s, SecretMissing))
  {
    hide UniqueKeys, ListEquality.IsPVCListEqual;
  }

  lemma ScanOrderly(s: State)
    requires Orderly(s) && Enabled(s, Scan)
    ensures Orderly(Next(s, Scan))
  {
    var before := s.worker;
    UniqueTail(before.scan);
    AppendKeys(before.matching, before.scan[0]);
    hide Keys, UniqueKeys, CanBeAdded, Eligible;
  }

  lemma ReportOrderly(s: State, e: Step)
    requires Orderly(s) && Enabled(s, e) && e.FailReporting?
    ensures Orderly(Next(s, e))
  {
    ListEquality.PermutationUnique(s.world.vgs[s.worker.g].pvcList, e.list);
    hide UniqueKeys;
  }

  lemma PushOrderly(s: State)
    requires Orderly(s) && Enabled(s, Push)
    ensures Orderly(Next(s, Push))
  {
    hide Enabled, Next, Plan, Structured, UniqueKeys;
    PushEffect(s);
    PlanInOrder(s.world, s.worker, ContentKey(s.world, s.worker.g));
  }

  lemma WriteOrderly(s: State)
    requires Orderly(s) && Enabled(s, WriteNext)
    ensures Orderly(Next(s, WriteNext))
  {
    var w, g, todo := s.world, s.worker.g, s.worker.todo;
    var x := todo[0];
    WorkerTail(w, g, todo);
    ListsAfterWrite(w, x);
    ClaimsAfterWrite(w, x);
    hide Structured, UniqueKeys, Apply, InFlight, Enabled;
    assert forall h :: Ours(w, h) ==> Ours(Apply(w, x), h);
  }

  lemma ListsAfterWrite(w: World, x: Write)
    requires UniqueLists(w.vgs)
    ensures var v := Apply(w, x);
      && UniqueLists(v.vgs) && v.vgClasses == w.vgClasses && v.config == w.config && v.vgs.Keys == w.vgs.Keys
      && forall h :: h in w.vgs ==> v.vgs[h].className == w.vgs[h].className
  {
    assert Apply(w, x).vgs == GroupsAfter(w.vgs, x);
    if x.DropPVC? && x.g in w.vgs {
      RemoveKeyKeys(w.vgs[x.g].pvcList, x.k);
    } else if x.AppendClaim? && x.g in w.vgs {
      AppendKeys(w.vgs[x.g].pvcList, x.p);
    }
    hide UniqueKeys;
  }

  lemma ClaimsAfterWrite(w: World, x: Write)
    requires WellKeyed(w.pvcs)
    ensures WellKeyed(Apply(w, x).pvcs)
  {
    hide Listed;
    assert Apply(w, x).pvcs == ClaimsAfter(w, x);
  }

  /** Every step keeps order. */
  lemma OrderlyStep(s: State, e: Step)
    requires Orderly(s) && Enabled(s, e)
    ensures Orderly(Next(s, e))
  {
    hide OrderlyIn, Next, Enabled;
    match e
    case CreateClaim(_) => ClaimsOrderly(s, e);
    case Relabel(_, _) => ClaimsOrderly(s, e);
    case ChangePhase(_, _, _) => ClaimsOrderly(s, e);
    case OtherFinalizers(_, _) => ClaimsOrderly(s, e);
    case DeleteClaim(_) => ClaimsOrderly(s, e);
    case Skip(_) => ClaimsOrderly(s, e);
    case ReleaseCheck(_) => ClaimsOrderly(s, e);
    case ReleaseWrite => ClaimsOrderly(s, e);
    case DeleteRequest => ClaimsOrderly(s, e);
    case ReleaseStop => ClaimsOrderly(s, e);
    case CreateGroup(_, _, _, _) => GroupsOrderly(s, e);
    case Select(_, _) => GroupsOrderly(s, e);
    case DeleteGroup(_) => GroupsOrderly(s, e);
    case VanishGroup(_) => GroupsOrderly(s, e);
    case RemoveGroup(_) => GroupsOrderly(s, e);
    case Start(_) => WorkerOrderly(s, e);
    case List(_) => WorkerOrderly(s, e);
    case SettleEqual => WorkerOrderly(s, e);
    case Finish => WorkerOrderly(s, e);
    case Fail => WorkerOrderly(s, e);
    case Restart => WorkerOrderly(s, e);
    case SecretMissing => SecretOrderly(s);
    case Scan => ScanOrderly(s);
    case FailReporting(_) => ReportOrderly(s, e);
    case Push => PushOrderly(s);
    case WriteNext => WriteOrderly(s);
  }

  // ---- every step ----

  /** A step keeps the invariant exactly when it is harmless. */
  lemma GuardedStep(s: State, e: Step)
    requires Guarded(s) && Enabled(s, e)
    ensures Guarded(Next(s, e)) <==> Harmless(s, e)
  {
    hide GuardedIn, Next, Enabled;
    match e
    case CreateClaim(_) => ClaimEdit(s, e);
    case Relabel(_, _) => ClaimEdit(s, e);
    case ChangePhase(_, _, _) => ClaimEdit(s, e);
    case OtherFinalizers(_, _) => ClaimEdit(s, e);
    case DeleteClaim(_) => OtherController(s, e);
    case ReleaseCheck(_) => OtherController(s, e);
    case ReleaseWrite => OtherController(s, e);
    case DeleteRequest => OtherController(s, e);
    case ReleaseStop => OtherController(s, e);
    case CreateGroup(_, _, _, _) => GroupEdit(s, e);
    case Select(_, _) => GroupEdit(s, e);
    case DeleteGroup(_) => GroupEdit(s, e);
    case VanishGroup(_) => GroupEdit(s, e);
    case RemoveGroup(_) => GroupEdit(s, e);
    case Start(_) => Begin(s, e);
    case List(_) => Begin(s, e);
    case Scan => ScanStep(s);
    case SettleEqual => End(s, e);
    case Finish => End(s, e);
    case Fail => FailStep(s, e);
    case FailReporting(_) => FailStep(s, e);
    case Restart => FailStep(s, e);
    case SecretMissing => SecretStep(s);
    case Push => PushStep(s);
    case WriteNext => WriteStep(s);
    case Skip(_) => SkipStep(s, e);
  }

  // ---- runs ----

  ghost predicate GuardedThroughout(s: State, steps: seq<Step>)
    requires Run(s, steps)
    decreases |steps|
  {
    Guarded(s) && (steps != [] ==> GuardedThroughout(Next(s, steps[0]), steps[1..]))
  }

  ghost predicate HarmlessRun(s: State, steps: seq<Step>)
    requires Run(s, steps)
    decreases |steps|
  {
    steps != [] ==> Harmless(s, steps[0]) && HarmlessRun(Next(s, steps[0]), steps[1..])
  }

  /** Over every run, whatever users, failures, restarts and the other controller do: every listed
      claim keeps its protection, and every claim on its way can be protected, exactly when all
      steps are harmless. */
  lemma {:induction false} GuardedExactlyWhenHarmless(s: State, steps: seq<Step>)
    requires Guarded(s) && Run(s, steps)
    ensures GuardedThroughout(s, steps) <==> HarmlessRun(s, steps)
    decreases |steps|
  {
    if steps != [] {
      hide Guarded, Harmless, Enabled, Next;
      GuardedStep(s, steps[0]);
      if Guarded(Next(s, steps[0])) {
        GuardedExactlyWhenHarmless(Next(s, steps[0]), steps[1..]);
      } else {
        assert !GuardedThroughout(Next(s, steps[0]), steps[1..]);
      }
    }
  }

  /** Over every harmless run: whenever the worker is not in the middle of an addition, each claim
      that some group of the driver lists still exists and carries the protection finalizer. */
  lemma {:induction false} ListedClaimsAreProtected(s: State, steps: seq<Step>)
    requires Guarded(s) && Run(s, steps) && HarmlessRun(s, steps)
    ensures var t := Final(s, steps);
      Guarded(t) && (!HalfAdded(t.worker) ==> forall k :: Listed(t.world, k) ==> Protected(t.world.pvcs, k))
    decreases |steps|
  {
    if steps == [] {
      forall k | Listed(s.world, k) && !HalfAdded(s.worker) ensures Protected(s.world.pvcs, k) {
        var g :| Ours(s.world, g) && k in Keys(s.world.vgs[g].pvcList);
        assert Covered(s.world.pvcs, s.worker, g, k);
      }
    } else {
      hide Guarded, Harmless, Enabled, Next, Listed, Protected;
      GuardedStep(s, steps[0]);
      ListedClaimsAreProtected(Next(s, steps[0]), steps[1..]);
    }
  }
}
