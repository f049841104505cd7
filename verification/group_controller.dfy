/** The VolumeGroup controller as a step system: one worker with a work queue, users who edit
    claims and groups between any two of its steps, failures and restarts, and the claim
    deletions of the VolumeGroupContent controller. */
module GroupController {
  import opened Kube
  import opened Cluster
  import opened MembershipPlan
  import Agreement
  import ListEquality

  /** Where the worker is in updatePVCs. `selector` is that of the group as it was read; the
      claims in `todo` and `matching` are copies taken when the claims were listed. */
  datatype Worker =
    | Idle
    | Started(g: Key, selector: Selector)
    | Scanning(g: Key, selector: Selector, scan: seq<PVC>, matching: seq<PVC>)
    | Writing(g: Key, todo: seq<Write>)

  /** Where the other controller is in deletePVC: at rest, about to remove the finalizer it found
      to be removable, or about to delete the claim. */
  datatype Releaser = Resting | Releasing(k: Key) | Deleting(k: Key)

  datatype State = State(world: World, queue: set<Key>, worker: Worker, releaser: Releaser)

  /** `Fail` is an error whose report is lost; `FailReporting` stores an error with the claim list
      in memory, which has the stored claims but after a failed removal not their order. */
  datatype Step =
    // users and the binder
    | CreateClaim(p: PVC)
    | Relabel(k: Key, labels: Labels)
    | ChangePhase(k: Key, phase: Phase, volumeName: string)
    | OtherFinalizers(k: Key, finalizers: seq<string>)
    | DeleteClaim(k: Key)
    | CreateGroup(g: Key, className: string, selector: Selector, content: string)
    | Select(g: Key, selector: Selector)
    | DeleteGroup(g: Key)
    | VanishGroup(g: Key)
    // the worker
    | Skip(g: Key)
    | RemoveGroup(g: Key)
    | Start(g: Key)
    | List(items: seq<PVC>)
    | Scan
    | SettleEqual
    | Push
    | SecretMissing
    | WriteNext
    | Finish
    | Fail
    | FailReporting(list: seq<PVC>)
    | Restart
    // the other controller
    | ReleaseCheck(k: Key)
    | ReleaseWrite
    | DeleteRequest
    | ReleaseStop

  // ---- which claims a group is meant to hold ----

  predicate Provisioned(w: World, p: PVC) {
    && p.phase == Bound
    && p.storageClass.Some? && p.storageClass.value in w.storageClasses
    && w.storageClasses[p.storageClass.value].provisioner == w.config.driver
  }

  /** IsPVCNeedToBeHandled: bound, provisioned by the driver, and not in a static group. */
  predicate Eligible(w: World, p: PVC) {
    Provisioned(w, p) && !w.storageClasses[p.storageClass.value].hasVGParameter
  }

  /** The claim is bound, of a storage class that names the driver and puts it in no static group,
      and the selector matches it. */
  ghost predicate MeantFor(w: World, selector: Selector, p: PVC) {
    && p.phase == Bound
    && p.storageClass.Some? && p.storageClass.value in w.storageClasses
    && w.storageClasses[p.storageClass.value].provisioner == w.config.driver
    && !w.storageClasses[p.storageClass.value].hasVGParameter
    && selector(p.labels)
  }

  /** The group `g` is meant to hold the claim `k`. */
  ghost predicate Meant(w: World, g: Key, k: Key)
    requires g in w.vgs
  {
    k in w.pvcs && MeantFor(w, w.vgs[g].selector, w.pvcs[k])
  }

  /** The claims the stored selector of `g` matches and the operator handles. */
  ghost function MatchingKeys(w: World, g: Key): set<Key>
    requires g in w.vgs
  {
    set k | k in w.pvcs && Eligible(w, w.pvcs[k]) && w.vgs[g].selector(w.pvcs[k].labels)
  }

  /** `items` is what GetPVCList returns, in some order. It fails when a bound claim has no
      known storage class. */
  ghost predicate IsListing(w: World, items: seq<PVC>) {
    && UniqueKeys(items)
    && (forall p :: p in items ==> KeyOf(p) in w.pvcs && w.pvcs[KeyOf(p)] == p && Provisioned(w, p))
    && (forall k :: k in w.pvcs && Provisioned(w, w.pvcs[k]) ==> w.pvcs[k] in items)
    && (forall k :: k in w.pvcs && w.pvcs[k].phase == Bound ==>
          w.pvcs[k].storageClass.Some? && w.pvcs[k].storageClass.value in w.storageClasses)
  }

  // ---- the exclusivity check ----

  /** The groups of the driver that list the claim. */
  ghost function GroupsWith(w: World, p: PVC): set<Key> {
    set g | g in w.vgs && Ours(w, g) && KeyOf(p) in Keys(w.vgs[g].pvcList)
  }

  /** The groups of the driver that match the claim and do not list it. */
  ghost function NewGroupsFor(w: World, p: PVC): set<Key> {
    set g | g in w.vgs && Ours(w, g) && KeyOf(p) !in Keys(w.vgs[g].pvcList) && w.vgs[g].selector(p.labels)
  }

  /** isPVCCanBeAddedToVG on the stored groups. */
  ghost predicate CanBeAdded(w: World, p: PVC) {
    w.config.multipleVGsToPVC != "true" ==>
      !(GroupsWith(w, p) != {} && NewGroupsFor(w, p) != {}) && |NewGroupsFor(w, p)| <= 1
  }

  /** The group is of the driver and matches the claim. */
  ghost predicate Wants(w: World, g: Key, p: PVC) {
    Ours(w, g) && w.vgs[g].selector(p.labels)
  }

  ghost predicate Has(w: World, g: Key, p: PVC) {
    Ours(w, g) && exists q :: q in w.vgs[g].pvcList && q.namespace == p.namespace && q.name == p.name
  }

  /** Two different groups of the driver want or have the claim, one of them without having it. */
  ghost predicate Contested(w: World, p: PVC) {
    exists g, h :: g != h && Wants(w, g, p) && !Has(w, g, p) && (Has(w, h, p) || Wants(w, h, p))
  }

  lemma AtMostOne(s: set<Key>)
    ensures |s| <= 1 <==> forall g, h :: g in s && h in s ==> g == h
  {
    if s != {} {
      var g :| g in s;
      assert s == {g} + (s - {g});
      if |s| > 1 {
        assert s - {g} != {};
      }
    }
  }

  /** The check refuses a claim exactly when claims must not be shared and this one is contested. */
  lemma RefusedExactlyWhenContested(w: World, p: PVC)
    ensures !CanBeAdded(w, p) <==> w.config.multipleVGsToPVC != "true" && Contested(w, p)
  {
    assert forall g :: g in GroupsWith(w, p) <==> Has(w, g, p);
    assert forall g :: g in NewGroupsFor(w, p) <==> Wants(w, g, p) && !Has(w, g, p);
    AtMostOne(NewGroupsFor(w, p));
    hide GroupsWith, NewGroupsFor, Wants, Has;
    if GroupsWith(w, p) != {} && NewGroupsFor(w, p) != {} {
      var g, h :| g in NewGroupsFor(w, p) && h in GroupsWith(w, p);
      assert Wants(w, g, p) && !Has(w, g, p) && Has(w, h, p);
    }
  }

  // ---- events ----

  /** CreateRequests: the groups, of any driver, whose selector matches the labels. */
  ghost function Affected(w: World, labels: Labels): set<Key> {
    set g | g in w.vgs && w.vgs[g].selector(labels)
  }

  // ---- steps ----

  function AsSlice(s: seq<PVC>): ListEquality.Slice {
    ListEquality.Slice(s == [], s)
  }

  /** The key of the content a group names. */
  function ContentKey(w: World, g: Key): Key
    requires g in w.vgs
  {
    Key(g.namespace, w.vgs[g].content)
  }

  /** The claim vanishes on deletion unless a finalizer holds it. */
  function AfterDelete(pvcs: map<Key, PVC>, k: Key): map<Key, PVC> {
    if k in pvcs && pvcs[k].finalizers == [] then pvcs - {k} else pvcs
  }

  ghost predicate Vanishes(pvcs: map<Key, PVC>, k: Key) {
    k in pvcs && pvcs[k].finalizers == []
  }

  /** Whether the write can succeed: the object it updates exists. */
  predicate CanWrite(w: World, x: Write) {
    match x
    case DropPVC(g, k) => g in w.vgs
    case AppendClaim(g, p) => g in w.vgs
    case ClearError(g) => g in w.vgs
    case DropPV(c, pv) => c in w.vgcs && pv in w.pvs
    case AppendPV(c, pv) => c in w.vgcs && pv in w.pvs
    case DropFinalizer(k) => k in w.pvcs
    case AddFinalizer(p) => PVC_FINALIZER in p.finalizers || KeyOf(p) in w.pvcs
  }

  /** The scan is over and the matching claims differ from the recorded ones. */
  ghost predicate MustModify(s: State) {
    && s.worker.Scanning? && s.worker.scan == [] && s.worker.g in s.world.vgs
    && !ListEquality.IsPVCListEqual(AsSlice(s.worker.matching), AsSlice(s.world.vgs[s.worker.g].pvcList))
  }

  ghost predicate Enabled(s: State, e: Step) {
    var w := s.world;
    match e
    case CreateClaim(p) => KeyOf(p) !in w.pvcs
    case Relabel(k, labels) => k in w.pvcs
    case ChangePhase(k, phase, volumeName) => k in w.pvcs
    case OtherFinalizers(k, finalizers) =>
      k in w.pvcs && (PVC_FINALIZER in finalizers <==> PVC_FINALIZER in w.pvcs[k].finalizers)
    case DeleteClaim(k) => k in w.pvcs
    case CreateGroup(g, className, selector, content) => g !in w.vgs
    case Select(g, selector) => g in w.vgs
    case DeleteGroup(g) => g in w.vgs
    case VanishGroup(g) => g in w.vgs && (s.worker.Idle? || s.worker.g != g)
    case Skip(g) => s.worker.Idle? && g in s.queue && (!Ours(w, g) || w.vgs[g].deleting)
    case RemoveGroup(g) => s.worker.Idle? && g in s.queue && Ours(w, g) && w.vgs[g].deleting
    case Start(g) => s.worker.Idle? && g in s.queue && Ours(w, g) && !w.vgs[g].deleting
    case List(items) => s.worker.Started? && IsListing(w, items)
    case Scan =>
      s.worker.Scanning? && s.worker.scan != []
      && (s.worker.selector(s.worker.scan[0].labels) ==> CanBeAdded(w, s.worker.scan[0]))
    case SettleEqual => s.worker.Scanning? && s.worker.scan == [] && !MustModify(s)
    case Push =>
      && MustModify(s) && ContentKey(w, s.worker.g) in w.vgcs
      && Agreement.VolumeIds(w, s.worker.matching).Some?
    case SecretMissing => MustModify(s)
    case WriteNext => s.worker.Writing? && s.worker.todo != [] && CanWrite(w, s.worker.todo[0])
    case Finish => s.worker.Writing? && s.worker.todo == []
    case Fail => !s.worker.Idle?
    case FailReporting(list) =>
      !s.worker.Idle? && s.worker.g in w.vgs && multiset(list) == multiset(w.vgs[s.worker.g].pvcList)
    case Restart => true
    case ReleaseCheck(k) => s.releaser.Resting? && k in w.pvcs
    case ReleaseWrite => s.releaser.Releasing? && s.releaser.k in w.pvcs
    case DeleteRequest => s.releaser.Deleting?
    case ReleaseStop => true
  }

  ghost function Requeue(s: State): State
    requires !s.worker.Idle?
  {
    s.(queue := s.queue + {s.worker.g}, worker := Idle)
  }

  function PutClaim(w: World, k: Key, p: PVC): World {
    w.(pvcs := w.pvcs[k := p])
  }

  function PutGroup(w: World, g: Key, vg: VG): World {
    w.(vgs := w.vgs[g := vg])
  }

  ghost function Next(s: State, e: Step): State
    requires Enabled(s, e)
  {
    var w := s.world;
    match e
    case CreateClaim(p) =>
      s.(world := PutClaim(w, KeyOf(p), p), queue := s.queue + Affected(w, p.labels))
    case Relabel(k, labels) =>
      var p := w.pvcs[k];
      s.(world := PutClaim(w, k, p.(labels := labels, resourceVersion := p.resourceVersion + 1)),
         queue := if labels == p.labels then s.queue else s.queue + Affected(w, p.labels) + Affected(w, labels))
    case ChangePhase(k, phase, volumeName) =>
      var p := w.pvcs[k];
      s.(world := PutClaim(w, k,
                           p.(phase := phase, volumeName := volumeName, resourceVersion := p.resourceVersion + 1)),
         queue := if phase == p.phase then s.queue else s.queue + Affected(w, p.labels))
    case OtherFinalizers(k, finalizers) =>
      s.(world := PutClaim(w, k, WithFinalizers(w.pvcs[k], finalizers)))
    case DeleteClaim(k) =>
      s.(world := w.(pvcs := AfterDelete(w.pvcs, k)))
    case CreateGroup(g, className, selector, content) =>
      s.(world := PutGroup(w, g, VG(className, selector, content, [], false, "")), queue := s.queue + {g})
    case Select(g, selector) =>
      s.(world := PutGroup(w, g, w.vgs[g].(selector := selector)), queue := s.queue + {g})
    case DeleteGroup(g) =>
      s.(world := PutGroup(w, g, w.vgs[g].(deleting := true)), queue := s.queue + {g})
    case VanishGroup(g) => s.(world := w.(vgs := w.vgs - {g}))
    case Skip(g) => s.(queue := s.queue - {g})
    case RemoveGroup(g) => s.(world := w.(vgs := w.vgs - {g}), queue := s.queue - {g})
    case Start(g) => s.(queue := s.queue - {g}, worker := Started(g, w.vgs[g].selector))
    case List(items) => s.(worker := Scanning(s.worker.g, s.worker.selector, items, []))
    case Scan => s.(worker := ScanOne(w, s.worker))
    case SettleEqual => s.(worker := Idle)
    case Push =>
      var g, m := s.worker.g, s.worker.matching;
      var c := ContentKey(w, g);
      s.(world := Agreement.Push(w, c, Agreement.VolumeIds(w, m).value),
         worker := Writing(g, Plan(g, c, w.vgs[g].pvcList, m)))
    case SecretMissing =>
      Requeue(s.(world := Reported(w, s.worker.g, s.worker.matching, ERROR)))
    case WriteNext =>
      s.(world := Apply(w, s.worker.todo[0]), worker := Writing(s.worker.g, s.worker.todo[1..]))
    case Finish => s.(worker := Idle)
    case Fail => Requeue(s)
    case FailReporting(list) => Requeue(s.(world := Reported(w, s.worker.g, list, ERROR)))
    case Restart => s.(queue := w.vgs.Keys, worker := Idle, releaser := Resting)
    case ReleaseCheck(k) => s.(releaser := if Removable(w, k) then Releasing(k) else Deleting(k))
    case ReleaseWrite => s.(world := w.(pvcs := Strip(w.pvcs, s.releaser.k)), releaser := Deleting(s.releaser.k))
    case DeleteRequest => s.(world := w.(pvcs := AfterDelete(w.pvcs, s.releaser.k)), releaser := Resting)
    case ReleaseStop => s.(releaser := Resting)
  }

  /** The turn of getMatchingPVCs for the first claim left to scan. */
  function ScanOne(w: World, worker: Worker): Worker
    requires worker.Scanning? && worker.scan != []
  {
    var p := worker.scan[0];
    var take := worker.selector(p.labels) && KeyOf(p) !in Keys(worker.matching) && Eligible(w, p);
    worker.(scan := worker.scan[1..], matching := if take then worker.matching + [p] else worker.matching)
  }

  ghost predicate Run(s: State, steps: seq<Step>)
    decreases |steps|
  {
    steps == [] || (Enabled(s, steps[0]) && Run(Next(s, steps[0]), steps[1..]))
  }

  ghost function Final(s: State, steps: seq<Step>): State
    requires Run(s, steps)
    decreases |steps|
  {
    if steps == [] then s else Final(Next(s, steps[0]), steps[1..])
  }

  /** The run `steps` leads from `s` to `t`. */
  ghost predicate Reaches(s: State, steps: seq<Step>, t: State) {
    Run(s, steps) && Final(s, steps) == t
  }

  lemma NoStepsYet(s: State)
    ensures Reaches(s, [], s)
  {
  }

  lemma {:induction false} ReachesOneMore(s: State, steps: seq<Step>, t: State, e: Step)
    requires Reaches(s, steps, t) && Enabled(t, e)
    ensures Reaches(s, steps + [e], Next(t, e))
    decreases |steps|
  {
    hide Enabled, Next;
    if steps == [] {
      assert [e][1..] == [] && Run(Next(s, e), []);
      assert Final(s, [e]) == Final(Next(s, e), []);
      assert steps + [e] == [e];
    } else {
      assert (steps + [e])[1..] == steps[1..] + [e];
      ReachesOneMore(Next(s, steps[0]), steps[1..], t, e);
    }
  }

  lemma {:induction false} ReachesMore(s: State, a: seq<Step>, t: State, b: seq<Step>, u: State)
    requires Reaches(s, a, t) && Reaches(t, b, u)
    ensures Reaches(s, a + b, u)
    decreases |a|
  {
    hide Enabled, Next;
    if a == [] {
      assert a + b == b;
    } else {
      assert (a + b)[1..] == a[1..] + b && (a + b)[0] == a[0];
      ReachesMore(Next(s, a[0]), a[1..], t, b, u);
    }
  }

  lemma ReachesOne(s: State, e: Step)
    requires Enabled(s, e)
    ensures Reaches(s, [e], Next(s, e))
  {
  }
}
