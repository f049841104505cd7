/** With `MultipleVGsToPVC` other than "true", no claim is listed by two groups of the driver. */
module Exclusivity {
  import opened Kube
  import opened Cluster
  import opened MembershipPlan
  import opened GroupController
  import ListEquality

  /** No two groups of the driver list a common claim. */
  ghost predicate Exclusive(w: World) {
    forall g, h :: g in w.vgs && h in w.vgs && g != h && Ours(w, g) && Ours(w, h) ==>
      Keys(w.vgs[g].pvcList) !! Keys(w.vgs[h].pvcList)
  }

  /** The claims the worker is about to list. */
  ghost function Claimed(worker: Worker): set<Key> {
    match worker
    case Scanning(_, _, _, matching) => Keys(matching)
    case Writing(_, todo) => AppendedClaims(todo)
    case _ => {}
  }

  /** No group of the driver other than `g` lists one of `ks`. */
  ghost predicate FreeOutside(w: World, g: Key, ks: set<Key>) {
    forall h :: h in w.vgs && h != g && Ours(w, h) ==> Keys(w.vgs[h].pvcList) !! ks
  }

  ghost predicate WritesOnlyTo(todo: seq<Write>, g: Key) {
    forall x :: x in todo && (x.DropPVC? || x.AppendClaim?) ==> x.g == g
  }

  /** The invariant: exclusive lists, and nobody else lists what the worker is about to list. */
  ghost predicate SafeIn(w: World, worker: Worker) {
    && Exclusive(w)
    && (!worker.Idle? ==> Ours(w, worker.g) && FreeOutside(w, worker.g, Claimed(worker)))
    && (worker.Writing? ==> WritesOnlyTo(worker.todo, worker.g))
  }

  ghost predicate Safe(s: State) {
    SafeIn(s.world, s.worker)
  }

  /** The scan takes its first claim into the matching list. */
  ghost predicate Takes(s: State, e: Step) {
    && e.Scan? && s.worker.Scanning? && s.worker.scan != []
    && s.worker.selector(s.worker.scan[0].labels)
    && KeyOf(s.worker.scan[0]) !in Keys(s.worker.matching)
    && Eligible(s.world, s.worker.scan[0])
  }

  /** What a taking scan would have to look at: the worker's own group is among the groups that
      list the claim, or no group is. */
  ghost predicate Guard(s: State, e: Step) {
    Takes(s, e) ==> s.worker.g in GroupsWith(s.world, s.worker.scan[0]) || GroupsWith(s.world, s.worker.scan[0]) == {}
  }

  // ---- one step ----

  lemma SafeFrame(w: World, v: World, worker: Worker)
    requires SafeIn(w, worker)
    requires v.vgs == w.vgs && v.vgClasses == w.vgClasses && v.config == w.config
    ensures SafeIn(v, worker)
  {
  }

  /** Groups may leave, and lists of groups may shrink. */
  lemma SafeShrink(w: World, v: World, worker: Worker)
    requires SafeIn(w, worker)
    requires v.vgClasses == w.vgClasses && v.config == w.config
    requires forall g :: g in v.vgs && Ours(v, g) ==>
      v.vgs[g].pvcList == [] || (g in w.vgs && Ours(w, g) && v.vgs[g].pvcList == w.vgs[g].pvcList)
    requires !worker.Idle? ==> Ours(v, worker.g)
    ensures SafeIn(v, worker)
  {
  }

  lemma SafeUser(s: State, e: Step)
    requires Safe(s) && Enabled(s, e)
    requires e.CreateClaim? || e.Relabel? || e.ChangePhase? || e.OtherFinalizers? || e.DeleteClaim? || e.Skip?
          || e.ReleaseCheck? || e.ReleaseWrite? || e.DeleteRequest? || e.ReleaseStop?
    ensures Safe(Next(s, e))
  {
    hide SafeIn, Removable;
    SafeFrame(s.world, Next(s, e).world, s.worker);
  }

  lemma SafeGroups(s: State, e: Step)
    requires Safe(s) && Enabled(s, e)
    requires e.CreateGroup? || e.Select? || e.DeleteGroup? || e.VanishGroup? || e.RemoveGroup?
    ensures Safe(Next(s, e))
  {
    var v := Next(s, e).world;
    assert !s.worker.Idle? ==> Ours(v, s.worker.g);
    hide SafeIn, Enabled;
    SafeShrink(s.world, v, s.worker);
  }

  lemma SafeBegin(s: State, e: Step)
    requires Safe(s) && Enabled(s, e) && (e.Start? || e.List?)
    ensures Safe(Next(s, e))
  {
    var t := Next(s, e);
    assert Claimed(t.worker) == {} && Ours(t.world, t.worker.g);
  }

  lemma SafeEnd(s: State, e: Step)
    requires Safe(s) && Enabled(s, e)
    requires e.SettleEqual? || e.Finish? || e.Fail? || e.Restart?
    ensures Safe(Next(s, e))
  {
  }

  lemma SafeScan(s: State)
    requires Safe(s) && Enabled(s, Scan)
    ensures Guard(s, Scan) ==> Safe(Next(s, Scan))
    ensures !Guard(s, Scan) ==> !Safe(Next(s, Scan))
  {
    var w, worker := s.world, s.worker;
    var p, g := worker.scan[0], worker.g;
    if Takes(s, Scan) {
      KeysConcat(worker.matching, [p]);
      assert Keys([p]) == {KeyOf(p)};
      assert Claimed(Next(s, Scan).worker) == Claimed(worker) + {KeyOf(p)};
      if Guard(s, Scan) {
        forall h | h in w.vgs && h != g && Ours(w, h) ensures KeyOf(p) !in Keys(w.vgs[h].pvcList) {
          assert KeyOf(p) in Keys(w.vgs[h].pvcList) ==> h in GroupsWith(w, p);
        }
      } else {
        var h :| h in GroupsWith(w, p);
        assert h != g && KeyOf(p) in Keys(w.vgs[h].pvcList);
      }
    } else {
      assert Next(s, Scan).worker.matching == worker.matching;
    }
  }

  lemma {:induction false} RemovePlansAppend(g: Key, c: Key, ps: seq<PVC>)
    ensures AppendedClaims(RemovePlans(g, c, ps)) == {} && WritesOnlyTo(RemovePlans(g, c, ps), g)
  {
    if ps != [] { RemovePlansAppend(g, c, ps[1..]); }
  }

  lemma {:induction false} AddPlansAppend(g: Key, c: Key, ps: seq<PVC>)
    ensures AppendedClaims(AddPlans(g, c, ps)) <= Keys(ps) && WritesOnlyTo(AddPlans(g, c, ps), g)
  {
    if ps != [] {
      AddPlansAppend(g, c, ps[1..]);
      KeysCons(ps);
    }
  }

  lemma PlanAppends(g: Key, c: Key, list: seq<PVC>, matching: seq<PVC>)
    ensures AppendedClaims(Plan(g, c, list, matching)) <= Keys(matching)
    ensures WritesOnlyTo(Plan(g, c, list, matching), g)
  {
    RemovePlansAppend(g, c, Removals(list, matching));
    AddPlansAppend(g, c, Additions(list, matching));
    DropKeysKeys(matching, Keys(list));
    var a, b := RemovePlans(g, c, Removals(list, matching)), AddPlans(g, c, Additions(list, matching));
    assert AppendedClaims(a + b) == AppendedClaims(a) + AppendedClaims(b);
  }

  lemma SafePush(s: State)
    requires Safe(s) && Enabled(s, Push)
    ensures Safe(Next(s, Push))
  {
    var w, g := s.world, s.worker.g;
    PlanAppends(g, ContentKey(w, g), w.vgs[g].pvcList, s.worker.matching);
    SafeFrame(w, Next(s, Push).world, s.worker);
  }

  lemma SafeSecret(s: State)
    requires Safe(s) && Enabled(s, SecretMissing)
    ensures Safe(Next(s, SecretMissing))
  {
  }

  /** Replacing the list of one group by claims nobody else lists keeps the lists exclusive. */
  lemma ListReplaced(w: World, g: Key, list: seq<PVC>, v: World)
    requires Exclusive(w) && Ours(w, g) && FreeOutside(w, g, Keys(list))
    requires v.vgs.Keys == w.vgs.Keys && v.vgClasses == w.vgClasses && v.config == w.config
    requires v.vgs[g].pvcList == list && v.vgs[g].className == w.vgs[g].className
    requires forall h :: h in w.vgs && h != g ==> v.vgs[h] == w.vgs[h]
    ensures Exclusive(v)
  {
  }

  lemma SafeReport(s: State, e: Step)
    requires Safe(s) && Enabled(s, e) && e.FailReporting?
    ensures Safe(Next(s, e))
  {
    var w, g := s.world, s.worker.g;
    ListEquality.PermutationKeys(e.list, w.vgs[g].pvcList);
    assert FreeOutside(w, g, Keys(e.list));
    ListReplaced(w, g, e.list, Next(s, e).world);
  }

  lemma SafeWrite(s: State)
    requires Safe(s) && Enabled(s, WriteNext)
    ensures Safe(Next(s, WriteNext))
  {
    var w, g, todo := s.world, s.worker.g, s.worker.todo;
    var x := todo[0];
    var v := Apply(w, x);
    assert todo == [x] + todo[1..];
    assert v.vgs == GroupsAfter(w.vgs, x);
    assert AppendedClaims(todo[1..]) <= AppendedClaims(todo);
    if x.DropPVC? || x.AppendClaim? {
      ListStepKeys(w.vgs[g].pvcList, x);
      assert x.AppendClaim? ==> KeyOf(x.p) in AppendedClaims(todo);
      SafeListStep(w, g, todo, v.vgs[g].pvcList, v);
    } else {
      OnlyErrors(w, x);
      SafeErrorStep(w, v, g, todo);
    }
  }

  lemma ListStepKeys(list: seq<PVC>, x: Write)
    ensures x.DropPVC? ==> Keys(RemoveKey(list, x.k)) <= Keys(list)
    ensures x.AppendClaim? ==> Keys(AppendPVC(list, x.p)) == Keys(list) + {KeyOf(x.p)}
  {
    if x.DropPVC? { RemoveKeySubset(list, x.k); }
    if x.AppendClaim? { AppendKeys(list, x.p); }
  }

  lemma SafeListStep(w: World, g: Key, todo: seq<Write>, list: seq<PVC>, v: World)
    requires SafeIn(w, Writing(g, todo)) && todo != []
    requires Keys(list) <= Keys(w.vgs[g].pvcList) + AppendedClaims(todo)
    requires v.vgs.Keys == w.vgs.Keys && v.vgClasses == w.vgClasses && v.config == w.config
    requires v.vgs[g] == w.vgs[g].(pvcList := list)
    requires forall h :: h in w.vgs && h != g ==> v.vgs[h] == w.vgs[h]
    ensures SafeIn(v, Writing(g, todo[1..]))
  {
  }

  lemma OnlyErrors(w: World, x: Write)
    requires !x.DropPVC? && !x.AppendClaim?
    ensures Apply(w, x).vgs.Keys == w.vgs.Keys
    ensures forall h :: h in w.vgs ==> Apply(w, x).vgs[h] == w.vgs[h].(error := Apply(w, x).vgs[h].error)
  {
  }

  lemma SafeErrorStep(w: World, v: World, g: Key, todo: seq<Write>)
    requires SafeIn(w, Writing(g, todo)) && todo != []
    requires v.vgs.Keys == w.vgs.Keys && v.vgClasses == w.vgClasses && v.config == w.config
    requires forall h :: h in w.vgs ==> v.vgs[h] == w.vgs[h].(error := v.vgs[h].error)
    ensures SafeIn(v, Writing(g, todo[1..]))
  {
  }

  /** Every step keeps the invariant, except that a scan keeps it exactly when it is guarded. */
  lemma SafeStep(s: State, e: Step)
    requires Safe(s) && Enabled(s, e)
    ensures Safe(Next(s, e)) <==> Guard(s, e)
  {
    hide SafeIn, Next, Enabled, GroupsWith;
    match e
    case Scan => SafeScan(s);
    case Push => SafePush(s);
    case SecretMissing => SafeSecret(s);
    case WriteNext => SafeWrite(s);
    case CreateClaim(_) => SafeUser(s, e);
    case Relabel(_, _) => SafeUser(s, e);
    case ChangePhase(_, _, _) => SafeUser(s, e);
    case DeleteClaim(_) => SafeUser(s, e);
    case OtherFinalizers(_, _) => SafeUser(s, e);
    case ReleaseCheck(_) => SafeUser(s, e);
    case ReleaseWrite => SafeUser(s, e);
    case DeleteRequest => SafeUser(s, e);
    case ReleaseStop => SafeUser(s, e);
    case Skip(_) => SafeUser(s, e);
    case CreateGroup(_, _, _, _) => SafeGroups(s, e);
    case Select(_, _) => SafeGroups(s, e);
    case DeleteGroup(_) => SafeGroups(s, e);
    case VanishGroup(_) => SafeGroups(s, e);
    case RemoveGroup(_) => SafeGroups(s, e);
    case Start(_) => SafeBegin(s, e);
    case List(_) => SafeBegin(s, e);
    case SettleEqual => SafeEnd(s, e);
    case Finish => SafeEnd(s, e);
    case Fail => SafeEnd(s, e);
    case FailReporting(_) => SafeReport(s, e);
    case Restart => SafeEnd(s, e);
  }

  // ---- runs ----

  ghost predicate SafeThroughout(s: State, steps: seq<Step>)
    requires Run(s, steps)
    decreases |steps|
  {
    Safe(s) && (steps != [] ==> SafeThroughout(Next(s, steps[0]), steps[1..]))
  }

  ghost predicate GuardedRun(s: State, steps: seq<Step>)
    requires Run(s, steps)
    decreases |steps|
  {
    steps != [] ==> Guard(s, steps[0]) && GuardedRun(Next(s, steps[0]), steps[1..])
  }

  /** Over every run, whatever users, failures and restarts do between the steps: the lists stay
      exclusive, and no claim about to be listed is listed elsewhere, exactly when every taking
      scan finds the worker's own group, or no group, among those that list the claim. */
  lemma {:induction false} SafeExactlyWhenGuarded(s: State, steps: seq<Step>)
    requires Safe(s) && Run(s, steps)
    ensures SafeThroughout(s, steps) <==> GuardedRun(s, steps)
    decreases |steps|
  {
    if steps != [] {
      hide Safe, Guard, Enabled, Next;
      SafeStep(s, steps[0]);
      if Safe(Next(s, steps[0])) {
        SafeExactlyWhenGuarded(Next(s, steps[0]), steps[1..]);
      } else {
        assert !SafeThroughout(Next(s, steps[0]), steps[1..]);
      }
    }
  }

  /** The two-bucket check is sound for a group whose stored selector matches the claim: success
      for a claim that is new to the group means that no group of the driver lists it. */
  lemma CheckIsSound(w: World, p: PVC, g: Key)
    requires w.config.multipleVGsToPVC != "true" && CanBeAdded(w, p)
    requires Ours(w, g) && w.vgs[g].selector(p.labels) && KeyOf(p) !in Keys(w.vgs[g].pvcList)
    ensures GroupsWith(w, p) == {} && NewGroupsFor(w, p) == {g}
  {
    var new_ := NewGroupsFor(w, p);
    assert g in new_;
    assert |new_ - {g}| == |new_| - 1;
    assert new_ - {g} == {};
  }

  /** The selector the worker matches with is the stored one. */
  ghost predicate SelectorCurrent(s: State) {
    (s.worker.Started? || s.worker.Scanning?) ==>
      s.worker.g in s.world.vgs && s.world.vgs[s.worker.g].selector == s.worker.selector
  }

  /** The step does not edit the selector of the group in process. */
  ghost predicate LeavesSelector(s: State, e: Step) {
    e.Select? && (s.worker.Started? || s.worker.Scanning?) ==> e.g != s.worker.g
  }

  lemma CurrentStep(s: State, e: Step)
    requires Safe(s) && SelectorCurrent(s) && Enabled(s, e) && LeavesSelector(s, e)
    ensures SelectorCurrent(Next(s, e))
  {
    hide Exclusive, FreeOutside, Claimed, WritesOnlyTo, GroupsAfter, CanBeAdded, IsListing, MustModify;
  }

  lemma CurrentMeansGuarded(s: State, e: Step)
    requires Safe(s) && SelectorCurrent(s) && Enabled(s, e)
    requires s.world.config.multipleVGsToPVC != "true"
    ensures Guard(s, e)
  {
    if Takes(s, e) {
      var p, g := s.worker.scan[0], s.worker.g;
      if KeyOf(p) in Keys(s.world.vgs[g].pvcList) {
        assert g in GroupsWith(s.world, p);
      } else {
        CheckIsSound(s.world, p, g);
      }
    }
  }

  ghost predicate NoEditsInFlight(s: State, steps: seq<Step>)
    requires Run(s, steps)
    decreases |steps|
  {
    steps != [] ==> LeavesSelector(s, steps[0]) && NoEditsInFlight(Next(s, steps[0]), steps[1..])
  }

  lemma ConfigStays(s: State, e: Step)
    requires Enabled(s, e)
    ensures Next(s, e).world.config == s.world.config
  {
  }

  /** Over every run in which no user edits the selector of the group while it is in process,
      all lists stay exclusive, even with selectors and labels of all other objects changing. */
  lemma {:induction false} ExclusiveWithoutEditsInFlight(s: State, steps: seq<Step>)
    requires Safe(s) && SelectorCurrent(s) && s.world.config.multipleVGsToPVC != "true"
    requires Run(s, steps) && NoEditsInFlight(s, steps)
    ensures SafeThroughout(s, steps) && Exclusive(Final(s, steps).world)
    decreases |steps|
  {
    if steps != [] {
      hide SafeIn, Guard, Enabled, Next, SelectorCurrent, LeavesSelector;
      CurrentMeansGuarded(s, steps[0]);
      SafeStep(s, steps[0]);
      CurrentStep(s, steps[0]);
      ConfigStays(s, steps[0]);
      ExclusiveWithoutEditsInFlight(Next(s, steps[0]), steps[1..]);
    }
  }
}
