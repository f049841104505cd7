/** The methods refine the step system: however a call of updatePVCs ends, its effect on the store
    is that of a run of the worker, so what holds over all runs holds of the methods. */
module Refinement {
  import opened Kube
  import opened Cluster
  import opened MembershipPlan
  import opened GroupController
  import opened MembershipUpdate
  import opened UpdatePvcs
  import ListEquality
  import Scans

  function Times(n: nat): seq<Step> {
    seq(n, _ => WriteNext)
  }

  lemma {:induction false} WritesAreARun(s: State, g: Key, plan: seq<Write>, rest: seq<Write>)
    requires s.worker == Writing(g, plan + rest) && Writable(s.world, plan)
    ensures Reaches(s, Times(|plan|), s.(world := ApplyAll(s.world, plan), worker := Writing(g, rest)))
    decreases |plan|
  {
    if plan == [] {
      assert plan + rest == rest;
      NoStepsYet(s);
    } else {
      assert (plan + rest)[0] == plan[0] && (plan + rest)[1..] == plan[1..] + rest;
      assert Enabled(s, WriteNext);
      var t := Next(s, WriteNext);
      assert t == s.(world := Apply(s.world, plan[0]), worker := Writing(g, plan[1..] + rest));
      hide Enabled, Next, Apply, CanWrite, Reaches;
      ReachesOne(s, WriteNext);
      WritesAreARun(t, g, plan[1..], rest);
      ReachesMore(s, [WriteNext], t, Times(|plan| - 1),
          s.(world := ApplyAll(s.world, plan), worker := Writing(g, rest)));
      assert [WriteNext] + Times(|plan| - 1) == Times(|plan|);
    }
  }

  /** The worker has scanned all claims, and the call is about to compare. */
  ghost predicate ReadyToCompare(s: State, matching: seq<PVC>) {
    s.worker.Scanning? && s.worker.scan == [] && s.worker.matching == matching && s.worker.g in s.world.vgs
  }

  /** A run from `s` leaves the store as `w` and the worker idle. */
  ghost predicate LeadsTo(s: State, w: World, requeued: bool) {
    exists steps, t :: Reaches(s, steps, t) && t.world == w && t.worker.Idle?
        && (requeued ==> s.worker.Idle? || s.worker.g in t.queue)
  }

  /** An error return, with its report or without. */
  lemma ErrorIsAStep(s: State, w: World, list: seq<PVC>)
    requires !s.worker.Idle? && s.worker.g in s.world.vgs
    requires multiset(list) == multiset(s.world.vgs[s.worker.g].pvcList)
    requires PerhapsReported(s.world, w, s.worker.g, list)
    ensures LeadsTo(s, w, true)
  {
    var e := if w == s.world then Fail else FailReporting(list);
    assert Enabled(s, e);
    assert Next(s, e).world == w && Next(s, e).worker.Idle? && s.worker.g in Next(s, e).queue;
    hide Enabled, Next, Reaches, PerhapsReported;
    ReachesOne(s, e);
  }

  lemma LeadsOn(s: State, a: seq<Step>, t: State, w: World, requeued: bool)
    requires Reaches(s, a, t) && LeadsTo(t, w, requeued)
    requires !s.worker.Idle? && !t.worker.Idle? && t.worker.g == s.worker.g
    ensures LeadsTo(s, w, requeued)
  {
    hide Reaches;
    var b, u :| Reaches(t, b, u) && u.world == w && u.worker.Idle? && (requeued ==> t.worker.g in u.queue);
    ReachesMore(s, a, t, b, u);
  }

  lemma PushIsAStep(s: State, c: Key, matching: seq<PVC>, v: World)
    requires ReadyToCompare(s, matching) && ContentKey(s.world, s.worker.g) == c
    requires !SameList(s.world.vgs[s.worker.g].pvcList, matching) && Pushed(s.world, v, c, matching)
    ensures var g := s.worker.g;
      Reaches(s, [GroupController.Push],
              s.(world := v, worker := Writing(g, Plan(g, c, s.world.vgs[g].pvcList, matching))))
  {
  }

  lemma SettledIsARun(s: State, matching: seq<PVC>)
    requires ReadyToCompare(s, matching) && SameList(s.world.vgs[s.worker.g].pvcList, matching)
    ensures LeadsTo(s, s.world, false)
  {
    hide ListEquality.IsPVCListEqual;
    assert Enabled(s, SettleEqual);
    var t := Next(s, SettleEqual);
    hide Enabled, Reaches;
    ReachesOne(s, SettleEqual);
  }

  lemma LostSecretIsARun(s: State, matching: seq<PVC>)
    requires ReadyToCompare(s, matching) && !SameList(s.world.vgs[s.worker.g].pvcList, matching)
    ensures LeadsTo(s, Reported(s.world, s.worker.g, matching, ERROR), true)
  {
    hide ListEquality.IsPVCListEqual;
    assert Enabled(s, SecretMissing);
    var t := Next(s, SecretMissing);
    hide Enabled, Reaches;
    ReachesOne(s, SecretMissing);
  }

  lemma RefusalIsARun(s: State, c: Key, matching: seq<PVC>, w: World)
    requires ReadyToCompare(s, matching) && ContentKey(s.world, s.worker.g) == c
    requires !SameList(s.world.vgs[s.worker.g].pvcList, matching)
    requires AfterRefusal(s.world, w, s.worker.g, c, s.world.vgs[s.worker.g].pvcList, matching)
    ensures LeadsTo(s, w, true)
  {
    var g, list := s.worker.g, s.world.vgs[s.worker.g].pvcList;
    var v :| (v == s.world || Pushed(s.world, v, c, matching)) && PerhapsReported(v, w, g, list);
    hide Plan, PerhapsReported, SameList, Reaches, LeadsTo;
    if v == s.world {
      ErrorIsAStep(s, w, list);
    } else {
      PushIsAStep(s, c, matching, v);
      var t := s.(world := v, worker := Writing(g, Plan(g, c, list, matching)));
      assert v.vgs == s.world.vgs;
      ErrorIsAStep(t, w, list);
      LeadsOn(s, [GroupController.Push], t, w, true);
    }
  }

  lemma StopIsARun(s: State, c: Key, matching: seq<PVC>, w: World, now: seq<PVC>)
    requires ReadyToCompare(s, matching) && ContentKey(s.world, s.worker.g) == c
    requires !SameList(s.world.vgs[s.worker.g].pvcList, matching)
    requires AfterStop(s.world, w, s.worker.g, c, s.world.vgs[s.worker.g].pvcList, matching, now)
    ensures LeadsTo(s, w, true)
  {
    var g, list := s.worker.g, s.world.vgs[s.worker.g].pvcList;
    var plan := Plan(g, c, list, matching);
    var v, done: nat :| Pushed(s.world, v, c, matching) && StoredAfterFailure(v, list, g, plan, done, w, now);
    var u :| StoppedAt(v, list, g, plan, done, u, now) && PerhapsReported(u, w, g, now);
    assert v.vgs == s.world.vgs;
    hide Plan, PerhapsReported, SameList, Reaches, LeadsTo, Pushed, ListAfter, ApplyAll, Writable;
    var x := s.(world := v, worker := Writing(g, plan));
    var y := s.(world := u, worker := Writing(g, plan[done..]));
    PushIsAStep(s, c, matching, v);
    assert plan == plan[..done] + plan[done..];
    WritesAreARun(x, g, plan[..done], plan[done..]);
    ReachesMore(s, [GroupController.Push], x, Times(done), y);
    ApplyAllList(v, plan[..done], g);
    ErrorIsAStep(y, w, now);
    LeadsOn(s, [GroupController.Push] + Times(done), y, w, true);
  }

  lemma FinishIsAStep(s: State)
    requires s.worker.Writing? && s.worker.todo == []
    ensures LeadsTo(s, s.world, false)
  {
    assert Enabled(s, Finish);
    var t := Next(s, Finish);
    hide Enabled, Reaches;
    ReachesOne(s, Finish);
  }

  lemma SuccessIsARun(s: State, c: Key, matching: seq<PVC>, w: World, now: seq<PVC>)
    requires ReadyToCompare(s, matching) && ContentKey(s.world, s.worker.g) == c
    requires !SameList(s.world.vgs[s.worker.g].pvcList, matching)
    requires AfterSuccess(s.world, w, s.worker.g, c, s.world.vgs[s.worker.g].pvcList, matching, now)
    ensures LeadsTo(s, w, false)
  {
    var g, list := s.worker.g, s.world.vgs[s.worker.g].pvcList;
    var plan := Plan(g, c, list, matching);
    var v :| Pushed(s.world, v, c, matching) && WroteAll(v, w, plan);
    hide Plan, SameList, Reaches, LeadsTo, Pushed, ApplyAll, Writable;
    var x := s.(world := v, worker := Writing(g, plan));
    var y := s.(world := w, worker := Writing(g, []));
    PushIsAStep(s, c, matching, v);
    assert plan == plan + [];
    WritesAreARun(x, g, plan, []);
    ReachesMore(s, [GroupController.Push], x, Times(|plan|), y);
    FinishIsAStep(y);
    LeadsOn(s, [GroupController.Push] + Times(|plan|), y, w, false);
  }

  /** However updatePVCs ends once the matching claims are known, a run of the worker has the same
      effect on the store, and after an error the group is queued again. */
  lemma ComparedOutcomeIsARun(s: State, outcome: Outcome, c: Key, matching: seq<PVC>, w: World, now: seq<PVC>)
    requires ReadyToCompare(s, matching) && ContentKey(s.world, s.worker.g) == c && outcome != ListingFailed
    requires Ended(outcome, s.world, w, s.worker.g, c, s.world.vgs[s.worker.g].pvcList, matching, now)
    ensures LeadsTo(s, w, outcome != Settled && outcome != UpdatePvcs.Synchronised)
  {
    hide SameList, AfterRefusal, AfterStop, AfterSuccess, LeadsTo;
    match outcome
    case Settled => SettledIsARun(s, matching);
    case NotPushed(SecretLost) => LostSecretIsARun(s, matching);
    case NotPushed(_) => RefusalIsARun(s, c, matching, w);
    case Stopped => StopIsARun(s, c, matching, w, now);
    case Synchronised => SuccessIsARun(s, c, matching, w, now);
  }

  // ---- the scan ----

  function ScanTimes(n: nat): seq<Step> {
    seq(n, _ => Scan)
  }

  lemma {:induction false} TakenKeys(w: World, selector: Selector, items: seq<PVC>)
    ensures forall p :: p in Scans.Taken(w, selector, items) ==> p in items
  {
    if items != [] {
      TakenKeys(w, selector, items[..|items| - 1]);
      assert items == items[..|items| - 1] + [items[|items| - 1]];
    }
  }

  lemma TakeOne(w: World, g: Key, selector: Selector, items: seq<PVC>, i: nat)
    requires UniqueKeys(items) && i < |items|
    ensures ScanOne(w, Scanning(g, selector, items[i..], Scans.Taken(w, selector, items[..i])))
            == Scanning(g, selector, items[i + 1..], Scans.Taken(w, selector, items[..i + 1]))
  {
    assert items[..i + 1][..i] == items[..i] && items[i..][1..] == items[i + 1..];
    TakenKeys(w, selector, items[..i]);
    forall q | q in Scans.Taken(w, selector, items[..i]) ensures KeyOf(q) != KeyOf(items[i]) {
      assert q in items[..i];
    }
  }

  /** The worker after `i` turns of the scan. */
  function Scanned(w: World, g: Key, selector: Selector, items: seq<PVC>, i: nat): Worker
    requires i <= |items|
  {
    Scanning(g, selector, items[i..], Scans.Taken(w, selector, items[..i]))
  }

  lemma ScanIsAStep(s: State, g: Key, selector: Selector, items: seq<PVC>, i: nat)
    requires IsListing(s.world, items) && Scans.Undisputed(s.world, selector) && i < |items|
    requires s.worker == Scanned(s.world, g, selector, items, i)
    ensures Enabled(s, Scan) && Next(s, Scan) == s.(worker := Scanned(s.world, g, selector, items, i + 1))
  {
    assert items[i] in items && items[i..][0] == items[i];
    TakeOne(s.world, g, selector, items, i);
    hide CanBeAdded, Scans.Taken, ScanOne;
  }

  lemma {:induction false} ScansAreARun(s: State, g: Key, selector: Selector, items: seq<PVC>, i: nat)
    requires IsListing(s.world, items) && Scans.Undisputed(s.world, selector) && i <= |items|
    requires s.worker == Scanned(s.world, g, selector, items, i)
    ensures Reaches(s, ScanTimes(|items| - i), s.(worker := Scanned(s.world, g, selector, items, |items|)))
    decreases |items| - i
  {
    hide IsListing, Scans.Undisputed, Enabled, Next, Reaches, Scanned;
    if i == |items| {
      NoStepsYet(s);
    } else {
      ScanIsAStep(s, g, selector, items, i);
      var t := s.(worker := Scanned(s.world, g, selector, items, i + 1));
      ReachesOne(s, Scan);
      ScansAreARun(t, g, selector, items, i + 1);
      ReachesMore(s, [Scan], t, ScanTimes(|items| - i - 1),
          s.(worker := Scanned(s.world, g, selector, items, |items|)));
      assert [Scan] + ScanTimes(|items| - i - 1) == ScanTimes(|items| - i);
    }
  }

  lemma CollectingIsARun(s: State, matching: seq<PVC>) returns (steps: seq<Step>, t: State)
    requires s.worker.Started? && Scans.Collected(s.world, s.worker.selector, matching)
        && Scans.Undisputed(s.world, s.worker.selector)
    ensures Reaches(s, steps, t) && t == s.(worker := Scanning(s.worker.g, s.worker.selector, [], matching))
  {
    var g, selector := s.worker.g, s.worker.selector;
    var items :| IsListing(s.world, items) && matching == Scans.Taken(s.world, selector, items);
    var u := s.(worker := Scanning(g, selector, items, []));
    assert Enabled(s, List(items)) && Next(s, List(items)) == u;
    assert items[0..] == items && Scans.Taken(s.world, selector, items[..0]) == [];
    assert items[|items|..] == [] && items[..|items|] == items;
    hide Enabled, Next, Reaches, IsListing, Scans.Undisputed, Scans.Taken;
    ReachesOne(s, List(items));
    ScansAreARun(u, g, selector, items, 0);
    t := s.(worker := Scanning(g, selector, [], matching));
    steps := [List(items)] + ScanTimes(|items|);
    ReachesMore(s, [List(items)], u, ScanTimes(|items|), t);
  }

  /** Refinement: from the moment the group was read, however a call of updatePVCs ends, some run
      of the worker, with nobody interfering, has exactly its effect on the store; after an error
      the group is queued again. */
  lemma EveryCallIsARun(s: State, outcome: Outcome, c: Key, matching: seq<PVC>, w: World, now: seq<PVC>)
    requires s.worker.Started? && s.worker.g in s.world.vgs && ContentKey(s.world, s.worker.g) == c
    requires outcome != ListingFailed ==>
      Scans.Collected(s.world, s.worker.selector, matching) && Scans.Undisputed(s.world, s.worker.selector)
    requires Ended(outcome, s.world, w, s.worker.g, c, s.world.vgs[s.worker.g].pvcList, matching, now)
    ensures LeadsTo(s, w, outcome != Settled && outcome != UpdatePvcs.Synchronised)
  {
    if outcome == ListingFailed {
      ErrorIsAStep(s, w, s.world.vgs[s.worker.g].pvcList);
    } else {
      hide Ended, LeadsTo, Reaches, Scans.Collected, Scans.Undisputed;
      var steps, t := CollectingIsARun(s, matching);
      ComparedOutcomeIsARun(t, outcome, c, matching, w, now);
      LeadsOn(s, steps, t, w, outcome != Settled && outcome != UpdatePvcs.Synchronised);
    }
  }
}
