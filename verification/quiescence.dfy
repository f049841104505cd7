/** An idle group is a synchronised group. */
module Quiescence {
  import opened Kube
  import opened Cluster
  import opened MembershipPlan
  import opened GroupController
  import opened Protection
  import ListEquality

  /** The claims of a scan that would be taken. */
  ghost function WouldTake(w: World, selector: Selector, scan: seq<PVC>): set<Key> {
    set p | p in scan && selector(p.labels) && Eligible(w, p) :: KeyOf(p)
  }

  /** What the list of `g` will hold when the worker is done with what it has seen. */
  ghost predicate OnCourse(w: World, worker: Worker, g: Key)
    requires g in w.vgs
  {
    var vg := w.vgs[g];
    if worker.Idle? || worker.g != g then Keys(vg.pvcList) == MatchingKeys(w, g)
    else match worker
      case Started(_, selector) => selector == vg.selector
      case Scanning(_, selector, scan, matching) =>
        selector == vg.selector && Keys(matching) + WouldTake(w, selector, scan) == MatchingKeys(w, g)
      case Writing(_, todo) => Keys(ListAfter(vg.pvcList, g, todo)) == MatchingKeys(w, g)
  }

  predicate Live(w: World, g: Key) {
    Ours(w, g) && !w.vgs[g].deleting
  }

  /** Every live group of the driver is queued or on course. */
  ghost predicate QuietIn(w: World, queue: set<Key>, worker: Worker) {
    forall g :: Live(w, g) && g !in queue ==> OnCourse(w, worker, g)
  }

  ghost predicate Quiet(s: State) {
    QuietIn(s.world, s.queue, s.worker)
  }

  /** Both invariants hold before any group exists, whatever claims do. */
  lemma NoGroupsYet(s: State)
    requires s.world.vgs == map[] && s.worker.Idle? && WellKeyed(s.world.pvcs)
    ensures Guarded(s) && Quiet(s)
  {
  }

  // ---- events ----

  /** The matching claims of `g` are the same before and after. */
  ghost predicate SameMatch(w: World, v: World, g: Key)
    requires g in w.vgs && g in v.vgs
  {
    MatchingKeys(v, g) == MatchingKeys(w, g)
  }

  lemma ClaimsChanged(w: World, v: World, queue: set<Key>, queue': set<Key>, worker: Worker)
    requires QuietIn(w, queue, worker) && queue <= queue'
    requires v == w.(pvcs := v.pvcs)
    requires forall g :: Live(w, g) && g !in queue' ==> SameMatch(w, v, g) || (worker.Started? && worker.g == g)
    ensures QuietIn(v, queue', worker)
  {
  }

  /** A created or edited claim wakes every group whose matching claims it changes: the groups
      that match its old or its new labels. */
  lemma ClaimEditWakes(s: State, e: Step, g: Key)
    requires Enabled(s, e) && (e.CreateClaim? || e.Relabel? || e.ChangePhase?)
    requires WellKeyed(s.world.pvcs)
    requires g in s.world.vgs && g !in Next(s, e).queue
    ensures SameMatch(s.world, Next(s, e).world, g)
  {
  }

  lemma ClaimEditQuiet(s: State, e: Step)
    requires Orderly(s) && Quiet(s) && Enabled(s, e)
    requires e.CreateClaim? || e.Relabel? || e.ChangePhase?
    ensures Quiet(Next(s, e))
  {
    forall g | Live(s.world, g) && g !in Next(s, e).queue ensures SameMatch(s.world, Next(s, e).world, g) {
      ClaimEditWakes(s, e, g);
    }
    hide QuietIn, SameMatch, Enabled;
    ClaimsChanged(s.world, Next(s, e).world, s.queue, Next(s, e).queue, s.worker);
  }

  /** The groups that nothing would wake if their matching claims changed: live, not queued, and
      not just read by the worker, which then lists the claims itself. */
  ghost predicate Unwatched(s: State, g: Key) {
    Live(s.world, g) && g !in s.queue && !(s.worker.Started? && s.worker.g == g)
  }

  /** If `k` vanishes it matches no group that nothing would wake. */
  ghost predicate VanishesUnmatched(s: State, k: Key) {
    Vanishes(s.world.pvcs, k) ==> forall g :: Unwatched(s, g) ==> k !in MatchingKeys(s.world, g)
  }

  /** Events of deletions are ignored: the step makes no claim vanish that an unwatched group
      matches. */
  ghost predicate Watched(s: State, e: Step) {
    && (e.DeleteClaim? ==> VanishesUnmatched(s, e.k))
    && (e.DeleteRequest? && s.releaser.Deleting? ==> VanishesUnmatched(s, s.releaser.k))
  }

  /** Ignoring deletions is nearly sound: a claim that vanishes while an unwatched group matches it
      is on its way into the list of that very group. */
  lemma VanishedWasOnItsWay(s: State, k: Key, g: Key)
    requires Guarded(s) && Quiet(s) && Vanishes(s.world.pvcs, k) && Unwatched(s, g) && k in MatchingKeys(s.world, g)
    ensures !s.worker.Idle? && s.worker.g == g && k in InFlightKeys(s.worker)
  {
    var w, worker := s.world, s.worker;
    assert OnCourse(w, worker, g);
    if k in Keys(w.vgs[g].pvcList) {
      assert Covered(w.pvcs, worker, g, k) && !Protected(w.pvcs, k);
      NextProtectInFlight(worker.todo);
    } else if worker.Scanning? && worker.g == g {
      ScanKeysInFlight(w, worker);
    } else if worker.Writing? && worker.g == g {
      ListAfterKeys(w.vgs[g].pvcList, g, worker.todo);
      AppendedInFlight(worker.todo);
    }
  }

  lemma {:induction false} NextProtectInFlight(todo: seq<Write>)
    requires NextProtect(todo).Some?
    ensures NextProtect(todo).value in Handled(todo)
  {
    assert todo == [todo[0]] + todo[1..];
    if todo[0].AppendPV? { NextProtectInFlight(todo[1..]); }
  }

  lemma ScanKeysInFlight(w: World, worker: Worker)
    requires worker.Scanning?
    ensures Keys(worker.matching) + WouldTake(w, worker.selector, worker.scan) <= InFlightKeys(worker)
  {
  }

  lemma AppendedInFlight(todo: seq<Write>)
    ensures AppendedClaims(todo) <= set p | p in Handled(todo) :: KeyOf(p)
  {
  }

  lemma {:induction false} ListAfterKeys(list: seq<PVC>, g: Key, todo: seq<Write>)
    ensures Keys(ListAfter(list, g, todo)) <= Keys(list) + AppendedClaims(todo)
    decreases |todo|
  {
    if todo != [] {
      var next := ListStep(list, g, todo[0]);
      assert todo == [todo[0]] + todo[1..];
      if todo[0].DropPVC? { RemoveKeySubset(list, todo[0].k); }
      if todo[0].AppendClaim? { AppendKeys(list, todo[0].p); }
      ListAfterKeys(next, g, todo[1..]);
    }
  }

  lemma VanishMatch(w: World, k: Key, g: Key)
    requires g in w.vgs
    ensures var v := w.(pvcs := AfterDelete(w.pvcs, k));
      MatchingKeys(v, g) == if Vanishes(w.pvcs, k) then MatchingKeys(w, g) - {k} else MatchingKeys(w, g)
  {
  }

  /** The unwatched groups stay on course exactly when the vanishing claim matches none of them. */
  lemma VanishQuiet(s: State, k: Key)
    requires Quiet(s)
    ensures QuietIn(s.world.(pvcs := AfterDelete(s.world.pvcs, k)), s.queue, s.worker) <==> VanishesUnmatched(s, k)
  {
    var w := s.world;
    var v := w.(pvcs := AfterDelete(w.pvcs, k));
    if VanishesUnmatched(s, k) {
      forall g | Live(w, g) && g !in s.queue ensures SameMatch(w, v, g) || (s.worker.Started? && s.worker.g == g) {
        VanishMatch(w, k, g);
      }
      hide QuietIn, SameMatch, AfterDelete, MatchingKeys;
      ClaimsChanged(w, v, s.queue, s.queue, s.worker);
    } else {
      var g :| Unwatched(s, g) && k in MatchingKeys(w, g);
      VanishMatch(w, k, g);
      OffCourse(w, v, s.worker, g);
      assert Live(v, g);
    }
  }

  lemma OffCourse(w: World, v: World, worker: Worker, g: Key)
    requires g in w.vgs && v == w.(pvcs := v.pvcs) && OnCourse(w, worker, g) && !(worker.Started? && worker.g == g)
    requires MatchingKeys(v, g) != MatchingKeys(w, g)
    ensures !OnCourse(v, worker, g)
  {
    hide MatchingKeys;
  }

  lemma VanishStep(s: State, e: Step)
    requires Quiet(s) && Enabled(s, e) && (e.DeleteClaim? || e.DeleteRequest?)
    ensures Quiet(Next(s, e)) <==> Watched(s, e)
  {
    hide QuietIn, VanishesUnmatched, AfterDelete;
    VanishQuiet(s, if e.DeleteClaim? then e.k else s.releaser.k);
  }

  /** Finalizers do not matter to which claims match. */
  lemma FinalizersQuiet(s: State, e: Step)
    requires Quiet(s) && Enabled(s, e)
    requires e.OtherFinalizers? || e.ReleaseCheck? || e.ReleaseWrite? || e.ReleaseStop?
    ensures Quiet(Next(s, e))
  {
    var w, v := s.world, Next(s, e).world;
    forall g | g in w.vgs ensures SameMatch(w, v, g) {
      SameMatching(s, e, g);
    }
    hide QuietIn, SameMatch, Removable, Strip;
    ClaimsChanged(w, v, s.queue, s.queue, s.worker);
  }

  lemma SameMatching(s: State, e: Step, g: Key)
    requires Enabled(s, e) && g in s.world.vgs
    requires e.OtherFinalizers? || e.ReleaseCheck? || e.ReleaseWrite? || e.ReleaseStop?
    ensures SameMatch(s.world, Next(s, e).world, g)
  {
    hide Removable;
  }

  lemma GroupsChanged(w: World, v: World, queue: set<Key>, queue': set<Key>, worker: Worker)
    requires QuietIn(w, queue, worker)
    requires v == w.(vgs := v.vgs)
    requires forall g :: Live(v, g) && g !in queue' ==> Live(w, g) && g !in queue && v.vgs[g] == w.vgs[g]
    ensures QuietIn(v, queue', worker)
  {
    forall g | Live(v, g) && g !in queue' ensures OnCourse(v, worker, g) {
      assert OnCourse(w, worker, g);
      assert MatchingKeys(v, g) == MatchingKeys(w, g);
      if worker.Scanning? && worker.g == g {
        assert WouldTake(v, worker.selector, worker.scan) == WouldTake(w, worker.selector, worker.scan);
      }
    }
  }

  lemma GroupEditQuiet(s: State, e: Step)
    requires Quiet(s) && Enabled(s, e)
    requires e.CreateGroup? || e.Select? || e.DeleteGroup? || e.VanishGroup? || e.RemoveGroup? || e.Skip?
    ensures Quiet(Next(s, e))
  {
    var w, v, queue := s.world, Next(s, e).world, Next(s, e).queue;
    forall g | Live(v, g) && g !in queue ensures Live(w, g) && g !in s.queue && v.vgs[g] == w.vgs[g] {
    }
    hide QuietIn, Enabled, Live;
    GroupsChanged(w, v, s.queue, queue, s.worker);
  }

  /** The worker moves on while the world and the queue, but for its own group, stay. */
  lemma WorkerMoved(w: World, queue: set<Key>, queue': set<Key>, worker: Worker, worker': Worker, g: Key)
    requires QuietIn(w, queue, worker)
    requires forall h :: h in queue && h != g ==> h in queue'
    requires worker.Idle? || worker.g == g
    requires worker'.Idle? || worker'.g == g
    requires Live(w, g) && g !in queue' ==> OnCourse(w, worker', g)
    ensures QuietIn(w, queue', worker')
  {
  }

  lemma BeginQuiet(s: State, e: Step)
    requires Orderly(s) && Quiet(s) && Enabled(s, e) && (e.Start? || e.List?)
    ensures Quiet(Next(s, e))
  {
  }

  lemma ScanQuiet(s: State)
    requires Orderly(s) && Quiet(s) && Enabled(s, Scan)
    ensures Quiet(Next(s, Scan))
  {
    var w, t := s.world, Next(s, Scan);
    var g := s.worker.g;
    if Live(w, g) && g !in s.queue {
      assert OnCourse(w, s.worker, g);
      ScanTakes(w, s.worker);
    }
    hide QuietIn, Enabled, MatchingKeys, OrderlyIn, CanBeAdded, WouldTake, Keys;
    WorkerMoved(w, s.queue, t.queue, s.worker, t.worker, g);
  }

  lemma ScanTakes(w: World, worker: Worker)
    requires worker.Scanning? && worker.scan != []
    ensures var after := ScanOne(w, worker);
      Keys(after.matching) + WouldTake(w, worker.selector, after.scan)
      == Keys(worker.matching) + WouldTake(w, worker.selector, worker.scan)
  {
  }

  lemma EndQuiet(s: State, e: Step)
    requires Orderly(s) && Quiet(s) && Enabled(s, e)
    requires e.SettleEqual? || e.Finish? || e.Fail?
    ensures Quiet(Next(s, e))
  {
    var w, t := s.world, Next(s, e);
    var g := s.worker.g;
    if Live(w, g) && g !in s.queue {
      assert OnCourse(w, s.worker, g);
      if e.SettleEqual? {
        ListEquality.EqualIsPermutation(AsSlice(s.worker.matching), AsSlice(w.vgs[g].pvcList));
        assert WouldTake(w, s.worker.selector, []) == {};
      }
    }
    hide QuietIn, Enabled, MatchingKeys, OrderlyIn, WouldTake, Keys;
    WorkerMoved(w, s.queue, t.queue, s.worker, t.worker, g);
  }

  lemma ReportQuiet(s: State, e: Step)
    requires Quiet(s) && Enabled(s, e) && e.FailReporting?
    ensures Quiet(Next(s, e))
  {
  }

  lemma PushQuiet(s: State)
    requires Orderly(s) && Quiet(s) && Enabled(s, Push)
    ensures Quiet(Next(s, Push))
  {
    var w, t := s.world, Next(s, Push);
    var g, m := s.worker.g, s.worker.matching;
    assert Live(w, g) && g !in s.queue ==> OnCourse(w, s.worker, g);
    assert WouldTake(w, s.worker.selector, []) == {};
    PlanSynchronises(g, ContentKey(w, g), w.vgs[g].pvcList, m);
    hide OrderlyIn, WouldTake, Keys, Plan, Enabled;
    WorkerMoved(w, s.queue, s.queue, s.worker, t.worker, g);
    MembersChanged(w, t.world, s.queue, t.worker);
  }

  lemma MembersChanged(w: World, v: World, queue: set<Key>, worker: Worker)
    requires QuietIn(w, queue, worker) && worker.Writing?
    requires v == w.(members := v.members)
    ensures QuietIn(v, queue, worker)
  {
  }

  lemma WriteQuiet(s: State)
    requires Orderly(s) && Quiet(s) && Enabled(s, WriteNext)
    ensures Quiet(Next(s, WriteNext))
  {
    var w, v := s.world, Next(s, WriteNext).world;
    var g, todo := s.worker.g, s.worker.todo;
    forall h | Live(v, h) && h !in s.queue ensures OnCourse(v, Writing(g, todo[1..]), h) {
      WriteGroup(w, todo[0], h);
      WriteClaims(w, todo[0]);
      assert OnCourse(w, s.worker, h);
      WriteMatch(w, v, h);
      assert todo[0] in todo;
    }
  }

  lemma WriteGroup(w: World, x: Write, h: Key)
    requires h in Apply(w, x).vgs
    ensures h in w.vgs
    ensures Apply(w, x).vgs[h]
         == w.vgs[h].(pvcList := ListStep(w.vgs[h].pvcList, h, x), error := Apply(w, x).vgs[h].error)
    ensures Ours(Apply(w, x), h) == Ours(w, h)
  {
  }

  lemma WriteClaims(w: World, x: Write)
    ensures var v := Apply(w, x);
      && v.config == w.config && v.storageClasses == w.storageClasses && v.pvcs.Keys == w.pvcs.Keys
      && (forall l :: l in w.pvcs ==>
           v.pvcs[l] == w.pvcs[l].(finalizers := v.pvcs[l].finalizers, resourceVersion := v.pvcs[l].resourceVersion))
  {
  }

  lemma WriteMatch(w: World, v: World, h: Key)
    requires h in w.vgs && h in v.vgs && v.vgs[h].selector == w.vgs[h].selector
    requires v.config == w.config && v.storageClasses == w.storageClasses && v.pvcs.Keys == w.pvcs.Keys
    requires forall l :: l in w.pvcs ==>
        v.pvcs[l] == w.pvcs[l].(finalizers := v.pvcs[l].finalizers, resourceVersion := v.pvcs[l].resourceVersion)
    ensures MatchingKeys(v, h) == MatchingKeys(w, h)
  {
  }

  lemma RestartQuiet(s: State)
    ensures Quiet(Next(s, Restart))
  {
  }

  lemma SecretQuiet(s: State)
    requires Quiet(s) && Enabled(s, SecretMissing)
    ensures Quiet(Next(s, SecretMissing))
  {
    var w, t, g := s.world, Next(s, SecretMissing), s.worker.g;
    hide Enabled, MatchingKeys;
    GroupsChanged(w, t.world, s.queue, t.queue, s.worker);
    WorkerMoved(t.world, t.queue, t.queue, s.worker, Idle, g);
  }

  /** Every live group is queued or on course after a step exactly when the step makes no claim
      vanish that an unwatched group matches. */
  lemma QuietStep(s: State, e: Step)
    requires Orderly(s) && Quiet(s) && Enabled(s, e)
    ensures Quiet(Next(s, e)) <==> Watched(s, e)
  {
    hide OrderlyIn, QuietIn, Next, Enabled, VanishesUnmatched;
    match e
    case CreateClaim(_) => ClaimEditQuiet(s, e);
    case Relabel(_, _) => ClaimEditQuiet(s, e);
    case ChangePhase(_, _, _) => ClaimEditQuiet(s, e);
    case OtherFinalizers(_, _) => FinalizersQuiet(s, e);
    case ReleaseCheck(_) => FinalizersQuiet(s, e);
    case ReleaseWrite => FinalizersQuiet(s, e);
    case ReleaseStop => FinalizersQuiet(s, e);
    case DeleteClaim(_) => VanishStep(s, e);
    case DeleteRequest => VanishStep(s, e);
    case CreateGroup(_, _, _, _) => GroupEditQuiet(s, e);
    case Select(_, _) => GroupEditQuiet(s, e);
    case DeleteGroup(_) => GroupEditQuiet(s, e);
    case VanishGroup(_) => GroupEditQuiet(s, e);
    case RemoveGroup(_) => GroupEditQuiet(s, e);
    case Skip(_) => GroupEditQuiet(s, e);
    case Start(_) => BeginQuiet(s, e);
    case List(_) => BeginQuiet(s, e);
    case Scan => ScanQuiet(s);
    case SettleEqual => EndQuiet(s, e);
    case Finish => EndQuiet(s, e);
    case Fail => EndQuiet(s, e);
    case FailReporting(_) => ReportQuiet(s, e);
    case Restart => RestartQuiet(s);
    case SecretMissing => SecretQuiet(s);
    case Push => PushQuiet(s);
    case WriteNext => WriteQuiet(s);
  }

  // ---- runs ----

  ghost predicate QuietThroughout(s: State, steps: seq<Step>)
    requires Run(s, steps)
    decreases |steps|
  {
    Quiet(s) && (steps != [] ==> QuietThroughout(Next(s, steps[0]), steps[1..]))
  }

  ghost predicate WatchedRun(s: State, steps: seq<Step>)
    requires Run(s, steps)
    decreases |steps|
  {
    steps != [] ==> Watched(s, steps[0]) && WatchedRun(Next(s, steps[0]), steps[1..])
  }

  /** Over every run, protected or not: all live groups are queued or on course throughout exactly
      when no claim vanishes that an unwatched group matches. */
  lemma {:induction false} QuietExactlyWhenWatched(s: State, steps: seq<Step>)
    requires Orderly(s) && Quiet(s) && Run(s, steps)
    ensures QuietThroughout(s, steps) <==> WatchedRun(s, steps)
    decreases |steps|
  {
    if steps != [] {
      hide Orderly, Quiet, Watched, Enabled, Next;
      QuietStep(s, steps[0]);
      OrderlyStep(s, steps[0]);
      if Quiet(Next(s, steps[0])) {
        QuietExactlyWhenWatched(Next(s, steps[0]), steps[1..]);
      } else {
        assert !QuietThroughout(Next(s, steps[0]), steps[1..]);
      }
    }
  }

  /** Harmless steps make no matching claim vanish unnoticed. */
  lemma HarmlessIsWatched(s: State, e: Step)
    requires Guarded(s) && Quiet(s) && Enabled(s, e) && Harmless(s, e)
    ensures Watched(s, e)
  {
    if e.DeleteClaim? || e.DeleteRequest? {
      var k := if e.DeleteClaim? then e.k else s.releaser.k;
      hide GuardedIn, QuietIn, Vanishes, MatchingKeys, InFlightKeys;
      forall g | Vanishes(s.world.pvcs, k) && Unwatched(s, g) ensures k !in MatchingKeys(s.world, g) {
        if k in MatchingKeys(s.world, g) {
          VanishedWasOnItsWay(s, k, g);
        }
      }
    }
  }

  lemma {:induction false} HarmlessRunIsWatched(s: State, steps: seq<Step>)
    requires Guarded(s) && Quiet(s) && Run(s, steps) && HarmlessRun(s, steps)
    ensures WatchedRun(s, steps) && Guarded(Final(s, steps))
    decreases |steps|
  {
    if steps != [] {
      HarmlessIsWatched(s, steps[0]);
      GuardedStep(s, steps[0]);
      QuietStep(s, steps[0]);
      hide GuardedIn, QuietIn, Harmless, Watched, Enabled, Next;
      HarmlessRunIsWatched(Next(s, steps[0]), steps[1..]);
    }
  }

  ghost predicate OfDriver(w: World, vg: VG) {
    vg.className in w.vgClasses && w.vgClasses[vg.className] == w.config.driver
  }

  /** Every live group of the driver that is neither queued nor in process lists exactly the bound,
      driver-provisioned, non-static claims that its selector matches. */
  ghost predicate IdleSynchronised(s: State) {
    forall g :: g in s.world.vgs && OfDriver(s.world, s.world.vgs[g]) && !s.world.vgs[g].deleting
                && g !in s.queue && (s.worker.Idle? || s.worker.g != g) ==>
      forall k :: k in Keys(s.world.vgs[g].pvcList) <==> Meant(s.world, g, k)
  }

  lemma {:induction false} QuietAtTheEnd(s: State, steps: seq<Step>)
    requires Run(s, steps) && QuietThroughout(s, steps)
    ensures Quiet(Final(s, steps))
    decreases |steps|
  {
    if steps != [] {
      hide Quiet, Enabled, Next;
      QuietAtTheEnd(Next(s, steps[0]), steps[1..]);
    }
  }

  lemma QuietMeansSynchronised(s: State)
    requires Quiet(s)
    ensures IdleSynchronised(s)
  {
    assert forall g :: Live(s.world, g) && g !in s.queue ==> OnCourse(s.world, s.worker, g);
    hide MatchingKeys;
  }

  /** Over every run in which no claim vanishes that an unwatched group matches, an idle group is a
      synchronised group. */
  lemma WatchedMeansSynchronised(s: State, steps: seq<Step>)
    requires Orderly(s) && Quiet(s) && Run(s, steps) && WatchedRun(s, steps)
    ensures IdleSynchronised(Final(s, steps))
  {
    hide Run, Final, OrderlyIn, Quiet, WatchedRun, QuietThroughout, IdleSynchronised;
    QuietExactlyWhenWatched(s, steps);
    QuietAtTheEnd(s, steps);
    QuietMeansSynchronised(Final(s, steps));
  }

  /** Over every run whose steps do no harm to the protection, an idle group is a synchronised
      group although deletions wake nobody. */
  lemma IdleMeansSynchronised(s: State, steps: seq<Step>)
    requires Guarded(s) && Quiet(s) && Run(s, steps) && HarmlessRun(s, steps)
    ensures IdleSynchronised(Final(s, steps))
  {
    HarmlessRunIsWatched(s, steps);
    WatchedMeansSynchronised(s, steps);
  }
}
