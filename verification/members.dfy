/** When the backend has the volumes an idle group lists, and no others. */
module Members {
  import opened Kube
  import opened Cluster
  import opened MembershipPlan
  import opened Agreement
  import opened GroupController
  import opened Protection
  import opened Quiescence

  /** The handles of the volumes a list names. */
  function Handles(w: World, list: seq<PVC>): set<string> {
    set v | v in VolumeNames(list) && v in w.pvs :: w.pvs[v]
  }

  /** The backend group of `g`, if there is one, has exactly the volumes of the list. */
  predicate Told(w: World, g: Key, list: seq<PVC>)
    requires g in w.vgs
  {
    var c := ContentKey(w, g);
    c in w.vgcs && w.vgcs[c].handle in w.members ==> ToSet(w.members[w.vgcs[c].handle]) == Handles(w, list)
  }

  /** No two groups share a backend group. */
  ghost predicate Separate(w: World) {
    forall g, h :: g in w.vgs && h in w.vgs && g != h && ContentKey(w, g) in w.vgcs && ContentKey(w, h) in w.vgcs ==>
      w.vgcs[ContentKey(w, g)].handle != w.vgcs[ContentKey(w, h)].handle
  }

  /** The backend has what the list of `g` will hold when the worker is done. */
  ghost predicate OnRecord(w: World, worker: Worker, g: Key)
    requires g in w.vgs
  {
    var list := w.vgs[g].pvcList;
    if worker.Idle? || worker.g != g then Told(w, g, list)
    else worker.Writing? ==> Told(w, g, ListAfter(list, g, worker.todo))
  }

  ghost predicate RecordedIn(w: World, queue: set<Key>, worker: Worker) {
    forall g :: Live(w, g) && g !in queue ==> OnRecord(w, worker, g)
  }

  ghost predicate Recorded(s: State) {
    RecordedIn(s.world, s.queue, s.worker)
  }

  /** What the step may assume of users and the binder: a new group shares no content, and when
      members are told, claims and volumes are bound one to one. */
  ghost predicate Proper(s: State, e: Step) {
    && (e.CreateGroup? && Enabled(s, e) ==> Separate(Next(s, e).world))
    && (e.Push? && s.worker.Scanning? && s.worker.g in s.world.vgs ==>
          BoundOneToOne(s.world.vgs[s.worker.g].pvcList, s.worker.matching))
  }

  /** A reconcile that finds the lists equal does so with the backend in agreement. */
  ghost predicate Informed(s: State, e: Step) {
    e.SettleEqual? && s.worker.Scanning? && Live(s.world, s.worker.g) && s.worker.g !in s.queue ==>
      Told(s.world, s.worker.g, s.world.vgs[s.worker.g].pvcList)
  }

  // ---- frames ----

  /** Claims and queues do not matter, as long as no group leaves the queue. */
  lemma ClaimsRecorded(w: World, v: World, queue: set<Key>, queue': set<Key>, worker: Worker)
    requires RecordedIn(w, queue, worker) && queue <= queue' && v == w.(pvcs := v.pvcs)
    ensures RecordedIn(v, queue', worker)
  {
    assert forall g :: Live(v, g) == Live(w, g);
    forall g | Live(v, g) && g !in queue' ensures OnRecord(v, worker, g) {
      assert OnRecord(w, worker, g);
    }
  }

  lemma GroupsRecorded(w: World, v: World, queue: set<Key>, queue': set<Key>, worker: Worker)
    requires RecordedIn(w, queue, worker) && v == w.(vgs := v.vgs)
    requires forall g :: Live(v, g) && g !in queue' ==>
      Live(w, g) && g !in queue && v.vgs[g].pvcList == w.vgs[g].pvcList && v.vgs[g].content == w.vgs[g].content
    ensures RecordedIn(v, queue', worker)
  {
    forall g | Live(v, g) && g !in queue' ensures OnRecord(v, worker, g) {
      assert OnRecord(w, worker, g);
    }
  }

  lemma WorkerRecorded(w: World, queue: set<Key>, queue': set<Key>, worker: Worker, worker': Worker, g: Key)
    requires RecordedIn(w, queue, worker)
    requires forall h :: h in queue && h != g ==> h in queue'
    requires (worker.Idle? || worker.g == g) && (worker'.Idle? || worker'.g == g)
    ensures RecordedIn(w, queue', worker') <==> (Live(w, g) && g !in queue' ==> OnRecord(w, worker', g))
  {
    forall h | Live(w, h) && h !in queue' && h != g ensures OnRecord(w, worker', h) {
      assert OnRecord(w, worker, h);
    }
  }

  // ---- steps ----

  lemma ClaimStep(s: State, e: Step)
    requires Recorded(s) && Enabled(s, e)
    requires e.CreateClaim? || e.Relabel? || e.ChangePhase? || e.OtherFinalizers? || e.DeleteClaim?
          || e.ReleaseCheck? || e.ReleaseWrite? || e.DeleteRequest? || e.ReleaseStop?
    ensures Recorded(Next(s, e))
  {
    hide RecordedIn, Removable, Affected;
    ClaimsRecorded(s.world, Next(s, e).world, s.queue, Next(s, e).queue, s.worker);
  }

  lemma GroupStep(s: State, e: Step)
    requires Recorded(s) && Enabled(s, e)
    requires e.CreateGroup? || e.Select? || e.DeleteGroup? || e.VanishGroup? || e.RemoveGroup? || e.Skip?
    ensures Recorded(Next(s, e))
  {
    var w, v, queue := s.world, Next(s, e).world, Next(s, e).queue;
    assert forall g :: Live(v, g) && g !in queue ==> Live(w, g) && g !in s.queue && v.vgs[g] == w.vgs[g];
    hide RecordedIn, Enabled, Live;
    GroupsRecorded(w, v, s.queue, queue, s.worker);
  }

  lemma BeginStep(s: State, e: Step)
    requires Recorded(s) && Enabled(s, e) && (e.Start? || e.List? || e.Scan?)
    ensures Recorded(Next(s, e))
  {
    var t := Next(s, e);
    assert t.world == s.world && (t.worker.Started? || t.worker.Scanning?);
    hide RecordedIn, Enabled, Next, Told;
    WorkerRecorded(s.world, s.queue, t.queue, s.worker, t.worker, t.worker.g);
  }

  lemma EndStep(s: State, e: Step)
    requires Recorded(s) && Orderly(s) && Enabled(s, e) && (e.SettleEqual? || e.Finish? || e.Fail?)
    ensures Recorded(Next(s, e)) <==> Informed(s, e)
  {
    var t, g := Next(s, e), s.worker.g;
    if e.Finish? && Live(s.world, g) && g !in s.queue {
      assert OnRecord(s.world, s.worker, g);
    }
    hide RecordedIn, Enabled, MustModify, Told;
    WorkerRecorded(s.world, s.queue, t.queue, s.worker, t.worker, g);
  }

  lemma ReportStep(s: State, e: Step)
    requires Recorded(s) && Enabled(s, e) && (e.FailReporting? || e.SecretMissing?)
    ensures Recorded(Next(s, e))
  {
    var w, t, g := s.world, Next(s, e), s.worker.g;
    hide Enabled, Told;
    GroupsRecorded(w, t.world, s.queue, t.queue, s.worker);
    WorkerRecorded(t.world, t.queue, t.queue, s.worker, Idle, g);
  }

  /** What the driver was told is what the whole plan will list. */
  lemma ToldThePlan(w: World, g: Key, c: Key, matching: seq<PVC>)
    requires g in w.vgs && ContentKey(w, g) == c && c in w.vgcs && VolumeIds(w, matching).Some?
    requires UniqueKeys(w.vgs[g].pvcList) && UniqueKeys(matching) && BoundOneToOne(w.vgs[g].pvcList, matching)
    ensures var list := w.vgs[g].pvcList;
      Told(Agreement.Push(w, c, VolumeIds(w, matching).value), g, ListAfter(list, g, Plan(g, c, list, matching)))
  {
    var list := w.vgs[g].pvcList;
    PlanSynchronises(g, c, list, matching);
    SynchronisedVolumes(list, matching);
    VolumeIdsMeaning(w, matching);
    hide Plan, ListAfter;
  }

  lemma OthersNotTold(w: World, g: Key, c: Key, ids: seq<string>, h: Key, list: seq<PVC>)
    requires Separate(w) && g in w.vgs && h in w.vgs && g != h && ContentKey(w, g) == c && c in w.vgcs
    requires Told(w, h, list)
    ensures Told(Agreement.Push(w, c, ids), h, list)
  {
  }

  lemma PushStep(s: State)
    requires Recorded(s) && Orderly(s) && Separate(s.world) && Enabled(s, GroupController.Push)
        && Proper(s, GroupController.Push)
    ensures Recorded(Next(s, GroupController.Push))
  {
    var w, g, m := s.world, s.worker.g, s.worker.matching;
    var c := ContentKey(w, g);
    var v := Agreement.Push(w, c, VolumeIds(w, m).value);
    assert Next(s, GroupController.Push) == s.(world := v, worker := Writing(g, Plan(g, c, w.vgs[g].pvcList, m)));
    ToldThePlan(w, g, c, m);
    forall h | Live(w, h) && h !in s.queue && h != g ensures Told(v, h, w.vgs[h].pvcList) {
      assert OnRecord(w, s.worker, h);
      OthersNotTold(w, g, c, VolumeIds(w, m).value, h, w.vgs[h].pvcList);
    }
    hide Enabled, Next, Plan, ListAfter, Told, UniqueKeys, BoundOneToOne, Separate, VolumeIds;
  }

  lemma WriteStep(s: State)
    requires Recorded(s) && Orderly(s) && Enabled(s, WriteNext)
    ensures Recorded(Next(s, WriteNext))
  {
    var w, g, todo := s.world, s.worker.g, s.worker.todo;
    var v := Apply(w, todo[0]);
    assert Next(s, WriteNext) == s.(world := v, worker := Writing(g, todo[1..]));
    hide Enabled, Next, UniqueKeys, Structured;
    forall h | Live(v, h) && h !in s.queue ensures OnRecord(v, Writing(g, todo[1..]), h) {
      WriteGroup(w, todo[0], h);
      assert OnRecord(w, s.worker, h) && todo[0] in todo;
      ToldAfterWrite(w, todo[0], h, if h == g then ListAfter(w.vgs[h].pvcList, h, todo) else w.vgs[h].pvcList);
    }
  }

  lemma ToldAfterWrite(w: World, x: Write, h: Key, list: seq<PVC>)
    requires h in w.vgs
    ensures h in Apply(w, x).vgs && (Told(Apply(w, x), h, list) <==> Told(w, h, list))
  {
    var v := Apply(w, x);
    assert v.vgs == GroupsAfter(w.vgs, x) && v.vgcs == ContentsAfter(w.vgcs, x);
    assert v.vgs[h].content == w.vgs[h].content && v.members == w.members && v.pvs == w.pvs;
    assert v.vgcs.Keys == w.vgcs.Keys && forall c :: c in w.vgcs ==> v.vgcs[c].handle == w.vgcs[c].handle;
    hide Apply;
  }

  /** The record is kept by a step exactly when it settles nothing uninformed. */
  lemma RecordedStep(s: State, e: Step)
    requires Recorded(s) && Orderly(s) && Separate(s.world) && Enabled(s, e) && Proper(s, e)
    ensures Recorded(Next(s, e)) <==> Informed(s, e)
  {
    hide RecordedIn, Next, Enabled, OrderlyIn, Separate, Told;
    match e
    case CreateClaim(_) => ClaimStep(s, e);
    case Relabel(_, _) => ClaimStep(s, e);
    case ChangePhase(_, _, _) => ClaimStep(s, e);
    case OtherFinalizers(_, _) => ClaimStep(s, e);
    case DeleteClaim(_) => ClaimStep(s, e);
    case ReleaseCheck(_) => ClaimStep(s, e);
    case ReleaseWrite => ClaimStep(s, e);
    case DeleteRequest => ClaimStep(s, e);
    case ReleaseStop => ClaimStep(s, e);
    case CreateGroup(_, _, _, _) => GroupStep(s, e);
    case Select(_, _) => GroupStep(s, e);
    case DeleteGroup(_) => GroupStep(s, e);
    case VanishGroup(_) => GroupStep(s, e);
    case RemoveGroup(_) => GroupStep(s, e);
    case Skip(_) => GroupStep(s, e);
    case Start(_) => BeginStep(s, e);
    case List(_) => BeginStep(s, e);
    case Scan => BeginStep(s, e);
    case SettleEqual => EndStep(s, e);
    case Finish => EndStep(s, e);
    case Fail => EndStep(s, e);
    case FailReporting(_) => ReportStep(s, e);
    case SecretMissing => ReportStep(s, e);
    case Restart => RestartStep(s);
    case Push => PushStep(s);
    case WriteNext => WriteStep(s);
  }

  lemma RestartStep(s: State)
    ensures Recorded(Next(s, Restart))
  {
  }

  lemma SeparateStep(s: State, e: Step)
    requires Separate(s.world) && Enabled(s, e) && Proper(s, e)
    ensures Separate(Next(s, e).world)
  {
    if !e.CreateGroup? {
      var w, v := s.world, Next(s, e).world;
      ContentsStay(s, e);
      assert forall g :: g in v.vgs ==> ContentKey(v, g) == ContentKey(w, g);
      hide Enabled, Next;
    }
  }

  ghost predicate SameContents(w: World, v: World) {
    && (forall g :: g in v.vgs ==> g in w.vgs && v.vgs[g].content == w.vgs[g].content)
    && v.vgcs.Keys == w.vgcs.Keys && (forall c :: c in w.vgcs ==> v.vgcs[c].handle == w.vgcs[c].handle)
  }

  lemma WriteKeepsContents(w: World, x: Write)
    ensures SameContents(w, Apply(w, x))
  {
    assert Apply(w, x).vgs == GroupsAfter(w.vgs, x) && Apply(w, x).vgcs == ContentsAfter(w.vgcs, x);
    hide Apply;
  }

  lemma ContentsStay(s: State, e: Step)
    requires Enabled(s, e) && !e.CreateGroup?
    ensures SameContents(s.world, Next(s, e).world)
  {
    if e.WriteNext? {
      WriteKeepsContents(s.world, s.worker.todo[0]);
      hide SameContents;
    }
    hide CanBeAdded, IsListing, MustModify, Removable, Affected, Apply;
  }

  // ---- runs ----

  ghost predicate ProperRun(s: State, steps: seq<Step>)
    requires Run(s, steps)
    decreases |steps|
  {
    steps != [] ==> Proper(s, steps[0]) && ProperRun(Next(s, steps[0]), steps[1..])
  }

  ghost predicate RecordedThroughout(s: State, steps: seq<Step>)
    requires Run(s, steps)
    decreases |steps|
  {
    Recorded(s) && (steps != [] ==> RecordedThroughout(Next(s, steps[0]), steps[1..]))
  }

  ghost predicate InformedRun(s: State, steps: seq<Step>)
    requires Run(s, steps)
    decreases |steps|
  {
    steps != [] ==> Informed(s, steps[0]) && InformedRun(Next(s, steps[0]), steps[1..])
  }

  /** Over every run: the backend has exactly the volumes every idle group lists, throughout, exactly
      when no reconcile takes equal lists for the truth while the backend has other members. */
  lemma {:induction false} RecordedExactlyWhenInformed(s: State, steps: seq<Step>)
    requires Recorded(s) && Orderly(s) && Separate(s.world) && Run(s, steps) && ProperRun(s, steps)
    ensures RecordedThroughout(s, steps) <==> InformedRun(s, steps)
    decreases |steps|
  {
    if steps != [] {
      hide Recorded, Orderly, Separate, Proper, Informed, Enabled, Next;
      RecordedStep(s, steps[0]);
      OrderlyStep(s, steps[0]);
      SeparateStep(s, steps[0]);
      if Recorded(Next(s, steps[0])) {
        RecordedExactlyWhenInformed(Next(s, steps[0]), steps[1..]);
      } else {
        assert !RecordedThroughout(Next(s, steps[0]), steps[1..]);
      }
    }
  }
}
