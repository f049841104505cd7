/** The other controller looks whether a group lists the claim first, and removes the finalizer in
    a later request: what that can break, and exactly when. */
module ReleaseRace {
  import opened Kube
  import opened Cluster
  import opened GroupController
  import opened PlanEffect
  import opened Protection
  import opened Quiescence
  import opened Scenario
  import ListEquality

  // ---- which steps take a finalizer from a listed claim ----

  /** The late update of a release of the claim `k`. */
  predicate LateRelease(s: State, e: Step, k: Key) {
    e.ReleaseWrite? && s.releaser == Releasing(k)
  }

  lemma WriteKeepsFinalizer(w: World, x: Write, k: Key)
    requires Protected(w.pvcs, k) && Listed(w, k)
    ensures Protected(Apply(w, x).pvcs, k)
  {
    hide Listed;
    assert Apply(w, x).pvcs == ClaimsAfter(w, x);
  }

  /** In every state, of all steps of users, of the worker and of the other controller, exactly the
      late update of a release takes the finalizer from a claim that a group of the driver lists. */
  lemma OnlyLateReleasesTake(s: State, e: Step, k: Key)
    requires Enabled(s, e) && Protected(s.world.pvcs, k) && Listed(s.world, k)
    ensures !Protected(Next(s, e).world.pvcs, k) <==> LateRelease(s, e, k)
  {
    if e.ReleaseWrite? {
      RemoveAllRemoves(s.world.pvcs[s.releaser.k].finalizers, PVC_FINALIZER);
    } else {
      OthersKeepFinalizer(s, e, k);
      hide Enabled, Next;
    }
    hide Listed, CanBeAdded, IsListing, MustModify, Apply, Affected, RemoveAll;
  }

  lemma OthersKeepFinalizer(s: State, e: Step, k: Key)
    requires Enabled(s, e) && Protected(s.world.pvcs, k) && Listed(s.world, k) && !e.ReleaseWrite?
    ensures Protected(Next(s, e).world.pvcs, k)
  {
    if e.WriteNext? {
      WriteKeepsFinalizer(s.world, s.worker.todo[0], k);
    }
    hide Listed, CanBeAdded, IsListing, MustModify, Apply, Affected, RemoveAll;
  }

  // ---- who comes to list a claim ----

  /** The step puts the claim `k` in the list of a group of the driver. */
  ghost predicate Lists(s: State, e: Step, k: Key) {
    || (e.WriteNext? && s.worker.Writing? && s.worker.todo != [] && s.worker.todo[0].AppendClaim?
        && Ours(s.world, s.worker.todo[0].g) && KeyOf(s.worker.todo[0].p) == k)
    || (e.SecretMissing? && s.worker.Scanning? && Ours(s.world, s.worker.g) && k in Keys(s.worker.matching))
  }

  lemma WriteLists(w: World, x: Write, k: Key)
    requires !Listed(w, k)
    ensures Listed(Apply(w, x), k) <==> x.AppendClaim? && Ours(w, x.g) && KeyOf(x.p) == k
  {
    var v := Apply(w, x);
    assert v.vgs == GroupsAfter(w.vgs, x);
    assert forall g :: Ours(v, g) == Ours(w, g);
    if x.AppendClaim? && x.g in w.vgs {
      AppendKeys(w.vgs[x.g].pvcList, x.p);
      assert Ours(w, x.g) ==> (k in Keys(v.vgs[x.g].pvcList) <==> KeyOf(x.p) == k);
    } else if x.DropPVC? && x.g in w.vgs {
      RemoveKeySubset(w.vgs[x.g].pvcList, x.k);
    }
    hide Apply, RemoveKey, AppendPVC, Keys;
  }

  lemma SecretLists(w: World, g: Key, matching: seq<PVC>, k: Key)
    requires !Listed(w, k) && g in w.vgs
    ensures Listed(Reported(w, g, matching, ERROR), k) <==> Ours(w, g) && k in Keys(matching)
  {
    var v := Reported(w, g, matching, ERROR);
    assert forall h :: Ours(v, h) == Ours(w, h);
    assert Ours(w, g) ==> v.vgs[g].pvcList == matching;
    hide Keys;
  }

  lemma ReportLists(w: World, g: Key, list: seq<PVC>, k: Key)
    requires g in w.vgs && multiset(list) == multiset(w.vgs[g].pvcList)
    ensures Listed(Reported(w, g, list, ERROR), k) ==> Listed(w, k)
  {
    ListEquality.PermutationKeys(list, w.vgs[g].pvcList);
    assert forall h :: Ours(Reported(w, g, list, ERROR), h) == Ours(w, h);
    hide Keys;
  }

  /** An unlisted claim is listed after a step exactly when that step lists it. */
  lemma ComesToBeListed(s: State, e: Step, k: Key)
    requires Enabled(s, e) && !Listed(s.world, k)
    ensures Listed(Next(s, e).world, k) <==> Lists(s, e, k)
  {
    if e.WriteNext? {
      WriteLists(s.world, s.worker.todo[0], k);
      hide Listed, Apply;
    } else if e.SecretMissing? {
      SecretLists(s.world, s.worker.g, s.worker.matching, k);
      hide Listed, Reported;
    } else if e.FailReporting? {
      ReportLists(s.world, s.worker.g, e.list, k);
      hide Listed, Reported;
    } else {
      assert Keys([]) == {};
      hide Keys, CanBeAdded, IsListing, MustModify, Removable, Affected, Apply;
    }
  }

  ghost predicate NobodyLists(s: State, steps: seq<Step>, k: Key)
    requires Run(s, steps)
    decreases |steps|
  {
    steps != [] ==> !Lists(s, steps[0], k) && NobodyLists(Next(s, steps[0]), steps[1..], k)
  }

  /** Whatever happens between the check and the update of a release: unless some group has come
      to list the claim in between, the update takes the finalizer from no listed claim. */
  lemma {:induction false} UnlistedUnlessListedSince(s: State, steps: seq<Step>, k: Key)
    requires Run(s, steps) && !Listed(s.world, k) && NobodyLists(s, steps, k)
    ensures !Listed(Final(s, steps).world, k)
    decreases |steps|
  {
    if steps != [] {
      hide Listed, Lists, Enabled, Next;
      ComesToBeListed(s, steps[0], k);
      UnlistedUnlessListedSince(Next(s, steps[0]), steps[1..], k);
    }
  }

  /** The check goes on to the update exactly when the claim has the finalizer and no group of the
      driver lists it. */
  lemma ChecksBeforeReleasing(s: State, k: Key)
    requires Enabled(s, ReleaseCheck(k))
    ensures Next(s, ReleaseCheck(k)).releaser == Releasing(k) <==>
      && PVC_FINALIZER in s.world.pvcs[k].finalizers
      && forall g, p :: Ours(s.world, g) && p in s.world.vgs[g].pvcList ==>
           p.namespace != k.namespace || p.name != k.name
  {
    if g, p :| Ours(s.world, g) && p in s.world.vgs[g].pvcList && p.namespace == k.namespace && p.name == k.name {
      assert KeyOf(p) in Keys(s.world.vgs[g].pvcList);
    }
  }

  /** From the check to the update: whatever happens in between, the update takes the finalizer from
      a listed claim only if some step has listed the claim since the check. */
  lemma ReleasesOnlyWhatWasUnlisted(s: State, k: Key, steps: seq<Step>)
    requires Enabled(s, ReleaseCheck(k))
    requires var t := Next(s, ReleaseCheck(k)); t.releaser == Releasing(k) && Run(t, steps) && NobodyLists(t, steps, k)
    ensures !Listed(Final(Next(s, ReleaseCheck(k)), steps).world, k)
  {
    ChecksBeforeReleasing(s, k);
    var t := Next(s, ReleaseCheck(k));
    assert t.world == s.world && !Listed(t.world, k);
    UnlistedUnlessListedSince(t, steps, k);
  }

  /** Undisturbed, a claim that has the finalizer and that no group lists is released and deleted: it
      is gone if it has no other finalizer, and otherwise it has lost the operator's and no other. */
  lemma UnlistedClaimIsReleased(s: State, k: Key)
    requires s.releaser.Resting? && Protected(s.world.pvcs, k) && !Listed(s.world, k)
    ensures var steps := [ReleaseCheck(k), ReleaseWrite, DeleteRequest];
      && Run(s, steps)
      && var v := Final(s, steps).world;
      && (k in v.pvcs <==> exists f :: f in s.world.pvcs[k].finalizers && f != PVC_FINALIZER)
      && (k in v.pvcs ==> Freed(s.world.pvcs[k], v.pvcs[k]))
  {
    var a, b := Checked(s, k), Updated(s, k);
    ReleaseSteps(s, k);
    GoneOrFreed(s.world.pvcs, k);
    ReachesOne(s, ReleaseCheck(k));
    hide Next, Enabled, Listed, Checked, Updated, Freed;
    ReachesOneMore(s, [ReleaseCheck(k)], a, ReleaseWrite);
    ReachesOneMore(s, [ReleaseCheck(k)] + [ReleaseWrite], b, DeleteRequest);
    assert [ReleaseCheck(k)] + [ReleaseWrite] + [DeleteRequest] == [ReleaseCheck(k), ReleaseWrite, DeleteRequest];
  }

  ghost function Checked(s: State, k: Key): State {
    s.(releaser := Releasing(k))
  }

  ghost function Updated(s: State, k: Key): State
    requires k in s.world.pvcs
  {
    s.(world := s.world.(pvcs := Strip(s.world.pvcs, k)), releaser := Deleting(k))
  }

  lemma ReleaseSteps(s: State, k: Key)
    requires s.releaser.Resting? && Protected(s.world.pvcs, k) && !Listed(s.world, k)
    ensures Enabled(s, ReleaseCheck(k)) && Next(s, ReleaseCheck(k)) == Checked(s, k)
    ensures Enabled(Checked(s, k), ReleaseWrite) && Next(Checked(s, k), ReleaseWrite) == Updated(s, k)
    ensures var u := Updated(s, k);
      Enabled(u, DeleteRequest) && Next(u, DeleteRequest).world.pvcs == AfterDelete(Strip(s.world.pvcs, k), k)
  {
    hide Listed, Strip;
  }

  lemma GoneOrFreed(pvcs: map<Key, PVC>, k: Key)
    requires k in pvcs
    ensures var v := AfterDelete(Strip(pvcs, k), k);
      && (k in v <==> exists f :: f in pvcs[k].finalizers && f != PVC_FINALIZER)
      && (k in v ==> Freed(pvcs[k], v[k]))
  {
    StripFrees(pvcs, k);
    LeftOver(pvcs[k], Strip(pvcs, k)[k]);
    hide Strip, Freed;
  }

  lemma LeftOver(p: PVC, q: PVC)
    requires Freed(p, q)
    ensures q.finalizers == [] <==> forall f :: f in p.finalizers ==> f == PVC_FINALIZER
  {
    if q.finalizers != [] {
      var f := q.finalizers[0];
      assert f in q.finalizers && multiset(q.finalizers)[f] > 0;
      assert f != PVC_FINALIZER && multiset(p.finalizers)[f] > 0;
      assert f in p.finalizers;
    } else {
      forall f | f in p.finalizers ensures f == PVC_FINALIZER {
        assert multiset(p.finalizers)[f] > 0 && multiset(q.finalizers)[f] == 0;
      }
    }
  }

  // ---- the run ----

  /** The claim was protected for a group that is gone; the other controller is to delete it. */
  function Kept(): PVC {
    Claim(IN, [PVC_FINALIZER], 1)
  }

  function Finishing(): seq<Step> {
    [WriteNext, WriteNext, WriteNext, Finish]
  }

  ghost function Added(volumes: seq<string>, todo: seq<Write>): State {
    State(W(map[K := Kept()], [Kept()], volumes, ["volume"], ""), {}, Writing(G, todo), Releasing(K))
  }

  ghost const DONE := State(W(map[K := Kept()], [Kept()], ["pv"], ["volume"], ""), {}, Idle, Releasing(K))

  lemma Checks()
    ensures var w := W(map[K := Kept()], [], [], [], "");
      Enabled(Queued(w, Resting), ReleaseCheck(K))
          && Next(Queued(w, Resting), ReleaseCheck(K)) == Queued(w, Releasing(K))
  {
    assert Keys([]) == {};
  }

  lemma AddsTheVolume()
    ensures var s := Added([], Adding(Kept())[1..]);
      Enabled(s, WriteNext) && Next(s, WriteNext) == Added(["pv"], Adding(Kept())[2..])
  {
    var w := Added([], []).world;
    assert [] + ["pv"] == ["pv"];
    assert w.vgcs[C := VGC("id", ["pv"])] == map[C := VGC("id", ["pv"])];
    assert Adding(Kept())[1..][1..] == Adding(Kept())[2..];
  }

  /** The copy has the finalizer already, so none is written. */
  lemma NeedsNoFinalizer()
    ensures var s := Added(["pv"], Adding(Kept())[2..]);
      Enabled(s, WriteNext) && Next(s, WriteNext) == Added(["pv"], Adding(Kept())[3..])
  {
    assert Adding(Kept())[2..][1..] == Adding(Kept())[3..];
  }

  lemma ClearsAndFinishes()
    ensures var s := Added(["pv"], Adding(Kept())[3..]);
      && Enabled(s, WriteNext) && Next(s, WriteNext) == Added(["pv"], [])
      && Enabled(Added(["pv"], []), Finish) && Next(Added(["pv"], []), Finish) == DONE
  {
    var w := Added(["pv"], []).world;
    assert Adding(Kept())[3..][1..] == [];
    assert w.vgs[G := w.vgs[G]] == w.vgs;
  }

  lemma FinishesAdding()
    ensures Reaches(HalfWay(Kept(), Releasing(K)), Finishing(), DONE)
  {
    AddsTheVolume();
    NeedsNoFinalizer();
    ClearsAndFinishes();
    var s := HalfWay(Kept(), Releasing(K));
    assert s == Added([], Adding(Kept())[1..]);
    hide Enabled, Next, Reaches, W, HalfWay, Added;
    ReachesOne(s, WriteNext);
    ReachesOneMore(s, [WriteNext], Added(["pv"], Adding(Kept())[2..]), WriteNext);
    ReachesOneMore(s, [WriteNext] + [WriteNext], Added(["pv"], Adding(Kept())[3..]), WriteNext);
    ReachesOneMore(s, [WriteNext] + [WriteNext] + [WriteNext], Added(["pv"], []), Finish);
    assert [WriteNext] + [WriteNext] + [WriteNext] + [Finish] == Finishing();
  }

  lemma UpToTheRelease()
    ensures Calmly(Queued(W(map[K := Kept()], [], [], [], ""), Resting),
        [ReleaseCheck(K)] + HalfAdding(Kept()) + Finishing(), DONE)
  {
    var s := Queued(W(map[K := Kept()], [], [], [], ""), Resting);
    var u := Queued(W(map[K := Kept()], [], [], [], ""), Releasing(K));
    var a := [ReleaseCheck(K)] + HalfAdding(Kept()) + Finishing();
    assert forall e :: e in a ==> Tame(e);
    Checks();
    HalfAdds(Kept(), Releasing(K));
    FinishesAdding();
    hide Enabled, Next, Reaches, W, HalfAdding, HalfWay, Finishing, Tame;
    ReachesOne(s, ReleaseCheck(K));
    ReachesMore(s, [ReleaseCheck(K)], u, HalfAdding(Kept()), HalfWay(Kept(), Releasing(K)));
    ReachesMore(s, [ReleaseCheck(K)] + HalfAdding(Kept()), HalfWay(Kept(), Releasing(K)), Finishing(), DONE);
    TameIsHarmless(s, a, DONE);
  }

  lemma TheReleaseHarms()
    ensures !Harmless(DONE, ReleaseWrite)
  {
    var w := DONE.world;
    assert Kept() in [Kept()] && K in Keys([Kept()]);
    assert Protected(w.pvcs, K) && Ours(w, G) && K in Keys(w.vgs[G].pvcList) && !IsNext(Idle, G, K);
    assert !StripHarmless(w, Idle, K);
    hide StripHarmless, W;
  }

  ghost const STRIPPED :=
    State(W(map[K := Claim(IN, [], 2)], [Kept()], ["pv"], ["volume"], ""), {}, Idle, Deleting(K))

  lemma TheRelease()
    ensures Enabled(DONE, ReleaseWrite) && Next(DONE, ReleaseWrite) == STRIPPED
  {
    assert RemoveAll([PVC_FINALIZER], PVC_FINALIZER) == [] by {
      assert [PVC_FINALIZER][..0] == [] && RemoveAll([], PVC_FINALIZER) == [];
    }
    assert map[K := Kept()][K := Claim(IN, [], 2)] == map[K := Claim(IN, [], 2)];
  }

  ghost const LOST := State(W(map[], [Kept()], ["pv"], ["volume"], ""), {}, Idle, Resting)

  lemma TheDeletion()
    ensures Enabled(STRIPPED, DeleteRequest) && Next(STRIPPED, DeleteRequest) == LOST
        && Harmless(STRIPPED, DeleteRequest)
  {
    assert map[K := Claim(IN, [], 2)] - {K} == map[];
  }

  lemma AfterTheRelease()
    ensures Calmly(STRIPPED, [DeleteRequest], LOST) && Stale(LOST)
  {
    TheDeletion();
    ListsWhatIsGone(Kept(), ["pv"], ["volume"], "", Resting);
    hide Enabled, Next, Harmless, W, Stale;
    CalmlyOne(STRIPPED, DeleteRequest);
  }

  /** A run from an idle state whose only harmful step is one late update of a release: a group
      comes to list the claim between the check and the update, and ends with a claim that is
      gone in its list. */
  lemma ReleaseTakesFromListed()
    ensures exists s, a, u, b, t :: OneHarmfulStep(s, a, u, ReleaseWrite, b, t)
  {
    var s := Queued(W(map[K := Kept()], [], [], [], ""), Resting);
    var a, b := [ReleaseCheck(K)] + HalfAdding(Kept()) + Finishing(), [DeleteRequest];
    hide Guarded, Quiet, Calmly, Enabled, Next, Harmless, Stale, W, HalfAdding, Finishing;
    StartIsGuarded(Kept(), Resting);
    UpToTheRelease();
    TheReleaseHarms();
    TheRelease();
    AfterTheRelease();
    assert OneHarmfulStep(s, a, DONE, ReleaseWrite, b, LOST);
  }
}
