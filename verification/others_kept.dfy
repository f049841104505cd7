/** What the operator does to the finalizers of others: when it adds or takes its own, all others
    stay, unless it writes back the list of a copy that is no longer current. */
module OthersKept {
  import opened Kube
  import opened Cluster
  import opened GroupController
  import opened PlanEffect

  /** Every finalizer but the operator's is there as often as before. */
  ghost predicate SameOthers(p: PVC, q: PVC) {
    forall f :: f != PVC_FINALIZER ==> multiset(q.finalizers)[f] == multiset(p.finalizers)[f]
  }

  /** Users and the binder. */
  predicate ByUsers(e: Step) {
    e.CreateClaim? || e.Relabel? || e.ChangePhase? || e.OtherFinalizers? || e.DeleteClaim?
  }

  /** The step adds the finalizer to the claim `k`, from a copy that has other finalizers than the
      stored claim. */
  ghost predicate Overwrites(s: State, e: Step, k: Key)
    requires k in s.world.pvcs
  {
    && e.WriteNext? && s.worker.Writing? && s.worker.todo != [] && s.worker.todo[0].AddFinalizer?
    && KeyOf(s.worker.todo[0].p) == k && PVC_FINALIZER !in s.worker.todo[0].p.finalizers
    && !SameOthers(s.world.pvcs[k], s.worker.todo[0].p)
  }

  lemma WriteKeepsOthers(w: World, x: Write, k: Key)
    requires k in w.pvcs && !x.AddFinalizer?
    ensures var v := Apply(w, x);
      k in v.pvcs && SameOthers(w.pvcs[k], v.pvcs[k]) && SameButFinalizers(w.pvcs[k], v.pvcs[k])
  {
    assert Apply(w, x).pvcs == ClaimsAfter(w, x);
    if x.DropFinalizer? && Removable(w, x.k) {
      StripFrees(w.pvcs, x.k);
    }
    hide Apply, Removable, Strip;
  }

  lemma OneMoreKeepsOthers(p: PVC, finalizers: seq<string>, q: PVC)
    requires q.finalizers == finalizers + [PVC_FINALIZER]
    ensures SameOthers(p, q) <==> SameOthers(p, p.(finalizers := finalizers))
  {
    assert forall f :: f != PVC_FINALIZER ==> multiset(q.finalizers)[f] == multiset(finalizers)[f];
  }

  lemma AdditionKeepsOthers(w: World, p: PVC, k: Key)
    requires k in w.pvcs
    ensures var v := Apply(w, AddFinalizer(p));
      && k in v.pvcs && SameButFinalizers(w.pvcs[k], v.pvcs[k])
      && (SameOthers(w.pvcs[k], v.pvcs[k]) <==>
            KeyOf(p) != k || PVC_FINALIZER in p.finalizers || SameOthers(w.pvcs[k], p))
  {
    var v := Apply(w, AddFinalizer(p));
    assert v.pvcs == Protect(w.pvcs, p);
    hide Apply;
    if KeyOf(p) == k && PVC_FINALIZER !in p.finalizers {
      OneMoreKeepsOthers(w.pvcs[k], p.finalizers, v.pvcs[k]);
    } else {
      assert v.pvcs[k] == w.pvcs[k];
    }
  }

  /** Of all steps but those of users, exactly the addition from a stale copy changes the finalizers
      of others, and none changes anything else of a claim that stays. */
  lemma OnlyStaleCopiesOverwrite(s: State, e: Step, k: Key)
    requires Enabled(s, e) && !ByUsers(e) && k in s.world.pvcs && k in Next(s, e).world.pvcs
    ensures SameOthers(s.world.pvcs[k], Next(s, e).world.pvcs[k]) <==> !Overwrites(s, e, k)
    ensures SameButFinalizers(s.world.pvcs[k], Next(s, e).world.pvcs[k])
  {
    if e.WriteNext? {
      WriteStep(s, k);
      hide Enabled, Next;
    } else if e.ReleaseWrite? {
      ReleaseTakesOne(s, k);
      hide Enabled, Next;
    } else {
      OtherStepsLeaveClaims(s, e, k);
      hide Enabled, Next;
    }
    hide SameButFinalizers;
  }

  lemma OtherStepsLeaveClaims(s: State, e: Step, k: Key)
    requires Enabled(s, e) && !ByUsers(e) && !e.WriteNext? && !e.ReleaseWrite?
    requires k in s.world.pvcs && k in Next(s, e).world.pvcs
    ensures Next(s, e).world.pvcs[k] == s.world.pvcs[k]
  {
    hide Removable, CanBeAdded, IsListing, MustModify;
  }

  lemma WriteStep(s: State, k: Key)
    requires Enabled(s, WriteNext) && k in s.world.pvcs
    ensures var v := Next(s, WriteNext).world;
      && k in v.pvcs && SameButFinalizers(s.world.pvcs[k], v.pvcs[k])
      && (SameOthers(s.world.pvcs[k], v.pvcs[k]) <==> !Overwrites(s, WriteNext, k))
  {
    var x := s.worker.todo[0];
    if x.AddFinalizer? {
      AdditionKeepsOthers(s.world, x.p, k);
    } else {
      WriteKeepsOthers(s.world, x, k);
    }
    hide Apply, SameOthers, SameButFinalizers;
  }

  /** The addition from a current copy loses no finalizer, and adds the operator's alone. */
  lemma AdditionAddsOne(s: State)
    requires Enabled(s, WriteNext) && s.worker.todo[0].AddFinalizer?
    requires var p := s.worker.todo[0].p; KeyOf(p) in s.world.pvcs && s.world.pvcs[KeyOf(p)].finalizers == p.finalizers
    ensures var k, v := KeyOf(s.worker.todo[0].p), Next(s, WriteNext).world;
      k in v.pvcs && Held(s.world.pvcs[k], v.pvcs[k])
  {
    ProtectHolds(s.world.pvcs, s.worker.todo[0].p);
    assert Next(s, WriteNext).world.pvcs == Protect(s.world.pvcs, s.worker.todo[0].p);
    hide Held, Apply, Next, Enabled;
  }

  /** The update of a release takes the operator's finalizer, and loses no other. */
  lemma ReleaseTakesOne(s: State, k: Key)
    requires Enabled(s, ReleaseWrite) && k in s.world.pvcs
    ensures var v := Next(s, ReleaseWrite).world;
      && k in v.pvcs && SameOthers(s.world.pvcs[k], v.pvcs[k]) && SameButFinalizers(s.world.pvcs[k], v.pvcs[k])
      && (s.releaser.k == k ==> Freed(s.world.pvcs[k], v.pvcs[k]))
  {
    StripFrees(s.world.pvcs, s.releaser.k);
    assert Next(s, ReleaseWrite).world.pvcs == Strip(s.world.pvcs, s.releaser.k);
    hide Strip, Next, Enabled;
  }
}
