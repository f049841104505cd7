/** Why an addition must not be cut, and why a lost secret does harm: the claim stays listed without
    its finalizer, the next reconcile sees equal lists, and the claim can then be deleted behind
    the group's back. */
module CutAddition {
  import opened Kube
  import opened Cluster
  import opened GroupController
  import opened Protection
  import opened Quiescence
  import opened Scenario
  import ListEquality

  function P(): PVC {
    Claim(IN, [], 1)
  }

  /** A queued group that lists the claim unprotected settles, and the claim goes. */
  lemma SettlesAndLoses(members: seq<string>, error: string)
    ensures var w := W(map[K := P()], [P()], [], members, error);
      var t := State(W(map[], [P()], [], members, error), {}, Idle, Resting);
      Calmly(Queued(w, Resting), Reading(P()) + [SettleEqual] + [DeleteClaim(K)], t) && Stale(t)
  {
    var p, w := P(), W(map[K := P()], [P()], [], members, error);
    var s, u := Queued(w, Resting), State(w, {}, Idle, Resting);
    var a := Reading(p) + [SettleEqual];
    ReadsAndSettles(p, [], members, error, Resting);
    Deletes(p, [p], [], members, error, Resting);
    ListsWhatIsGone(p, [], members, error, Resting);
    assert forall e :: e in a ==> Tame(e);
    hide Enabled, Next, Harmless, Reaches, HarmlessRun, W, Stale, Tame, Reading;
    TameIsHarmless(s, a, u);
    CalmlyOne(u, DeleteClaim(K));
    CalmlyOn(s, a, u, [DeleteClaim(K)], Next(u, DeleteClaim(K)));
  }

  lemma CutStep()
    ensures var u := HalfWay(P(), Resting);
      && Enabled(u, Fail) && !Harmless(u, Fail)
      && Next(u, Fail) == Queued(W(map[K := P()], [P()], [], ["volume"], ""), Resting)
  {
    var todo := Adding(P())[1..];
    assert todo[1..][0] == AddFinalizer(P()) && NextProtect(todo) == Some(P());
    assert P() in [P()] && KeyOf(P()) in Keys([P()]);
  }

  lemma UpToTheCut()
    ensures Calmly(Queued(W(map[K := P()], [], [], [], ""), Resting), HalfAdding(P()), HalfWay(P(), Resting))
  {
    HalfAdds(P(), Resting);
    assert forall e :: e in HalfAdding(P()) ==> Tame(e);
    hide Reaches, Tame, W, HalfAdding;
    TameIsHarmless(Queued(W(map[K := P()], [], [], [], ""), Resting), HalfAdding(P()), HalfWay(P(), Resting));
  }

  /** A run from an idle state whose only harmful step is one cut addition leaves an idle group
      that lists a claim which is gone. */
  lemma CutLeavesIdleGroupStale()
    ensures exists s, a, u, b, t :: OneHarmfulStep(s, a, u, Fail, b, t)
  {
    var p := P();
    var s, a, u := Queued(W(map[K := p], [], [], [], ""), Resting), HalfAdding(p), HalfWay(p, Resting);
    var b, t := Reading(p) + [SettleEqual] + [DeleteClaim(K)],
        State(W(map[], [p], [], ["volume"], ""), {}, Idle, Resting);
    hide Guarded, Quiet, Calmly, Enabled, Next, Harmless, Stale, W, Reading, HalfAdding, HalfWay;
    StartIsGuarded(p, Resting);
    UpToTheCut();
    CutStep();
    SettlesAndLoses(["volume"], "");
    assert OneHarmfulStep(s, a, u, Fail, b, t);
  }

  lemma SecretStep()
    ensures var u := Scanned(W(map[K := P()], [], [], [], ""), [P()], Resting);
      && Enabled(u, SecretMissing) && !Harmless(u, SecretMissing)
      && Next(u, SecretMissing) == Queued(W(map[K := P()], [P()], [], [], ERROR), Resting)
  {
    Differs(P());
    assert P() in [P()] && !Protected(map[K := P()], K);
    hide ListEquality.IsPVCListEqual;
  }

  lemma UpToTheSecret()
    ensures var w := W(map[K := P()], [], [], [], "");
      Calmly(Queued(w, Resting), Reading(P()), Scanned(w, [P()], Resting))
  {
    var w := W(map[K := P()], [], [], [], "");
    Reads(P(), [], [], [], "", Resting);
    assert forall e :: e in Reading(P()) ==> Tame(e);
    hide Reaches, Tame, W, Reading;
    TameIsHarmless(Queued(w, Resting), Reading(P()), Scanned(w, [P()], Resting));
  }

  /** The same with one lost secret. */
  lemma LostSecretLeavesIdleGroupStale()
    ensures exists s, a, u, b, t :: OneHarmfulStep(s, a, u, SecretMissing, b, t)
  {
    var p := P();
    var s, a := Queued(W(map[K := p], [], [], [], ""), Resting), Reading(p);
    var u := Scanned(W(map[K := p], [], [], [], ""), [p], Resting);
    var b, t := Reading(p) + [SettleEqual] + [DeleteClaim(K)], State(W(map[], [p], [], [], ERROR), {}, Idle, Resting);
    hide Guarded, Quiet, Calmly, Enabled, Next, Harmless, Stale, W, Reading;
    StartIsGuarded(p, Resting);
    UpToTheSecret();
    SecretStep();
    SettlesAndLoses([], ERROR);
    assert OneHarmfulStep(s, a, u, SecretMissing, b, t);
  }
}
