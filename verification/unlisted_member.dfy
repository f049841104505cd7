/** The backend of an idle group can keep a volume that the group does not list, although no step
    does harm to the protection. */
module UnlistedMember {
  import opened Kube
  import opened GroupController
  import opened Protection
  import opened Quiescence
  import opened Scenario
  import opened Members
  import Agreement

  function P(): PVC {
    Claim(IN, [], 1)
  }

  function Left(): PVC {
    Claim(OUT, [], 2)
  }

  ghost function Telling(): State {
    State(W(map[K := P()], [], [], ["volume"], ""), {}, Writing(G, Adding(P())), Resting)
  }

  lemma Tells()
    ensures Calmly(Queued(W(map[K := P()], [], [], [], ""), Resting), Reading(P()) + [Push], Telling())
  {
    var s, a := Queued(W(map[K := P()], [], [], [], ""), Resting), Reading(P()) + [Push];
    Reads(P(), [], [], [], "", Resting);
    Pushes(P(), map[K := P()], [], [], Resting);
    assert forall e :: e in a ==> Tame(e);
    hide Reaches, Enabled, Next, W, Tame, Reading;
    ReachesOneMore(s, Reading(P()), Scanned(W(map[K := P()], [], [], [], ""), [P()], Resting), Push);
    TameIsHarmless(s, a, Telling());
  }

  /** A failure before the first write cuts no addition. */
  lemma Fails()
    ensures Enabled(Telling(), Fail) && Harmless(Telling(), Fail)
    ensures Next(Telling(), Fail) == Queued(W(map[K := P()], [], [], ["volume"], ""), Resting)
  {
    assert NextProtect(Adding(P())) == None;
  }

  /** The claim leaves the selector while the group waits to be tried again. */
  lemma Leaves()
    ensures var s := Queued(W(map[K := P()], [], [], ["volume"], ""), Resting);
      && Enabled(s, Relabel(K, OUT)) && Harmless(s, Relabel(K, OUT))
      && Next(s, Relabel(K, OUT)) == Queued(W(map[K := Left()], [], [], ["volume"], ""), Resting)
  {
    var w := W(map[K := P()], [], [], ["volume"], "");
    assert Affected(w, IN) <= {G} && Affected(w, OUT) <= {G};
    assert IN != OUT by {
      assert "group" in IN && "group" !in OUT;
    }
    assert map[K := P()][K := Left()] == map[K := Left()];
  }

  lemma ReadsNothing()
    ensures var w := W(map[K := Left()], [], [], ["volume"], "");
      Calmly(Queued(w, Resting), Reading(Left()) + [SettleEqual], State(w, {}, Idle, Resting))
  {
    var w, a := W(map[K := Left()], [], [], ["volume"], ""), Reading(Left()) + [SettleEqual];
    assert Taken(Left()) == [] by {
      assert "group" !in OUT;
    }
    ReadsAndSettles(Left(), [], ["volume"], "", Resting);
    assert forall e :: e in a ==> Tame(e);
    hide Reaches, Tame, W, Reading;
    TameIsHarmless(Queued(w, Resting), a, State(w, {}, Idle, Resting));
  }

  lemma NotTold()
    ensures !Told(W(map[K := Left()], [], [], ["volume"], ""), G, [])
  {
    assert "volume" in ["volume"] && "volume" in Agreement.ToSet(["volume"]);
    assert Handles(W(map[K := Left()], [], [], ["volume"], ""), []) == {};
  }

  /** A run from an idle state, all of whose steps are harmless, ends with an idle group that lists
      nothing while the backend group still has the volume: the driver was told, the first write
      failed, and by the next reconcile the claim had left the selector. */
  lemma BackendKeepsAVolume()
    ensures exists s, steps, t ::
      && Guarded(s) && Quiet(s) && s.worker.Idle? && Calmly(s, steps, t)
      && t.worker.Idle? && t.queue == {} && G in t.world.vgs && !Told(t.world, G, t.world.vgs[G].pvcList)
  {
    var s := Queued(W(map[K := P()], [], [], [], ""), Resting);
    var x := Queued(W(map[K := P()], [], [], ["volume"], ""), Resting);
    var y := Queued(W(map[K := Left()], [], [], ["volume"], ""), Resting);
    var t := State(W(map[K := Left()], [], [], ["volume"], ""), {}, Idle, Resting);
    var a, b := Reading(P()) + [Push], Reading(Left()) + [SettleEqual];
    assert G in t.world.vgs && t.world.vgs[G].pvcList == [];
    hide Guarded, Quiet, Calmly, Enabled, Next, Harmless, W, Reading, Told, Telling;
    StartIsGuarded(P(), Resting);
    Tells();
    Fails();
    CalmlyOne(Telling(), Fail);
    CalmlyOn(s, a, Telling(), [Fail], x);
    Leaves();
    CalmlyOne(x, Relabel(K, OUT));
    CalmlyOn(s, a + [Fail], x, [Relabel(K, OUT)], y);
    ReadsNothing();
    CalmlyOn(s, a + [Fail] + [Relabel(K, OUT)], y, b, t);
    NotTold();
  }
}
