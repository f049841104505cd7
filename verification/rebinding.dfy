/** Why no group may bind to a marked content: the claim deletions reload the worker's copy after
    the check, and the copy may then refer to a group that came later. */
module Rebinding {
  import opened Kube
  import opened Lifecycle
  import opened BackendSafety

  const CONTENT := Key("ns", "static-content")
  const FIRST := Key("ns", "first")
  const SECOND := Key("ns", "second")

  /** The first group is gone, and the worker has just found that out. */
  function Marked(): Content {
    Content("uid-content", 1, Some(Ref(FIRST, "uid-first")), "id", Some(Delete), true, false, true, true, {"pv"})
  }

  function Checked(): State {
    State(map[], map[CONTENT := Marked()], 2, {"uid-content", "uid-first"}, map["id" := "name"], {"id"}, Delete,
          GIdle, CChecked(CONTENT, Marked(), Some(Ref(FIRST, "uid-first"))), [])
  }

  function CreateSecond(): Step {
    ByUser(CreateGroup(SECOND, "uid-second", Some(CONTENT.name)))
  }

  function Second(): Group {
    Group("uid-second", 2, false, Some(CONTENT.name), false, false, false)
  }

  function Created(): State {
    Checked().(groups := map[SECOND := Second()], clock := 3, uids := Checked().uids + {"uid-second"})
  }

  function Held(): State {
    var g := Second().(held := true, version := 3);
    Created().(groups := map[SECOND := g], clock := 4, gw := GHeld(SECOND, g))
  }

  const HOLDING := [ByGroupWorker(GStart(SECOND)), ByGroupWorker(GHold)]
  const BINDING := [ByGroupWorker(GSetContent), ByGroupWorker(GBind)]
  const RELOAD := ByContentWorker(CDeleteClaim("pv"))

  lemma CheckedIsSound()
    ensures Sound(Checked()) && RefKept(Checked())
  {
  }

  lemma SecondIsCreated()
    ensures Run(Checked(), [CreateSecond()]) && Final(Checked(), [CreateSecond()]) == Created()
  {
  }

  lemma SecondIsHeld()
    ensures Run(Created(), HOLDING) && Final(Created(), HOLDING) == Held()
  {
    var a, b := ByGroupWorker(GStart(SECOND)), ByGroupWorker(GHold);
    assert Enabled(Created(), a) && Enabled(Next(Created(), a), b);
    assert Next(Next(Created(), a), b).groups == Held().groups;
    hide Enabled, Next;
    RunTwo(Created(), a, b);
  }

  lemma SecondBinds()
    ensures Run(Held(), BINDING)
    ensures var t := Final(Held(), BINDING);
      && t.groups.Keys == {SECOND} && t.groups[SECOND].uid == "uid-second" && t.cw == Checked().cw
          && CONTENT in t.contents
      && t.contents[CONTENT].ref == Some(Ref(SECOND, "uid-second")) && t.contents[CONTENT].policy == Some(Delete)
  {
    var c, d := ByGroupWorker(GSetContent), ByGroupWorker(GBind);
    var u := Next(Held(), c);
    assert u.gw.GNamed? && NamedKey(u.gw.k, u.gw.copy) == CONTENT && u.contents == Checked().contents;
    assert Enabled(u, d);
    hide Enabled;
    RunTwo(Held(), c, d);
  }

  lemma ReloadedAndDeleted(t: State)
    requires t.cw == Checked().cw && CONTENT in t.contents && t.contents[CONTENT].policy == Some(Delete)
    ensures Run(t, [RELOAD])
    ensures var u := Final(t, [RELOAD]);
      u.groups == t.groups && u.cw.CChecked? && u.cw.copy.ref == t.contents[CONTENT].ref
          && Enabled(u, ByContentWorker(CDeleteBackend(false)))
  {
  }

  /** A run after which the driver may be asked to delete the backend group of an existing group. */
  lemma BackendOfAnExistingGroup()
    ensures exists s, steps, k ::
      && Sound(s) && RefKept(s) && Run(s, steps) && Enabled(Final(s, steps), ByContentWorker(CDeleteBackend(false)))
      && k in Final(s, steps).groups
      && Final(s, steps).cw.copy.ref == Some(Ref(k, Final(s, steps).groups[k].uid))
  {
    CheckedIsSound();
    SecondIsCreated();
    SecondIsHeld();
    SecondBinds();
    hide Sound, RefKept, Run, Final, Enabled, Checked, Created, Held;
    RunsCompose(Checked(), [CreateSecond()], HOLDING);
    RunsCompose(Checked(), [CreateSecond()] + HOLDING, BINDING);
    var t := Final(Held(), BINDING);
    ReloadedAndDeleted(t);
    RunsCompose(Checked(), [CreateSecond()] + HOLDING + BINDING, [RELOAD]);
    var steps := [CreateSecond()] + HOLDING + BINDING + [RELOAD];
    assert Final(Checked(), steps).cw.copy.ref == Some(Ref(SECOND, Final(Checked(), steps).groups[SECOND].uid));
  }
}
