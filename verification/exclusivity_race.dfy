/** The run that makes two groups share a claim: the selector of a group is edited between the
    read of the group and the scan of its claims. */
module ExclusivityRace {
  import opened Kube
  import opened Cluster
  import opened MembershipPlan
  import opened GroupController
  import opened Exclusivity
  import opened Protection
  import opened Quiescence
  import Agreement
  import ListEquality

  const CLAIM := PVC("ns", "data", map[], Bound, "pv", Some("sc"), [PVC_FINALIZER], 2)
  /** The copy from before the finalizer was added. */
  const COPY := CLAIM.(finalizers := [], resourceVersion := 1)
  const K := KeyOf(CLAIM)
  const G := Key("ns", "g")
  const H := Key("ns", "h")
  const GC := Key("ns", "gc")
  const HC := Key("ns", "hc")

  ghost const ALL: Selector := (l: Labels) => true
  ghost const NONE: Selector := (l: Labels) => false

  /** The group `h` lists the claim, is synchronised, and the backend knows; `g` is new. */
  ghost function StartWorld(selector: Selector): World {
    World(Config("driver", "false"), map["class" := "driver"], map["sc" := StorageClass("driver", false)],
          map[K := CLAIM], map["pv" := "volume"],
          map[G := VG("class", selector, "gc", [], false, ""), H := VG("class", ALL, "hc", [COPY], false, "")],
          map[GC := VGC("id-g", []), HC := VGC("id-h", ["pv"])],
          map["id-g" := [], "id-h" := ["volume"]])
  }

  ghost function StartState(): State {
    State(StartWorld(ALL), {G}, Idle, Resting)
  }

  lemma StartIsSafe()
    ensures Safe(StartState()) && SelectorCurrent(StartState())
  {
    assert Keys([]) == {};
  }

  lemma StartIsGuarded()
    ensures Guarded(StartState()) && Quiet(StartState())
  {
    var s := StartState();
    assert Keys([]) == {} && COPY in [COPY] && Keys([COPY]) == {K};
    assert MatchingKeys(s.world, H) == {K};
  }

  ghost const STARTED := State(StartWorld(ALL), {}, Started(G, ALL), Resting)
  ghost const EDITED := State(StartWorld(NONE), {G}, Started(G, ALL), Resting)
  ghost const LISTED := State(StartWorld(NONE), {G}, Scanning(G, ALL, [CLAIM], []), Resting)
  ghost const SCANNED := State(StartWorld(NONE), {G}, Scanning(G, ALL, [], [CLAIM]), Resting)

  lemma StepStart()
    ensures Enabled(StartState(), Start(G)) && Next(StartState(), Start(G)) == STARTED
  {
    assert {G} - {G} == {};
  }

  lemma StepEdit()
    ensures Enabled(STARTED, Select(G, NONE)) && Next(STARTED, Select(G, NONE)) == EDITED
  {
    assert Next(STARTED, Select(G, NONE)).world.vgs == EDITED.world.vgs;
  }

  lemma StepList()
    ensures Enabled(EDITED, List([CLAIM])) && Next(EDITED, List([CLAIM])) == LISTED
  {
  }

  /** The check of the scan sees only `h`, which lists the claim, and passes. */
  lemma StepScan()
    ensures Enabled(LISTED, Scan) && Next(LISTED, Scan) == SCANNED
  {
    var w := LISTED.world;
    assert NewGroupsFor(w, CLAIM) == {} by {
      assert COPY in [COPY] && K in Keys([COPY]);
    }
    assert Eligible(w, CLAIM);
    assert Keys([]) == {} && [CLAIM][1..] == [] && [] + [CLAIM] == [CLAIM];
  }

  lemma StepPush()
    ensures Enabled(SCANNED, Push)
    ensures Next(SCANNED, Push).worker == Writing(G, Plan(G, GC, [], [CLAIM]))
    ensures Next(SCANNED, Push).world == SCANNED.world.(members := map["id-g" := ["volume"], "id-h" := ["volume"]])
  {
    var w := SCANNED.world;
    assert Agreement.VolumeIds(w, [CLAIM][1..]) == Some([]);
    assert Agreement.VolumeIds(w, [CLAIM]) == Some(["volume"] + []);
    assert ["volume"] + [] == ["volume"];
    assert ContentKey(w, G) == GC;
    assert w.members["id-g" := ["volume"]] == map["id-g" := ["volume"], "id-h" := ["volume"]];
    ListEquality.SortMembers([CLAIM]);
    ListEquality.SortMembers([]);
    assert CLAIM in multiset([CLAIM]) && CLAIM !in multiset([]);
    assert MustModify(SCANNED);
  }

  lemma FirstWrite()
    ensures Plan(G, GC, [], [CLAIM]) != [] && Plan(G, GC, [], [CLAIM])[0] == AppendClaim(G, CLAIM)
  {
  }

  lemma StepWrite(t: State)
    requires t.worker == Writing(G, Plan(G, GC, [], [CLAIM]))
    requires t.world == SCANNED.world.(members := map["id-g" := ["volume"], "id-h" := ["volume"]])
    ensures Enabled(t, WriteNext) && !Exclusive(Next(t, WriteNext).world)
  {
    FirstWrite();
    var v := Next(t, WriteNext).world;
    assert v.vgs == GroupsAfter(t.world.vgs, AppendClaim(G, CLAIM));
    assert v.vgs[G].pvcList == [CLAIM] by {
      assert Keys([]) == {} && [] + [CLAIM] == [CLAIM];
    }
    assert v.vgs[H].pvcList == [COPY];
    assert CLAIM in [CLAIM] && K in Keys([CLAIM]) && COPY in [COPY] && K in Keys([COPY]);
    assert Ours(v, G) && Ours(v, H) && G != H;
  }

  /** From a safe, guarded and quiet idle state, a run ends with one claim in the lists of two groups. */
  lemma RaceSharesAClaim()
    ensures exists s: State, steps: seq<Step> ::
      Safe(s) && SelectorCurrent(s) && Guarded(s) && Quiet(s) && s.worker.Idle?
          && s.world.config.multipleVGsToPVC != "true"
      && Run(s, steps) && !Exclusive(Final(s, steps).world)
  {
    hide Safe, SelectorCurrent, Guarded, Quiet, Enabled, Next, Exclusive, Run, Final;
    StartIsSafe();
    StartIsGuarded();
    var s := StartState();
    StepStart();
    NoStepsYet(s);
    ReachesOneMore(s, [], s, Start(G));
    StepEdit();
    ReachesOneMore(s, [] + [Start(G)], STARTED, Select(G, NONE));
    StepList();
    ReachesOneMore(s, [] + [Start(G)] + [Select(G, NONE)], EDITED, List([CLAIM]));
    StepScan();
    var four := [] + [Start(G)] + [Select(G, NONE)] + [List([CLAIM])] + [Scan];
    ReachesOneMore(s, [] + [Start(G)] + [Select(G, NONE)] + [List([CLAIM])], LISTED, Scan);
    StepPush();
    var t := Next(SCANNED, Push);
    ReachesOneMore(s, four, SCANNED, Push);
    StepWrite(t);
    ReachesOneMore(s, four + [Push], t, WriteNext);
    assert s.world.config.multipleVGsToPVC == "false";
    assert Run(s, four + [Push] + [WriteNext]);
  }
}
