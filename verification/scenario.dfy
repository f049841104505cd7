/** One group, its content, one claim and its volume: the worlds that the example runs go through. */
module Scenario {
  import opened Kube
  import opened Cluster
  import opened MembershipPlan
  import opened GroupController
  import opened Protection
  import opened Quiescence
  import Agreement
  import ListEquality

  const K := Key("ns", "data")
  const G := Key("ns", "g")
  const C := Key("ns", "content")
  const IN: Labels := map["group" := "g"]
  const OUT: Labels := map[]

  /** The selector of the group matches the labels IN and not the labels OUT. */
  ghost const SELECTOR: Selector := (l: Labels) => "group" in l

  function Claim(labels: Labels, finalizers: seq<string>, version: nat): PVC {
    PVC("ns", "data", labels, Bound, "pv", Some("sc"), finalizers, version)
  }

  ghost predicate OfScenario(p: PVC) {
    exists labels, finalizers, version :: p == Claim(labels, finalizers, version)
  }

  ghost function W(pvcs: map<Key, PVC>, list: seq<PVC>, volumes: seq<string>, members: seq<string>,
                   error: string): World {
    World(Config("driver", "true"), map["class" := "driver"], map["sc" := StorageClass("driver", false)],
          pvcs, map["pv" := "volume"],
          map[G := VG("class", SELECTOR, "content", list, false, error)],
          map[C := VGC("id", volumes)], map["id" := members])
  }

  /** The group is queued and the worker idle. */
  ghost function Queued(w: World, r: Releaser): State {
    State(w, {G}, Idle, r)
  }

  /** The worker has scanned all claims. */
  ghost function Scanned(w: World, matching: seq<PVC>, r: Releaser): State {
    State(w, {}, Scanning(G, SELECTOR, [], matching), r)
  }

  function Taken(p: PVC): seq<PVC> {
    if "group" in p.labels then [p] else []
  }

  // ---- reading ----

  function Reading(p: PVC): seq<Step> {
    [Start(G), List([p]), Scan]
  }

  lemma StartsReading(w: World, r: Releaser)
    requires Ours(w, G) && !w.vgs[G].deleting && w.vgs[G].selector == SELECTOR
    ensures Enabled(Queued(w, r), Start(G)) && Next(Queued(w, r), Start(G)) == State(w, {}, Started(G, SELECTOR), r)
  {
    assert {G} - {G} == {};
  }

  lemma ListsTheClaim(p: PVC, list: seq<PVC>, volumes: seq<string>, members: seq<string>, error: string, r: Releaser)
    requires OfScenario(p)
    ensures var w := W(map[K := p], list, volumes, members, error);
      var s := State(w, {}, Started(G, SELECTOR), r);
      Enabled(s, List([p])) && Next(s, List([p])) == s.(worker := Scanning(G, SELECTOR, [p], []))
  {
    assert p in [p];
  }

  lemma ScansTheClaim(p: PVC, list: seq<PVC>, volumes: seq<string>, members: seq<string>, error: string, r: Releaser)
    requires OfScenario(p)
    ensures var w := W(map[K := p], list, volumes, members, error);
      var s := State(w, {}, Scanning(G, SELECTOR, [p], []), r);
      Enabled(s, Scan) && Next(s, Scan) == Scanned(w, Taken(p), r)
  {
    assert Keys([]) == {} && [p][1..] == [] && [] + [p] == [p];
  }

  lemma Reads(p: PVC, list: seq<PVC>, volumes: seq<string>, members: seq<string>, error: string, r: Releaser)
    requires OfScenario(p)
    ensures var w := W(map[K := p], list, volumes, members, error);
      Reaches(Queued(w, r), Reading(p), Scanned(w, Taken(p), r))
  {
    var w := W(map[K := p], list, volumes, members, error);
    var s := Queued(w, r);
    StartsReading(w, r);
    ListsTheClaim(p, list, volumes, members, error, r);
    ScansTheClaim(p, list, volumes, members, error, r);
    hide Enabled, Next, Reaches, W;
    NoStepsYet(s);
    ReachesOneMore(s, [], s, Start(G));
    ReachesOneMore(s, [] + [Start(G)], State(w, {}, Started(G, SELECTOR), r), List([p]));
    ReachesOneMore(s, [] + [Start(G)] + [List([p])], State(w, {}, Scanning(G, SELECTOR, [p], []), r), Scan);
    assert [] + [Start(G)] + [List([p])] + [Scan] == Reading(p);
  }

  // ---- adding ----

  function Adding(p: PVC): seq<Write> {
    [AppendClaim(G, p), AppendPV(C, "pv"), AddFinalizer(p), ClearError(G)]
  }

  lemma PlanAdds(p: PVC)
    requires OfScenario(p)
    ensures Plan(G, C, [], [p]) == Adding(p)
  {
    assert Keys([]) == {};
    DropNothing([p], {});
    assert Additions([], [p]) == [p] && Removals([], [p]) == [];
    assert [p][1..] == [] && AddPlans(G, C, [p]) == AddPlan(G, C, p) + [];
  }

  lemma Differs(p: PVC)
    ensures !ListEquality.IsPVCListEqual(AsSlice([p]), AsSlice([]))
  {
  }

  lemma OneVolume(w: World, p: PVC)
    requires OfScenario(p) && w.pvs == map["pv" := "volume"]
    ensures Agreement.VolumeIds(w, [p]) == Some(["volume"])
  {
    assert [p][1..] == [] && Agreement.VolumeIds(w, []) == Some([]);
    assert ["volume"] + [] == ["volume"];
  }

  lemma Pushes(p: PVC, pvcs: map<Key, PVC>, volumes: seq<string>, members: seq<string>, r: Releaser)
    requires OfScenario(p)
    ensures var s := Scanned(W(pvcs, [], volumes, members, ""), [p], r);
      && Enabled(s, Push)
      && Next(s, Push) == State(W(pvcs, [], volumes, ["volume"], ""), {}, Writing(G, Adding(p)), r)
  {
    var w := W(pvcs, [], volumes, members, "");
    Differs(p);
    OneVolume(w, p);
    PlanAdds(p);
    hide ListEquality.IsPVCListEqual, Plan, Agreement.VolumeIds;
    assert ContentKey(w, G) == C;
    assert w.members["id" := ["volume"]] == map["id" := ["volume"]];
  }

  lemma AppendsTheClaim(p: PVC, pvcs: map<Key, PVC>, volumes: seq<string>, todo: seq<Write>, r: Releaser)
    requires todo != [] && todo[0] == AppendClaim(G, p)
    ensures var s := State(W(pvcs, [], volumes, ["volume"], ""), {}, Writing(G, todo), r);
      Enabled(s, WriteNext)
      && Next(s, WriteNext) == State(W(pvcs, [p], volumes, ["volume"], ""), {}, Writing(G, todo[1..]), r)
  {
    var w := W(pvcs, [], volumes, ["volume"], "");
    assert Keys([]) == {} && [] + [p] == [p];
    assert Apply(w, todo[0]).vgs == GroupsAfter(w.vgs, todo[0]) == W(pvcs, [p], volumes, ["volume"], "").vgs;
  }

  /** The worker reads, tells the driver, and lists the claim; three writes are left. */
  function HalfAdding(p: PVC): seq<Step> {
    Reading(p) + [Push] + [WriteNext]
  }

  ghost function HalfWay(p: PVC, r: Releaser): State {
    State(W(map[K := p], [p], [], ["volume"], ""), {}, Writing(G, Adding(p)[1..]), r)
  }

  lemma HalfAdds(p: PVC, r: Releaser)
    requires OfScenario(p) && "group" in p.labels
    ensures Reaches(Queued(W(map[K := p], [], [], [], ""), r), HalfAdding(p), HalfWay(p, r))
  {
    var s := Queued(W(map[K := p], [], [], [], ""), r);
    Reads(p, [], [], [], "", r);
    Pushes(p, map[K := p], [], [], r);
    AppendsTheClaim(p, map[K := p], [], Adding(p), r);
    hide Enabled, Next, Reaches, W;
    ReachesOneMore(s, Reading(p), Scanned(W(map[K := p], [], [], [], ""), [p], r), Push);
    ReachesOneMore(s, Reading(p) + [Push],
                   State(W(map[K := p], [], [], ["volume"], ""), {}, Writing(G, Adding(p)), r), WriteNext);
  }

  // ---- ending ----

  lemma Settles(pvcs: map<Key, PVC>, list: seq<PVC>, volumes: seq<string>, members: seq<string>, error: string,
                r: Releaser)
    ensures var w := W(pvcs, list, volumes, members, error);
      Enabled(Scanned(w, list, r), SettleEqual) && Next(Scanned(w, list, r), SettleEqual) == State(w, {}, Idle, r)
  {
  }

  /** The worker reads the claim again, finds the lists equal, and stops. */
  lemma ReadsAndSettles(p: PVC, volumes: seq<string>, members: seq<string>, error: string, r: Releaser)
    requires OfScenario(p)
    ensures var w := W(map[K := p], Taken(p), volumes, members, error);
      Reaches(Queued(w, r), Reading(p) + [SettleEqual], State(w, {}, Idle, r))
  {
    var w := W(map[K := p], Taken(p), volumes, members, error);
    Reads(p, Taken(p), volumes, members, error, r);
    Settles(map[K := p], Taken(p), volumes, members, error, r);
    hide Enabled, Next, Reaches, W;
    ReachesOneMore(Queued(w, r), Reading(p), Scanned(w, Taken(p), r), SettleEqual);
  }

  /** The claim has no finalizer, nobody handles it, and a user deletes it. */
  lemma Deletes(p: PVC, list: seq<PVC>, volumes: seq<string>, members: seq<string>, error: string, r: Releaser)
    requires p.finalizers == []
    ensures var s := State(W(map[K := p], list, volumes, members, error), {}, Idle, r);
      && Enabled(s, DeleteClaim(K)) && Harmless(s, DeleteClaim(K))
      && Next(s, DeleteClaim(K)) == State(W(map[], list, volumes, members, error), {}, Idle, r)
  {
    assert map[K := p] - {K} == map[];
  }

  /** The idle group lists other claims than it should, one of which is gone. */
  ghost predicate Stale(s: State) {
    !IdleSynchronised(s) && Listed(s.world, K) && K !in s.world.pvcs
  }

  /** An idle group that lists a claim which is gone is not synchronised. */
  lemma ListsWhatIsGone(p: PVC, volumes: seq<string>, members: seq<string>, error: string, r: Releaser)
    requires KeyOf(p) == K
    ensures Stale(State(W(map[], [p], volumes, members, error), {}, Idle, r))
  {
    var s := State(W(map[], [p], volumes, members, error), {}, Idle, r);
    assert p in [p] && KeyOf(p) in Keys([p]);
    assert Live(s.world, G) && G !in s.queue && KeyOf(p) !in MatchingKeys(s.world, G);
  }

  // ---- what the runs share ----

  /** The harmless run `steps` leads from `s` to `t`. */
  ghost predicate Calmly(s: State, steps: seq<Step>, t: State) {
    Reaches(s, steps, t) && HarmlessRun(s, steps)
  }

  /** One harmful step `e` between two harmless runs, from a guarded idle state to a stale idle
      group. */
  ghost predicate OneHarmfulStep(s: State, a: seq<Step>, u: State, e: Step, b: seq<Step>, t: State) {
    && Guarded(s) && Quiet(s) && s.worker.Idle? && s.releaser.Resting?
    && Calmly(s, a, u)
    && Enabled(u, e) && !Harmless(u, e)
    && Calmly(Next(u, e), b, t)
    && t.worker.Idle? && t.queue == {} && Stale(t)
  }

  /** Before the group lists anything all is in order. */
  lemma StartIsGuarded(p: PVC, r: Releaser)
    requires OfScenario(p)
    ensures var s := Queued(W(map[K := p], [], [], [], ""), r); Guarded(s) && Quiet(s)
  {
    assert Keys([]) == {};
  }

  /** Neither a failure, nor a lost secret, nor an end of a claim or its finalizer. */
  predicate Tame(e: Step) {
    && !e.Fail? && !e.FailReporting? && !e.Restart? && !e.SecretMissing?
    && !e.DeleteClaim? && !e.DeleteRequest? && !e.ReleaseWrite?
  }

  lemma {:induction false} TameIsHarmless(s: State, steps: seq<Step>, t: State)
    requires Reaches(s, steps, t) && forall e :: e in steps ==> Tame(e)
    ensures Calmly(s, steps, t)
    decreases |steps|
  {
    if steps != [] {
      assert steps[0] in steps && Tame(steps[0]);
      assert Harmless(s, steps[0]);
      hide Enabled, Next, Harmless, Tame;
      TameIsHarmless(Next(s, steps[0]), steps[1..], t);
    }
  }

  lemma {:induction false} CalmlyOn(s: State, a: seq<Step>, u: State, b: seq<Step>, t: State)
    requires Calmly(s, a, u) && Calmly(u, b, t)
    ensures Calmly(s, a + b, t)
    decreases |a|
  {
    hide Enabled, Next, Harmless;
    if a == [] {
      assert a + b == b;
    } else {
      assert (a + b)[1..] == a[1..] + b && (a + b)[0] == a[0];
      CalmlyOn(Next(s, a[0]), a[1..], u, b, t);
    }
  }

  lemma CalmlyOne(s: State, e: Step)
    requires Enabled(s, e) && Harmless(s, e)
    ensures Calmly(s, [e], Next(s, e))
  {
    hide Enabled, Next, Harmless;
    ReachesOne(s, e);
    assert [e][1..] == [] && Run(s, [e]) && HarmlessRun(Next(s, e), []);
  }
}
