/** When provisioning cannot complete: exactly when the content of the group was marked for deletion
    before it was ready. */
module ProvisioningStuck {
  import opened Kube
  import opened Lifecycle
  import opened BackendSafety
  import opened Provisioning
  import opened BindOnce
  import opened ProvisioningRun

  // ---- when provisioning cannot complete ----

  /** The group waits for a content that is marked and not ready, and neither worker is further with
      the two than reading them. */
  ghost predicate Hopeless(s: State, k: Key, uid: string) {
    var c := GeneratedKey(k, uid);
    && Unbound(s, k) && s.groups[k].uid == uid
    && c in s.contents && s.contents[c].deleting && !s.contents[c].ready && s.contents[c].ref == Some(Ref(k, uid))
    && (!s.gw.GIdle? && s.gw.k == k ==>
          && s.gw.copy.uid == uid && s.gw.copy.content.None? && !s.gw.copy.deleting
          && (s.gw.GRead? || s.gw.GHeld? || s.gw.GCreated?))
    && (!s.cw.CIdle? && s.cw.k == c ==> s.cw.CRead? && s.cw.copy.deleting && s.cw.copy.ref == Some(Ref(k, uid)))
  }

  /** A worker on another group names other contents. */
  lemma NamesAnother(s: State, k: Key, uid: string)
    requires Unbound(s, k) && s.groups[k].uid == uid && Names(s.groups, s.gw)
        && GroupWorkerPlaced(s.groups, s.uids, s.gw)
    requires !s.gw.GIdle? && s.gw.k != k
    ensures GeneratedKey(s.gw.k, s.gw.copy.uid) != GeneratedKey(k, uid)
    ensures s.gw.copy.content.Some? ==> NamedKey(s.gw.k, s.gw.copy) != GeneratedKey(k, uid)
  {
    MakeVGNameRoundTrip(uid, if s.gw.copy.content.Some? then s.gw.copy.content.value else "");
    MakeVGNameRoundTrip(s.gw.copy.uid, MakeVGName(uid));
  }

  lemma ContentUntouched(s: State, e: GroupStep, k: Key, uid: string)
    requires Hopeless(s, k, uid) && GroupWorkerMay(s, e)
    requires !s.gw.GIdle? && s.gw.k != k ==>
      && GeneratedKey(s.gw.k, s.gw.copy.uid) != GeneratedKey(k, uid)
      && (s.gw.copy.content.Some? ==> NamedKey(s.gw.k, s.gw.copy) != GeneratedKey(k, uid))
    requires s.gw.GNamed? ==> s.gw.copy.content.Some?
    ensures var c, t := GeneratedKey(k, uid), AfterGroupWorker(s, e);
      c in t.contents && t.contents[c] == s.contents[c] && t.cw == s.cw
  {
    hide MakeVGName;
  }

  lemma GroupUntouched(s: State, e: GroupStep, k: Key, uid: string)
    requires Hopeless(s, k, uid) && GroupWorkerMay(s, e)
    ensures var t := AfterGroupWorker(s, e);
      && Unbound(t, k) && t.groups[k].uid == uid
      && (!t.gw.GIdle? && t.gw.k == k ==>
            && t.gw.copy.uid == uid && t.gw.copy.content.None? && !t.gw.copy.deleting
            && (t.gw.GRead? || t.gw.GHeld? || t.gw.GCreated?))
  {
    hide MakeVGName;
  }

  lemma GroupWorkerStaysHopeless(s: State, e: GroupStep, k: Key, uid: string)
    requires Hopeless(s, k, uid) && Names(s.groups, s.gw) && GroupWorkerPlaced(s.groups, s.uids, s.gw)
        && GroupWorkerMay(s, e)
    ensures Hopeless(AfterGroupWorker(s, e), k, uid)
  {
    if !s.gw.GIdle? && s.gw.k != k {
      NamesAnother(s, k, uid);
    }
    assert s.gw.GNamed? ==> s.gw.copy.content.Some?;
    hide MakeVGName, GroupWorkerMay, AfterGroupWorker, Names;
    ContentUntouched(s, e, k, uid);
    GroupUntouched(s, e, k, uid);
  }

  lemma ContentWorkerStaysHopeless(s: State, e: ContentStep, k: Key, uid: string)
    requires Hopeless(s, k, uid) && ContentWorkerMay(s, e)
    ensures Hopeless(AfterContentWorker(s, e), k, uid)
  {
    hide DriverMayReturn, MakeVGName;
  }

  ghost predicate ByControllers(steps: seq<Step>) {
    forall e :: e in steps ==> !e.ByUser?
  }

  lemma HopelessStep(s: State, e: Step, k: Key, uid: string)
    requires Hopeless(s, k, uid) && Sound(s) && WellBound(s) && Enabled(s, e) && !e.ByUser?
    ensures Hopeless(Next(s, e), k, uid)
  {
    hide Hopeless, GroupWorkerMay, ContentWorkerMay, AfterGroupWorker, AfterContentWorker;
    if e.ByGroupWorker? {
      GroupWorkerStaysHopeless(s, e.group, k, uid);
    } else {
      ContentWorkerStaysHopeless(s, e.content, k, uid);
    }
  }

  lemma {:induction false} HopelessRun(s: State, steps: seq<Step>, k: Key, uid: string)
    requires Hopeless(s, k, uid) && Sound(s) && Provisioned(s) && WellBound(s) && Run(s, steps) && ByControllers(steps)
    ensures Hopeless(Final(s, steps), k, uid)
    decreases |steps|
  {
    if steps != [] {
      hide Hopeless, Sound, Provisioned, WellBound, Enabled, Next;
      assert steps[0] in steps;
      assert forall e :: e in steps[1..] ==> e in steps;
      SoundStep(s, steps[0]);
      ProvisionedStep(s, steps[0]);
      BoundStep(s, steps[0]);
      HopelessStep(s, steps[0], k, uid);
      HopelessRun(Next(s, steps[0]), steps[1..], k, uid);
    }
  }

  /** The controllers alone bind the group by these steps. */
  ghost predicate CanBind(s: State, k: Key, steps: seq<Step>)
    requires k in s.groups
  {
    && Run(s, steps) && ByControllers(steps)
    && var t := Final(s, steps);
    k in t.groups && t.groups[k].uid == s.groups[k].uid && t.groups[k].content.Some?
  }

  lemma {:induction false} Longest(ids: set<string>) returns (n: nat)
    ensures forall id :: id in ids ==> |id| <= n
    decreases ids
  {
    if ids == {} {
      n := 0;
    } else {
      var x :| x in ids;
      n := Longest(ids - {x});
      n := if |x| > n then |x| else n;
      assert forall id :: id in ids ==> id == x || id in ids - {x};
    }
  }

  /** There is always another name. */
  lemma SomeFresh(ids: set<string>) returns (id: string)
    ensures id !in ids && id != ""
  {
    var n := Longest(ids);
    id := seq(n + 1, i => 'x');
  }

  lemma DriverCanAnswer(s: State, name: string) returns (id: string)
    requires "" !in s.backend
    ensures DriverMayReturn(s, name, id)
  {
    if i :| i in s.backend && s.backend[i] == name {
      id := i;
    } else {
      id := SomeFresh(s.ids);
    }
  }

  lemma ProvisionIsByControllers(s: State, k: Key, uid: string, uid': string, id: string)
    requires k in s.groups
    ensures ByControllers(Provision(s, k, uid, uid', id))
  {
  }

  /** From rest, the controllers alone can bind a live group if and only if its content was not marked
      for deletion before it was ready. */
  lemma BindsExactlyUnlessStuck(s: State, k: Key)
    requires Consistent(s) && Unbound(s, k) && s.gw.GIdle? && s.cw.CIdle? && "" !in s.backend
    ensures (exists steps :: CanBind(s, k, steps)) <==> !Stuck(s, k)
  {
    if Stuck(s, k) {
      ContentOfLiveGroup(s, k);
      assert Hopeless(s, k, s.groups[k].uid);
      hide Stuck;
      forall steps ensures !CanBind(s, k, steps) {
        if CanBind(s, k, steps) {
          HopelessRun(s, steps, k, s.groups[k].uid);
        }
      }
    } else {
      var uid := SomeFresh(s.uids);
      var uid' := SomeFresh(s.uids + {uid});
      var id := DriverCanAnswer(s, MakeVGName(s.groups[k].uid));
      hide DriverMayReturn, Consistent, Provision;
      ProvisionRuns(s, k, uid, uid', id);
      ProvisionIsByControllers(s, k, uid, uid', id);
      hide Run, Final, ByControllers;
      assert CanBind(s, k, Provision(s, k, uid, uid', id));
    }
  }
}
