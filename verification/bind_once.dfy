/** A dynamic group is bound once, to its own generated content, and only when that is ready. */
module BindOnce {
  import opened Kube
  import opened Lifecycle
  import opened BackendSafety
  import opened Provisioning

  /** Users leave the generated names to the operator: they neither create a content of such a
      name nor point a group at one. */
  predicate LeavesGeneratedNames(e: Step) {
    e.ByUser? ==>
      && (e.user.CreateContent? ==> !Generated(e.user.k.name))
      && (e.user.CreateGroup? && e.user.content.Some? ==> !Generated(e.user.content.value))
  }

  ghost predicate AllLeaveGeneratedNames(steps: seq<Step>) {
    forall e :: e in steps ==> LeavesGeneratedNames(e)
  }

  // ---- the invariant ----

  /** A copy that carries the stored version is the stored object. */
  ghost predicate GroupVersions(groups: map<Key, Group>, clock: nat, gw: GroupWorker) {
    && (forall k :: k in groups ==> groups[k].version < clock)
    && (!gw.GIdle? ==>
          && gw.copy.version < clock
          && (gw.k in groups && groups[gw.k].version == gw.copy.version ==> groups[gw.k] == gw.copy))
  }

  /** A dynamic group names no content or its own; any other names one that is not generated. */
  predicate NamesOwnContent(g: Group) {
    if g.dynamic then g.content.None? || g.content == Some(MakeVGName(g.uid))
    else g.content.Some? && !Generated(g.content.value)
  }

  ghost predicate Names(groups: map<Key, Group>, gw: GroupWorker) {
    && (forall k :: k in groups ==> NamesOwnContent(groups[k]))
    && (!gw.GIdle? ==> NamesOwnContent(gw.copy) && SameSpec(groups, gw.k, gw.copy))
    && (gw.GCreated? || gw.GObserved? ==> gw.copy.content.None?)
    && (gw.GNamed? ==> gw.copy.content.Some?)
  }

  /** The spec of the stored group, if it is still the one copied, is that of the copy. */
  ghost predicate SameSpec(groups: map<Key, Group>, k: Key, copy: Group) {
    k in groups && groups[k].uid == copy.uid ==> groups[k].dynamic == copy.dynamic && groups[k].content == copy.content
  }

  /** A generated content refers to the group in its name; no other refers to a dynamic group. */
  ghost predicate RefersToOwner(groups: map<Key, Group>, k: Key, ref: Option<Ref>) {
    if Generated(k.name)
    then ref.Some? && ref.value.uid == OwnerOf(k.name) && ref.value.key.namespace == k.namespace
    else ref.Some? ==> forall j :: j in groups && groups[j].uid == ref.value.uid ==> !groups[j].dynamic
  }

  ghost predicate Refs(groups: map<Key, Group>, contents: map<Key, Content>, cw: ContentWorker) {
    && (forall k :: k in contents ==> RefersToOwner(groups, k, contents[k].ref))
    && (!cw.CIdle? ==> RefersToOwner(groups, cw.k, cw.copy.ref))
  }

  ghost predicate UidGone(groups: map<Key, Group>, uids: set<string>, uid: string) {
    uid in uids && forall k :: k in groups ==> groups[k].uid != uid
  }

  ghost predicate Finished(contents: map<Key, Content>, c: Key) {
    c in contents && contents[c].ready && contents[c].held
  }

  /** A generated content that is ready is held, until its group is gone. */
  ghost predicate ReadyIsHeld(groups: map<Key, Group>, uids: set<string>, contents: map<Key, Content>) {
    forall k :: k in contents && Generated(k.name) && contents[k].ready && !contents[k].held ==>
      UidGone(groups, uids, OwnerOf(k.name))
  }

  ghost predicate WorkerHolds(groups: map<Key, Group>, uids: set<string>, cw: ContentWorker) {
    && (cw.CHeld? || cw.CStatic? || cw.CCreated? || cw.CPersisted? ==> cw.copy.held)
    && ((cw.CChecked? || cw.CDeleted?) && Generated(cw.k.name) ==> UidGone(groups, uids, OwnerOf(cw.k.name)))
  }

  /** The content of every bound dynamic group is there, ready and held. */
  ghost predicate BoundIsFinished(groups: map<Key, Group>, uids: set<string>, contents: map<Key, Content>,
                                  gw: GroupWorker) {
    && (forall k :: k in groups && groups[k].dynamic && groups[k].content.Some? ==>
          Finished(contents, GeneratedKey(k, groups[k].uid)))
    && (gw.GObserved? ==>
          UidGone(groups, uids, gw.copy.uid) || Finished(contents, GeneratedKey(gw.k, gw.copy.uid)))
  }

  ghost predicate WellBound(s: State) {
    && GroupVersions(s.groups, s.clock, s.gw)
    && Names(s.groups, s.gw)
    && Refs(s.groups, s.contents, s.cw)
    && ReadyIsHeld(s.groups, s.uids, s.contents)
    && WorkerHolds(s.groups, s.uids, s.cw)
    && BoundIsFinished(s.groups, s.uids, s.contents, s.gw)
  }

  // ---- frames ----

  /** Every group is an earlier one, or has a UID never issued before. */
  ghost predicate GroupsFrom(s: State, t: State) {
    && NoReturn(s.groups, s.uids, t.groups, t.uids)
    && forall k :: k in t.groups && t.groups[k].uid in s.uids ==>
         k in s.groups && t.groups[k].uid == s.groups[k].uid && t.groups[k].dynamic == s.groups[k].dynamic
  }

  /** Every dynamic group that names a content is an earlier one that did. */
  ghost predicate NoneBinds(s: State, t: State) {
    forall k :: k in t.groups && t.groups[k].dynamic && t.groups[k].content.Some? ==>
      k in s.groups && s.groups[k].dynamic && s.groups[k].content.Some? && t.groups[k].uid == s.groups[k].uid
  }

  lemma GoneStaysGone(s: State, t: State)
    requires NoReturn(s.groups, s.uids, t.groups, t.uids)
    ensures forall u :: UidGone(s.groups, s.uids, u) ==> UidGone(t.groups, t.uids, u)
  {
  }

  /** The steps that change groups only. */
  lemma GroupsMoved(s: State, t: State)
    requires Sound(s) && WellBound(s) && GroupsFrom(s, t)
    requires t.contents == s.contents && t.cw == s.cw
    ensures Refs(t.groups, t.contents, t.cw) && ReadyIsHeld(t.groups, t.uids, t.contents)
        && WorkerHolds(t.groups, t.uids, t.cw)
    ensures NoneBinds(s, t) && (t.gw == s.gw || !t.gw.GObserved?) ==>
        BoundIsFinished(t.groups, t.uids, t.contents, t.gw)
  {
  }

  /** Every content is an earlier one, as ready and held as it was, or a new one that is not
      ready, and finished ones stay. */
  ghost predicate ContentsFrom(s: State, t: State) {
    && (forall k :: k in t.contents ==>
          if k in s.contents then t.contents[k].ready == s.contents[k].ready && t.contents[k].held == s.contents[k].held
          else !t.contents[k].ready)
    && (forall k :: Finished(s.contents, k) ==> k in t.contents)
  }

  /** The steps of users and of the group controller that change contents only. */
  lemma ContentsMoved(s: State, t: State)
    requires WellBound(s) && ContentsFrom(s, t) && t.groups == s.groups && s.uids <= t.uids && t.cw == s.cw
    requires t.gw == s.gw || !t.gw.GObserved?
    ensures ReadyIsHeld(t.groups, t.uids, t.contents) && WorkerHolds(t.groups, t.uids, t.cw)
    ensures BoundIsFinished(t.groups, t.uids, t.contents, t.gw)
  {
  }

  // ---- steps of users ----

  /** Which group a step of a user touches, and how. */
  ghost predicate Touched(s: State, t: State, k: Key) {
    && (forall j :: j != k ==> (j in t.groups <==> j in s.groups) && (j in s.groups ==> t.groups[j] == s.groups[j]))
    && s.clock <= t.clock
    && (k in t.groups ==>
          && s.clock <= t.groups[k].version < t.clock
          && NamesOwnContent(t.groups[k])
          && if k in s.groups
             then t.groups[k].uid == s.groups[k].uid && t.groups[k].dynamic == s.groups[k].dynamic
                  && t.groups[k].content == s.groups[k].content
             else t.groups[k].uid !in s.uids && (t.groups[k].dynamic ==> t.groups[k].content.None?))
  }

  lemma UserTouches(s: State, e: UserStep)
    requires UserMay(s, e) && OnGroups(e) && LeavesGeneratedNames(ByUser(e)) && Names(s.groups, s.gw)
    ensures Touched(s, AfterUser(s, e), e.k)
  {
  }

  lemma UserOnGroups(s: State, t: State, k: Key)
    requires Touched(s, t, k) && NoReturn(s.groups, s.uids, t.groups, t.uids) && t.gw == s.gw
    requires UidsIssued(s.groups, s.uids) && GroupVersions(s.groups, s.clock, s.gw)
    ensures GroupsFrom(s, t) && NoneBinds(s, t) && GroupVersions(t.groups, t.clock, t.gw)
  {
  }

  lemma UserOnNames(s: State, t: State, k: Key)
    requires Touched(s, t, k) && t.gw == s.gw
    requires Names(s.groups, s.gw) && GroupWorkerPlaced(s.groups, s.uids, s.gw)
    ensures Names(t.groups, t.gw)
  {
  }

  lemma UserOnContents(s: State, e: UserStep)
    requires UserMay(s, e) && !OnGroups(e)
    ensures var t := AfterUser(s, e);
      ContentsFrom(s, t) && t.groups == s.groups && s.uids <= t.uids && s.clock <= t.clock && t.cw == s.cw
          && t.gw == s.gw
  {
  }

  lemma UserOnRefs(s: State, e: UserStep)
    requires UserMay(s, e) && !OnGroups(e) && LeavesGeneratedNames(ByUser(e)) && Refs(s.groups, s.contents, s.cw)
    ensures var t := AfterUser(s, e); Refs(t.groups, t.contents, t.cw)
  {
    if e.CreateContent? {
      assert RefersToOwner(s.groups, e.k, None);
    }
    hide RefersToOwner, LeavesGeneratedNames;
  }

  lemma UserKeepsBound(s: State, e: UserStep)
    requires Sound(s) && WellBound(s) && UserMay(s, e) && LeavesGeneratedNames(ByUser(e))
    ensures WellBound(AfterUser(s, e))
  {
    hide AfterUser, UserMay, Refs, Names, ReadyIsHeld, WorkerHolds, BoundIsFinished, GroupsFrom, NoneBinds,
        ContentsFrom, NoReturn, Touched;
    var t := AfterUser(s, e);
    if OnGroups(e) {
      UserGroupEffect(s, e);
      UserTouches(s, e);
      UserOnGroups(s, t, e.k);
      UserOnNames(s, t, e.k);
      GroupsMoved(s, t);
    } else {
      UserOnContents(s, e);
      UserOnRefs(s, e);
      ContentsMoved(s, t);
    }
  }

  // ---- steps of the group controller ----

  lemma GroupWorkerOnNames(s: State, e: GroupStep)
    requires GroupWorkerMay(s, e) && GroupVersions(s.groups, s.clock, s.gw) && Names(s.groups, s.gw)
    ensures var t := AfterGroupWorker(s, e); Names(t.groups, t.gw)
  {
  }

  lemma GroupWorkerVersions(s: State, e: GroupStep)
    requires GroupWorkerMay(s, e) && GroupVersions(s.groups, s.clock, s.gw)
    ensures var t := AfterGroupWorker(s, e); GroupVersions(t.groups, t.clock, t.gw)
  {
  }

  lemma GroupWorkerOnGroups(s: State, e: GroupStep)
    requires UidsIssued(s.groups, s.uids) && GroupWorkerMay(s, e) && !OnContents(e)
    requires GroupVersions(s.groups, s.clock, s.gw)
    ensures GroupsFrom(s, AfterGroupWorker(s, e))
  {
    GroupWorkerEffect(s, e);
    hide NoReturn;
  }

  lemma GroupWorkerBinds(s: State, e: GroupStep)
    requires GroupWorkerMay(s, e) && !OnContents(e) && !s.gw.GObserved?
    requires GroupVersions(s.groups, s.clock, s.gw) && Names(s.groups, s.gw)
    ensures NoneBinds(s, AfterGroupWorker(s, e))
  {
  }

  /** The group found its content ready: the content is its own, and is still held. */
  lemma SeesFinished(s: State)
    requires WellBound(s) && GroupWorkerMay(s, GSeeReady)
    ensures var t := AfterGroupWorker(s, GSeeReady); BoundIsFinished(t.groups, t.uids, t.contents, t.gw)
  {
  }

  /** The group is bound in the version that was read, so it is not gone and its content is
      still finished. */
  lemma BindsFinished(s: State)
    requires WellBound(s) && s.gw.GObserved? && GroupWorkerMay(s, GSetContent)
    ensures var t := AfterGroupWorker(s, GSetContent); BoundIsFinished(t.groups, t.uids, t.contents, t.gw)
  {
  }

  lemma GroupWorkerOnContents(s: State, e: GroupStep)
    requires GroupWorkerMay(s, e) && OnContents(e)
    ensures var t := AfterGroupWorker(s, e);
      ContentsFrom(s, t) && t.groups == s.groups && s.uids <= t.uids && t.cw == s.cw && !t.gw.GObserved?
  {
  }

  /** The reference a binding writes is right. */
  lemma BindRefersToOwner(s: State)
    requires GroupWorkerPlaced(s.groups, s.uids, s.gw) && UidsIssued(s.groups, s.uids) && Names(s.groups, s.gw)
    requires GroupWorkerMay(s, GBind)
    ensures RefersToOwner(s.groups, NamedKey(s.gw.k, s.gw.copy), Some(Ref(s.gw.k, s.gw.copy.uid)))
  {
  }

  lemma GroupWorkerOnRefs(s: State, e: GroupStep)
    requires GroupWorkerMay(s, e) && OnContents(e) && Refs(s.groups, s.contents, s.cw)
    requires GroupWorkerPlaced(s.groups, s.uids, s.gw) && UidsIssued(s.groups, s.uids) && Names(s.groups, s.gw)
    ensures var t := AfterGroupWorker(s, e); Refs(t.groups, t.contents, t.cw)
  {
    if e.GBind? {
      BindRefersToOwner(s);
    } else if e.GCreateContent? {
      MakeVGNameRoundTrip(s.gw.copy.uid, "");
      assert RefersToOwner(s.groups, GeneratedKey(s.gw.k, s.gw.copy.uid), Some(Ref(s.gw.k, s.gw.copy.uid)));
    }
    hide RefersToOwner, GroupWorkerPlaced, UidsIssued, Names;
  }

  lemma GroupWorkerKeepsBound(s: State, e: GroupStep)
    requires Sound(s) && WellBound(s) && GroupWorkerMay(s, e)
    ensures WellBound(AfterGroupWorker(s, e))
  {
    var t := AfterGroupWorker(s, e);
    assert t.gw.GObserved? && t.gw != s.gw ==> e == GSeeReady;
    assert e == GSeeReady ==> t.groups == s.groups;
    assert e == GSetContent || !s.gw.GObserved? || e == GStop by {
      hide AfterGroupWorker;
    }
    GroupWorkerOnNames(s, e);
    GroupWorkerVersions(s, e);
    hide AfterGroupWorker, GroupWorkerMay, Refs, Names, ReadyIsHeld, WorkerHolds, BoundIsFinished, GroupsFrom,
         NoneBinds, ContentsFrom, NoReturn, GroupVersions;
    if OnContents(e) {
      GroupWorkerOnContents(s, e);
      GroupWorkerOnRefs(s, e);
      ContentsMoved(s, t);
    } else {
      GroupWorkerEffect(s, e);
      GroupWorkerOnGroups(s, e);
      if !s.gw.GObserved? {
        GroupWorkerBinds(s, e);
      }
      GroupsMoved(s, t);
      if e == GSeeReady {
        SeesFinished(s);
      } else if s.gw.GObserved? && e == GSetContent {
        BindsFinished(s);
      }
    }
  }

  // ---- steps of the content controller ----

  /** References stay; a generated content becomes ready only while held, and is given up only
      when its group is gone. */
  ghost predicate ContentsAdvance(s: State, t: State) {
    && (forall k :: k in t.contents ==> k in s.contents && t.contents[k].ref == s.contents[k].ref)
    && (forall k :: k in t.contents && Generated(k.name) && t.contents[k].ready && !t.contents[k].held ==>
          (s.contents[k].ready && !s.contents[k].held) || UidGone(s.groups, s.uids, OwnerOf(k.name)))
    && (forall k: Key :: Generated(k.name) && Finished(s.contents, k) ==>
          Finished(t.contents, k) || UidGone(s.groups, s.uids, OwnerOf(k.name)))
  }

  lemma HoldAndReadyAdvance(s: State, e: ContentStep)
    requires Versioned(s.contents, s.clock, s.cw) && WorkerHolds(s.groups, s.uids, s.cw) && ContentWorkerMay(s, e)
    requires e.CHold? || e.CSetReady?
    ensures ContentsAdvance(s, AfterContentWorker(s, e))
  {
    hide UidGone;
  }

  /** All other steps leave alone which contents exist, their references, and whether they are
      ready and held. */
  lemma OthersLeaveContents(s: State, e: ContentStep)
    requires ContentWorkerMay(s, e) && !e.CHold? && !e.CSetReady? && !e.CRelease?
    ensures ContentsAdvance(s, AfterContentWorker(s, e))
  {
    hide UidGone, DriverMayReturn;
  }

  lemma ReleaseAdvances(s: State)
    requires WorkerHolds(s.groups, s.uids, s.cw) && ContentWorkerMay(s, CRelease)
    ensures ContentsAdvance(s, AfterContentWorker(s, CRelease))
  {
  }

  lemma CheckFindsOwnerGone(s: State)
    requires Sound(s) && Refs(s.groups, s.contents, s.cw) && ContentWorkerMay(s, CCheck) && Generated(s.cw.k.name)
    ensures UidGone(s.groups, s.uids, OwnerOf(s.cw.k.name))
  {
  }

  lemma ContentWorkerHolds(s: State, e: ContentStep)
    requires Sound(s) && Versioned(s.contents, s.clock, s.cw) && Refs(s.groups, s.contents, s.cw)
    requires WorkerHolds(s.groups, s.uids, s.cw) && ContentWorkerMay(s, e)
    ensures var t := AfterContentWorker(s, e); WorkerHolds(t.groups, t.uids, t.cw)
  {
    if e.CCheck? && Generated(s.cw.k.name) {
      CheckFindsOwnerGone(s);
    }
    hide Sound, Refs, UidGone, DriverMayReturn;
  }

  lemma ContentWorkerOnRefs(s: State, e: ContentStep)
    requires Refs(s.groups, s.contents, s.cw) && ContentWorkerMay(s, e)
    ensures var t := AfterContentWorker(s, e);
      Refs(t.groups, t.contents, t.cw) && t.groups == s.groups && t.uids == s.uids && t.gw == s.gw && s.clock <= t.clock
  {
    hide RefersToOwner, DriverMayReturn;
  }

  lemma AdvanceKeepsFinished(s: State, t: State)
    requires WellBound(s) && ContentsAdvance(s, t) && t.groups == s.groups && t.uids == s.uids && t.gw == s.gw
    ensures ReadyIsHeld(t.groups, t.uids, t.contents) && BoundIsFinished(t.groups, t.uids, t.contents, t.gw)
  {
  }

  lemma ContentWorkerKeepsBound(s: State, e: ContentStep)
    requires Sound(s) && Provisioned(s) && WellBound(s) && ContentWorkerMay(s, e)
    ensures WellBound(AfterContentWorker(s, e))
  {
    hide AfterContentWorker, ContentWorkerMay, Refs, Names, ReadyIsHeld, WorkerHolds, BoundIsFinished,
        ContentsAdvance, Sound;
    hide UidsIssued;
    if e.CRelease? {
      ReleaseAdvances(s);
    } else if e.CHold? || e.CSetReady? {
      HoldAndReadyAdvance(s, e);
    } else {
      OthersLeaveContents(s, e);
    }
    ContentWorkerHolds(s, e);
    ContentWorkerOnRefs(s, e);
    AdvanceKeepsFinished(s, AfterContentWorker(s, e));
  }

  // ---- runs ----

  lemma BoundStep(s: State, e: Step)
    requires Sound(s) && Provisioned(s) && WellBound(s) && Enabled(s, e) && LeavesGeneratedNames(e)
    ensures WellBound(Next(s, e))
  {
    hide Sound, Provisioned, WellBound, UserMay, GroupWorkerMay, ContentWorkerMay, AfterUser, AfterGroupWorker,
        AfterContentWorker;
    hide LeavesGeneratedNames;
    match e
    case ByUser(x) => UserKeepsBound(s, x);
    case ByGroupWorker(x) => GroupWorkerKeepsBound(s, x);
    case ByContentWorker(x) => ContentWorkerKeepsBound(s, x);
  }

  lemma {:induction false} BoundRun(s: State, steps: seq<Step>)
    requires Sound(s) && Provisioned(s) && WellBound(s) && Run(s, steps) && AllLeaveGeneratedNames(steps)
    ensures Sound(Final(s, steps)) && Provisioned(Final(s, steps)) && WellBound(Final(s, steps))
    decreases |steps|
  {
    if steps != [] {
      hide Sound, Provisioned, WellBound, Enabled, Next, LeavesGeneratedNames;
      assert steps[0] in steps;
      assert forall e :: e in steps[1..] ==> e in steps;
      SoundStep(s, steps[0]);
      ProvisionedStep(s, steps[0]);
      BoundStep(s, steps[0]);
      BoundRun(Next(s, steps[0]), steps[1..]);
    }
  }

  /** All invariants hold before anything exists. */
  lemma InitialIsBound(s: State)
    requires Initial(s)
    ensures Sound(s) && RefKept(s) && Provisioned(s) && WellBound(s)
  {
  }

  /** A bound dynamic group names its own generated content, and that content exists, is ready,
      carries the operator's finalizer and a handle, and refers back to this very group. */
  ghost predicate ProperlyBound(s: State, k: Key) {
    k in s.groups && s.groups[k].dynamic && s.groups[k].content.Some? ==>
      && var g := s.groups[k];
      && g.content == Some(MakeVGName(g.uid))
      && GeneratedKey(k, g.uid) in s.contents
      && var c := s.contents[GeneratedKey(k, g.uid)];
      && c.ready && c.held && c.handle != "" && c.ref == Some(Ref(k, g.uid))
  }

  lemma BoundMeansProper(s: State, k: Key)
    requires Sound(s) && Provisioned(s) && WellBound(s)
    ensures ProperlyBound(s, k)
  {
  }

  predicate RefersTo(ref: Option<Ref>, g: Group) {
    ref.Some? && ref.value.uid == g.uid
  }

  /** No content but the generated one refers to a dynamic group. */
  ghost predicate OneContentPerGroup(s: State) {
    forall c, k ::
      c in s.contents && k in s.groups && s.groups[k].dynamic && RefersTo(s.contents[c].ref, s.groups[k]) ==>
        c == GeneratedKey(k, s.groups[k].uid)
  }

  lemma BoundMeansOneContent(s: State)
    requires Sound(s) && WellBound(s)
    ensures OneContentPerGroup(s)
  {
  }

  /** Over every run with failures, crashes and retries: a dynamic group gets at most one content,
      and is bound only to that one, once it is ready. */
  lemma DynamicGroupsAreProvisioned(s: State, steps: seq<Step>)
    requires Sound(s) && Provisioned(s) && WellBound(s) && Run(s, steps) && AllLeaveGeneratedNames(steps)
    ensures var t := Final(s, steps); OneContentPerGroup(t) && forall k :: ProperlyBound(t, k)
  {
    BoundRun(s, steps);
    var t := Final(s, steps);
    hide Run, Final, Sound, Provisioned, WellBound, ProperlyBound, OneContentPerGroup;
    BoundMeansOneContent(t);
    forall k ensures ProperlyBound(t, k) {
      BoundMeansProper(t, k);
    }
  }

  // ---- once bound ----

  /** The group of that UID names `content`, in the store and in the worker's copy. */
  ghost predicate BoundTo(s: State, k: Key, uid: string, content: string) {
    && uid in s.uids
    && (k in s.groups && s.groups[k].uid == uid ==> s.groups[k].content == Some(content))
    && (!s.gw.GIdle? && s.gw.k == k && s.gw.copy.uid == uid ==> s.gw.copy.content == Some(content))
  }

  lemma UserKeepsBinding(s: State, e: UserStep, k: Key, uid: string, content: string)
    requires UserMay(s, e) && BoundTo(s, k, uid, content)
    ensures BoundTo(AfterUser(s, e), k, uid, content)
  {
  }

  lemma GroupWorkerKeepsBinding(s: State, e: GroupStep, k: Key, uid: string, content: string)
    requires GroupVersions(s.groups, s.clock, s.gw) && Names(s.groups, s.gw)
    requires GroupWorkerMay(s, e) && BoundTo(s, k, uid, content)
    ensures BoundTo(AfterGroupWorker(s, e), k, uid, content)
  {
  }

  lemma BindingStep(s: State, e: Step, k: Key, uid: string, content: string)
    requires WellBound(s) && Enabled(s, e) && BoundTo(s, k, uid, content)
    ensures BoundTo(Next(s, e), k, uid, content)
  {
    hide UserMay, GroupWorkerMay, AfterUser, AfterGroupWorker, GroupVersions, Names, Refs, ReadyIsHeld, WorkerHolds,
        BoundIsFinished;
    match e
    case ByUser(x) => UserKeepsBinding(s, x, k, uid, content);
    case ByGroupWorker(x) => GroupWorkerKeepsBinding(s, x, k, uid, content);
    case ByContentWorker(x) => hide BoundTo; ContentWorkerKeepsBinding(s, x, k, uid, content);
  }

  lemma ContentWorkerKeepsBinding(s: State, e: ContentStep, k: Key, uid: string, content: string)
    requires ContentWorkerMay(s, e) && BoundTo(s, k, uid, content)
    ensures BoundTo(AfterContentWorker(s, e), k, uid, content)
  {
  }

  lemma {:induction false} BindingRun(s: State, steps: seq<Step>, k: Key, uid: string, content: string)
    requires Sound(s) && Provisioned(s) && WellBound(s) && Run(s, steps) && AllLeaveGeneratedNames(steps)
    requires BoundTo(s, k, uid, content)
    ensures BoundTo(Final(s, steps), k, uid, content)
    decreases |steps|
  {
    if steps != [] {
      hide Sound, Provisioned, WellBound, Enabled, Next, BoundTo, LeavesGeneratedNames;
      assert steps[0] in steps;
      assert forall e :: e in steps[1..] ==> e in steps;
      SoundStep(s, steps[0]);
      ProvisionedStep(s, steps[0]);
      BoundStep(s, steps[0]);
      BindingStep(s, steps[0], k, uid, content);
      BindingRun(Next(s, steps[0]), steps[1..], k, uid, content);
    }
  }

  /** Bind-once: a dynamic group that names a content names it for as long as it exists, and no
      reconcile creates a content for it again. */
  lemma BoundForEver(s: State, steps: seq<Step>, k: Key)
    requires Sound(s) && Provisioned(s) && WellBound(s) && Run(s, steps) && AllLeaveGeneratedNames(steps)
    requires k in s.groups && s.groups[k].dynamic && s.groups[k].content.Some?
    ensures var t, g := Final(s, steps), s.groups[k];
      && (k in t.groups && t.groups[k].uid == g.uid ==> t.groups[k].content == g.content == Some(MakeVGName(g.uid)))
      && forall uid :: Enabled(t, ByGroupWorker(GCreateContent(uid))) ==> t.gw.k != k || t.gw.copy.uid != g.uid
  {
    var g := s.groups[k];
    assert NamesOwnContent(g);
    assert !s.gw.GIdle? && s.gw.k == k ==> SameSpec(s.groups, k, s.gw.copy);
    assert BoundTo(s, k, g.uid, g.content.value);
    hide Run, Final;
    BindingRun(s, steps, k, g.uid, g.content.value);
  }
}
