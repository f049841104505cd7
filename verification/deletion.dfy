/** Deletion of a group and the content it names: from every point where users, failures and
    crashes may leave it, one undisturbed pass of each controller removes the group, its content
    and its backend group. */
module Deletion {
  import opened Kube
  import opened Lifecycle
  import opened BackendSafety
  import opened Provisioning
  import opened BindOnce

  /** A group being deleted, its content, and the backend group of that content. */
  datatype Doomed = Doomed(k: Key, uid: string, c: Key, contentUid: string, handle: string)

  // ---- a group being deleted, at any point ----

  /** The content a group names, or would create and name. */
  predicate Claims(k: Key, g: Group, c: Key) {
    c == if g.content.Some? then NamedKey(k, g) else GeneratedKey(k, g.uid)
  }

  /** No other group, stored or copied by the worker, claims the content. */
  ghost predicate OnlyOwner(groups: map<Key, Group>, gw: GroupWorker, x: Doomed) {
    && (forall k :: k in groups && k != x.k ==> !Claims(k, groups[k], x.c))
    && (!gw.GIdle? && gw.k != x.k ==>
          && !Claims(gw.k, gw.copy, x.c)
          && (gw.GCreated? || gw.GObserved? ==> gw.copy.content.None?))
  }

  ghost predicate GroupPart(groups: map<Key, Group>, x: Doomed) {
    x.k in groups ==>
      && groups[x.k].uid == x.uid && groups[x.k].deleting && groups[x.k].held && !groups[x.k].others
      && groups[x.k].content == Some(x.c.name)
  }

  predicate RefersBack(ref: Option<Ref>, x: Doomed) {
    ref.Some? ==> ref.value == Ref(x.k, x.uid)
  }

  /** Only the operator holds the content, whose backend group is to go with it. */
  predicate Owned(c: Content, x: Doomed) {
    c.policy == Some(Delete) && c.held && !c.others && c.handle == x.handle && RefersBack(c.ref, x)
  }

  ghost predicate ContentPart(groups: map<Key, Group>, contents: map<Key, Content>, backend: map<string, string>,
                              x: Doomed) {
    if x.c in contents then
      && contents[x.c].uid == x.contentUid && Owned(contents[x.c], x)
      && (x.k !in groups ==> contents[x.c].deleting)
    else
      x.handle !in backend
  }

  /** A worker busy with the group has read it bound, whether before or after it was marked. */
  ghost predicate GroupWorkerPart(groups: map<Key, Group>, contents: map<Key, Content>, gw: GroupWorker, x: Doomed) {
    !gw.GIdle? && gw.k == x.k ==>
      && x.k in groups && gw.copy.uid == x.uid
      && gw.copy.held && !gw.copy.others && gw.copy.content == Some(x.c.name)
      && !gw.GCreated? && !gw.GObserved?
      && (gw.GDropped? && x.c in contents ==> contents[x.c].deleting)
  }

  /** A worker busy with the content has read what is stored of it but for the mark. */
  ghost predicate ContentWorkerPart(backend: map<string, string>, cw: ContentWorker, x: Doomed) {
    !cw.CIdle? && cw.k == x.c ==>
      !cw.CCreated? && Owned(cw.copy, x) && (cw.CDeleted? ==> x.handle !in backend)
  }

  ghost predicate IssuedTo(s: State, x: Doomed) {
    x.uid in s.uids && x.contentUid in s.uids && x.handle in s.ids
  }

  predicate WellNamed(x: Doomed) {
    x.handle != "" && x.c.name != "" && x.c.namespace == x.k.namespace
  }

  ghost predicate Deleting(s: State, x: Doomed) {
    && IssuedTo(s, x) && WellNamed(x)
    && OnlyOwner(s.groups, s.gw, x)
    && GroupPart(s.groups, x)
    && ContentPart(s.groups, s.contents, s.backend, x)
    && GroupWorkerPart(s.groups, s.contents, s.gw, x)
    && ContentWorkerPart(s.backend, s.cw, x)
  }

  /** The group a user's step creates. */
  function Created(e: UserStep): Group
    requires e.CreateGroup?
  {
    Group(e.uid, 0, e.content.None?, e.content, false, false, false)
  }

  /** Users do not take the keys of the two objects, let no other group claim the content, and put
      no further finalizer on either. */
  predicate Unhindered(e: Step, x: Doomed) {
    e.ByUser? ==>
      && (e.user.CreateGroup? ==> e.user.k != x.k && !Claims(e.user.k, Created(e.user), x.c))
      && (e.user.CreateContent? ==> e.user.k != x.c)
      && (e.user.OtherFinalizerOnGroup? && e.user.k == x.k ==> !e.user.present)
      && (e.user.OtherFinalizerOnContent? && e.user.k == x.c ==> !e.user.present)
  }

  // ---- steps of users ----

  lemma UserOnGroupPart(s: State, e: UserStep, x: Doomed)
    requires GroupPart(s.groups, x) && UserMay(s, e) && Unhindered(ByUser(e), x)
    ensures GroupPart(AfterUser(s, e).groups, x) && (x.k in AfterUser(s, e).groups <==> x.k in s.groups)
  {
  }

  lemma UserOnOthers(s: State, e: UserStep, x: Doomed)
    requires OnlyOwner(s.groups, s.gw, x) && UserMay(s, e) && Unhindered(ByUser(e), x)
    ensures OnlyOwner(AfterUser(s, e).groups, AfterUser(s, e).gw, x)
  {
  }

  /** What a step may do to the content without touching the controllers' copies of it. */
  ghost predicate Marks(contents: map<Key, Content>, contents': map<Key, Content>, x: Doomed) {
    && (x.c in contents' ==> x.c in contents)
    && (x.c in contents && contents[x.c].deleting && x.c in contents' ==> contents'[x.c].deleting)
  }

  lemma UserOnContentPart(s: State, e: UserStep, x: Doomed)
    requires ContentPart(s.groups, s.contents, s.backend, x) && UserMay(s, e) && Unhindered(ByUser(e), x)
    ensures var t := AfterUser(s, e);
      && ContentPart(s.groups, t.contents, t.backend, x) && Marks(s.contents, t.contents, x)
      && t.gw == s.gw && t.cw == s.cw && t.backend == s.backend && s.uids <= t.uids && t.ids == s.ids
  {
  }

  lemma UserKeepsDeleting(s: State, e: UserStep, x: Doomed)
    requires Deleting(s, x) && UserMay(s, e) && Unhindered(ByUser(e), x)
    ensures Deleting(AfterUser(s, e), x)
  {
    hide UserMay, AfterUser, Unhindered, GroupPart, OnlyOwner, Owned, WellNamed;
    UserOnGroupPart(s, e, x);
    UserOnOthers(s, e, x);
    UserOnContentPart(s, e, x);
  }

  // ---- steps of the group controller ----

  lemma GroupWorkerOnGroupPart(s: State, e: GroupStep, x: Doomed)
    requires GroupPart(s.groups, x) && GroupWorkerPart(s.groups, s.contents, s.gw, x) && GroupWorkerMay(s, e)
    ensures var t := AfterGroupWorker(s, e);
      && GroupPart(t.groups, x)
      && (x.k in s.groups && x.k !in t.groups ==> s.gw.GDropped? && s.gw.k == x.k && t.gw.GIdle?)
      && (x.k in t.groups ==> x.k in s.groups)
  {
  }

  lemma GroupWorkerOnOthers(s: State, e: GroupStep, x: Doomed)
    requires OnlyOwner(s.groups, s.gw, x) && GroupWorkerMay(s, e)
    ensures var t := AfterGroupWorker(s, e); OnlyOwner(t.groups, t.gw, x)
  {
  }

  /** The worker of another group does not touch the content. */
  lemma OthersLeaveContent(s: State, e: GroupStep, x: Doomed)
    requires WellNamed(x) && OnlyOwner(s.groups, s.gw, x) && GroupWorkerMay(s, e)
    requires s.gw.GIdle? || s.gw.k != x.k
    ensures var t := AfterGroupWorker(s, e);
      && (x.c in t.contents <==> x.c in s.contents)
      && (x.c in s.contents ==> t.contents[x.c] == s.contents[x.c])
  {
    hide MakeVGName;
  }

  lemma OwnWorkerOnContent(s: State, e: GroupStep, x: Doomed)
    requires WellNamed(x) && ContentPart(s.groups, s.contents, s.backend, x)
    requires GroupWorkerPart(s.groups, s.contents, s.gw, x) && GroupWorkerMay(s, e)
    requires !s.gw.GIdle? && s.gw.k == x.k
    ensures var t := AfterGroupWorker(s, e);
      ContentPart(s.groups, t.contents, s.backend, x) && Marks(s.contents, t.contents, x)
  {
  }

  lemma GroupWorkerFrame(s: State, e: GroupStep)
    requires GroupWorkerMay(s, e)
    ensures var t := AfterGroupWorker(s, e);
      t.cw == s.cw && t.backend == s.backend && s.uids <= t.uids && t.ids == s.ids
  {
  }

  lemma GroupWorkerOnContentPart(s: State, e: GroupStep, x: Doomed)
    requires WellNamed(x) && ContentPart(s.groups, s.contents, s.backend, x)
    requires GroupWorkerPart(s.groups, s.contents, s.gw, x) && OnlyOwner(s.groups, s.gw, x) && GroupWorkerMay(s, e)
    ensures var t := AfterGroupWorker(s, e);
      && ContentPart(s.groups, t.contents, t.backend, x) && Marks(s.contents, t.contents, x)
      && t.cw == s.cw && t.backend == s.backend && s.uids <= t.uids && t.ids == s.ids
  {
    GroupWorkerFrame(s, e);
    hide GroupWorkerMay, AfterGroupWorker, OnlyOwner, WellNamed, Owned;
    if s.gw.GIdle? || s.gw.k != x.k {
      OthersLeaveContent(s, e, x);
    } else {
      OwnWorkerOnContent(s, e, x);
    }
  }

  lemma GroupWorkerOnItself(s: State, e: GroupStep, x: Doomed)
    requires GroupPart(s.groups, x) && GroupWorkerPart(s.groups, s.contents, s.gw, x) && GroupWorkerMay(s, e)
    requires WellNamed(x) && ContentPart(s.groups, s.contents, s.backend, x)
    ensures var t := AfterGroupWorker(s, e); GroupWorkerPart(t.groups, t.contents, t.gw, x)
  {
    hide MakeVGName;
  }

  lemma GroupWorkerKeepsDeleting(s: State, e: GroupStep, x: Doomed)
    requires Deleting(s, x) && GroupWorkerMay(s, e)
    ensures Deleting(AfterGroupWorker(s, e), x)
  {
    hide GroupWorkerMay, AfterGroupWorker, GroupPart, OnlyOwner, Owned, WellNamed;
    GroupWorkerOnGroupPart(s, e, x);
    GroupWorkerOnOthers(s, e, x);
    GroupWorkerOnContentPart(s, e, x);
    GroupWorkerOnItself(s, e, x);
  }

  // ---- steps of the content controller ----

  lemma ContentWorkerOnContentPart(s: State, e: ContentStep, x: Doomed)
    requires WellNamed(x) && x.handle in s.ids && ContentPart(s.groups, s.contents, s.backend, x)
    requires ContentWorkerPart(s.backend, s.cw, x) && ContentWorkerMay(s, e)
    ensures var t := AfterContentWorker(s, e);
      && ContentPart(t.groups, t.contents, t.backend, x) && Marks(s.contents, t.contents, x)
      && t.gw == s.gw && t.groups == s.groups && t.uids == s.uids && s.ids <= t.ids
  {
  }

  lemma ContentWorkerOnItself(s: State, e: ContentStep, x: Doomed)
    requires WellNamed(x) && x.handle in s.ids && ContentPart(s.groups, s.contents, s.backend, x)
    requires ContentWorkerPart(s.backend, s.cw, x) && ContentWorkerMay(s, e)
    ensures var t := AfterContentWorker(s, e); ContentWorkerPart(t.backend, t.cw, x)
  {
  }

  lemma ContentWorkerKeepsDeleting(s: State, e: ContentStep, x: Doomed)
    requires Deleting(s, x) && ContentWorkerMay(s, e)
    ensures Deleting(AfterContentWorker(s, e), x)
  {
    hide ContentWorkerMay, AfterContentWorker, GroupPart, ContentPart, ContentWorkerPart, OnlyOwner, WellNamed;
    ContentWorkerOnContentPart(s, e, x);
    ContentWorkerOnItself(s, e, x);
  }

  // ---- runs ----

  lemma DeletingStep(s: State, e: Step, x: Doomed)
    requires Deleting(s, x) && Enabled(s, e) && Unhindered(e, x)
    ensures Deleting(Next(s, e), x)
  {
    hide Deleting, UserMay, GroupWorkerMay, ContentWorkerMay, AfterUser, AfterGroupWorker, AfterContentWorker,
        Unhindered;
    match e
    case ByUser(y) => UserKeepsDeleting(s, y, x);
    case ByGroupWorker(y) => GroupWorkerKeepsDeleting(s, y, x);
    case ByContentWorker(y) => ContentWorkerKeepsDeleting(s, y, x);
  }

  ghost predicate AllUnhindered(steps: seq<Step>, x: Doomed) {
    forall e :: e in steps ==> Unhindered(e, x)
  }

  lemma {:induction false} DeletingRun(s: State, steps: seq<Step>, x: Doomed)
    requires Deleting(s, x) && Run(s, steps) && AllUnhindered(steps, x)
    ensures Deleting(Final(s, steps), x)
    decreases |steps|
  {
    if steps != [] {
      hide Deleting, Enabled, Next, Unhindered;
      assert steps[0] in steps;
      assert forall e :: e in steps[1..] ==> e in steps;
      DeletingStep(s, steps[0], x);
      DeletingRun(Next(s, steps[0]), steps[1..], x);
    }
  }

  // ---- nothing comes back ----

  predicate GroupThere(s: State, x: Doomed) {
    x.k in s.groups && s.groups[x.k].uid == x.uid
  }

  predicate ContentThere(s: State, x: Doomed) {
    x.c in s.contents && s.contents[x.c].uid == x.contentUid
  }

  predicate Unmarked(s: State, x: Doomed) {
    ContentThere(s, x) && !s.contents[x.c].deleting
  }

  /** The volumes the content lists, or will list again when a copy is written back. */
  function VolumesLeft(s: State, x: Doomed): set<string> {
    if !ContentThere(s, x) then {}
    else s.contents[x.c].volumes + if (s.cw.CRead? || s.cw.CChecked?) && s.cw.k == x.c then s.cw.copy.volumes else {}
  }

  /** What is left to do, in this order: mark the content, drop the group; delete the claims; then
      delete the backend group, drop the content. The volumes are still the group's to change while
      it is there. */
  datatype Work = Work(before: nat, volumes: set<string>, after: nat)

  function Remaining(s: State, x: Doomed): Work {
    Work((if Unmarked(s, x) then 2 else 0) + (if GroupThere(s, x) then 1 else 0),
         if GroupThere(s, x) then {} else VolumesLeft(s, x),
         (if x.handle in s.backend then 2 else 0) + (if ContentThere(s, x) then 1 else 0))
  }

  predicate NoMore(a: Work, b: Work) {
    a.before <= b.before && a.after <= b.after && (a.before == b.before ==> a.volumes <= b.volumes)
  }

  /** Once false, each of the four is false for good. */
  ghost predicate NoneReturns(s: State, t: State, x: Doomed) {
    && (GroupThere(t, x) ==> GroupThere(s, x))
    && (ContentThere(t, x) ==> ContentThere(s, x))
    && (Unmarked(t, x) ==> Unmarked(s, x))
    && (x.handle in t.backend ==> x.handle in s.backend)
  }

  lemma UserNoneReturns(s: State, e: UserStep, x: Doomed)
    requires UserMay(s, e) && IssuedTo(s, x)
    ensures NoneReturns(s, AfterUser(s, e), x) && IssuedTo(AfterUser(s, e), x)
  {
  }

  lemma GroupWorkerNoneReturns(s: State, e: GroupStep, x: Doomed)
    requires GroupWorkerMay(s, e) && IssuedTo(s, x)
    ensures NoneReturns(s, AfterGroupWorker(s, e), x) && IssuedTo(AfterGroupWorker(s, e), x)
  {
  }

  lemma ContentWorkerNoneReturns(s: State, e: ContentStep, x: Doomed)
    requires ContentWorkerMay(s, e) && IssuedTo(s, x)
    ensures NoneReturns(s, AfterContentWorker(s, e), x) && IssuedTo(AfterContentWorker(s, e), x)
  {
  }

  lemma NoneReturnsStep(s: State, e: Step, x: Doomed)
    requires Enabled(s, e) && IssuedTo(s, x)
    ensures NoneReturns(s, Next(s, e), x) && IssuedTo(Next(s, e), x)
  {
    hide UserMay, GroupWorkerMay, ContentWorkerMay, AfterUser, AfterGroupWorker, AfterContentWorker, NoneReturns,
        IssuedTo;
    match e
    case ByUser(y) => UserNoneReturns(s, y, x);
    case ByGroupWorker(y) => GroupWorkerNoneReturns(s, y, x);
    case ByContentWorker(y) => ContentWorkerNoneReturns(s, y, x);
  }

  /** Over every run of users, controllers, failures and crashes no group, content, mark or backend
      group of that identity comes back, whatever users do. */
  lemma {:induction false} NothingComesBack(s: State, steps: seq<Step>, x: Doomed)
    requires Run(s, steps) && IssuedTo(s, x)
    ensures NoneReturns(s, Final(s, steps), x)
    decreases |steps|
  {
    if steps != [] {
      hide Enabled, Next, IssuedTo, GroupThere, ContentThere, Unmarked;
      NoneReturnsStep(s, steps[0], x);
      NothingComesBack(Next(s, steps[0]), steps[1..], x);
    }
  }

  lemma UserVolumes(s: State, e: UserStep, x: Doomed)
    requires UserMay(s, e) && IssuedTo(s, x)
    ensures VolumesLeft(AfterUser(s, e), x) <= VolumesLeft(s, x)
  {
  }

  lemma GroupWorkerVolumes(s: State, e: GroupStep, x: Doomed)
    requires GroupWorkerMay(s, e) && IssuedTo(s, x) && OnlyOwner(s.groups, s.gw, x)
    requires GroupWorkerPart(s.groups, s.contents, s.gw, x) && x.k !in s.groups
    ensures VolumesLeft(AfterGroupWorker(s, e), x) <= VolumesLeft(s, x)
  {
    hide MakeVGName;
  }

  lemma ContentWorkerVolumes(s: State, e: ContentStep, x: Doomed)
    requires ContentWorkerMay(s, e) && IssuedTo(s, x)
    ensures VolumesLeft(AfterContentWorker(s, e), x) <= VolumesLeft(s, x)
  {
  }

  /** Once the group is gone the volumes left only get fewer. */
  lemma VolumesStep(s: State, e: Step, x: Doomed)
    requires Deleting(s, x) && Enabled(s, e) && x.k !in s.groups
    ensures VolumesLeft(Next(s, e), x) <= VolumesLeft(s, x)
  {
    hide UserMay, GroupWorkerMay, ContentWorkerMay, AfterUser, AfterGroupWorker, AfterContentWorker, VolumesLeft,
        IssuedTo;
    hide OnlyOwner, GroupWorkerPart, ContentPart, ContentWorkerPart, GroupPart;
    match e
    case ByUser(y) => UserVolumes(s, y, x);
    case ByGroupWorker(y) => GroupWorkerVolumes(s, y, x);
    case ByContentWorker(y) => ContentWorkerVolumes(s, y, x);
  }

  lemma RemainingStep(s: State, e: Step, x: Doomed)
    requires Deleting(s, x) && Enabled(s, e)
    ensures NoMore(Remaining(Next(s, e), x), Remaining(s, x))
  {
    hide Enabled, Next, VolumesLeft, OnlyOwner, GroupWorkerPart, ContentPart, ContentWorkerPart;
    NoneReturnsStep(s, e, x);
    if x.k !in s.groups {
      VolumesStep(s, e, x);
    }
  }

  /** Over every run that does not hinder the deletion, with failures and crashes at any point, the
      work left never grows. */
  lemma {:induction false} RemainingNeverGrows(s: State, steps: seq<Step>, x: Doomed)
    requires Deleting(s, x) && Run(s, steps) && AllUnhindered(steps, x)
    ensures NoMore(Remaining(Final(s, steps), x), Remaining(s, x))
    decreases |steps|
  {
    if steps != [] {
      hide Deleting, Enabled, Next, Unhindered, Remaining;
      assert steps[0] in steps;
      assert forall e :: e in steps[1..] ==> e in steps;
      RemainingStep(s, steps[0], x);
      DeletingStep(s, steps[0], x);
      RemainingNeverGrows(Next(s, steps[0]), steps[1..], x);
    }
  }

  /** The steps of the two passes that have something left to do. */
  ghost predicate GroupWorkerWorks(s: State, e: GroupStep, x: Doomed)
    requires GroupWorkerMay(s, e)
  {
    (e.GRelease? || (e.GDropContent? && Unmarked(s, x))) && s.gw.k == x.k
  }

  ghost predicate ContentWorkerWorks(s: State, e: ContentStep, x: Doomed)
    requires ContentWorkerMay(s, e)
  {
    || (e.CDeleteClaim? && s.cw.k == x.c && x.k !in s.groups && e.volume in VolumesLeft(s, x))
    || (e.CDeleteBackend? && s.cw.k == x.c && x.handle in s.backend)
    || (e.CRelease? && s.cw.k == x.c)
  }

  ghost predicate Works(s: State, e: Step, x: Doomed)
    requires Enabled(s, e)
  {
    match e
    case ByUser(_) => false
    case ByGroupWorker(y) => GroupWorkerWorks(s, y, x)
    case ByContentWorker(y) => ContentWorkerWorks(s, y, x)
  }

  lemma GroupWorkerProgress(s: State, e: GroupStep, x: Doomed)
    requires Deleting(s, x) && GroupWorkerMay(s, e) && GroupWorkerWorks(s, e, x)
    ensures Remaining(AfterGroupWorker(s, e), x) != Remaining(s, x)
  {
    var t := AfterGroupWorker(s, e);
    assert e.GRelease? ==> GroupThere(s, x) && !GroupThere(t, x) && Unmarked(t, x) == Unmarked(s, x);
    assert e.GDropContent? ==> t.groups == s.groups && !Unmarked(t, x);
  }

  lemma ContentWorkerProgress(s: State, e: ContentStep, x: Doomed)
    requires Deleting(s, x) && ContentWorkerMay(s, e) && ContentWorkerWorks(s, e, x)
    ensures Remaining(AfterContentWorker(s, e), x) != Remaining(s, x)
  {
    var t := AfterContentWorker(s, e);
    assert e.CDeleteClaim? ==> !GroupThere(s, x) && !GroupThere(t, x) && e.volume !in VolumesLeft(t, x);
    assert e.CDeleteBackend? ==> t.contents == s.contents && x.handle !in t.backend;
    assert e.CRelease? ==> t.backend == s.backend && !ContentThere(t, x);
  }

  /** Each of them, in a pass or not, leaves less to do. */
  lemma WorkGetsLess(s: State, e: Step, x: Doomed)
    requires Deleting(s, x) && Enabled(s, e) && Works(s, e, x)
    ensures NoMore(Remaining(Next(s, e), x), Remaining(s, x)) && Remaining(Next(s, e), x) != Remaining(s, x)
  {
    RemainingStep(s, e, x);
    hide Deleting, Remaining, GroupWorkerWorks, ContentWorkerWorks, UserMay, GroupWorkerMay, ContentWorkerMay, NoMore;
    hide AfterUser, AfterGroupWorker, AfterContentWorker;
    match e
    case ByUser(_) =>
    case ByGroupWorker(y) => GroupWorkerProgress(s, y, x);
    case ByContentWorker(y) => ContentWorkerProgress(s, y, x);
  }

  // ---- the last pass ----

  /** One reconcile of the deleted group, without an error. */
  function GroupPass(k: Key): seq<Step> {
    [ByGroupWorker(GStart(k)), ByGroupWorker(GDropContent), ByGroupWorker(GRelease)]
  }

  /** The claim deletions of one reconcile of the content. */
  function ClaimDeletions(volumes: seq<string>): seq<Step> {
    if volumes == [] then [] else [ByContentWorker(CDeleteClaim(volumes[0]))] + ClaimDeletions(volumes[1..])
  }

  /** One reconcile of the deleted content, without an error. */
  function ContentPass(c: Key, policy: Policy, volumes: seq<string>): seq<Step> {
    [ByContentWorker(CStart(c)), ByContentWorker(CCheck)] + ClaimDeletions(volumes)
    + [ByContentWorker(Disposal(policy)), ByContentWorker(CRelease)]
  }

  /** What is done about the backend group. */
  function Disposal(policy: Policy): ContentStep {
    if policy == Delete then CDeleteBackend(false) else CKeepBackend
  }

  /** Both controllers restart, and each runs one undisturbed pass for what is still there. */
  function LastPass(s: State, x: Doomed, volumes: seq<string>): seq<Step> {
    [ByGroupWorker(GStop), ByContentWorker(CStop)]
    + (if x.k in s.groups then GroupPass(x.k) else [])
    + (if x.c in s.contents then ContentPass(x.c, Delete, volumes) else [])
  }

  predicate AllGone(s: State, x: Doomed) {
    x.k !in s.groups && x.c !in s.contents && x.handle !in s.backend
  }

  /** Only the operator holds the deleted group, and the content it names has a policy. */
  ghost predicate Releasable(s: State, k: Key) {
    && s.gw.GIdle? && k in s.groups
    && s.groups[k].deleting && s.groups[k].held && !s.groups[k].others
    && (FindsContent(s, k, s.groups[k]) ==> s.contents[NamedKey(k, s.groups[k])].policy.Some?)
  }

  /** Of the contents of a state `s`, exactly the one the group names is touched, if that has policy
      Delete: it goes at once, or is marked while finalizers hold it. */
  ghost predicate OnlyItsContent(s: State, k: Key, contents: map<Key, Content>)
    requires k in s.groups
  {
    && (forall c :: c in s.contents && !s.contents[c].deleting ==>
          if s.groups[k].content == Some(c.name) && c.namespace == k.namespace && s.contents[c].policy == Some(Delete)
          then (c in contents <==> s.contents[c].held || s.contents[c].others)
              && (c in contents ==> contents[c].deleting)
          else c in contents && contents[c] == s.contents[c])
    && (forall c :: (c in contents ==> c in s.contents) && (c in s.contents && s.contents[c].held ==> c in contents))
  }

  lemma DropContentEffect(s: State, k: Key)
    requires Releasable(s, k)
    ensures var t := DropContent(s.(gw := GRead(k, s.groups[k])));
      && OnlyItsContent(s, k, t.contents)
      && t == s.(contents := t.contents, clock := t.clock, gw := GDropped(k, s.groups[k]))
  {
  }

  /** The reconcile removes the group, and of the contents it touches only the one of the group. */
  lemma GroupPassRuns(s: State, k: Key)
    requires Releasable(s, k)
    ensures Run(s, GroupPass(k))
    ensures var t := Final(s, GroupPass(k));
      && t.groups == s.groups - {k} && t.gw.GIdle? && t.cw == s.cw && t.uids == s.uids
      && OnlyItsContent(s, k, t.contents)
  {
    var a, b, c := ByGroupWorker(GStart(k)), ByGroupWorker(GDropContent), ByGroupWorker(GRelease);
    var r := s.(gw := GRead(k, s.groups[k]));
    var u := DropContent(r);
    DropContentEffect(s, k);
    hide OnlyItsContent, DropContent;
    assert Enabled(s, a) && Next(s, a) == r;
    assert Enabled(r, b) && Next(r, b) == u;
    assert Enabled(u, c) && Next(u, c) == u.(groups := s.groups - {k}, gw := GIdle);
    hide Enabled, Next, Releasable;
    RunTwo(s, a, b);
    RunOne(u, c);
    RunsCompose(s, [a, b], [c]);
    assert [a, b] + [c] == GroupPass(k);
  }

  /** The copy is current, and nothing but the list of volumes has been changed. */
  ghost predicate Unlisted(s: State, t: State) {
    && s.cw.CChecked? && t.cw.CChecked? && t.cw.k == s.cw.k && t.cw.checked == s.cw.checked
    && t.cw.k in t.contents && t.contents[t.cw.k] == t.cw.copy
    && t.cw.copy == s.cw.copy.(version := t.cw.copy.version, volumes := t.cw.copy.volumes)
    && t.groups == s.groups && t.backend == s.backend && t.gw == s.gw && t.contents.Keys == s.contents.Keys
  }

  lemma OneClaimDeletion(s: State, volume: string)
    requires s.cw.CChecked? && s.cw.k in s.contents && s.contents[s.cw.k] == s.cw.copy
    ensures var e := ByContentWorker(CDeleteClaim(volume)); Enabled(s, e) && Unlisted(s, Next(s, e))
  {
  }

  lemma {:induction false} ClaimDeletionsRun(s: State, volumes: seq<string>)
    requires s.cw.CChecked? && s.cw.k in s.contents && s.contents[s.cw.k] == s.cw.copy
    ensures Run(s, ClaimDeletions(volumes)) && Unlisted(s, Final(s, ClaimDeletions(volumes)))
    decreases |volumes|
  {
    if volumes != [] {
      var e := ByContentWorker(CDeleteClaim(volumes[0]));
      OneClaimDeletion(s, volumes[0]);
      hide Enabled, Next;
      RunOne(s, e);
      ClaimDeletionsRun(Next(s, e), volumes[1..]);
      RunsCompose(s, [e], ClaimDeletions(volumes[1..]));
    }
  }

  /** The content is marked, only the operator holds it, and it has a policy. */
  ghost predicate Ripe(s: State, c: Key) {
    && s.cw.CIdle? && c in s.contents
    && s.contents[c].deleting && s.contents[c].held && !s.contents[c].others
    && s.contents[c].policy.Some?
  }

  /** No group has the key of the one the content refers to, if it refers to any. */
  predicate KeyIsFree(s: State, c: Content) {
    c.ref.Some? ==> c.ref.value.key !in s.groups
  }

  /** What the last two steps of the pass make of a content in the hands of the worker. */
  lemma DisposesAndReleases(v: State)
    requires v.cw.CChecked? && v.cw.k in v.contents && !v.cw.copy.others && v.cw.copy.policy.Some?
    ensures var a, b := ByContentWorker(Disposal(v.cw.copy.policy.value)), ByContentWorker(CRelease);
      && Enabled(v, a) && Enabled(Next(v, a), b)
      && var t := Next(Next(v, a), b);
      && t.groups == v.groups && t.contents == v.contents - {v.cw.k}
      && t.backend == if v.cw.copy.policy == Some(Delete) then v.backend - {v.cw.copy.handle} else v.backend
  {
  }

  /** The reconcile of a ripe content removes it, and its backend group exactly if the policy is
      Delete. */
  lemma ContentPassRuns(s: State, c: Key, volumes: seq<string>)
    requires Ripe(s, c) && KeyIsFree(s, s.contents[c])
    ensures var pass := ContentPass(c, s.contents[c].policy.value, volumes);
      && Run(s, pass)
      && var t := Final(s, pass);
      && t.groups == s.groups && t.contents.Keys == s.contents.Keys - {c}
      && t.backend == if s.contents[c].policy == Some(Delete) then s.backend - {s.contents[c].handle} else s.backend
  {
    var start, check := ByContentWorker(CStart(c)), ByContentWorker(CCheck);
    var policy := s.contents[c].policy.value;
    var delete, release := ByContentWorker(Disposal(policy)), ByContentWorker(CRelease);
    var u := Next(Next(s, start), check);
    assert u.cw == CChecked(c, s.contents[c], s.contents[c].ref) && u.contents == s.contents && u.groups == s.groups;
    ClaimDeletionsRun(u, volumes);
    var v := Final(u, ClaimDeletions(volumes));
    assert v.cw.copy.policy == s.contents[c].policy && v.cw.copy.handle == s.contents[c].handle
        && v.backend == s.backend;
    hide Enabled, Next, Disposal;
    DisposesAndReleases(v);
    RunTwo(s, start, check);
    hide Unlisted, Ripe;
    RunsCompose(s, [start, check], ClaimDeletions(volumes));
    RunTwo(v, delete, release);
    RunsCompose(s, [start, check] + ClaimDeletions(volumes), [delete, release]);
    assert [start, check] + ClaimDeletions(volumes) + [delete, release] == ContentPass(c, policy, volumes);
  }

  lemma {:induction false} ControllerStepsUnhindered(steps: seq<Step>, x: Doomed)
    requires forall e :: e in steps ==> !e.ByUser?
    ensures AllUnhindered(steps, x)
  {
  }

  lemma AfterTheGroupPass(s: State, x: Doomed)
    requires Deleting(s, x) && x.k in s.groups && s.gw.GIdle? && s.cw.CIdle?
    ensures Run(s, GroupPass(x.k))
    ensures var t := Final(s, GroupPass(x.k)); Deleting(t, x) && x.k !in t.groups && t.gw.GIdle? && t.cw.CIdle?
    ensures var t := Final(s, GroupPass(x.k)); x.c in t.contents <==> x.c in s.contents
  {
    assert Releasable(s, x.k) by {
      assert NamedKey(x.k, s.groups[x.k]) == x.c;
    }
    GroupPassRuns(s, x.k);
    hide Deleting, Run, Final;
    ControllerStepsUnhindered(GroupPass(x.k), x);
    DeletingRun(s, GroupPass(x.k), x);
  }

  /** The content pass as far as it is needed: without a content the backend group is gone too. */
  lemma RestOfThePass(s: State, x: Doomed, volumes: seq<string>)
    requires Deleting(s, x) && x.k !in s.groups && s.cw.CIdle?
    ensures var rest := if x.c in s.contents then ContentPass(x.c, Delete, volumes) else [];
      Run(s, rest) && AllGone(Final(s, rest), x)
  {
    if x.c in s.contents {
      ContentPassRuns(s, x.c, volumes);
    }
  }

  lemma BothStop(s: State)
    ensures var both := [ByGroupWorker(GStop), ByContentWorker(CStop)];
      Run(s, both) && Final(s, both) == s.(gw := GIdle, cw := CIdle)
  {
  }

  lemma LastPassRuns(s: State, x: Doomed, volumes: seq<string>)
    requires Deleting(s, x)
    ensures Run(s, LastPass(s, x, volumes)) && AllGone(Final(s, LastPass(s, x, volumes)), x)
  {
    var both := [ByGroupWorker(GStop), ByContentWorker(CStop)];
    var u := s.(gw := GIdle, cw := CIdle);
    BothStop(s);
    ControllerStepsUnhindered(both, x);
    DeletingRun(s, both, x);
    hide Deleting, Run, Final;
    var pass := if x.k in s.groups then GroupPass(x.k) else [];
    if x.k in s.groups {
      AfterTheGroupPass(u, x);
    } else {
      NoStepsYet(u);
    }
    RunsCompose(s, both, pass);
    var v := Final(s, both + pass);
    var rest := if x.c in s.contents then ContentPass(x.c, Delete, volumes) else [];
    RestOfThePass(v, x, volumes);
    RunsCompose(s, both + pass, rest);
    assert both + pass + rest == LastPass(s, x, volumes);
  }

  /** Deletion terminates: whatever users, failures and crashes did since the group was marked, as
      long as they do not hinder it, one pass of the group controller and then one of the content
      controller leave neither the group, nor its content, nor its backend group. */
  lemma DeletionTerminates(s: State, steps: seq<Step>, x: Doomed, volumes: seq<string>)
    requires Deleting(s, x) && Run(s, steps) && AllUnhindered(steps, x)
    ensures var t := Final(s, steps); Run(t, LastPass(t, x, volumes)) && AllGone(Final(t, LastPass(t, x, volumes)), x)
  {
    DeletingRun(s, steps, x);
    var t := Final(s, steps);
    hide Deleting, Run, Final;
    LastPassRuns(t, x, volumes);
  }

  // ---- where deletion starts ----

  function DoomedBy(s: State, k: Key): Doomed
    requires k in s.groups && FindsContent(s, k, s.groups[k])
  {
    var c := NamedKey(k, s.groups[k]);
    Doomed(k, s.groups[k].uid, c, s.contents[c].uid, s.contents[c].handle)
  }

  /** The group and the content it names are held by the operator alone, and no other group claims
      the content. */
  ghost predicate Exclusive(s: State, k: Key) {
    && k in s.groups && s.groups[k].held && !s.groups[k].others
    && s.groups[k].content != Some("") && FindsContent(s, k, s.groups[k])
    && var x := DoomedBy(s, k);
    && Owned(s.contents[x.c], x) && x.handle != "" && x.handle in s.ids
    && OnlyOwner(s.groups, s.gw, x)
  }

  /** A worker that is reconciling the group or its content has them as they are stored, and has
      not got as far as a deletion. */
  ghost predicate CopiesAreCurrent(s: State, k: Key)
    requires k in s.groups && FindsContent(s, k, s.groups[k])
  {
    && (!s.gw.GIdle? && s.gw.k == k ==>
          && s.gw.copy.uid == s.groups[k].uid && s.gw.copy.held && !s.gw.copy.others
          && s.gw.copy.content == s.groups[k].content
          && !s.gw.GDropped? && !s.gw.GCreated? && !s.gw.GObserved?)
    && (!s.cw.CIdle? && s.cw.k == DoomedBy(s, k).c ==>
          Owned(s.cw.copy, DoomedBy(s, k)) && !s.cw.CCreated? && !s.cw.CDeleted?)
  }

  /** Deletion of a bound group, dynamic or static, starts in such a state, also when it arrives
      in the middle of a reconcile of the group, of its content, or of both. */
  lemma DeletingABoundGroup(s: State, k: Key)
    requires Sound(s) && Issued(s.contents, s.uids, s.cw) && Exclusive(s, k) && CopiesAreCurrent(s, k)
    ensures Deleting(AfterUser(s, DeleteGroup(k)), DoomedBy(s, k))
  {
  }

  /** No group but the one in its name claims a generated content. */
  lemma GeneratedHasOneOwner(s: State, k: Key)
    requires Sound(s) && WellBound(s) && k in s.groups && s.groups[k].dynamic && s.groups[k].content.Some?
    requires !s.gw.GIdle? && s.gw.k == k ==> s.gw.copy.uid == s.groups[k].uid
    ensures FindsContent(s, k, s.groups[k]) && OnlyOwner(s.groups, s.gw, DoomedBy(s, k))
  {
    var uid := s.groups[k].uid;
    MakeVGNameRoundTrip(uid, "");
    forall j | j in s.groups && j != k ensures !Claims(j, s.groups[j], DoomedBy(s, k).c) {
      MakeVGNameRoundTrip(s.groups[j].uid, MakeVGName(uid));
    }
    if !s.gw.GIdle? {
      MakeVGNameRoundTrip(s.gw.copy.uid, MakeVGName(uid));
    }
  }

  /** A bound dynamic group, with a content of policy Delete and no finalizers of others, is such a
      group by what the runs keep. */
  lemma BoundGroupsAreExclusive(s: State, k: Key)
    requires Sound(s) && Provisioned(s) && WellBound(s) && k in s.groups && s.groups[k].dynamic
        && s.groups[k].content.Some?
    requires s.groups[k].held && !s.groups[k].others
    requires !s.gw.GIdle? && s.gw.k == k ==> s.gw.copy.uid == s.groups[k].uid
    requires var c := GeneratedKey(k, s.groups[k].uid);
      c in s.contents ==> s.contents[c].policy == Some(Delete) && !s.contents[c].others && s.contents[c].handle in s.ids
    ensures Exclusive(s, k)
  {
    GeneratedHasOneOwner(s, k);
    BoundMeansProper(s, k);
  }

  /** Apart from errors the pass is forced: at each point the worker can take only the next step
      of it, and can take it. */
  lemma PassIsForced(s: State, x: Doomed)
    requires Deleting(s, x)
    ensures s.gw.GRead? && s.gw.k == x.k && s.gw.copy.deleting ==>
      forall e :: GroupWorkerMay(s, e) <==> e == GDropContent || e == GStop
    ensures s.gw.GDropped? && s.gw.k == x.k ==>
      forall e :: GroupWorkerMay(s, e) <==> e == GRelease || e == GStop
    ensures s.cw.CRead? && s.cw.k == x.c && s.cw.copy.deleting && x.k !in s.groups ==>
      forall e :: ContentWorkerMay(s, e) <==> e == CCheck || e == CStop
    ensures s.cw.CChecked? && s.cw.k == x.c && x.c in s.contents ==>
      forall e :: ContentWorkerMay(s, e) <==> e.CDeleteClaim? || e.CDeleteBackend? || e == CStop
    ensures s.cw.CDeleted? && s.cw.k == x.c && x.c in s.contents ==>
      forall e :: ContentWorkerMay(s, e) <==> e == CRelease || e == CStop
  {
  }

  // ---- when the content cannot go ----

  /** The content is as it was, and the worker has got no further with it than reading it. */
  ghost predicate Waiting(s: State, c: Key, content: Content) {
    && c in s.contents && s.contents[c] == content && content.deleting && content.held
    && content.ref.Some? && content.ref.value.key in s.groups
    && (!s.cw.CIdle? && s.cw.k == c ==> s.cw == CRead(c, content))
  }

  lemma WaitingStep(s: State, e: ContentStep, c: Key, content: Content)
    requires Waiting(s, c, content) && ContentWorkerMay(s, e)
    ensures Waiting(AfterContentWorker(s, e), c, content)
  {
  }

  ghost predicate ByContentWorkerOnly(steps: seq<Step>) {
    forall e :: e in steps ==> e.ByContentWorker?
  }

  lemma {:induction false} WaitingRun(s: State, steps: seq<Step>, c: Key, content: Content)
    requires Waiting(s, c, content) && Run(s, steps) && ByContentWorkerOnly(steps)
    ensures Waiting(Final(s, steps), c, content)
    decreases |steps|
  {
    if steps != [] {
      hide Waiting, ContentWorkerMay, AfterContentWorker;
      assert steps[0] in steps;
      assert forall e :: e in steps[1..] ==> e in steps;
      WaitingStep(s, steps[0].content, c, content);
      WaitingRun(Next(s, steps[0]), steps[1..], c, content);
    }
  }

  ghost predicate CanFinish(s: State, c: Key, steps: seq<Step>) {
    Run(s, steps) && ByContentWorkerOnly(steps) && c !in Final(s, steps).contents
  }

  /** The content controller can finish a marked content exactly when no group has the key of the
      group it refers to: a new group under the old name holds up the old content. */
  lemma FinishesExactlyWhenKeyIsFree(s: State, c: Key)
    requires Ripe(s, c)
    ensures (exists steps :: CanFinish(s, c, steps)) <==> KeyIsFree(s, s.contents[c])
  {
    if KeyIsFree(s, s.contents[c]) {
      ContentPassRuns(s, c, []);
      assert CanFinish(s, c, ContentPass(c, s.contents[c].policy.value, []));
    } else {
      forall steps ensures !CanFinish(s, c, steps) {
        if CanFinish(s, c, steps) {
          WaitingRun(s, steps, c, s.contents[c]);
        }
      }
    }
  }
}
