/** The driver is asked to delete a group only after the VolumeGroup is gone for good. */
module BackendSafety {
  import opened Kube
  import opened Lifecycle

  /** The group the reference was taken from is at the referenced key, if it still exists. */
  ghost predicate Placed(groups: map<Key, Group>, uids: set<string>, r: Ref) {
    r.uid in uids && forall k :: k in groups && groups[k].uid == r.uid ==> k == r.key
  }

  /** The group the reference was taken from exists no more. */
  ghost predicate Gone(groups: map<Key, Group>, uids: set<string>, r: Ref) {
    r.uid in uids && forall k :: k in groups ==> groups[k].uid != r.uid
  }

  ghost predicate PlacedIfAny(groups: map<Key, Group>, uids: set<string>, r: Option<Ref>) {
    r.Some? ==> Placed(groups, uids, r.value)
  }

  ghost predicate GoneIfAny(groups: map<Key, Group>, uids: set<string>, r: Option<Ref>) {
    r.Some? ==> Gone(groups, uids, r.value)
  }

  ghost predicate UidsIssued(groups: map<Key, Group>, uids: set<string>) {
    && (forall k :: k in groups ==> groups[k].uid in uids)
    && (forall j, k :: j in groups && k in groups && groups[j].uid == groups[k].uid ==> j == k)
  }

  ghost predicate ContentsPlaced(groups: map<Key, Group>, uids: set<string>, contents: map<Key, Content>) {
    forall k :: k in contents ==> PlacedIfAny(groups, uids, contents[k].ref)
  }

  ghost predicate GroupWorkerPlaced(groups: map<Key, Group>, uids: set<string>, gw: GroupWorker) {
    !gw.GIdle? ==> Placed(groups, uids, Ref(gw.k, gw.copy.uid))
  }

  ghost predicate ContentWorkerPlaced(groups: map<Key, Group>, uids: set<string>, cw: ContentWorker) {
    && (!cw.CIdle? ==> PlacedIfAny(groups, uids, cw.copy.ref))
    && (cw.CChecked? || cw.CDeleted? ==> cw.copy.deleting && cw.copy.held && GoneIfAny(groups, uids, cw.checked))
  }

  /** The content the worker is about to release still exists, held, and marked if it was. */
  ghost predicate Anchored(contents: map<Key, Content>, cw: ContentWorker) {
    (cw.CRead? || cw.CChecked? || cw.CDeleted?) && cw.copy.held ==>
      cw.k in contents && contents[cw.k].held && (cw.copy.deleting ==> contents[cw.k].deleting)
  }

  ghost predicate Sound(s: State) {
    && UidsIssued(s.groups, s.uids)
    && ContentsPlaced(s.groups, s.uids, s.contents)
    && GroupWorkerPlaced(s.groups, s.uids, s.gw)
    && ContentWorkerPlaced(s.groups, s.uids, s.cw)
    && Anchored(s.contents, s.cw)
  }

  // ---- one step ----

  /** No group comes back: every group left was there before, or has a UID never issued before. */
  ghost predicate NoReturn(groups: map<Key, Group>, uids: set<string>, groups': map<Key, Group>, uids': set<string>) {
    && uids <= uids' && UidsIssued(groups', uids')
    && forall k :: k in groups' ==> (k in groups && groups[k].uid == groups'[k].uid) || groups'[k].uid !in uids
  }

  /** The steps that touch groups or the group worker only. */
  lemma GroupSide(s: State, t: State)
    requires Sound(s) && NoReturn(s.groups, s.uids, t.groups, t.uids)
    requires t.contents == s.contents && t.cw == s.cw
    requires t.gw.GIdle?
          || (!s.gw.GIdle? && t.gw.k == s.gw.k && t.gw.copy.uid == s.gw.copy.uid)
          || (t.gw.k in t.groups && t.gw.copy.uid == t.groups[t.gw.k].uid)
    ensures Sound(t)
  {
  }

  /** The references of contents come from contents, or are that of the worker's group. */
  ghost predicate RefsFrom(s: State, t: State) {
    forall k :: k in t.contents ==>
      || t.contents[k].ref.None?
      || (k in s.contents && t.contents[k].ref == s.contents[k].ref)
      || (!s.gw.GIdle? && t.contents[k].ref == Some(Ref(s.gw.k, s.gw.copy.uid)))
  }

  /** Contents that are held stay, held, and marked if they were. */
  ghost predicate HoldsOn(contents: map<Key, Content>, contents': map<Key, Content>) {
    forall k :: k in contents && contents[k].held ==>
      k in contents' && contents'[k].held && (contents[k].deleting ==> contents'[k].deleting)
  }

  /** The steps of users and of the group controller that touch contents. */
  lemma ContentSide(s: State, t: State)
    requires Sound(s) && t.groups == s.groups && s.uids <= t.uids
    requires RefsFrom(s, t) && HoldsOn(s.contents, t.contents)
    requires t.cw == s.cw
    requires t.gw.GIdle? || (!s.gw.GIdle? && t.gw.k == s.gw.k && t.gw.copy.uid == s.gw.copy.uid)
    ensures Sound(t)
  {
  }

  ghost predicate SameWorkerGroup(s: State, t: State) {
    || t.gw.GIdle?
    || (!s.gw.GIdle? && t.gw.k == s.gw.k && t.gw.copy.uid == s.gw.copy.uid)
    || (t.gw.k in t.groups && t.gw.copy.uid == t.groups[t.gw.k].uid)
  }

  predicate OnGroups(e: UserStep) {
    e.CreateGroup? || e.DeleteGroup? || e.OtherFinalizerOnGroup?
  }

  /** Only the group at `k` changes: it goes, or keeps its UID, or is new with a new UID. */
  ghost predicate OneGroupChanges(groups: map<Key, Group>, uids: set<string>, groups': map<Key, Group>,
                                  uids': set<string>, k: Key) {
    && uids <= uids'
    && (forall j :: j != k ==> (j in groups' <==> j in groups) && (j in groups ==> groups'[j] == groups[j]))
    && (k in groups' ==> (k in groups && groups'[k].uid == groups[k].uid) || groups'[k].uid in uids' - uids)
  }

  lemma OneGroupNoReturn(groups: map<Key, Group>, uids: set<string>, groups': map<Key, Group>, uids': set<string>,
                         k: Key)
    requires UidsIssued(groups, uids) && OneGroupChanges(groups, uids, groups', uids', k)
    ensures NoReturn(groups, uids, groups', uids')
  {
  }

  lemma UserChangesOneGroup(s: State, e: UserStep)
    requires UserMay(s, e) && OnGroups(e)
    ensures var t := AfterUser(s, e);
      OneGroupChanges(s.groups, s.uids, t.groups, t.uids, e.k) && t.contents == s.contents && t.cw == s.cw
          && t.gw == s.gw
  {
  }

  lemma UserGroupEffect(s: State, e: UserStep)
    requires UidsIssued(s.groups, s.uids) && UserMay(s, e) && OnGroups(e)
    ensures var t := AfterUser(s, e);
      NoReturn(s.groups, s.uids, t.groups, t.uids) && t.contents == s.contents && t.cw == s.cw && t.gw == s.gw
  {
    hide UidsIssued, OneGroupChanges, NoReturn, UserMay, AfterUser;
    UserChangesOneGroup(s, e);
    OneGroupNoReturn(s.groups, s.uids, AfterUser(s, e).groups, AfterUser(s, e).uids, e.k);
  }

  lemma UserContentEffect(s: State, e: UserStep)
    requires UserMay(s, e) && !OnGroups(e)
    ensures var t := AfterUser(s, e);
      RefsFrom(s, t) && HoldsOn(s.contents, t.contents) && t.groups == s.groups && s.uids <= t.uids && t.cw == s.cw
          && t.gw == s.gw
  {
  }

  lemma UserKeepsSound(s: State, e: UserStep)
    requires Sound(s) && UserMay(s, e)
    ensures Sound(AfterUser(s, e))
  {
    hide NoReturn, UserMay, AfterUser, RefsFrom, HoldsOn, ContentsPlaced, ContentWorkerPlaced, Anchored;
    if OnGroups(e) {
      UserGroupEffect(s, e);
      GroupSide(s, AfterUser(s, e));
    } else {
      UserContentEffect(s, e);
      ContentSide(s, AfterUser(s, e));
    }
  }

  predicate OnContents(e: GroupStep) {
    e.GCreateContent? || e.GBind? || e.GAddVolume? || e.GDropVolume? || e.GDropContent?
  }

  lemma GroupWorkerEffect(s: State, e: GroupStep)
    requires UidsIssued(s.groups, s.uids) && GroupWorkerMay(s, e) && !OnContents(e)
    ensures var t := AfterGroupWorker(s, e);
      NoReturn(s.groups, s.uids, t.groups, t.uids) && t.contents == s.contents && t.cw == s.cw && SameWorkerGroup(s, t)
  {
  }

  lemma GroupWorkerRefs(s: State, e: GroupStep)
    requires GroupWorkerMay(s, e) && OnContents(e)
    ensures RefsFrom(s, AfterGroupWorker(s, e))
  {
    hide MakeVGName;
  }

  lemma GroupWorkerHolds(s: State, e: GroupStep)
    requires GroupWorkerMay(s, e) && OnContents(e)
    ensures HoldsOn(s.contents, AfterGroupWorker(s, e).contents)
  {
    hide MakeVGName;
  }

  lemma GroupWorkerOnContent(s: State, e: GroupStep)
    requires GroupWorkerMay(s, e) && OnContents(e)
    ensures var t := AfterGroupWorker(s, e);
      RefsFrom(s, t) && HoldsOn(s.contents, t.contents) && t.groups == s.groups && s.uids <= t.uids && t.cw == s.cw
      && !s.gw.GIdle? && (t.gw.GIdle? || (t.gw.k == s.gw.k && t.gw.copy.uid == s.gw.copy.uid))
  {
    GroupWorkerRefs(s, e);
    GroupWorkerHolds(s, e);
    hide RefsFrom, HoldsOn;
  }

  lemma GroupWorkerKeepsSound(s: State, e: GroupStep)
    requires Sound(s) && GroupWorkerMay(s, e)
    ensures Sound(AfterGroupWorker(s, e))
  {
    hide NoReturn, GroupWorkerMay, AfterGroupWorker, RefsFrom, HoldsOn, ContentsPlaced, ContentWorkerPlaced, Anchored;
    if OnContents(e) {
      GroupWorkerOnContent(s, e);
      ContentSide(s, AfterGroupWorker(s, e));
    } else {
      GroupWorkerEffect(s, e);
      GroupSide(s, AfterGroupWorker(s, e));
    }
  }

  predicate AfterTheCheck(e: ContentStep) {
    e.CDeleteClaim? || e.CDeleteBackend? || e.CKeepBackend? || e.CRelease?
  }

  lemma ContentWorkerFrame(s: State, e: ContentStep)
    requires ContentsPlaced(s.groups, s.uids, s.contents) && ContentWorkerMay(s, e)
    ensures var t := AfterContentWorker(s, e);
      t.groups == s.groups && t.uids == s.uids && t.gw == s.gw && ContentsPlaced(t.groups, t.uids, t.contents)
  {
    hide Placed;
  }

  lemma ProvisioningKeepsSound(s: State, e: ContentStep)
    requires Sound(s) && ContentWorkerMay(s, e) && !AfterTheCheck(e) && e != CCheck
    ensures Sound(AfterContentWorker(s, e))
  {
    ContentWorkerFrame(s, e);
    hide ContentWorkerMay, Placed, Gone, UidsIssued, GroupWorkerPlaced;
  }

  lemma DeletionKeepsSound(s: State, e: ContentStep)
    requires Sound(s) && ContentWorkerMay(s, e) && AfterTheCheck(e)
    ensures Sound(AfterContentWorker(s, e))
  {
  }

  /** The group at the referenced key is absent, so the group the reference was taken from is
      gone, whatever is created at that key later. */
  lemma CheckKeepsSound(s: State)
    requires Sound(s) && ContentWorkerMay(s, CCheck)
    ensures Sound(AfterContentWorker(s, CCheck))
  {
  }

  lemma SoundStep(s: State, e: Step)
    requires Sound(s) && Enabled(s, e)
    ensures Sound(Next(s, e))
  {
    hide Sound, UserMay, GroupWorkerMay, ContentWorkerMay, AfterUser, AfterGroupWorker, AfterContentWorker;
    match e
    case ByUser(x) => UserKeepsSound(s, x);
    case ByGroupWorker(x) => GroupWorkerKeepsSound(s, x);
    case ByContentWorker(x) =>
      if x == CCheck {
        CheckKeepsSound(s);
      } else if AfterTheCheck(x) {
        DeletionKeepsSound(s, x);
      } else {
        ProvisioningKeepsSound(s, x);
      }
  }

  // ---- runs ----

  /** Over every run of both controllers, users and crashes: when the driver is asked to delete a
      group, its content is marked for deletion with policy Delete, still stored and marked, and
      the VolumeGroup that the content referred to when it was checked no longer exists, although
      the check and the call are separate steps and a new group may have taken its key. */
  lemma {:induction false} BackendDeletedOnlyAfterGroup(s: State, steps: seq<Step>, lost: bool)
    requires Sound(s) && Run(s, steps) && Enabled(Final(s, steps), ByContentWorker(CDeleteBackend(lost)))
    ensures var t := Final(s, steps);
      && t.cw.copy.deleting && t.cw.copy.policy == Some(Delete)
      && t.cw.k in t.contents && t.contents[t.cw.k].deleting
      && (t.cw.checked.Some? ==> forall k :: k in t.groups ==> t.groups[k].uid != t.cw.checked.value.uid)
    decreases |steps|
  {
    if steps != [] {
      hide Sound, Enabled, Next;
      SoundStep(s, steps[0]);
      BackendDeletedOnlyAfterGroup(Next(s, steps[0]), steps[1..], lost);
    }
  }

  // ---- the reference at the time of the call ----

  /** The worker has read the content as marked and held, or is past the check. */
  predicate MeansToDelete(cw: ContentWorker) {
    cw.CChecked? || cw.CDeleted? || (cw.CRead? && cw.copy.deleting && cw.copy.held)
  }

  /** A group binds to the very content the worker means to delete, which refers to another. */
  ghost predicate Rebinds(s: State, e: Step) {
    && e == ByGroupWorker(GBind) && s.gw.GNamed? && MeansToDelete(s.cw)
    && NamedKey(s.gw.k, s.gw.copy) == s.cw.k && s.cw.copy.ref != Some(Ref(s.gw.k, s.gw.copy.uid))
  }

  ghost predicate NeverRebinds(s: State, steps: seq<Step>)
    requires Run(s, steps)
    decreases |steps|
  {
    steps != [] ==> !Rebinds(s, steps[0]) && NeverRebinds(Next(s, steps[0]), steps[1..])
  }

  /** The stored content, the copy and the check agree on the reference. */
  ghost predicate RefKept(s: State) {
    MeansToDelete(s.cw) ==>
      && s.cw.k in s.contents && s.contents[s.cw.k].ref == s.cw.copy.ref
      && (s.cw.CChecked? || s.cw.CDeleted? ==> s.cw.copy.ref == s.cw.checked)
  }

  /** A content that is held and marked stays, with its reference. */
  ghost predicate MarkedKeepRef(contents: map<Key, Content>, contents': map<Key, Content>) {
    forall k :: k in contents && contents[k].held && contents[k].deleting ==>
      k in contents' && contents'[k].ref == contents[k].ref
  }

  lemma UserKeepsRef(s: State, e: UserStep)
    requires UserMay(s, e)
    ensures MarkedKeepRef(s.contents, AfterUser(s, e).contents) && AfterUser(s, e).cw == s.cw
  {
  }

  lemma GroupWorkerKeepsRef(s: State, e: GroupStep)
    requires GroupWorkerMay(s, e) && !e.GBind?
    ensures MarkedKeepRef(s.contents, AfterGroupWorker(s, e).contents) && AfterGroupWorker(s, e).cw == s.cw
  {
  }

  lemma BindKeepsRef(s: State)
    requires RefKept(s) && GroupWorkerMay(s, GBind)
    ensures RefKept(AfterGroupWorker(s, GBind)) <==> !Rebinds(s, ByGroupWorker(GBind))
  {
  }

  lemma ContentWorkerKeepsRef(s: State, e: ContentStep)
    requires Anchored(s.contents, s.cw) && RefKept(s) && ContentWorkerMay(s, e)
    ensures RefKept(AfterContentWorker(s, e))
  {
    hide DriverMayReturn;
  }

  /** The three keep agreeing exactly when no group binds to the content in the worker's hands. */
  lemma RefKeptStep(s: State, e: Step)
    requires Sound(s) && RefKept(s) && Enabled(s, e)
    ensures RefKept(Next(s, e)) <==> !Rebinds(s, e)
  {
    hide UserMay, GroupWorkerMay, ContentWorkerMay, AfterUser, AfterGroupWorker, AfterContentWorker;
    hide UidsIssued, ContentsPlaced, GroupWorkerPlaced, PlacedIfAny, GoneIfAny;
    match e
    case ByUser(x) => UserKeepsRef(s, x);
    case ByGroupWorker(x) =>
      if x.GBind? {
        hide ContentWorkerPlaced, RefKept, Rebinds;
        BindKeepsRef(s);
      } else {
        GroupWorkerKeepsRef(s, x);
      }
    case ByContentWorker(x) =>
      hide ContentWorkerPlaced;
      ContentWorkerKeepsRef(s, x);
  }

  ghost predicate RefKeptThroughout(s: State, steps: seq<Step>)
    requires Run(s, steps)
    decreases |steps|
  {
    RefKept(s) && (steps != [] ==> RefKeptThroughout(Next(s, steps[0]), steps[1..]))
  }

  /** Over every run: stored content, copy and check agree on the reference throughout exactly when
      no group binds to a content in the worker's hands. */
  lemma {:induction false} RefKeptExactlyWithoutRebinding(s: State, steps: seq<Step>)
    requires Sound(s) && RefKept(s) && Run(s, steps)
    ensures RefKeptThroughout(s, steps) <==> NeverRebinds(s, steps)
    decreases |steps|
  {
    if steps != [] {
      hide Sound, RefKept, Enabled, Next, Rebinds;
      SoundStep(s, steps[0]);
      RefKeptStep(s, steps[0]);
      if RefKept(Next(s, steps[0])) {
        RefKeptExactlyWithoutRebinding(Next(s, steps[0]), steps[1..]);
      } else {
        assert !RefKeptThroughout(Next(s, steps[0]), steps[1..]);
      }
    }
  }

  /** Without such a binding, the content whose backend group is deleted refers to no existing group
      at the call, even after its copy was reloaded in between. */
  lemma {:induction false} NoGroupAtTheCall(s: State, steps: seq<Step>, lost: bool)
    requires Sound(s) && RefKept(s) && Run(s, steps) && NeverRebinds(s, steps)
    requires Enabled(Final(s, steps), ByContentWorker(CDeleteBackend(lost)))
    ensures var t := Final(s, steps);
      && t.cw.k in t.contents && t.contents[t.cw.k].ref == t.cw.copy.ref
      && (t.cw.copy.ref.Some? ==> forall k :: k in t.groups ==> t.groups[k].uid != t.cw.copy.ref.value.uid)
    decreases |steps|
  {
    if steps != [] {
      hide Sound, RefKept, Enabled, Next, Rebinds;
      SoundStep(s, steps[0]);
      RefKeptStep(s, steps[0]);
      NoGroupAtTheCall(Next(s, steps[0]), steps[1..], lost);
    } else {
      BackendDeletedOnlyAfterGroup(s, [], lost);
    }
  }

  // ---- Retain ----

  ghost predicate NeverDeletes(s: State) {
    && s.classPolicy == Retain
    && (forall k :: k in s.contents ==> s.contents[k].policy != Some(Delete))
    && (!s.cw.CIdle? ==> s.cw.copy.policy != Some(Delete))
    && (forall c :: c in s.log ==> !c.DeleteCall?)
  }

  predicate AsksToDelete(e: Step) {
    e.ByUser? && e.user.CreateContent? && e.user.policy == Some(Delete)
  }

  ghost predicate NoDeletePolicy(contents: map<Key, Content>) {
    forall k :: k in contents ==> contents[k].policy != Some(Delete)
  }

  lemma UserKeepsPolicies(s: State, e: UserStep)
    requires NoDeletePolicy(s.contents) && UserMay(s, e) && !AsksToDelete(ByUser(e))
    ensures var t := AfterUser(s, e);
      NoDeletePolicy(t.contents) && t.classPolicy == s.classPolicy && t.cw == s.cw && t.log == s.log
  {
  }

  lemma GroupWorkerKeepsPolicies(s: State, e: GroupStep)
    requires s.classPolicy == Retain && NoDeletePolicy(s.contents) && GroupWorkerMay(s, e)
    ensures var t := AfterGroupWorker(s, e);
      NoDeletePolicy(t.contents) && t.classPolicy == s.classPolicy && t.cw == s.cw && t.log == s.log
  {
  }

  lemma ContentWorkerKeepsPolicies(s: State, e: ContentStep)
    requires NeverDeletes(s) && ContentWorkerMay(s, e)
    ensures NeverDeletes(AfterContentWorker(s, e))
  {
    hide DriverMayReturn;
  }

  lemma RetainStep(s: State, e: Step)
    requires NeverDeletes(s) && Enabled(s, e) && !AsksToDelete(e)
    ensures NeverDeletes(Next(s, e))
  {
    hide UserMay, GroupWorkerMay, ContentWorkerMay, AfterUser, AfterGroupWorker, AfterContentWorker;
    match e
    case ByUser(x) => UserKeepsPolicies(s, x);
    case ByGroupWorker(x) => GroupWorkerKeepsPolicies(s, x);
    case ByContentWorker(x) => ContentWorkerKeepsPolicies(s, x);
  }

  ghost predicate NobodyAsksToDelete(steps: seq<Step>) {
    forall e :: e in steps ==> !AsksToDelete(e)
  }

  /** With policy Retain everywhere the driver is never asked to delete a group. */
  lemma {:induction false} RetainNeverDeletes(s: State, steps: seq<Step>)
    requires NeverDeletes(s) && Run(s, steps) && NobodyAsksToDelete(steps)
    ensures NeverDeletes(Final(s, steps))
    decreases |steps|
  {
    if steps != [] {
      hide NeverDeletes, Enabled, Next;
      assert steps[0] in steps;
      assert forall e :: e in steps[1..] ==> e in steps;
      RetainStep(s, steps[0]);
      RetainNeverDeletes(Next(s, steps[0]), steps[1..]);
    }
  }
}
