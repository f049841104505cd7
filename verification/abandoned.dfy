/** A dynamic group that is deleted before it was bound leaves its content behind. */
module Abandoned {
  import opened Kube
  import opened Lifecycle
  import opened BackendSafety
  import opened Provisioning
  import opened BindOnce
  import opened Deletion

  /** The group's content exists, but the group does not name it yet. */
  ghost predicate DeletedUnbound(s: State, k: Key) {
    && k in s.groups && s.groups[k].dynamic && s.groups[k].content.None?
    && s.groups[k].deleting && s.groups[k].held && !s.groups[k].others
    && GeneratedKey(k, s.groups[k].uid) in s.contents && !s.contents[GeneratedKey(k, s.groups[k].uid)].deleting
    && s.gw.GIdle? && s.cw.CIdle?
  }

  /** Nothing that is still running knows the content as one to be deleted. */
  ghost predicate LeftBehind(s: State, c: Key) {
    && c in s.contents && !s.contents[c].deleting && Generated(c.name)
    && UidGone(s.groups, s.uids, OwnerOf(c.name))
    && (!s.gw.GIdle? && s.gw.copy.uid == OwnerOf(c.name) ==> s.gw.copy.content.None?)
    && (!s.cw.CIdle? && s.cw.k == c ==> !s.cw.copy.deleting)
  }

  lemma UserLeavesBehind(s: State, e: UserStep, c: Key)
    requires LeftBehind(s, c) && UserMay(s, e) && e != DeleteContent(c) && UidsIssued(s.groups, s.uids)
    ensures LeftBehind(AfterUser(s, e), c)
  {
    hide UserMay, AfterUser;
    UserLeavesContent(s, e, c);
    if OnGroups(e) {
      UserGroupEffect(s, e);
      GoneStaysGone(s, AfterUser(s, e));
      hide NoReturn, UidGone;
    } else {
      UserContentEffect(s, e);
    }
  }

  lemma UserLeavesContent(s: State, e: UserStep, c: Key)
    requires c in s.contents && !s.contents[c].deleting && UserMay(s, e) && e != DeleteContent(c)
    ensures var t := AfterUser(s, e); c in t.contents && !t.contents[c].deleting
  {
  }

  lemma GroupWorkerLeavesContent(s: State, e: GroupStep, c: Key)
    requires LeftBehind(s, c) && GroupWorkerMay(s, e) && Names(s.groups, s.gw)
    ensures var t := AfterGroupWorker(s, e);
      c in t.contents && !t.contents[c].deleting && t.cw == s.cw
      && (!t.gw.GIdle? && t.gw.copy.uid == OwnerOf(c.name) ==> t.gw.copy.content.None?)
  {
    if !s.gw.GIdle? {
      MakeVGNameRoundTrip(s.gw.copy.uid, c.name);
    }
  }

  lemma GroupWorkerLeavesBehind(s: State, e: GroupStep, c: Key)
    requires LeftBehind(s, c) && GroupWorkerMay(s, e) && Names(s.groups, s.gw) && UidsIssued(s.groups, s.uids)
    ensures LeftBehind(AfterGroupWorker(s, e), c)
  {
    hide GroupWorkerMay, AfterGroupWorker, Names;
    GroupWorkerLeavesContent(s, e, c);
    if OnContents(e) {
      GroupWorkerOnContent(s, e);
    } else {
      GroupWorkerEffect(s, e);
      GoneStaysGone(s, AfterGroupWorker(s, e));
    }
  }

  lemma ContentWorkerLeavesBehind(s: State, e: ContentStep, c: Key)
    requires LeftBehind(s, c) && ContentWorkerMay(s, e) && ContentWorkerPlaced(s.groups, s.uids, s.cw)
    ensures LeftBehind(AfterContentWorker(s, e), c)
  {
    hide DriverMayReturn, UidGone;
  }

  lemma LeftBehindStep(s: State, e: Step, c: Key)
    requires Sound(s) && WellBound(s) && LeftBehind(s, c) && Enabled(s, e) && e != ByUser(DeleteContent(c))
    ensures LeftBehind(Next(s, e), c)
  {
    hide LeftBehind, UserMay, GroupWorkerMay, ContentWorkerMay, AfterUser, AfterGroupWorker, AfterContentWorker;
    match e
    case ByUser(x) => UserLeavesBehind(s, x, c);
    case ByGroupWorker(x) => GroupWorkerLeavesBehind(s, x, c);
    case ByContentWorker(x) => ContentWorkerLeavesBehind(s, x, c);
  }

  lemma {:induction false} LeftBehindRun(s: State, steps: seq<Step>, c: Key)
    requires Sound(s) && Provisioned(s) && WellBound(s) && LeftBehind(s, c)
    requires Run(s, steps) && AllLeaveGeneratedNames(steps) && ByUser(DeleteContent(c)) !in steps
    ensures LeftBehind(Final(s, steps), c)
    decreases |steps|
  {
    if steps != [] {
      hide Sound, Provisioned, WellBound, LeftBehind, Enabled, Next, LeavesGeneratedNames;
      assert steps[0] in steps;
      assert forall e :: e in steps[1..] ==> e in steps;
      SoundStep(s, steps[0]);
      ProvisionedStep(s, steps[0]);
      BoundStep(s, steps[0]);
      LeftBehindStep(s, steps[0], c);
      LeftBehindRun(Next(s, steps[0]), steps[1..], c);
    }
  }

  lemma GroupPassLeavesBehind(s: State, k: Key)
    requires Sound(s) && DeletedUnbound(s, k)
    ensures Run(s, GroupPass(k))
    ensures LeftBehind(Final(s, GroupPass(k)), GeneratedKey(k, s.groups[k].uid))
  {
    GroupPassRuns(s, k);
    MakeVGNameRoundTrip(s.groups[k].uid, "");
    var t := Final(s, GroupPass(k));
    assert UidGone(t.groups, t.uids, s.groups[k].uid);
  }

  /** The reconcile that removes a group not yet bound does not mark the content it created, and
      nothing the controllers do later ever marks it: only a user can delete it. */
  lemma UnboundContentIsNeverMarked(s: State, k: Key, steps: seq<Step>)
    requires Sound(s) && Provisioned(s) && WellBound(s) && DeletedUnbound(s, k)
    requires var c := GeneratedKey(k, s.groups[k].uid);
      Run(s, GroupPass(k)) ==>
        Run(Final(s, GroupPass(k)), steps) && AllLeaveGeneratedNames(steps) && ByUser(DeleteContent(c)) !in steps
    ensures Run(s, GroupPass(k))
    ensures var t, c := Final(Final(s, GroupPass(k)), steps), GeneratedKey(k, s.groups[k].uid);
      c in t.contents && !t.contents[c].deleting && forall j :: j in t.groups ==> t.groups[j].uid != s.groups[k].uid
  {
    var c := GeneratedKey(k, s.groups[k].uid);
    GroupPassLeavesBehind(s, k);
    MakeVGNameRoundTrip(s.groups[k].uid, "");
    hide Sound, Provisioned, WellBound, Run, Final;
    assert forall e :: e in GroupPass(k) ==> !e.ByUser?;
    assert AllLeaveGeneratedNames(GroupPass(k));
    BoundRun(s, GroupPass(k));
    LeftBehindRun(Final(s, GroupPass(k)), steps, c);
  }
}
