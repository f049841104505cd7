/** Provisioning completes: from every point where failures and crashes may leave a live group, one
    undisturbed pass of each controller, and another of the group controller, bind it to a content
    that is ready. */
module ProvisioningRun {
  import opened Kube
  import opened Lifecycle
  import opened BackendSafety
  import opened Provisioning
  import opened BindOnce

  // ---- the passes ----

  /** One reconcile of a group that finds its content not ready yet, and is queued again. */
  function CreatingPass(k: Key, uid: string): seq<Step> {
    HoldingGroup(k) + [ByGroupWorker(GCreateContent(uid)), ByGroupWorker(GStop)]
  }

  /** One reconcile of a group that finds its content ready. */
  function NamingPass(k: Key, uid: string): seq<Step> {
    HoldingGroup(k) + [ByGroupWorker(GCreateContent(uid)), ByGroupWorker(GSeeReady), ByGroupWorker(GSetContent),
                       ByGroupWorker(GStop)]
  }

  /** One reconcile of a group that names a content. */
  function BindingPass(k: Key): seq<Step> {
    HoldingGroup(k) + [ByGroupWorker(GSetContent), ByGroupWorker(GBind), ByGroupWorker(GStop)]
  }

  function HoldingGroup(k: Key): seq<Step> {
    [ByGroupWorker(GStart(k)), ByGroupWorker(GHold)]
  }

  /** One reconcile of a content: the driver is called exactly for one without a handle. */
  function ReadyingPass(c: Key, handle: string, id: string): seq<Step> {
    HoldingContent(c) + if handle == "" then Creating(id)
        else [ByContentWorker(CUpdateStatic), ByContentWorker(CSetReady)]
  }

  function HoldingContent(c: Key): seq<Step> {
    [ByContentWorker(CStart(c)), ByContentWorker(CHold)]
  }

  function Creating(id: string): seq<Step> {
    [ByContentWorker(CCreateBackend(id, false)), ByContentWorker(CPersist), ByContentWorker(CSetReady)]
  }

  /** The run `steps` leads from `s` to `t`. */
  ghost predicate Leads(s: State, steps: seq<Step>, t: State) {
    Run(s, steps) && Final(s, steps) == t
  }

  lemma LeadsOn(s: State, a: seq<Step>, t: State, b: seq<Step>, u: State)
    requires Leads(s, a, t) && Leads(t, b, u)
    ensures Leads(s, a + b, u)
  {
    RunsCompose(s, a, b);
  }

  lemma LeadsOne(s: State, e: Step, t: State)
    requires Enabled(s, e) && Next(s, e) == t
    ensures Leads(s, [e], t)
  {
    hide Enabled, Next;
    RunOne(s, e);
  }

  lemma LeadsTwo(s: State, a: Step, t: State, b: Step, u: State)
    requires Enabled(s, a) && Next(s, a) == t && Enabled(t, b) && Next(t, b) == u
    ensures Leads(s, [a, b], u)
  {
    hide Enabled, Next;
    RunTwo(s, a, b);
  }

  lemma LeadsThree(s: State, a: Step, t: State, b: Step, u: State, c: Step, v: State)
    requires Enabled(s, a) && Next(s, a) == t && Enabled(t, b) && Next(t, b) == u && Enabled(u, c) && Next(u, c) == v
    ensures Leads(s, [a, b, c], v)
  {
    hide Enabled, Next, Leads;
    LeadsTwo(s, a, t, b, u);
    LeadsOne(u, c, v);
    LeadsOn(s, [a, b], u, [c], v);
    assert [a, b] + [c] == [a, b, c];
  }

  // ---- the group worker ----

  /** The group with the finalizer. */
  function WithFinalizer(s: State, k: Key): State
    requires k in s.groups
  {
    if s.groups[k].held then s else PutGroup(s, k, s.groups[k].(held := true))
  }

  /** The worker has the stored group in hand, and its finalizer is there. */
  function InHand(s: State, k: Key): State
    requires k in s.groups
  {
    s.(gw := GHeld(k, s.groups[k]))
  }

  ghost predicate Live(s: State, k: Key) {
    s.gw.GIdle? && k in s.groups && !s.groups[k].deleting
  }

  lemma HoldsGroup(s: State, k: Key)
    requires Live(s, k)
    ensures Leads(s, HoldingGroup(k), InHand(WithFinalizer(s, k), k))
  {
    var a, b := ByGroupWorker(GStart(k)), ByGroupWorker(GHold);
    var t, u := s.(gw := GRead(k, s.groups[k])), InHand(WithFinalizer(s, k), k);
    assert Enabled(s, a) && Next(s, a) == t;
    assert Enabled(t, b) && Next(t, b) == u;
    hide Enabled, Next, Leads;
    LeadsTwo(s, a, t, b, u);
  }

  /** The content is there, if only just created. */
  function WithContent(s: State, k: Key, uid: string): State
    requires k in s.groups
  {
    var c := GeneratedKey(k, s.groups[k].uid);
    if c in s.contents then s
    else PutContent(s.(uids := s.uids + {uid}), c,
                    Content(uid, 0, Some(Ref(k, s.groups[k].uid)), "", Some(s.classPolicy), false, false, false,
                        false, {}))
  }

  lemma CreatesContent(s: State, k: Key, uid: string)
    requires k in s.groups && s.groups[k].content.None? && uid !in s.uids
    ensures Enabled(InHand(s, k), ByGroupWorker(GCreateContent(uid)))
    ensures Next(InHand(s, k), ByGroupWorker(GCreateContent(uid)))
         == WithContent(s, k, uid).(gw := GCreated(k, s.groups[k]))
  {
  }

  lemma StopsGroupWorker(s: State, gw: GroupWorker)
    requires s.gw.GIdle?
    ensures Enabled(s.(gw := gw), ByGroupWorker(GStop)) && Next(s.(gw := gw), ByGroupWorker(GStop)) == s
  {
  }

  lemma CreatingPassRuns(s: State, k: Key, uid: string)
    requires Live(s, k) && s.groups[k].content.None? && uid !in s.uids
    ensures Leads(s, CreatingPass(k, uid), WithContent(WithFinalizer(s, k), k, uid))
  {
    var t := WithFinalizer(s, k);
    var u := WithContent(t, k, uid);
    HoldsGroup(s, k);
    CreatesContent(t, k, uid);
    StopsGroupWorker(u, GCreated(k, t.groups[k]));
    hide Enabled, Next, WithContent, WithFinalizer, InHand, Leads;
    LeadsTwo(InHand(t, k), ByGroupWorker(GCreateContent(uid)), u.(gw := GCreated(k, t.groups[k])),
             ByGroupWorker(GStop), u);
    LeadsOn(s, HoldingGroup(k), InHand(t, k), [ByGroupWorker(GCreateContent(uid)), ByGroupWorker(GStop)], u);
  }

  /** The group with the name of its content. */
  function WithName(s: State, k: Key, name: string): State
    requires k in s.groups
  {
    PutGroup(s, k, s.groups[k].(content := Some(name)))
  }

  lemma NamesContent(s: State, k: Key)
    requires k in s.groups && s.gw.GIdle?
    requires var c := GeneratedKey(k, s.groups[k].uid); c in s.contents && s.contents[c].ready
    ensures var a, b, c := ByGroupWorker(GSeeReady), ByGroupWorker(GSetContent), ByGroupWorker(GStop);
      Leads(s.(gw := GCreated(k, s.groups[k])), [a, b, c], WithName(s, k, MakeVGName(s.groups[k].uid)))
  {
    var a, b, c := ByGroupWorker(GSeeReady), ByGroupWorker(GSetContent), ByGroupWorker(GStop);
    var r, u := s.(gw := GCreated(k, s.groups[k])), s.(gw := GObserved(k, s.groups[k]));
    var t := WithName(s, k, MakeVGName(s.groups[k].uid));
    var v := t.(gw := GMembers(k, t.groups[k]));
    assert Enabled(r, a) && Next(r, a) == u;
    assert Enabled(u, b) && Next(u, b) == v;
    StopsGroupWorker(t, GMembers(k, t.groups[k]));
    hide Enabled, Next, WithName, Leads, MakeVGName;
    LeadsThree(r, a, u, b, v, c, t);
  }

  lemma NamingPassRuns(s: State, k: Key, uid: string)
    requires Live(s, k) && s.groups[k].content.None? && uid !in s.uids
    requires var c := GeneratedKey(k, s.groups[k].uid); c in s.contents && s.contents[c].ready
    ensures Leads(s, NamingPass(k, uid), WithName(WithFinalizer(s, k), k, MakeVGName(s.groups[k].uid)))
  {
    var t := WithFinalizer(s, k);
    var r, u := t.(gw := GCreated(k, t.groups[k])), WithName(t, k, MakeVGName(s.groups[k].uid));
    var create := ByGroupWorker(GCreateContent(uid));
    var rest := [ByGroupWorker(GSeeReady), ByGroupWorker(GSetContent), ByGroupWorker(GStop)];
    assert WithContent(t, k, uid) == t;
    HoldsGroup(s, k);
    CreatesContent(t, k, uid);
    NamesContent(t, k);
    hide Enabled, Next, WithContent, WithFinalizer, WithName, MakeVGName, InHand, Leads;
    LeadsOne(InHand(t, k), create, r);
    LeadsOn(InHand(t, k), [create], r, rest, u);
    LeadsOn(s, HoldingGroup(k), InHand(t, k), [create] + rest, u);
    assert HoldingGroup(k) + ([create] + rest) == NamingPass(k, uid);
  }

  /** The content with the reference to the group, and a policy. */
  function WithRef(s: State, k: Key, c: Key): State
    requires k in s.groups && c in s.contents
  {
    PutContent(s, c, WithPolicy(s, s.contents[c].(ref := Some(Ref(k, s.groups[k].uid)))))
  }

  function Bound(s: State, k: Key): State
    requires k in s.groups && FindsContent(s, k, s.groups[k])
  {
    WithRef(WithName(s, k, s.groups[k].content.value), k, NamedKey(k, s.groups[k]))
  }

  lemma BindsContent(s: State, k: Key)
    requires s.gw.GIdle? && k in s.groups && FindsContent(s, k, s.groups[k])
    ensures var a, b, c := ByGroupWorker(GSetContent), ByGroupWorker(GBind), ByGroupWorker(GStop);
      Leads(InHand(s, k), [a, b, c], Bound(s, k))
  {
    var a, b, c := ByGroupWorker(GSetContent), ByGroupWorker(GBind), ByGroupWorker(GStop);
    var t, x := WithName(s, k, s.groups[k].content.value), Bound(s, k);
    var u, v := t.(gw := GNamed(k, t.groups[k])), x.(gw := GMembers(k, t.groups[k]));
    assert Enabled(InHand(s, k), a) && Next(InHand(s, k), a) == u;
    assert Enabled(u, b) && Next(u, b) == v;
    StopsGroupWorker(x, GMembers(k, t.groups[k]));
    hide Enabled, Next, WithName, WithRef, Bound, InHand, Leads;
    LeadsThree(InHand(s, k), a, u, b, v, c, x);
  }

  lemma BindingPassRuns(s: State, k: Key)
    requires Live(s, k) && FindsContent(s, k, s.groups[k])
    ensures Leads(s, BindingPass(k), Bound(WithFinalizer(s, k), k))
  {
    var t := WithFinalizer(s, k);
    HoldsGroup(s, k);
    BindsContent(t, k);
    hide InHand, Leads, Bound, WithFinalizer;
    LeadsOn(s, HoldingGroup(k), InHand(t, k),
            [ByGroupWorker(GSetContent), ByGroupWorker(GBind), ByGroupWorker(GStop)], Bound(t, k));
  }

  // ---- the content worker ----

  function WithContentFinalizer(s: State, c: Key): State
    requires c in s.contents
  {
    if s.contents[c].held then s else PutContent(s, c, s.contents[c].(held := true))
  }

  function ContentInHand(s: State, c: Key): State
    requires c in s.contents
  {
    s.(cw := CHeld(c, s.contents[c]))
  }

  lemma HoldsContent(s: State, c: Key)
    requires s.cw.CIdle? && c in s.contents && !s.contents[c].deleting
    ensures Leads(s, HoldingContent(c), ContentInHand(WithContentFinalizer(s, c), c))
  {
    var a, b := ByContentWorker(CStart(c)), ByContentWorker(CHold);
    var t, u := s.(cw := CRead(c, s.contents[c])), ContentInHand(WithContentFinalizer(s, c), c);
    assert Enabled(s, a) && Next(s, a) == t;
    assert Enabled(t, b) && Next(t, b) == u;
    hide Enabled, Next, Leads;
    LeadsTwo(s, a, t, b, u);
  }

  /** The driver has created the group, or found it by name, and its id is stored. */
  function WithHandle(s: State, c: Key, id: string): State
    requires c in s.contents
  {
    PutContent(s.(backend := s.backend[id := c.name], ids := s.ids + {id}, log := s.log + [CreateCall(c.name, id)]),
               c, s.contents[c].(handle := id))
  }

  function WithReady(s: State, c: Key): State
    requires c in s.contents
  {
    PutContent(s, c, s.contents[c].(ready := true))
  }

  lemma StoresHandle(s: State, c: Key, id: string)
    requires c in s.contents && s.contents[c].handle == "" && DriverMayReturn(s, c.name, id)
    ensures var t := WithHandle(s, c, id);
      Leads(ContentInHand(s, c), [ByContentWorker(CCreateBackend(id, false)), ByContentWorker(CPersist)],
            t.(cw := CPersisted(c, t.contents[c])))
  {
    var a, b := ByContentWorker(CCreateBackend(id, false)), ByContentWorker(CPersist);
    var r, t := ContentInHand(s, c), WithHandle(s, c, id);
    var u, v := CreateBackend(r, id, false), t.(cw := CPersisted(c, t.contents[c]));
    assert DriverMayReturn(r, c.name, id);
    hide DriverMayReturn;
    assert Enabled(r, a) && Next(r, a) == u;
    assert Enabled(u, b) && Next(u, b) == v;
    hide Enabled, Next, WithHandle, CreateBackend, ContentInHand, Leads;
    LeadsTwo(r, a, u, b, v);
  }

  lemma StoresReady(s: State, c: Key, cw: ContentWorker)
    requires c in s.contents && s.cw.CIdle? && (cw == CPersisted(c, s.contents[c]) || cw == CStatic(c, s.contents[c]))
    ensures Leads(s.(cw := cw), [ByContentWorker(CSetReady)], WithReady(s, c))
  {
    var e, t := ByContentWorker(CSetReady), s.(cw := cw);
    assert Enabled(t, e) && Next(t, e) == WithReady(s, c);
    hide Enabled, Next, WithReady, Leads;
    LeadsOne(t, e, WithReady(s, c));
  }

  lemma KeepsHandle(s: State, c: Key)
    requires c in s.contents && s.contents[c].handle != "" && s.contents[c].policy.Some?
    ensures Leads(ContentInHand(s, c), [ByContentWorker(CUpdateStatic)], s.(cw := CStatic(c, s.contents[c])))
  {
    var e, t, u := ByContentWorker(CUpdateStatic), ContentInHand(s, c), s.(cw := CStatic(c, s.contents[c]));
    assert Enabled(t, e) && Next(t, e) == u;
    hide Enabled, Next, ContentInHand, Leads;
    LeadsOne(t, e, u);
  }

  /** What a pass makes of a content: held, ready, and with a handle. */
  function Readied(s: State, c: Key, id: string): State
    requires c in s.contents
  {
    var t := WithContentFinalizer(s, c);
    WithReady(if s.contents[c].handle == "" then WithHandle(t, c, id) else t, c)
  }

  lemma ReadyingNewRuns(s: State, c: Key, id: string)
    requires s.cw.CIdle? && c in s.contents && !s.contents[c].deleting && s.contents[c].handle == ""
    requires DriverMayReturn(s, c.name, id)
    ensures Leads(s, ReadyingPass(c, "", id), Readied(s, c, id))
  {
    var t := WithContentFinalizer(s, c);
    var u := WithHandle(t, c, id);
    var v := u.(cw := CPersisted(c, u.contents[c]));
    assert DriverMayReturn(t, c.name, id);
    HoldsContent(s, c);
    hide DriverMayReturn;
    StoresHandle(t, c, id);
    StoresReady(u, c, v.cw);
    var create := [ByContentWorker(CCreateBackend(id, false)), ByContentWorker(CPersist)];
    var ready := [ByContentWorker(CSetReady)];
    hide WithContentFinalizer, WithHandle, WithReady, ContentInHand, Leads;
    LeadsOn(ContentInHand(t, c), create, v, ready, WithReady(u, c));
    LeadsOn(s, HoldingContent(c), ContentInHand(t, c), create + ready, WithReady(u, c));
    assert create + ready == Creating(id);
  }

  lemma ReadyingOldRuns(s: State, c: Key, id: string)
    requires s.cw.CIdle? && c in s.contents && !s.contents[c].deleting
    requires s.contents[c].handle != "" && s.contents[c].policy.Some?
    ensures Leads(s, ReadyingPass(c, s.contents[c].handle, id), Readied(s, c, id))
  {
    var t := WithContentFinalizer(s, c);
    var v := t.(cw := CStatic(c, t.contents[c]));
    HoldsContent(s, c);
    KeepsHandle(t, c);
    StoresReady(t, c, v.cw);
    var keep, ready := [ByContentWorker(CUpdateStatic)], [ByContentWorker(CSetReady)];
    hide WithContentFinalizer, WithReady, ContentInHand, Leads;
    LeadsOn(ContentInHand(t, c), keep, v, ready, WithReady(t, c));
    LeadsOn(s, HoldingContent(c), ContentInHand(t, c), keep + ready, WithReady(t, c));
    assert keep + ready == [ByContentWorker(CUpdateStatic), ByContentWorker(CSetReady)];
  }

  /** The pass of a live content: with a handle it needs no more, without one the driver is called. */
  lemma ReadyingPassRuns(s: State, c: Key, id: string)
    requires s.cw.CIdle? && c in s.contents && !s.contents[c].deleting && s.contents[c].policy.Some?
    requires s.contents[c].handle == "" ==> DriverMayReturn(s, c.name, id)
    ensures Leads(s, ReadyingPass(c, s.contents[c].handle, id), Readied(s, c, id))
  {
    hide Leads, Readied, ReadyingPass, DriverMayReturn;
    if s.contents[c].handle == "" {
      ReadyingNewRuns(s, c, id);
    } else {
      ReadyingOldRuns(s, c, id);
    }
  }

  // ---- what the store holds of a live group ----

  /** The class of every generated content is that of the operator, and so is its policy. */
  ghost predicate Policied(s: State) {
    forall c :: c in s.contents && Generated(c.name) ==> s.contents[c].policy == Some(s.classPolicy)
  }

  lemma UserKeepsPoliced(s: State, e: UserStep)
    requires Policied(s) && UserMay(s, e) && LeavesGeneratedNames(ByUser(e))
    ensures Policied(AfterUser(s, e))
  {
  }

  lemma GroupWorkerKeepsPoliced(s: State, e: GroupStep)
    requires Policied(s) && GroupWorkerMay(s, e)
    ensures Policied(AfterGroupWorker(s, e))
  {
  }

  lemma ContentWorkerKeepsPoliced(s: State, e: ContentStep)
    requires Policied(s) && ContentWorkerMay(s, e)
    ensures Policied(AfterContentWorker(s, e))
  {
    hide DriverMayReturn;
  }

  lemma PoliciedStep(s: State, e: Step)
    requires Policied(s) && Enabled(s, e) && LeavesGeneratedNames(e)
    ensures Policied(Next(s, e))
  {
    hide Policied, UserMay, GroupWorkerMay, ContentWorkerMay, AfterUser, AfterGroupWorker, AfterContentWorker;
    hide LeavesGeneratedNames;
    match e
    case ByUser(x) => UserKeepsPoliced(s, x);
    case ByGroupWorker(x) => GroupWorkerKeepsPoliced(s, x);
    case ByContentWorker(x) => ContentWorkerKeepsPoliced(s, x);
  }

  lemma {:induction false} PoliciedRun(s: State, steps: seq<Step>)
    requires Policied(s) && Run(s, steps) && AllLeaveGeneratedNames(steps)
    ensures Policied(Final(s, steps))
    decreases |steps|
  {
    if steps != [] {
      hide Policied, Enabled, Next, LeavesGeneratedNames;
      assert steps[0] in steps;
      assert forall e :: e in steps[1..] ==> e in steps;
      PoliciedStep(s, steps[0]);
      PoliciedRun(Next(s, steps[0]), steps[1..]);
    }
  }

  /** A dynamic group that nobody has asked to delete, not yet bound. */
  ghost predicate Unbound(s: State, k: Key) {
    k in s.groups && s.groups[k].dynamic && s.groups[k].content.None? && !s.groups[k].deleting
  }

  /** Its content was marked for deletion before it became ready. */
  ghost predicate Stuck(s: State, k: Key)
    requires k in s.groups
  {
    var c := GeneratedKey(k, s.groups[k].uid);
    c in s.contents && s.contents[c].deleting && !s.contents[c].ready
  }

  /** The content created for a live group refers to it and has the policy of the class, and if it
      is ready it is held and has a handle. */
  lemma ContentOfLiveGroup(s: State, k: Key)
    requires Sound(s) && Provisioned(s) && WellBound(s) && Policied(s) && k in s.groups
    requires GeneratedKey(k, s.groups[k].uid) in s.contents
    ensures var c := s.contents[GeneratedKey(k, s.groups[k].uid)];
      && c.policy == Some(s.classPolicy) && c.ref == Some(Ref(k, s.groups[k].uid))
      && (c.ready ==> c.held && c.handle != "")
  {
    MakeVGNameRoundTrip(s.groups[k].uid, "");
  }

  // ---- the passes together ----

  /** The group is held and bound to its own content, which is ready, held, refers back to it, and
      has the policy of the class and a handle: the one it had, or the id the driver answers, under
      which the backend has a group of that name. */
  ghost predicate Completed(s: State, t: State, k: Key, id: string)
    requires k in s.groups
  {
    var uid := s.groups[k].uid;
    var c := Key(k.namespace, "volumegroup-" + uid);
    && k in t.groups && t.groups[k].uid == uid && t.groups[k].held && !t.groups[k].deleting
    && t.groups[k].content == Some(c.name)
    && c in t.contents
    && t.contents[c].ready && t.contents[c].held && t.contents[c].handle != ""
    && t.contents[c].policy == Some(s.classPolicy) && t.contents[c].ref == Some(Ref(k, uid))
    && (if c in s.contents && s.contents[c].handle != "" then t.contents[c].handle == s.contents[c].handle
        else t.contents[c].handle == id && id in t.backend && t.backend[id] == c.name)
  }

  lemma Created(s: State, k: Key, uid: string)
    requires k in s.groups
    ensures var t, c := WithContent(WithFinalizer(s, k), k, uid), GeneratedKey(k, s.groups[k].uid);
      && k in t.groups && t.groups[k] == s.groups[k].(held := true, version := t.groups[k].version)
      && c in t.contents
      && (c in s.contents ==> t.contents[c] == s.contents[c])
      && (c !in s.contents ==>
            && t.contents[c].ref == Some(Ref(k, s.groups[k].uid)) && t.contents[c].policy == Some(s.classPolicy)
            && t.contents[c].handle == "" && !t.contents[c].deleting)
      && t.uids <= s.uids + {uid} && t.gw == s.gw && t.cw == s.cw && t.backend == s.backend && t.ids == s.ids
  {
  }

  lemma MadeReady(s: State, c: Key, id: string)
    requires c in s.contents
    ensures var t := Readied(s, c, id);
      && c in t.contents
      && t.contents[c] == s.contents[c].(held := true, ready := true, version := t.contents[c].version,
                                         handle := if s.contents[c].handle == "" then id else s.contents[c].handle)
      && (s.contents[c].handle == "" ==> id in t.backend && t.backend[id] == c.name)
      && t.groups == s.groups && t.uids == s.uids && t.gw == s.gw && t.cw == s.cw
  {
  }

  lemma Named(s: State, k: Key, name: string)
    requires k in s.groups
    ensures var t := WithName(WithFinalizer(s, k), k, name);
      && k in t.groups && t.groups[k] == s.groups[k].(held := true, content := Some(name),
          version := t.groups[k].version)
      && t.contents == s.contents && t.backend == s.backend
  {
  }

  /** Both controllers restart; the group controller, the content controller and again the group
      controller run a pass each, the first two only if the content is not ready yet. */
  function Provision(s: State, k: Key, uid: string, uid': string, id: string): seq<Step>
    requires k in s.groups
  {
    var c := GeneratedKey(k, s.groups[k].uid);
    [ByGroupWorker(GStop), ByContentWorker(CStop)]
    + (if c in s.contents && s.contents[c].ready then []
       else CreatingPass(k, uid) + ReadyingPass(c, if c in s.contents then s.contents[c].handle else "", id))
    + NamingPass(k, uid')
  }

  lemma BothRest(s: State)
    ensures Leads(s, [ByGroupWorker(GStop), ByContentWorker(CStop)], s.(gw := GIdle, cw := CIdle))
  {
  }

  /** The first two passes, from rest. */
  lemma BecomesReady(s: State, k: Key, uid: string, id: string)
    requires Live(s, k) && s.cw.CIdle? && s.groups[k].content.None? && uid !in s.uids
    requires var c := GeneratedKey(k, s.groups[k].uid);
      c in s.contents ==> !s.contents[c].deleting && s.contents[c].policy.Some?
    requires DriverMayReturn(s, MakeVGName(s.groups[k].uid), id)
    ensures var c := GeneratedKey(k, s.groups[k].uid);
      var u := WithContent(WithFinalizer(s, k), k, uid);
      var handle := if c in s.contents then s.contents[c].handle else "";
      c in u.contents && Leads(s, CreatingPass(k, uid) + ReadyingPass(c, handle, id), Readied(u, c, id))
  {
    var c, u := GeneratedKey(k, s.groups[k].uid), WithContent(WithFinalizer(s, k), k, uid);
    CreatingPassRuns(s, k, uid);
    Created(s, k, uid);
    assert DriverMayReturn(u, c.name, id);
    hide WithContent, WithFinalizer, Leads, Readied, CreatingPass, ReadyingPass, DriverMayReturn, MakeVGName;
    ReadyingPassRuns(u, c, id);
    LeadsOn(s, CreatingPass(k, uid), u, ReadyingPass(c, u.contents[c].handle, id), Readied(u, c, id));
  }

  /** In `u` the content of the group as it was in `s` is there, ready for a binding with `uid`. */
  ghost predicate ReadyToBind(s: State, u: State, k: Key, uid: string, id: string)
    requires k in s.groups
  {
    var c := GeneratedKey(k, s.groups[k].uid);
    && Live(u, k) && u.groups[k].content.None? && uid !in u.uids && u.groups[k].uid == s.groups[k].uid
    && c in u.contents && u.contents[c].ready && u.contents[c].held && u.contents[c].handle != ""
    && u.contents[c].policy == Some(s.classPolicy) && u.contents[c].ref == Some(Ref(k, s.groups[k].uid))
    && (if c in s.contents && s.contents[c].handle != "" then u.contents[c].handle == s.contents[c].handle
        else u.contents[c].handle == id && id in u.backend && u.backend[id] == c.name)
  }

  /** From a content that is ready the group is bound. */
  lemma BecomesBound(s: State, u: State, k: Key, uid: string, id: string)
    requires k in s.groups && ReadyToBind(s, u, k, uid, id)
    ensures Run(u, NamingPass(k, uid)) && Completed(s, Final(u, NamingPass(k, uid)), k, id)
  {
    NamingPassRuns(u, k, uid);
    Named(u, k, MakeVGName(u.groups[k].uid));
    assert VG_NAME_PREFIX + "-" == "volumegroup-";
    hide NamingPass, WithName, WithFinalizer, Run, Final;
  }

  ghost predicate Consistent(s: State) {
    Sound(s) && Provisioned(s) && WellBound(s) && Policied(s)
  }

  function AtRest(s: State): State {
    s.(gw := GIdle, cw := CIdle)
  }

  lemma ReadyAlready(s: State, k: Key, uid: string, id: string)
    requires Consistent(s) && Unbound(s, k) && uid !in s.uids
    requires var c := GeneratedKey(k, s.groups[k].uid); c in s.contents && s.contents[c].ready
    ensures ReadyToBind(s, AtRest(s), k, uid, id)
  {
    ContentOfLiveGroup(s, k);
    hide Consistent;
  }

  /** What the first two passes leave when the content was not ready. */
  function Prepared(s: State, k: Key, uid: string, id: string): State
    requires k in s.groups
  {
    Created(AtRest(s), k, uid);
    Readied(WithContent(WithFinalizer(AtRest(s), k), k, uid), GeneratedKey(k, s.groups[k].uid), id)
  }

  /** After the first pass: the group is held, and its content is live, has the handle it had, if
      any, and the reference and the policy it is to have. */
  ghost predicate Begun(s: State, v: State, k: Key)
    requires k in s.groups
  {
    var c := GeneratedKey(k, s.groups[k].uid);
    && Live(v, k) && v.groups[k].content.None? && v.groups[k].uid == s.groups[k].uid
    && c in v.contents
    && v.contents[c].policy == Some(s.classPolicy) && v.contents[c].ref == Some(Ref(k, s.groups[k].uid))
    && v.contents[c].handle == if c in s.contents then s.contents[c].handle else ""
  }

  lemma BegunByThePass(s: State, k: Key, uid: string)
    requires Consistent(s) && Unbound(s, k)
    ensures var v := WithContent(WithFinalizer(AtRest(s), k), k, uid); Begun(s, v, k) && v.uids <= s.uids + {uid}
  {
    if GeneratedKey(k, s.groups[k].uid) in s.contents {
      ContentOfLiveGroup(s, k);
    }
    Created(AtRest(s), k, uid);
    hide Consistent, WithContent, WithFinalizer, MakeVGName;
  }

  lemma ReadyAfterPasses(s: State, k: Key, uid: string, uid': string, id: string)
    requires Consistent(s) && Unbound(s, k) && uid !in s.uids && uid' !in s.uids && uid != uid' && id != ""
    ensures ReadyToBind(s, Prepared(s, k, uid, id), k, uid', id)
  {
    var v := WithContent(WithFinalizer(AtRest(s), k), k, uid);
    BegunByThePass(s, k, uid);
    hide Consistent, WithContent, WithFinalizer, Unbound;
    BegunIsReady(s, v, k, uid', id);
  }

  lemma BegunIsReady(s: State, v: State, k: Key, uid: string, id: string)
    requires k in s.groups && Begun(s, v, k) && uid !in v.uids && id != ""
    ensures ReadyToBind(s, Readied(v, GeneratedKey(k, s.groups[k].uid), id), k, uid, id)
  {
    MadeReady(v, GeneratedKey(k, s.groups[k].uid), id);
    hide Readied, MakeVGName;
  }

  lemma PassesRun(s: State, k: Key, uid: string, id: string)
    requires Consistent(s) && Unbound(s, k) && uid !in s.uids && DriverMayReturn(s, MakeVGName(s.groups[k].uid), id)
    requires var c := GeneratedKey(k, s.groups[k].uid); c in s.contents ==> !s.contents[c].deleting
    ensures var c := GeneratedKey(k, s.groups[k].uid);
      var handle := if c in s.contents then s.contents[c].handle else "";
      Leads(AtRest(s), CreatingPass(k, uid) + ReadyingPass(c, handle, id), Prepared(s, k, uid, id))
  {
    if GeneratedKey(k, s.groups[k].uid) in s.contents {
      ContentOfLiveGroup(s, k);
    }
    hide Consistent;
    assert DriverMayReturn(AtRest(s), MakeVGName(s.groups[k].uid), id);
    hide DriverMayReturn, Leads, CreatingPass, ReadyingPass;
    BecomesReady(AtRest(s), k, uid, id);
  }

  lemma ProvisionRuns(s: State, k: Key, uid: string, uid': string, id: string)
    requires Consistent(s) && Unbound(s, k) && !Stuck(s, k)
    requires uid !in s.uids && uid' !in s.uids && uid != uid' && DriverMayReturn(s, MakeVGName(s.groups[k].uid), id)
    ensures var steps := Provision(s, k, uid, uid', id); Run(s, steps) && Completed(s, Final(s, steps), k, id)
  {
    var c := GeneratedKey(k, s.groups[k].uid);
    var rest := [ByGroupWorker(GStop), ByContentWorker(CStop)];
    BothRest(s);
    assert id != "";
    if c in s.contents && s.contents[c].ready {
      ReadyAlready(s, k, uid', id);
      hide Consistent, ReadyToBind, Completed, NamingPass, DriverMayReturn, Leads;
      BecomesBound(s, AtRest(s), k, uid', id);
      LeadsAndRuns(s, rest, AtRest(s), NamingPass(k, uid'));
      assert rest + [] + NamingPass(k, uid') == rest + NamingPass(k, uid');
    } else {
      var passes := CreatingPass(k, uid) + ReadyingPass(c, if c in s.contents then s.contents[c].handle else "", id);
      ReadyAfterPasses(s, k, uid, uid', id);
      PassesRun(s, k, uid, id);
      hide Consistent, ReadyToBind, Completed, Prepared, CreatingPass, ReadyingPass, NamingPass, DriverMayReturn, Leads;
      BecomesBound(s, Prepared(s, k, uid, id), k, uid', id);
      LeadsOn(s, rest, AtRest(s), passes, Prepared(s, k, uid, id));
      LeadsAndRuns(s, rest + passes, Prepared(s, k, uid, id), NamingPass(k, uid'));
    }
  }

  lemma LeadsAndRuns(s: State, a: seq<Step>, t: State, b: seq<Step>)
    requires Leads(s, a, t) && Run(t, b)
    ensures Run(s, a + b) && Final(s, a + b) == Final(t, b)
  {
    RunsCompose(s, a, b);
  }

  /** Provisioning completes: whatever users, failures, crashes and lost answers did, as long as
      nobody asked to delete the group or, before it was ready, its content, these passes bind it. */
  lemma ProvisioningCompletes(s: State, steps: seq<Step>, k: Key, uid: string, uid': string, id: string)
    requires Consistent(s) && Run(s, steps) && AllLeaveGeneratedNames(steps)
    requires var t := Final(s, steps);
      && Unbound(t, k) && !Stuck(t, k) && uid !in t.uids && uid' !in t.uids && uid != uid'
      && DriverMayReturn(t, MakeVGName(t.groups[k].uid), id)
    ensures var t := Final(s, steps);
      var passes := Provision(t, k, uid, uid', id);
      Run(t, passes) && Completed(t, Final(t, passes), k, id)
  {
    BoundRun(s, steps);
    PoliciedRun(s, steps);
    var t := Final(s, steps);
    assert Consistent(t);
    hide Run, Final, Consistent, Completed, Provision, Stuck, Unbound, DriverMayReturn;
    ProvisionRuns(t, k, uid, uid', id);
  }

  lemma InitialIsConsistent(s: State)
    requires Initial(s)
    ensures Consistent(s)
  {
  }

  // ---- groups that name a content ----

  /** The group is held, and its content is ready, held, refers to it, and keeps its policy and its
      handle; what is missing of them is that of the class and the driver's answer. */
  ghost predicate BoundAndReady(s: State, t: State, k: Key, id: string)
    requires k in s.groups && FindsContent(s, k, s.groups[k])
  {
    var c := Key(k.namespace, s.groups[k].content.value);
    && k in t.groups && t.groups[k].uid == s.groups[k].uid && t.groups[k].held && !t.groups[k].deleting
    && t.groups[k].content == Some(c.name)
    && c in t.contents && t.contents[c].ready && t.contents[c].held
    && t.contents[c].ref == Some(Ref(k, s.groups[k].uid))
    && t.contents[c].policy == (if s.contents[c].policy.None? then Some(s.classPolicy) else s.contents[c].policy)
    && t.contents[c].handle == (if s.contents[c].handle == "" then id else s.contents[c].handle)
    && (s.contents[c].handle == "" ==> id in t.backend && t.backend[id] == c.name)
  }

  /** Both controllers restart; the group controller and then the content controller run a pass. */
  function BindAndReady(s: State, k: Key, id: string): seq<Step>
    requires k in s.groups && FindsContent(s, k, s.groups[k])
  {
    var c := NamedKey(k, s.groups[k]);
    [ByGroupWorker(GStop), ByContentWorker(CStop)] + BindingPass(k) + ReadyingPass(c, s.contents[c].handle, id)
  }

  lemma Rebound(s: State, k: Key)
    requires k in s.groups && FindsContent(s, k, s.groups[k])
    ensures var t, c := Bound(WithFinalizer(s, k), k), NamedKey(k, s.groups[k]);
      && k in t.groups && t.groups[k] == s.groups[k].(held := true, version := t.groups[k].version)
      && c in t.contents
      && t.contents[c] == s.contents[c].(ref := Some(Ref(k, s.groups[k].uid)), version := t.contents[c].version,
                                         policy := WithPolicy(s, s.contents[c]).policy)
      && t.backend == s.backend && t.ids == s.ids && t.cw == s.cw && t.gw == s.gw
  {
    var u := WithFinalizer(s, k);
    var v := WithName(u, k, s.groups[k].content.value);
    assert k in v.groups && v.groups[k] == s.groups[k].(held := true, version := v.groups[k].version);
    assert v == s.(groups := v.groups, clock := v.clock);
    hide WithFinalizer, WithName;
    ReferredTo(v, k, NamedKey(k, s.groups[k]));
  }

  lemma ReferredTo(s: State, k: Key, c: Key)
    requires k in s.groups && c in s.contents
    ensures var t := WithRef(s, k, c);
      && c in t.contents
      && t.contents[c] == s.contents[c].(ref := Some(Ref(k, s.groups[k].uid)), version := t.contents[c].version,
                                         policy := WithPolicy(s, s.contents[c]).policy)
      && t.groups == s.groups && t.backend == s.backend && t.ids == s.ids && t.cw == s.cw && t.gw == s.gw
  {
  }

  /** From any state at all: after a restart, one pass of the group controller and then one of the
      content controller make a live group that names a live content bound, and that content ready,
      with or without a handle at the start. */
  lemma BoundGroupsBecomeReady(s: State, k: Key, id: string)
    requires k in s.groups && !s.groups[k].deleting && FindsContent(s, k, s.groups[k])
    requires var c := NamedKey(k, s.groups[k]);
      !s.contents[c].deleting && (s.contents[c].handle == "" ==> DriverMayReturn(s, c.name, id))
    ensures var steps := BindAndReady(s, k, id); Run(s, steps) && BoundAndReady(s, Final(s, steps), k, id)
  {
    var c := NamedKey(k, s.groups[k]);
    var v := Bound(WithFinalizer(AtRest(s), k), k);
    BindsAndReadies(s, k, id);
    EndsBound(s, k, id);
    hide Bound, WithFinalizer, Readied, BindAndReady, Leads, DriverMayReturn, BoundAndReady;
    FinalOf(s, BindAndReady(s, k, id), Readied(v, c, id));
  }

  lemma BindsAndReadies(s: State, k: Key, id: string)
    requires k in s.groups && !s.groups[k].deleting && FindsContent(s, k, s.groups[k])
    requires var c := NamedKey(k, s.groups[k]);
      !s.contents[c].deleting && (s.contents[c].handle == "" ==> DriverMayReturn(s, c.name, id))
    ensures var c, v := NamedKey(k, s.groups[k]), Bound(WithFinalizer(AtRest(s), k), k);
      && c in v.contents
      && Leads(s, BindAndReady(s, k, id), Readied(v, c, id))
  {
    var c, u := NamedKey(k, s.groups[k]), AtRest(s);
    var rest, handle := [ByGroupWorker(GStop), ByContentWorker(CStop)], s.contents[c].handle;
    var v := Bound(WithFinalizer(u, k), k);
    BothRest(s);
    BindingPassRuns(u, k);
    Rebound(u, k);
    assert handle == "" ==> DriverMayReturn(v, c.name, id);
    hide Bound, WithFinalizer, Readied, BindingPass, ReadyingPass, Leads, DriverMayReturn;
    ReadyingPassRuns(v, c, id);
    LeadsOn(s, rest, u, BindingPass(k), v);
    LeadsOn(s, rest + BindingPass(k), v, ReadyingPass(c, handle, id), Readied(v, c, id));
  }

  lemma EndsBound(s: State, k: Key, id: string)
    requires k in s.groups && !s.groups[k].deleting && FindsContent(s, k, s.groups[k])
    ensures var c, v := NamedKey(k, s.groups[k]), Bound(WithFinalizer(AtRest(s), k), k);
      c in v.contents && BoundAndReady(s, Readied(v, c, id), k, id)
  {
    var v, c := Bound(WithFinalizer(AtRest(s), k), k), NamedKey(k, s.groups[k]);
    Rebound(AtRest(s), k);
    MadeReady(v, c, id);
    hide Bound, WithFinalizer, Readied;
  }

  lemma FinalOf(s: State, steps: seq<Step>, t: State)
    requires Leads(s, steps, t)
    ensures Run(s, steps) && Final(s, steps) == t
  {
  }
}
