/** The life of groups and their contents: both controllers as step systems over one versioned
    store, with users, failures and crashes between any two steps. */
module Lifecycle {
  import opened Kube

  datatype Policy = Delete | Retain

  /** A reference from a content to its group; both parts are written together. */
  datatype Ref = Ref(key: Key, uid: string)

  /** A VolumeGroup. `content` is the name in its spec, `held` whether it carries the operator's
      finalizer, `others` whether it carries any other. `dynamic` records that it was created
      without a content name. */
  datatype Group = Group(
    uid: string,
    version: nat,
    dynamic: bool,
    content: Option<string>,
    held: bool,
    others: bool,
    deleting: bool)

  /** A VolumeGroupContent. `volumes` are those its status lists. */
  datatype Content = Content(
    uid: string,
    version: nat,
    ref: Option<Ref>,
    handle: string,
    policy: Option<Policy>,
    held: bool,
    others: bool,
    deleting: bool,
    ready: bool,
    volumes: set<string>)

  /** The group controller, with its copy of the group it reconciles. */
  datatype GroupWorker =
    | GIdle
    | GRead(k: Key, copy: Group)
    | GHeld(k: Key, copy: Group)
    | GCreated(k: Key, copy: Group)
    | GObserved(k: Key, copy: Group)
    | GNamed(k: Key, copy: Group)
    | GMembers(k: Key, copy: Group)
    | GDropped(k: Key, copy: Group)

  /** The content controller, with its copy of the content it reconciles. `checked` is the
      reference whose group was found to be gone. */
  datatype ContentWorker =
    | CIdle
    | CRead(k: Key, copy: Content)
    | CHeld(k: Key, copy: Content)
    | CStatic(k: Key, copy: Content)
    | CCreated(k: Key, copy: Content, id: string)
    | CPersisted(k: Key, copy: Content)
    | CChecked(k: Key, copy: Content, checked: Option<Ref>)
    | CDeleted(k: Key, copy: Content, checked: Option<Ref>)

  datatype Call = CreateCall(name: string, id: string) | DeleteCall(id: string)

  /** `groups` and `contents` are the API server; `clock` is the next resource version; `uids`
      were issued before. `backend` maps group ids to names; `ids` were issued before. */
  datatype State = State(
    groups: map<Key, Group>,
    contents: map<Key, Content>,
    clock: nat,
    uids: set<string>,
    backend: map<string, string>,
    ids: set<string>,
    classPolicy: Policy,
    gw: GroupWorker,
    cw: ContentWorker,
    log: seq<Call>)

  /** What users and garbage collection do; finalizers of others are theirs to set and clear. */
  datatype UserStep =
    | CreateGroup(k: Key, uid: string, content: Option<string>)
    | DeleteGroup(k: Key)
    | OtherFinalizerOnGroup(k: Key, present: bool)
    | CreateContent(k: Key, uid: string, handle: string, policy: Option<Policy>)
    | DeleteContent(k: Key)
    | OtherFinalizerOnContent(k: Key, present: bool)

  /** The group controller. `GStop` is a return, with or without an error, or a crash. */
  datatype GroupStep =
    | GStart(k: Key)
    | GHold
    | GCreateContent(uid: string)
    | GSeeReady
    | GSetContent
    | GBind
    | GAddVolume(volume: string)
    | GDropVolume(volume: string)
    | GDropContent
    | GRelease
    | GStop

  /** The content controller. A driver call is `lost` when it took effect but its answer did not
      arrive. */
  datatype ContentStep =
    | CStart(k: Key)
    | CHold
    | CUpdateStatic
    | CCreateBackend(id: string, lost: bool)
    | CPersist
    | CSetReady
    | CCheck
    | CDeleteClaim(volume: string)
    | CDeleteBackend(lost: bool)
    | CKeepBackend
    | CRelease
    | CStop

  datatype Step =
    | ByUser(user: UserStep)
    | ByGroupWorker(group: GroupStep)
    | ByContentWorker(content: ContentStep)

  // ---- names ----

  const GENERATED_PREFIX := VG_NAME_PREFIX + "-"

  /** MakeVGName, for a non-empty UID. */
  function MakeVGName(uid: string): string {
    GENERATED_PREFIX + uid
  }

  /** The operator could have generated the name. */
  predicate Generated(name: string) {
    GENERATED_PREFIX <= name
  }

  /** The UID of the group a generated name belongs to. */
  function OwnerOf(name: string): string
    requires Generated(name)
  {
    name[|GENERATED_PREFIX|..]
  }

  /** The UID can be read back from the generated name, so different groups get different
      content names, and their backend groups differ by name too. */
  lemma MakeVGNameRoundTrip(uid: string, name: string)
    ensures Generated(MakeVGName(uid)) && OwnerOf(MakeVGName(uid)) == uid
    ensures Generated(name) ==> (MakeVGName(uid) == name <==> OwnerOf(name) == uid)
  {
  }

  /** The key of the content generated for a group. */
  function GeneratedKey(k: Key, uid: string): Key {
    Key(k.namespace, MakeVGName(uid))
  }

  /** The key of the content a group names; "" stands for none, and is never looked up. */
  function NamedKey(k: Key, g: Group): Key {
    Key(k.namespace, match g.content case Some(n) => n case None => "")
  }

  // ---- store ----

  function PutGroup(s: State, k: Key, g: Group): State {
    s.(groups := s.groups[k := g.(version := s.clock)], clock := s.clock + 1)
  }

  function PutContent(s: State, k: Key, c: Content): State {
    s.(contents := s.contents[k := c.(version := s.clock)], clock := s.clock + 1)
  }

  /** A delete request: the object goes at once, or is marked while finalizers hold it. */
  function RequestGroupDeletion(s: State, k: Key): State
    requires k in s.groups
  {
    var g := s.groups[k];
    if g.held || g.others then PutGroup(s, k, g.(deleting := true)) else s.(groups := s.groups - {k})
  }

  function RequestContentDeletion(s: State, k: Key): State
    requires k in s.contents
  {
    var c := s.contents[k];
    if c.held || c.others then PutContent(s, k, c.(deleting := true)) else s.(contents := s.contents - {k})
  }

  /** The driver creates by name: a group of that name is returned, otherwise a new id is issued. */
  ghost predicate DriverMayReturn(s: State, name: string, id: string) {
    && id != ""
    && (if exists i :: i in s.backend && s.backend[i] == name
        then id in s.backend && s.backend[id] == name
        else id !in s.ids)
  }

  /** GetVGC for the content a group names. */
  predicate FindsContent(s: State, k: Key, g: Group) {
    g.content.Some? && NamedKey(k, g) in s.contents
  }

  ghost predicate UserMay(s: State, e: UserStep) {
    match e
    case CreateGroup(k, uid, content) => k !in s.groups && uid != "" && uid !in s.uids && content != Some("")
    case DeleteGroup(k) => k in s.groups
    case OtherFinalizerOnGroup(k, present) => k in s.groups
    case CreateContent(k, uid, handle, policy) => k !in s.contents && k.name != "" && uid !in s.uids
    case DeleteContent(k) => k in s.contents
    case OtherFinalizerOnContent(k, present) => k in s.contents
  }

  ghost predicate GroupWorkerMay(s: State, e: GroupStep) {
    match e
    case GStart(k) => s.gw.GIdle? && k in s.groups
    case GHold => s.gw.GRead? && !s.gw.copy.deleting && (s.gw.copy.held || s.gw.k in s.groups)
    case GCreateContent(uid) => s.gw.GHeld? && s.gw.copy.content == None && uid !in s.uids
    case GSeeReady =>
      && s.gw.GCreated? && GeneratedKey(s.gw.k, s.gw.copy.uid) in s.contents
      && s.contents[GeneratedKey(s.gw.k, s.gw.copy.uid)].ready
    case GSetContent =>
      && (s.gw.GObserved? || (s.gw.GHeld? && s.gw.copy.content.Some?))
      && s.gw.k in s.groups && s.groups[s.gw.k].version == s.gw.copy.version
    case GBind => s.gw.GNamed? && NamedKey(s.gw.k, s.gw.copy) in s.contents
    case GAddVolume(volume) => s.gw.GMembers? && FindsContent(s, s.gw.k, s.gw.copy)
    case GDropVolume(volume) => s.gw.GMembers? && FindsContent(s, s.gw.k, s.gw.copy)
    case GDropContent =>
      && s.gw.GRead? && s.gw.copy.deleting && s.gw.copy.held && !s.gw.copy.others
      && (FindsContent(s, s.gw.k, s.gw.copy) ==> s.contents[NamedKey(s.gw.k, s.gw.copy)].policy.Some?)
    case GRelease => s.gw.GDropped? && s.gw.k in s.groups
    case GStop => true
  }

  ghost predicate ContentWorkerMay(s: State, e: ContentStep) {
    match e
    case CStart(k) => s.cw.CIdle? && k in s.contents
    case CHold => s.cw.CRead? && !s.cw.copy.deleting && (s.cw.copy.held || s.cw.k in s.contents)
    case CUpdateStatic => s.cw.CHeld? && s.cw.copy.handle != "" && s.cw.k in s.contents
    case CCreateBackend(id, lost) => s.cw.CHeld? && s.cw.copy.handle == "" && DriverMayReturn(s, s.cw.k.name, id)
    case CPersist => s.cw.CCreated? && s.cw.k in s.contents && s.contents[s.cw.k].version == s.cw.copy.version
    case CSetReady =>
      (s.cw.CStatic? || s.cw.CPersisted?) && s.cw.k in s.contents && s.contents[s.cw.k].version == s.cw.copy.version
    case CCheck =>
      && s.cw.CRead? && s.cw.copy.deleting && s.cw.copy.held && !s.cw.copy.others
      && (s.cw.copy.ref.Some? ==> s.cw.copy.ref.value.key !in s.groups)
    case CDeleteClaim(volume) => s.cw.CChecked? && s.cw.k in s.contents
    case CDeleteBackend(lost) => s.cw.CChecked? && s.cw.copy.policy == Some(Delete)
    case CKeepBackend => s.cw.CChecked? && s.cw.copy.policy == Some(Retain)
    case CRelease => s.cw.CDeleted? && s.cw.k in s.contents
    case CStop => true
  }

  ghost predicate Enabled(s: State, e: Step) {
    match e
    case ByUser(x) => UserMay(s, x)
    case ByGroupWorker(x) => GroupWorkerMay(s, x)
    case ByContentWorker(x) => ContentWorkerMay(s, x)
  }

  function WithPolicy(s: State, c: Content): Content {
    if c.policy.None? then c.(policy := Some(s.classPolicy)) else c
  }

  /** The finalizer update re-applies the copy's list; a reload leaves the copy current. */
  function HoldGroup(s: State): State
    requires s.gw.GRead? && s.gw.k in s.groups
  {
    var t := PutGroup(s, s.gw.k, s.groups[s.gw.k].(held := true, others := s.gw.copy.others));
    t.(gw := GHeld(s.gw.k, t.groups[s.gw.k]))
  }

  function HoldContent(s: State): State
    requires s.cw.CRead? && s.cw.k in s.contents
  {
    var t := PutContent(s, s.cw.k, s.contents[s.cw.k].(held := true, others := s.cw.copy.others));
    t.(cw := CHeld(s.cw.k, t.contents[s.cw.k]))
  }

  /** CreateVGC: an existing object of that name counts as success. */
  function CreateGenerated(s: State, uid: string): State
    requires s.gw.GHeld?
  {
    var k, g := s.gw.k, s.gw.copy;
    var c := GeneratedKey(k, g.uid);
    var t := if c in s.contents then s
             else PutContent(s.(uids := s.uids + {uid}), c,
                             Content(uid, 0, Some(Ref(k, g.uid)),
                                     "", Some(s.classPolicy), false, false, false, false, {}));
    t.(gw := GCreated(k, g))
  }

  /** UpdateVGSourceContent. The dynamic branch goes on with the members, the static one binds. */
  function SetContent(s: State): State
    requires (s.gw.GObserved? || s.gw.GHeld?) && s.gw.k in s.groups
  {
    var k, g := s.gw.k, s.gw.copy;
    var name := if s.gw.GObserved? then Some(MakeVGName(g.uid)) else g.content;
    var t := PutGroup(s, k, s.groups[k].(content := name));
    t.(gw := if s.gw.GObserved? then GMembers(k, t.groups[k]) else GNamed(k, t.groups[k]))
  }

  function DropContent(s: State): State
    requires s.gw.GRead?
  {
    var c := NamedKey(s.gw.k, s.gw.copy);
    var t := if FindsContent(s, s.gw.k, s.gw.copy) && s.contents[c].policy == Some(Delete)
        then RequestContentDeletion(s, c) else s;
    t.(gw := GDropped(s.gw.k, s.gw.copy))
  }

  function Persist(s: State): State
    requires s.cw.CCreated? && s.cw.k in s.contents
  {
    var t := PutContent(s, s.cw.k, s.contents[s.cw.k].(handle := s.cw.id));
    t.(cw := CPersisted(s.cw.k, t.contents[s.cw.k]))
  }

  /** One turn of the claim deletions: the list stored is that of the copy without the volume, even
      after a conflict, which leaves the copy current. */
  function UnlistVolume(s: State, volume: string): State
    requires s.cw.CChecked? && s.cw.k in s.contents
  {
    var t := PutContent(s, s.cw.k, s.contents[s.cw.k].(volumes := s.cw.copy.volumes - {volume}));
    t.(cw := CChecked(s.cw.k, t.contents[s.cw.k], s.cw.checked))
  }

  /** RemoveFinalizerFromVGC: the content goes unless the copy carries another finalizer. */
  function ReleaseContent(s: State): State
    requires s.cw.CDeleted? && s.cw.k in s.contents
  {
    var k, c := s.cw.k, s.cw.copy;
    (if c.others then PutContent(s, k, s.contents[k].(held := false, others := true))
        else s.(contents := s.contents - {k}))
    .(cw := CIdle)
  }

  function CreateBackend(s: State, id: string, lost: bool): State
    requires s.cw.CHeld?
  {
    s.(backend := s.backend[id := s.cw.k.name], ids := s.ids + {id},
       log := s.log + [CreateCall(s.cw.k.name, id)],
       cw := if lost then CIdle else CCreated(s.cw.k, s.cw.copy, id))
  }

  ghost function AfterUser(s: State, e: UserStep): State
    requires UserMay(s, e)
  {
    match e
    case CreateGroup(k, uid, content) =>
      PutGroup(s.(uids := s.uids + {uid}), k, Group(uid, 0, content.None?, content, false, false, false))
    case DeleteGroup(k) => RequestGroupDeletion(s, k)
    case OtherFinalizerOnGroup(k, present) =>
      var g := s.groups[k];
      if g.deleting && !g.held && !present then s.(groups := s.groups - {k}) else PutGroup(s, k, g.(others := present))
    case CreateContent(k, uid, handle, policy) =>
      PutContent(s.(uids := s.uids + {uid}), k, Content(uid, 0, None, handle, policy, false, false, false, false, {}))
    case DeleteContent(k) => RequestContentDeletion(s, k)
    case OtherFinalizerOnContent(k, present) =>
      var c := s.contents[k];
      if c.deleting && !c.held && !present then s.(contents := s.contents - {k})
          else PutContent(s, k, c.(others := present))
  }

  ghost function AfterGroupWorker(s: State, e: GroupStep): State
    requires GroupWorkerMay(s, e)
  {
    match e
    case GStart(k) => s.(gw := GRead(k, s.groups[k]))
    case GHold => if s.gw.copy.held then s.(gw := GHeld(s.gw.k, s.gw.copy)) else HoldGroup(s)
    case GCreateContent(uid) => CreateGenerated(s, uid)
    case GSeeReady => s.(gw := GObserved(s.gw.k, s.gw.copy))
    case GSetContent => SetContent(s)
    case GBind =>
      var c := NamedKey(s.gw.k, s.gw.copy);
      PutContent(s, c, WithPolicy(s, s.contents[c].(ref := Some(Ref(s.gw.k, s.gw.copy.uid)))))
      .(gw := GMembers(s.gw.k, s.gw.copy))
    case GAddVolume(volume) =>
      var c := NamedKey(s.gw.k, s.gw.copy);
      PutContent(s, c, s.contents[c].(volumes := s.contents[c].volumes + {volume}))
    case GDropVolume(volume) =>
      var c := NamedKey(s.gw.k, s.gw.copy);
      PutContent(s, c, s.contents[c].(volumes := s.contents[c].volumes - {volume}))
    case GDropContent => DropContent(s)
    case GRelease => s.(groups := s.groups - {s.gw.k}, gw := GIdle)
    case GStop => s.(gw := GIdle)
  }

  ghost function AfterContentWorker(s: State, e: ContentStep): State
    requires ContentWorkerMay(s, e)
  {
    match e
    case CStart(k) => s.(cw := CRead(k, s.contents[k]))
    case CHold => if s.cw.copy.held then s.(cw := CHeld(s.cw.k, s.cw.copy)) else HoldContent(s)
    case CUpdateStatic =>
      var c := s.contents[s.cw.k];
      (if c.policy.None? then PutContent(s, s.cw.k, WithPolicy(s, c)) else s).(cw := CStatic(s.cw.k, s.cw.copy))
    case CCreateBackend(id, lost) => CreateBackend(s, id, lost)
    case CPersist => Persist(s)
    case CSetReady => PutContent(s, s.cw.k, s.contents[s.cw.k].(ready := true)).(cw := CIdle)
    case CCheck => s.(cw := CChecked(s.cw.k, s.cw.copy, s.cw.copy.ref))
    case CDeleteClaim(volume) => UnlistVolume(s, volume)
    case CDeleteBackend(lost) =>
      s.(backend := s.backend - {s.cw.copy.handle}, log := s.log + [DeleteCall(s.cw.copy.handle)],
         cw := if lost then CIdle else CDeleted(s.cw.k, s.cw.copy, s.cw.checked))
    case CKeepBackend => s.(cw := CDeleted(s.cw.k, s.cw.copy, s.cw.checked))
    case CRelease => ReleaseContent(s)
    case CStop => s.(cw := CIdle)
  }

  ghost function Next(s: State, e: Step): State
    requires Enabled(s, e)
  {
    match e
    case ByUser(x) => AfterUser(s, x)
    case ByGroupWorker(x) => AfterGroupWorker(s, x)
    case ByContentWorker(x) => AfterContentWorker(s, x)
  }

  ghost predicate Run(s: State, steps: seq<Step>)
    decreases |steps|
  {
    steps == [] || (Enabled(s, steps[0]) && Run(Next(s, steps[0]), steps[1..]))
  }

  ghost function Final(s: State, steps: seq<Step>): State
    requires Run(s, steps)
    decreases |steps|
  {
    if steps == [] then s else Final(Next(s, steps[0]), steps[1..])
  }

  lemma NoStepsYet(s: State)
    ensures Run(s, []) && Final(s, []) == s
  {
  }

  lemma {:induction false} RunsCompose(s: State, a: seq<Step>, b: seq<Step>)
    requires Run(s, a) && Run(Final(s, a), b)
    ensures Run(s, a + b) && Final(s, a + b) == Final(Final(s, a), b)
    decreases |a|
  {
    hide Enabled, Next;
    if a == [] {
      assert a + b == b;
    } else {
      assert (a + b)[1..] == a[1..] + b && (a + b)[0] == a[0];
      RunsCompose(Next(s, a[0]), a[1..], b);
    }
  }

  lemma RunOne(s: State, e: Step)
    requires Enabled(s, e)
    ensures Run(s, [e]) && Final(s, [e]) == Next(s, e)
  {
  }

  lemma RunTwo(s: State, a: Step, b: Step)
    requires Enabled(s, a) && Enabled(Next(s, a), b)
    ensures Run(s, [a, b]) && Final(s, [a, b]) == Next(Next(s, a), b)
  {
    hide Enabled, Next;
    RunOne(s, a);
    RunOne(Next(s, a), b);
    RunsCompose(s, [a], [b]);
    assert [a] + [b] == [a, b];
  }

  /** Nothing exists yet. */
  ghost predicate Initial(s: State) {
    s.groups == map[] && s.contents == map[] && s.backend == map[] && s.gw.GIdle? && s.cw.CIdle? && s.log == []
  }
}
