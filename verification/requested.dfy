/** Nothing goes unasked: the controllers remove a group only after a user has asked for it, and a
    content only after a user has, or after the deletion of a group that names it. */
module Requested {
  import opened Kube
  import opened Lifecycle
  import opened BackendSafety

  // ---- groups ----

  /** The group of that UID is there, and not marked for deletion. */
  ghost predicate LiveGroup(groups: map<Key, Group>, k: Key, uid: string) {
    k in groups && groups[k].uid == uid && !groups[k].deleting
  }

  /** The group the worker is about to remove is there, marked, and held by the operator. */
  ghost predicate GroupAnchored(groups: map<Key, Group>, gw: GroupWorker) {
    gw.GDropped? || (gw.GRead? && gw.copy.deleting && gw.copy.held) ==>
      gw.k in groups && groups[gw.k].uid == gw.copy.uid && groups[gw.k].deleting && groups[gw.k].held
  }

  lemma UserOnLiveGroup(s: State, e: UserStep, k: Key, uid: string)
    requires UserMay(s, e) && LiveGroup(s.groups, k, uid)
    ensures LiveGroup(AfterUser(s, e).groups, k, uid) <==> e != DeleteGroup(k)
  {
  }

  lemma UserKeepsGroupAnchored(s: State, e: UserStep)
    requires UserMay(s, e) && GroupAnchored(s.groups, s.gw)
    ensures GroupAnchored(AfterUser(s, e).groups, AfterUser(s, e).gw)
  {
  }

  lemma GroupWorkerOnLiveGroup(s: State, e: GroupStep, k: Key, uid: string)
    requires GroupWorkerMay(s, e) && GroupAnchored(s.groups, s.gw) && LiveGroup(s.groups, k, uid)
    ensures LiveGroup(AfterGroupWorker(s, e).groups, k, uid)
  {
  }

  lemma GroupWorkerKeepsGroupAnchored(s: State, e: GroupStep)
    requires GroupWorkerMay(s, e) && GroupAnchored(s.groups, s.gw)
    ensures GroupAnchored(AfterGroupWorker(s, e).groups, AfterGroupWorker(s, e).gw)
  {
  }

  lemma ContentWorkerLeavesGroups(s: State, e: ContentStep)
    requires ContentWorkerMay(s, e)
    ensures AfterContentWorker(s, e).groups == s.groups && AfterContentWorker(s, e).gw == s.gw
  {
  }

  /** A step ends the life of a group exactly when it is a user's request to delete it. */
  lemma LiveGroupStep(s: State, e: Step, k: Key, uid: string)
    requires Enabled(s, e) && GroupAnchored(s.groups, s.gw) && LiveGroup(s.groups, k, uid)
    ensures LiveGroup(Next(s, e).groups, k, uid) <==> e != ByUser(DeleteGroup(k))
    ensures GroupAnchored(Next(s, e).groups, Next(s, e).gw)
  {
    hide UserMay, GroupWorkerMay, ContentWorkerMay, AfterUser, AfterGroupWorker, AfterContentWorker;
    hide LiveGroup, GroupAnchored;
    match e
    case ByUser(x) => UserOnLiveGroup(s, x, k, uid); UserKeepsGroupAnchored(s, x);
    case ByGroupWorker(x) => GroupWorkerOnLiveGroup(s, x, k, uid); GroupWorkerKeepsGroupAnchored(s, x);
    case ByContentWorker(x) => ContentWorkerLeavesGroups(s, x);
  }

  /** Over every run in which no user asks to delete it, a live group stays, and stays unmarked,
      whatever fails, crashes or is retried. */
  lemma {:induction false} LiveGroupsStay(s: State, steps: seq<Step>, k: Key, uid: string)
    requires Run(s, steps) && GroupAnchored(s.groups, s.gw) && LiveGroup(s.groups, k, uid)
    requires ByUser(DeleteGroup(k)) !in steps
    ensures LiveGroup(Final(s, steps).groups, k, uid)
    decreases |steps|
  {
    if steps != [] {
      hide Enabled, Next, LiveGroup, GroupAnchored;
      assert steps[0] in steps;
      assert forall e :: e in steps[1..] ==> e in steps;
      LiveGroupStep(s, steps[0], k, uid);
      LiveGroupsStay(Next(s, steps[0]), steps[1..], k, uid);
    }
  }

  // ---- contents ----

  ghost predicate LiveContent(contents: map<Key, Content>, c: Key, uid: string) {
    c in contents && contents[c].uid == uid && !contents[c].deleting
  }

  /** The worker deletes a marked group that names the content, whose policy is Delete. */
  ghost predicate DropsContent(s: State, e: Step, c: Key) {
    && e == ByGroupWorker(GDropContent) && s.gw.GRead? && s.gw.copy.deleting
    && s.gw.copy.content == Some(c.name) && c.namespace == s.gw.k.namespace
    && c in s.contents && s.contents[c].policy == Some(Delete)
  }

  /** What may end the life of a content. */
  ghost predicate Asks(s: State, e: Step, c: Key) {
    e == ByUser(DeleteContent(c)) || DropsContent(s, e, c)
  }

  lemma UserOnLiveContent(s: State, e: UserStep, c: Key, uid: string)
    requires UserMay(s, e) && LiveContent(s.contents, c, uid)
    ensures LiveContent(AfterUser(s, e).contents, c, uid) <==> e != DeleteContent(c)
  {
  }

  lemma GroupWorkerOnLiveContent(s: State, e: GroupStep, c: Key, uid: string)
    requires GroupWorkerMay(s, e) && LiveContent(s.contents, c, uid)
    ensures LiveContent(AfterGroupWorker(s, e).contents, c, uid) <==> !DropsContent(s, ByGroupWorker(e), c)
  {
    hide MakeVGName;
  }

  lemma ContentWorkerOnLiveContent(s: State, e: ContentStep, c: Key, uid: string)
    requires ContentWorkerMay(s, e) && LiveContent(s.contents, c, uid)
    requires ContentWorkerPlaced(s.groups, s.uids, s.cw) && Anchored(s.contents, s.cw)
    ensures LiveContent(AfterContentWorker(s, e).contents, c, uid)
  {
    hide DriverMayReturn, PlacedIfAny, GoneIfAny;
  }

  /** A step ends the life of a content exactly when a user asks for it, or when the deletion of a
      group that names it does. */
  lemma LiveContentStep(s: State, e: Step, c: Key, uid: string)
    requires Sound(s) && Enabled(s, e) && LiveContent(s.contents, c, uid)
    ensures LiveContent(Next(s, e).contents, c, uid) <==> !Asks(s, e, c)
  {
    hide UserMay, GroupWorkerMay, ContentWorkerMay, AfterUser, AfterGroupWorker, AfterContentWorker;
    hide LiveContent, ContentWorkerPlaced, Anchored;
    match e
    case ByUser(x) => UserOnLiveContent(s, x, c, uid);
    case ByGroupWorker(x) => GroupWorkerOnLiveContent(s, x, c, uid);
    case ByContentWorker(x) => ContentWorkerOnLiveContent(s, x, c, uid);
  }

  ghost predicate NobodyAsks(s: State, steps: seq<Step>, c: Key)
    requires Run(s, steps)
    decreases |steps|
  {
    steps != [] ==> !Asks(s, steps[0], c) && NobodyAsks(Next(s, steps[0]), steps[1..], c)
  }

  ghost predicate LiveThroughout(s: State, steps: seq<Step>, c: Key, uid: string)
    requires Run(s, steps)
    decreases |steps|
  {
    LiveContent(s.contents, c, uid) && (steps != [] ==> LiveThroughout(Next(s, steps[0]), steps[1..], c, uid))
  }

  /** Over every run a live content stays, and stays unmarked, exactly as long as nobody asks. */
  lemma {:induction false} LiveExactlyUnlessAsked(s: State, steps: seq<Step>, c: Key, uid: string)
    requires Sound(s) && Run(s, steps) && LiveContent(s.contents, c, uid)
    ensures LiveThroughout(s, steps, c, uid) <==> NobodyAsks(s, steps, c)
    decreases |steps|
  {
    if steps != [] {
      hide Sound, Enabled, Next, LiveContent, Asks;
      SoundStep(s, steps[0]);
      LiveContentStep(s, steps[0], c, uid);
      if LiveContent(Next(s, steps[0]).contents, c, uid) {
        LiveExactlyUnlessAsked(Next(s, steps[0]), steps[1..], c, uid);
      } else {
        assert !LiveThroughout(Next(s, steps[0]), steps[1..], c, uid);
      }
    }
  }

  // ---- volumes ----

  function Additions(volumes: seq<string>): seq<Step> {
    if volumes == [] then [] else [ByGroupWorker(GAddVolume(volumes[0]))] + Additions(volumes[1..])
  }

  function Removals(volumes: seq<string>): seq<Step> {
    if volumes == [] then [] else [ByGroupWorker(GDropVolume(volumes[0]))] + Removals(volumes[1..])
  }

  /** The worker has come to the members of a group whose content is there. */
  ghost predicate AtMembers(s: State) {
    s.gw.GMembers? && FindsContent(s, s.gw.k, s.gw.copy)
  }

  /** Between `s` and `t` only the volumes of the worker's content have changed, to `volumes`. */
  ghost predicate Lists(s: State, t: State, volumes: set<string>)
    requires AtMembers(s)
  {
    var c := NamedKey(s.gw.k, s.gw.copy);
    && t.gw == s.gw && t.cw == s.cw && t.groups == s.groups && t.backend == s.backend
    && t.contents.Keys == s.contents.Keys
    && (forall d :: d in s.contents && d != c ==> t.contents[d] == s.contents[d])
    && t.contents[c] == s.contents[c].(volumes := volumes, version := t.contents[c].version)
  }

  ghost function VolumesOf(s: State): set<string>
    requires AtMembers(s)
  {
    s.contents[NamedKey(s.gw.k, s.gw.copy)].volumes
  }

  lemma OneVolume(s: State, volume: string)
    requires AtMembers(s)
    ensures var a := ByGroupWorker(GAddVolume(volume));
      Enabled(s, a) && AtMembers(Next(s, a)) && Lists(s, Next(s, a), VolumesOf(s) + {volume})
    ensures var b := ByGroupWorker(GDropVolume(volume));
      Enabled(s, b) && AtMembers(Next(s, b)) && Lists(s, Next(s, b), VolumesOf(s) - {volume})
  {
  }

  lemma ListsSelf(s: State)
    requires AtMembers(s)
    ensures Lists(s, s, VolumesOf(s))
  {
  }

  lemma ListsOn(s: State, t: State, u: State, a: set<string>, b: set<string>)
    requires AtMembers(s) && AtMembers(t) && Lists(s, t, a) && Lists(t, u, b)
    ensures VolumesOf(t) == a && Lists(s, u, b)
  {
  }

  lemma RunFrom(s: State, e: Step, rest: seq<Step>)
    requires Enabled(s, e) && Run(Next(s, e), rest)
    ensures Run(s, [e] + rest) && Final(s, [e] + rest) == Final(Next(s, e), rest)
  {
    hide Enabled, Next;
    RunOne(s, e);
    RunsCompose(s, [e], rest);
  }

  lemma SetOf(volumes: seq<string>)
    requires volumes != []
    ensures (set v | v in volumes) == {volumes[0]} + set v | v in volumes[1..]
  {
  }

  /** The volumes the worker adds are listed in the content of its group, and nowhere else. */
  lemma {:induction false} AddedVolumesAreListed(s: State, volumes: seq<string>)
    requires AtMembers(s)
    ensures Run(s, Additions(volumes))
    ensures Lists(s, Final(s, Additions(volumes)), VolumesOf(s) + set v | v in volumes)
    decreases |volumes|
  {
    if volumes == [] {
      ListsSelf(s);
    } else {
      var e, rest := ByGroupWorker(GAddVolume(volumes[0])), Additions(volumes[1..]);
      OneVolume(s, volumes[0]);
      hide Enabled, Next, Lists, AtMembers, VolumesOf;
      hide Run, Final;
      AddedVolumesAreListed(Next(s, e), volumes[1..]);
      RunFrom(s, e, rest);
      SetOf(volumes);
      ListsOn(s, Next(s, e), Final(Next(s, e), rest), VolumesOf(s) + {volumes[0]},
          VolumesOf(Next(s, e)) + set v | v in volumes[1..]);
    }
  }

  /** The volumes the worker removes are listed in the content of its group no more. */
  lemma {:induction false} RemovedVolumesAreNot(s: State, volumes: seq<string>)
    requires AtMembers(s)
    ensures Run(s, Removals(volumes))
    ensures Lists(s, Final(s, Removals(volumes)), VolumesOf(s) - set v | v in volumes)
    decreases |volumes|
  {
    if volumes == [] {
      ListsSelf(s);
    } else {
      var e, rest := ByGroupWorker(GDropVolume(volumes[0])), Removals(volumes[1..]);
      OneVolume(s, volumes[0]);
      hide Enabled, Next, Lists, AtMembers, VolumesOf;
      hide Run, Final;
      RemovedVolumesAreNot(Next(s, e), volumes[1..]);
      RunFrom(s, e, rest);
      SetOf(volumes);
      ListsOn(s, Next(s, e), Final(Next(s, e), rest), VolumesOf(s) - {volumes[0]},
          VolumesOf(Next(s, e)) - set v | v in volumes[1..]);
    }
  }
}
