/** Crash-safe provisioning of the backend group behind a content. */
module Provisioning {
  import opened Kube
  import opened Lifecycle

  // ---- the invariant ----

  /** A copy that carries the stored version is the stored object. */
  ghost predicate Versioned(contents: map<Key, Content>, clock: nat, cw: ContentWorker) {
    && (forall k :: k in contents ==> contents[k].version < clock)
    && (!cw.CIdle? ==>
          && cw.copy.version < clock
          && (cw.k in contents && contents[cw.k].version == cw.copy.version ==> contents[cw.k] == cw.copy))
  }

  ghost predicate Issued(contents: map<Key, Content>, uids: set<string>, cw: ContentWorker) {
    (forall k :: k in contents ==> contents[k].uid in uids) && (!cw.CIdle? ==> cw.copy.uid in uids)
  }

  ghost predicate ReadyHasHandle(contents: map<Key, Content>) {
    forall k :: k in contents && contents[k].ready ==> contents[k].handle != ""
  }

  /** The worker has not yet stored the handle of the content it reconciles. */
  predicate BeforeHandle(cw: ContentWorker) {
    cw.CRead? || cw.CHeld? || cw.CCreated?
  }

  /** Before the handle is stored the copy has the stored handle; afterwards it has one. */
  ghost predicate WorkerKnowsHandle(contents: map<Key, Content>, cw: ContentWorker) {
    && (BeforeHandle(cw) && cw.k in contents && contents[cw.k].uid == cw.copy.uid ==>
          contents[cw.k].handle == cw.copy.handle)
    && (cw.CCreated? ==> cw.copy.handle == "" && cw.id != "")
    && (cw.CStatic? || cw.CPersisted? ==> cw.copy.handle != "")
  }

  ghost predicate OneIdPerName(backend: map<string, string>, ids: set<string>) {
    && backend.Keys <= ids
    && forall i, j :: i in backend && j in backend && backend[i] == backend[j] ==> i == j
  }

  /** What Create answered is still in the backend under its name, unless it was deleted. */
  ghost predicate CallsAccounted(backend: map<string, string>, log: seq<Call>) {
    forall c :: c in log && c.CreateCall? ==>
      (c.id in backend && backend[c.id] == c.name) || DeleteCall(c.id) in log
  }

  ghost predicate Provisioned(s: State) {
    && Versioned(s.contents, s.clock, s.cw)
    && Issued(s.contents, s.uids, s.cw)
    && ReadyHasHandle(s.contents)
    && WorkerKnowsHandle(s.contents, s.cw)
    && OneIdPerName(s.backend, s.ids)
    && CallsAccounted(s.backend, s.log)
  }

  // ---- steps of users and of the group controller ----

  /** A stored content is untouched, or was written anew with the same handle, or is new. */
  ghost predicate Derived(s: State, t: State, k: Key)
    requires k in t.contents
  {
    var c := t.contents[k];
    || (k in s.contents && c == s.contents[k])
    || (s.clock <= c.version < t.clock && k in s.contents && c.uid == s.contents[k].uid
        && c.handle == s.contents[k].handle && c.ready == s.contents[k].ready)
    || (s.clock <= c.version < t.clock && c.uid !in s.uids && c.uid in t.uids && !c.ready)
  }

  ghost predicate Elsewhere(s: State, t: State) {
    && t.cw == s.cw && t.backend == s.backend && t.ids == s.ids && t.log == s.log
    && s.clock <= t.clock && s.uids <= t.uids
    && forall k :: k in t.contents ==> Derived(s, t, k)
  }

  lemma UserElsewhere(s: State, e: UserStep)
    requires UserMay(s, e)
    ensures Elsewhere(s, AfterUser(s, e))
  {
  }

  lemma GroupWorkerElsewhere(s: State, e: GroupStep)
    requires GroupWorkerMay(s, e)
    ensures Elsewhere(s, AfterGroupWorker(s, e))
  {
  }

  lemma ElsewhereKeepsProvisioned(s: State, t: State)
    requires Provisioned(s) && Elsewhere(s, t)
    ensures Provisioned(t)
  {
  }

  // ---- steps of the content controller ----

  lemma BackendSide(s: State, e: ContentStep)
    requires OneIdPerName(s.backend, s.ids) && CallsAccounted(s.backend, s.log) && ContentWorkerMay(s, e)
    ensures var t := AfterContentWorker(s, e);
      OneIdPerName(t.backend, t.ids) && CallsAccounted(t.backend, t.log)
  {
  }

  lemma StoredVersions(s: State, e: ContentStep)
    requires Versioned(s.contents, s.clock, s.cw) && ContentWorkerMay(s, e)
    ensures var t := AfterContentWorker(s, e); forall k :: k in t.contents ==> t.contents[k].version < t.clock
  {
    hide DriverMayReturn;
  }

  lemma ContentWorkerVersions(s: State, e: ContentStep)
    requires Versioned(s.contents, s.clock, s.cw) && ContentWorkerMay(s, e)
    ensures var t := AfterContentWorker(s, e); Versioned(t.contents, t.clock, t.cw)
  {
    StoredVersions(s, e);
    hide DriverMayReturn;
  }

  lemma ContentWorkerUids(s: State, e: ContentStep)
    requires Issued(s.contents, s.uids, s.cw) && ContentWorkerMay(s, e)
    ensures var t := AfterContentWorker(s, e); Issued(t.contents, t.uids, t.cw)
  {
  }

  lemma ContentWorkerHandles(s: State, e: ContentStep)
    requires Versioned(s.contents, s.clock, s.cw) && ContentWorkerMay(s, e)
    requires ReadyHasHandle(s.contents) && WorkerKnowsHandle(s.contents, s.cw)
    ensures var t := AfterContentWorker(s, e);
      ReadyHasHandle(t.contents) && WorkerKnowsHandle(t.contents, t.cw)
  {
  }

  lemma ProvisionedStep(s: State, e: Step)
    requires Provisioned(s) && Enabled(s, e)
    ensures Provisioned(Next(s, e))
  {
    hide UserMay, GroupWorkerMay, ContentWorkerMay, AfterUser, AfterGroupWorker, AfterContentWorker;
    hide Elsewhere, Versioned, Issued, ReadyHasHandle, WorkerKnowsHandle, OneIdPerName, CallsAccounted;
    match e
    case ByUser(x) =>
      UserElsewhere(s, x);
      ElsewhereKeepsProvisioned(s, AfterUser(s, x));
    case ByGroupWorker(x) =>
      GroupWorkerElsewhere(s, x);
      ElsewhereKeepsProvisioned(s, AfterGroupWorker(s, x));
    case ByContentWorker(x) =>
      ContentWorkerVersions(s, x);
      ContentWorkerUids(s, x);
      ContentWorkerHandles(s, x);
      BackendSide(s, x);
  }

  lemma {:induction false} ProvisionedRun(s: State, steps: seq<Step>)
    requires Provisioned(s) && Run(s, steps)
    ensures Provisioned(Final(s, steps))
    decreases |steps|
  {
    if steps != [] {
      hide Provisioned, Enabled, Next;
      ProvisionedStep(s, steps[0]);
      ProvisionedRun(Next(s, steps[0]), steps[1..]);
    }
  }

  // ---- what it gives over every run ----

  /** Ready is only ever stored together with a handle, and no two backend groups have the same
      name, however many calls failed, were lost or were retried. */
  lemma AtMostOneBackendGroup(s: State, steps: seq<Step>)
    requires Provisioned(s) && Run(s, steps)
    ensures var t := Final(s, steps);
      && (forall k :: k in t.contents && t.contents[k].ready ==> t.contents[k].handle != "")
      && (forall i, j :: i in t.backend && j in t.backend && t.backend[i] == t.backend[j] ==> i == j)
      && (forall c, d :: c in t.log && d in t.log && c.CreateCall? && d.CreateCall? ==>
            c.name != d.name || c.id == d.id || DeleteCall(c.id) in t.log || DeleteCall(d.id) in t.log)
  {
    hide Run, Final;
    ProvisionedRun(s, steps);
  }

  /** The content of that UID has the handle, and the worker knows. */
  ghost predicate Settled(s: State, k: Key, uid: string, handle: string) {
    && uid in s.uids
    && (k in s.contents && s.contents[k].uid == uid ==> s.contents[k].handle == handle)
    && (BeforeHandle(s.cw) && s.cw.k == k && s.cw.copy.uid == uid ==> s.cw.copy.handle == handle)
  }

  lemma ElsewhereKeepsSettled(s: State, t: State, k: Key, uid: string, handle: string)
    requires Settled(s, k, uid, handle) && Elsewhere(s, t)
    ensures Settled(t, k, uid, handle)
  {
  }

  lemma ContentWorkerKeepsSettled(s: State, e: ContentStep, k: Key, uid: string, handle: string)
    requires Provisioned(s) && Settled(s, k, uid, handle) && handle != "" && ContentWorkerMay(s, e)
    ensures Settled(AfterContentWorker(s, e), k, uid, handle)
  {
    hide OneIdPerName, CallsAccounted, DriverMayReturn, ReadyHasHandle;
  }

  lemma SettledStep(s: State, e: Step, k: Key, uid: string, handle: string)
    requires Provisioned(s) && Settled(s, k, uid, handle) && handle != "" && Enabled(s, e)
    ensures Settled(Next(s, e), k, uid, handle)
  {
    hide UserMay, GroupWorkerMay, ContentWorkerMay, AfterUser, AfterGroupWorker, AfterContentWorker, Provisioned,
        Settled, Elsewhere;
    match e
    case ByUser(x) =>
      UserElsewhere(s, x);
      ElsewhereKeepsSettled(s, AfterUser(s, x), k, uid, handle);
    case ByGroupWorker(x) =>
      GroupWorkerElsewhere(s, x);
      ElsewhereKeepsSettled(s, AfterGroupWorker(s, x), k, uid, handle);
    case ByContentWorker(x) => ContentWorkerKeepsSettled(s, x, k, uid, handle);
  }

  lemma {:induction false} SettledRun(s: State, steps: seq<Step>, k: Key, uid: string, handle: string)
    requires Provisioned(s) && Settled(s, k, uid, handle) && handle != "" && Run(s, steps)
    ensures Settled(Final(s, steps), k, uid, handle)
    decreases |steps|
  {
    if steps != [] {
      hide Provisioned, Settled, Enabled, Next;
      ProvisionedStep(s, steps[0]);
      SettledStep(s, steps[0], k, uid, handle);
      SettledRun(Next(s, steps[0]), steps[1..], k, uid, handle);
    }
  }

  /** Once its handle is stored, a content keeps it for as long as it exists, and the driver is
      never again asked to create a group for it. */
  lemma HandleIsForEver(s: State, steps: seq<Step>, k: Key)
    requires Provisioned(s) && Run(s, steps)
    requires k in s.contents && s.contents[k].handle != ""
    ensures var t, c := Final(s, steps), s.contents[k];
      && (k in t.contents && t.contents[k].uid == c.uid ==> t.contents[k].handle == c.handle)
      && forall id, lost :: Enabled(t, ByContentWorker(CCreateBackend(id, lost))) ==>
           t.cw.k != k || t.cw.copy.uid != c.uid
  {
    var c := s.contents[k];
    assert Settled(s, k, c.uid, c.handle);
    hide Run, Final;
    SettledRun(s, steps, k, c.uid, c.handle);
  }
}
