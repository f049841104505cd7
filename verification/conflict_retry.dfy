/** Optimistic concurrency: the retry loop around a status or metadata update. */
module ConflictRetry {
  import opened Kube

  datatype Outcome = Done | Conflict | UpdateFailed | ReloadFailed

  /** What happens around the loop: the versions other writers store just before attempt `i`,
      and the attempts whose update or reload fails for a reason other than a conflict. */
  datatype Surroundings<!S> = Surroundings(
    writes: nat -> seq<S>,
    updateFails: nat -> bool,
    reloadFails: nat -> bool)

  const MAX_ATTEMPTS: nat := 5

  /** Every version others store before the first `n` attempts. */
  function Others<S>(env: Surroundings<S>, n: nat): seq<S> {
    if n == 0 then [] else Others(env, n - 1) + env.writes(n - 1)
  }

  /** One object of the API server with all its versions; the resource version is the index. */
  class Server<S> {
    var versions: seq<S>

    constructor (first: S)
      ensures versions == [first]
    {
      versions := [first];
    }

    predicate Stored()
      reads this
    {
      versions != []
    }

    function Current(): nat
      reads this
      requires Stored()
    {
      |versions| - 1
    }
  }

  /** The in-memory object of a controller, with the resource version it was read at. */
  class Copy<S> {
    var resourceVersion: nat
    var value: S

    constructor (resourceVersion: nat, value: S)
      ensures this.resourceVersion == resourceVersion && this.value == value
    {
      this.resourceVersion, this.value := resourceVersion, value;
    }
  }

  /** Why the loop ended as it did: an attempt but the last is in conflict only if others wrote just
      before it, or at the first one because the copy was old; a failure is one of the update or
      of the reload. */
  ghost predicate Explained<S>(env: Surroundings<S>, outcome: Outcome, attempts: nat, current: bool) {
    && 1 <= attempts <= 5
    && (outcome == Conflict ==> attempts == 5)
    && (outcome == UpdateFailed ==> env.updateFails(attempts - 1))
    && (outcome == ReloadFailed ==> env.reloadFails(attempts - 1))
    && (forall i :: 0 <= i < Conflicts(outcome, attempts) ==> env.writes(i) != [] || (i == 0 && !current))
  }

  /** How many attempts ended in a conflict. */
  function Conflicts(outcome: Outcome, attempts: nat): nat {
    if outcome == Conflict || outcome == ReloadFailed || attempts == 0 then attempts else attempts - 1
  }

  /** The closure around one update: set the target fields, update, and on a conflict reload. */
  method TryOnce<S>(server: Server<S>, copy: Copy<S>, patch: S -> S, writes: seq<S>, updateFails: bool,
                    reloadFails: bool)
    returns (outcome: Outcome)
    requires server.Stored() && copy.resourceVersion < |server.versions|
    modifies server, copy
    ensures server.Stored() && copy.resourceVersion < |server.versions|
    ensures server.versions == old(server.versions) + writes + (if outcome == Done then [copy.value] else [])
    ensures outcome == UpdateFailed ==> updateFails
    ensures outcome == ReloadFailed ==> reloadFails
    ensures outcome == Done ==> copy.value == patch(old(copy.value)) && copy.resourceVersion == server.Current()
    ensures outcome == Conflict ==>
      copy.resourceVersion == server.Current() && copy.value == server.versions[server.Current()]
    ensures outcome == Done ==> writes == [] && old(copy.resourceVersion) == old(server.Current())
    ensures outcome == Conflict || outcome == ReloadFailed ==>
        writes != [] || old(copy.resourceVersion) != old(server.Current())
  {
    server.versions := server.versions + writes;
    copy.value := patch(copy.value);
    if updateFails {
      return UpdateFailed;
    }
    if copy.resourceVersion == server.Current() {
      server.versions := server.versions + [copy.value];
      copy.resourceVersion := server.Current();
      return Done;
    }
    if reloadFails {
      return ReloadFailed;
    }
    copy.resourceVersion := server.Current();
    copy.value := server.versions[server.Current()];
    return Conflict;
  }

  /** RetryOnConflict around a closure that sets the target fields, updates the object, and on a
      conflict reloads it.

      At most five attempts are made. A success stores one version on top of what the others
      wrote; when the in-memory object agreed off the target fields with the version it was read
      from, the stored version is its immediate predecessor with only the target fields set.
      Without that agreement this holds only because a conflict forced a reload. A failure
      stores nothing. */
  method UpdateWithRetry<S>(server: Server<S>, copy: Copy<S>, patch: S -> S, env: Surroundings<S>)
    returns (outcome: Outcome, attempts: nat)
    requires server.Stored() && copy.resourceVersion < |server.versions|
    modifies server, copy
    ensures 1 <= attempts <= MAX_ATTEMPTS
    ensures server.Stored()
    ensures outcome != Done ==> server.versions == old(server.versions) + Others(env, attempts)
    ensures outcome == Done ==>
      && server.versions == old(server.versions) + Others(env, attempts) + [copy.value]
      && copy.resourceVersion == server.Current()
    ensures outcome == Done ==> |server.versions| >= 2
    ensures outcome == Done && attempts > 1 ==>
      server.versions[server.Current()] == patch(server.versions[server.Current() - 1])
    ensures outcome == Done && attempts == 1 ==>
      && server.versions[server.Current()] == patch(old(copy.value))
      && old(copy.resourceVersion) == server.Current() - 1
      && Others(env, 1) == []
    ensures outcome == Done && patch(old(copy.value)) == patch(old(server.versions)[old(copy.resourceVersion)]) ==>
      server.versions[server.Current()] == patch(server.versions[server.Current() - 1])
    ensures outcome == Conflict ==>
      attempts == MAX_ATTEMPTS && copy.resourceVersion == server.Current()
          && copy.value == server.versions[server.Current()]
    ensures Explained(env, outcome, attempts, old(copy.resourceVersion) == old(server.Current()))
  {
    ghost var versions := server.versions;
    attempts := 0;
    outcome := Conflict;
    while attempts < MAX_ATTEMPTS && outcome == Conflict
      invariant attempts <= MAX_ATTEMPTS && server.Stored() && copy.resourceVersion < |server.versions|
      invariant attempts == 0 ==> outcome == Conflict
      invariant attempts == 0 ==> copy.value == old(copy.value) && copy.resourceVersion == old(copy.resourceVersion)
      invariant server.versions == versions + Others(env, attempts) + (if outcome == Done then [copy.value] else [])
      invariant attempts > 0 && outcome == Conflict ==>
        copy.resourceVersion == server.Current() && copy.value == server.versions[server.Current()]
      invariant outcome == Done ==>
        Stacked(server.versions, patch, attempts, old(copy.value), old(copy.resourceVersion))
      invariant outcome == Done ==> copy.resourceVersion == server.Current() && (attempts == 1 ==> Others(env, 1) == [])
      invariant (outcome == UpdateFailed ==> env.updateFails(attempts - 1))
          && (outcome == ReloadFailed ==> env.reloadFails(attempts - 1))
      invariant forall i :: 0 <= i < Conflicts(outcome, attempts) ==>
        env.writes(i) != [] || (i == 0 && old(copy.resourceVersion) != old(server.Current()))
      decreases MAX_ATTEMPTS - attempts
    {
      ghost var before := server.versions;
      outcome := TryOnce(server, copy, patch, env.writes(attempts), env.updateFails(attempts),
          env.reloadFails(attempts));
      assert versions + (Others(env, attempts) + env.writes(attempts)) == before + env.writes(attempts);
      attempts := attempts + 1;
    }
  }

  /** The last version is the one before it with only the target fields set; at a first attempt
      that is so if the copy agreed with the version it was read from. */
  ghost predicate Stacked<S>(versions: seq<S>, patch: S -> S, attempts: nat, value: S, read: nat) {
    && |versions| >= 2
    && (attempts > 1 ==> versions[|versions| - 1] == patch(versions[|versions| - 2]))
    && (attempts == 1 ==> versions[|versions| - 1] == patch(value) && read == |versions| - 2)
  }

  // ---- the status of a group ----

  datatype VGStatus = VGStatus(
    boundContent: Option<string>,
    creationTime: Option<int>,
    ready: Option<bool>,
    error: Option<string>,
    pvcList: seq<PVC>)

  /** The in-memory status agrees with the version it was read from, off the claim list. */
  ghost predicate AgreesOffList(server: Server<VGStatus>, vg: Copy<VGStatus>)
    reads server, vg
  {
    && vg.resourceVersion < |server.versions|
    && server.versions[vg.resourceVersion].(pvcList := []) == vg.value.(pvcList := [])
  }

  /** updateVGStatusPVCList: a success replaces the claim list and nothing else, so the status
      fields a concurrent writer stored survive. */
  method UpdateVGStatusPVCList(server: Server<VGStatus>, vg: Copy<VGStatus>, pvcList: seq<PVC>,
                               env: Surroundings<VGStatus>)
    returns (outcome: Outcome, attempts: nat)
    requires server.Stored() && AgreesOffList(server, vg)
    modifies server, vg
    ensures server.Stored()
    ensures Explained(env, outcome, attempts, old(vg.resourceVersion) == old(server.Current()))
    ensures server.versions
         == old(server.versions) + Others(env, attempts) + (if outcome == Done then [vg.value] else [])
    ensures outcome == Done ==>
      && server.Current() > 0
      && server.versions[server.Current()] == server.versions[server.Current() - 1].(pvcList := pvcList)
  {
    var patch := (s: VGStatus) => s.(pvcList := pvcList);
    ghost var read := server.versions[vg.resourceVersion];
    assert patch(vg.value) == patch(read) by {
      assert vg.value.(pvcList := []).(pvcList := pvcList) == read.(pvcList := []).(pvcList := pvcList);
    }
    outcome, attempts := UpdateWithRetry(server, vg, patch, env);
  }

  /** UpdateVGStatus: the retried update is followed by one more update that is not retried. A
      success has stored the four bound-status fields twice over, on top of whatever the others
      wrote before, and left the claim list of the predecessor alone. */
  method UpdateVGStatus(server: Server<VGStatus>, vg: Copy<VGStatus>, content: string, time: int,
                        env: Surroundings<VGStatus>, between: seq<VGStatus>, lastFails: bool)
    returns (outcome: Outcome, attempts: nat)
    requires server.Stored() && vg.resourceVersion < |server.versions|
    requires vg.value.pvcList == server.versions[vg.resourceVersion].pvcList
    modifies server, vg
    ensures server.Stored()
    ensures outcome == Done ==>
      && between == [] && server.Current() >= 2
      && server.versions[server.Current()] == server.versions[server.Current() - 1]
         == VGStatus(Some(content), Some(time), Some(true), None, server.versions[server.Current() - 2].pvcList)
    ensures between == [] && !lastFails ==>
        Explained(env, outcome, attempts, old(vg.resourceVersion) == old(server.Current()))
  {
    var patch := (s: VGStatus) => VGStatus(Some(content), Some(time), Some(true), None, s.pvcList);
    outcome, attempts := UpdateWithRetry(server, vg, patch, env);
    if outcome != Done {
      return;
    }
    server.versions := server.versions + between;
    if lastFails {
      outcome := UpdateFailed;
    } else if vg.resourceVersion != server.Current() {
      outcome := Conflict;
    } else {
      server.versions := server.versions + [vg.value];
      vg.resourceVersion := server.Current();
    }
  }
}
