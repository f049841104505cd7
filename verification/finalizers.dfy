/** Finalizer lists and their update. */
module Finalizers {
  import opened Kube
  import opened ConflictRetry

  method Contains(s: seq<string>, x: string) returns (found: bool)
    ensures found <==> x in s
  {
    for i := 0 to |s|
      invariant x !in s[..i]
    {
      if s[i] == x { return true; }
    }
    return false;
  }

  method Remove(s: seq<string>, x: string) returns (result: seq<string>)
    ensures result == RemoveAll(s, x)
    ensures x !in result
    ensures forall y :: y != x ==> multiset(result)[y] == multiset(s)[y]
  {
    result := [];
    for i := 0 to |s|
      invariant result == RemoveAll(s[..i], x)
      invariant x !in result
      invariant forall y :: y != x ==> multiset(result)[y] == multiset(s[..i])[y]
    {
      assert s[..i + 1] == s[..i] + [s[i]];
      assert s[..i + 1][..i] == s[..i];
      if s[i] == x { continue; }
      result := result + [s[i]];
    }
    assert s[..|s|] == s;
  }

  predicate IsSubstring(part: string, whole: string) {
    part <= whole || (whole != "" && IsSubstring(part, whole[1..]))
  }

  /** The part is some stretch of the whole. */
  lemma {:induction false} SubstringMeaning(part: string, whole: string)
    ensures IsSubstring(part, whole) <==> exists a, b :: whole == a + part + b
  {
    if part <= whole {
      assert whole == [] + part + whole[|part|..];
    } else if whole != "" {
      SubstringMeaning(part, whole[1..]);
      if a, b :| whole[1..] == a + part + b {
        assert whole == [whole[0]] + a + part + b;
      }
      if a, b :| whole == a + part + b {
        assert a == "" ==> part <= whole;
        assert a != "" ==> whole[1..] == a[1..] + part + b;
      }
    }
  }

  /** IsContainOtherFinalizers: an entry counts as the operator's own when it merely contains
      the group name. */
  method HasOtherFinalizers(finalizers: seq<string>) returns (other: bool)
    ensures other <==> exists f :: f in finalizers && !IsSubstring(GROUP_NAME, f)
  {
    for i := 0 to |finalizers|
      invariant forall f :: f in finalizers[..i] ==> IsSubstring(GROUP_NAME, f)
    {
      var f := finalizers[i];
      assert f in finalizers;
      if !IsSubstring(GROUP_NAME, f) { return true; }
    }
    assert finalizers[..|finalizers|] == finalizers;
    return false;
  }

  /** The three finalizers the operator sets are never taken for somebody else's. */
  lemma OwnFinalizersAreOwn()
    ensures IsSubstring(GROUP_NAME, VG_FINALIZER)
    ensures IsSubstring(GROUP_NAME, VGC_FINALIZER)
    ensures IsSubstring(GROUP_NAME, PVC_FINALIZER)
  {
    assert GROUP_NAME <= VG_FINALIZER && GROUP_NAME <= VGC_FINALIZER && GROUP_NAME <= PVC_FINALIZER;
  }

  /** An object as the finalizer code sees it: the finalizer list and everything else. */
  datatype Object = Object(finalizers: seq<string>, rest: string)

  /** updateFinalizer: every attempt sets the list computed before the first one, so a success
      keeps a concurrent writer's other fields but not its finalizers. */
  method UpdateFinalizer(server: Server<Object>, copy: Copy<Object>, finalizers: seq<string>, env: Surroundings<Object>)
    returns (outcome: Outcome, attempts: nat)
    requires server.Stored() && copy.resourceVersion < |server.versions|
    requires copy.value.rest == server.versions[copy.resourceVersion].rest
    modifies server, copy
    ensures server.Stored()
    ensures outcome == Done ==>
      && server.Current() > 0
      && server.versions[server.Current()] == Object(finalizers, server.versions[server.Current() - 1].rest)
    ensures Explained(env, outcome, attempts, old(copy.resourceVersion) == old(server.Current()))
    ensures server.versions
         == old(server.versions) + Others(env, attempts) + (if outcome == Done then [copy.value] else [])
  {
    var patch := (o: Object) => o.(finalizers := finalizers);
    outcome, attempts := UpdateWithRetry(server, copy, patch, env);
  }

  /** AddFinalizerToVG, AddFinalizerToVGC and AddFinalizerToPVC. The entry is there after a
      success; the predecessor's list is extended by it, and nothing else, exactly when no other
      writer touched the finalizers since the object was read. */
  method AddFinalizer(server: Server<Object>, copy: Copy<Object>, finalizer: string, env: Surroundings<Object>)
    returns (outcome: Outcome, attempts: nat)
    requires server.Stored() && copy.resourceVersion < |server.versions|
    requires copy.value == server.versions[copy.resourceVersion]
    modifies server, copy
    ensures server.Stored()
    ensures finalizer in old(copy.value.finalizers) ==> outcome == Done && server.versions == old(server.versions)
    ensures finalizer !in old(copy.value.finalizers) && outcome == Done ==>
      && server.Current() > 0
      && finalizer in server.versions[server.Current()].finalizers
      && (server.versions[server.Current()].finalizers == server.versions[server.Current() - 1].finalizers + [finalizer]
          <==> server.versions[server.Current() - 1].finalizers == old(copy.value.finalizers))
    ensures finalizer !in old(copy.value.finalizers) ==>
      Explained(env, outcome, attempts, old(copy.resourceVersion) == old(server.Current()))
  {
    var present := Contains(copy.value.finalizers, finalizer);
    if present {
      return Done, 0;
    }
    var read := copy.value.finalizers;
    copy.value := copy.value.(finalizers := read + [finalizer]);
    outcome, attempts := UpdateFinalizer(server, copy, read + [finalizer], env);
    if outcome == Done {
      AppendInjective(read, server.versions[server.Current() - 1].finalizers, finalizer);
    }
  }

  lemma AppendInjective(a: seq<string>, b: seq<string>, x: string)
    ensures a + [x] == b + [x] <==> a == b
  {
    assert (a + [x])[..|a|] == a && (b + [x])[..|b|] == b;
  }

  /** RemoveFinalizerFromVG and RemoveFinalizerFromVGC. The entry is gone after a success, and
      so is every finalizer another writer added since the object was read. */
  method RemoveFinalizer(server: Server<Object>, copy: Copy<Object>, finalizer: string, env: Surroundings<Object>)
    returns (outcome: Outcome, attempts: nat)
    requires server.Stored() && copy.resourceVersion < |server.versions|
    requires copy.value == server.versions[copy.resourceVersion]
    modifies server, copy
    ensures server.Stored()
    ensures finalizer !in old(copy.value.finalizers) ==> outcome == Done && server.versions == old(server.versions)
    ensures finalizer in old(copy.value.finalizers) && outcome == Done ==>
      && server.Current() > 0
      && finalizer !in server.versions[server.Current()].finalizers
      && var now, before := server.versions[server.Current()].finalizers,
                            server.versions[server.Current() - 1].finalizers;
      && (forall f :: f in now ==> f in old(copy.value.finalizers))
      && (now == RemoveAll(before, finalizer)
          <==> RemoveAll(before, finalizer) == RemoveAll(old(copy.value.finalizers), finalizer))
    ensures finalizer in old(copy.value.finalizers) ==>
      Explained(env, outcome, attempts, old(copy.resourceVersion) == old(server.Current()))
  {
    var present := Contains(copy.value.finalizers, finalizer);
    if !present {
      return Done, 0;
    }
    var read := copy.value.finalizers;
    var rest := Remove(read, finalizer);
    copy.value := copy.value.(finalizers := rest);
    outcome, attempts := UpdateFinalizer(server, copy, rest, env);
    forall f | f in rest ensures f in read {
      assert multiset(rest)[f] > 0;
    }
  }
}
