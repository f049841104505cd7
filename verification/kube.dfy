/** The Kubernetes objects the operator reads and writes, as values, and the list
    functions that the claim lists of the groups are described with. */
module Kube {
  datatype Option<+T> = None | Some(value: T)

  datatype Key = Key(namespace: string, name: string)

  type Labels = map<string, string>

  /** A label selector is any predicate on labels: nothing is assumed of the library that
      evaluates it, except that a valid selector always answers. */
  type Selector = Labels -> bool

  datatype Phase = Pending | Bound | Lost

  /** A PersistentVolumeClaim. `volumeName` is "" until the claim is bound. */
  datatype PVC = PVC(
    namespace: string,
    name: string,
    labels: Labels,
    phase: Phase,
    volumeName: string,
    storageClass: Option<string>,
    finalizers: seq<string>,
    resourceVersion: nat)

  const GROUP_NAME := "volumegroup.storage.ibm.io"
  const VG_FINALIZER := GROUP_NAME
  const VGC_FINALIZER := GROUP_NAME + "/" + "vgc-protection"
  const PVC_FINALIZER := GROUP_NAME + "/" + "pvc-protection"
  const VG_NAME_PREFIX := "volumegroup"

  function KeyOf(p: PVC): Key {
    Key(p.namespace, p.name)
  }

  /** The namespaced names in a claim list. */
  function Keys(s: seq<PVC>): set<Key> {
    set p | p in s :: KeyOf(p)
  }

  ghost predicate UniqueKeys(s: seq<PVC>) {
    forall i, j :: 0 <= i < j < |s| ==> KeyOf(s[i]) != KeyOf(s[j])
  }

  /** Every claim is stored under its own key. */
  ghost predicate WellKeyed(pvcs: map<Key, PVC>) {
    forall k :: k in pvcs ==> KeyOf(pvcs[k]) == k
  }

  /** The claims of `s` whose key is not in `ks`, in their order. */
  function DropKeys(s: seq<PVC>, ks: set<Key>): seq<PVC> {
    if s == [] then []
    else (if KeyOf(s[0]) in ks then [] else [s[0]]) + DropKeys(s[1..], ks)
  }

  /** The claims of `s` whose key is in `ks`, in their order. */
  function KeepKeys(s: seq<PVC>, ks: set<Key>): seq<PVC> {
    DropKeys(s, Keys(s) - ks)
  }

  /** `s` without its first claim of key `k`. */
  function RemoveKey(s: seq<PVC>, k: Key): seq<PVC> {
    if s == [] then []
    else if KeyOf(s[0]) == k then s[1..]
    else [s[0]] + RemoveKey(s[1..], k)
  }

  /** `s` with `p` at its end, unless its key is already there. */
  function AppendPVC(s: seq<PVC>, p: PVC): seq<PVC> {
    if KeyOf(p) in Keys(s) then s else s + [p]
  }

  /** `s` without any entry equal to `x`. */
  function RemoveAll(s: seq<string>, x: string): seq<string> {
    if s == [] then []
    else RemoveAll(s[..|s| - 1], x) + (if s[|s| - 1] == x then [] else [s[|s| - 1]])
  }

  lemma KeysConcat(a: seq<PVC>, b: seq<PVC>)
    ensures Keys(a + b) == Keys(a) + Keys(b)
  {
  }

  lemma KeysCons(s: seq<PVC>)
    requires s != []
    ensures Keys(s) == {KeyOf(s[0])} + Keys(s[1..])
  {
  }

  lemma UniqueTail(s: seq<PVC>)
    requires s != [] && UniqueKeys(s)
    ensures UniqueKeys(s[1..])
    ensures KeyOf(s[0]) !in Keys(s[1..])
  {
  }

  lemma UniqueCons(p: PVC, s: seq<PVC>)
    requires UniqueKeys(s) && KeyOf(p) !in Keys(s)
    ensures UniqueKeys([p] + s)
  {
  }

  lemma {:induction false} DropKeysMembers(s: seq<PVC>, ks: set<Key>)
    ensures forall p :: p in DropKeys(s, ks) <==> p in s && KeyOf(p) !in ks
  {
    if s != [] {
      DropKeysMembers(s[1..], ks);
      assert s == [s[0]] + s[1..];
    }
  }

  lemma DropKeysKeys(s: seq<PVC>, ks: set<Key>)
    ensures Keys(DropKeys(s, ks)) == Keys(s) - ks
  {
    DropKeysMembers(s, ks);
  }

  lemma {:induction false} DropKeysUnique(s: seq<PVC>, ks: set<Key>)
    requires UniqueKeys(s)
    ensures UniqueKeys(DropKeys(s, ks))
  {
    if s != [] {
      UniqueTail(s);
      DropKeysUnique(s[1..], ks);
      if KeyOf(s[0]) !in ks {
        DropKeysKeys(s[1..], ks);
        UniqueCons(s[0], DropKeys(s[1..], ks));
      }
    }
  }

  lemma {:induction false} DropDepends(s: seq<PVC>, ks: set<Key>, ls: set<Key>)
    requires forall p :: p in s ==> (KeyOf(p) in ks <==> KeyOf(p) in ls)
    ensures DropKeys(s, ks) == DropKeys(s, ls)
  {
    if s != [] {
      DropDepends(s[1..], ks, ls);
      assert s[0] in s;
    }
  }

  lemma {:induction false} DropNothing(s: seq<PVC>, ks: set<Key>)
    requires Keys(s) !! ks
    ensures DropKeys(s, ks) == s
  {
    if s != [] {
      KeysCons(s);
      DropNothing(s[1..], ks);
    }
  }

  lemma {:induction false} DropTwice(s: seq<PVC>, ks: set<Key>, ls: set<Key>)
    ensures DropKeys(DropKeys(s, ks), ls) == DropKeys(s, ks + ls)
  {
    if s != [] {
      DropTwice(s[1..], ks, ls);
      var rest := DropKeys(s[1..], ks);
      if KeyOf(s[0]) !in ks {
        assert ([s[0]] + rest)[1..] == rest;
      } else {
        assert [] + rest == rest;
      }
    }
  }

  lemma {:induction false} RemoveKeyIsDrop(s: seq<PVC>, k: Key)
    requires UniqueKeys(s)
    ensures RemoveKey(s, k) == DropKeys(s, {k})
  {
    if s != [] {
      UniqueTail(s);
      KeysCons(s);
      if KeyOf(s[0]) == k {
        DropNothing(s[1..], {k});
      } else {
        RemoveKeyIsDrop(s[1..], k);
      }
    }
  }

  lemma AppendKeys(s: seq<PVC>, p: PVC)
    ensures Keys(AppendPVC(s, p)) == Keys(s) + {KeyOf(p)}
    ensures UniqueKeys(s) ==> UniqueKeys(AppendPVC(s, p))
  {
  }

  lemma RemoveKeyKeys(s: seq<PVC>, k: Key)
    requires UniqueKeys(s)
    ensures Keys(RemoveKey(s, k)) == Keys(s) - {k}
    ensures UniqueKeys(RemoveKey(s, k))
  {
    RemoveKeyIsDrop(s, k);
    DropKeysKeys(s, {k});
    DropKeysUnique(s, {k});
  }

  lemma {:induction false} RemoveKeySubset(s: seq<PVC>, k: Key)
    ensures Keys(RemoveKey(s, k)) <= Keys(s)
  {
    if s != [] {
      RemoveKeySubset(s[1..], k);
      KeysCons(s);
      KeysConcat([s[0]], RemoveKey(s[1..], k));
    }
  }
}
