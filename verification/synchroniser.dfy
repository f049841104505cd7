/** The membership update of one group: the in-memory claim list is a slice edited in place, the
    store is written one object at a time, and any request may fail. */
module Synchroniser {
  import opened Kube
  import opened Cluster
  import opened GoSlices
  import opened GroupController
  import opened PlanEffect
  import Finalizers
  import Scans

  method ListKeys(ks: set<Key>) returns (listing: seq<Key>)
    ensures Scans.Enumerates(listing, ks)
  {
    listing := [];
    var rest := ks;
    while rest != {}
      invariant rest <= ks && Scans.Enumerates(listing, ks - rest)
      decreases |rest|
    {
      var k :| k in rest;
      Scans.EnumerationGrows(listing, ks - rest, k);
      assert ks - (rest - {k}) == ks - rest + {k};
      listing, rest := listing + [k], rest - {k};
    }
  }

  /** The API server as one reconcile sees it. `faults` says which of the next requests fail. */
  class Client {
    var w: World
    var faults: seq<bool>

    constructor (w: World, faults: seq<bool>)
      ensures this.w == w && this.faults == faults
    {
      this.w, this.faults := w, faults;
    }

    method Request() returns (ok: bool)
      modifies this`faults
      ensures old(faults) == [] ==> ok && faults == []
    {
      ok := true;
      if faults != [] {
        ok := !faults[0];
        faults := faults[1..];
      }
    }

    /** updateVGStatusPVCList. */
    method UpdateList(g: Key, list: seq<PVC>) returns (ok: bool)
      modifies this
      ensures ok ==> g in old(w).vgs && w == Stored(old(w), g, list)
      ensures ok ==> w == old(w).(vgs := old(w).vgs[g := w.vgs[g]])
      ensures ok ==> w.vgs[g] == old(w).vgs[g].(pvcList := list)
      ensures !ok ==> w == old(w)
      ensures old(faults) == [] ==> faults == [] && (ok <==> g in old(w).vgs)
    {
      ok := Request();
      if !ok { return; }
      if g !in w.vgs { return false; }
      w := Stored(w, g, list);
    }

    /** UpdateVGStatusError writes the whole in-memory status, the claim list included. */
    method UpdateError(g: Key, list: seq<PVC>, error: string) returns (ok: bool)
      modifies this
      ensures ok ==> g in old(w).vgs && w == Reported(old(w), g, list, error)
      ensures ok ==> w == old(w).(vgs := old(w).vgs[g := w.vgs[g]])
      ensures ok ==> w.vgs[g] == old(w).vgs[g].(pvcList := list, error := error)
      ensures !ok ==> w == old(w)
      ensures old(faults) == [] ==> faults == [] && (ok <==> g in old(w).vgs)
    {
      ok := Request();
      if !ok { return; }
      if g !in w.vgs { return false; }
      w := Reported(w, g, list, error);
    }

    /** The groups in some order. */
    method ListGroups() returns (listing: seq<Key>)
      ensures Scans.Enumerates(listing, w.vgs.Keys)
    {
      listing := ListKeys(w.vgs.Keys);
    }

    /** The claims in some order. */
    method ListClaims() returns (listing: seq<Key>)
      ensures Scans.Enumerates(listing, w.pvcs.Keys)
    {
      listing := ListKeys(w.pvcs.Keys);
    }

    /** RemovePVFromVGC on a content that was just read. */
    method RemovePVFromVGC(c: Key, pv: string) returns (ok: bool)
      requires c in w.vgcs && pv in w.pvs
      modifies this
      ensures ok ==> CanWrite(old(w), DropPV(c, pv)) && w == Apply(old(w), DropPV(c, pv))
      ensures !ok ==> w == old(w)
      ensures old(faults) == [] ==> faults == [] && ok
    {
      ok := Request();
      if !ok { return; }
      w := w.(vgcs := w.vgcs[c := w.vgcs[c].(pvList := RemoveName(w.vgcs[c].pvList, pv))]);
    }

    /** addPVToVGC on a content that was just read. */
    method AddPVToVGC(c: Key, pv: string) returns (ok: bool)
      requires c in w.vgcs && pv in w.pvs
      modifies this
      ensures ok ==> CanWrite(old(w), AppendPV(c, pv)) && w == Apply(old(w), AppendPV(c, pv))
      ensures !ok ==> w == old(w)
      ensures old(faults) == [] ==> faults == [] && ok
    {
      ok := Request();
      if !ok { return; }
      w := w.(vgcs := w.vgcs[c := w.vgcs[c].(pvList := AppendName(w.vgcs[c].pvList, pv))]);
    }

    /** GetPVFromPVC and GetVGC: the volume of a bound claim must exist, and the content always. */
    method FindVolumeAndContent(volumeName: string, c: Key) returns (ok: bool)
      modifies this`faults
      ensures ok ==> c in w.vgcs && (volumeName != "" ==> volumeName in w.pvs)
      ensures old(faults) == [] ==> faults == [] && (ok <==> c in w.vgcs && (volumeName != "" ==> volumeName in w.pvs))
    {
      if volumeName != "" {
        ok := Request();
        if !ok { return; }
        if volumeName !in w.pvs { return false; }
      }
      ok := Request();
      ok := ok && c in w.vgcs;
    }

    /** RemoveFinalizerFromPVC: the groups are listed first, the claim is reloaded and updated
        later, and `meanwhile` is what others have made of the store in between. Whether some group
        has come to list the claim is not asked again. */
    method RemoveFinalizerFromPVC(k: Key, meanwhile: World) returns (ok: bool)
      modifies this
      ensures ok ==>
        if Removable(old(w), k) then k in meanwhile.pvcs && w == meanwhile.(pvcs := Strip(meanwhile.pvcs, k))
        else k in old(w).pvcs && w == old(w)
      ensures ok && w != old(w) ==>
        && k in meanwhile.pvcs && w == meanwhile.(pvcs := meanwhile.pvcs[k := w.pvcs[k]])
        && Freed(meanwhile.pvcs[k], w.pvcs[k])
      ensures !ok ==> w == old(w) || w == meanwhile
      ensures old(faults) == [] ==>
        faults == [] && (ok <==> k in old(w).pvcs && (Removable(old(w), k) ==> k in meanwhile.pvcs))
    {
      ok := Request();
      if !ok { return; }
      var listing := ListGroups();
      var answer := Scans.IsFinalizerToBeRemoved(w, listing, k);
      if answer.None? { return false; }
      if answer.value {
        w := meanwhile;
        ok := Request();
        if !ok || k !in w.pvcs { return false; }
        var rest := Finalizers.Remove(w.pvcs[k].finalizers, PVC_FINALIZER);
        StripFrees(w.pvcs, k);
        w := w.(pvcs := w.pvcs[k := WithFinalizers(w.pvcs[k], rest)]);
      }
    }

    /** AddFinalizerToPVC, from the copy taken when the claims were listed: the stored finalizers
        become those of the copy and one more, so all others survive exactly when the copy has them. */
    method AddFinalizerToPVC(p: PVC) returns (ok: bool)
      modifies this
      ensures ok ==> CanWrite(old(w), AddFinalizer(p)) && w == Apply(old(w), AddFinalizer(p))
      ensures ok && PVC_FINALIZER in p.finalizers ==> w == old(w)
      ensures ok && PVC_FINALIZER !in p.finalizers ==>
        && KeyOf(p) in old(w).pvcs && w == old(w).(pvcs := old(w).pvcs[KeyOf(p) := w.pvcs[KeyOf(p)]])
        && SameButFinalizers(old(w).pvcs[KeyOf(p)], w.pvcs[KeyOf(p)])
        && w.pvcs[KeyOf(p)].finalizers == p.finalizers + [PVC_FINALIZER]
      ensures !ok ==> w == old(w)
      ensures old(faults) == [] ==> faults == [] && (ok <==> CanWrite(old(w), AddFinalizer(p)))
    {
      var present := Finalizers.Contains(p.finalizers, PVC_FINALIZER);
      if present { return true; }
      ok := Request();
      if !ok { return; }
      if KeyOf(p) !in w.pvcs { return false; }
      w := w.(pvcs := w.pvcs[KeyOf(p) := WithFinalizers(w.pvcs[KeyOf(p)], p.finalizers + [PVC_FINALIZER])]);
    }
  }

  /** The in-memory VolumeGroup; its claim list is the slice `claims[..count]`. */
  class Group {
    const key: Key
    const content: Key
    var claims: array<PVC>
    var count: nat

    ghost predicate Valid()
      reads this
    {
      count <= claims.Length
    }

    ghost function PVCList(): seq<PVC>
      reads this, claims
      requires Valid()
    {
      claims[..count]
    }

    constructor (key: Key, content: Key, claims: array<PVC>)
      ensures this.key == key && this.content == content && this.claims == claims && count == claims.Length
      ensures Valid()
    {
      this.key, this.content, this.claims, this.count := key, content, claims, claims.Length;
    }

    /** removeFromPVCList: shifts the list in place at the first claim of that key. */
    method RemoveFromPVCList(k: Key)
      requires Valid()
      modifies this`count, claims
      ensures Valid() && claims == old(claims)
      ensures PVCList() == RemoveKey(old(PVCList()), k)
    {
      for i := 0 to count
        invariant Valid() && PVCList() == old(PVCList()) && count == old(count)
        invariant forall j :: 0 <= j < i ==> KeyOf(claims[j]) != k
      {
        if KeyOf(claims[i]) == k {
          ghost var before := PVCList();
          RemoveKeyAt(before, i, k);
          count := RemoveByIndex(claims, count, i);
          assert claims[..count] == before[..i] + before[i + 1..];
          return;
        }
      }
      RemoveKeyAbsent(PVCList(), k);
    }

    /** appendPVC: at the end of the slice, unless the claim is already there. */
    method AppendToPVCList(p: PVC)
      requires Valid()
      modifies this, claims
      ensures Valid() && (claims == old(claims) || fresh(claims))
      ensures PVCList() == AppendPVC(old(PVCList()), p)
    {
      var listed := Scans.IsPVCInPVCList(KeyOf(p), claims[..count]);
      if !listed {
        claims, count := Append(claims, count, p);
      }
    }

    /** AddPVCToVG: a failed update takes the claim out of the list again. */
    method AddPVCToVG(client: Client, p: PVC) returns (ok: bool)
      requires Valid()
      modifies this, claims, client
      ensures Valid() && (claims == old(claims) || fresh(claims))
      ensures ok ==> PVCList() == AppendPVC(old(PVCList()), p)
      ensures ok ==> key in old(client.w).vgs && client.w == Stored(old(client.w), key, PVCList())
      ensures !ok ==> PVCList() == RemoveKey(AppendPVC(old(PVCList()), p), KeyOf(p)) && client.w == old(client.w)
      ensures old(client.faults) == [] ==> client.faults == [] && (ok <==> key in old(client.w).vgs)
    {
      AppendToPVCList(p);
      ok := client.UpdateList(key, claims[..count]);
      if !ok {
        RemoveFromPVCList(KeyOf(p));
      }
    }

    /** RemovePVCFromVG: a failed update puts the claim back, at the end of the list. */
    method RemovePVCFromVG(client: Client, p: PVC) returns (ok: bool)
      requires Valid()
      modifies this, claims, client
      ensures Valid() && (claims == old(claims) || fresh(claims))
      ensures ok ==> PVCList() == RemoveKey(old(PVCList()), KeyOf(p))
      ensures ok ==> key in old(client.w).vgs && client.w == Stored(old(client.w), key, PVCList())
      ensures !ok ==> PVCList() == AppendPVC(RemoveKey(old(PVCList()), KeyOf(p)), p) && client.w == old(client.w)
      ensures old(client.faults) == [] ==> client.faults == [] && (ok <==> key in old(client.w).vgs)
    {
      RemoveFromPVCList(KeyOf(p));
      ok := client.UpdateList(key, claims[..count]);
      if !ok {
        AppendToPVCList(p);
      }
    }
  }

  lemma {:induction false} RemoveKeyAt(s: seq<PVC>, i: nat, k: Key)
    requires i < |s| && KeyOf(s[i]) == k && forall j :: 0 <= j < i ==> KeyOf(s[j]) != k
    ensures RemoveKey(s, k) == s[..i] + s[i + 1..]
  {
    if i > 0 {
      RemoveKeyAt(s[1..], i - 1, k);
      assert s[1..][..i - 1] == s[1..i] && s[1..][i..] == s[i + 1..];
      assert [s[0]] + s[1..i] == s[..i];
    }
  }

  lemma {:induction false} RemoveKeyAbsent(s: seq<PVC>, k: Key)
    requires forall j :: 0 <= j < |s| ==> KeyOf(s[j]) != k
    ensures RemoveKey(s, k) == s
  {
    if s != [] {
      RemoveKeyAbsent(s[1..], k);
    }
  }

  // ---- rollback ----

  lemma {:induction false} RemoveKeyOfLast(s: seq<PVC>, p: PVC)
    requires KeyOf(p) !in Keys(s)
    ensures RemoveKey(s + [p], KeyOf(p)) == s
  {
    if s != [] {
      KeysCons(s);
      assert (s + [p])[1..] == s[1..] + [p];
      RemoveKeyOfLast(s[1..], p);
    }
  }

  /** A failed addition restores the list exactly when the claim was not listed before. */
  lemma FailedAdditionRestores(s: seq<PVC>, p: PVC)
    requires UniqueKeys(s)
    ensures RemoveKey(AppendPVC(s, p), KeyOf(p)) == s <==> KeyOf(p) !in Keys(s)
  {
    if KeyOf(p) in Keys(s) {
      RemoveKeyKeys(s, KeyOf(p));
    } else {
      RemoveKeyOfLast(s, p);
    }
  }

  lemma {:induction false} RemoveKeyMultiset(s: seq<PVC>, q: PVC)
    requires UniqueKeys(s) && q in s
    ensures multiset(RemoveKey(s, KeyOf(q))) + multiset{q} == multiset(s)
  {
    assert s == [s[0]] + s[1..];
    if KeyOf(s[0]) == KeyOf(q) {
      assert s[0] == q;
    } else {
      UniqueTail(s);
      RemoveKeyMultiset(s[1..], q);
    }
  }

  /** A failed removal leaves a permutation of the list exactly when that very copy of the claim
      was listed; the claim moves to the end. */
  lemma FailedRemovalPermutes(s: seq<PVC>, p: PVC)
    requires UniqueKeys(s)
    ensures AppendPVC(RemoveKey(s, KeyOf(p)), p) == RemoveKey(s, KeyOf(p)) + [p]
    ensures multiset(AppendPVC(RemoveKey(s, KeyOf(p)), p)) == multiset(s) <==> p in s
    ensures Keys(AppendPVC(RemoveKey(s, KeyOf(p)), p)) == Keys(s) + {KeyOf(p)}
  {
    var t := AppendPVC(RemoveKey(s, KeyOf(p)), p);
    RemoveKeyKeys(s, KeyOf(p));
    AppendKeys(RemoveKey(s, KeyOf(p)), p);
    assert p in multiset(t);
    if p in s {
      RemoveKeyMultiset(s, p);
    }
  }
}
