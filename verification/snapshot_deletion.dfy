/** The same loop when it ranges over a copy of the volume list, as it would if the status update
    left the list in a new array: then it does what it is meant to do. */
module SnapshotDeletion {
  import opened Kube
  import opened ClaimDeletion

  lemma {:induction false} IntendedConcat(a: seq<PV>, b: seq<PV>, claims: seq<PVC>)
    ensures Intended(a + b, claims) == Intended(a, claims) + Intended(b, claims)
  {
    if a == [] {
      assert a + b == b;
    } else {
      assert (a + b)[1..] == a[1..] + b;
      IntendedConcat(a[1..], b, claims);
    }
  }

  /** The list after `i` turns: what the first `i` volumes leave, and the rest. */
  function After(s: seq<PV>, claims: seq<PVC>, i: nat): seq<PV>
    requires i <= |s|
  {
    Intended(s[..i], claims) + s[i..]
  }

  lemma FrontGrows(s: seq<PV>, claims: seq<PVC>, i: nat)
    requires i < |s|
    ensures Intended(s[..i + 1], claims) == Intended(s[..i], claims) + (if HasClaim(s[i], claims) then [] else [s[i]])
  {
    assert s[..i + 1] == s[..i] + [s[i]];
    IntendedConcat(s[..i], [s[i]], claims);
    assert [s[i]][1..] == [];
  }

  lemma DropBetween(front: seq<PV>, s: seq<PV>, i: nat)
    requires i < |s| && UniqueNames(front + s[i..])
    ensures s[i] in front + s[i..]
    ensures RemovePV(front + s[i..], s[i].name) == front + s[i + 1..]
    ensures front + s[i..] == front + [s[i]] + s[i + 1..]
  {
    var left := front + s[i..];
    assert left[|front|] == s[i];
    RemovePVAt(left, |front|);
    hide RemovePV, UniqueNames;
    assert left[..|front|] == front && left[|front| + 1..] == s[i + 1..];
  }

  lemma TurnList(s: seq<PV>, claims: seq<PVC>, i: nat)
    requires i < |s| && UniqueNames(After(s, claims, i))
    ensures s[i] in After(s, claims, i)
    ensures After(s, claims, i + 1)
         == if HasClaim(s[i], claims) then RemovePV(After(s, claims, i), s[i].name) else After(s, claims, i)
  {
    FrontGrows(s, claims, i);
    DropBetween(Intended(s[..i], claims), s, i);
    hide RemovePV, UniqueNames, Intended, HasClaim;
  }

  lemma TurnKeepsUnique(left: seq<PV>, name: string)
    requires UniqueNames(left)
    ensures UniqueNames(RemovePV(left, name))
  {
    RemovePVMembers(left, name);
  }

  lemma TurnEffectOnList(s: seq<PV>, before: seq<PVC>, i: nat, slots: seq<PV>, count: nat, claims: seq<PVC>,
                         marked: set<Key>,
                         slots': seq<PV>, count': nat, claims': seq<PVC>, marked': set<Key>)
    requires UniqueNames(s) && OneClaimPerVolume(s, before) && i < |s|
    requires count <= |slots| && count' <= |slots'|
    requires slots[..count] == After(s, before, i) && UniqueNames(slots[..count])
    requires Accounted(s, before, slots[..count], claims, marked)
    requires TurnEffect(s[i], slots, count, claims, marked, slots', count', claims', marked')
    ensures slots'[..count'] == After(s, before, i + 1) && UniqueNames(slots'[..count'])
    ensures Accounted(s, before, slots'[..count'], claims', marked')
  {
    TurnList(s, before, i);
    TurnAccount(s, before, slots[..count], claims, marked, s[i], slots, count, slots', count', claims', marked');
    EffectOnList(s[i], slots, count, claims, marked, slots', count', claims', marked');
    assert HasClaim(s[i], claims) == HasClaim(s[i], before);
    TurnKeepsUnique(slots[..count], s[i].name);
  }

  /** DeletePVCsUnderVGC over a copy: every volume with a claim is handled, and exactly those
      without one stay listed. */
  method DeletePVCsOverSnapshot(vgc: Content, store: Store) returns (ok: bool)
    requires vgc.Valid() && UniqueNames(vgc.PVList())
    requires OneClaimPerVolume(vgc.PVList(), store.claims)
    modifies vgc, vgc.volumes, store
    ensures vgc.Valid()
    ensures ok ==> vgc.PVList() == Intended(old(vgc.PVList()), old(store.claims))
    ensures ok ==> forall p :: p in vgc.PVList() <==>
      p in old(vgc.PVList()) && forall k :: !Owns(k, p, old(store.claims))
    ensures ok ==> Handled(old(vgc.PVList()), old(store.claims), vgc.PVList(), store.claims, store.marked)
    ensures Spared(old(vgc.PVList()), old(store.claims), if ok then vgc.PVList() else [],
                   store.claims, old(store.marked), store.marked)
    ensures old(store.faults) == [] ==> ok
  {
    hide TurnEffect, UniqueNames, OneClaimPerVolume, Accounted, After, Spared, Handled, Owns, ClaimGone;
    var list, n := vgc.volumes, vgc.count;
    ghost var s, before := vgc.PVList(), store.claims;
    var snapshot := new PV[n](i requires 0 <= i < n && n <= list.Length reads list => list[i]);
    assert snapshot[..] == s;
    ghost var was := store.marked;
    Begin(s, before, was);
    NothingSpared(s, before, was);
    for i := 0 to n
      invariant old(store.faults) == [] ==> store.faults == []
      invariant vgc.Valid() && vgc.volumes == list && list != snapshot && snapshot[..] == s
      invariant UniqueNames(vgc.PVList()) && vgc.PVList() == After(s, before, i)
      invariant Accounted(s, before, vgc.PVList(), store.claims, store.marked)
      invariant Spared(s, before, vgc.PVList(), store.claims, was, store.marked)
    {
      ghost var slots, count, claims, marked := list[..], vgc.count, store.claims, store.marked;
      assert vgc.PVList() == slots[..count];
      assert snapshot[i] == s[i];
      ok := HandleVolume(vgc, store, snapshot[i]);
      if !ok {
        SparedFailure(s, before, slots[..count], was, s[i], claims, marked, store.claims, store.marked);
        return;
      }
      SparedSuccess(s, before, was, s[i], slots, count, claims, marked,
                    list[..], vgc.count, store.claims, store.marked);
      TurnEffectOnList(s, before, i, slots, count, claims, marked, list[..], vgc.count, store.claims, store.marked);
      assert vgc.PVList() == list[..][..vgc.count];
    }
    End(s, before);
    AccountedIsHandled(s, before, vgc.PVList(), store.claims, store.marked);
    IntendedMembers(s, before);
    ok := true;
  }

  /** The volumes without a claim, in words of references and claims. */
  lemma {:induction false} IntendedMembers(s: seq<PV>, claims: seq<PVC>)
    ensures forall p :: p in Intended(s, claims) <==> p in s && forall k :: !Owns(k, p, claims)
  {
    if s != [] {
      IntendedMembers(s[1..], claims);
      ResolveMeaning(s[0], claims);
      assert s == [s[0]] + s[1..];
      hide Owns;
    }
  }

  lemma Begin(s: seq<PV>, claims: seq<PVC>, marked: set<Key>)
    ensures After(s, claims, 0) == s && Accounted(s, claims, s, claims, marked)
  {
  }

  lemma End(s: seq<PV>, claims: seq<PVC>)
    ensures After(s, claims, |s|) == Intended(s, claims)
  {
    assert s[..|s|] == s && s[|s|..] == [];
  }
}
