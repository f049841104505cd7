/** Deletion of the claims behind a VolumeGroupContent: the loop ranges over the volume list of
    the content while its body shifts that same list in place. */
module ClaimDeletion {
  import opened Kube
  import opened GoSlices

  datatype PV = PV(name: string, claimRef: Option<Key>)

  ghost predicate UniqueNames(s: seq<PV>) {
    forall i, j :: 0 <= i < j < |s| ==> s[i].name != s[j].name
  }

  function RemovePV(s: seq<PV>, name: string): seq<PV> {
    if s == [] then []
    else if s[0].name == name then s[1..]
    else [s[0]] + RemovePV(s[1..], name)
  }

  /** The first claim that names the volume, as a scan of the claims finds it. */
  function ClaimNaming(claims: seq<PVC>, volume: string): Option<Key> {
    if claims == [] then None
    else if claims[0].volumeName == volume then Some(KeyOf(claims[0]))
    else ClaimNaming(claims[1..], volume)
  }

  predicate RefersToClaim(pv: PV) {
    pv.claimRef.Some? && pv.claimRef.value.namespace != "" && pv.claimRef.value.name != ""
  }

  /** The claim of a volume: its own reference when that is complete, otherwise a scan. */
  function ResolveClaim(pv: PV, claims: seq<PVC>): Option<Key> {
    if RefersToClaim(pv) then pv.claimRef
    else ClaimNaming(claims, pv.name)
  }

  predicate HasClaim(pv: PV, claims: seq<PVC>) {
    ResolveClaim(pv, claims).Some?
  }

  /** The claim of key `k` is the volume's: the one its reference names in full, or else one that
      names the volume. */
  ghost predicate Owns(k: Key, pv: PV, claims: seq<PVC>) {
    if pv.claimRef.Some? && pv.claimRef.value.namespace != "" && pv.claimRef.value.name != ""
    then k == pv.claimRef.value
    else exists c :: c in claims && c.volumeName == pv.name && c.namespace == k.namespace && c.name == k.name
  }

  /** Claims and volumes are bound one to one. */
  ghost predicate OneClaimPerVolume(s: seq<PV>, claims: seq<PVC>) {
    && (forall p, q, k :: p in s && q in s && p.name != q.name && Owns(k, p, claims) ==> !Owns(k, q, claims))
    && (forall p :: p in s ==> p.name != "")
    && (forall a, b :: a in claims && b in claims && a.volumeName == b.volumeName != "" ==> KeyOf(a) == KeyOf(b))
  }

  /** A volume has a claim exactly when some key is its claim's, and the claim found is one of them. */
  lemma ResolveMeaning(pv: PV, claims: seq<PVC>)
    ensures HasClaim(pv, claims) ==> Owns(ResolveClaim(pv, claims).value, pv, claims)
    ensures !HasClaim(pv, claims) ==> forall k :: !Owns(k, pv, claims)
  {
    ClaimNamingSound(claims, pv.name);
    ClaimNamingComplete(claims, pv.name);
  }

  /** The claim found is the only one. */
  lemma ResolveOnly(s: seq<PV>, pv: PV, claims: seq<PVC>, k: Key)
    requires OneClaimPerVolume(s, claims) && pv in s
    ensures Owns(k, pv, claims) <==> ResolveClaim(pv, claims) == Some(k)
  {
    ResolveMeaning(pv, claims);
  }

  lemma {:induction false} ClaimNamingSound(claims: seq<PVC>, volume: string)
    ensures ClaimNaming(claims, volume).Some? ==>
      exists c :: c in claims && c.volumeName == volume && KeyOf(c) == ClaimNaming(claims, volume).value
  {
    if claims != [] {
      assert claims[0] in claims;
      if claims[0].volumeName != volume {
        ClaimNamingSound(claims[1..], volume);
      }
    }
  }

  lemma {:induction false} ClaimNamingComplete(claims: seq<PVC>, volume: string)
    ensures ClaimNaming(claims, volume).None? ==> forall c :: c in claims ==> c.volumeName != volume
  {
    if claims != [] && claims[0].volumeName != volume {
      ClaimNamingComplete(claims[1..], volume);
    }
  }

  // ---- what the loop does ----

  /** The volumes still listed when the loop has walked off the end of the shrunken list: after
      a volume with a claim, the volume behind it is stepped over. */
  function Walk(s: seq<PV>, claims: seq<PVC>): seq<PV> {
    if s == [] then []
    else if !HasClaim(s[0], claims) then [s[0]] + Walk(s[1..], claims)
    else if |s| == 1 then []
    else [s[1]] + Walk(s[2..], claims)
  }

  /** The volumes listed when the loop ends: the iterations past the end of the shrunken list
      read stale copies of the last volume, so that one is always handled. */
  function Survivors(s: seq<PV>, claims: seq<PVC>): seq<PV> {
    if s != [] && HasClaim(s[|s| - 1], claims) then RemovePV(Walk(s, claims), s[|s| - 1].name)
    else Walk(s, claims)
  }

  /** What the loop is meant to leave: the volumes without a claim. */
  function Intended(s: seq<PV>, claims: seq<PVC>): seq<PV> {
    if s == [] then []
    else (if HasClaim(s[0], claims) then [] else [s[0]]) + Intended(s[1..], claims)
  }

  /** The API server's claims. `listed` are the keys of claims that some group lists, `lingering`
      of those that finalizers of others keep alive after a delete. `released` are the keys of claims
      that were rid of the operator's finalizer, `marked` of those that were deleted. */
  class Store {
    var claims: seq<PVC>
    const listed: set<Key>
    const lingering: set<Key>
    ghost var released: set<Key>
    ghost var marked: set<Key>
    var faults: seq<bool>

    constructor (claims: seq<PVC>, listed: set<Key>, lingering: set<Key>, faults: seq<bool>)
      ensures this.claims == claims && this.listed == listed && this.lingering == lingering
      ensures this.faults == faults && released == {} && marked == {}
    {
      this.claims, this.listed, this.lingering, this.faults := claims, listed, lingering, faults;
      this.released, this.marked := {}, {};
    }

    /** Whether the next request reaches the API server. */
    method Request() returns (ok: bool)
      modifies this`faults
      ensures old(faults) == [] ==> ok && faults == []
    {
      ok := true;
      if faults != [] {
        ok := !faults[0];
        faults := faults[1..];
      }
    }

    /** deletePVC: a missing claim counts as deleted. The finalizer goes before the claim does, unless
        some group lists the claim, whose deletion it then holds up. A failure in between leaves the
        claim without its finalizer and not deleted. */
    method DeletePVC(k: Key) returns (ok: bool)
      modifies this`claims, this`released, this`marked, this`faults
      ensures ok ==> k !in Keys(claims) || k in marked
      ensures marked == old(marked) + if ok && k in Keys(old(claims)) then {k} else {}
      ensures claims == if ok && k !in listed + lingering then DropKeys(old(claims), {k}) else old(claims)
      ensures ok ==> released == old(released) + if k in Keys(old(claims)) && k !in listed then {k} else {}
      ensures !ok ==> old(released) <= released <= old(released) + ({k} * Keys(old(claims)) - listed)
      ensures old(faults) == [] ==> ok && faults == []
    {
      DropKeysKeys(claims, {k});
      ok := Request();
      if !ok { return; }
      if k !in Keys(claims) {
        DropNothing(claims, {k});
        return;
      }
      ok := Request();
      if !ok { return; }
      if k !in listed {
        released := released + {k};
      }
      ok := Request();
      if !ok { return; }
      marked := marked + {k};
      if k !in listed + lingering {
        claims := DropKeys(claims, {k});
      }
    }
  }

  /** The in-memory VolumeGroupContent; its volume list is the slice `volumes[..count]`. */
  class Content {
    var volumes: array<PV>
    var count: nat

    ghost predicate Valid()
      reads this
    {
      count <= volumes.Length
    }

    ghost function PVList(): seq<PV>
      reads this, volumes
      requires Valid()
    {
      volumes[..count]
    }

    constructor (volumes: array<PV>)
      ensures this.volumes == volumes && count == volumes.Length
      ensures Valid()
    {
      this.volumes, count := volumes, volumes.Length;
    }

    /** removeFromPVList: shifts the list in place at the first volume of that name. */
    method RemoveFromPVList(name: string)
      requires Valid() && UniqueNames(PVList())
      modifies this`count, volumes
      ensures Valid() && volumes == old(volumes)
      ensures PVList() == RemovePV(old(PVList()), name)
      ensures forall j :: 0 <= j < volumes.Length && old(count) - 1 <= j ==> volumes[j] == old(volumes[j])
    {
      var index := 0;
      while index < count
        invariant index <= count
        invariant forall j :: 0 <= j < index ==> volumes[j].name != name
      {
        if volumes[index].name == name {
          RemovePVAt(PVList(), index);
          ghost var before, all := PVList(), volumes[..];
          count := RemoveByIndex(volumes, count, index);
          assert volumes[..count] == before[..index] + before[index + 1..];
          assert forall j :: |before| - 1 <= j < volumes.Length ==> volumes[..][j] == all[j];
          return;
        }
        index := index + 1;
      }
      RemovePVAbsent(PVList(), name);
    }

    /** RemovePVFromVGC: when the status update fails the volume is put back at the end. */
    method RemovePVFromVGC(store: Store, pv: PV) returns (ok: bool)
      requires Valid() && UniqueNames(PVList())
      modifies this, volumes, store`faults
      ensures Valid()
      ensures ok ==> volumes == old(volumes) && PVList() == RemovePV(old(PVList()), pv.name)
      ensures ok ==> forall j :: 0 <= j < volumes.Length && old(count) - 1 <= j ==> volumes[j] == old(volumes[j])
      ensures !ok && pv in old(PVList()) ==> multiset(PVList()) == multiset(old(PVList()))
      ensures old(store.faults) == [] ==> ok && store.faults == []
    {
      ghost var before := PVList();
      RemoveFromPVList(pv.name);
      ok := store.Request();
      if !ok {
        volumes, count := Append(volumes, count, pv);
        if pv in before {
          RemovePVMultiset(before, pv);
        }
      }
    }
  }

  lemma {:induction false} RemovePVAt(s: seq<PV>, i: nat)
    requires UniqueNames(s) && i < |s|
    ensures RemovePV(s, s[i].name) == s[..i] + s[i + 1..]
  {
    if i > 0 {
      RemovePVAt(s[1..], i - 1);
      RejoinFront(s, i);
    }
  }

  lemma RejoinFront(s: seq<PV>, i: nat)
    requires 0 < i < |s|
    ensures [s[0]] + (s[1..][..i - 1] + s[1..][i..]) == s[..i] + s[i + 1..]
  {
    assert s[1..][..i - 1] == s[1..i];
    assert s[1..][i..] == s[i + 1..];
    assert [s[0]] + s[1..i] == s[..i];
  }

  lemma {:induction false} RemovePVAbsent(s: seq<PV>, name: string)
    requires forall p :: p in s ==> p.name != name
    ensures RemovePV(s, name) == s
  {
    if s != [] {
      assert s[0] in s;
      RemovePVAbsent(s[1..], name);
    }
  }

  lemma {:induction false} RemovePVMultiset(s: seq<PV>, pv: PV)
    requires UniqueNames(s) && pv in s
    ensures multiset(RemovePV(s, pv.name)) + multiset{pv} == multiset(s)
  {
    assert s == [s[0]] + s[1..];
    if s[0].name == pv.name {
      assert s[0] == pv;
    } else {
      RemovePVMultiset(s[1..], pv);
    }
  }

  lemma {:induction false} RemovePVMembers(s: seq<PV>, name: string)
    requires UniqueNames(s)
    ensures UniqueNames(RemovePV(s, name))
    ensures forall q :: q in RemovePV(s, name) <==> q in s && q.name != name
  {
    if s != [] {
      RemovePVMembers(s[1..], name);
      assert s == [s[0]] + s[1..];
      if s[0].name != name {
        assert RemovePV(s, name) == [s[0]] + RemovePV(s[1..], name);
      } else {
        assert forall q :: q in s[1..] ==> q.name != name;
      }
    }
  }

  lemma {:induction false} OtherClaimsStay(claims: seq<PVC>, volume: string, k: Key)
    requires ClaimNaming(claims, volume) != Some(k)
    ensures ClaimNaming(DropKeys(claims, {k}), volume) == ClaimNaming(claims, volume)
  {
    if claims != [] && claims[0].volumeName != volume {
      OtherClaimsStay(claims[1..], volume, k);
      var rest := DropKeys(claims[1..], {k});
      assert ([claims[0]] + rest)[1..] == rest && [] + rest == rest;
    }
  }

  /** How the API server stands to the entry volumes `s` while `left` of them are still listed. */
  ghost predicate Accounted(s: seq<PV>, before: seq<PVC>, left: seq<PV>, claims: seq<PVC>, marked: set<Key>) {
    && (forall c :: c in claims ==> c in before)
    && (forall q :: q in left ==> q in s && ResolveClaim(q, claims) == ResolveClaim(q, before))
    && (forall q :: q in s && q !in left ==>
          HasClaim(q, before) && ClaimGone(ResolveClaim(q, before).value, claims, marked)
          && (HasClaim(q, claims) ==> ResolveClaim(q, claims) == ResolveClaim(q, before)))
  }

  /** Every volume no longer listed had a claim, and all claims it had are deleted, or marked to be. */
  ghost predicate Handled(s: seq<PV>, before: seq<PVC>, left: seq<PV>, claims: seq<PVC>, marked: set<Key>) {
    forall p :: p in s && p !in left ==>
      && (exists k :: Owns(k, p, before))
      && (forall k :: Owns(k, p, before) ==>
            k in marked || forall c :: c in claims ==> c.namespace != k.namespace || c.name != k.name)
  }

  /** No claim is new or changed, and those deleted or marked are claims of volumes no longer listed. */
  ghost predicate Spared(s: seq<PV>, before: seq<PVC>, left: seq<PV>, claims: seq<PVC>, was: set<Key>,
                         marked: set<Key>) {
    && was <= marked
    && (forall c :: c in claims ==> c in before)
    && (forall c :: c in before && c !in claims ==> exists p :: p in s && p !in left && Owns(KeyOf(c), p, before))
    && (forall k :: k in marked - was ==> exists p :: p in s && p !in left && Owns(k, p, before))
  }

  lemma AccountedIsHandled(s: seq<PV>, before: seq<PVC>, left: seq<PV>, claims: seq<PVC>, marked: set<Key>)
    requires OneClaimPerVolume(s, before) && Accounted(s, before, left, claims, marked)
    ensures Handled(s, before, left, claims, marked)
  {
    forall p | p in s && p !in left
      ensures Owns(ResolveClaim(p, before).value, p, before)
      ensures forall k :: Owns(k, p, before) ==> ClaimGone(k, claims, marked)
    {
      ResolveMeaning(p, before);
      forall k | Owns(k, p, before) ensures ClaimGone(k, claims, marked) {
        ResolveOnly(s, p, before, k);
      }
    }
    hide OneClaimPerVolume, Owns, Accounted, ResolveClaim;
    forall k, c | ClaimGone(k, claims, marked) && c in claims && c.namespace == k.namespace && c.name == k.name
      ensures k in marked
    {
      assert KeyOf(c) in Keys(claims);
    }
  }

  ghost predicate ClaimGone(k: Key, claims: seq<PVC>, marked: set<Key>) {
    k !in Keys(claims) || k in marked
  }

  lemma ResolveAfterDelete(q: PV, claims: seq<PVC>, k: Key)
    requires ResolveClaim(q, claims) != Some(k)
    ensures ResolveClaim(q, DropKeys(claims, {k})) == ResolveClaim(q, claims)
  {
    if ResolveClaim(q, claims) == ClaimNaming(claims, q.name) {
      OtherClaimsStay(claims, q.name, k);
    }
  }

  /** A volume whose claim was dropped resolves to that claim by its own reference or not at all. */
  lemma DroppedClaimResolves(s: seq<PV>, before: seq<PVC>, q: PV, claims: seq<PVC>, k: Key)
    requires OneClaimPerVolume(s, before) && q in s
    requires forall c :: c in claims ==> c in before
    requires ResolveClaim(q, claims) == Some(k)
    ensures HasClaim(q, DropKeys(claims, {k})) ==> ResolveClaim(q, DropKeys(claims, {k})) == Some(k)
  {
    if ResolveClaim(q, claims) == ClaimNaming(claims, q.name) {
      var rest := DropKeys(claims, {k});
      ClaimNamingSound(claims, q.name);
      ClaimNamingSound(rest, q.name);
      DropKeysMembers(claims, {k});
    }
  }

  /** No other volume that is still listed resolves to the claim of `pv`. */
  lemma OtherClaim(s: seq<PV>, before: seq<PVC>, left: seq<PV>, claims: seq<PVC>, marked: set<Key>, pv: PV, q: PV)
    requires OneClaimPerVolume(s, before) && Accounted(s, before, left, claims, marked)
    requires pv in s && HasClaim(pv, claims) && q in left && q.name != pv.name
    ensures ResolveClaim(q, claims) != ResolveClaim(pv, claims)
  {
    ResolveMeaning(pv, before);
    ResolveMeaning(q, before);
  }

  lemma SameName(s: seq<PV>, p: PV, q: PV)
    requires UniqueNames(s) && p in s && q in s && p.name == q.name
    ensures p == q
  {
  }

  /** Handling the volume `pv` with claim `k` keeps the account. */
  lemma AccountStep(s: seq<PV>, before: seq<PVC>, left: seq<PV>, claims: seq<PVC>, marked: set<Key>,
                    pv: PV, k: Key, claims': seq<PVC>, marked': set<Key>)
    requires UniqueNames(s) && UniqueNames(left) && OneClaimPerVolume(s, before)
    requires Accounted(s, before, left, claims, marked)
    requires pv in s && ResolveClaim(pv, claims) == Some(k)
    requires claims' == claims || claims' == DropKeys(claims, {k})
    requires marked <= marked' && ClaimGone(k, claims', marked')
    ensures Accounted(s, before, RemovePV(left, pv.name), claims', marked')
  {
    var left' := RemovePV(left, pv.name);
    RemovePVMembers(left, pv.name);
    DropKeysKeys(claims, {k});
    DropKeysMembers(claims, {k});
    forall q | q in left'
      ensures q in s && ResolveClaim(q, claims') == ResolveClaim(q, before)
    {
      OtherClaim(s, before, left, claims, marked, pv, q);
      ResolveAfterDelete(q, claims, k);
    }
    forall q | q in s && q !in left'
      ensures HasClaim(q, before) && ClaimGone(ResolveClaim(q, before).value, claims', marked')
      ensures HasClaim(q, claims') ==> ResolveClaim(q, claims') == ResolveClaim(q, before)
    {
      if q in left {
        SameName(s, q, pv);
      }
      if ResolveClaim(q, claims) != Some(k) {
        ResolveAfterDelete(q, claims, k);
      } else {
        DroppedClaimResolves(s, before, q, claims, k);
      }
    }
  }

  // ---- the loop ----

  /** What a turn for `pv` leaves of the account of spared claims. */
  lemma SparedTurn(s: seq<PV>, before: seq<PVC>, left: seq<PV>, claims: seq<PVC>, was: set<Key>, marked: set<Key>,
                   pv: PV, left': seq<PV>, claims': seq<PVC>, marked': set<Key>)
    requires Spared(s, before, left, claims, was, marked) && pv in s
    requires Spared([pv], claims, [], claims', marked, marked')
    requires forall p :: p in left' ==> p in left
    requires (claims' == claims && marked' == marked) || pv !in left'
    ensures Spared(s, before, left', claims', was, marked')
  {
    forall c | c in before && c !in claims'
      ensures exists p :: p in s && p !in left' && Owns(KeyOf(c), p, before)
    {
      if c in claims {
        assert Owns(KeyOf(c), pv, claims);
      }
    }
    forall k | k in marked' - was
      ensures exists p :: p in s && p !in left' && Owns(k, p, before)
    {
      if k in marked {
        assert k in marked - was;
      } else {
        assert k in marked' - marked;
        assert Owns(k, pv, claims);
      }
    }
  }

  lemma SparedSuccess(s: seq<PV>, before: seq<PVC>, was: set<Key>, pv: PV, slots: seq<PV>, count: nat, claims: seq<PVC>,
                      marked: set<Key>, slots': seq<PV>, count': nat, claims': seq<PVC>, marked': set<Key>)
    requires count <= |slots| && count' <= |slots'| && UniqueNames(slots[..count]) && pv in s
    requires Spared(s, before, slots[..count], claims, was, marked)
    requires Spared([pv], claims, [], claims', marked, marked')
    requires TurnEffect(pv, slots, count, claims, marked, slots', count', claims', marked')
    ensures Spared(s, before, slots'[..count'], claims', was, marked')
  {
    RemovePVMembers(slots[..count], pv.name);
    hide Spared, UniqueNames, RemovePV;
    SparedTurn(s, before, slots[..count], claims, was, marked, pv, slots'[..count'], claims', marked');
  }

  /** After a failure anything may be listed again, but still only claims of listed volumes were touched. */
  lemma SparedFailure(s: seq<PV>, before: seq<PVC>, left: seq<PV>, was: set<Key>, pv: PV, claims: seq<PVC>,
                      marked: set<Key>, claims': seq<PVC>, marked': set<Key>)
    requires Spared(s, before, left, claims, was, marked) && pv in s
    requires Spared([pv], claims, [], claims', marked, marked')
    ensures Spared(s, before, [], claims', was, marked')
  {
    hide Owns;
    assert Spared(s, before, [], claims, was, marked);
    SparedTurn(s, before, [], claims, was, marked, pv, [], claims', marked');
  }

  /** What one turn for the volume `pv` does to the backing array, the list length and the API
      server: nothing without a claim; otherwise the claim goes, and the list closes up in place. */
  ghost predicate TurnEffect(pv: PV, slots: seq<PV>, count: nat, claims: seq<PVC>, marked: set<Key>,
                             slots': seq<PV>, count': nat, claims': seq<PVC>, marked': set<Key>)
    requires count <= |slots| && count' <= |slots'|
  {
    if HasClaim(pv, claims) then
      var k := ResolveClaim(pv, claims).value;
      && |slots'| == |slots|
      && slots'[..count'] == RemovePV(slots[..count], pv.name)
      && (forall j :: 0 <= j < |slots| && count - 1 <= j ==> slots'[j] == slots[j])
      && (claims' == claims || claims' == DropKeys(claims, {k}))
      && marked <= marked' <= marked + {k}
      && ClaimGone(k, claims', marked')
    else
      slots' == slots && count' == count && claims' == claims && marked' == marked
  }

  /** One turn of the loop for the volume `pv`: if it has a claim, a claim of it is deleted or marked
      after a success; no other claim ever is. */
  method HandleVolume(vgc: Content, store: Store, pv: PV) returns (ok: bool)
    requires vgc.Valid() && UniqueNames(vgc.PVList())
    modifies vgc, vgc.volumes, store
    ensures vgc.Valid()
    ensures ok ==> vgc.volumes == old(vgc.volumes)
    ensures ok ==> TurnEffect(pv, old(vgc.volumes[..]), old(vgc.count), old(store.claims), old(store.marked),
                              vgc.volumes[..], vgc.count, store.claims, store.marked)
    ensures ok && (exists k :: Owns(k, pv, old(store.claims))) ==>
      exists k :: Owns(k, pv, old(store.claims)) && ClaimGone(k, store.claims, store.marked)
    ensures Spared([pv], old(store.claims), [], store.claims, old(store.marked), store.marked)
    ensures old(store.faults) == [] ==> ok && store.faults == []
  {
    var claim := ResolveClaim(pv, store.claims);
    ResolveMeaning(pv, store.claims);
    ghost var before, marked := store.claims, store.marked;
    hide Owns, Spared;
    SparesNothing(pv, before, marked);
    if !RefersToClaim(pv) {
      ok := store.Request();
      if !ok { return; }
    }
    if claim.None? {
      ok := true;
      return;
    }
    ok := store.DeletePVC(claim.value);
    SparesOthers(pv, before, marked, claim.value, store.claims, store.marked);
    if !ok { return; }
    ok := vgc.RemovePVFromVGC(store, pv);
  }

  lemma SparesNothing(pv: PV, before: seq<PVC>, marked: set<Key>)
    ensures Spared([pv], before, [], before, marked, marked)
  {
  }

  /** The deletion of one claim of the volume. */
  lemma SparesOthers(pv: PV, before: seq<PVC>, marked: set<Key>, k: Key, claims: seq<PVC>, marked': set<Key>)
    requires Owns(k, pv, before) && (claims == before || claims == DropKeys(before, {k}))
    requires marked <= marked' <= marked + {k}
    ensures Spared([pv], before, [], claims, marked, marked')
  {
    DropKeysMembers(before, {k});
    assert pv in [pv];
    hide Owns;
  }

  lemma {:induction false} WalkAll(s: seq<PV>, claims: seq<PVC>)
    ensures |Walk(s, claims)| <= |s|
    ensures |Walk(s, claims)| == |s| ==> forall q :: q in s ==> !HasClaim(q, claims)
    decreases |s|
  {
    if s != [] {
      assert s == [s[0]] + s[1..];
      if !HasClaim(s[0], claims) {
        WalkAll(s[1..], claims);
      } else if |s| > 1 {
        WalkAll(s[2..], claims);
      }
    }
  }

  /** Where the loop stands: `past` once it has read beyond the shrunken list. Before that the
      list is the survivors so far, `kept`, followed by the part of the entry list from `p` on. */
  ghost predicate LoopState(s: seq<PV>, claims: seq<PVC>, left: seq<PV>, i: nat, past: bool, kept: seq<PV>, p: nat) {
    && p <= |s|
    && |left| <= |s|
    && (!past ==>
          && left == kept + s[p..]
          && kept + Walk(s[p..], claims) == Walk(s, claims)
          && i == |kept|)
    && (past ==> left == Survivors(s, claims) && |left| <= i)
  }

  /** The volume read in turn `i`: the one at `p` of the entry list, or a stale copy of the last. */
  ghost function ReadAt(s: seq<PV>, past: bool, p: nat): PV
    requires s != []
  {
    if !past && p < |s| then s[p] else s[|s| - 1]
  }

  ghost function NextPast(s: seq<PV>, claims: seq<PVC>, past: bool, p: nat): bool {
    past || p >= |s| || (HasClaim(s[p], claims) && p + 1 == |s|)
  }

  ghost function NextKept(s: seq<PV>, claims: seq<PVC>, past: bool, kept: seq<PV>, p: nat): seq<PV> {
    if NextPast(s, claims, past, p) then kept
    else kept + [if HasClaim(s[p], claims) then s[p + 1] else s[p]]
  }

  ghost function NextP(s: seq<PV>, claims: seq<PVC>, past: bool, p: nat): nat {
    if NextPast(s, claims, past, p) then p
    else if HasClaim(s[p], claims) then p + 2 else p + 1
  }

  lemma {:induction false} WalkMembers(s: seq<PV>, claims: seq<PVC>)
    requires UniqueNames(s)
    ensures UniqueNames(Walk(s, claims))
    ensures forall q :: q in Walk(s, claims) ==> q in s
    decreases |s|
  {
    if s != [] {
      if !HasClaim(s[0], claims) {
        WalkMembers(s[1..], claims);
        UniqueFront(s[0], s[1..], Walk(s[1..], claims));
      } else if |s| > 1 {
        WalkMembers(s[2..], claims);
        UniqueFront(s[1], s[2..], Walk(s[2..], claims));
      }
    }
  }

  lemma UniqueFront(x: PV, s: seq<PV>, t: seq<PV>)
    requires UniqueNames([x] + s) && UniqueNames(t)
    requires forall q :: q in t ==> q in s
    ensures UniqueNames([x] + t)
  {
    forall q | q in t ensures q.name != x.name {
      var j :| 0 <= j < |s| && s[j] == q;
      assert ([x] + s)[j + 1] == q && ([x] + s)[0] == x;
    }
  }

  lemma {:induction false} WalkLast(s: seq<PV>, claims: seq<PVC>)
    requires s != [] && UniqueNames(s)
    ensures s[|s| - 1] in Walk(s, claims) ==> Walk(s, claims)[|Walk(s, claims)| - 1] == s[|s| - 1]
    decreases |s|
  {
    if !HasClaim(s[0], claims) {
      if |s| > 1 { WalkLast(s[1..], claims); }
    } else if |s| > 2 {
      WalkLast(s[2..], claims);
    }
  }

  lemma {:induction false} RemovePVShrinks(s: seq<PV>, name: string)
    ensures |RemovePV(s, name)| <= |s|
  {
    if s != [] { RemovePVShrinks(s[1..], name); }
  }

  lemma StepPast(s: seq<PV>, claims: seq<PVC>, left: seq<PV>)
    requires s != [] && UniqueNames(s) && left == Survivors(s, claims)
    requires HasClaim(s[|s| - 1], claims)
    ensures RemovePV(left, s[|s| - 1].name) == left
  {
    var z := s[|s| - 1];
    WalkMembers(s, claims);
    RemovePVMembers(Walk(s, claims), z.name);
    RemovePVAbsent(left, z.name);
  }

  lemma StepOverLast(s: seq<PV>, claims: seq<PVC>, kept: seq<PV>, p: nat)
    requires p + 1 == |s| && HasClaim(s[p], claims)
    requires UniqueNames(kept + s[p..]) && kept + Walk(s[p..], claims) == Walk(s, claims)
    ensures RemovePV(kept + s[p..], s[p].name) == kept == Survivors(s, claims)
  {
    var left := kept + s[p..];
    assert left[|kept|] == s[p];
    RemovePVAt(left, |kept|);
    assert left[..|kept|] + left[|kept| + 1..] == kept;
    assert Walk(s[p..], claims) == [];
    forall q | q in kept ensures q.name != s[p].name {
      var j :| 0 <= j < |kept| && kept[j] == q;
      assert left[j] == q;
    }
    RemovePVAbsent(kept, s[p].name);
  }

  lemma StepOverNext(s: seq<PV>, claims: seq<PVC>, kept: seq<PV>, p: nat)
    requires p + 1 < |s| && HasClaim(s[p], claims)
    requires UniqueNames(kept + s[p..]) && kept + Walk(s[p..], claims) == Walk(s, claims)
    ensures RemovePV(kept + s[p..], s[p].name) == kept + [s[p + 1]] + s[p + 2..]
    ensures kept + [s[p + 1]] + Walk(s[p + 2..], claims) == Walk(s, claims)
  {
    var left, rest := kept + s[p..], Walk(s[p + 2..], claims);
    assert left[|kept|] == s[p];
    RemovePVAt(left, |kept|);
    assert Walk(s[p..], claims) == [s[p + 1]] + rest by {
      assert s[p..][1] == s[p + 1] && s[p..][2..] == s[p + 2..];
    }
    hide Walk, RemovePV, UniqueNames, HasClaim;
    assert left[..|kept|] == kept && left[|kept| + 1..] == [s[p + 1]] + s[p + 2..];
    Associates(kept, [s[p + 1]], s[p + 2..]);
    Associates(kept, [s[p + 1]], rest);
  }

  lemma Associates(a: seq<PV>, b: seq<PV>, c: seq<PV>)
    ensures a + (b + c) == a + b + c
  {
  }

  lemma StepNoClaim(s: seq<PV>, claims: seq<PVC>, kept: seq<PV>, p: nat)
    requires p < |s| && !HasClaim(s[p], claims)
    requires kept + Walk(s[p..], claims) == Walk(s, claims)
    ensures kept + s[p..] == kept + [s[p]] + s[p + 1..]
    ensures kept + [s[p]] + Walk(s[p + 1..], claims) == Walk(s, claims)
  {
  }

  /** One turn of the loop keeps LoopState. */
  lemma LoopStep(s: seq<PV>, claims: seq<PVC>, left: seq<PV>, i: nat, past: bool, kept: seq<PV>, p: nat, left': seq<PV>)
    requires s != [] && UniqueNames(s) && UniqueNames(left)
    requires LoopState(s, claims, left, i, past, kept, p)
    requires i < |s|
    requires left' == if HasClaim(ReadAt(s, past, p), claims) then RemovePV(left, ReadAt(s, past, p).name) else left
    ensures LoopState(s, claims, left', i + 1,
                      NextPast(s, claims, past, p), NextKept(s, claims, past, kept, p), NextP(s, claims, past, p))
  {
    RemovePVShrinks(left, ReadAt(s, past, p).name);
    if past {
      if HasClaim(s[|s| - 1], claims) {
        StepPast(s, claims, left);
      }
    } else if p == |s| {
      assert left == kept == Walk(s, claims);
    } else if !HasClaim(s[p], claims) {
      StepNoClaim(s, claims, kept, p);
    } else if p + 1 == |s| {
      StepOverLast(s, claims, kept, p);
    } else {
      StepOverNext(s, claims, kept, p);
    }
  }

  /** When the turns are used up the list is exactly the survivors. */
  lemma LoopEnd(s: seq<PV>, claims: seq<PVC>, left: seq<PV>, past: bool, kept: seq<PV>, p: nat)
    requires LoopState(s, claims, left, |s|, past, kept, p)
    ensures left == Survivors(s, claims)
  {
    if !past {
      WalkAll(s, claims);
      assert |left| == |kept| + |s| - p;
      assert left == kept;
      if s != [] {
        assert s[|s| - 1] in s;
      }
    }
  }

  /** A turn that shortens the list frees a slot that holds the last volume. */
  lemma FreedSlot(s: seq<PV>, claims: seq<PVC>, left: seq<PV>, i: nat, past: bool, kept: seq<PV>, p: nat)
    requires s != [] && UniqueNames(s) && UniqueNames(left)
    requires LoopState(s, claims, left, i, past, kept, p)
    requires HasClaim(ReadAt(s, past, p), claims)
    ensures var left' := RemovePV(left, ReadAt(s, past, p).name);
            left' == left || (left != [] && |left'| == |left| - 1 && left[|left| - 1] == s[|s| - 1])
  {
    var x := ReadAt(s, past, p);
    RemovePVOnce(left, x.name);
    if past {
      StepPast(s, claims, left);
    } else if p < |s| {
      LastOfRest(kept, s, p);
      hide Walk, RemovePV, UniqueNames, HasClaim;
    } else {
      assert left == kept + [] == kept && kept + Walk([], claims) == kept;
      LastOfWalk(s, claims);
      hide Walk, UniqueNames, HasClaim;
    }
  }

  lemma LastOfRest(kept: seq<PV>, s: seq<PV>, p: nat)
    requires p < |s|
    ensures kept + s[p..] != [] && (kept + s[p..])[|kept + s[p..]| - 1] == s[|s| - 1]
  {
  }

  /** If the walk leaves the last volume, then as its last one. */
  lemma LastOfWalk(s: seq<PV>, claims: seq<PVC>)
    requires s != [] && UniqueNames(s)
    ensures var left, z := Walk(s, claims), s[|s| - 1];
      RemovePV(left, z.name) == left || (left != [] && left[|left| - 1] == z)
  {
    var left, z := Walk(s, claims), s[|s| - 1];
    WalkLast(s, claims);
    if z !in left {
      WalkMembers(s, claims);
      RemovePVAbsent(left, z.name);
    }
  }

  lemma {:induction false} RemovePVOnce(s: seq<PV>, name: string)
    ensures RemovePV(s, name) == s || |RemovePV(s, name)| == |s| - 1
  {
    if s != [] { RemovePVOnce(s[1..], name); }
  }

  /** A turn seen from the API server's side agrees with the turn on the entry claims. */
  lemma TurnOnList(s: seq<PV>, before: seq<PVC>, left: seq<PV>, claims: seq<PVC>, marked: set<Key>,
                   i: nat, past: bool, kept: seq<PV>, p: nat, left': seq<PV>)
    requires s != [] && UniqueNames(s) && UniqueNames(left)
    requires Accounted(s, before, left, claims, marked)
    requires LoopState(s, before, left, i, past, kept, p) && i < |s|
    requires left' == if HasClaim(ReadAt(s, past, p), claims) then RemovePV(left, ReadAt(s, past, p).name) else left
    ensures LoopState(s, before, left', i + 1,
                      NextPast(s, before, past, p), NextKept(s, before, past, kept, p), NextP(s, before, past, p))
    ensures UniqueNames(left')
    ensures left' == left || (left != [] && |left'| == |left| - 1 && left[|left| - 1] == s[|s| - 1])
  {
    var x := ReadAt(s, past, p);
    RemovePVMembers(left, x.name);
    if x !in left {
      forall q | q in left ensures q.name != x.name {
        if q.name == x.name { SameName(s, q, x); }
      }
      RemovePVAbsent(left, x.name);
    }
    if HasClaim(x, before) {
      FreedSlot(s, before, left, i, past, kept, p);
    }
    LoopStep(s, before, left, i, past, kept, p, left');
  }

  /** The loop invariant, on the backing array `slots` of which the first `count` are listed. */
  ghost predicate TurnInvariant(s: seq<PV>, before: seq<PVC>, slots: seq<PV>, count: nat, claims: seq<PVC>,
                                marked: set<Key>, i: nat, past: bool, kept: seq<PV>, p: nat) {
    && i <= |s| <= |slots| && count <= |s|
    && UniqueNames(slots[..count])
    && Accounted(s, before, slots[..count], claims, marked)
    && LoopState(s, before, slots[..count], i, past, kept, p)
    && (forall j :: count <= j < |s| ==> slots[j] == s[|s| - 1])
  }

  lemma TurnRead(s: seq<PV>, before: seq<PVC>, slots: seq<PV>, count: nat, claims: seq<PVC>, marked: set<Key>,
                 i: nat, past: bool, kept: seq<PV>, p: nat)
    requires TurnInvariant(s, before, slots, count, claims, marked, i, past, kept, p) && i < |s|
    ensures slots[i] == ReadAt(s, past, p)
  {
  }

  lemma TurnAccount(s: seq<PV>, before: seq<PVC>, left: seq<PV>, claims: seq<PVC>, marked: set<Key>, pv: PV,
                    slots: seq<PV>, count: nat, slots': seq<PV>, count': nat, claims': seq<PVC>, marked': set<Key>)
    requires UniqueNames(s) && UniqueNames(left) && OneClaimPerVolume(s, before) && pv in s
    requires Accounted(s, before, left, claims, marked)
    requires count <= |slots| && count' <= |slots'| && left == slots[..count]
    requires TurnEffect(pv, slots, count, claims, marked, slots', count', claims', marked')
    ensures Accounted(s, before, slots'[..count'], claims', marked')
  {
    if HasClaim(pv, claims) {
      AccountStep(s, before, left, claims, marked, pv, ResolveClaim(pv, claims).value, claims', marked');
    }
  }

  lemma TurnSlots(z: PV, n: nat, pv: PV, slots: seq<PV>, count: nat, claims: seq<PVC>, marked: set<Key>,
                  slots': seq<PV>, count': nat, claims': seq<PVC>, marked': set<Key>)
    requires count <= n <= |slots| && count' <= |slots'|
    requires TurnEffect(pv, slots, count, claims, marked, slots', count', claims', marked')
    requires forall j :: count <= j < n ==> slots[j] == z
    requires var left, left' := slots[..count], slots'[..count'];
             left' == left || (left != [] && |left'| == |left| - 1 && left[|left| - 1] == z)
    ensures |slots'| == |slots| && count' <= count
    ensures forall j :: count' <= j < n ==> slots'[j] == z
  {
  }

  lemma Turn(s: seq<PV>, before: seq<PVC>, slots: seq<PV>, count: nat, claims: seq<PVC>, marked: set<Key>,
             i: nat, past: bool, kept: seq<PV>, p: nat,
             slots': seq<PV>, count': nat, claims': seq<PVC>, marked': set<Key>)
    requires UniqueNames(s) && OneClaimPerVolume(s, before)
    requires TurnInvariant(s, before, slots, count, claims, marked, i, past, kept, p) && i < |s|
    requires count' <= |slots'|
    requires TurnEffect(slots[i], slots, count, claims, marked, slots', count', claims', marked')
    ensures TurnInvariant(s, before, slots', count', claims', marked', i + 1,
                          NextPast(s, before, past, p), NextKept(s, before, past, kept, p), NextP(s, before, past, p))
  {
    hide LoopState, Accounted, TurnEffect, OneClaimPerVolume, HasClaim, RemovePV, UniqueNames, NextPast, NextKept,
        NextP, ReadAt, Owns, ResolveClaim, Survivors, Walk, ClaimGone;
    var left, left' := slots[..count], slots'[..count'];
    TurnRead(s, before, slots, count, claims, marked, i, past, kept, p);
    ReadInEntry(s, past, p);
    TurnAccount(s, before, left, claims, marked, slots[i], slots, count, slots', count', claims', marked');
    EffectOnList(slots[i], slots, count, claims, marked, slots', count', claims', marked');
    TurnOnList(s, before, left, claims, marked, i, past, kept, p, left');
    TurnSlots(s[|s| - 1], |s|, slots[i], slots, count, claims, marked, slots', count', claims', marked');
  }

  lemma ReadInEntry(s: seq<PV>, past: bool, p: nat)
    requires s != []
    ensures ReadAt(s, past, p) in s
  {
  }

  lemma EffectOnList(pv: PV, slots: seq<PV>, count: nat, claims: seq<PVC>, marked: set<Key>,
                     slots': seq<PV>, count': nat, claims': seq<PVC>, marked': set<Key>)
    requires count <= |slots| && count' <= |slots'|
    requires TurnEffect(pv, slots, count, claims, marked, slots', count', claims', marked')
    ensures slots'[..count'] == if HasClaim(pv, claims) then RemovePV(slots[..count], pv.name) else slots[..count]
  {
  }

  lemma TurnStart(s: seq<PV>, claims: seq<PVC>, slots: seq<PV>, marked: set<Key>)
    requires UniqueNames(s) && s <= slots
    ensures TurnInvariant(s, claims, slots, |s|, claims, marked, 0, false, [], 0)
  {
  }

  lemma TurnEnd(s: seq<PV>, before: seq<PVC>, slots: seq<PV>, count: nat, claims: seq<PVC>, marked: set<Key>,
                past: bool, kept: seq<PV>, p: nat)
    requires TurnInvariant(s, before, slots, count, claims, marked, |s|, past, kept, p)
    ensures slots[..count] == Survivors(s, before)
    ensures Accounted(s, before, slots[..count], claims, marked)
  {
    LoopEnd(s, before, slots[..count], past, kept, p);
  }

  /** DeletePVCsUnderVGC: `range` fixes the slice header before the first turn, so every turn
      reads the backing array that RemovePVFromVGC shifts. */
  method DeletePVCsUnderVGC(vgc: Content, store: Store) returns (ok: bool)
    requires vgc.Valid() && UniqueNames(vgc.PVList())
    requires OneClaimPerVolume(vgc.PVList(), store.claims)
    modifies vgc, vgc.volumes, store
    ensures vgc.Valid()
    ensures ok ==> vgc.PVList() == Survivors(old(vgc.PVList()), old(store.claims))
    ensures ok ==> Handled(old(vgc.PVList()), old(store.claims), vgc.PVList(), store.claims, store.marked)
    ensures Spared(old(vgc.PVList()), old(store.claims), if ok then vgc.PVList() else [],
                   store.claims, old(store.marked), store.marked)
    ensures old(store.faults) == [] ==> ok
  {
    hide TurnInvariant, TurnEffect, UniqueNames, OneClaimPerVolume, Survivors, Accounted, NextPast, NextKept, NextP;
    hide Spared, Handled, Owns, ClaimGone;
    var ranged, total := vgc.volumes, vgc.count;
    ghost var s, before := vgc.PVList(), store.claims;
    ghost var past, kept: seq<PV>, p := false, [], 0;
    var i := 0;
    ghost var was := store.marked;
    TurnStart(s, before, ranged[..], was);
    NothingSpared(s, before, was);
    while i < total
      invariant 0 <= i <= total == |s|
      invariant vgc.Valid() && vgc.volumes == ranged
      invariant old(store.faults) == [] ==> store.faults == []
      invariant UniqueNames(vgc.PVList()) && total <= ranged.Length
      invariant TurnInvariant(s, before, ranged[..], vgc.count, store.claims, store.marked, i, past, kept, p)
      invariant Spared(s, before, ranged[..][..vgc.count], store.claims, was, store.marked)
    {
      ghost var slots, count, claims, marked := ranged[..], vgc.count, store.claims, store.marked;
      var pv := ranged[i];
      TurnReadsEntry(s, before, slots, count, claims, marked, i, past, kept, p);
      ok := HandleVolume(vgc, store, pv);
      if !ok {
        SparedFailure(s, before, slots[..count], was, pv, claims, marked, store.claims, store.marked);
        return;
      }
      SparedSuccess(s, before, was, pv, slots, count, claims, marked,
                    ranged[..], vgc.count, store.claims, store.marked);
      Turn(s, before, slots, count, claims, marked, i, past, kept, p,
           ranged[..], vgc.count, store.claims, store.marked);
      past, kept, p := NextPast(s, before, past, p), NextKept(s, before, past, kept, p), NextP(s, before, past, p);
      i := i + 1;
      TurnUnique(s, before, ranged[..], vgc.count, store.claims, store.marked, i, past, kept, p);
      assert vgc.PVList() == ranged[..][..vgc.count];
    }
    TurnEnd(s, before, ranged[..], vgc.count, store.claims, store.marked, past, kept, p);
    AccountedIsHandled(s, before, ranged[..][..vgc.count], store.claims, store.marked);
    assert vgc.PVList() == ranged[..][..vgc.count];
    ok := true;
  }

  lemma TurnReadsEntry(s: seq<PV>, before: seq<PVC>, slots: seq<PV>, count: nat, claims: seq<PVC>, marked: set<Key>,
                       i: nat, past: bool, kept: seq<PV>, p: nat)
    requires TurnInvariant(s, before, slots, count, claims, marked, i, past, kept, p) && i < |s|
    ensures count <= |slots| && UniqueNames(slots[..count]) && slots[i] in s
  {
    TurnRead(s, before, slots, count, claims, marked, i, past, kept, p);
    ReadInEntry(s, past, p);
  }

  lemma NothingSpared(s: seq<PV>, claims: seq<PVC>, was: set<Key>)
    ensures Spared(s, claims, s, claims, was, was)
  {
  }

  lemma TurnUnique(s: seq<PV>, before: seq<PVC>, slots: seq<PV>, count: nat, claims: seq<PVC>, marked: set<Key>,
                   i: nat, past: bool, kept: seq<PV>, p: nat)
    requires TurnInvariant(s, before, slots, count, claims, marked, i, past, kept, p)
    ensures count <= |slots| && UniqueNames(slots[..count])
  {
  }

  // ---- what the survivors are ----

  lemma RemoveBehind(x: PV, s: seq<PV>, name: string)
    requires x.name != name
    ensures RemovePV([x] + s, name) == [x] + RemovePV(s, name)
  {
  }

  lemma UnfoldKept(s: seq<PV>, claims: seq<PVC>)
    requires UniqueNames(s) && |s| > 1 && !HasClaim(s[0], claims)
    ensures Survivors(s, claims) == [s[0]] + Survivors(s[1..], claims)
  {
    var z, rest := s[|s| - 1], Walk(s[1..], claims);
    assert s[1..][|s| - 2] == z && s[0].name != z.name;
    assert Walk(s, claims) == [s[0]] + rest;
    hide Walk, UniqueNames, RemovePV;
    RemoveBehind(s[0], rest, z.name);
  }

  lemma UnfoldHandled(s: seq<PV>, claims: seq<PVC>)
    requires UniqueNames(s) && |s| > 2 && HasClaim(s[0], claims)
    ensures Survivors(s, claims) == [s[1]] + Survivors(s[2..], claims)
  {
    var z, rest := s[|s| - 1], Walk(s[2..], claims);
    assert s[2..][|s| - 3] == z && s[1].name != z.name;
    assert Walk(s, claims) == [s[1]] + rest;
    hide Walk, UniqueNames, RemovePV;
    RemoveBehind(s[1], rest, z.name);
  }

  lemma UnfoldTwo(s: seq<PV>, claims: seq<PVC>)
    requires UniqueNames(s) && |s| == 2 && HasClaim(s[0], claims)
    ensures Survivors(s, claims) == if HasClaim(s[1], claims) then [] else [s[1]]
  {
    assert s[2..] == [] && Walk(s, claims) == [s[1]];
  }

  /** The survivors, two volumes at a time. */
  lemma SurvivorsUnfold(s: seq<PV>, claims: seq<PVC>)
    requires UniqueNames(s) && s != []
    ensures !HasClaim(s[0], claims) ==> Survivors(s, claims) == [s[0]] + Survivors(s[1..], claims)
    ensures HasClaim(s[0], claims) && |s| == 1 ==> Survivors(s, claims) == []
    ensures HasClaim(s[0], claims) && |s| == 2 ==> Survivors(s, claims) == if HasClaim(s[1], claims) then [] else [s[1]]
    ensures HasClaim(s[0], claims) && |s| > 2 ==> Survivors(s, claims) == [s[1]] + Survivors(s[2..], claims)
  {
    if |s| == 1 {
      assert s[1..] == [] && Walk([], claims) == [];
    } else if !HasClaim(s[0], claims) {
      UnfoldKept(s, claims);
      hide Survivors, HasClaim;
    } else if |s| == 2 {
      UnfoldTwo(s, claims);
      hide Survivors, HasClaim;
    } else {
      UnfoldHandled(s, claims);
      hide Survivors, HasClaim;
    }
  }

  /** When every volume has a claim, exactly the odd positions other than the last one survive:
      of three or more volumes position 1 is never handled. */
  lemma {:induction false} OddPositionsSurvive(s: seq<PV>, claims: seq<PVC>)
    requires UniqueNames(s) && forall q :: q in s ==> HasClaim(q, claims)
    ensures |Survivors(s, claims)| == if s == [] then 0 else (|s| - 1) / 2
    ensures forall j :: 0 <= j < |Survivors(s, claims)| ==> Survivors(s, claims)[j] == s[2 * j + 1]
    decreases |s|
  {
    if s != [] {
      SurvivorsUnfold(s, claims);
      if |s| > 2 {
        OddPositionsSurvive(s[2..], claims);
        hide Survivors, HasClaim, UniqueNames;
        ShiftByTwo(s, Survivors(s, claims), Survivors(s[2..], claims));
      }
    }
  }

  lemma ShiftByTwo(s: seq<PV>, left: seq<PV>, rest: seq<PV>)
    requires |s| > 2 && left == [s[1]] + rest && |rest| == (|s| - 3) / 2
    requires forall j :: 0 <= j < |rest| ==> rest[j] == s[2..][2 * j + 1]
    ensures forall j :: 0 <= j < |left| ==> left[j] == s[2 * j + 1]
  {
  }

  /** No two neighbours both have a claim, the last two positions excepted. */
  ghost predicate ClaimsApart(s: seq<PV>, claims: seq<PVC>) {
    forall i :: 0 <= i && i + 2 < |s| && HasClaim(s[i], claims) ==> !HasClaim(s[i + 1], claims)
  }

  lemma {:induction false} IntendedMembers(s: seq<PV>, claims: seq<PVC>)
    ensures forall q :: q in Intended(s, claims) ==> !HasClaim(q, claims)
  {
    if s != [] { IntendedMembers(s[1..], claims); }
  }

  lemma ClaimsApartTail(s: seq<PV>, claims: seq<PVC>, n: nat)
    requires 1 <= n <= |s|
    requires n == 1 ==> !HasClaim(s[0], claims)
    requires n == 2 ==> !HasClaim(s[1], claims)
    requires n <= 2
    ensures ClaimsApart(s, claims) <==> ClaimsApart(s[n..], claims)
  {
  }

  /** The loop leaves what it is meant to leave, the volumes without a claim, exactly when no two
      neighbouring volumes before the last position both have a claim. */
  lemma {:induction false} IntendedExactlyWhenApart(s: seq<PV>, claims: seq<PVC>)
    requires UniqueNames(s)
    ensures Survivors(s, claims) == Intended(s, claims) <==> ClaimsApart(s, claims)
    decreases |s|
  {
    if s != [] {
      SurvivorsUnfold(s, claims);
      if !HasClaim(s[0], claims) {
        IntendedExactlyWhenApart(s[1..], claims);
        ClaimsApartTail(s, claims, 1);
        ConsEqual(s[0], Survivors(s[1..], claims), Intended(s[1..], claims));
      } else if |s| > 2 {
        assert s[1..][1..] == s[2..] && s[1..][0] == s[1];
        if HasClaim(s[1], claims) {
          IntendedMembers(s, claims);
          assert s[1] in Survivors(s, claims);
        } else {
          IntendedExactlyWhenApart(s[2..], claims);
          ClaimsApartTail(s, claims, 2);
          ConsEqual(s[1], Survivors(s[2..], claims), Intended(s[2..], claims));
        }
      } else if |s| == 2 {
        assert s[1..][1..] == [] && s[1..][0] == s[1];
        assert Intended(s[1..], claims) == if HasClaim(s[1], claims) then [] else [s[1]];
      }
    }
  }

  lemma ConsEqual(x: PV, a: seq<PV>, b: seq<PV>)
    ensures [x] + a == [x] + b <==> a == b
  {
    assert ([x] + a)[1..] == a && ([x] + b)[1..] == b;
  }
}
