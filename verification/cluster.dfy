/** The store shared by both controllers, and the single writes of a membership update. */
module Cluster {
  import opened Kube

  datatype StorageClass = StorageClass(provisioner: string, hasVGParameter: bool)

  datatype Config = Config(driver: string, multipleVGsToPVC: string)

  /** The part of a VolumeGroup that membership is about. `content` names its VolumeGroupContent. */
  datatype VG = VG(
    className: string,
    selector: Selector,
    content: string,
    pvcList: seq<PVC>,
    deleting: bool,
    error: string)

  /** The part of a VolumeGroupContent that membership is about; `pvList` holds PV names. */
  datatype VGC = VGC(handle: string, pvList: seq<string>)

  /** API objects by key, PV name to volume handle, and the backend's group id to volume ids. */
  datatype World = World(
    config: Config,
    vgClasses: map<string, string>,
    storageClasses: map<string, StorageClass>,
    pvcs: map<Key, PVC>,
    pvs: map<string, string>,
    vgs: map<Key, VG>,
    vgcs: map<Key, VGC>,
    members: map<string, seq<string>>)

  /** Whether `g` is kept by the filter of GetVGList: its class exists and names this driver. */
  predicate Ours(w: World, g: Key) {
    g in w.vgs && w.vgs[g].className in w.vgClasses && w.vgClasses[w.vgs[g].className] == w.config.driver
  }

  /** Some group of the driver lists the claim `k`. */
  predicate Listed(w: World, k: Key) {
    exists g :: g in w.vgs && Ours(w, g) && k in Keys(w.vgs[g].pvcList)
  }

  function RemoveName(s: seq<string>, x: string): seq<string> {
    if s == [] then []
    else if s[0] == x then s[1..]
    else [s[0]] + RemoveName(s[1..], x)
  }

  function AppendName(s: seq<string>, x: string): seq<string> {
    if x in s then s else s + [x]
  }

  /** The single object updates of a membership synchronisation. */
  datatype Write =
    | DropPVC(g: Key, k: Key)
    | DropPV(c: Key, pv: string)
    | DropFinalizer(k: Key)
    | AppendClaim(g: Key, p: PVC)
    | AppendPV(c: Key, pv: string)
    | AddFinalizer(p: PVC)
    | ClearError(g: Key)

  /** The groups after one successful write. */
  function GroupsAfter(vgs: map<Key, VG>, x: Write): map<Key, VG> {
    match x
    case DropPVC(g, k) => if g in vgs then vgs[g := vgs[g].(pvcList := RemoveKey(vgs[g].pvcList, k))] else vgs
    case AppendClaim(g, p) => if g in vgs then vgs[g := vgs[g].(pvcList := AppendPVC(vgs[g].pvcList, p))] else vgs
    case ClearError(g) => if g in vgs then vgs[g := vgs[g].(error := "")] else vgs
    case _ => vgs
  }

  /** The contents after one successful write. */
  function ContentsAfter(vgcs: map<Key, VGC>, x: Write): map<Key, VGC> {
    match x
    case DropPV(c, pv) => if c in vgcs then vgcs[c := vgcs[c].(pvList := RemoveName(vgcs[c].pvList, pv))] else vgcs
    case AppendPV(c, pv) => if c in vgcs then vgcs[c := vgcs[c].(pvList := AppendName(vgcs[c].pvList, pv))] else vgcs
    case _ => vgcs
  }

  function WithFinalizers(p: PVC, finalizers: seq<string>): PVC {
    p.(finalizers := finalizers, resourceVersion := p.resourceVersion + 1)
  }

  /** The claim `k` without the protection finalizer, whoever lists it. */
  function Strip(pvcs: map<Key, PVC>, k: Key): map<Key, PVC>
    requires k in pvcs
  {
    pvcs[k := WithFinalizers(pvcs[k], RemoveAll(pvcs[k].finalizers, PVC_FINALIZER))]
  }

  /** isFinalizerShouldBeREmovedFromPVC: the claim has the finalizer and no group lists it. */
  predicate Removable(w: World, k: Key) {
    k in w.pvcs && PVC_FINALIZER in w.pvcs[k].finalizers && !Listed(w, k)
  }

  /** RemoveFinalizerFromPVC when nobody interferes. */
  function Release(w: World, k: Key): map<Key, PVC> {
    if Removable(w, k) then Strip(w.pvcs, k) else w.pvcs
  }

  /** Adds the protection finalizer from a snapshot `p`: nothing is written when the snapshot
      already carries it, and otherwise the list written is the snapshot's plus one entry. */
  function Protect(pvcs: map<Key, PVC>, p: PVC): map<Key, PVC> {
    if PVC_FINALIZER in p.finalizers || KeyOf(p) !in pvcs then pvcs
    else pvcs[KeyOf(p) := WithFinalizers(pvcs[KeyOf(p)], p.finalizers + [PVC_FINALIZER])]
  }

  /** The claims after one successful write. */
  function ClaimsAfter(w: World, x: Write): map<Key, PVC> {
    match x
    case DropFinalizer(k) => Release(w, k)
    case AddFinalizer(p) => Protect(w.pvcs, p)
    case _ => w.pvcs
  }

  /** The effect of one successful write. */
  function Apply(w: World, x: Write): World {
    w.(vgs := GroupsAfter(w.vgs, x), vgcs := ContentsAfter(w.vgcs, x), pvcs := ClaimsAfter(w, x))
  }

  const ERROR := "error"

  /** The status of `g` with another claim list. */
  function Stored(w: World, g: Key, list: seq<PVC>): World
    requires g in w.vgs
  {
    w.(vgs := w.vgs[g := w.vgs[g].(pvcList := list)])
  }

  /** The status of `g` with a claim list and an error message. */
  function Reported(w: World, g: Key, list: seq<PVC>, error: string): World
    requires g in w.vgs
  {
    w.(vgs := w.vgs[g := w.vgs[g].(pvcList := list, error := error)])
  }

  function ApplyAll(w: World, plan: seq<Write>): World
    decreases |plan|
  {
    if plan == [] then w else ApplyAll(Apply(w, plan[0]), plan[1..])
  }

  lemma {:induction false} ApplyAllConcat(w: World, a: seq<Write>, b: seq<Write>)
    ensures ApplyAll(w, a + b) == ApplyAll(ApplyAll(w, a), b)
    decreases |a|
  {
    if a == [] {
      assert a + b == b;
    } else {
      assert (a + b)[1..] == a[1..] + b;
      ApplyAllConcat(Apply(w, a[0]), a[1..], b);
    }
  }

  lemma ApplyAllOne(w: World, a: seq<Write>, x: Write)
    ensures ApplyAll(w, a + [x]) == Apply(ApplyAll(w, a), x)
  {
    ApplyAllConcat(w, a, [x]);
    var v := ApplyAll(w, a);
    assert ApplyAll(v, [x]) == ApplyAll(Apply(v, x), []);
  }
}
