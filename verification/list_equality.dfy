/** IsPVCListEqual: the two claim lists are sorted by name only, with a stable sort, and then
    compared element by element. */
module ListEquality {
  import opened Kube

  /** A Go slice of claims: nil and empty are different values. */
  datatype Slice = Slice(isNil: bool, items: seq<PVC>)

  ghost predicate WellFormed(s: Slice) {
    s.isNil ==> s.items == []
  }

  /** The byte-wise order of Go strings. */
  predicate Less(a: string, b: string) {
    if b == "" then false
    else if a == "" then true
    else a[0] < b[0] || (a[0] == b[0] && Less(a[1..], b[1..]))
  }

  function Insert(p: PVC, s: seq<PVC>): seq<PVC> {
    if s == [] || !Less(s[0].name, p.name) then [p] + s
    else [s[0]] + Insert(p, s[1..])
  }

  /** A stable sort by name: equal names keep their relative order. */
  function SortByName(s: seq<PVC>): seq<PVC> {
    if s == [] then [] else Insert(s[0], SortByName(s[1..]))
  }

  predicate IsPVCListEqual(x: Slice, y: Slice) {
    x.isNil == y.isNil && SortByName(x.items) == SortByName(y.items)
  }

  /** The claims of `s` called `n`, whatever their namespace, in their order. */
  function Named(s: seq<PVC>, n: string): seq<PVC> {
    if s == [] then []
    else (if s[0].name == n then [s[0]] else []) + Named(s[1..], n)
  }

  ghost predicate Sorted(s: seq<PVC>) {
    forall i, j :: 0 <= i < j < |s| ==> !Less(s[j].name, s[i].name)
  }

  // ---- the order ----

  lemma {:induction false} LessIrreflexive(a: string)
    ensures !Less(a, a)
  {
    if a != "" { LessIrreflexive(a[1..]); }
  }

  lemma {:induction false} LessTotal(a: string, b: string)
    ensures a == b || Less(a, b) || Less(b, a)
  {
    if a != "" && b != "" && a[0] == b[0] {
      LessTotal(a[1..], b[1..]);
      if a[1..] == b[1..] {
        assert a == [a[0]] + a[1..] == [b[0]] + b[1..] == b;
      }
    }
  }

  lemma {:induction false} LessTransitive(a: string, b: string, c: string)
    requires Less(a, b) && Less(b, c)
    ensures Less(a, c)
  {
    if a != "" && a[0] == b[0] == c[0] {
      LessTransitive(a[1..], b[1..], c[1..]);
    }
  }

  lemma NotLessTransitive(a: string, b: string, c: string)
    requires !Less(b, a) && !Less(c, b)
    ensures !Less(c, a)
  {
  }

  // ---- the sort ----

  lemma {:induction false} InsertMembers(p: PVC, s: seq<PVC>)
    ensures multiset(Insert(p, s)) == multiset{p} + multiset(s)
  {
    if s != [] {
      assert s == [s[0]] + s[1..];
      if Less(s[0].name, p.name) {
        InsertMembers(p, s[1..]);
      }
    }
  }

  lemma {:induction false} SortMembers(s: seq<PVC>)
    ensures multiset(SortByName(s)) == multiset(s)
  {
    if s != [] {
      SortMembers(s[1..]);
      InsertMembers(s[0], SortByName(s[1..]));
      assert s == [s[0]] + s[1..];
    }
  }

  lemma SortedCons(p: PVC, s: seq<PVC>)
    requires Sorted(s)
    requires forall q :: q in s ==> !Less(q.name, p.name)
    ensures Sorted([p] + s)
  {
  }

  lemma {:induction false} InsertSorted(p: PVC, s: seq<PVC>)
    requires Sorted(s)
    ensures Sorted(Insert(p, s))
  {
    if s == [] {
    } else if !Less(s[0].name, p.name) {
      forall q | q in s ensures !Less(q.name, p.name) {
        var i :| 0 <= i < |s| && s[i] == q;
        LessIrreflexive(s[0].name);
        NotLessTransitive(p.name, s[0].name, q.name);
      }
      SortedCons(p, s);
    } else {
      InsertSorted(p, s[1..]);
      InsertMembers(p, s[1..]);
      forall q | q in Insert(p, s[1..]) ensures !Less(q.name, s[0].name) {
        assert q in multiset(Insert(p, s[1..]));
        if q == p {
          if Less(p.name, s[0].name) {
            LessTransitive(s[0].name, p.name, s[0].name);
            LessIrreflexive(s[0].name);
          }
        } else {
          assert q in s[1..];
        }
      }
      SortedCons(s[0], Insert(p, s[1..]));
    }
  }

  lemma {:induction false} SortSorts(s: seq<PVC>)
    ensures Sorted(SortByName(s))
  {
    if s != [] {
      SortSorts(s[1..]);
      InsertSorted(s[0], SortByName(s[1..]));
    }
  }

  lemma {:induction false} InsertNamed(p: PVC, s: seq<PVC>, n: string)
    ensures Named(Insert(p, s), n) == (if p.name == n then [p] else []) + Named(s, n)
  {
    if s == [] || !Less(s[0].name, p.name) {
      assert ([p] + s)[1..] == s;
    } else {
      InsertNamed(p, s[1..], n);
      LessIrreflexive(p.name);
      assert ([s[0]] + Insert(p, s[1..]))[1..] == Insert(p, s[1..]);
    }
  }

  lemma {:induction false} SortNamed(s: seq<PVC>, n: string)
    ensures Named(SortByName(s), n) == Named(s, n)
  {
    if s != [] {
      SortNamed(s[1..], n);
      InsertNamed(s[0], SortByName(s[1..]), n);
    }
  }

  lemma {:induction false} NamedEmpty(s: seq<PVC>, n: string)
    ensures Named(s, n) == [] <==> forall p :: p in s ==> p.name != n
  {
    if s != [] {
      NamedEmpty(s[1..], n);
      assert s == [s[0]] + s[1..];
    }
  }

  lemma NoNames(s: seq<PVC>)
    requires forall n :: Named(s, n) == []
    ensures s == []
  {
    if s != [] {
      NamedEmpty(s, s[0].name);
    }
  }

  /** The first claim of a sorted list has the least name, so equal per-name sublists force
      equal sorted lists. */
  lemma {:induction false} SortedIsDetermined(x: seq<PVC>, y: seq<PVC>)
    requires Sorted(x) && Sorted(y)
    requires forall n :: Named(x, n) == Named(y, n)
    ensures x == y
    decreases |x|
  {
    if x == [] {
      forall n ensures Named(y, n) == [] {
        assert Named(x, n) == [];
      }
      NoNames(y);
    } else {
      HeadsAgree(x, y);
      TailsAgree(x, y);
      SortedIsDetermined(x[1..], y[1..]);
      assert x == [x[0]] + x[1..] && y == [y[0]] + y[1..];
    }
  }

  lemma HeadsAgree(x: seq<PVC>, y: seq<PVC>)
    requires Sorted(x) && Sorted(y) && x != []
    requires forall n :: Named(x, n) == Named(y, n)
    ensures y != [] && x[0] == y[0]
  {
    NamedEmpty(x, x[0].name);
    NamedEmpty(y, x[0].name);
    NamedEmpty(y, y[0].name);
    NamedEmpty(x, y[0].name);
    assert y[0].name == x[0].name by {
      var i :| 0 <= i < |y| && y[i].name == x[0].name;
      var j :| 0 <= j < |x| && x[j].name == y[0].name;
      LessTotal(x[0].name, y[0].name);
    }
    assert Named(x, x[0].name)[0] == x[0] && Named(y, x[0].name)[0] == y[0];
  }

  lemma TailsAgree(x: seq<PVC>, y: seq<PVC>)
    requires x != [] && y != [] && x[0] == y[0]
    requires forall n :: Named(x, n) == Named(y, n)
    ensures forall n :: Named(x[1..], n) == Named(y[1..], n)
  {
    forall n ensures Named(x[1..], n) == Named(y[1..], n) {
      var head := if x[0].name == n then [x[0]] else [];
      assert Named(x, n) == head + Named(x[1..], n) && Named(y, n) == head + Named(y[1..], n);
      assert Named(x[1..], n) == (head + Named(x[1..], n))[|head|..];
      assert Named(y[1..], n) == (head + Named(y[1..], n))[|head|..];
    }
  }

  // ---- what equality means ----

  ghost predicate SamePerName(x: seq<PVC>, y: seq<PVC>) {
    forall n :: Named(x, n) == Named(y, n)
  }

  lemma EqualSortsSamePerName(x: seq<PVC>, y: seq<PVC>)
    requires SortByName(x) == SortByName(y)
    ensures SamePerName(x, y)
  {
    forall n ensures Named(x, n) == Named(y, n) {
      SortNamed(x, n);
      SortNamed(y, n);
    }
  }

  lemma SamePerNameEqualSorts(x: seq<PVC>, y: seq<PVC>)
    requires SamePerName(x, y)
    ensures SortByName(x) == SortByName(y)
  {
    SortSorts(x);
    SortSorts(y);
    forall n ensures Named(SortByName(x), n) == Named(SortByName(y), n) {
      SortNamed(x, n);
      SortNamed(y, n);
    }
    SortedIsDetermined(SortByName(x), SortByName(y));
  }

  /** Exactly when the lists are equal for the code: same nil-ness, and for every name the
      claims of that name, over all namespaces, stand in the same order. */
  lemma EqualMeansSameOrderPerName(x: Slice, y: Slice)
    ensures IsPVCListEqual(x, y) <==> x.isNil == y.isNil && SamePerName(x.items, y.items)
  {
    if SortByName(x.items) == SortByName(y.items) {
      EqualSortsSamePerName(x.items, y.items);
    }
    if SamePerName(x.items, y.items) {
      SamePerNameEqualSorts(x.items, y.items);
    }
  }

  /** Equal lists are permutations of each other, so they hold the same keys. */
  lemma EqualIsPermutation(x: Slice, y: Slice)
    requires IsPVCListEqual(x, y)
    ensures multiset(x.items) == multiset(y.items)
    ensures Keys(x.items) == Keys(y.items)
  {
    SortMembers(x.items);
    SortMembers(y.items);
    PermutationKeys(x.items, y.items);
  }

  lemma {:induction false} CountedOnce(s: seq<PVC>, p: PVC)
    requires UniqueKeys(s)
    ensures multiset(s)[p] == if p in s then 1 else 0
  {
    if s != [] {
      UniqueTail(s);
      CountedOnce(s[1..], p);
      assert s == [s[0]] + s[1..];
      if p == s[0] {
        assert KeyOf(p) !in Keys(s[1..]);
      }
    }
  }

  lemma CountedTwice(s: seq<PVC>, i: nat, j: nat)
    requires i < j < |s|
    ensures multiset(s)[s[i]] >= if s[i] == s[j] then 2 else 1
  {
    assert s == s[..i] + [s[i]] + s[i + 1..j] + [s[j]] + s[j + 1..];
  }

  lemma PermutationUnique(a: seq<PVC>, b: seq<PVC>)
    requires multiset(a) == multiset(b) && UniqueKeys(a)
    ensures UniqueKeys(b)
  {
    forall i, j | 0 <= i < j < |b| ensures KeyOf(b[i]) != KeyOf(b[j]) {
      assert b[i] in multiset(b) && b[j] in multiset(b);
      var m: nat :| m < |a| && a[m] == b[i];
      var n: nat :| n < |a| && a[n] == b[j];
      CountedOnce(a, b[i]);
      CountedTwice(b, i, j);
    }
  }

  lemma PermutationKeys(a: seq<PVC>, b: seq<PVC>)
    requires multiset(a) == multiset(b)
    ensures Keys(a) == Keys(b)
  {
    forall p ensures p in a <==> p in b {
      assert p in multiset(a) <==> p in multiset(b);
    }
  }

  /** Conversely every permutation is accepted when no name is used twice. */
  lemma PermutationIsEqual(x: Slice, y: Slice)
    requires WellFormed(x) && WellFormed(y) && x.isNil == y.isNil
    requires multiset(x.items) == multiset(y.items)
    requires forall i, j :: 0 <= i < j < |x.items| ==> x.items[i].name != x.items[j].name
    ensures IsPVCListEqual(x, y)
  {
    forall n ensures Named(x.items, n) == Named(y.items, n) {
      NamedCount(x.items, n);
      NamedCount(y.items, n);
      assert forall p :: multiset(Named(x.items, n))[p] == multiset(Named(y.items, n))[p];
      NamedAtMostOne(x.items, n);
      AtMostOneOrder(Named(x.items, n), Named(y.items, n));
    }
    EqualMeansSameOrderPerName(x, y);
  }

  lemma {:induction false} NamedCount(s: seq<PVC>, n: string)
    ensures forall p :: multiset(Named(s, n))[p] == if p.name == n then multiset(s)[p] else 0
  {
    if s != [] {
      NamedCount(s[1..], n);
      assert s == [s[0]] + s[1..];
    }
  }

  lemma {:induction false} NamedAtMostOne(s: seq<PVC>, n: string)
    requires forall i, j :: 0 <= i < j < |s| ==> s[i].name != s[j].name
    ensures |Named(s, n)| <= 1
  {
    if s != [] {
      NamedAtMostOne(s[1..], n);
      if s[0].name == n {
        NamedEmpty(s[1..], n);
      }
    }
  }

  lemma AtMostOneOrder(s: seq<PVC>, t: seq<PVC>)
    requires multiset(s) == multiset(t) && |s| <= 1
    ensures s == t
  {
    assert |multiset(s)| == |s| && |multiset(t)| == |t|;
    if s != [] {
      assert s[0] in multiset(t);
    }
  }

  /** Two claims of one name in two namespaces: the swapped list is a permutation of the same
      set of claims, and the code calls it different. */
  lemma SwappedNamespacesDiffer()
    ensures exists x: Slice, y: Slice ::
      WellFormed(x) && WellFormed(y) && multiset(x.items) == multiset(y.items) && !IsPVCListEqual(x, y)
  {
    var p := PVC("a", "data", map[], Bound, "pv1", None, [], 1);
    var q := PVC("b", "data", map[], Bound, "pv2", None, [], 1);
    var x, y := Slice(false, [p, q]), Slice(false, [q, p]);
    EqualMeansSameOrderPerName(x, y);
    assert Named([p, q], "data")[0] == p && Named([q, p], "data")[0] == q;
    assert multiset(x.items) == multiset(y.items);
    assert !IsPVCListEqual(x, y);
  }
}
