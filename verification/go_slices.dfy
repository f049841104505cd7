/** Go slices as the source uses them: a length-`n` view of a backing array. */
module GoSlices {

  /** `append(a[:index], a[index+1:]...)`: the tail moves one place down inside the same backing
      array, and the slot freed at the end keeps its old value. */
  method RemoveByIndex<T>(a: array<T>, n: nat, index: nat) returns (m: nat)
    requires index < n <= a.Length
    modifies a
    ensures m == n - 1
    ensures a[..] == old(a[..index]) + old(a[index + 1..n]) + old(a[n - 1..])
  {
    forall k | index <= k < n - 1 {
      a[k] := a[k + 1];
    }
    m := n - 1;
  }

  /** `append(a[:n], x)`: in place while there is room, otherwise in a new, larger array. */
  method Append<T>(a: array<T>, n: nat, x: T) returns (b: array<T>, m: nat)
    requires n <= a.Length
    modifies a
    ensures m == n + 1 && m <= b.Length
    ensures b[..m] == old(a[..n]) + [x]
    ensures n < a.Length ==> b == a
    ensures n == a.Length ==> fresh(b) && a[..] == old(a[..])
  {
    if n < a.Length {
      a[n] := x;
      b := a;
    } else {
      b := new T[2 * n + 1](i requires 0 <= i reads a => if i < n then a[i] else x);
    }
    m := n + 1;
  }
}
