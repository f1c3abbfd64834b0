// Counted child lists. A pointer to a list cell is the part of the list that starts at that cell.
module Lists {
  import opened Base

  // Unlinks `v` and lowers both counters. The cells behind the head are searched before the head.
  method RmChild<T(==)>(v: T, l: seq<T>, n: nat, f: nat) returns (l': seq<T>, n': nat, f': nat)
    ensures Distinct(l) ==> l' == Remove(l, v)
    ensures v in l ==> exists k :: 0 <= k < |l| && l[k] == v && l' == l[..k] + l[k + 1..]
    ensures v !in l ==> l' == l
    ensures n' == (if v in l && n > 0 then n - 1 else n)
    ensures f' == (if v in l && f > 0 then f - 1 else f)
  {
    l', n', f' := l, n, f;
    if l == [] { return; }
    var k := 0;
    var i := 0;
    var found := false;
    while i + 1 < |l|
      invariant 0 <= i < |l|
      invariant forall j :: 0 < j <= i ==> l[j] != v
      invariant !found
    {
      if l[i + 1] == v {
        k, found := i + 1, true;
        break;
      }
      i := i + 1;
    }
    if !found && l[0] == v {
      k, found := 0, true;
    }
    if !found { return; }
    if n > 0 { n' := n - 1; }
    if f > 0 { f' := f - 1; }
    l' := l[..k] + l[k + 1..];
    if Distinct(l) { RemoveAt(l, k); }
  }

  // The list from its first free element on, when `f` of its `n` elements are free.
  method GetFree<T>(l: seq<T>, n: nat, f: nat) returns (c: seq<T>)
    ensures f == 0 || f > n || n - f >= |l| ==> c == []
    ensures 0 < f <= n && n - f < |l| ==> c == l[n - f..]
  {
    if l == [] || f == 0 || f > n { return []; }
    c := l;
    var i := n - f;
    while c != [] && i > 0
      invariant 0 <= i <= n - f
      invariant n - f - i <= |l| && c == l[n - f - i..]
    {
      c := c[1..];
      i := i - 1;
    }
  }
}
