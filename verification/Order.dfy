/** Python's string order, by code points, and sorting by a strict total order. */
module Order {

  predicate Less(a: string, b: string) {
    if a == "" then b != ""
    else if b == "" then false
    else a[0] < b[0] || (a[0] == b[0] && Less(a[1..], b[1..]))
  }

  lemma {:induction false} LessIrreflexive(a: string)
    ensures !Less(a, a)
  {
    if a != "" {
      LessIrreflexive(a[1..]);
    }
  }

  lemma {:induction false} LessTransitive(a: string, b: string, c: string)
    requires Less(a, b) && Less(b, c)
    ensures Less(a, c)
  {
    if a != "" && a[0] == b[0] && b[0] == c[0] {
      LessTransitive(a[1..], b[1..], c[1..]);
    }
  }

  lemma {:induction false} LessTotal(a: string, b: string)
    ensures Less(a, b) || a == b || Less(b, a)
  {
    if a != "" && b != "" && a[0] == b[0] {
      LessTotal(a[1..], b[1..]);
      TailPrefix(a, b);
    }
  }

  /** A common prefix decides nothing. */
  lemma {:induction false} LessAfterPrefix(p: string, a: string, b: string)
    ensures Less(p + a, p + b) <==> Less(a, b)
  {
    if p == "" {
      assert p + a == a && p + b == b;
    } else {
      assert (p + a)[1..] == p[1..] + a && (p + b)[1..] == p[1..] + b;
      LessAfterPrefix(p[1..], a, b);
    }
  }

  lemma TailPrefix(a: string, b: string)
    requires a != "" && b != "" && a[0] == b[0]
    ensures (a <= b <==> a[1..] <= b[1..]) && (a == b <==> a[1..] == b[1..])
  {
    assert a == [a[0]] + a[1..] && b == [b[0]] + b[1..];
  }

  /** A proper difference inside both strings decides for all continuations. */
  lemma {:induction false} LessBeforeSuffix(a: string, b: string, x: string, y: string)
    requires Less(a, b) && !(a <= b)
    ensures Less(a + x, b + y)
  {
    assert a != "" && b != "";
    assert (a + x)[0] == a[0] && (b + y)[0] == b[0];
    if a[0] == b[0] {
      assert (a + x)[1..] == a[1..] + x && (b + y)[1..] == b[1..] + y;
      TailPrefix(a, b);
      LessBeforeSuffix(a[1..], b[1..], x, y);
    }
  }

  lemma {:induction false} PrefixIsLess(a: string, b: string)
    requires a <= b && a != b
    ensures Less(a, b)
  {
    if a != "" {
      TailPrefix(a, b);
      PrefixIsLess(a[1..], b[1..]);
    }
  }

  // ---------------------------------------------------------------- sorting

  ghost predicate StrictTotal<T(!new)>(before: (T, T) -> bool) {
    && (forall a :: !before(a, a))
    && (forall a, b, c :: before(a, b) && before(b, c) ==> before(a, c))
    && (forall a, b :: before(a, b) || a == b || before(b, a))
  }

  predicate Ascending<T>(s: seq<T>, before: (T, T) -> bool) {
    forall i, j :: 0 <= i < j < |s| ==> before(s[i], s[j])
  }

  /** A set has one ascending enumeration. */
  lemma {:induction false} AscendingUnique<T(!new)>(s: seq<T>, t: seq<T>, before: (T, T) -> bool)
    requires StrictTotal(before) && Ascending(s, before) && Ascending(t, before)
    requires forall x :: x in s <==> x in t
    ensures s == t
  {
    if s == [] {
      assert forall i :: 0 <= i < |t| ==> t[i] in t;
    } else {
      assert s[0] in t && t[0] in s;
      assert s[0] == t[0];
      forall x ensures x in s[1..] <==> x in t[1..] {
        assert x in s[1..] ==> x in s && x != s[0];
        assert x in t[1..] ==> x in t && x != t[0];
      }
      AscendingUnique(s[1..], t[1..], before);
      assert s == [s[0]] + s[1..] && t == [t[0]] + t[1..];
    }
  }

  /** `sorted` on distinct keys. */
  method Sort<T(==, !new)>(items: seq<T>, before: (T, T) -> bool) returns (sorted: seq<T>)
    requires StrictTotal(before) && forall i, j :: 0 <= i < j < |items| ==> items[i] != items[j]
    ensures Ascending(sorted, before) && |sorted| == |items| && forall x :: x in sorted <==> x in items
  {
    sorted := [];
    for n := 0 to |items|
      invariant Ascending(sorted, before) && |sorted| == n
      invariant forall x :: x in sorted <==> x in items[..n]
    {
      var k := 0;
      assert items[n] !in items[..n];
      while k < |sorted| && before(sorted[k], items[n])
        invariant k <= |sorted| && forall i :: 0 <= i < k ==> before(sorted[i], items[n])
      {
        k := k + 1;
      }
      InsertAscending(sorted, k, items[n], before);
      ghost var earlier := sorted;
      sorted := sorted[..k] + [items[n]] + sorted[k..];
      assert items[..n + 1] == items[..n] + [items[n]];
      assert earlier == earlier[..k] + earlier[k..];
    }
    assert items[..|items|] == items;
  }

  lemma InsertAscending<T(!new)>(s: seq<T>, k: nat, x: T, before: (T, T) -> bool)
    requires StrictTotal(before) && Ascending(s, before) && k <= |s| && x !in s
    requires forall i :: 0 <= i < k ==> before(s[i], x)
    requires k < |s| ==> !before(s[k], x)
    ensures Ascending(s[..k] + [x] + s[k..], before)
  {
    forall i | k <= i < |s| ensures before(x, s[i]) {
      assert s[k] != x && before(x, s[k]);
      assert i > k ==> before(s[k], s[i]);
    }
  }
}
