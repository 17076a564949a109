/**
 Byte strings in the order Git sorts the entries of a tree, and sorted lists of them.
 */
module GitOrder {
  type Byte = b: int | 0 <= b < 256
  type Bytes = seq<Byte>

  /** Lexicographic order; a proper prefix comes first. */
  predicate Less(a: Bytes, b: Bytes) {
    b != [] && (a == [] || a[0] < b[0] || (a[0] == b[0] && Less(a[1..], b[1..])))
  }

  lemma {:induction false} LessTransitive(a: Bytes, b: Bytes, c: Bytes)
    requires Less(a, b) && Less(b, c)
    ensures Less(a, c)
  {
    if a != [] && a[0] == b[0] && b[0] == c[0] { LessTransitive(a[1..], b[1..], c[1..]); }
  }

  lemma {:induction false} LessIrreflexive(a: Bytes)
    ensures !Less(a, a)
  {
    if a != [] { LessIrreflexive(a[1..]); }
  }

  lemma {:induction false} LessTotal(a: Bytes, b: Bytes)
    ensures a == b || Less(a, b) || Less(b, a)
  {
    if a != [] && b != [] && a[0] == b[0] {
      LessTotal(a[1..], b[1..]);
      if a[1..] == b[1..] { assert a == [a[0]] + a[1..] && b == [b[0]] + b[1..]; }
    }
  }

  predicate Ascending(q: seq<Bytes>) {
    forall i, j :: 0 <= i < j < |q| ==> Less(q[i], q[j])
  }

  /** An ascending list is determined by its elements. */
  lemma {:induction false} AscendingUnique(p: seq<Bytes>, q: seq<Bytes>)
    requires Ascending(p) && Ascending(q) && forall k :: k in p <==> k in q
    ensures p == q
  {
    assert (|p| > 0 ==> p[0] in q) && (|q| > 0 ==> q[0] in p);
    if p != [] {
      SameFirst(p, q);
      var x := p[0];
      forall k ensures k in p[1..] <==> k in q[1..] {
        LessIrreflexive(x);
        if k in p[1..] { assert k in q && k != x; }
        if k in q[1..] { assert k in p && k != x; }
      }
      AscendingUnique(p[1..], q[1..]);
      assert p == [x] + p[1..] && q == [x] + q[1..];
    }
  }

  lemma SameFirst(p: seq<Bytes>, q: seq<Bytes>)
    requires p != [] && q != [] && Ascending(p) && Ascending(q) && forall k :: k in p <==> k in q
    ensures p[0] == q[0]
  {
    assert p[0] in q && q[0] in p;
    if p[0] != q[0] {
      LessTransitive(p[0], q[0], p[0]);
      LessIrreflexive(p[0]);
    }
  }

  /** The least of a set of byte strings. */
  predicate Least(s: set<Bytes>, m: Bytes) {
    m in s && forall k :: k in s && k != m ==> Less(m, k)
  }

  lemma {:induction false} LeastExists(s: set<Bytes>)
    requires s != {}
    ensures exists m :: Least(s, m)
  {
    var x :| x in s;
    if s == {x} {
      assert Least(s, x);
    } else {
      LeastExists(s - {x});
      var r :| Least(s - {x}, r);
      LessTotal(x, r);
      var m := if Less(x, r) then x else r;
      forall k | k in s && k != m ensures Less(m, k) {
        if k != x && k != r && m == x { LessTransitive(x, r, k); }
      }
      assert Least(s, m);
    }
  }

  /** The elements of a set in ascending order. */
  ghost function Sorted(s: set<Bytes>): (q: seq<Bytes>)
    ensures Ascending(q) && |q| == |s| && forall k :: k in q <==> k in s
  {
    if s == {} then []
    else
      LeastExists(s);
      var m :| Least(s, m);
      [m] + Sorted(s - {m})
  }
}
