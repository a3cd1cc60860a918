/** The iteration order of string-keyed maps: ascending by code point. */
module Ordered {

  /** Lexicographic order on strings. */
  predicate Below(a: string, b: string) {
    if a == "" then b != ""
    else b != "" && (a[0] < b[0] || (a[0] == b[0] && Below(a[1..], b[1..])))
  }

  lemma {:induction false} BelowTrichotomy(a: string, b: string)
    ensures a == b || Below(a, b) || Below(b, a)
    ensures !(Below(a, b) && Below(b, a))
    ensures !Below(a, a)
  {
    if a != "" {
      BelowTrichotomy(a[1..], a[1..]);
      if b != "" {
        BelowTrichotomy(a[1..], b[1..]);
        assert a == [a[0]] + a[1..] && b == [b[0]] + b[1..];
      }
    }
  }

  lemma SameHead(a: string, b: string, k: nat)
    requires k <= |a| && k <= |b| && a[..k] == b[..k]
    ensures k > 0 ==> a[0] == b[0]
  {
    if k > 0 {
      assert a[..k][0] == b[..k][0];
    }
  }

  /** The two first differ at k, and there the first one ends or has the smaller character. */
  predicate DiffersAt(a: string, b: string, k: int) {
    0 <= k <= |a| && k < |b| && a[..k] == b[..k] && (k == |a| || a[k] < b[k])
  }

  lemma DiffersLater(a: string, b: string, k: int)
    requires a != "" && b != "" && a[0] == b[0]
    ensures DiffersAt(a[1..], b[1..], k) <==> k >= 0 && DiffersAt(a, b, k + 1)
  {
    if 0 <= k < |a| && k < |b| {
      assert a[..k + 1] == [a[0]] + a[1..][..k] && b[..k + 1] == [b[0]] + b[1..][..k];
      assert a[..k + 1][1..] == a[1..][..k] && b[..k + 1][1..] == b[1..][..k];
    }
  }

  /** The order is told by the first place where the two differ; a proper beginning comes first. */
  lemma {:induction false} BelowExact(a: string, b: string)
    ensures Below(a, b) <==> exists k :: DiffersAt(a, b, k)
  {
    if a != "" && b != "" && a[0] == b[0] {
      BelowExact(a[1..], b[1..]);
      if Below(a[1..], b[1..]) {
        var k :| DiffersAt(a[1..], b[1..], k);
        DiffersLater(a, b, k);
        assert DiffersAt(a, b, k + 1);
      }
      if k :| DiffersAt(a, b, k) {
        DiffersLater(a, b, k - 1);
        assert k > 0;
      }
    } else if b != "" {
      assert DiffersAt(a, b, 0) <==> Below(a, b);
      if k :| DiffersAt(a, b, k) {
        SameHead(a, b, k);
      }
    }
  }

  lemma {:induction false} BelowTransitive(a: string, b: string, c: string)
    requires Below(a, b) && Below(b, c)
    ensures Below(a, c)
  {
    if a != "" && a[0] == b[0] == c[0] {
      BelowTransitive(a[1..], b[1..], c[1..]);
    }
  }

  predicate Least(k: string, s: set<string>) {
    k in s && forall other :: other in s && other != k ==> Below(k, other)
  }

  lemma {:induction false} LeastExists(s: set<string>)
    requires s != {}
    ensures exists k :: Least(k, s)
  {
    var x :| x in s;
    if s == {x} {
      assert Least(x, s);
    } else {
      LeastExists(s - {x});
      var k :| Least(k, s - {x});
      BelowTrichotomy(k, x);
      if Below(k, x) {
        assert Least(k, s);
      } else {
        forall other | other in s && other != x ensures Below(x, other) {
          if other != k {
            BelowTransitive(x, k, other);
          }
        }
        assert Least(x, s);
      }
    }
  }

  lemma LeastUnique(s: set<string>)
    ensures forall a, b :: Least(a, s) && Least(b, s) ==> a == b
  {
    forall a, b | Least(a, s) && Least(b, s) ensures a == b {
      BelowTrichotomy(a, b);
    }
  }

  /** The elements of a set in ascending order. */
  function Sorted(s: set<string>): (keys: seq<string>)
    ensures forall k :: k in keys <==> k in s
    ensures forall i, j :: 0 <= i < j < |keys| ==> Below(keys[i], keys[j])
    ensures |keys| == |s|
  {
    if s == {} then []
    else
      LeastExists(s);
      LeastUnique(s);
      var k :| Least(k, s);
      [k] + Sorted(s - {k})
  }

  lemma SortedDistinct(s: set<string>)
    ensures forall i, j :: 0 <= i < j < |Sorted(s)| ==> Sorted(s)[i] != Sorted(s)[j]
  {
    var keys := Sorted(s);
    forall i, j | 0 <= i < j < |keys| ensures keys[i] != keys[j] {
      BelowTrichotomy(keys[i], keys[j]);
    }
  }
}
