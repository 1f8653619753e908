/**
 * Front/back facing classification of polygon vertices and the cyclic scan that
 * records silhouette boundaries (PointLight::getPenumbrasPoint, first half).
 */
module Facing {
  import opened Geometry

  /**
   * The signs of the four dot products computed for one vertex: the two tangent rays
   * through the vertex and the two through its successor, each against the normal of
   * the edge between them. Each field is `dot > 0`.
   */
  datatype DotSigns = DotSigns(first: bool, second: bool, firstNext: bool, secondNext: bool)

  /** The "both edges" criterion: both rays at one end of the edge are on the lit side. */
  function FacingBothEdges(d: DotSigns): (front: bool)
    ensures front ==> FacingOneEdge(d)
    ensures front <==> (d.first && d.second) || (d.firstNext && d.secondNext)
  {
    (d.first && d.second) || (d.firstNext && d.secondNext)
  }

  /** The "one edge" criterion: any of the four rays is on the lit side. */
  function FacingOneEdge(d: DotSigns): bool {
    d.first || d.second || d.firstNext || d.secondNext
  }

  /**
   * The flag changes found by the linear part of the scan over `f[..k]`:
   * every index i in [1, k) with f[i] != f[i - 1], ascending.
   */
  function ScanPrefix(f: seq<bool>, k: nat): (b: seq<int>)
    requires k <= |f|
    ensures forall j :: 0 <= j < |b| ==> 1 <= b[j] < k
  {
    if k <= 1 then []
    else ScanPrefix(f, k - 1) + (if f[k - 1] != f[k - 2] then [k - 1] else [])
  }

  /**
   * All boundaries of the cyclic flag sequence `f`, in the order the source records
   * them: the changes at 1 .. |f| - 1 ascending, then 0 when the flag changes across
   * the wrap from the last vertex to the first.
   */
  function Boundaries(f: seq<bool>): (b: seq<int>)
    ensures forall j :: 0 <= j < |b| ==> 0 <= b[j] < |f|
  {
    if |f| == 0 then []
    else ScanPrefix(f, |f|) + (if f[0] != f[|f| - 1] then [0] else [])
  }

  /** The winding recorded beside each boundary: the flag at that vertex. */
  function Windings(f: seq<bool>): (w: seq<bool>)
    ensures |w| == |Boundaries(f)|
  {
    var b := Boundaries(f);
    seq(|b|, j requires 0 <= j < |b| => f[b[j]])
  }

  /** The two scan loops of the source (Light.cpp:421-452), run over one flag list. */
  method ScanBoundaries(f: seq<bool>) returns (indices: seq<int>, windings: seq<bool>)
    requires |f| > 0
    ensures indices == Boundaries(f)
    ensures windings == Windings(f)
  {
    indices, windings := [], [];
    var i := 1;
    while i < |f|
      invariant 1 <= i <= |f|
      invariant indices == ScanPrefix(f, i)
      invariant |windings| == |indices|
      invariant forall j :: 0 <= j < |indices| ==> windings[j] == f[indices[j]]
    {
      if f[i] != f[i - 1] {
        indices := indices + [i];
        windings := windings + [f[i]];
      }
      i := i + 1;
    }
    // the looping index, checked separately
    if f[0] != f[|f| - 1] {
      indices := indices + [0];
      windings := windings + [f[0]];
    }
  }

  /** A vertex is a boundary exactly when its flag differs from its cyclic predecessor's. */
  lemma {:induction false} BoundaryExactly(f: seq<bool>, i: int)
    requires 0 <= i < |f|
    ensures i in Boundaries(f) <==> f[i] != f[Prev(i, |f|)]
  {
    if i > 0 {
      ScanPrefixMembers(f, |f|, i);
    } else {
      assert 0 !in ScanPrefix(f, |f|);
    }
  }

  lemma {:induction false} ScanPrefixMembers(f: seq<bool>, k: nat, i: int)
    requires k <= |f|
    ensures i in ScanPrefix(f, k) <==> 1 <= i < k && f[i] != f[i - 1]
  {
    if k > 1 {
      ScanPrefixMembers(f, k - 1, i);
    }
  }

  /** Strictly increasing. */
  predicate Ascending(s: seq<int>) {
    forall j, l :: 0 <= j < l < |s| ==> s[j] < s[l]
  }

  /** The linear part of the scan records its changes in ascending order. */
  lemma {:induction false} ScanPrefixAscending(f: seq<bool>, k: nat)
    requires k <= |f|
    ensures Ascending(ScanPrefix(f, k))
  {
    if k > 1 {
      ScanPrefixAscending(f, k - 1);
      var b := ScanPrefix(f, k - 1);
      var t: seq<int> := if f[k - 1] != f[k - 2] then [k - 1] else [];
      assert ScanPrefix(f, k) == b + t;
      forall j, l | 0 <= j < l < |b + t|
        ensures (b + t)[j] < (b + t)[l]
      {
        if l >= |b| {
          assert (b + t)[l] == k - 1;
          assert (b + t)[j] == b[j] < k - 1;
        } else {
          assert (b + t)[j] == b[j] && (b + t)[l] == b[l];
        }
      }
    }
  }

  /** Boundaries come out ascending, except that 0 (when recorded) comes last. */
  lemma BoundariesOrdered(f: seq<bool>)
    ensures var b := Boundaries(f);
      && (forall j :: 0 <= j < |b| - 1 ==> b[j] != 0)
      && (forall j, l :: 0 <= j < l < |b| && b[l] != 0 ==> b[j] < b[l])
  {
    if |f| > 0 {
      ScanPrefixAscending(f, |f|);
      var p := ScanPrefix(f, |f|);
      var b := Boundaries(f);
      assert forall j :: 0 <= j < |p| ==> p[j] != 0;
      if f[0] != f[|f| - 1] {
        assert b == p + [0];
        forall j, l | 0 <= j < l < |b| && b[l] != 0
          ensures b[j] < b[l]
        {
          assert b[j] == p[j] && b[l] == p[l];
        }
      } else {
        assert b == p;
      }
    }
  }

  /**
   * The number of flag changes in f[..k] is odd exactly when the flag at k - 1
   * differs from the flag at 0.
   */
  lemma {:induction false} ScanPrefixParity(f: seq<bool>, k: nat)
    requires 1 <= k <= |f|
    ensures |ScanPrefix(f, k)| % 2 == (if f[0] != f[k - 1] then 1 else 0)
  {
    if k > 1 {
      ScanPrefixParity(f, k - 1);
    }
  }

  /**
   * Around a cycle the flag changes an even number of times, so no criterion ever
   * records exactly one boundary.
   */
  lemma BoundaryCountEven(f: seq<bool>)
    ensures |Boundaries(f)| % 2 == 0
    ensures |Boundaries(f)| != 1
  {
    if |f| > 0 {
      ScanPrefixParity(f, |f|);
    }
  }

  /**
   * Within f[..k], consecutive recorded changes have different flags, the first one
   * differs from f[0] and the last one equals f[k - 1].
   */
  lemma {:induction false} ScanPrefixAlternates(f: seq<bool>, k: nat)
    requires 1 <= k <= |f|
    ensures var b := ScanPrefix(f, k);
      && (forall j :: 0 <= j < |b| - 1 ==> f[b[j]] != f[b[j + 1]])
      && (|b| > 0 ==> f[b[0]] != f[0] && f[b[|b| - 1]] == f[k - 1])
      && (|b| == 0 ==> f[k - 1] == f[0])
  {
    if k > 1 {
      ScanPrefixAlternates(f, k - 1);
      var b := ScanPrefix(f, k - 1);
      if f[k - 1] != f[k - 2] {
        assert ScanPrefix(f, k) == b + [k - 1];
      } else {
        assert ScanPrefix(f, k) == b;
      }
    }
  }

  /**
   * The recorded windings alternate, also cyclically from the last boundary back to
   * the first; in particular two boundaries always carry different windings.
   */
  lemma WindingsAlternate(f: seq<bool>)
    ensures var w := Windings(f);
      && (forall j :: 0 <= j < |w| - 1 ==> w[j] != w[j + 1])
      && (|w| >= 2 ==> w[|w| - 1] != w[0])
  {
    if |f| > 0 {
      ScanPrefixAlternates(f, |f|);
      var p := ScanPrefix(f, |f|);
      var b := Boundaries(f);
      var w := Windings(f);
      assert forall j :: 0 <= j < |w| ==> w[j] == f[b[j]];
      if f[0] != f[|f| - 1] {
        assert b == p + [0];
        forall j | 0 <= j < |w| - 1
          ensures w[j] != w[j + 1]
        {
          if j + 1 < |p| {
            assert b[j] == p[j] && b[j + 1] == p[j + 1];
          } else {
            assert b[j] == p[|p| - 1] && b[j + 1] == 0;
          }
        }
      } else {
        assert b == p;
        BoundaryCountEven(f);
      }
    }
  }
}
