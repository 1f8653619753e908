/**
 * PointLight::getPenumbrasPoint: silhouette boundaries of a collider under the two
 * facing criteria, their boundary rays, and the chains of penumbra wedges walked out
 * from each inner boundary. The floating-point kernel (transforms, normalisation,
 * arccosines) is supplied per vertex as a VertexView.
 */
module Penumbras {
  import opened Geometry
  import opened Facing

  /**
   * What the numeric kernel yields for one collider vertex.
   *   point     the vertex under the collider's transform
   *   plusRay   point - (sourceCenter + offset), offset = radius * unit perpendicular
   *   minusRay  point - (sourceCenter - offset)
   *   dots      the four dot-product signs of the facing test
   *   walk      the angle ratios intersectionAngle / penumbraAngle of the steps of a penumbra
   *             walk started at this vertex that find intersectionAngle < penumbraAngle;
   *             the step after the last ratio finds the opposite and stops the walk
   */
  datatype VertexView = VertexView(point: Vec, plusRay: Vec, minusRay: Vec, dots: DotSigns, walk: seq<real>)

  /** A penumbra wedge (the source's `distance` field is never assigned or read). */
  datatype Penumbra = Penumbra(source: Vec, lightEdge: Vec, darkEdge: Vec, lightBrightness: real, darkBrightness: real)

  /** The outer boundary lists, kept parallel: an index and a vector per boundary. */
  datatype OuterList = OuterList(indices: seq<int>, vectors: seq<Vec>)

  function BothFlags(vs: seq<VertexView>): (f: seq<bool>)
    ensures |f| == |vs|
  {
    seq(|vs|, i requires 0 <= i < |vs| => FacingBothEdges(vs[i].dots))
  }

  function OneFlags(vs: seq<VertexView>): (f: seq<bool>)
    ensures |f| == |vs|
  {
    seq(|vs|, i requires 0 <= i < |vs| => FacingOneEdge(vs[i].dots))
  }

  /** The facing loop (Light.cpp:379-418): one flag of each criterion per vertex. */
  method FacingFlags(vs: seq<VertexView>) returns (both: seq<bool>, one: seq<bool>)
    ensures both == BothFlags(vs) && one == OneFlags(vs)
    ensures forall i :: 0 <= i < |vs| ==> (both[i] ==> one[i])
  {
    both, one := [], [];
    var i := 0;
    while i < |vs|
      invariant 0 <= i <= |vs|
      invariant both == BothFlags(vs)[..i] && one == OneFlags(vs)[..i]
    {
      both := both + [FacingBothEdges(vs[i].dots)];
      one := one + [FacingOneEdge(vs[i].dots)];
      i := i + 1;
    }
  }

  /** The ray kept as outer boundary vector and as first dark edge: winding picks the sign. */
  function OuterRay(v: VertexView, winding: bool): Vec {
    if winding then v.plusRay else v.minusRay
  }

  /** The ray pushed as inner boundary vector: the other sign. */
  function InnerRay(v: VertexView, winding: bool): Vec {
    if winding then v.minusRay else v.plusRay
  }

  /** The edge vector from vertex `i` to vertex `j`. */
  function EdgeVec(vs: seq<VertexView>, i: int, j: int): Vec
    requires 0 <= i < |vs| && 0 <= j < |vs|
  {
    Minus(vs[j].point, vs[i].point)
  }

  /** One step of a walk: backward when the winding is true, forward otherwise. */
  function Step(n: nat, i: int, winding: bool): (j: int)
    requires 0 <= i < n
    ensures 0 <= j < n
  {
    if winding then Prev(i, n) else Next(i, n)
  }

  /** The vertex a walk from `start` is at after `j` steps. */
  function Visit(n: nat, start: int, winding: bool, j: nat): (v: int)
    requires 0 <= start < n
    ensures 0 <= v < n
  {
    if j == 0 then start else Step(n, Visit(n, start, winding, j - 1), winding)
  }

  /** Euclidean remainders: adding one before or after reducing modulo n agrees. */
  lemma ModShift(a: int, n: int, d: int)
    requires n > 0 && (d == 1 || d == -1)
    ensures (a % n + d) % n == (a + d) % n
  {
    var q := a / n;
    var r := a % n;
    assert a == q * n + r;
    if 0 <= r + d < n {
      ModOf(a + d, n, q, r + d);
      ModOf(r + d, n, 0, r + d);
    } else if r + d == n {
      WrapUp(a, n, q);
      ModOf(n, n, 1, 0);
    } else {
      WrapDown(a, n, q);
      ModOf(-1, n, -1, n - 1);
    }
  }

  /** One past the last remainder wraps to 0. */
  lemma WrapUp(a: int, n: int, q: int)
    requires n > 0 && a == q * n + (n - 1)
    ensures (a + 1) % n == 0
  {
    assert a + 1 == (q + 1) * n;
    ModOf(a + 1, n, q + 1, 0);
  }

  /** One before remainder 0 wraps to n - 1. */
  lemma WrapDown(a: int, n: int, q: int)
    requires n > 0 && a == q * n
    ensures (a - 1) % n == n - 1
  {
    assert a - 1 == (q - 1) * n + (n - 1);
    ModOf(a - 1, n, q - 1, n - 1);
  }

  /** The remainder is determined by any decomposition a == q * n + r with 0 <= r < n. */
  lemma ModOf(a: int, n: int, q: int, r: int)
    requires n > 0 && 0 <= r < n && a == q * n + r
    ensures a % n == r
  {
    var q0 := a / n;
    var r0 := a % n;
    assert q0 * n + r0 == q * n + r;
    if q0 > q {
      assert (q0 - q) * n == q0 * n - q * n;
      MultipleAtLeast(q0 - q, n);
    } else if q0 < q {
      assert (q - q0) * n == q * n - q0 * n;
      MultipleAtLeast(q - q0, n);
    }
  }

  lemma {:induction false} MultipleAtLeast(d: int, n: int)
    requires d >= 1 && n > 0
    ensures d * n >= n
  {
    if d > 1 {
      MultipleAtLeast(d - 1, n);
      assert d * n == (d - 1) * n + n;
    }
  }

  /** After j steps a walk is j vertices further, cyclically: back for winding true. */
  lemma {:induction false} VisitClosedForm(n: nat, start: int, winding: bool, j: nat)
    requires 0 <= start < n
    ensures Visit(n, start, winding, j) == if winding then (start - j) % n else (start + j) % n
  {
    if j == 0 {
      ModOf(start, n, 0, start);
    } else {
      VisitClosedForm(n, start, winding, j - 1);
      if winding {
        ModShift(start - (j - 1), n, -1);
      } else {
        ModShift(start + (j - 1), n, 1);
      }
    }
  }

  /** Where the walk stops: after one step per continuing ratio. */
  function StopVertex(vs: seq<VertexView>, start: int, winding: bool): (e: int)
    requires 0 <= start < |vs|
    ensures 0 <= e < |vs|
  {
    Visit(|vs|, start, winding, |vs[start].walk|)
  }

  /** The outer slot a walk overwrites: 1 for winding true, 0 otherwise. */
  function Slot(winding: bool): nat {
    if winding then 1 else 0
  }

  /**
   * The geometry of the j-th wedge of a walk, with the given brightness pair: its source is
   * the j-th visited vertex, its light edge the inner boundary ray (j == 0) or the edge just
   * walked, its dark edge the edge to the next visited vertex or, at the stop, the outer ray.
   */
  function WalkWedge(vs: seq<VertexView>, start: int, winding: bool, lightRay: Vec, j: nat,
                     lightBrightness: real, darkBrightness: real): Penumbra
    requires 0 <= start < |vs| && j <= |vs[start].walk|
  {
    var n := |vs|;
    var at := Visit(n, start, winding, j);
    Penumbra(vs[at].point,
             if j == 0 then lightRay else EdgeVec(vs, Visit(n, start, winding, j - 1), at),
             if j < |vs[start].walk| then EdgeVec(vs, at, Visit(n, start, winding, j + 1))
             else OuterRay(vs[at], winding),
             lightBrightness, darkBrightness)
  }

  /** Light-side brightness of wedge j once the walk is over. */
  function ChainLight(rs: seq<real>, j: nat): real
    requires j <= |rs|
  {
    if j == |rs| then 1.0 else rs[j]
  }

  /** Dark-side brightness of wedge j once the walk is over. */
  function ChainDark(rs: seq<real>, j: nat): real
    requires j <= |rs|
  {
    if j == |rs| then (if |rs| == 0 then 0.0 else rs[0])
    else if j + 1 < |rs| then rs[j + 1]
    else 0.0
  }

  /**
   * The wedges one walk appends, closed form. With ratios r0 .. r(m-1) the brightness pairs
   * are (r0, r1), ..., (r(m-1), 0), (1, r0), or just (1, 0) when m == 0: the swaps with the
   * previous wedge move the (1, r0) pair of the first step to the end of the chain.
   */
  function Chain(vs: seq<VertexView>, start: int, winding: bool, lightRay: Vec): (c: seq<Penumbra>)
    requires 0 <= start < |vs|
    ensures |c| == |vs[start].walk| + 1
    ensures c[0].lightEdge == lightRay
  {
    var rs := vs[start].walk;
    seq(|rs| + 1, j requires 0 <= j <= |rs| =>
      WalkWedge(vs, start, winding, lightRay, j, ChainLight(rs, j), ChainDark(rs, j)))
  }

  /**
   * The geometry of a chain: wedge j sits on the j-th visited vertex, and each wedge's light
   * edge is the previous wedge's dark edge.
   */
  lemma ChainGeometry(vs: seq<VertexView>, start: int, winding: bool, lightRay: Vec)
    requires 0 <= start < |vs|
    ensures var c := Chain(vs, start, winding, lightRay);
      && (forall j :: 0 <= j < |c| ==> c[j].source == vs[Visit(|vs|, start, winding, j)].point)
      && (forall j :: 0 < j < |c| ==> c[j].lightEdge == c[j - 1].darkEdge)
  {
  }

  /**
   * The brightness pairs of a chain with ratios r0 .. r(m-1): (1, 0) when m == 0, otherwise
   * (r0, r1), ..., (r(m-1), 0) followed by (1, r0).
   */
  lemma ChainBrightness(vs: seq<VertexView>, start: int, winding: bool, lightRay: Vec)
    requires 0 <= start < |vs|
    ensures var c := Chain(vs, start, winding, lightRay); var rs := vs[start].walk; var m := |rs|;
      && (m == 0 ==> c[0].lightBrightness == 1.0 && c[0].darkBrightness == 0.0)
      && (forall j :: 0 <= j < m ==>
            c[j].lightBrightness == rs[j] && c[j].darkBrightness == (if j + 1 < m then rs[j + 1] else 0.0))
      && (m > 0 ==> c[m].lightBrightness == 1.0 && c[m].darkBrightness == rs[0])
  {
    var c := Chain(vs, start, winding, lightRay);
    var rs := vs[start].walk;
    forall j | 0 <= j <= |rs|
      ensures c[j].lightBrightness == ChainLight(rs, j) && c[j].darkBrightness == ChainDark(rs, j)
    {
      WedgeBrightness(vs, start, winding, lightRay, j, ChainLight(rs, j), ChainDark(rs, j));
    }
  }

  /** A walk wedge carries the brightness pair it is given. */
  lemma WedgeBrightness(vs: seq<VertexView>, start: int, winding: bool, lightRay: Vec, j: nat, l: real, d: real)
    requires 0 <= start < |vs| && j <= |vs[start].walk|
    ensures var p := WalkWedge(vs, start, winding, lightRay, j, l, d);
      p.lightBrightness == l && p.darkBrightness == d
  {
  }

  /**
   * The wedges of a walk that has made k continuing steps and goes on: the newest one holds
   * (1, r0), each earlier one j holds (rj, r(j+1)).
   */
  function PartialChain(vs: seq<VertexView>, start: int, winding: bool, lightRay: Vec, k: nat): (c: seq<Penumbra>)
    requires 0 <= start < |vs| && k <= |vs[start].walk|
    ensures |c| == k
  {
    var rs := vs[start].walk;
    seq(k, j requires 0 <= j < k =>
      WalkWedge(vs, start, winding, lightRay, j,
                if j == k - 1 then 1.0 else rs[j],
                if j == k - 1 then rs[0] else rs[j + 1]))
  }

  /** `p` with the brightness pair of `from`. */
  function WithBrightnessOf(p: Penumbra, from: Penumbra): Penumbra {
    p.(lightBrightness := from.lightBrightness, darkBrightness := from.darkBrightness)
  }

  /** Giving a walk wedge another brightness pair gives the walk wedge with that pair. */
  lemma Rebrighten(vs: seq<VertexView>, start: int, winding: bool, lightRay: Vec, j: nat,
                   l0: real, d0: real, from: Penumbra)
    requires 0 <= start < |vs| && j <= |vs[start].walk|
    ensures WithBrightnessOf(WalkWedge(vs, start, winding, lightRay, j, l0, d0), from)
         == WalkWedge(vs, start, winding, lightRay, j, from.lightBrightness, from.darkBrightness)
  {
  }

  /** The list after appending `p` as a walk does: first trading brightness pairs with the
   *  previous wedge when there is one. */
  function SwapAppend(ps: seq<Penumbra>, p: Penumbra, hasPrev: bool): seq<Penumbra>
    requires hasPrev ==> |ps| > 0
  {
    if hasPrev then ps[|ps| - 1 := WithBrightnessOf(ps[|ps| - 1], p)] + [WithBrightnessOf(p, ps[|ps| - 1])]
    else ps + [p]
  }

  /**
   * The swap trades only brightness: the list grows by one, every wedge before the last keeps
   * all its fields, and the last and the new wedge keep source and edges.
   */
  lemma SwapKeepsGeometry(ps: seq<Penumbra>, p: Penumbra, hasPrev: bool)
    requires hasPrev ==> |ps| > 0
    ensures var r := SwapAppend(ps, p, hasPrev);
      && |r| == |ps| + 1
      && (forall j :: 0 <= j < |ps| && (j != |ps| - 1 || !hasPrev) ==> r[j] == ps[j])
      && (forall j :: 0 <= j < |ps| ==> r[j].source == ps[j].source && r[j].lightEdge == ps[j].lightEdge && r[j].darkEdge == ps[j].darkEdge)
      && r[|ps|].source == p.source && r[|ps|].lightEdge == p.lightEdge && r[|ps|].darkEdge == p.darkEdge
      && (hasPrev ==> r[|ps|].lightBrightness == ps[|ps| - 1].lightBrightness && r[|ps| - 1].darkBrightness == p.darkBrightness)
      && (!hasPrev ==> r[|ps|] == p)
  {
  }

  /** The brightness swap with penumbras.back() and the push_back that end each walk step. */
  method AppendWedge(penumbras: seq<Penumbra>, penumbra: Penumbra, hasPrevPenumbra: bool)
    returns (penumbras': seq<Penumbra>)
    requires hasPrevPenumbra ==> |penumbras| > 0
    ensures penumbras' == SwapAppend(penumbras, penumbra, hasPrevPenumbra)
  {
    var p := penumbra;
    penumbras' := penumbras;
    if hasPrevPenumbra {
      var back := penumbras'[|penumbras'| - 1];
      penumbras' := penumbras'[|penumbras'| - 1 := WithBrightnessOf(back, p)];
      p := WithBrightnessOf(p, back);
    }
    penumbras' := penumbras' + [p];
  }

  lemma AppendAssociates<T>(a: seq<T>, b: seq<T>, c: seq<T>)
    ensures (a + b) + c == a + (b + c)
  {
  }

  /** Updating the last element of `a + b` and appending stays inside the `b` part. */
  lemma UpdateLastAppend<T>(a: seq<T>, b: seq<T>, x: T, y: T)
    requires |b| > 0
    ensures (a + b)[|a + b| - 1 := x] + [y] == a + (b[|b| - 1 := x] + [y])
  {
    assert forall i :: 0 <= i < |a| ==> ((a + b)[|a + b| - 1 := x] + [y])[i] == a[i];
  }

  /** A continuing step k turns PartialChain(k) into PartialChain(k + 1). */
  lemma ContinueAppend(vs: seq<VertexView>, start: int, winding: bool, lightRay: Vec, k: nat, base: seq<Penumbra>)
    requires 0 <= start < |vs| && k < |vs[start].walk|
    ensures var rs := vs[start].walk;
      SwapAppend(base + PartialChain(vs, start, winding, lightRay, k),
                 WalkWedge(vs, start, winding, lightRay, k, if k == 0 then 1.0 else rs[k - 1], rs[k]), k > 0)
      == base + PartialChain(vs, start, winding, lightRay, k + 1)
  {
    var rs := vs[start].walk;
    var p := PartialChain(vs, start, winding, lightRay, k);
    var w := WalkWedge(vs, start, winding, lightRay, k, if k == 0 then 1.0 else rs[k - 1], rs[k]);
    var q := PartialChain(vs, start, winding, lightRay, k + 1);
    if k == 0 {
      assert q == [w.(lightBrightness := 1.0, darkBrightness := rs[0])];
      assert base + p == base;
    } else {
      var back := (base + p)[|base + p| - 1];
      assert back == p[k - 1];
      UpdateLastAppend(base, p, WithBrightnessOf(back, w), WithBrightnessOf(w, back));
      assert q == p[k - 1 := WithBrightnessOf(back, w)] + [WithBrightnessOf(w, back)];
    }
  }

  /** Before its last two wedges a finished chain agrees with the partial chain. */
  lemma ChainPrefix(vs: seq<VertexView>, start: int, winding: bool, lightRay: Vec)
    requires 0 <= start < |vs| && |vs[start].walk| > 0
    ensures var m := |vs[start].walk|;
      var c := Chain(vs, start, winding, lightRay); var p := PartialChain(vs, start, winding, lightRay, m);
      forall j :: 0 <= j < m - 1 ==> c[j] == p[j]
  {
  }

  /** The last two wedges of a finished chain: the stop wedge traded its pair with the previous one. */
  lemma ChainTail(vs: seq<VertexView>, start: int, winding: bool, lightRay: Vec)
    requires 0 <= start < |vs| && |vs[start].walk| > 0
    ensures var rs := vs[start].walk; var m := |rs|;
      var c := Chain(vs, start, winding, lightRay); var p := PartialChain(vs, start, winding, lightRay, m);
      var w := WalkWedge(vs, start, winding, lightRay, m, rs[m - 1], 0.0);
      c[m - 1] == WithBrightnessOf(p[m - 1], w) && c[m] == WithBrightnessOf(w, p[m - 1])
  {
    var rs := vs[start].walk;
    var m := |rs|;
    var w := WalkWedge(vs, start, winding, lightRay, m, rs[m - 1], 0.0);
    var back := PartialChain(vs, start, winding, lightRay, m)[m - 1];
    Rebrighten(vs, start, winding, lightRay, m - 1, 1.0, rs[0], w);
    Rebrighten(vs, start, winding, lightRay, m, rs[m - 1], 0.0, back);
  }

  /** Replacing the last element and appending one more gives `c` when they agree elementwise. */
  lemma ReplaceLastAppend<T>(p: seq<T>, x: T, y: T, c: seq<T>)
    requires |p| > 0 && |c| == |p| + 1
    requires forall j :: 0 <= j < |p| - 1 ==> c[j] == p[j]
    requires c[|p| - 1] == x && c[|p|] == y
    ensures p[|p| - 1 := x] + [y] == c
  {
    var q := p[|p| - 1 := x] + [y];
    assert forall j :: 0 <= j < |c| ==> q[j] == c[j];
  }

  /** The stopping step turns PartialChain(m) into the whole Chain. */
  lemma StopAppend(vs: seq<VertexView>, start: int, winding: bool, lightRay: Vec, base: seq<Penumbra>)
    requires 0 <= start < |vs|
    ensures var rs := vs[start].walk; var m := |rs|;
      SwapAppend(base + PartialChain(vs, start, winding, lightRay, m),
                 WalkWedge(vs, start, winding, lightRay, m, if m == 0 then 1.0 else rs[m - 1], 0.0), m > 0)
      == base + Chain(vs, start, winding, lightRay)
  {
    var rs := vs[start].walk;
    var m := |rs|;
    var p := PartialChain(vs, start, winding, lightRay, m);
    var w := WalkWedge(vs, start, winding, lightRay, m, if m == 0 then 1.0 else rs[m - 1], 0.0);
    var c := Chain(vs, start, winding, lightRay);
    if m == 0 {
      assert c == [w];
      assert base + p == base;
    } else {
      var back := (base + p)[|base + p| - 1];
      assert back == p[m - 1];
      UpdateLastAppend(base, p, WithBrightnessOf(back, w), WithBrightnessOf(w, back));
      ChainPrefix(vs, start, winding, lightRay);
      ChainTail(vs, start, winding, lightRay);
      ReplaceLastAppend(p, WithBrightnessOf(back, w), WithBrightnessOf(w, back), c);
    }
  }

  /** Overwriting one outer slot twice leaves only the second write. */
  lemma OverwriteSlot(o: OuterList, slot: nat, i0: int, v0: Vec, i1: int, v1: Vec)
    requires slot < |o.indices| && slot < |o.vectors|
    ensures OuterList(o.indices[slot := i0][slot := i1], o.vectors[slot := v0][slot := v1])
         == OuterList(o.indices[slot := i1], o.vectors[slot := v1])
  {
    assert o.indices[slot := i0][slot := i1] == o.indices[slot := i1];
    assert o.vectors[slot := v0][slot := v1] == o.vectors[slot := v1];
  }

  /** The outer lists after a walk: its slot holds the stop vertex and that vertex's outer ray. */
  function MarkStop(o: OuterList, vs: seq<VertexView>, start: int, winding: bool): (r: OuterList)
    requires 0 <= start < |vs|
    requires |o.indices| == |o.vectors|
    requires |o.vectors| != 0 ==> Slot(winding) < |o.vectors|
    ensures |r.indices| == |r.vectors| == |o.vectors|
  {
    if |o.vectors| == 0 then o
    else
      var e := StopVertex(vs, start, winding);
      OuterList(o.indices[Slot(winding) := e], o.vectors[Slot(winding) := OuterRay(vs[e], winding)])
  }

  /**
   * The outer lists while a walk is under way after k continuing steps: from the first step
   * on, the walk's slot holds the current vertex and the edge just walked.
   */
  function OuterAfter(o: OuterList, vs: seq<VertexView>, start: int, winding: bool, k: nat): (r: OuterList)
    requires 0 <= start < |vs| && k <= |vs[start].walk|
    requires |o.indices| == |o.vectors|
    requires |o.vectors| != 0 ==> Slot(winding) < |o.vectors|
    ensures |r.indices| == |r.vectors| == |o.vectors|
  {
    if k == 0 || |o.vectors| == 0 then o
    else
      var n := |vs|;
      var at := Visit(n, start, winding, k);
      OuterList(o.indices[Slot(winding) := at],
                o.vectors[Slot(winding) := EdgeVec(vs, Visit(n, start, winding, k - 1), at)])
  }

  /** A continuing step k rewrites the walk's slot with the new vertex and edge. */
  lemma OuterAdvance(o: OuterList, vs: seq<VertexView>, start: int, winding: bool, k: nat)
    requires 0 <= start < |vs| && k < |vs[start].walk|
    requires |o.indices| == |o.vectors|
    requires |o.vectors| != 0 ==> Slot(winding) < |o.vectors|
    ensures var cur := OuterAfter(o, vs, start, winding, k);
      var n := |vs|; var at := Visit(n, start, winding, k + 1);
      OuterAfter(o, vs, start, winding, k + 1) ==
        if |o.vectors| == 0 then cur
        else OuterList(cur.indices[Slot(winding) := at],
                       cur.vectors[Slot(winding) := EdgeVec(vs, Visit(n, start, winding, k), at)])
  {
    if k > 0 && |o.vectors| != 0 {
      var n := |vs|;
      OverwriteSlot(o, Slot(winding), Visit(n, start, winding, k), EdgeVec(vs, Visit(n, start, winding, k - 1), Visit(n, start, winding, k)),
                    Visit(n, start, winding, k + 1), EdgeVec(vs, Visit(n, start, winding, k), Visit(n, start, winding, k + 1)));
    }
  }

  /** The stopping step leaves the stop vertex and its outer ray in the walk's slot. */
  lemma OuterFinish(o: OuterList, vs: seq<VertexView>, start: int, winding: bool)
    requires 0 <= start < |vs|
    requires |o.indices| == |o.vectors|
    requires |o.vectors| != 0 ==> Slot(winding) < |o.vectors|
    ensures var cur := OuterAfter(o, vs, start, winding, |vs[start].walk|);
      var e := StopVertex(vs, start, winding);
      MarkStop(o, vs, start, winding) ==
        if |o.vectors| == 0 then cur
        else OuterList(cur.indices[Slot(winding) := e], cur.vectors[Slot(winding) := OuterRay(vs[e], winding)])
  {
    var m := |vs[start].walk|;
    if m > 0 && |o.vectors| != 0 {
      var n := |vs|;
      var e := StopVertex(vs, start, winding);
      OverwriteSlot(o, Slot(winding), e, EdgeVec(vs, Visit(n, start, winding, m - 1), e), e, OuterRay(vs[e], winding));
    }
  }

  /**
   * The penumbra walk from one inner boundary (Light.cpp:491-648), with the source's two
   * winding branches merged: the step goes to the previous vertex when `winding` holds and
   * to the next one otherwise. `lightRay` is innerBoundaryVectors.back().
   */
  method WalkPenumbra(vs: seq<VertexView>, start: int, winding: bool, lightRay: Vec,
                      penumbras: seq<Penumbra>, outerIndices: seq<int>, outerVectors: seq<Vec>)
    returns (penumbras': seq<Penumbra>, outerIndices': seq<int>, outerVectors': seq<Vec>)
    requires 0 <= start < |vs|
    requires |outerIndices| == |outerVectors|
    requires |outerVectors| != 0 ==> Slot(winding) < |outerVectors|
    ensures penumbras' == penumbras + Chain(vs, start, winding, lightRay)
    ensures OuterList(outerIndices', outerVectors') == MarkStop(OuterList(outerIndices, outerVectors), vs, start, winding)
  {
    var n := |vs|;
    var rs := vs[start].walk;
    var slot := Slot(winding);
    ghost var outer := OuterList(outerIndices, outerVectors);
    penumbras', outerIndices', outerVectors' := penumbras, outerIndices, outerVectors;
    var penumbraIndex := start;
    var point := vs[start].point;
    var outerBoundaryVector := OuterRay(vs[start], winding);
    var hasPrevPenumbra := false;
    var prevPenumbraLightEdgeVector := lightRay;
    var prevBrightness := 1.0;
    var step := 0;  // angle tests made so far; rs[step] answers the next one
    while penumbraIndex != -1
      invariant 0 <= step <= |rs| + 1
      invariant penumbraIndex != -1 ==> step <= |rs| && penumbraIndex == Visit(n, start, winding, step)
      invariant penumbraIndex != -1 ==> point == vs[penumbraIndex].point
      invariant penumbraIndex != -1 ==> outerBoundaryVector == OuterRay(vs[penumbraIndex], winding)
      invariant penumbraIndex != -1 ==> hasPrevPenumbra == (step > 0)
      invariant penumbraIndex != -1 ==> prevBrightness == if step == 0 then 1.0 else rs[step - 1]
      invariant penumbraIndex != -1 && step > 0 ==>
        prevPenumbraLightEdgeVector == EdgeVec(vs, Visit(n, start, winding, step - 1), penumbraIndex)
      invariant penumbraIndex != -1 ==> penumbras' == penumbras + PartialChain(vs, start, winding, lightRay, step)
      invariant penumbraIndex != -1 ==> OuterList(outerIndices', outerVectors') == OuterAfter(outer, vs, start, winding, step)
      invariant penumbraIndex == -1 ==> step == |rs| + 1
      invariant penumbraIndex == -1 ==> penumbras' == penumbras + Chain(vs, start, winding, lightRay)
      invariant penumbraIndex == -1 ==> OuterList(outerIndices', outerVectors') == MarkStop(outer, vs, start, winding)
      decreases |rs| + 1 - step
    {
      var nextPointIndex := Next(penumbraIndex, n);
      var pointToNextPoint := Minus(vs[nextPointIndex].point, point);
      var prevPointIndex := Prev(penumbraIndex, n);
      var pointToPrevPoint := Minus(vs[prevPointIndex].point, point);
      var towardIndex := if winding then prevPointIndex else nextPointIndex;
      var pointToToward := if winding then pointToPrevPoint else pointToNextPoint;

      var penumbra := Penumbra(point,
                               if hasPrevPenumbra then prevPenumbraLightEdgeVector else lightRay,
                               outerBoundaryVector, prevBrightness, 0.0);
      if step < |rs| {
        // intersectionAngle < penumbraAngle: the wedge ends on the edge walked next
        prevBrightness := rs[step];
        penumbra := penumbra.(darkBrightness := prevBrightness, darkEdge := pointToToward);
        assert penumbra == WalkWedge(vs, start, winding, lightRay, step, if step == 0 then 1.0 else rs[step - 1], rs[step]);
        ContinueAppend(vs, start, winding, lightRay, step, penumbras);
        penumbras' := AppendWedge(penumbras', penumbra, hasPrevPenumbra);
        penumbraIndex := towardIndex;
        hasPrevPenumbra := true;
        prevPenumbraLightEdgeVector := penumbra.darkEdge;
        point := vs[penumbraIndex].point;
        outerBoundaryVector := OuterRay(vs[penumbraIndex], winding);
        OuterAdvance(outer, vs, start, winding, step);
        if |outerVectors'| != 0 {
          outerVectors' := outerVectors'[slot := penumbra.darkEdge];
          outerIndices' := outerIndices'[slot := penumbraIndex];
        }
      } else {
        // the penumbra ends inside this edge: dark side 0, the walk stops here
        penumbra := penumbra.(darkBrightness := 0.0);
        assert penumbra == WalkWedge(vs, start, winding, lightRay, step, if step == 0 then 1.0 else rs[step - 1], 0.0);
        StopAppend(vs, start, winding, lightRay, penumbras);
        penumbras' := AppendWedge(penumbras', penumbra, hasPrevPenumbra);
        hasPrevPenumbra := false;
        OuterFinish(outer, vs, start, winding);
        if |outerVectors'| != 0 {
          outerVectors' := outerVectors'[slot := penumbra.darkEdge];
          outerIndices' := outerIndices'[slot := penumbraIndex];
        }
        penumbraIndex := -1;
      }
      step := step + 1;
    }
  }

  /** The outer boundary vector loop (Light.cpp:455-468). */
  method OuterBoundaryVectors(vs: seq<VertexView>, indices: seq<int>, windings: seq<bool>) returns (vectors: seq<Vec>)
    requires |indices| == |windings|
    requires forall j :: 0 <= j < |indices| ==> 0 <= indices[j] < |vs|
    ensures |vectors| == |indices|
    ensures forall j :: 0 <= j < |indices| ==> vectors[j] == OuterRay(vs[indices[j]], windings[j])
  {
    vectors := [];
    var bi := 0;
    while bi < |indices|
      invariant 0 <= bi <= |indices| && |vectors| == bi
      invariant forall j :: 0 <= j < bi ==> vectors[j] == OuterRay(vs[indices[j]], windings[j])
    {
      vectors := vectors + [OuterRay(vs[indices[bi]], windings[bi])];
      bi := bi + 1;
    }
  }

  /** The inner boundaries: flag changes of the "both edges" criterion. */
  function InnerIndices(vs: seq<VertexView>): seq<int> {
    Boundaries(BothFlags(vs))
  }

  function InnerWindings(vs: seq<VertexView>): (w: seq<bool>)
    ensures |w| == |InnerIndices(vs)|
  {
    Windings(BothFlags(vs))
  }

  /** Walk starts: as many windings as indices, every index a vertex. */
  predicate StartsIn(vs: seq<VertexView>, starts: seq<int>, windings: seq<bool>) {
    |starts| == |windings| && forall j :: 0 <= j < |starts| ==> 0 <= starts[j] < |vs|
  }

  lemma InnerStartsIn(vs: seq<VertexView>)
    ensures StartsIn(vs, InnerIndices(vs), InnerWindings(vs))
  {
  }

  /** The inner boundary vector pushed for each walk start. */
  function InnerRays(vs: seq<VertexView>, starts: seq<int>, windings: seq<bool>): (iv: seq<Vec>)
    requires StartsIn(vs, starts, windings)
    ensures |iv| == |starts|
  {
    seq(|starts|, k requires 0 <= k < |starts| => InnerRay(vs[starts[k]], windings[k]))
  }

  /** The wedges appended by the walks from the first k starts. */
  function WalksUpTo(vs: seq<VertexView>, starts: seq<int>, windings: seq<bool>, k: nat): seq<Penumbra>
    requires StartsIn(vs, starts, windings) && k <= |starts|
  {
    if k == 0 then []
    else
      WalksUpTo(vs, starts, windings, k - 1)
        + Chain(vs, starts[k - 1], windings[k - 1], InnerRay(vs[starts[k - 1]], windings[k - 1]))
  }

  /** Outer lists as the scan leaves them: parallel, and never exactly one entry. */
  predicate OuterShape(o: OuterList) {
    |o.indices| == |o.vectors| && (|o.vectors| != 0 ==> |o.vectors| >= 2)
  }

  /** The outer lists after the walks from the first k starts. */
  function MarksUpTo(o: OuterList, vs: seq<VertexView>, starts: seq<int>, windings: seq<bool>, k: nat): (r: OuterList)
    requires StartsIn(vs, starts, windings) && k <= |starts| && OuterShape(o)
    ensures |r.indices| == |r.vectors| == |o.vectors|
  {
    if k == 0 then o
    else MarkStop(MarksUpTo(o, vs, starts, windings, k - 1), vs, starts[k - 1], windings[k - 1])
  }

  /** The outer boundaries of the "one edge" criterion with their vectors, before any walk. */
  function OuterStart(vs: seq<VertexView>): (o: OuterList)
    ensures OuterShape(o)
  {
    var f := OneFlags(vs);
    BoundaryCountEven(f);
    var b := Boundaries(f);
    var w := Windings(f);
    OuterList(b, seq(|b|, k requires 0 <= k < |b| => OuterRay(vs[b[k]], w[k])))
  }

  /** The inner boundary vectors getPenumbrasPoint appends. */
  function InnerVectors(vs: seq<VertexView>): (iv: seq<Vec>)
    ensures |iv| == |InnerIndices(vs)|
  {
    InnerStartsIn(vs);
    InnerRays(vs, InnerIndices(vs), InnerWindings(vs))
  }

  /** The penumbra wedges getPenumbrasPoint appends. */
  function Wedges(vs: seq<VertexView>): seq<Penumbra> {
    InnerStartsIn(vs);
    WalksUpTo(vs, InnerIndices(vs), InnerWindings(vs), |InnerIndices(vs)|)
  }

  /** The outer boundary lists getPenumbrasPoint leaves. */
  function FinalOuter(vs: seq<VertexView>): OuterList {
    InnerStartsIn(vs);
    MarksUpTo(OuterStart(vs), vs, InnerIndices(vs), InnerWindings(vs), |InnerIndices(vs)|)
  }

  /**
   * The part of getPenumbrasPoint before the walks (Light.cpp:372-468): facing flags, the two
   * boundary scans and the outer boundary vectors.
   */
  method ScanCollider(vs: seq<VertexView>)
    returns (innerIndices: seq<int>, bothWindings: seq<bool>, outerIndices: seq<int>, outerVectors: seq<Vec>)
    requires |vs| > 0
    ensures innerIndices == InnerIndices(vs) && bothWindings == InnerWindings(vs)
    ensures OuterList(outerIndices, outerVectors) == OuterStart(vs)
    ensures |innerIndices| != 1
  {
    var both, one := FacingFlags(vs);
    var oneWindings;
    innerIndices, bothWindings := ScanBoundaries(both);
    outerIndices, oneWindings := ScanBoundaries(one);
    outerVectors := OuterBoundaryVectors(vs, outerIndices, oneWindings);
    BoundaryCountEven(both);
  }

  /**
   * The walk loop of getPenumbrasPoint (Light.cpp:470-649) over the inner boundaries: push
   * the inner boundary vector, then walk.
   */
  method WalkAll(vs: seq<VertexView>, starts: seq<int>, windings: seq<bool>, penumbras: seq<Penumbra>,
                 innerVectors: seq<Vec>, outer: OuterList)
    returns (penumbras': seq<Penumbra>, innerVectors': seq<Vec>, outerIndices': seq<int>, outerVectors': seq<Vec>)
    requires StartsIn(vs, starts, windings) && OuterShape(outer) && |starts| != 1
    ensures penumbras' == penumbras + WalksUpTo(vs, starts, windings, |starts|)
    ensures innerVectors' == innerVectors + InnerRays(vs, starts, windings)
    ensures OuterList(outerIndices', outerVectors') == MarksUpTo(outer, vs, starts, windings, |starts|)
  {
    penumbras', innerVectors' := penumbras, innerVectors;
    outerIndices', outerVectors' := outer.indices, outer.vectors;
    ghost var rays := InnerRays(vs, starts, windings);
    var bi := 0;
    while bi < |starts|
      invariant 0 <= bi <= |starts|
      invariant innerVectors' == innerVectors + rays[..bi]
      invariant penumbras' == penumbras + WalksUpTo(vs, starts, windings, bi)
      invariant OuterList(outerIndices', outerVectors') == MarksUpTo(outer, vs, starts, windings, bi)
    {
      var penumbraIndex := starts[bi];
      var winding := windings[bi];
      assert rays[..bi + 1] == rays[..bi] + [InnerRay(vs[penumbraIndex], winding)];
      AppendAssociates(innerVectors, rays[..bi], [InnerRay(vs[penumbraIndex], winding)]);
      innerVectors' := innerVectors' + [InnerRay(vs[penumbraIndex], winding)];
      if |starts| == 1 {
        // a cycle changes its flag an even number of times
        assert false;
      }
      ghost var chain := Chain(vs, penumbraIndex, winding, InnerRay(vs[penumbraIndex], winding));
      AppendAssociates(penumbras, WalksUpTo(vs, starts, windings, bi), chain);
      penumbras', outerIndices', outerVectors' :=
        WalkPenumbra(vs, penumbraIndex, winding, innerVectors'[|innerVectors'| - 1],
                     penumbras', outerIndices', outerVectors');
      bi := bi + 1;
    }
    assert rays[..bi] == rays;
  }

  /**
   * PointLight::getPenumbrasPoint (Light.cpp:351-650). The boundary index lists and the
   * outer vector list are empty on entry (the render pass passes cleared or fresh ones);
   * `penumbras` and `innerVectors` may already hold entries, which are kept in front.
   */
  method GetPenumbrasPoint(vs: seq<VertexView>, penumbras: seq<Penumbra>, innerIndices: seq<int>,
                           innerVectors: seq<Vec>, outerIndices: seq<int>, outerVectors: seq<Vec>)
    returns (penumbras': seq<Penumbra>, innerIndices': seq<int>, innerVectors': seq<Vec>,
             outerIndices': seq<int>, outerVectors': seq<Vec>)
    requires innerIndices == [] && outerIndices == [] && outerVectors == []
    ensures innerIndices' == InnerIndices(vs)
    ensures innerVectors' == innerVectors + InnerVectors(vs)
    ensures penumbras' == penumbras + Wedges(vs)
    ensures OuterList(outerIndices', outerVectors') == FinalOuter(vs)
  {
    penumbras', innerIndices', innerVectors' := penumbras, innerIndices, innerVectors;
    outerIndices', outerVectors' := outerIndices, outerVectors;
    if |vs| == 0 {
      return;
    }
    var bothWindings;
    innerIndices', bothWindings, outerIndices', outerVectors' := ScanCollider(vs);
    InnerStartsIn(vs);
    penumbras', innerVectors', outerIndices', outerVectors' :=
      WalkAll(vs, innerIndices', bothWindings, penumbras', innerVectors', OuterList(outerIndices', outerVectors'));
  }

  /** Outer indices name vertices. */
  predicate IndicesIn(vs: seq<VertexView>, o: OuterList) {
    forall j :: 0 <= j < |o.indices| ==> 0 <= o.indices[j] < |vs|
  }

  lemma {:induction false} MarksInRange(o: OuterList, vs: seq<VertexView>, starts: seq<int>, windings: seq<bool>, k: nat)
    requires StartsIn(vs, starts, windings) && k <= |starts| && OuterShape(o)
    requires IndicesIn(vs, o)
    ensures IndicesIn(vs, MarksUpTo(o, vs, starts, windings, k))
  {
    if k > 0 {
      MarksInRange(o, vs, starts, windings, k - 1);
    }
  }

  /** Every outer index getPenumbrasPoint leaves names a vertex of the collider. */
  lemma FinalOuterInRange(vs: seq<VertexView>)
    ensures OuterShape(FinalOuter(vs)) && IndicesIn(vs, FinalOuter(vs))
  {
    InnerStartsIn(vs);
    MarksInRange(OuterStart(vs), vs, InnerIndices(vs), InnerWindings(vs), |InnerIndices(vs)|);
  }

  /** A collider without points yields nothing: all five output lists stay as they were. */
  lemma NoPointsNoOutput(vs: seq<VertexView>)
    requires |vs| == 0
    ensures InnerIndices(vs) == [] && InnerVectors(vs) == [] && Wedges(vs) == []
    ensures FinalOuter(vs) == OuterList([], [])
  {
  }

  /** Every walk adds at least one wedge: no wedge at all exactly when no walk. */
  lemma {:induction false} WalksAtLeastOneEach(vs: seq<VertexView>, starts: seq<int>, windings: seq<bool>, k: nat)
    requires StartsIn(vs, starts, windings) && k <= |starts|
    ensures |WalksUpTo(vs, starts, windings, k)| >= k
  {
    if k > 0 {
      WalksAtLeastOneEach(vs, starts, windings, k - 1);
    }
  }

  /** A collider gets penumbra wedges exactly when it has inner boundaries. */
  lemma WedgesExactlyWithBoundaries(vs: seq<VertexView>)
    ensures |Wedges(vs)| >= |InnerIndices(vs)|
    ensures |Wedges(vs)| == 0 <==> |InnerIndices(vs)| == 0
  {
    InnerStartsIn(vs);
    WalksAtLeastOneEach(vs, InnerIndices(vs), InnerWindings(vs), |InnerIndices(vs)|);
    assert |InnerIndices(vs)| == 0 ==> Wedges(vs) == [];
  }

  /** All angle ratios of a collider lie in [0, 1]. */
  predicate RatiosInUnit(vs: seq<VertexView>) {
    forall i, j :: 0 <= i < |vs| && 0 <= j < |vs[i].walk| ==> 0.0 <= vs[i].walk[j] <= 1.0
  }

  predicate BrightnessInUnit(ps: seq<Penumbra>) {
    forall j :: 0 <= j < |ps| ==>
      0.0 <= ps[j].lightBrightness <= 1.0 && 0.0 <= ps[j].darkBrightness <= 1.0
  }

  lemma {:induction false} WalksBrightnessInUnit(vs: seq<VertexView>, starts: seq<int>, windings: seq<bool>, k: nat)
    requires StartsIn(vs, starts, windings) && k <= |starts|
    requires RatiosInUnit(vs)
    ensures BrightnessInUnit(WalksUpTo(vs, starts, windings, k))
  {
    if k > 0 {
      WalksBrightnessInUnit(vs, starts, windings, k - 1);
      var b := starts[k - 1];
      var w := windings[k - 1];
      var c := Chain(vs, b, w, InnerRay(vs[b], w));
      var rs := vs[b].walk;
      assert forall j :: 0 <= j < |rs| ==> 0.0 <= rs[j] <= 1.0;
      assert BrightnessInUnit(c);
      var p := WalksUpTo(vs, starts, windings, k - 1);
      forall j | 0 <= j < |p + c|
        ensures 0.0 <= (p + c)[j].lightBrightness <= 1.0 && 0.0 <= (p + c)[j].darkBrightness <= 1.0
      {
        if j < |p| {
          assert (p + c)[j] == p[j];
        } else {
          assert (p + c)[j] == c[j - |p|];
        }
      }
    }
  }

  /** With angle ratios in [0, 1] every wedge brightness lies in [0, 1]. */
  lemma WedgeBrightnessInUnit(vs: seq<VertexView>)
    requires RatiosInUnit(vs)
    ensures BrightnessInUnit(Wedges(vs))
  {
    InnerStartsIn(vs);
    WalksBrightnessInUnit(vs, InnerIndices(vs), InnerWindings(vs), |InnerIndices(vs)|);
  }

  /**
   * Every chain ends on the stop vertex: the last wedge's source is that vertex and its dark
   * edge is the vertex's outer ray, the vector the walk leaves in its outer slot.
   */
  lemma ChainEnds(vs: seq<VertexView>, start: int, winding: bool, lightRay: Vec)
    requires 0 <= start < |vs|
    ensures var c := Chain(vs, start, winding, lightRay); var e := StopVertex(vs, start, winding);
      && c[|c| - 1].source == vs[e].point
      && c[|c| - 1].darkEdge == OuterRay(vs[e], winding)
      && (forall o: OuterList :: |o.indices| == |o.vectors| >= 2 ==>
            MarkStop(o, vs, start, winding).indices[Slot(winding)] == e &&
            MarkStop(o, vs, start, winding).vectors[Slot(winding)] == c[|c| - 1].darkEdge)
  {
  }

  /**
   * With two inner and two outer boundaries (the case the render pass draws), the two walks
   * have opposite windings, so each fills its own outer slot with its stop vertex and that
   * vertex's outer ray.
   */
  lemma TwoWalksFillBothSlots(vs: seq<VertexView>)
    requires |InnerIndices(vs)| == 2 && |OuterStart(vs).indices| == 2
    ensures var ii := InnerIndices(vs); var iw := InnerWindings(vs); var o := FinalOuter(vs);
      && iw[0] != iw[1]
      && (forall k :: 0 <= k < 2 ==>
            o.indices[Slot(iw[k])] == StopVertex(vs, ii[k], iw[k]) &&
            o.vectors[Slot(iw[k])] == OuterRay(vs[StopVertex(vs, ii[k], iw[k])], iw[k]))
  {
    WindingsAlternate(BothFlags(vs));
    InnerStartsIn(vs);
    var ii := InnerIndices(vs);
    var iw := InnerWindings(vs);
    var o0 := OuterStart(vs);
    assert MarksUpTo(o0, vs, ii, iw, 0) == o0;
    var first := MarksUpTo(o0, vs, ii, iw, 1);
    assert first == MarkStop(o0, vs, ii[0], iw[0]);
    assert FinalOuter(vs) == MarkStop(first, vs, ii[1], iw[1]);
  }
}
