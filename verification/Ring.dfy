/**
 The consistent-hash ring: every node puts as many points on the circle of
 32-bit hashes as it has weight, and a key belongs to the next point clockwise.
 */
module Ring {
  import opened Decimal
  import opened Net

  const CIRCLE: nat := 0x1_0000_0000

  type Hash = h: nat | h < CIRCLE

  datatype Point = Point(hash: Hash, ep: Endpoint)

  // A node and its weight; the nodes of a ring have different endpoints.
  datatype Node = Node(ep: Endpoint, weight: nat)

  // ---------- building the ring ----------

  // The text that is hashed for the k-th point of a node.
  function Label(ep: Endpoint, k: nat): string {
    Digits(k) + "-" + Digits(ep.address) + "-" + Digits(ep.port)
  }

  // No two points of a ring share their text.
  lemma LabelInjective(ep: Endpoint, k: nat, ep': Endpoint, k': nat)
    requires Label(ep, k) == Label(ep', k')
    ensures ep == ep' && k == k'
  {
    var a, b := Digits(ep.address) + "-" + Digits(ep.port), Digits(ep'.address) + "-" + Digits(ep'.port);
    assert Label(ep, k) == Digits(k) + "-" + a && Label(ep', k') == Digits(k') + "-" + b;
    SameNumber(k, a, k', b);
    SameNumber(ep.address, Digits(ep.port), ep'.address, Digits(ep'.port));
    ValueOfDigits(ep.port);
    ValueOfDigits(ep'.port);
  }

  // A number ends at the dash.
  lemma SameNumber(m: nat, s: string, n: nat, t: string)
    requires Digits(m) + "-" + s == Digits(n) + "-" + t
    ensures m == n && s == t
  {
    var a, b := Digits(m) + "-" + s, Digits(n) + "-" + t;
    var i, j := |Digits(m)|, |Digits(n)|;
    assert a[i] == '-' && b[j] == '-';
    assert a[..i] == Digits(m) && b[..j] == Digits(n) && a[i + 1..] == s && b[j + 1..] == t;
    ValueOfDigits(m);
    ValueOfDigits(n);
  }

  lemma KnownLabel()
    ensures Label(Endpoint(9, 80), 12) == "12-9-80"
  {
    DigitsAreDecimal(1);
    DigitsAreDecimal(8);
    DigitsAreDecimal(9);
    Positional(1, 2, []);
    Positional(8, 0, []);
  }

  function PointOf(hash: string -> Hash, ep: Endpoint, k: nat): Point {
    Point(hash(Label(ep, k)), ep)
  }

  // The points of a node are numbered from 0 on.
  lemma KnownPoints(hash: string -> Hash)
    ensures RingPoints(hash, [Node(Endpoint(9, 80), 2)]) ==
            [Point(hash("0-9-80"), Endpoint(9, 80)), Point(hash("1-9-80"), Endpoint(9, 80))]
  {
    DigitsAreDecimal(0);
    DigitsAreDecimal(1);
    DigitsAreDecimal(8);
    DigitsAreDecimal(9);
    Positional(8, 0, []);
    var ep := Endpoint(9, 80);
    assert Label(ep, 0) == "0-9-80" && Label(ep, 1) == "1-9-80";
    assert [Node(ep, 2)][..0] == [];
    assert NodePoints(hash, ep, 2) == [PointOf(hash, ep, 0), PointOf(hash, ep, 1)];
  }

  function NodePoints(hash: string -> Hash, ep: Endpoint, weight: nat): seq<Point> {
    seq(weight, k requires 0 <= k => PointOf(hash, ep, k))
  }

  function RingPoints(hash: string -> Hash, nodes: seq<Node>): seq<Point> {
    if nodes == [] then []
    else RingPoints(hash, nodes[..|nodes| - 1]) + NodePoints(hash, nodes[|nodes| - 1].ep, nodes[|nodes| - 1].weight)
  }

  predicate Sorted(ps: seq<Point>) {
    forall i, j :: 0 <= i < j < |ps| ==> ps[i].hash <= ps[j].hash
  }

  // ps is a ring of the given nodes. The sort leaves the order of points with
  // equal hashes open.
  ghost predicate IsRing(ps: seq<Point>, hash: string -> Hash, nodes: seq<Node>) {
    Sorted(ps) && multiset(ps) == multiset(RingPoints(hash, nodes))
  }

  method BuildCachePoints(hash: string -> Hash, nodes: seq<Node>) returns (ok: bool, points: seq<Point>)
    ensures ok <==> nodes != []
    ensures IsRing(points, hash, nodes)
  {
    if nodes == [] {
      return false, [];
    }
    var all: seq<Point> := [];
    for i := 0 to |nodes|
      invariant all == RingPoints(hash, nodes[..i])
    {
      var node := nodes[i];
      var mine: seq<Point> := [];
      for k := 0 to node.weight
        invariant mine == NodePoints(hash, node.ep, k)
      {
        mine := mine + [PointOf(hash, node.ep, k)];
      }
      assert nodes[..i + 1][..i] == nodes[..i];
      all := all + mine;
    }
    assert nodes[..|nodes|] == nodes;
    points := SortPoints(all);
    ok := true;
  }

  // Any sort by hash will do.
  method SortPoints(ps: seq<Point>) returns (qs: seq<Point>)
    ensures Sorted(qs) && multiset(qs) == multiset(ps)
  {
    qs := [];
    for i := 0 to |ps|
      invariant Sorted(qs) && multiset(qs) == multiset(ps[..i])
    {
      qs := InsertPoint(qs, ps[i]);
      assert ps[..i + 1] == ps[..i] + [ps[i]];
    }
    assert ps[..|ps|] == ps;
  }

  method InsertPoint(qs: seq<Point>, p: Point) returns (rs: seq<Point>)
    requires Sorted(qs)
    ensures Sorted(rs) && multiset(rs) == multiset(qs) + multiset{p}
  {
    var n := |qs|;
    while n > 0 && p.hash < qs[n - 1].hash
      invariant 0 <= n <= |qs| && forall j :: n <= j < |qs| ==> p.hash < qs[j].hash
    {
      n := n - 1;
    }
    rs := InsertedAt(qs, n, p);
  }

  function InsertedAt(qs: seq<Point>, n: nat, p: Point): (rs: seq<Point>)
    requires n <= |qs|
    ensures |rs| == |qs| + 1 && multiset(rs) == multiset(qs) + multiset{p}
    ensures forall j :: 0 <= j < |rs| ==> rs[j] == if j < n then qs[j] else if j == n then p else qs[j - 1]
  {
    assert qs == qs[..n] + qs[n..];
    qs[..n] + [p] + qs[n..]
  }

  // ---------- looking up ----------

  // Linear search: the first point that is not below h, or one past the last.
  function FirstFrom(ps: seq<Point>, h: Hash, i: nat): (r: nat)
    requires i <= |ps|
    ensures i <= r <= |ps| && (r < |ps| ==> ps[r].hash >= h)
    ensures forall j :: i <= j < r ==> ps[j].hash < h
    decreases |ps| - i
  {
    if i == |ps| || ps[i].hash >= h then i else FirstFrom(ps, h, i + 1)
  }

  lemma {:induction false} FirstUnique(ps: seq<Point>, h: Hash, i: nat, r: nat)
    requires i <= r <= |ps| && (r < |ps| ==> ps[r].hash >= h)
    requires forall j :: i <= j < r ==> ps[j].hash < h
    ensures FirstFrom(ps, h, i) == r
    decreases |ps| - i
  {
    if i < r {
      FirstUnique(ps, h, i + 1, r);
    }
  }

  // The node of a hash: that of the first point not below it, wrapping around
  // to the first point of all. An empty ring answers the default endpoint.
  function Located(ps: seq<Point>, h: Hash): Endpoint {
    var i := FirstFrom(ps, h, 0);
    if i < |ps| then ps[i].ep else if ps != [] then ps[0].ep else Endpoint(0, 0)
  }

  // Binary search for the first point not below the hash of the key.
  method LocateCacheNode(hash: string -> Hash, ps: seq<Point>, key: string) returns (ep: Endpoint)
    requires Sorted(ps)
    ensures ep == Located(ps, hash(key))
  {
    var h := hash(key);
    var first, count := 0, |ps|;
    while count > 0
      invariant 0 <= first && 0 <= count && first + count <= |ps|
      invariant forall j :: 0 <= j < first ==> ps[j].hash < h
      invariant forall j :: first + count <= j < |ps| ==> ps[j].hash >= h
    {
      var half := count / 2;
      if ps[first + half].hash < h {
        first := first + half + 1;
        count := count - half - 1;
      } else {
        count := half;
      }
    }
    if first < |ps| {
      ep := ps[first].ep;
    } else if ps != [] {
      ep := ps[0].ep;
    } else {
      ep := Endpoint(0, 0);
    }
    FirstUnique(ps, h, 0, first);
  }

  // ---------- the circle ----------

  // The hashes are the 32-bit numbers.
  lemma HashRange(n: int)
    ensures 0 <= n < CIRCLE <==> 0 <= n <= 0xffff_ffff
  {
  }

  // Steps clockwise from h to p.
  function Distance(h: Hash, p: Hash): nat {
    if p >= h then p - h else p + 0x1_0000_0000 - h
  }

  // Point i is the next one clockwise from h.
  ghost predicate Nearest(ps: seq<Point>, h: Hash, i: nat)
    requires i < |ps|
  {
    forall j :: 0 <= j < |ps| ==> Distance(h, ps[i].hash) <= Distance(h, ps[j].hash)
  }

  // The search finds the next point clockwise.
  lemma LocatedNearest(ps: seq<Point>, h: Hash) returns (i: nat)
    requires Sorted(ps) && ps != []
    ensures i < |ps| && ps[i].ep == Located(ps, h) && Nearest(ps, h, i)
    ensures forall j :: 0 <= j < i ==> !Nearest(ps, h, j)
    ensures var f := FirstFrom(ps, h, 0); i == if f < |ps| then f else 0
  {
    i := FirstFrom(ps, h, 0);
    if i == |ps| {
      i := 0;
    } else {
      forall j | 0 <= j < i ensures !Nearest(ps, h, j) {
        assert Distance(h, ps[j].hash) > Distance(h, ps[i].hash);
      }
    }
  }

  // All the nearest points belong to one node.
  ghost predicate Clear(ps: seq<Point>, h: Hash) {
    forall i, j :: 0 <= i < |ps| && 0 <= j < |ps| && Nearest(ps, h, i) && Nearest(ps, h, j) ==> ps[i].ep == ps[j].ep
  }

  // small is big without some points of node x.
  ghost predicate Without(big: seq<Point>, small: seq<Point>, x: Endpoint) {
    multiset(small) <= multiset(big) && forall p :: p in multiset(big) - multiset(small) ==> p.ep == x
  }

  // Minimal remapping, on points: a hash that was not on x stays where it is.
  lemma Remap(big: seq<Point>, small: seq<Point>, x: Endpoint, h: Hash)
    requires Sorted(big) && Sorted(small) && Without(big, small, x) && Clear(small, h)
    requires Located(big, h) != x
    ensures Located(small, h) == Located(big, h)
  {
    if big != [] {
      var i := LocatedNearest(big, h);
      var p := big[i];
      assert p in multiset(big);
      assert p in multiset(small);
      assert p in small;
      var k :| 0 <= k < |small| && small[k] == p;
      forall j | 0 <= j < |small| ensures Distance(h, p.hash) <= Distance(h, small[j].hash) {
        assert small[j] in multiset(small);
        assert small[j] in big;
      }
      assert Nearest(small, h, k);
      var m := LocatedNearest(small, h);
    } else {
      assert |multiset(small)| <= |multiset(big)|;
    }
  }

  function Swapped(ps: seq<Point>, i: nat, k: nat): (qs: seq<Point>)
    requires i < |ps| && k < |ps| && ps[i].hash == ps[k].hash
    ensures |qs| == |ps| && qs[i] == ps[k] && forall j :: 0 <= j < |ps| ==> qs[j].hash == ps[j].hash
    ensures multiset(qs) == multiset(ps)
  {
    ps[i := ps[k]][k := ps[i]]
  }

  // Any nearest point can be the one that is found, when the sort puts it first
  // among its equals.
  lemma Arrangement(ps: seq<Point>, h: Hash, k: nat) returns (qs: seq<Point>)
    requires Sorted(ps) && k < |ps| && Nearest(ps, h, k)
    ensures Sorted(qs) && multiset(qs) == multiset(ps) && Located(qs, h) == ps[k].ep
  {
    var i := LocatedNearest(ps, h);
    assert Distance(h, ps[i].hash) == Distance(h, ps[k].hash);
    qs := Swapped(ps, i, k);
    hide Nearest;
    SameHashes(ps, qs, h, 0);
  }

  // Only the hashes matter for where the search ends.
  lemma {:induction false} SameHashes(ps: seq<Point>, qs: seq<Point>, h: Hash, i: nat)
    requires |ps| == |qs| && i <= |ps| && forall j :: 0 <= j < |ps| ==> ps[j].hash == qs[j].hash
    ensures FirstFrom(ps, h, i) == FirstFrom(qs, h, i)
    decreases |ps| - i
  {
    if i < |ps| && ps[i].hash < h {
      SameHashes(ps, qs, h, i + 1);
    }
  }

  // What a hash is mapped to does not depend on how the sort orders equal
  // points exactly when no two nodes tie for it.
  lemma Determined(ps: seq<Point>, h: Hash)
    requires Sorted(ps)
    ensures Clear(ps, h) <==>
            forall qs :: Sorted(qs) && multiset(qs) == multiset(ps) ==> Located(qs, h) == Located(ps, h)
  {
    if Clear(ps, h) {
      forall qs | Sorted(qs) && multiset(qs) == multiset(ps) ensures Located(qs, h) == Located(ps, h) {
        Rearranged(ps, qs, h);
      }
    } else {
      var i, j :| 0 <= i < |ps| && 0 <= j < |ps| && Nearest(ps, h, i) && Nearest(ps, h, j) && ps[i].ep != ps[j].ep;
      var qs := Arrangement(ps, h, i);
      var rs := Arrangement(ps, h, j);
      assert Located(qs, h) != Located(rs, h);
    }
  }

  lemma Rearranged(ps: seq<Point>, qs: seq<Point>, h: Hash)
    requires Sorted(ps) && Sorted(qs) && multiset(qs) == multiset(ps) && Clear(ps, h)
    ensures Located(qs, h) == Located(ps, h)
  {
    if ps == [] {
      assert |multiset(qs)| == 0;
    } else {
      assert ps[0] in multiset(qs);
      var i := LocatedNearest(ps, h);
      var k := LocatedNearest(qs, h);
      assert qs[k] in multiset(ps);
      var m :| 0 <= m < |ps| && ps[m] == qs[k];
      forall j | 0 <= j < |ps| ensures Distance(h, ps[m].hash) <= Distance(h, ps[j].hash) {
        assert ps[j] in multiset(qs);
        assert ps[j] in qs;
      }
      assert Nearest(ps, h, m);
    }
  }

  // A hash that was not on x stays where it is, however the remaining points
  // are sorted, if and only if no two remaining nodes tie for it.
  lemma RemapExactly(big: seq<Point>, small: seq<Point>, x: Endpoint, h: Hash)
    requires Sorted(big) && Sorted(small) && Without(big, small, x) && Located(big, h) != x
    ensures Clear(small, h) <==>
            forall qs :: Sorted(qs) && multiset(qs) == multiset(small) ==> Located(qs, h) == Located(big, h)
  {
    hide Without, Sorted, Located, Clear;
    Determined(small, h);
    if Clear(small, h) {
      Remap(big, small, x, h);
    }
  }

  // ---------- changing the nodes ----------

  // The points of a node that has lost weight are some of those it had.
  lemma Lighter(hash: string -> Hash, nodes: seq<Node>, i: nat, weight: nat)
    requires i < |nodes| && weight <= nodes[i].weight
    ensures Without(RingPoints(hash, nodes), RingPoints(hash, nodes[i := nodes[i].(weight := weight)]), nodes[i].ep)
    decreases |nodes|
  {
    hide Without, NodePoints;
    var n := |nodes| - 1;
    var ep := nodes[i].ep;
    var nodes' := nodes[i := nodes[i].(weight := weight)];
    if i == n {
      assert nodes'[..n] == nodes[..n];
      FewerPoints(hash, RingPoints(hash, nodes[..n]), ep, nodes[n].weight, weight);
    } else {
      Lighter(hash, nodes[..n], i, weight);
      assert nodes'[..n] == nodes[..n][i := nodes[i].(weight := weight)];
      WithoutMore(RingPoints(hash, nodes[..n]), RingPoints(hash, nodes'[..n]), ep,
                  NodePoints(hash, nodes[n].ep, nodes[n].weight));
    }
  }

  lemma WithoutMore(big: seq<Point>, small: seq<Point>, x: Endpoint, more: seq<Point>)
    requires Without(big, small, x)
    ensures Without(big + more, small + more, x)
  {
    assert multiset(big + more) - multiset(small + more) == multiset(big) - multiset(small);
  }

  lemma FewerPoints(hash: string -> Hash, ps: seq<Point>, ep: Endpoint, more: nat, fewer: nat)
    requires fewer <= more
    ensures Without(ps + NodePoints(hash, ep, more), ps + NodePoints(hash, ep, fewer), ep)
  {
    var mine := NodePoints(hash, ep, more);
    var rest := mine[fewer..];
    assert mine == NodePoints(hash, ep, fewer) + rest;
    assert multiset(ps + mine) - multiset(ps + NodePoints(hash, ep, fewer)) == multiset(rest);
    forall p: Point | p in multiset(rest) ensures p.ep == ep {
      assert p in rest;
    }
  }

  // A node without weight might as well not be there.
  lemma {:induction false} Weightless(hash: string -> Hash, nodes: seq<Node>, i: nat)
    requires i < |nodes|
    ensures RingPoints(hash, nodes[i := nodes[i].(weight := 0)]) == RingPoints(hash, nodes[..i] + nodes[i + 1..])
    decreases |nodes|
  {
    var n := |nodes| - 1;
    var zero := nodes[i := nodes[i].(weight := 0)];
    var gone := nodes[..i] + nodes[i + 1..];
    if i == n {
      assert zero[..n] == nodes[..n] == gone;
      assert NodePoints(hash, nodes[i].ep, 0) == [];
    } else {
      Weightless(hash, nodes[..n], i);
      assert zero[..n] == nodes[..n][i := nodes[i].(weight := 0)];
      assert gone[..n - 1] == nodes[..n][..i] + nodes[..n][i + 1..];
      assert zero[n] == nodes[n] == gone[n - 1];
    }
  }

  // Lowering the weight of a node relocates only keys that were on it; read
  // the other way, raising it moves keys only to it. Keys for which surviving
  // nodes tie are excepted.
  lemma ChangeWeight(hash: string -> Hash, nodes: seq<Node>, i: nat, weight: nat, big: seq<Point>, small: seq<Point>,
                     h: Hash)
    requires i < |nodes| && weight <= nodes[i].weight
    requires IsRing(big, hash, nodes) && IsRing(small, hash, nodes[i := nodes[i].(weight := weight)])
    requires Clear(small, h)
    ensures Located(big, h) != nodes[i].ep ==> Located(small, h) == Located(big, h)
  {
    Lighter(hash, nodes, i, weight);
    if Located(big, h) != nodes[i].ep {
      Remap(big, small, nodes[i].ep, h);
    }
  }

  // Removing a node relocates only keys that were on it; adding one moves keys only to it.
  lemma RemoveNode(hash: string -> Hash, nodes: seq<Node>, i: nat, big: seq<Point>, small: seq<Point>, h: Hash)
    requires i < |nodes|
    requires IsRing(big, hash, nodes) && IsRing(small, hash, nodes[..i] + nodes[i + 1..])
    requires Clear(small, h)
    ensures Located(big, h) != nodes[i].ep ==> Located(small, h) == Located(big, h)
  {
    Weightless(hash, nodes, i);
    ChangeWeight(hash, nodes, i, 0, big, small, h);
  }

  // With different hashes on the points of different nodes, no key is excepted.
  lemma DistinctIsClear(ps: seq<Point>, h: Hash)
    requires forall i, j :: 0 <= i < |ps| && 0 <= j < |ps| && ps[i].hash == ps[j].hash ==> ps[i].ep == ps[j].ep
    ensures Clear(ps, h)
  {
    forall i, j | 0 <= i < |ps| && 0 <= j < |ps| && Nearest(ps, h, i) && Nearest(ps, h, j) ensures ps[i].ep == ps[j].ep {
      assert Distance(h, ps[i].hash) == Distance(h, ps[j].hash);
    }
  }

  lemma Extra(p: Point, q: Point, r: Point)
    ensures Without([p, q, r], [q, p], r.ep)
  {
    assert multiset([p, q, r]) - multiset([q, p]) == multiset{r};
  }

  lemma FoundFirst(ps: seq<Point>, h: Hash)
    requires ps != [] && ps[0].hash == h
    ensures Located(ps, h) == ps[0].ep
  {
  }

  lemma InOrder(p: Point, q: Point, r: Point)
    requires p.hash == q.hash < r.hash
    ensures Sorted([p, q, r]) && Sorted([q, p])
  {
  }

  // Without that a key can move between two nodes that stay: the nodes of p and
  // q share a point, and once that of r is gone the sort puts them the other
  // way round.
  lemma CollisionMoves(p: Point, q: Point, r: Point)
    requires p.hash == q.hash < r.hash && p.ep != q.ep && p.ep != r.ep && q.ep != r.ep
    ensures Sorted([p, q, r]) && Sorted([q, p]) && Without([p, q, r], [q, p], r.ep)
    ensures Located([p, q, r], p.hash) == p.ep && Located([q, p], p.hash) == q.ep
  {
    hide Without, Located, Sorted;
    InOrder(p, q, r);
    FoundFirst([p, q, r], p.hash);
    FoundFirst([q, p], p.hash);
    Extra(p, q, r);
  }
}
