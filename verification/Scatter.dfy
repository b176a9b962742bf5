/**
 Splitting the bulks of one client array over endpoints: which bulks go to an
 endpoint, the runs of equal endpoints in key order, and lists of buffer
 segments that stand for a piece of text.
 */
module Scatter {
  import opened Resp
  import opened Net

  // The endpoints of the keys, by their payloads.
  function Located(keys: seq<Bytes>, locate: Bytes -> Endpoint): (eps: seq<Endpoint>)
    requires AllWhole(keys)
    ensures |eps| == |keys| && forall i :: 0 <= i < |keys| ==> eps[i] == locate(Payload(keys[i]))
  {
    seq(|keys|, i requires 0 <= i < |keys| => locate(Payload(keys[i])))
  }

  // The xs whose tag is b, in order.
  function Select<K(==), T>(eps: seq<K>, xs: seq<T>, b: K): seq<T>
    requires |eps| == |xs|
  {
    if xs == [] then []
    else
      var n := |xs| - 1;
      Select(eps[..n], xs[..n], b) + if eps[n] == b then [xs[n]] else []
  }

  lemma SelectNext<K, T>(eps: seq<K>, xs: seq<T>, b: K, d: nat)
    requires |eps| == |xs| && d < |eps|
    ensures Select(eps[..d + 1], xs[..d + 1], b)
         == Select(eps[..d], xs[..d], b) + if eps[d] == b then [xs[d]] else []
  {
    assert eps[..d + 1][..d] == eps[..d];
    assert xs[..d + 1][..d] == xs[..d];
  }

  lemma {:induction false} SelectCount<K, T>(eps: seq<K>, xs: seq<T>, b: K)
    requires |eps| == |xs|
    ensures |Select(eps, xs, b)| == multiset(eps)[b]
  {
    if xs != [] {
      var n := |xs| - 1;
      SelectCount(eps[..n], xs[..n], b);
      assert eps == eps[..n] + [eps[n]];
    }
  }

  lemma CountNext<K>(eps: seq<K>, b: K, d: nat)
    requires d < |eps|
    ensures multiset(eps[..d + 1])[b] == multiset(eps[..d])[b] + if eps[d] == b then 1 else 0
    ensures multiset(eps[..d + 1])[b] <= multiset(eps)[b]
  {
    assert eps[..d + 1] == eps[..d] + [eps[d]];
    assert eps == eps[..d + 1] + eps[d + 1..];
  }

  lemma {:induction false} SelectTake<K, T>(eps: seq<K>, xs: seq<T>, b: K, d: nat)
    requires |eps| == |xs| && d <= |eps|
    ensures Select(eps[..d], xs[..d], b) <= Select(eps, xs, b)
  {
    if d == |eps| {
      assert eps[..d] == eps && xs[..d] == xs;
    } else {
      var n := |eps| - 1;
      SelectTake(eps[..n], xs[..n], b, d);
      assert eps[..n][..d] == eps[..d] && xs[..n][..d] == xs[..d];
    }
  }

  // The item of position d is the next one with its tag.
  lemma SelectAt<K, T>(eps: seq<K>, xs: seq<T>, d: nat)
    requires |eps| == |xs| && d < |eps|
    ensures var c := |Select(eps[..d], xs[..d], eps[d])|;
            c < |Select(eps, xs, eps[d])| && Select(eps, xs, eps[d])[c] == xs[d]
  {
    SelectNext(eps, xs, eps[d], d);
    SelectTake(eps, xs, eps[d], d + 1);
  }

  lemma {:induction false} SelectSame<K, T>(eps: seq<K>, xs: seq<T>, ys: seq<T>, b: K)
    requires |eps| == |xs| == |ys|
    requires forall i :: 0 <= i < |eps| && eps[i] == b ==> xs[i] == ys[i]
    ensures Select(eps, xs, b) == Select(eps, ys, b)
  {
    if xs != [] {
      var n := |xs| - 1;
      SelectSame(eps[..n], xs[..n], ys[..n], b);
    }
  }

  lemma {:induction false} SelectAll<K, T(!new)>(eps: seq<K>, xs: seq<T>, b: K, P: T -> bool)
    requires |eps| == |xs|
    requires forall i :: 0 <= i < |eps| && eps[i] == b ==> P(xs[i])
    ensures forall j :: 0 <= j < |Select(eps, xs, b)| ==> P(Select(eps, xs, b)[j])
  {
    if xs != [] {
      var n := |xs| - 1;
      SelectAll(eps[..n], xs[..n], b, P);
    }
  }

  // ---------- runs ----------

  datatype Run = Run(ep: Endpoint, count: nat)

  function ConsRun(ep: Endpoint, rs: seq<Run>): seq<Run> {
    if rs != [] && rs[0].ep == ep then [Run(ep, rs[0].count + 1)] + rs[1..]
    else [Run(ep, 1)] + rs
  }

  // Maximal runs of equal endpoints.
  function Runs(eps: seq<Endpoint>): (rs: seq<Run>)
    ensures eps == [] <==> rs == []
    ensures eps != [] ==> rs[0].ep == eps[0]
    ensures forall i :: 0 <= i < |rs| ==> rs[i].count > 0
  {
    if eps == [] then [] else ConsRun(eps[0], Runs(eps[1..]))
  }

  // How the constructor extends the queue by one key.
  function PushRun(rs: seq<Run>, ep: Endpoint): seq<Run> {
    if rs == [] || rs[|rs| - 1].ep != ep then rs + [Run(ep, 1)]
    else rs[..|rs| - 1] + [Run(ep, rs[|rs| - 1].count + 1)]
  }

  lemma ConsThenPush(e: Endpoint, rs: seq<Run>, ep: Endpoint)
    ensures ConsRun(e, PushRun(rs, ep)) == PushRun(ConsRun(e, rs), ep)
  {
    if |rs| == 1 {
      assert rs == [rs[0]];
    } else if |rs| > 1 {
      assert rs == [rs[0]] + rs[1..|rs| - 1] + [rs[|rs| - 1]];
      assert PushRun(rs, ep)[0] == rs[0];
      assert PushRun(rs, ep)[1..] == PushRun(rs[1..], ep);
    }
  }

  lemma {:induction false} RunsSnoc(eps: seq<Endpoint>, ep: Endpoint)
    ensures Runs(eps + [ep]) == PushRun(Runs(eps), ep)
  {
    if eps == [] {
      assert Runs([ep][1..]) == [];
    } else {
      RunsSnoc(eps[1..], ep);
      assert (eps + [ep])[1..] == eps[1..] + [ep];
      assert (eps + [ep])[0] == eps[0];
      ConsThenPush(eps[0], Runs(eps[1..]), ep);
    }
  }

  // Remaining replies of an endpoint in a queue of runs.
  function InRuns(rs: seq<Run>, b: Endpoint): nat {
    if rs == [] then 0 else (if rs[0].ep == b then rs[0].count else 0) + InRuns(rs[1..], b)
  }

  // Remaining replies of all endpoints.
  function Left(rs: seq<Run>): nat {
    if rs == [] then 0 else rs[0].count + Left(rs[1..])
  }

  lemma {:induction false} LeftOfRuns(eps: seq<Endpoint>)
    ensures Left(Runs(eps)) == |eps|
  {
    if eps != [] {
      LeftOfRuns(eps[1..]);
    }
  }

  lemma {:induction false} InRunsCount(eps: seq<Endpoint>, b: Endpoint)
    ensures InRuns(Runs(eps), b) == multiset(eps)[b]
  {
    if eps != [] {
      InRunsCount(eps[1..], b);
      assert eps == [eps[0]] + eps[1..];
    }
  }

  // ---------- segments ----------

  datatype Segment = Segment(start: nat, size: nat)

  predicate SegmentsIn(segs: seq<Segment>, limit: nat) {
    forall i :: 0 <= i < |segs| ==> segs[i].start + segs[i].size <= limit
  }

  function Pieces(text: Bytes, segs: seq<Segment>): (ps: seq<Bytes>)
    requires SegmentsIn(segs, |text|)
    ensures |ps| == |segs|
    ensures forall i :: 0 <= i < |segs| ==> ps[i] == text[segs[i].start..segs[i].start + segs[i].size]
  {
    seq(|segs|, i requires 0 <= i < |segs| => text[segs[i].start..segs[i].start + segs[i].size])
  }

  // The bytes a list of segments stands for.
  function SegmentText(text: Bytes, segs: seq<Segment>): Bytes
    requires SegmentsIn(segs, |text|)
  {
    Concat(Pieces(text, segs))
  }

  lemma SegmentAppend(text: Bytes, segs: seq<Segment>, s: Segment)
    requires SegmentsIn(segs, |text|) && s.start + s.size <= |text|
    ensures SegmentsIn(segs + [s], |text|)
    ensures SegmentText(text, segs + [s]) == SegmentText(text, segs) + text[s.start..s.start + s.size]
  {
    var p := text[s.start..s.start + s.size];
    assert Pieces(text, segs + [s]) == Pieces(text, segs) + [p];
    ConcatSnoc(Pieces(text, segs), p);
  }

  function Extend(segs: seq<Segment>, size: nat): (r: seq<Segment>)
    requires segs != []
    ensures |r| == |segs|
  {
    var n := |segs| - 1;
    segs[..n] + [Segment(segs[n].start, segs[n].size + size)]
  }

  lemma SegmentExtend(text: Bytes, segs: seq<Segment>, size: nat)
    requires segs != [] && SegmentsIn(segs, |text|)
    requires segs[|segs| - 1].start + segs[|segs| - 1].size + size <= |text|
    ensures SegmentsIn(Extend(segs, size), |text|)
    ensures var e := segs[|segs| - 1].start + segs[|segs| - 1].size;
            SegmentText(text, Extend(segs, size)) == SegmentText(text, segs) + text[e..e + size]
  {
    var n := |segs| - 1;
    var last, longer := segs[n], Segment(segs[n].start, segs[n].size + size);
    var e := last.start + last.size;
    assert segs == segs[..n] + [last];
    SegmentAppend(text, segs[..n], last);
    SegmentAppend(text, segs[..n], longer);
    assert text[last.start..e + size] == text[last.start..e] + text[e..e + size];
  }

  lemma SegmentPop(text: Bytes, segs: seq<Segment>)
    requires segs != [] && SegmentsIn(segs, |text|)
    ensures SegmentsIn(segs[1..], |text|)
    ensures SegmentText(text, segs)
         == text[segs[0].start..segs[0].start + segs[0].size] + SegmentText(text, segs[1..])
  {
    assert Pieces(text, segs)[1..] == Pieces(text, segs[1..]);
  }

  // The elements of owners 0 to n - 1 together.
  ghost function Together<T>(owner: seq<nat>, xs: seq<T>, n: nat): multiset<T>
    requires |owner| == |xs|
  {
    if n == 0 then multiset{}
    else
      var id: nat := n - 1;
      Together(owner, xs, id) + multiset(Select(owner, xs, id))
  }

  lemma {:induction false} TogetherNext<T>(owner: seq<nat>, xs: seq<T>, n: nat)
    requires |owner| == |xs| > 0
    ensures var k := |xs| - 1;
            var before := Together(owner[..k], xs[..k], n);
            Together(owner, xs, n) == if owner[k] < n then before + multiset{xs[k]} else before
  {
    hide Select;
    if n > 0 {
      var k, id: nat := |xs| - 1, n - 1;
      TogetherNext(owner, xs, id);
      SelectBag(owner, xs, id);
      AddOne(Together(owner[..k], xs[..k], id), multiset(Select(owner[..k], xs[..k], id)), xs[k]);
    }
  }

  lemma BagSnoc<T>(xs: seq<T>)
    requires xs != []
    ensures multiset(xs) == multiset(xs[..|xs| - 1]) + multiset{xs[|xs| - 1]}
  {
    assert xs == xs[..|xs| - 1] + [xs[|xs| - 1]];
  }

  lemma AddOne<T>(a: multiset<T>, b: multiset<T>, x: T)
    ensures a + multiset{x} + b == a + b + multiset{x}
    ensures a + (b + multiset{x}) == a + b + multiset{x}
  {
  }

  lemma SelectBag<T>(owner: seq<nat>, xs: seq<T>, id: nat)
    requires |owner| == |xs| > 0
    ensures var k := |xs| - 1;
            var before := multiset(Select(owner[..k], xs[..k], id));
            multiset(Select(owner, xs, id)) == if owner[k] == id then before + multiset{xs[k]} else before
  {
    var k := |xs| - 1;
    assert Select(owner[..k], xs[..k], id) + [] == Select(owner[..k], xs[..k], id);
  }

  // Every element is with its owner and with no other.
  lemma {:induction false} EachOnce<T>(owner: seq<nat>, xs: seq<T>, n: nat)
    requires |owner| == |xs| && forall i :: 0 <= i < |owner| ==> owner[i] < n
    ensures Together(owner, xs, n) == multiset(xs)
  {
    if xs == [] {
      NothingTogether(owner, xs, n);
    } else {
      hide Together;
      var k := |xs| - 1;
      TogetherNext(owner, xs, n);
      EachOnce(owner[..k], xs[..k], n);
      BagSnoc(xs);
    }
  }

  lemma {:induction false} NothingTogether<T>(owner: seq<nat>, xs: seq<T>, n: nat)
    requires |owner| == |xs| == 0
    ensures Together(owner, xs, n) == multiset{}
  {
    if n > 0 {
      NothingTogether(owner, xs, n - 1);
    }
  }
}
