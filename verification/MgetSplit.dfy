/**
 The scatter side of MGET: how the constructor splits the keys of a query over
 subqueries, and what is written to each backend.
 */
module MgetSplit {
  import opened Resp
  import opened Net
  import opened Scatter
  import F = Framing

  // One backend's share of the query. `segments` point into the text of the
  // client's keys, `wire` is what has been handed to the backend socket.
  datatype Subquery = Subquery(keyCount: nat, segments: seq<Segment>, absent: nat, wire: Bytes)

  const MGET_BULK: Bytes := "$4\r\nmget\r\n"

  // A well-formed mget query for the given key bulks.
  function MgetQuery(keys: seq<Bytes>): Bytes {
    EncodeArray([MGET_BULK] + keys)
  }

  // What a backend reads when it parses the query: the name "mget", and then the
  // keys one after another.
  lemma MgetDecodes(keys: seq<Bytes>, i: nat)
    requires AllWhole(keys) && i < |keys|
    ensures var s := MgetQuery(keys);
            var v := ParseArray(s);
            && v.Parsed? && v.bulks == |v.items| == 1 + |keys| && v.Completed(|s|)
            && v.Offset(0) + v.items[0] <= |s| && WholeBulk(v.Item(s, 0)) && Payload(v.Item(s, 0)) == "mget"
            && F.KindOf(Payload(v.Item(s, 0))) == Some(F.Mget)
            && v.Offset(1 + i) + v.items[1 + i] <= |s| && v.Item(s, 1 + i) == keys[i]
  {
    hide ParseArray, WholeBulk, Payload, F.KindOf, EncodeArray;
    NameOfMget();
    var ws := [MGET_BULK] + keys;
    ArrayShows(ws, 0);
    ArrayShows(ws, 1 + i);
  }

  lemma NameOfMget()
    ensures WholeBulk(MGET_BULK) && Payload(MGET_BULK) == "mget" && F.KindOf("mget") == Some(F.Mget)
  {
    F.OtherNames();
    F.NamedBulk("mget", MGET_BULK, 4);
  }

  // One key added to the share of its endpoint; `adjacent` when the previous
  // key went to the same endpoint.
  function AddKey(subs: map<Endpoint, Subquery>, b: Endpoint, start: nat, size: nat, adjacent: bool)
    : map<Endpoint, Subquery>
    requires adjacent ==> b in subs && subs[b].segments != []
  {
    var q := if b in subs then subs[b] else Subquery(0, [], 0, []);
    var segs := if adjacent then Extend(q.segments, size) else q.segments + [Segment(start, size)];
    subs[b := q.(keyCount := q.keyCount + 1, segments := segs)]
  }

  // The shares of the first i keys.
  ghost predicate ShareOk(keys: seq<Bytes>, eps: seq<Endpoint>, i: nat, b: Endpoint, q: Subquery)
    requires |keys| == |eps| && i <= |keys|
  {
    && q.keyCount == multiset(eps[..i])[b] > 0
    && q.absent == 0 && q.wire == []
    && q.segments != []
    && SegmentsIn(q.segments, |Concat(keys)|)
    && SegmentText(Concat(keys), q.segments) == Concat(Select(eps[..i], keys[..i], b))
  }

  predicate EndsAt(segs: seq<Segment>, e: nat) {
    segs != [] && segs[|segs| - 1].start + segs[|segs| - 1].size == e
  }

  ghost predicate SharesOk(keys: seq<Bytes>, eps: seq<Endpoint>, i: nat, subs: map<Endpoint, Subquery>)
    requires |keys| == |eps| && i <= |keys|
  {
    && (forall b :: b in subs <==> b in eps[..i])
    && (forall b :: b in subs ==> ShareOk(keys, eps, i, b, subs[b]))
    && (i > 0 ==> eps[i - 1] in subs && EndsAt(subs[eps[i - 1]].segments, |Concat(keys[..i])|))
  }

  lemma ShareUntouched(keys: seq<Bytes>, eps: seq<Endpoint>, i: nat, b: Endpoint, q: Subquery)
    requires |keys| == |eps| && i < |keys| && eps[i] != b
    requires ShareOk(keys, eps, i, b, q)
    ensures ShareOk(keys, eps, i + 1, b, q)
  {
    CountNext(eps, b, i);
    SelectNext(eps, keys, b, i);
    assert Select(eps[..i + 1], keys[..i + 1], b) == Select(eps[..i], keys[..i], b);
  }

  lemma KeyAt(keys: seq<Bytes>, i: nat)
    requires i < |keys|
    ensures var o := |Concat(keys[..i])|;
            && o + |keys[i]| == |Concat(keys[..i + 1])| <= |Concat(keys)|
            && Concat(keys)[o..o + |keys[i]|] == keys[i]
  {
    ItemAt(keys, i);
    ConcatTake(keys, i);
  }

  lemma ShareGrows(keys: seq<Bytes>, eps: seq<Endpoint>, i: nat, subs: map<Endpoint, Subquery>, adjacent: bool)
    requires |keys| == |eps| && i < |keys|
    requires SharesOk(keys, eps, i, subs)
    requires adjacent <==> i > 0 && eps[i - 1] == eps[i]
    ensures var o := |Concat(keys[..i])|;
            var q := AddKey(subs, eps[i], o, |keys[i]|, adjacent)[eps[i]];
            && ShareOk(keys, eps, i + 1, eps[i], q)
            && EndsAt(q.segments, o + |keys[i]|)
  {
    hide *;
    var b, o := eps[i], |Concat(keys[..i])|;
    KeyAt(keys, i);
    if b in subs {
      OldShare(keys, eps, i, subs, b);
      if adjacent {
        AddedAdjacent(subs, b, o, |keys[i]|);
        GrowAdjacent(keys, i, subs[b].segments);
      } else {
        AddedApart(subs, b, o, |keys[i]|);
        GrowApart(keys, i, subs[b].segments);
      }
      ShareNext(keys, eps, i, Concat(Select(eps[..i], keys[..i], b)), AddKey(subs, b, o, |keys[i]|, adjacent)[b]);
    } else {
      NewShare(keys, eps, i, subs, b);
      AddedNew(subs, b, o, |keys[i]|);
      NoShare(keys, eps, i, b);
      GrowApart(keys, i, []);
      ShareNext(keys, eps, i, [], AddKey(subs, b, o, |keys[i]|, false)[b]);
    }
  }

  lemma OldShare(keys: seq<Bytes>, eps: seq<Endpoint>, i: nat, subs: map<Endpoint, Subquery>, b: Endpoint)
    requires |keys| == |eps| && i < |keys| && SharesOk(keys, eps, i, subs) && b in subs
    ensures var q := subs[b];
            && q.keyCount == multiset(eps[..i])[b] && q.absent == 0 && q.wire == [] && q.segments != []
            && SegmentsIn(q.segments, |Concat(keys)|)
            && SegmentText(Concat(keys), q.segments) == Concat(Select(eps[..i], keys[..i], b))
            && (i > 0 && eps[i - 1] == b ==> EndsAt(q.segments, |Concat(keys[..i])|))
  {
    hide Concat, Select, SegmentsIn, SegmentText;
  }

  lemma NewShare(keys: seq<Bytes>, eps: seq<Endpoint>, i: nat, subs: map<Endpoint, Subquery>, b: Endpoint)
    requires |keys| == |eps| && i < |keys| && SharesOk(keys, eps, i, subs) && b !in subs
    ensures b !in eps[..i] && (i > 0 ==> eps[i - 1] != b)
  {
    hide ShareOk;
    assert i > 0 ==> eps[i - 1] == eps[..i][i - 1];
  }

  lemma AddedAdjacent(subs: map<Endpoint, Subquery>, b: Endpoint, start: nat, size: nat)
    requires b in subs && subs[b].segments != []
    ensures b in AddKey(subs, b, start, size, true)
    ensures AddKey(subs, b, start, size, true)[b]
         == subs[b].(keyCount := subs[b].keyCount + 1, segments := Extend(subs[b].segments, size))
  {
  }

  lemma AddedApart(subs: map<Endpoint, Subquery>, b: Endpoint, start: nat, size: nat)
    requires b in subs
    ensures b in AddKey(subs, b, start, size, false)
    ensures AddKey(subs, b, start, size, false)[b]
         == subs[b].(keyCount := subs[b].keyCount + 1, segments := subs[b].segments + [Segment(start, size)])
  {
  }

  lemma AddedNew(subs: map<Endpoint, Subquery>, b: Endpoint, start: nat, size: nat)
    requires b !in subs
    ensures b in AddKey(subs, b, start, size, false)
    ensures AddKey(subs, b, start, size, false)[b] == Subquery(1, [] + [Segment(start, size)], 0, [])
  {
  }

  // Key i directly after the last segment.
  lemma GrowAdjacent(keys: seq<Bytes>, i: nat, segs: seq<Segment>)
    requires i < |keys| && segs != [] && SegmentsIn(segs, |Concat(keys)|) && EndsAt(segs, |Concat(keys[..i])|)
    ensures var segs' := Extend(segs, |keys[i]|);
            && segs' != [] && SegmentsIn(segs', |Concat(keys)|)
            && SegmentText(Concat(keys), segs') == SegmentText(Concat(keys), segs) + keys[i]
            && EndsAt(segs', |Concat(keys[..i])| + |keys[i]|)
  {
    hide Concat, SegmentText, SegmentsIn;
    KeyAt(keys, i);
    SegmentExtend(Concat(keys), segs, |keys[i]|);
  }

  // Key i as a segment of its own.
  lemma GrowApart(keys: seq<Bytes>, i: nat, segs: seq<Segment>)
    requires i < |keys| && SegmentsIn(segs, |Concat(keys)|)
    ensures var segs' := segs + [Segment(|Concat(keys[..i])|, |keys[i]|)];
            && segs' != [] && SegmentsIn(segs', |Concat(keys)|)
            && SegmentText(Concat(keys), segs') == SegmentText(Concat(keys), segs) + keys[i]
            && EndsAt(segs', |Concat(keys[..i])| + |keys[i]|)
  {
    hide Concat, SegmentText, SegmentsIn;
    KeyAt(keys, i);
    SegmentAppend(Concat(keys), segs, Segment(|Concat(keys[..i])|, |keys[i]|));
  }

  // A share whose segments have grown by key i is the share of one key more.
  lemma ShareNext(keys: seq<Bytes>, eps: seq<Endpoint>, i: nat, mine: Bytes, q: Subquery)
    requires |keys| == |eps| && i < |keys| && mine == Concat(Select(eps[..i], keys[..i], eps[i]))
    requires q.keyCount == multiset(eps[..i])[eps[i]] + 1 && q.absent == 0 && q.wire == [] && q.segments != []
    requires SegmentsIn(q.segments, |Concat(keys)|) && SegmentText(Concat(keys), q.segments) == mine + keys[i]
    ensures ShareOk(keys, eps, i + 1, eps[i], q)
  {
    hide Concat, Select, SegmentsIn, SegmentText;
    CountNext(eps, eps[i], i);
    SelectNext(eps, keys, eps[i], i);
    ConcatSnoc(Select(eps[..i], keys[..i], eps[i]), keys[i]);
  }

  lemma NoShare(keys: seq<Bytes>, eps: seq<Endpoint>, i: nat, b: Endpoint)
    requires |keys| == |eps| && i <= |keys| && b !in eps[..i]
    ensures multiset(eps[..i])[b] == 0 && Select(eps[..i], keys[..i], b) == []
    ensures Concat(Select(eps[..i], keys[..i], b)) == [] && SegmentText(Concat(keys), []) == []
    ensures SegmentsIn([], |Concat(keys)|)
  {
    SelectCount(eps[..i], keys[..i], b);
  }

  lemma SharesGrow(keys: seq<Bytes>, eps: seq<Endpoint>, i: nat, subs: map<Endpoint, Subquery>, adjacent: bool)
    requires |keys| == |eps| && i < |keys|
    requires SharesOk(keys, eps, i, subs)
    requires adjacent <==> i > 0 && eps[i - 1] == eps[i]
    ensures SharesOk(keys, eps, i + 1, AddKey(subs, eps[i], |Concat(keys[..i])|, |keys[i]|, adjacent))
  {
    hide Concat, Select, SegmentsIn, SegmentText, ShareOk;
    var subs' := AddKey(subs, eps[i], |Concat(keys[..i])|, |keys[i]|, adjacent);
    ShareGrows(keys, eps, i, subs, adjacent);
    KeyAt(keys, i);
    assert eps[..i + 1] == eps[..i] + [eps[i]];
    forall b | b in subs' ensures ShareOk(keys, eps, i + 1, b, subs'[b]) {
      if b != eps[i] {
        ShareUntouched(keys, eps, i, b, subs[b]);
      }
    }
  }

  // The loop of the constructor. Each endpoint gets one subquery that covers
  // exactly its keys in query order, and takes one lock on the client buffer;
  // the reply queue holds the runs of endpoints in key order.
  method Split(keys: seq<Bytes>, eps: seq<Endpoint>)
    returns (subs: map<Endpoint, Subquery>, queue: seq<Run>, locks: nat)
    requires |keys| == |eps|
    ensures SharesOk(keys, eps, |eps|, subs)
    ensures queue == Runs(eps)
    ensures locks == |subs|
  {
    hide ShareOk, Concat, Runs, EndsAt, SharesOk;
    subs, queue, locks := map[], [], 0;
    NoShares(keys, eps);
    var last: Option<Endpoint> := None;
    var start := 0;
    assert Runs(eps[..0]) == [];
    assert |Concat(keys[..0])| == 0 by { ConcatNothing(keys); }
    for i := 0 to |eps|
      invariant SharesOk(keys, eps, i, subs)
      invariant queue == Runs(eps[..i])
      invariant locks == |subs|
      invariant start == |Concat(keys[..i])|
      invariant last == if i == 0 then None else Some(eps[i - 1])
    {
      var b := eps[i];
      LastShare(keys, eps, i, subs);
      SharesGrow(keys, eps, i, subs, last == Some(b));
      KeyAt(keys, i);
      if b !in subs {
        locks := locks + 1;
      }
      subs := AddKey(subs, b, start, |keys[i]|, last == Some(b));
      last := Some(b);
      assert eps[..i + 1] == eps[..i] + [b];
      RunsSnoc(eps[..i], b);
      if queue == [] || queue[|queue| - 1].ep != b {
        queue := queue + [Run(b, 1)];
      } else {
        queue := queue[..|queue| - 1] + [Run(b, queue[|queue| - 1].count + 1)];
      }
      start := start + |keys[i]|;
    }
    assert eps[..|eps|] == eps;
  }

  lemma NoShares(keys: seq<Bytes>, eps: seq<Endpoint>)
    requires |keys| == |eps|
    ensures SharesOk(keys, eps, 0, map[])
  {
  }

  // The last endpoint has a share with a segment, which an adjacent key extends.
  lemma LastShare(keys: seq<Bytes>, eps: seq<Endpoint>, i: nat, subs: map<Endpoint, Subquery>)
    requires |keys| == |eps| && i <= |keys| && SharesOk(keys, eps, i, subs)
    ensures i > 0 ==> eps[i - 1] in subs && subs[eps[i - 1]].segments != []
  {
    hide Concat;
  }

  lemma ConcatNothing(keys: seq<Bytes>)
    ensures Concat(keys[..0]) == []
  {
  }
}
