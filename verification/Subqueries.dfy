/**
 Splitting batches of items (the pairs of an MSET, the keys of a DEL) over
 subqueries: within a batch every endpoint gets one subquery, whose segments
 point at its items in the client's text.
 */
module Subqueries {
  import opened Resp
  import opened Net
  import opened Scatter

  // One subquery's share of the items.
  datatype Share = Share(ep: Endpoint, count: nat, segments: seq<Segment>)

  // One more item for a share: adjacent items are merged into one segment.
  function Added(s: Share, start: nat, size: nat): Share {
    var n := |s.segments| - 1;
    if n >= 0 && s.segments[n].start + s.segments[n].size == start
    then s.(count := s.count + 1, segments := Extend(s.segments, size))
    else s.(count := s.count + 1, segments := s.segments + [Segment(start, size)])
  }

  // Start of item i in the text.
  function Start(h: nat, items: seq<Bytes>, i: nat): nat
    requires i <= |items|
  {
    h + |Concat(items[..i])|
  }

  // The items lie one after another in the text, from position h on.
  ghost predicate LaidOut(text: Bytes, h: nat, items: seq<Bytes>) {
    h + |Concat(items)| <= |text| && text[h..h + |Concat(items)|] == Concat(items)
  }

  lemma ItemInText(text: Bytes, h: nat, items: seq<Bytes>, i: nat)
    requires LaidOut(text, h, items) && i < |items|
    ensures Start(h, items, i + 1) == Start(h, items, i) + |items[i]| <= |text|
    ensures text[Start(h, items, i)..Start(h, items, i + 1)] == items[i]
  {
    hide Concat;
    ItemAt(items, i);
    ConcatTake(items, i);
    var o := |Concat(items[..i])|;
    SubSlice(text, h, h + |Concat(items)|, o, o + |items[i]|);
  }

  // The segments of a share, and what is missing of its last item, make up
  // exactly the items it owns.
  ghost predicate ShareOk(text: Bytes, items: seq<Bytes>, owner: seq<nat>, id: nat, s: Share, missing: Bytes) {
    && |owner| <= |items|
    && s.count == multiset(owner)[id] > 0
    && s.segments != [] && SegmentsIn(s.segments, |text|)
    && SegmentText(text, s.segments) + missing == Concat(Select(owner, items[..|owner|], id))
  }

  lemma SelectOwner(owner: seq<nat>, items: seq<Bytes>, id: nat, o: nat)
    requires |owner| < |items|
    ensures Select(owner + [o], items[..|owner| + 1], id)
         == Select(owner, items[..|owner|], id) + if o == id then [items[|owner|]] else []
    ensures multiset(owner + [o])[id] == multiset(owner)[id] + if o == id then 1 else 0
  {
    assert items[..|owner| + 1] == items[..|owner|] + [items[|owner|]];
    assert (owner + [o])[..|owner|] == owner;
    assert items[..|owner| + 1][..|owner|] == items[..|owner|];
  }

  // Another subquery's item does not touch a share.
  lemma ShareKept(text: Bytes, items: seq<Bytes>, owner: seq<nat>, id: nat, s: Share, missing: Bytes, o: nat)
    requires ShareOk(text, items, owner, id, s, missing) && |owner| < |items| && o != id
    ensures ShareOk(text, items, owner + [o], id, s, missing)
  {
    hide SegmentText, SegmentsIn, Concat, Select;
    SelectOwner(owner, items, id, o);
    assert Select(owner, items[..|owner|], id) + [] == Select(owner, items[..|owner|], id);
  }

  // Pushing item i, of which `size` bytes are there.
  lemma ShareAdded(text: Bytes, h: nat, items: seq<Bytes>, owner: seq<nat>, id: nat, s: Share, size: nat)
    requires LaidOut(text, h, items) && |owner| < |items| && size <= |items[|owner|]|
    requires ShareOk(text, items, owner, id, s, [])
    ensures ShareOk(text, items, owner + [id], id, Added(s, Start(h, items, |owner|), size), items[|owner|][size..])
  {
    hide SegmentText, SegmentsIn, Concat, Select, LaidOut;
    var i := |owner|;
    var start := Start(h, items, i);
    ItemInText(text, h, items, i);
    SelectOwner(owner, items, id, id);
    ConcatSnoc(Select(owner, items[..i], id), items[i]);
    var piece := text[start..start + size];
    assert piece == items[i][..size];
    var n := |s.segments| - 1;
    SegmentBounds(s.segments, |text|);
    if s.segments[n].start + s.segments[n].size == start {
      SegmentExtend(text, s.segments, size);
    } else {
      SegmentAppend(text, s.segments, Segment(start, size));
    }
    AddPiece(SegmentText(text, s.segments), Concat(Select(owner, items[..i], id)), items[i], size);
  }

  lemma AddPiece(a: Bytes, all: Bytes, item: Bytes, size: nat)
    requires a + [] == all && size <= |item|
    ensures a + item[..size] + item[size..] == all + item
  {
    assert item[..size] + item[size..] == item;
  }

  lemma SegmentBounds(segs: seq<Segment>, limit: nat)
    requires SegmentsIn(segs, limit) && segs != []
    ensures segs[|segs| - 1].start + segs[|segs| - 1].size <= limit
  {
  }

  lemma ShareNew(text: Bytes, h: nat, items: seq<Bytes>, owner: seq<nat>, id: nat, ep: Endpoint, size: nat)
    requires LaidOut(text, h, items) && |owner| < |items| && size <= |items[|owner|]|
    requires forall j :: 0 <= j < |owner| ==> owner[j] < id
    ensures ShareOk(text, items, owner + [id], id, Share(ep, 1, [Segment(Start(h, items, |owner|), size)]),
                    items[|owner|][size..])
  {
    hide SegmentText, SegmentsIn, Concat, Select, LaidOut;
    var i := |owner|;
    var start := Start(h, items, i);
    ItemInText(text, h, items, i);
    SelectOwner(owner, items, id, id);
    NotOwned(owner, items[..i], id);
    ConcatSnoc([], items[i]);
    SegmentAppend(text, [], Segment(start, size));
    EmptyText(text);
    assert [] + [Segment(start, size)] == [Segment(start, size)];
    assert text[start..start + size] == items[i][..size];
    AddPiece([], [], items[i], size);
  }

  lemma EmptyText(text: Bytes)
    ensures SegmentsIn([], |text|) && SegmentText(text, []) == [] && Concat([]) == []
  {
  }

  lemma NotOwned(owner: seq<nat>, items: seq<Bytes>, id: nat)
    requires |owner| == |items| && forall j :: 0 <= j < |owner| ==> owner[j] != id
    ensures multiset(owner)[id] == 0 && Select(owner, items, id) == []
  {
    SelectCount(owner, items, id);
  }

  // Every item belongs to a subquery of its endpoint.
  ghost predicate OwnersOk(owner: seq<nat>, shares: seq<Share>, eps: seq<Endpoint>) {
    |owner| <= |eps| && forall i :: 0 <= i < |owner| ==> owner[i] < |shares| && shares[owner[i]].ep == eps[i]
  }

  lemma OwnedByOne(owner: seq<nat>, shares: seq<Share>, eps: seq<Endpoint>)
    requires OwnersOk(owner, shares, eps) && owner != []
    ensures shares != []
  {
    assert owner[0] < |shares|;
  }

  // The subqueries of the current batch, by endpoint.
  ghost predicate WaitingOk(shares: seq<Share>, waiting: map<Endpoint, nat>, base: nat) {
    && (forall ep :: ep in waiting ==> base <= waiting[ep] < |shares| && shares[waiting[ep]].ep == ep)
    && (forall id :: base <= id < |shares| ==> shares[id].ep in waiting && waiting[shares[id].ep] == id)
  }

  // What is not there yet of item i when the text is known up to len.
  function Missing(h: nat, items: seq<Bytes>, i: nat, len: nat): Bytes
    requires i < |items|
  {
    var s := Start(h, items, i);
    if len <= s then items[i] else if len < s + |items[i]| then items[i][len - s..] else []
  }

  // The new shares of a batch; only the last item pushed may be incomplete.
  ghost predicate NewSharesOk(text: Bytes, h: nat, items: seq<Bytes>, owner: seq<nat>, shares: seq<Share>, base: nat,
                              len: nat) {
    && |owner| <= |items|
    && forall id :: base <= id < |shares| ==>
         ShareOk(text, items, owner, id, shares[id],
                 if owner != [] && id == owner[|owner| - 1] then Missing(h, items, |owner| - 1, len) else [])
  }

  // Pushing keeps the subqueries of the batch: one for each endpoint seen, each
  // with segments for exactly the items it owns.
  lemma PushKeeps(text: Bytes, h: nat, items: seq<Bytes>, owner: seq<nat>, shares: seq<Share>, base: nat,
                  waiting: map<Endpoint, nat>, ep: Endpoint, len: nat, size: nat,
                  shares': seq<Share>, waiting': map<Endpoint, nat>, id: nat)
    requires PushOk(text, h, items, owner, shares, base, waiting, len, size)
    requires ep !in waiting ==>
               && id == |shares| && waiting' == waiting[ep := id]
               && shares' == shares + [Share(ep, 1, [Segment(Start(h, items, |owner|), size)])]
    requires ep in waiting ==>
               && id == waiting[ep] && waiting' == waiting
               && shares' == shares[id := Added(shares[id], Start(h, items, |owner|), size)]
    ensures WaitingOk(shares', waiting', base)
    ensures NewSharesOk(text, h, items, owner + [id], shares', base, len)
    ensures base <= id < |shares'| && shares'[id].ep == ep
    ensures |shares| <= |shares'|
    ensures forall j :: 0 <= j < |shares| ==> shares'[j].ep == shares[j].ep && (j < base ==> shares'[j] == shares[j])
  {
    hide ShareOk, LaidOut;
    var i := |owner|;
    assert items[i][size..] == Missing(h, items, i, len);
    if ep in waiting {
      ShareAdded(text, h, items, owner, id, shares[id], size);
    } else {
      ShareNew(text, h, items, owner, id, ep, size);
    }
    forall j | base <= j < |shares'| && j != id
      ensures ShareOk(text, items, owner + [id], j, shares'[j], [])
    {
      ShareKept(text, items, owner, j, shares[j], [], id);
    }
  }

  // Item |owner|, of which `size` bytes are there, may be pushed next: all items
  // before it are there entirely.
  ghost predicate PushOk(text: Bytes, h: nat, items: seq<Bytes>, owner: seq<nat>, shares: seq<Share>, base: nat,
                         waiting: map<Endpoint, nat>, len: nat, size: nat)
  {
    && LaidOut(text, h, items) && |owner| < |items| && base <= |shares|
    && WaitingOk(shares, waiting, base) && Start(h, items, |owner|) <= len
    && size == Min(Start(h, items, |owner|) + |items[|owner|]|, len) - Start(h, items, |owner|)
    && (forall j :: 0 <= j < |owner| ==> owner[j] < |shares|)
    && (forall j :: base <= j < |shares| ==> ShareOk(text, items, owner, j, shares[j], []))
  }

  // `PushSubquery`: the next item goes to the batch's subquery of its endpoint,
  // which is new or the one that is waiting. Every subquery of the batch still
  // has segments for exactly the items it owns, adjacent ones merged, and the
  // subqueries of earlier batches stay as they are.
  method PushSubquery(ghost text: Bytes, ghost h: nat, ghost items: seq<Bytes>, ghost owner: seq<nat>, ghost base: nat,
                      ghost len: nat, shares: seq<Share>, waiting: map<Endpoint, nat>, ep: Endpoint, start: nat, size: nat)
    returns (shares': seq<Share>, waiting': map<Endpoint, nat>, id: nat)
    requires PushOk(text, h, items, owner, shares, base, waiting, len, size) && start == Start(h, items, |owner|)
    ensures WaitingOk(shares', waiting', base)
    ensures NewSharesOk(text, h, items, owner + [id], shares', base, len)
    ensures base <= id < |shares'| && shares'[id].ep == ep
    ensures |shares| <= |shares'|
    ensures forall j :: 0 <= j < |shares| ==> shares'[j].ep == shares[j].ep && (j < base ==> shares'[j] == shares[j])
  {
    hide ShareOk, LaidOut, Start, NewSharesOk;
    if ep !in waiting {
      id := |shares|;
      shares' := shares + [Share(ep, 1, [Segment(start, size)])];
      waiting' := waiting[ep := id];
    } else {
      id := waiting[ep];
      var s := shares[id];
      var n := |s.segments| - 1;
      if n >= 0 && s.segments[n].start + s.segments[n].size == start {
        s := s.(segments := Extend(s.segments, size));
      } else {
        s := s.(segments := s.segments + [Segment(start, size)]);
      }
      shares' := shares[id := s.(count := s.count + 1)];
      waiting' := waiting;
    }
    PushKeeps(text, h, items, owner, shares, base, waiting, ep, len, size, shares', waiting', id);
  }

  // One batch: items |owner| .. upto are pushed, the last one as far as the
  // text has been received.
  method PushBatch(ghost text: Bytes, h: nat, items: seq<Bytes>, eps: seq<Endpoint>,
                   shares: seq<Share>, owner: seq<nat>, upto: nat, len: nat)
    returns (shares': seq<Share>, owner': seq<nat>)
    requires LaidOut(text, h, items) && |eps| == |items| && |owner| < upto <= |items|
    requires OwnersOk(owner, shares, eps) && Start(h, items, upto - 1) <= len
    ensures |owner'| == upto && owner <= owner' && shares <= shares' && |shares| < |shares'|
    ensures OwnersOk(owner', shares', eps)
    ensures NewSharesOk(text, h, items, owner', shares', |shares|, len)
    ensures forall i :: |owner| <= i < upto ==> owner'[i] >= |shares|
    ensures forall a, b :: |shares| <= a < b < |shares'| ==> shares'[a].ep != shares'[b].ep
  {
    hide ShareOk, LaidOut, Start, NewSharesOk;
    var base := |shares|;
    var waiting: map<Endpoint, nat> := map[];
    shares', owner' := shares, owner;
    NoNewShares(text, h, items, owner, shares, len);
    for i := |owner| to upto
      invariant |owner'| == i && owner <= owner'
      invariant base <= |shares'| && shares'[..base] == shares && (i > |owner| ==> base < |shares'|)
      invariant OwnersOk(owner', shares', eps) && WaitingOk(shares', waiting, base)
      invariant NewSharesOk(text, h, items, owner', shares', base, len)
      invariant forall j :: |owner| <= j < i ==> owner'[j] >= base
    {
      var start := Start(h, items, i);
      StartMonotone(h, items, i, upto - 1);
      AllThere(text, h, items, owner', shares', base, len);
      var size := Min(start + |items[i]|, len) - start;
      var pushed, waiting', id := PushSubquery(text, h, items, owner', base, len, shares', waiting, eps[i], start, size);
      shares', waiting := pushed, waiting';
      owner' := owner' + [id];
    }
    assert shares == shares'[..base];
  }

  lemma NoNewShares(text: Bytes, h: nat, items: seq<Bytes>, owner: seq<nat>, shares: seq<Share>, len: nat)
    requires |owner| <= |items|
    ensures NewSharesOk(text, h, items, owner, shares, |shares|, len)
  {
  }

  lemma {:induction false} StartMonotone(h: nat, items: seq<Bytes>, i: nat, j: nat)
    requires i <= j <= |items|
    ensures Start(h, items, i) <= Start(h, items, j)
    decreases j
  {
    if i < j {
      StartMonotone(h, items, i, j - 1);
      ConcatTake(items, j - 1);
    }
  }

  // Before the next item starts, all items pushed are there.
  lemma AllThere(text: Bytes, h: nat, items: seq<Bytes>, owner: seq<nat>, shares: seq<Share>, base: nat, len: nat)
    requires NewSharesOk(text, h, items, owner, shares, base, len) && |owner| < |items|
    requires Start(h, items, |owner|) <= len
    ensures forall id :: base <= id < |shares| ==> ShareOk(text, items, owner, id, shares[id], [])
  {
    hide ShareOk;
    if owner != [] {
      ConcatTake(items, |owner| - 1);
      assert Missing(h, items, |owner| - 1, len) == [];
    }
  }

  // The items of a subquery, once its batch has been pushed.
  function Owned(owner: seq<nat>, items: seq<Bytes>, id: nat): seq<Bytes>
    requires |owner| <= |items|
  {
    Select(owner, items[..|owner|], id)
  }

  // Later batches do not change what a subquery owns.
  lemma {:induction false} OwnedStays(owner: seq<nat>, owner': seq<nat>, items: seq<Bytes>, id: nat)
    requires owner <= owner' && |owner'| <= |items|
    requires forall i :: |owner| <= i < |owner'| ==> owner'[i] != id
    ensures Owned(owner', items, id) == Owned(owner, items, id)
    decreases |owner'|
  {
    if |owner| == |owner'| {
      assert owner == owner';
    } else {
      var n := |owner'| - 1;
      assert owner' == owner'[..n] + [owner'[n]];
      OwnedStays(owner, owner'[..n], items, id);
      SelectOwner(owner'[..n], items, id, owner'[n]);
      assert Owned(owner'[..n], items, id) + [] == Owned(owner'[..n], items, id);
    }
  }

  lemma NothingMissing(h: nat, items: seq<Bytes>, i: nat, len: nat)
    requires i < |items| && Start(h, items, i + 1) <= len
    ensures Missing(h, items, i, len) == []
  {
    ConcatTake(items, i);
  }

  lemma Laid(before: Bytes, items: seq<Bytes>, after: Bytes)
    ensures LaidOut(before + Concat(items) + after, |before|, items)
  {
    hide Concat;
  }

  // ---------- a command in the client's text ----------

  // A command is an array of its name and its other bulks. Something may follow.
  function CommandText(name: Bytes, ws: seq<Bytes>, after: Bytes): Bytes {
    EncodeArray([name] + ws) + after
  }

  // Where the bulks after the name start when there are n of them.
  function Head(name: Bytes, n: nat): nat {
    |ArrayPrefix(n + 1)| + |name|
  }

  lemma EncodeCons(w: Bytes, ws: seq<Bytes>)
    ensures EncodeArray([w] + ws) == ArrayPrefix(|ws| + 1) + (w + Concat(ws))
  {
    hide ArrayPrefix;
    assert ([w] + ws)[1..] == ws;
  }

  lemma TextLaidOut(name: Bytes, ws: seq<Bytes>, after: Bytes)
    ensures CommandText(name, ws, after) == ArrayPrefix(|ws| + 1) + name + Concat(ws) + after
    ensures LaidOut(CommandText(name, ws, after), Head(name, |ws|), ws)
  {
    hide Concat, ArrayPrefix, LaidOut, EncodeArray;
    EncodeCons(name, ws);
    var before := ArrayPrefix(|ws| + 1) + name;
    Regroup(ArrayPrefix(|ws| + 1), name, Concat(ws), after);
    Laid(before, ws, after);
    assert |before| == Head(name, |ws|);
  }

  lemma Regroup(a: Bytes, b: Bytes, c: Bytes, d: Bytes)
    ensures a + (b + c) + d == a + b + c + d
  {
  }

  // The rest of the text, from bulk i after the name on.
  lemma TextFrom(name: Bytes, ws: seq<Bytes>, after: Bytes, i: nat)
    requires i <= |ws|
    ensures var o := Start(Head(name, |ws|), ws, i);
            && o <= |CommandText(name, ws, after)|
            && CommandText(name, ws, after)[o..] == Concat(ws[i..]) + after
  {
    hide Concat, ArrayPrefix, CommandText;
    TextLaidOut(name, ws, after);
    ConcatSplit(ws, i);
    CutAfter(ArrayPrefix(|ws| + 1) + name, Concat(ws[..i]), Concat(ws[i..]), after);
  }

  lemma CutAfter(a: Bytes, b: Bytes, c: Bytes, d: Bytes)
    ensures |a| + |b| <= |a + (b + c) + d| && (a + (b + c) + d)[|a| + |b|..] == c + d
  {
    assert a + (b + c) + d == (a + b) + (c + d);
  }

  // Parsing what has arrived from bulk i on shows the bulks whose headers are in.
  lemma ItemsFrom(name: Bytes, ws: seq<Bytes>, after: Bytes, i: nat, len: nat)
    requires i <= |ws| && AllWhole(ws[i..]) && Start(Head(name, |ws|), ws, i) <= len <= |CommandText(name, ws, after)|
    ensures var o := Start(Head(name, |ws|), ws, i);
            ParseItems(CommandText(name, ws, after)[o..len], |ws| - i) == Sizes(Lengths(ws[i..][..HeadersIn(ws[i..], len - o)]))
  {
    hide Concat, ArrayPrefix, CommandText, ParseItems, HeadersIn, AllWhole, Start, Head, Lengths;
    var text := CommandText(name, ws, after);
    var o := Start(Head(name, |ws|), ws, i);
    TextFrom(name, ws, after, i);
    ItemsCut(ws[i..], |ws| - i, after, text, text[..len], o);
    assert text[..len][o..] == text[o..len];
  }
}
