/**
 The MSET command: pairs are scattered in batches over subqueries, the value of
 the last pair may still be arriving, and the last pending subquery answers.
 */
module Mset {
  import opened Decimal
  import opened Resp
  import opened Net
  import opened Scatter
  import opened Subqueries
  import opened MultiKey
  import opened MsetPairs
  import F = Framing
  import S = SingleKey

  const MSET_BULK: Bytes := "$4\r\nmset\r\n"

  const CONNECT_ERROR: Bytes := S.RedisErrorReply(S.Connect)

  // `RedisMsetPrefix`
  function MsetPrefix(count: nat): Bytes {
    ArrayPrefix(count * 2 + 1) + MSET_BULK
  }

  // What the subquery id must send.
  function Query(owner: seq<nat>, items: seq<Bytes>, id: nat): Bytes
    requires |owner| <= |items|
  {
    MsetPrefix(multiset(owner)[id]) + Concat(Owned(owner, items, id))
  }

  // A subquery whose connect failed; it is done once its part of the query is there.
  function Failed(c: Conn): Conn {
    c.(failed := true, writing := false, reply := CONNECT_ERROR, done := c.recvComplete)
  }

  // More of the tail's value arrives and is sent on.
  lemma TailMore(text: Bytes, query: Bytes, c: Conn, missing: Bytes, part: Bytes, rest: Bytes, complete: bool)
    requires ConnOk(text, query, c, missing) && c.phase.ReadingMore? && !c.recvComplete && !c.failed
    requires missing == part + rest && (complete ==> rest == [])
    ensures ConnOk(text, query, c.(writing := true, recvComplete := complete, wire := c.wire + part), rest)
  {
    NoText(text);
    assert c.wire + [] == c.wire;
    assert c.wire + part + [] == c.wire + part;
    assert c.wire + (part + rest) == (c.wire + part) + rest;
  }

  // ---------- the state of the command ----------

  // A subquery answers what its backend says, or that the connect failed. It is
  // done when all of that is there.
  ghost predicate AnswersOk(conns: seq<Conn>, answers: nat -> Bytes) {
    && (forall id: nat :: S.IsReply(answers(id)))
    && forall id :: 0 <= id < |conns| ==> AnswerOk(conns[id], answers(id))
  }

  ghost predicate AnswerOk(c: Conn, answer: Bytes) {
    && (c.failed ==> c.reply == CONNECT_ERROR)
    && (!c.failed ==> c.reply <= answer && (c.done <==> c.reply == answer))
  }

  lemma AnswerUpdate(conns: seq<Conn>, answers: nat -> Bytes, id: nat, c: Conn)
    requires AnswersOk(conns, answers) && id < |conns| && AnswerOk(c, answers(id))
    ensures AnswersOk(conns[id := c], answers)
  {
    hide AnswerOk, S.IsReply;
  }

  lemma AnswerAt(conns: seq<Conn>, answers: nat -> Bytes, id: nat)
    requires AnswersOk(conns, answers) && id < |conns|
    ensures AnswerOk(conns[id], answers(id)) && S.IsReply(answers(id))
  {
    hide AnswerOk, S.IsReply;
  }

  lemma AnswersNew(conns: seq<Conn>, conns': seq<Conn>, answers: nat -> Bytes)
    requires AnswersOk(conns, answers) && conns <= conns'
    requires forall id :: |conns| <= id < |conns'| ==> !conns'[id].done && !conns'[id].failed && conns'[id].reply == []
    ensures AnswersOk(conns', answers)
  {
    forall id | 0 <= id < |conns'| ensures AnswerOk(conns'[id], answers(id)) {
      assert S.IsReply(answers(id));
      if id < |conns| {
        assert conns'[id] == conns[id];
      }
    }
  }

  // Scatter: every pair taken so far belongs to one subquery of its endpoint,
  // and each subquery is sending exactly the query of its pairs. Only the tail,
  // which owns the last pair taken, may wait for more of the client's bytes.
  ghost predicate ScatterOk(text: Bytes, h: nat, items: seq<Bytes>, eps: seq<Endpoint>, owner: seq<nat>,
                            shares: seq<Share>, conns: seq<Conn>, tail: nat, len: nat)
  {
    && LaidOut(text, h, items) && |eps| == |items|
    && 0 < |owner| <= |items| && OwnersOk(owner, shares, eps) && |conns| == |shares|
    && tail == owner[|owner| - 1]
    && Start(h, items, |owner| - 1) <= len
    && (forall id :: 0 <= id < |conns| ==> ConnAt(text, h, items, owner, conns, tail, len, id))
  }

  ghost predicate ConnAt(text: Bytes, h: nat, items: seq<Bytes>, owner: seq<nat>, conns: seq<Conn>, tail: nat,
                         len: nat, id: nat)
    requires 0 < |owner| <= |items| && id < |conns|
  {
    && ConnOk(text, Query(owner, items, id), conns[id],
              if id == tail then Missing(h, items, |owner| - 1, len) else [])
    && (conns[id].recvComplete <==> (id == tail ==> Start(h, items, |owner|) <= len))
  }

  // A reply is complete when its needed part and all the rest are there.
  lemma WholeReply(doc: Bytes, k: nat)
    requires S.IsReply(doc) && k <= |doc|
    ensures S.Needed(doc) <= |doc|
    ensures doc[..k] == doc <==> k == |doc|
  {
  }

  // One subquery is left pending, and the client got its answer and nothing else.
  ghost predicate AnsweredOnce(conns: seq<Conn>, pending: set<nat>, answers: nat -> Bytes, sent: Bytes) {
    exists id :: pending == {id} && id < |conns| && conns[id].done &&
                 sent == (if conns[id].failed then CONNECT_ERROR else answers(id))
  }

  lemma UpdateConn(text: Bytes, h: nat, items: seq<Bytes>, eps: seq<Endpoint>, owner: seq<nat>,
                   shares: seq<Share>, conns: seq<Conn>, tail: nat, len: nat, id: nat, c: Conn)
    requires ScatterOk(text, h, items, eps, owner, shares, conns, tail, len) && id < |conns|
    requires c.recvComplete == conns[id].recvComplete
    requires ConnOk(text, Query(owner, items, id), c, if id == tail then Missing(h, items, |owner| - 1, len) else [])
    ensures ScatterOk(text, h, items, eps, owner, shares, conns[id := c], tail, len)
  {
    hide ConnOk, Query, Missing, Start, LaidOut, OwnersOk;
    var conns' := conns[id := c];
    forall j | 0 <= j < |conns'| ensures ConnAt(text, h, items, owner, conns', tail, len, j) {
      assert ConnAt(text, h, items, owner, conns, tail, len, j);
    }
  }

  lemma AtConn(text: Bytes, h: nat, items: seq<Bytes>, eps: seq<Endpoint>, owner: seq<nat>,
               shares: seq<Share>, conns: seq<Conn>, tail: nat, len: nat, id: nat)
    requires ScatterOk(text, h, items, eps, owner, shares, conns, tail, len) && id < |conns|
    ensures 0 < |owner| <= |items| && tail < |conns|
    ensures ConnOk(text, Query(owner, items, id), conns[id], if id == tail then Missing(h, items, |owner| - 1, len) else [])
    ensures conns[id].recvComplete <==> (id == tail ==> Start(h, items, |owner|) <= len)
  {
    hide ConnOk, Query, Missing, Start, LaidOut;
    assert ConnAt(text, h, items, owner, conns, tail, len, id);
  }

  // The client sends more bytes and the tail's value grows.
  lemma TailGrows(text: Bytes, h: nat, items: seq<Bytes>, eps: seq<Endpoint>, owner: seq<nat>,
                  shares: seq<Share>, conns: seq<Conn>, tail: nat, len: nat, len': nat, c: Conn)
    requires ScatterOk(text, h, items, eps, owner, shares, conns, tail, len) && len <= len' && tail < |conns|
    requires c.recvComplete <==> Start(h, items, |owner|) <= len'
    requires ConnOk(text, Query(owner, items, tail), c, Missing(h, items, |owner| - 1, len'))
    ensures ScatterOk(text, h, items, eps, owner, shares, conns[tail := c], tail, len')
  {
    hide ConnOk, Query, Missing, Start, LaidOut, OwnersOk;
    var conns' := conns[tail := c];
    forall j | 0 <= j < |conns'| ensures ConnAt(text, h, items, owner, conns', tail, len', j) {
      assert ConnAt(text, h, items, owner, conns, tail, len, j);
    }
  }

  // The piece of the tail's value between two lengths of received text.
  lemma MissingSplit(text: Bytes, h: nat, items: seq<Bytes>, i: nat, len: nat, len': nat)
    requires LaidOut(text, h, items) && i < |items| && Start(h, items, i) <= len <= len' && len < Start(h, items, i + 1)
    ensures var e := Min(Start(h, items, i + 1), len');
            && e <= |text|
            && Missing(h, items, i, len) == text[len..e] + Missing(h, items, i, len')
            && (Start(h, items, i + 1) <= len' ==> Missing(h, items, i, len') == [])
  {
    hide Concat, LaidOut;
    ItemInText(text, h, items, i);
    ItemParts(text, items[i], Start(h, items, i), len, Min(Start(h, items, i + 1), len'));
  }

  lemma ItemParts(text: Bytes, item: Bytes, s: nat, len: nat, e: nat)
    requires s <= len <= e <= s + |item| <= |text| && text[s..s + |item|] == item
    ensures item[len - s..] == text[len..e] + item[e - s..]
  {
    SubSlice(text, s, s + |item|, len - s, e - s);
    assert item[len - s..] == item[len - s..e - s] + item[e - s..];
  }

  // A batch: old subqueries are complete and keep their queries, new ones start.
  lemma BatchScatter(text: Bytes, h: nat, items: seq<Bytes>, eps: seq<Endpoint>, owner: seq<nat>,
                     shares: seq<Share>, conns: seq<Conn>, len: nat,
                     owner': seq<nat>, shares': seq<Share>, conns': seq<Conn>)
    requires LaidOut(text, h, items) && |eps| == |items| && |owner| < |owner'| <= |items| && owner <= owner'
    requires |conns| == |shares| && shares <= shares' && |conns'| == |shares'| && conns <= conns'
    requires OwnersOk(owner', shares', eps) && Start(h, items, |owner'| - 1) <= len
    requires NewSharesOk(text, h, items, owner', shares', |shares|, len)
    requires forall i :: |owner| <= i < |owner'| ==> owner'[i] >= |shares|
    requires forall id :: 0 <= id < |conns| ==> conns[id].recvComplete && ConnOk(text, Query(owner, items, id), conns[id], [])
    requires forall id :: |shares| <= id < |shares'| ==>
               conns'[id] == Conn(Init, true, id != owner'[|owner'| - 1] || Start(h, items, |owner'|) <= len, false, false,
                                  shares'[id].segments, MsetPrefix(shares'[id].count), [])
    ensures ScatterOk(text, h, items, eps, owner', shares', conns', owner'[|owner'| - 1], len)
  {
    hide ConnOk, ShareOk, Missing, Start, LaidOut, OwnersOk, MsetPrefix;
    var tail := owner'[|owner'| - 1];
    forall id | 0 <= id < |conns'| ensures ConnAt(text, h, items, owner', conns', tail, len, id) {
      if id < |conns| {
        assert conns'[id] == conns[id];
        QueryStays(owner, owner', items, id);
      } else {
        var missing := if id == tail then Missing(h, items, |owner'| - 1, len) else [];
        ShareCount(text, items, owner', id, shares'[id], missing);
        NewConn(text, items, owner', id, shares'[id], MsetPrefix(shares'[id].count), missing,
                id != tail || Start(h, items, |owner'|) <= len);
      }
    }
  }

  lemma QueryStays(owner: seq<nat>, owner': seq<nat>, items: seq<Bytes>, id: nat)
    requires owner <= owner' && |owner'| <= |items|
    requires forall i :: |owner| <= i < |owner'| ==> owner'[i] != id
    ensures Query(owner', items, id) == Query(owner, items, id)
  {
    hide Select, Concat, MsetPrefix, Owned;
    CountStays(owner, owner', items, id);
  }

  lemma TailBounds(text: Bytes, h: nat, items: seq<Bytes>, eps: seq<Endpoint>, owner: seq<nat>,
                   shares: seq<Share>, conns: seq<Conn>, tail: nat, len: nat)
    requires ScatterOk(text, h, items, eps, owner, shares, conns, tail, len)
    ensures 0 < |owner| <= |items| && LaidOut(text, h, items) && Start(h, items, |owner| - 1) <= len
  {
    hide ConnAt;
  }

  // With the tail complete, so is every subquery.
  lemma AllComplete(text: Bytes, h: nat, items: seq<Bytes>, eps: seq<Endpoint>, owner: seq<nat>,
                    shares: seq<Share>, conns: seq<Conn>, tail: nat, len: nat)
    requires ScatterOk(text, h, items, eps, owner, shares, conns, tail, len)
    requires |owner| <= |items| && Start(h, items, |owner|) <= len
    ensures LaidOut(text, h, items) && |eps| == |items| && OwnersOk(owner, shares, eps) && |conns| == |shares|
    ensures forall id :: 0 <= id < |conns| ==> conns[id].recvComplete && ConnOk(text, Query(owner, items, id), conns[id], [])
  {
    hide ConnOk, Query, LaidOut, OwnersOk, Missing, Start;
    NothingMissing(h, items, |owner| - 1, len);
    forall id | 0 <= id < |conns|
      ensures conns[id].recvComplete && ConnOk(text, Query(owner, items, id), conns[id], [])
    {
      assert ConnAt(text, h, items, owner, conns, tail, len, id);
    }
  }

  lemma StartFrom(h: nat, items: seq<Bytes>, i: nat)
    requires i <= |items|
    ensures Start(h, items, i) == h + Start(0, items, i)
  {
  }

  lemma TailIs(text: Bytes, h: nat, items: seq<Bytes>, eps: seq<Endpoint>, owner: seq<nat>,
               shares: seq<Share>, conns: seq<Conn>, tail: nat, len: nat)
    requires ScatterOk(text, h, items, eps, owner, shares, conns, tail, len)
    ensures 0 < |owner| <= |items| && tail < |conns|
    ensures conns[tail].recvComplete <==> Start(h, items, |owner|) <= len
  {
    hide ConnOk, Query, LaidOut, Missing, Start;
    assert ConnAt(text, h, items, owner, conns, tail, len, tail);
  }

  // More bytes that are none of the tail's business.
  lemma ReceivedOk(text: Bytes, h: nat, items: seq<Bytes>, eps: seq<Endpoint>, owner: seq<nat>,
                   shares: seq<Share>, conns: seq<Conn>, tail: nat, len: nat, len': nat)
    requires ScatterOk(text, h, items, eps, owner, shares, conns, tail, len) && len <= len'
    requires |owner| <= |items| && Start(h, items, |owner|) <= len
    ensures ScatterOk(text, h, items, eps, owner, shares, conns, tail, len')
  {
    hide ConnOk, Query, LaidOut, OwnersOk, Missing, Start;
    NothingMissing(h, items, |owner| - 1, len);
    NothingMissing(h, items, |owner| - 1, len');
    forall id | 0 <= id < |conns| ensures ConnAt(text, h, items, owner, conns, tail, len', id) {
      assert ConnAt(text, h, items, owner, conns, tail, len, id);
    }
  }

  lemma NoOwners(eps: seq<Endpoint>)
    ensures OwnersOk([], [], eps)
  {
  }

  // When a subquery answers, the whole query has been received.
  lemma AllReceived(text: Bytes, h: nat, items: seq<Bytes>, eps: seq<Endpoint>, owner: seq<nat>,
                    shares: seq<Share>, conns: seq<Conn>, tail: nat, len: nat, pending: set<nat>, replier: Option<nat>)
    requires ScatterOk(text, h, items, eps, owner, shares, conns, tail, len) && replier.Some?
    requires |owner| <= |items| && PendingOk(conns, pending, |items| - |owner|, replier)
    ensures tail < |conns| && conns[tail].recvComplete && |owner| == |items|
  {
    hide Query, Missing, Start, LaidOut;
    assert ConnAt(text, h, items, owner, conns, tail, len, tail);
  }

  // A batch of pairs, from pushing its subqueries to activating them.
  method NewBatch(ghost text: Bytes, h: nat, items: seq<Bytes>, eps: seq<Endpoint>, shares: seq<Share>, owner: seq<nat>,
                  conns: seq<Conn>, upto: nat, len: nat)
    returns (shares': seq<Share>, owner': seq<nat>, conns': seq<Conn>)
    requires LaidOut(text, h, items) && |eps| == |items| && |owner| < upto <= |items|
    requires OwnersOk(owner, shares, eps) && |conns| == |shares| && Start(h, items, upto - 1) <= len
    requires forall id :: 0 <= id < |conns| ==> conns[id].recvComplete && ConnOk(text, Query(owner, items, id), conns[id], [])
    ensures |owner'| == upto && owner <= owner' && shares <= shares' && conns <= conns' && |conns| < |conns'|
    ensures forall id :: |conns| <= id < |conns'| ==> !conns'[id].done && !conns'[id].failed && conns'[id].reply == []
    ensures AllNew(conns', |conns|)
    ensures ScatterOk(text, h, items, eps, owner', shares', conns', owner'[upto - 1], len)
  {
    hide ScatterOk, Query, Missing, Start, LaidOut, OwnersOk, ConnOk, NewSharesOk, MsetPrefix;
    shares', owner' := PushBatch(text, h, items, eps, shares, owner, upto, len);
    conns' := Activate(conns, shares', (n: nat) => MsetPrefix(n), owner'[upto - 1], Start(h, items, upto) <= len);
    BatchScatter(text, h, items, eps, owner, shares, conns, len, owner', shares', conns');
  }

  // ---------- what a subquery's bytes are ----------

  // A well-formed mset of the given pairs.
  function MsetArray(pairs: seq<Pair>): Bytes {
    EncodeArray([MSET_BULK] + Flat(pairs))
  }

  // The query of a subquery is one well-formed mset array of exactly its pairs.
  lemma QueryIsMset(owner: seq<nat>, pairs: seq<Pair>, id: nat)
    requires |owner| <= |pairs|
    ensures Query(owner, Joined(pairs), id) == MsetArray(Select(owner, pairs[..|owner|], id))
  {
    hide ArrayPrefix, Select;
    var mine := Select(owner, pairs[..|owner|], id);
    assert Joined(pairs)[..|owner|] == Joined(pairs[..|owner|]);
    SelectJoined(owner, pairs[..|owner|], id);
    SelectCount(owner, pairs[..|owner|], id);
    FlatText(mine);
    assert ([MSET_BULK] + Flat(mine))[1..] == Flat(mine);
    assert ArrayPrefix(2 * |mine| + 1) + MSET_BULK + Concat(Flat(mine))
        == ArrayPrefix(2 * |mine| + 1) + (MSET_BULK + Concat(Flat(mine)));
  }

  // The prefixes, spelled out.
  lemma MsetPrefixes()
    ensures MsetPrefix(1) == "*3\r\n$4\r\nmset\r\n"
    ensures MsetPrefix(2) == "*5\r\n$4\r\nmset\r\n"
    ensures MsetPrefix(3) == "*7\r\n$4\r\nmset\r\n"
    ensures MsetPrefix(4) == "*9\r\n$4\r\nmset\r\n"
  {
    hide MsetPrefix;
    SmallPrefix(1);
    SmallPrefix(2);
    SmallPrefix(3);
    SmallPrefix(4);
  }

  lemma SmallPrefix(count: nat)
    requires count <= 4
    ensures MsetPrefix(count) == "*" + ["0123456789"[2 * count + 1]] + "\r\n$4\r\nmset\r\n"
  {
    DigitsAreDecimal(2 * count + 1);
  }

  lemma NameOfMset()
    ensures WholeBulk(MSET_BULK) && Payload(MSET_BULK) == "mset" && F.KindOf("mset") == Some(F.Mset)
  {
    F.OtherNames();
    F.NamedBulk("mset", MSET_BULK, 4);
  }

  // What a backend reads when it parses the array of the given pairs: the name
  // "mset", and then their keys and values one after another.
  lemma MsetDecodes(pairs: seq<Pair>, i: nat)
    requires PairsOk(pairs) && i < |pairs|
    ensures var s := MsetArray(pairs);
            var v := ParseArray(s);
            && v.Parsed? && v.bulks == |v.items| == 1 + 2 * |pairs| && v.Completed(|s|)
            && v.Offset(0) + v.items[0] <= |s| && WholeBulk(v.Item(s, 0)) && Payload(v.Item(s, 0)) == "mset"
            && F.KindOf(Payload(v.Item(s, 0))) == Some(F.Mset)
            && v.Offset(1 + 2 * i) + v.items[1 + 2 * i] <= |s| && v.Item(s, 1 + 2 * i) == pairs[i].0
            && v.Offset(2 + 2 * i) + v.items[2 + 2 * i] <= |s| && v.Item(s, 2 + 2 * i) == pairs[i].1
  {
    hide ParseArray, WholeBulk, Payload, F.KindOf, EncodeArray;
    NameOfMset();
    FlatWhole(pairs);
    FlatAt(pairs, i);
    var ws := [MSET_BULK] + Flat(pairs);
    ArrayShows(ws, 0);
    ArrayShows(ws, 1 + 2 * i);
    ArrayShows(ws, 2 + 2 * i);
  }

  // ---------- runs ----------

  // Completions of asynchronous operations, and bytes from the client. `room`
  // says whether a read started now would be allowed: there is room in the
  // client's buffer and no other command holds it.
  datatype Event =
    | ClientBytes(size: nat, room: bool)
    | QuerySent(id: nat, ec: ErrorCode, room: bool)
    | ReplyRead(id: nat, size: nat, ok: bool, room: bool)
    | Retry(room: bool)          // another command left the pipeline
    | BecomesFirst
    | ReplyWritten(ok: bool)

  datatype Snapshot = Snapshot(
    len: nat, owner: seq<nat>, shares: seq<Share>, conns: seq<Conn>, pending: set<nat>, tail: nat,
    reading: bool, starved: bool, first: bool, isWriting: bool, sent: Bytes, aborted: bool, rotated: bool)

  // Where the pairs taken so far end.
  function Quota(h: nat, items: seq<Bytes>, owner: seq<nat>): nat {
    if |owner| <= |items| then Start(h, items, |owner|) else 0
  }

  predicate Incomplete(h: nat, items: seq<Bytes>, owner: seq<nat>, len: nat) {
    |owner| < |items| || len < Quota(h, items, owner)
  }

  function Between(text: Bytes, a: nat, b: nat): Bytes {
    if a <= b <= |text| then text[a..b] else []
  }

  // The tail once n more bytes are there: they are being sent on, or dropped if
  // its connect failed.
  function Grown(text: Bytes, c: Conn, len: nat, n: nat, q: nat): Conn {
    var complete := q <= len + n;
    if c.failed then c.(recvComplete := complete, done := complete)
    else c.(writing := true, recvComplete := complete, wire := c.wire + Between(text, len, Min(q, len + n)))
  }

  lemma TailGrown(text: Bytes, h: nat, items: seq<Bytes>, eps: seq<Endpoint>, owner: seq<nat>,
                  shares: seq<Share>, conns: seq<Conn>, tail: nat, len: nat, n: nat)
    requires ScatterOk(text, h, items, eps, owner, shares, conns, tail, len) && |owner| <= |items| && tail < |conns|
    requires len < Start(h, items, |owner|) && len + n <= |text|
    requires conns[tail].failed || !conns[tail].writing
    ensures !conns[tail].done && (conns[tail].failed || conns[tail].phase.ReadingMore?)
    ensures ScatterOk(text, h, items, eps, owner, shares,
                      conns[tail := Grown(text, conns[tail], len, n, Start(h, items, |owner|))], tail, len + n)
  {
    hide ScatterOk, Query, Missing, Start, SegmentText, LaidOut, OwnersOk;
    var q := Start(h, items, |owner|);
    AtConn(text, h, items, eps, owner, shares, conns, tail, len, tail);
    TailBounds(text, h, items, eps, owner, shares, conns, tail, len);
    MissingSplit(text, h, items, |owner| - 1, len, len + n);
    var missing := Missing(h, items, |owner| - 1, len);
    var c := Grown(text, conns[tail], len, n, q);
    if !conns[tail].failed {
      TailMore(text, Query(owner, items, tail), conns[tail], missing, text[len..Min(q, len + n)],
               Missing(h, items, |owner| - 1, len + n), q <= len + n);
    }
    TailGrows(text, h, items, eps, owner, shares, conns, tail, len, len + n, c);
  }

  // Afterwards it is being written to, or its connect failed.
  lemma GrownWrites(text: Bytes, conns: seq<Conn>, tail: nat, len: nat, n: nat, q: nat)
    requires tail < |conns| && NoneWriting(conns)
    ensures NoneWriting(conns[tail := Grown(text, conns[tail], len, n, q)]) <==> Grown(text, conns[tail], len, n, q).failed
  {
    hide Between;
    var conns' := conns[tail := Grown(text, conns[tail], len, n, q)];
    assert !conns[tail].writing;
    if !conns[tail].failed {
      assert conns'[tail].writing;
    }
  }

  // The subqueries that were there before n more bytes arrived.
  ghost predicate OldConns(text: Bytes, q: nat, conns: seq<Conn>, tail: nat, len: nat, n: nat, conns': seq<Conn>) {
    && |conns| <= |conns'| && tail < |conns|
    && (forall id :: 0 <= id < |conns| && (id != tail || len >= q) ==> conns'[id] == conns[id])
    && (len < q ==> conns'[tail] == Grown(text, conns[tail], len, n, q))
  }

  lemma OldConnsStay(text: Bytes, q: nat, conns: seq<Conn>, tail: nat, len: nat, n: nat, conns': seq<Conn>,
                     conns'': seq<Conn>)
    requires OldConns(text, q, conns, tail, len, n, conns') && conns' <= conns''
    ensures OldConns(text, q, conns, tail, len, n, conns'')
  {
    hide Grown;
  }

  ghost predicate Received(text: Bytes, q: nat, v: Snapshot, n: nat, w: Snapshot) {
    && w.len == v.len + n && v.owner <= w.owner && v.shares <= w.shares && OldConns(text, q, v.conns, v.tail, v.len, n, w.conns)
    && AllNew(w.conns, |v.conns|)
    && w.first == v.first && w.sent == v.sent && !w.aborted && !w.rotated
  }

  // Subquery id of a command with `left` unparsed pairs changes to c.
  ghost predicate Changed(left: int, v: Snapshot, id: nat, c: Conn, w: Snapshot)
    requires id < |v.conns|
  {
    var last := left == 0 && |v.pending| == 1;
    w == v.(conns := v.conns[id := c], pending := StillPending(v.pending, id, c, last),
            isWriting := v.isWriting || (c.done && last && v.first), reading := w.reading, starved := w.starved)
  }

  // What every event does; one that cannot happen now does nothing.
  ghost predicate Next(text: Bytes, h: nat, items: seq<Bytes>, answers: nat -> Bytes, v: Snapshot, e: Event,
                       w: Snapshot) {
    if v.aborted || v.rotated then w == v
    else match e
      case ClientBytes(n, room) =>
        if v.reading && 0 < n && v.len + n <= |text| then Received(text, Quota(h, items, v.owner), v, n, w) else w == v
      case QuerySent(id, ec, room) =>
        if id in v.pending && id < |v.conns| && v.conns[id].writing && (ec.ConnectError? ==> v.conns[id].phase.Init?)
        then AfterSent(text, h, items, v, id, ec, room, w) else w == v
      case ReplyRead(id, n, ok, room) =>
        if && id in v.pending && id < |v.conns| && v.conns[id].phase.ReadingReply? && !v.conns[id].done
           && 0 < n && |v.conns[id].reply| + n <= |answers(id)|
        then AfterReply(items, answers, v, id, n, ok, room, w) else w == v
      case Retry(room) => AfterRetry(h, items, v, room, w)
      case BecomesFirst => if v.first then w == v else w == v.(first := true, isWriting := Answering(v))
      case ReplyWritten(ok) => if v.isWriting then AfterWrite(v, ok, w) else w == v
  }

  ghost predicate AfterSent(text: Bytes, h: nat, items: seq<Bytes>, v: Snapshot, id: nat, ec: ErrorCode, room: bool,
                            w: Snapshot)
    requires id < |v.conns|
  {
    if ec.OtherError? then w == v.(aborted := true)
    else
      && Changed(|items| - |v.owner|, v, id, if ec.Success? then Advanced(text, v.conns[id]) else Failed(v.conns[id]), w)
      && Tried(Incomplete(h, items, v.owner, v.len) && NoneWriting(w.conns), room, v.reading, v.starved, w.reading, w.starved)
  }

  ghost predicate AfterReply(items: seq<Bytes>, answers: nat -> Bytes, v: Snapshot, id: nat, n: nat, ok: bool,
                             room: bool, w: Snapshot)
    requires id < |v.conns|
  {
    if !ok then w == v.(aborted := true)
    else
      var c := Replied(answers(id), v.conns[id], n);
      && Changed(|items| - |v.owner|, v, id, c, w)
      && Tried(c.done && |v.owner| < |items| && NoneWriting(w.conns), room, v.reading, v.starved, w.reading, w.starved)
  }

  ghost predicate AfterRetry(h: nat, items: seq<Bytes>, v: Snapshot, room: bool, w: Snapshot) {
    && w == v.(reading := w.reading, starved := w.starved)
    && Tried(Incomplete(h, items, v.owner, v.len) && NoneWriting(v.conns), room, v.reading, v.starved, w.reading, w.starved)
  }

  ghost predicate AfterWrite(v: Snapshot, ok: bool, w: Snapshot) {
    if !ok then w == v.(aborted := true) else w == v.(isWriting := false, rotated := true, sent := w.sent)
  }

  // A subquery is pending although it is done: it is the one that answers.
  predicate Answering(v: Snapshot) {
    exists id :: id in v.pending && id < |v.conns| && v.conns[id].done
  }

  lemma AnsweringIs(v: Snapshot, unparsed: nat, replier: Option<nat>)
    requires PendingOk(v.conns, v.pending, unparsed, replier)
    ensures Answering(v) <==> replier.Some?
  {
    if replier.Some? {
      assert replier.value in v.pending;
    }
  }

  ghost predicate IsRun(text: Bytes, h: nat, items: seq<Bytes>, answers: nat -> Bytes, schedule: seq<Event>,
                        run: seq<Snapshot>)
  {
    |run| == |schedule| + 1
    && forall i :: 0 <= i < |schedule| ==> Next(text, h, items, answers, run[i], schedule[i], run[i + 1])
  }

  // The command has just been created: subqueries were started for the pairs
  // taken, and nothing else happened.
  ghost predicate Starts(len: nat, isFirst: bool, v: Snapshot) {
    && AllNew(v.conns, 0)
    && v == Snapshot(len, v.owner, v.shares, v.conns, v.pending, v.tail, false, false, isFirst, false, [], false, false)
  }

  // Something that will happen is awaited: a client read, room in the client's
  // buffer, the completion of a write or a read of a subquery; or, once the query
  // is complete, the command's turn or the completion of the reply.
  predicate Attended(h: nat, items: seq<Bytes>, v: Snapshot) {
    || v.aborted || v.rotated || v.reading || v.starved
    || (!Incomplete(h, items, v.owner, v.len) && (v.isWriting || !v.first))
    || exists id :: id in v.pending && id < |v.conns| &&
                    (v.conns[id].writing || (v.conns[id].phase.ReadingReply? && !v.conns[id].done))
  }

  // The scatter is exact: the pairs taken are those whose value's header has
  // arrived, each belongs to one subquery of its endpoint, a subquery whose
  // connect did not fail has been sent a prefix of one well-formed mset of
  // exactly its pairs; and once the command is done all pairs are taken, those
  // msets are sent completely and the client got one reply and nothing else.
  ghost predicate Scattered(pairs: seq<Pair>, h: nat, locate: Bytes -> Endpoint, answers: nat -> Bytes, v: Snapshot)
    requires PairsOk(pairs)
  {
    && h <= v.len && |v.owner| == PairsIn(pairs, v.len - h) && |v.shares| == |v.conns|
    && (forall i :: 0 <= i < |v.owner| ==>
          v.owner[i] < |v.shares| && v.shares[v.owner[i]].ep == LocatedPairs(pairs, locate)[i])
    && (forall id: nat :: 0 <= id < |v.conns| && !v.conns[id].failed ==> SentFor(pairs, v, id))
    && (v.rotated ==>
          && |v.owner| == |pairs| && Together(v.owner, pairs, |v.conns|) == multiset(pairs)
          && AnsweredOnce(v.conns, v.pending, answers, v.sent))
    && (!v.rotated ==> v.sent == [])
  }

  ghost predicate AllRight(pairs: seq<Pair>, h: nat, locate: Bytes -> Endpoint, answers: nat -> Bytes, v: Snapshot)
    requires PairsOk(pairs)
  {
    Attended(h, Joined(pairs), v) && (v.aborted || Scattered(pairs, h, locate, answers, v))
  }

  ghost predicate SentFor(pairs: seq<Pair>, v: Snapshot, id: nat)
    requires id < |v.conns|
  {
    && |v.owner| <= |pairs|
    && var query := MsetArray(Select(v.owner, pairs[..|v.owner|], id));
       v.conns[id].wire <= query && (v.rotated ==> v.conns[id].wire == query)
  }

  // ---------- who is to blame ----------

  predicate Refuses(e: Event, id: nat) {
    e.QuerySent? && e.id == id && e.ec.ConnectError?
  }

  predicate Breaks(e: Event) {
    match e
    case QuerySent(_, ec, _) => ec.OtherError?
    case ReplyRead(_, _, ok, _) => !ok
    case ReplyWritten(ok) => !ok
    case _ => false
  }

  lemma NewFailure(text: Bytes, h: nat, items: seq<Bytes>, answers: nat -> Bytes, v: Snapshot, e: Event, w: Snapshot,
                   id: nat)
    requires Next(text, h, items, answers, v, e, w) && id < |w.conns| && w.conns[id].failed && !Refuses(e, id)
    ensures id < |v.conns| && v.conns[id].failed
  {
    hide Quota, NoneWriting, Incomplete, StillPending, Advanced, Failed, Grown, Replied, Tried;
    if e.QuerySent? && e.id < |v.conns| {
      AdvancedFailed(text, v.conns[e.id]);
    } else if e.ReplyRead? && e.id < |v.conns| {
      RepliedFailed(answers(e.id), v.conns[e.id], e.size);
    } else if e.ClientBytes? && v.tail < |v.conns| {
      GrownFailed(text, v.conns[v.tail], v.len, e.size, Quota(h, items, v.owner));
    }
  }

  lemma GrownFailed(text: Bytes, c: Conn, len: nat, n: nat, q: nat)
    ensures Grown(text, c, len, n, q).failed == c.failed
  {
  }

  lemma NewAbort(text: Bytes, h: nat, items: seq<Bytes>, answers: nat -> Bytes, v: Snapshot, e: Event, w: Snapshot)
    requires Next(text, h, items, answers, v, e, w) && w.aborted && !Breaks(e)
    ensures v.aborted
  {
    hide Quota, Advanced, Piece, NoneWriting, Incomplete, StillPending, OldConns;
  }

  // A subquery fails only when its connect is refused, and the command is
  // aborted only by a broken connection.
  lemma {:induction false} BlameFor(text: Bytes, h: nat, items: seq<Bytes>, answers: nat -> Bytes, schedule: seq<Event>,
                                    run: seq<Snapshot>, i: nat)
    requires IsRun(text, h, items, answers, schedule, run) && i < |run|
    requires Starts(run[0].len, run[0].first, run[0])
    ensures forall id :: 0 <= id < |run[i].conns| && run[i].conns[id].failed ==>
              exists k :: 0 <= k < i && Refuses(schedule[k], id)
    ensures run[i].aborted ==> exists k :: 0 <= k < i && Breaks(schedule[k])
  {
    hide Next, Refuses, Breaks;
    if i > 0 {
      BlameFor(text, h, items, answers, schedule, run, i - 1);
      var v, e, w := run[i - 1], schedule[i - 1], run[i];
      assert Next(text, h, items, answers, v, e, w);
      forall id: nat | 0 <= id < |w.conns| && w.conns[id].failed
        ensures exists k :: 0 <= k < i && Refuses(schedule[k], id)
      {
        if !Refuses(e, id) {
          NewFailure(text, h, items, answers, v, e, w, id);
        }
      }
      if w.aborted && !Breaks(e) {
        NewAbort(text, h, items, answers, v, e, w);
      }
    }
  }

  class MsetCommand {
    const text: Bytes           // the command as the client sends it, and what follows
    const h: nat                // where its first pair starts
    const pairs: seq<Pair>
    const items: seq<Bytes>     // each pair as a piece of the text
    const eps: seq<Endpoint>    // the endpoint of each pair
    const answers: nat -> Bytes // what the backend of each subquery answers

    var len: nat                // bytes of the text received
    var owner: seq<nat>         // subquery of each pair taken so far
    var shares: seq<Share>
    var conns: seq<Conn>        // connection of each subquery
    var pending: set<nat>       // pending_subqueries_
    var tail: nat               // tail_query_
    var replying: Option<nat>   // replying_backend_
    var first: bool
    var isWriting: bool         // the reply is being written
    var writer: nat             // by the connection of this subquery
    var sent: Bytes
    var reading: bool           // a client read is outstanding
    var starved: bool           // the last attempt to read was refused
    var aborted: bool
    var rotated: bool

    ghost const name: Bytes
    ghost const after: Bytes
    ghost var replier: Option<nat>  // the subquery that answers

    // unparsed_bulks_, counted in pairs
    function Unparsed(): nat
      reads `owner
    {
      if |owner| <= |items| then |items| - |owner| else 0
    }

    predicate LastPending()
      reads `owner, `pending
    {
      Unparsed() == 0 && |pending| == 1
    }

    predicate QueryRecvComplete()
      reads `owner, `conns, `tail
    {
      tail < |conns| && conns[tail].recvComplete && Unparsed() == 0
    }

    ghost predicate ReplyOk()
      reads `replier, `replying, `isWriting, `rotated, `first, `writer, `conns, `sent
    {
      && (replier.None? ==> replying.None? && !isWriting && !rotated)
      && (isWriting ==> first && replier == Some(writer))
      && (replier.Some? ==>
            && (first ==> isWriting || rotated)
            && (!first ==> replying == replier && !isWriting && !rotated)
            && (replying.Some? ==> replying == replier))
      && (rotated ==> replier.Some? && replier.value < |conns| && !isWriting && sent == conns[replier.value].reply)
      && (!rotated ==> sent == [])
    }

    ghost predicate Sound()
      reads `aborted, `owner, `shares, `conns, `tail, `len, `pending, `replier, `replying, `isWriting, `rotated, `first,
            `writer, `sent
    {
      !aborted ==>
        && ScatterOk(text, h, items, eps, owner, shares, conns, tail, len)
        && PendingOk(conns, pending, Unparsed(), replier)
        && ReplyOk() && AnswersOk(conns, answers)
    }

    function Seen(): Snapshot
      reads this
    {
      Snapshot(len, owner, shares, conns, pending, tail, reading, starved, first, isWriting, sent, aborted, rotated)
    }

    // The command lies in the text as the client sends it.
    ghost predicate TextOk()
      reads `len
    {
      && PairsOk(pairs) && text == CommandText(name, Flat(pairs), after) && h == Head(name, 2 * |pairs|) && items == Joined(pairs)
      && h <= len <= |text|
    }

    // All pairs that can be taken have been taken.
    ghost predicate UpToDate()
      reads `len, `owner
      requires TextOk()
    {
      |owner| == PairsIn(pairs, len - h)
    }

    // A read is outstanding only while no subquery holds the buffer, and as
    // long as the query is incomplete one of the two is the case, or a read was
    // refused.
    ghost predicate ReadOk()
      reads `len, `owner, `conns, `reading, `starved
    {
      && (reading ==> Incomplete(h, items, owner, len) && NoneWriting(conns))
      && (Incomplete(h, items, owner, len) && !reading && !starved ==> !NoneWriting(conns))
    }

    ghost predicate Valid()
      reads this
    {
      TextOk() && Sound() && (!aborted ==> UpToDate() && ReadOk())
    }

    // ---------- answering ----------

    // Subquery id has its reply: it answers if it is the last one, and leaves
    // the pending set otherwise.
    method Finish(id: nat, c: Conn)
      requires PendingOk(conns, pending, Unparsed(), replier) && ReplyOk() && !aborted && !rotated
      requires id in pending && id < |conns| && !conns[id].done
      requires c == conns[id].(done := true, reply := c.reply, failed := c.failed, recvComplete := c.recvComplete,
                                writing := c.writing)
      requires ScatterOk(text, h, items, eps, owner, shares, conns[id := c], tail, len)
      requires AnswersOk(conns[id := c], answers)
      modifies this`conns, this`pending, this`replying, this`isWriting, this`writer, this`replier
      ensures Sound()
      ensures Changed(Unparsed(), old(Seen()), id, c, Seen())
    {
      hide AnswersOk, ScatterOk, PendingOk;
      if LastPending() {
        PendingLast(conns, pending, replier, id, c);
        conns := conns[id := c];
        replier := Some(id);
        if first {
          isWriting, writer := true, id;
        } else {
          replying := Some(id);
        }
      } else {
        PendingErase(conns, pending, Unparsed(), replier, id, c);
        NoReplierYet(conns, pending, Unparsed(), replier, id);
        conns := conns[id := c];
        pending := pending - {id};
      }
    }

    // The same for a command that is otherwise as it should be.
    method Answer(id: nat, c: Conn)
      requires Sound() && !aborted && !rotated && id in pending && id < |conns| && !conns[id].done
      requires c == conns[id].(done := true, reply := c.reply, failed := c.failed, recvComplete := c.recvComplete,
                                writing := c.writing)
      requires ScatterOk(text, h, items, eps, owner, shares, conns[id := c], tail, len)
      requires AnswersOk(conns[id := c], answers)
      modifies this`conns, this`pending, this`replying, this`isWriting, this`writer, this`replier
      ensures Sound() && Changed(Unparsed(), old(Seen()), id, c, Seen())
    {
      hide ScatterOk, PendingOk, AnswersOk, ReplyOk, Changed;
      Finish(id, c);
    }

    // ---------- sending ----------

    // Replaces the connection of id by one that is as complete and as done.
    method SetConn(id: nat, c: Conn)
      requires Sound() && !aborted && id < |conns|
      requires c.done == conns[id].done && c.reply == conns[id].reply && c.failed == conns[id].failed
      requires ScatterOk(text, h, items, eps, owner, shares, conns[id := c], tail, len)
      modifies this`conns
      ensures Sound() && conns == old(conns)[id := c]
    {
      hide AnswersOk, ScatterOk, PendingOk;
      AnswerAt(conns, answers, id);
      AnswerUpdate(conns, answers, id, c);
      PendingUpdate(conns, pending, Unparsed(), replier, id, c);
      conns := conns[id := c];
    }

    lemma CompleteIs()
      requires Sound() && !aborted
      ensures QueryRecvComplete() <==> !Incomplete(h, items, owner, len)
      ensures |owner| <= |items|
    {
      hide AnswersOk, ScatterOk, PendingOk, ReplyOk, Start;
      TailIs(text, h, items, eps, owner, shares, conns, tail, len);
    }

    // Starts a client read unless one is outstanding.
    method TryReadMoreQuery(room: bool)
      modifies this`reading, this`starved
      ensures Tried(true, room, old(reading), old(starved), reading, starved)
    {
      if !reading {
        reading, starved := room, !room;
      }
    }

    method OnWriteQueryFinished(id: nat, ec: ErrorCode, room: bool)
      requires Valid() && !aborted && !rotated && id in pending && id < |conns| && conns[id].writing
      requires ec.ConnectError? ==> conns[id].phase.Init?
      modifies this`conns, this`pending, this`replying, this`isWriting, this`writer, this`replier, this`aborted,
               this`reading, this`starved
      ensures Valid() && AfterSent(text, h, items, old(Seen()), id, ec, room, Seen())
    {
      hide AnswersOk, ScatterOk, PendingOk, Start, TextOk, UpToDate, Quota, Advanced, Failed;
      if !ec.Success? {
        if ec.ConnectError? {
          OnBackendRecoverableError(id);
        } else {
          aborted := true;
          return;
        }
      } else {
        SendMore(id);
      }
      CompleteIs();
      if !QueryRecvComplete() && NoneWriting(conns) {
        TryReadMoreQuery(room);
      }
    }

    method SendMore(id: nat)
      requires Sound() && !aborted && !rotated && id in pending && id < |conns| && conns[id].writing
      modifies this`conns
      ensures Sound()
      ensures Changed(Unparsed(), old(Seen()), id, Advanced(text, old(conns)[id]), Seen())
    {
      hide AnswersOk, ScatterOk, PendingOk, Query, Missing, Start, Advanced;
      AtConn(text, h, items, eps, owner, shares, conns, tail, len, id);
      ghost var missing := if id == tail then Missing(h, items, |owner| - 1, len) else [];
      var c := Advance(text, Query(owner, items, id), conns[id], missing);
      UpdateConn(text, h, items, eps, owner, shares, conns, tail, len, id, c);
      SetConn(id, c);
    }

    method OnBackendRecoverableError(id: nat)
      requires Sound() && !aborted && !rotated && id in pending && id < |conns| && conns[id].writing
      requires conns[id].phase.Init?
      modifies this`conns, this`pending, this`replying, this`isWriting, this`writer, this`replier
      ensures Sound()
      ensures Changed(Unparsed(), old(Seen()), id, Failed(old(conns)[id]), Seen())
    {
      hide AnswersOk, ScatterOk, PendingOk, Query, Missing, Start, SegmentText;
      AtConn(text, h, items, eps, owner, shares, conns, tail, len, id);
      var c := conns[id].(failed := true, writing := false, reply := CONNECT_ERROR);
      AnswerUpdate(conns, answers, id, Failed(conns[id]));
      if c.recvComplete {
        UpdateConn(text, h, items, eps, owner, shares, conns, tail, len, id, c.(done := true));
        Finish(id, c.(done := true));
      } else {
        // wait for the rest of the query
        UpdateConn(text, h, items, eps, owner, shares, conns, tail, len, id, c);
        PendingUpdate(conns, pending, Unparsed(), replier, id, c);
        NoReplierYet(conns, pending, Unparsed(), replier, id);
        conns := conns[id := c];
      }
    }

    // ---------- more of the query ----------

    // The tail's value was incomplete and n more bytes have arrived.
    method ContinueWriteQuery(n: nat)
      requires Sound() && !aborted && !rotated && |owner| <= |items| && tail < |conns|
      requires len < Start(h, items, |owner|) && len + n <= |text|
      requires conns[tail].failed || !conns[tail].writing
      modifies this`len, this`conns, this`pending, this`replying, this`isWriting, this`writer, this`replier
      ensures Sound() && len == old(len) + n
      ensures conns == old(conns)[tail := Grown(text, old(conns)[tail], old(len), n, Start(h, items, |owner|))]
    {
      hide AnswersOk, ScatterOk, PendingOk, Start;
      var q := Start(h, items, |owner|);
      var c := conns[tail];
      TailGrown(text, h, items, eps, owner, shares, conns, tail, len, n);
      if c.failed {
        c := c.(recvComplete := q <= len + n, done := q <= len + n);
      } else {
        assert c.phase.ReadingMore?;  // as the source asserts
        c := c.(writing := true, recvComplete := q <= len + n, wire := c.wire + text[len..Min(q, len + n)]);
      }
      TailPending(conns, pending, Unparsed(), replier, tail);
      NoReplierYet(conns, pending, Unparsed(), replier, tail);
      AnswerAt(conns, answers, tail);
      AnswerUpdate(conns, answers, tail, c);
      len := len + n;
      if c.done {
        Finish(tail, c);
      } else {
        PendingUpdate(conns, pending, Unparsed(), replier, tail, c);
        conns := conns[tail := c];
      }
    }

    // A batch of pairs: `ProcessUnparsedPart` and `ActivateWaitingSubquery`.
    method TakeBatch(upto: nat)
      requires Sound() && !aborted && !rotated
      requires |owner| < upto <= |items| && Start(h, items, upto - 1) <= len && Start(h, items, |owner|) <= len
      modifies this`owner, this`shares, this`conns, this`pending, this`tail
      ensures Sound() && |owner| == upto && old(owner) <= owner && old(shares) <= shares
      ensures old(conns) <= conns && |old(conns)| < |conns| && AllNew(conns, |old(conns)|)
    {
      hide AnswersOk, ScatterOk, PendingOk, Query, Missing, Start, LaidOut, OwnersOk, ConnOk;
      AllComplete(text, h, items, eps, owner, shares, conns, tail, len);
      NotAllParsed(conns, pending, Unparsed(), replier);
      var shares', owner', conns' := NewBatch(text, h, items, eps, shares, owner, conns, upto, len);
      PendingBatch(conns, pending, Unparsed(), replier, conns', pending + Ids(|conns|, |conns'|), |items| - upto);
      AnswersNew(conns, conns', answers);
      pending := pending + Ids(|conns|, |conns'|);
      shares, owner, conns, tail := shares', owner', conns', owner'[upto - 1];
    }

    // `ProcessUnparsedPart`: the pairs that can be taken now are found and sent.
    method ProcessUnparsedPart(room: bool)
      requires TextOk() && Sound() && !aborted && !rotated && !reading
      requires |owner| < |pairs| && |owner| <= PairsIn(pairs, len - h) && Start(h, items, |owner|) <= len
      modifies this`owner, this`shares, this`conns, this`pending, this`tail, this`reading, this`starved
      ensures Valid() && old(owner) <= owner && old(shares) <= shares
      ensures old(conns) <= conns && AllNew(conns, |old(conns)|)
    {
      hide ScatterOk, PendingOk, Query, Missing, LaidOut, OwnersOk, AnswersOk, CommandText, Head, PairsIn, PairsOk,
           Joined, NoneWriting, Concat, ConnOk;
      var upto := NextPairs(name, pairs, after, len, text[Start(h, items, |owner|)..len], 2 * Unparsed(), |owner|);
      if upto == |owner| {
        if NoneWriting(conns) {
          TryReadMoreQuery(room);
        }
        return;
      }
      PairsInBounds(pairs, len - h);
      TakeBatch(upto);
      SomeNew(conns, |old(conns)|);
    }

    // n more bytes are there; the tail gets its part of them.
    method Receive(n: nat)
      requires TextOk() && Sound() && UpToDate() && !aborted && !rotated && 0 < n && len + n <= |text|
      requires NoneWriting(conns)
      modifies this`len, this`conns, this`pending, this`replying, this`isWriting, this`writer, this`replier
      ensures TextOk() && Sound() && |owner| <= PairsIn(pairs, len - h)
      ensures len == old(len) + n && OldConns(text, Quota(h, items, owner), old(conns), tail, old(len), n, conns)
      ensures |conns| == |old(conns)|
      ensures tail < |conns| && |owner| <= |items| == |pairs|
      ensures len < Start(h, items, |owner|) ==> UpToDate() && (NoneWriting(conns) <==> conns[tail].failed)
    {
      hide ScatterOk, PendingOk, Query, Missing, SegmentText, LaidOut, OwnersOk, AnswersOk, CommandText, Head, PairsIn,
           PairsOk, Joined, Concat, ConnOk, Grown, NoneWriting, Start, ReplyOk;
      TailIs(text, h, items, eps, owner, shares, conns, tail, len);
      PairsInGrow(pairs, len - h, len + n - h);
      if len < Start(h, items, |owner|) {
        GrownWrites(text, conns, tail, len, n, Start(h, items, |owner|));
        TailQuiet(conns, tail);
        ContinueWriteQuery(n);
        if len < Start(h, items, |owner|) {
          StartFrom(h, items, |owner|);
          PairsInStay(pairs, old(len) - h, len - h);
        }
      } else {
        ReceivedOk(text, h, items, eps, owner, shares, conns, tail, len, len + n);
        len := len + n;
      }
    }

    // A client read for this command completed with n bytes.
    method HandleRead(n: nat, room: bool)
      requires Valid() && !aborted && !rotated && reading && 0 < n && len + n <= |text|
      modifies this`len, this`conns, this`pending, this`replying, this`isWriting, this`writer, this`replier,
               this`owner, this`shares, this`tail, this`reading, this`starved
      ensures Valid() && Received(text, Quota(h, items, old(owner)), old(Seen()), n, Seen())
    {
      hide Sound, TextOk, PairsIn, PairsOk, NoneWriting, Start, Grown, OldConns, AllNew;
      reading := false;
      Receive(n);
      NoneNew(conns);
      if len < Start(h, items, |owner|) {
        // the rest of the tail's value is read once this part is sent on
        if conns[tail].failed {
          TryReadMoreQuery(room);
        }
      } else if |owner| < |pairs| {
        ghost var before := conns;
        ProcessUnparsedPart(room);
        OldConnsStay(text, Quota(h, items, old(owner)), old(conns), old(tail), old(len), n, before, conns);
      }
    }

    // Construction and StartWriteQuery, with len bytes received.
    constructor (name: Bytes, pairs: seq<Pair>, after: Bytes, eps: seq<Endpoint>, answers: nat -> Bytes, len: nat,
                 isFirst: bool)
      requires PairsOk(pairs) && AllWhole([name] + Flat(pairs)) && |eps| == |pairs|
      requires len <= |CommandText(name, Flat(pairs), after)| && F.Taken([name] + Flat(pairs), F.Mset, len) > 0
      requires forall id: nat :: S.IsReply(answers(id))
      ensures Valid() && Starts(len, isFirst, Seen())
      ensures F.Taken([name] + Flat(pairs), F.Mset, len) == 1 + 2 * |owner|
      ensures this.pairs == pairs && this.eps == eps && this.answers == answers
      ensures text == CommandText(name, Flat(pairs), after) && h == Head(name, 2 * |pairs|) && items == Joined(pairs)
    {
      hide AnswersOk, ScatterOk, PendingOk, Query, Missing, LaidOut, OwnersOk, ConnOk, S.IsReply, CommandText, Head,
           PairsIn, PairsOk, Joined, Concat, AllWhole, Flat, F.Taken, WholeBulk, NoneWriting;
      var text, h, items := CommandText(name, Flat(pairs), after), Head(name, 2 * |pairs|), Joined(pairs);
      NoOwners(eps);
      PairsLaidOut(name, pairs, after);
      var upto := FirstPairs(name, pairs, after, text[..len]);
      PairsInBounds(pairs, len - h);
      var shares', owner', conns' := NewBatch(text, h, items, eps, [], [], [], upto, len);
      FirstPending(conns', |items| - upto);
      AnswersNew([], conns', answers);
      SomeNew(conns', 0);
      this.text, this.h, this.items, this.pairs, this.eps, this.answers, this.len := text, h, items, pairs, eps, answers, len;
      this.name, this.after := name, after;
      owner, shares, conns, pending, tail := owner', shares', conns', Ids(0, |conns'|), owner'[upto - 1];
      replying, first, isWriting, writer, reading, starved := None, isFirst, false, 0, false, false;
      sent, aborted, rotated, replier := [], false, false, None;
    }

    // ---------- replies ----------

    // n more bytes of the reply of subquery id have been read.
    method OnBackendReplyReceived(id: nat, n: nat, ok: bool, room: bool)
      requires Valid() && !aborted && !rotated && id in pending && id < |conns|
      requires conns[id].phase.ReadingReply? && !conns[id].done
      requires 0 < n && |conns[id].reply| + n <= |answers(id)|
      modifies this`conns, this`pending, this`replying, this`isWriting, this`writer, this`replier, this`aborted,
               this`reading, this`starved
      ensures Valid() && AfterReply(items, answers, old(Seen()), id, n, ok, room, Seen())
    {
      hide Sound, Start, TextOk, UpToDate, Quota, NoneWriting, ScatterOk, AnswersOk;
      if !ok {
        aborted := true;
        AbortedSound();
        return;
      }
      CompleteIs();
      var c := ParseReply(id, n);
      SameWriting(conns, id, c);
      if c.done {
        Answer(id, c);
        if Unparsed() > 0 && NoneWriting(conns) {
          TryReadMoreQuery(room);
        }
      } else {
        ReadMore(id, c);
      }
    }

    lemma AbortedSound()
      requires aborted
      ensures Sound()
    {
    }

    method ReadMore(id: nat, c: Conn)
      requires Sound() && !aborted && id in pending && id < |conns| && !conns[id].done && !c.done
      requires ScatterOk(text, h, items, eps, owner, shares, conns[id := c], tail, len)
      requires AnswersOk(conns[id := c], answers)
      modifies this`conns
      ensures Sound() && conns == old(conns)[id := c]
    {
      hide ScatterOk, PendingOk, AnswersOk;
      PendingUpdate(conns, pending, Unparsed(), replier, id, c);
      NoReplierYet(conns, pending, Unparsed(), replier, id);
      conns := conns[id := c];
    }

    // `ParseReply`: the reply is complete when its last byte is there.
    method ParseReply(id: nat, n: nat) returns (c: Conn)
      requires Sound() && !aborted && id in pending && id < |conns|
      requires conns[id].phase.ReadingReply? && !conns[id].done
      requires 0 < n && |conns[id].reply| + n <= |answers(id)|
      ensures c == Replied(answers(id), conns[id], n)
      ensures ScatterOk(text, h, items, eps, owner, shares, conns[id := c], tail, len)
      ensures AnswersOk(conns[id := c], answers)
    {
      hide ScatterOk, PendingOk, Query, Missing, Start, SegmentText, S.IsReply, S.Needed, S.SimpleReply, AnswersOk;
      AtConn(text, h, items, eps, owner, shares, conns, tail, len, id);
      AnswerAt(conns, answers, id);
      var k := |conns[id].reply| + n;
      c := conns[id].(reply := answers(id)[..k]);
      S.PrefixParses(answers(id), c.reply);
      var r := S.ParseSimple(c.reply);
      if r.Refused? {
        // aborts the client; never reached with well-formed backends
        assert false;
      }
      c := c.(done := r.Found? && r.complete);
      WholeReply(answers(id), k);
      AnswerUpdate(conns, answers, id, c);
      UpdateConn(text, h, items, eps, owner, shares, conns, tail, len, id, c);
    }

    // The command reaches the front of the pipeline.
    method StartWriteReply()
      requires Valid() && !aborted && !rotated && !first
      modifies this`first, this`isWriting, this`writer
      ensures Valid() && Seen() == old(Seen()).(first := true, isWriting := Answering(old(Seen())))
    {
      hide AnswersOk, ScatterOk, PendingOk, Start, TextOk, UpToDate, ReadOk, Answering;
      AnsweringIs(Seen(), Unparsed(), replier);
      first := true;
      if replying.Some? {
        TailBounds(text, h, items, eps, owner, shares, conns, tail, len);
        AllReceived(text, h, items, eps, owner, shares, conns, tail, len, pending, replier);
      }
      if QueryRecvComplete() && replying.Some? {
        isWriting, writer := true, replying.value;
      }
    }

    method OnWriteReplyFinished(ok: bool)
      requires Valid() && !aborted && !rotated && isWriting
      modifies this`isWriting, this`sent, this`rotated, this`aborted
      ensures Valid() && AfterWrite(old(Seen()), ok, Seen())
      ensures rotated ==> |pending| == 1 && Unparsed() == 0
    {
      hide AnswersOk, ScatterOk, Start, TextOk, UpToDate, ReadOk;
      if !ok {
        aborted := true;
        return;
      }
      isWriting := false;
      sent := sent + conns[writer].reply;
      assert [] + conns[writer].reply == conns[writer].reply;
      rotated := true;
    }

    // ---------- whole runs ----------

    // The command never waits for nothing.
    lemma NeverStuck()
      requires Valid()
      ensures Attended(h, items, Seen())
    {
      hide PendingOk, Query, SegmentText, LaidOut, Start, ConnOk, OwnersOk, AnswersOk, Missing, ConnAt, CommandText,
           Head, PairsIn, PairsOk, Joined;
      if !aborted && !rotated && !reading && !starved {
        TailBounds(text, h, items, eps, owner, shares, conns, tail, len);
        if Incomplete(h, items, owner, len) {
          var id: nat :| id < |conns| && conns[id].writing;
          AtConn(text, h, items, eps, owner, shares, conns, tail, len, id);
          WritingPending(text, Query(owner, items, id), conns, pending, Unparsed(), replier, id,
                         if id == tail then Missing(h, items, |owner| - 1, len) else []);
        } else {
          AllComplete(text, h, items, eps, owner, shares, conns, tail, len);
          OwnedByOne(owner, shares, eps);
          var id := SomeoneIsPending(conns, pending, replier);
          if replier.None? {
            Outstanding(text, Query(owner, items, id), conns[id], []);
          }
        }
      }
    }

    lemma SentSoFar(id: nat)
      requires Sound() && !aborted && id < |conns| && !conns[id].failed
      ensures |owner| <= |items| && conns[id].wire <= Query(owner, items, id)
      ensures rotated ==> conns[id].wire == Query(owner, items, id)
    {
      hide AnswersOk, ScatterOk, ConnOk, LaidOut, Start, Query, Missing, ConnAt;
      AtConn(text, h, items, eps, owner, shares, conns, tail, len, id);
      ghost var missing := if id == tail then Missing(h, items, |owner| - 1, len) else [];
      WirePrefix(text, Query(owner, items, id), conns[id], missing);
      if rotated {
        AllReceived(text, h, items, eps, owner, shares, conns, tail, len, pending, replier);
        AtConn(text, h, items, eps, owner, shares, conns, tail, len, tail);
        NothingMissing(h, items, |owner| - 1, len);
        Delivered(text, Query(owner, items, id), conns[id]);
      }
    }

    lemma Outcome(locate: Bytes -> Endpoint)
      requires Valid() && !aborted && PairsOk(pairs) && eps == LocatedPairs(pairs, locate)
      ensures PairsOk(pairs) && Scattered(pairs, h, locate, answers, Seen())
    {
      hide LaidOut, Start, Query, MsetArray, Select, SegmentText, Missing, ConnAt, PairsIn, CommandText, Head, PairsOk,
           NoneWriting, Together;
      forall id: nat | 0 <= id < |conns| && !conns[id].failed ensures SentFor(pairs, Seen(), id) {
        SentSoFar(id);
        QueryIsMset(owner, pairs, id);
      }
      if rotated {
        EachOnce(owner, pairs, |conns|);
      }
    }

    lemma Exact(locate: Bytes -> Endpoint)
      requires Valid() && PairsOk(pairs) && eps == LocatedPairs(pairs, locate)
      ensures PairsOk(pairs) && AllRight(pairs, h, locate, answers, Seen())
    {
      hide Sound, UpToDate, ReadOk, CommandText, Head, Joined, PairsOk, Attended, Scattered;
      NeverStuck();
      if !aborted {
        Outcome(locate);
      }
    }

    method Step(e: Event)
      requires Valid()
      modifies this
      ensures Valid() && Next(text, h, items, answers, old(Seen()), e, Seen())
    {
      hide AnswersOk, ScatterOk, PendingOk, ReplyOk, Query, Missing, Start, SegmentText, CommandText, Head, PairsIn,
           PairsOk, Joined, Valid, Received, AfterSent, AfterReply, AfterRetry, AfterWrite, Answering;
      if aborted || rotated {
        return;
      }
      match e {
        case ClientBytes(n, room) =>
          if reading && 0 < n && len + n <= |text| {
            HandleRead(n, room);
          }
        case QuerySent(id, ec, room) =>
          if id in pending && id < |conns| && conns[id].writing && (ec.ConnectError? ==> conns[id].phase.Init?) {
            OnWriteQueryFinished(id, ec, room);
          }
        case ReplyRead(id, n, ok, room) =>
          if id in pending && id < |conns| && conns[id].phase.ReadingReply? && !conns[id].done &&
             0 < n && |conns[id].reply| + n <= |answers(id)| {
            OnBackendReplyReceived(id, n, ok, room);
          }
        case Retry(room) =>
          OnRetry(room);
        case BecomesFirst =>
          if !first {
            StartWriteReply();
          }
        case ReplyWritten(ok) =>
          if isWriting {
            OnWriteReplyFinished(ok);
          }
      }
    }

    // Reading may have been blocked by a lock of a command that left.
    method OnRetry(room: bool)
      requires Valid() && !aborted && !rotated
      modifies this`reading, this`starved
      ensures Valid() && AfterRetry(h, items, old(Seen()), room, Seen())
    {
      hide AnswersOk, ScatterOk, PendingOk, Query, Missing, CommandText, Head, PairsIn, PairsOk, Joined, Start;
      CompleteIs();
      if !QueryRecvComplete() && NoneWriting(conns) {
        TryReadMoreQuery(room);
      }
    }
  }

  // MSET scatter preserves the query and answers exactly once: for every way the
  // client's bytes are cut and every schedule of completions, every state of the
  // run is exact, follows from the previous one by its event, and awaits
  // something that will happen. Subqueries fail only when their connect is
  // refused, and the command is aborted only by a broken connection.
  method Serve(name: Bytes, pairs: seq<Pair>, after: Bytes, locate: Bytes -> Endpoint, answers: nat -> Bytes, len: nat,
               isFirst: bool, schedule: seq<Event>)
    returns (run: seq<Snapshot>)
    requires PairsOk(pairs) && AllWhole([name] + Flat(pairs))
    requires F.KindOfCommand([name] + Flat(pairs)) == Some(F.Mset) && forall id: nat :: S.IsReply(answers(id))
    requires len <= |CommandText(name, Flat(pairs), after)| && F.Taken([name] + Flat(pairs), F.Mset, len) > 0
    ensures IsRun(CommandText(name, Flat(pairs), after), Head(name, 2 * |pairs|), Joined(pairs), answers, schedule, run)
    ensures Starts(len, isFirst, run[0])
    ensures F.Taken([name] + Flat(pairs), F.Mset, len) == 1 + 2 * |run[0].owner|
    ensures forall i :: 0 <= i < |run| ==>
              && Attended(Head(name, 2 * |pairs|), Joined(pairs), run[i])
              && (run[i].aborted || Scattered(pairs, Head(name, 2 * |pairs|), locate, answers, run[i]))
    ensures forall i, id :: 0 <= i < |run| && 0 <= id < |run[i].conns| && run[i].conns[id].failed ==>
              exists k :: 0 <= k < i && Refuses(schedule[k], id)
    ensures forall i :: 0 <= i < |run| && run[i].aborted ==> exists k :: 0 <= k < i && Breaks(schedule[k])
  {
    hide CommandText, Head, Joined, PairsOk, PairsIn, Scattered, Attended, Next, LocatedPairs, F.Taken,
         F.KindOfCommand, AllWhole, Flat, S.IsReply, WholeBulk, Refuses, Breaks, MsetCommand.Valid, AllNew;
    var eps := LocatedPairs(pairs, locate);
    var c := new MsetCommand(name, pairs, after, eps, answers, len, isFirst);
    run := [c.Seen()];
    ghost var start := c.Seen();
    c.Exact(locate);
    for i := 0 to |schedule|
      invariant fresh(c) && c.Valid() && |run| == i + 1 && run[i] == c.Seen() && run[0] == start
      invariant forall k :: 0 <= k < i ==> Next(c.text, c.h, c.items, answers, run[k], schedule[k], run[k + 1])
      invariant forall k :: 0 <= k <= i ==> AllRight(pairs, c.h, locate, answers, run[k])
    {
      c.Step(schedule[i]);
      c.Exact(locate);
      run := run + [c.Seen()];
    }
    forall i | 0 <= i < |run|
      ensures forall id :: 0 <= id < |run[i].conns| && run[i].conns[id].failed ==>
                exists k :: 0 <= k < i && Refuses(schedule[k], id)
      ensures run[i].aborted ==> exists k :: 0 <= k < i && Breaks(schedule[k])
    {
      BlameFor(c.text, c.h, c.items, answers, schedule, run, i);
    }
  }
}
