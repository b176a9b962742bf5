/**
 What MSET and DEL have in common: the connection of a subquery and the bytes it
 is sent, and the set of pending subqueries of which the last one answers.
 */
module MultiKey {
  import opened Resp
  import opened Net
  import opened Scatter
  import opened Subqueries

  datatype Phase = Init | Sending | ReadingMore | ReadingReply

  // The connection of one subquery.
  datatype Conn = Conn(
    phase: Phase,
    writing: bool,        // a write to the backend is outstanding
    recvComplete: bool,   // query_recv_complete_
    failed: bool,         // the connect failed
    done: bool,           // its reply is there, or it failed and nothing more is expected
    segments: seq<Segment>,
    wire: Bytes,          // bytes handed to the backend socket
    reply: Bytes)

  // Segments whose write has not started.
  function Unsent(c: Conn): seq<Segment> {
    match c.phase
    case Init => c.segments
    case Sending => if c.segments == [] then [] else c.segments[1..]
    case _ => []
  }

  function Piece(text: Bytes, s: Segment): Bytes {
    if s.start + s.size <= |text| then text[s.start..s.start + s.size] else []
  }

  // A subquery after its outstanding write: the next segment is being written,
  // or the rest of the query is awaited, or the reply.
  function Advanced(text: Bytes, c: Conn): Conn {
    if c.phase.Init? && c.segments != [] then c.(phase := Sending, wire := c.wire + Piece(text, c.segments[0]))
    else if c.phase.Sending? && |c.segments| > 1 then
      c.(segments := c.segments[1..], wire := c.wire + Piece(text, c.segments[1]))
    else c.(segments := [], writing := false, phase := if c.recvComplete then ReadingReply else ReadingMore)
  }

  // Sent, still to be sent and still to arrive make up the query.
  ghost predicate ConnOk(text: Bytes, query: Bytes, c: Conn, missing: Bytes) {
    && SegmentsIn(c.segments, |text|)
    && (!c.failed ==> SegmentsIn(Unsent(c), |text|) && c.wire + SegmentText(text, Unsent(c)) + missing == query)
    && (c.failed ==> !c.writing)
    && (c.phase.Init? || c.phase.Sending? ==> c.segments != [] && (c.failed || c.writing))
    && (c.phase.ReadingMore? && c.recvComplete ==> c.writing || c.failed)
    && (c.phase.ReadingMore? ==> c.segments == [])
    && (c.done ==> !c.writing)
    && (c.phase.ReadingReply? ==> c.recvComplete && !c.writing && !c.failed)
    && (c.failed ==> c.phase.Init?)
    && (c.done ==> (c.failed || c.phase.ReadingReply?) && c.recvComplete)
    && (c.failed && c.recvComplete ==> c.done)
  }

  lemma FirstSegment(text: Bytes, query: Bytes, c: Conn, missing: Bytes)
    requires ConnOk(text, query, c, missing) && c.phase.Init? && !c.failed
    ensures var s := c.segments[0];
            && s.start + s.size <= |text|
            && ConnOk(text, query, c.(phase := Sending, wire := c.wire + text[s.start..s.start + s.size]), missing)
  {
    hide SegmentText;
    var s := c.segments[0];
    SegmentPop(text, c.segments);
    Shift(c.wire, text[s.start..s.start + s.size], SegmentText(text, c.segments[1..]), missing);
  }

  lemma NextSegment(text: Bytes, query: Bytes, c: Conn, missing: Bytes)
    requires ConnOk(text, query, c, missing) && c.phase.Sending? && !c.failed && |c.segments| > 1
    ensures var s := c.segments[1];
            && s.start + s.size <= |text|
            && ConnOk(text, query, c.(segments := c.segments[1..], wire := c.wire + text[s.start..s.start + s.size]), missing)
  {
    hide SegmentText;
    var s := c.segments[1];
    var left := c.segments[1..];
    SegmentPop(text, left);
    Shift(c.wire, text[s.start..s.start + s.size], SegmentText(text, left[1..]), missing);
  }

  // The last segment is written: wait for the rest of the value, or for the reply.
  lemma SegmentsDone(text: Bytes, query: Bytes, c: Conn, missing: Bytes)
    requires ConnOk(text, query, c, missing) && !c.failed
    requires (c.phase.Sending? && |c.segments| == 1) || (c.phase.ReadingMore? && c.segments == [])
    ensures ConnOk(text, query,
                   c.(segments := [], writing := false, phase := if c.recvComplete then ReadingReply else ReadingMore), missing)
    ensures c.wire + missing == query
  {
    NoText(text);
    assert c.wire + [] == c.wire;
  }

  // A write to the backend of a subquery completed: the phases of
  // `OnWriteQueryFinished`.
  method Advance(text: Bytes, ghost query: Bytes, c: Conn, ghost missing: Bytes) returns (c': Conn)
    requires ConnOk(text, query, c, missing) && c.writing
    ensures c' == Advanced(text, c) && ConnOk(text, query, c', missing)
    ensures !c'.done && c'.reply == c.reply && !c'.failed && c'.recvComplete == c.recvComplete
  {
    hide SegmentText;
    match c.phase {
      case Init =>
        FirstSegment(text, query, c, missing);
        var s := c.segments[0];
        c' := c.(phase := Sending, wire := c.wire + text[s.start..s.start + s.size]);
      case Sending =>
        if |c.segments| > 1 {
          NextSegment(text, query, c, missing);
          var s := c.segments[1];
          c' := c.(segments := c.segments[1..], wire := c.wire + text[s.start..s.start + s.size]);
        } else {
          SegmentsDone(text, query, c, missing);
          c' := c.(segments := [], writing := false, phase := if c.recvComplete then ReadingReply else ReadingMore);
        }
      case ReadingMore =>
        SegmentsDone(text, query, c, missing);
        c' := c.(segments := [], writing := false, phase := if c.recvComplete then ReadingReply else ReadingMore);
      case ReadingReply =>
        assert false;  // as the source asserts
    }
  }

  lemma NoText(text: Bytes)
    ensures SegmentText(text, []) == []
  {
  }

  lemma Shift(a: Bytes, b: Bytes, c: Bytes, d: Bytes)
    ensures a + (b + c) + d == (a + b) + c + d
  {
  }

  // A new subquery with its prefix being written.
  lemma NewConn(text: Bytes, items: seq<Bytes>, owner: seq<nat>, id: nat, s: Share, prefix: Bytes, missing: Bytes,
                complete: bool)
    requires ShareOk(text, items, owner, id, s, missing)
    ensures ConnOk(text, prefix + Concat(Owned(owner, items, id)),
                   Conn(Init, true, complete, false, false, s.segments, prefix, []), missing)
  {
    hide SegmentText, Concat, Select;
    assert prefix + SegmentText(text, s.segments) + missing
        == prefix + (SegmentText(text, s.segments) + missing);
  }

  // A subquery's count is the number of items it owns.
  lemma ShareCount(text: Bytes, items: seq<Bytes>, owner: seq<nat>, id: nat, s: Share, missing: Bytes)
    requires ShareOk(text, items, owner, id, s, missing)
    ensures s.count == multiset(owner)[id] && |owner| <= |items|
  {
  }

  // `ActivateWaitingSubquery`: the prefix of each new subquery is written.
  method Activate(conns: seq<Conn>, shares: seq<Share>, prefix: nat -> Bytes, last: nat, lastComplete: bool)
    returns (conns': seq<Conn>)
    requires |conns| <= |shares|
    ensures |conns'| == |shares| && conns <= conns'
    ensures forall id :: |conns| <= id < |shares| ==>
              conns'[id] == Conn(Init, true, id != last || lastComplete, false, false,
                                 shares[id].segments, prefix(shares[id].count), [])
  {
    conns' := conns;
    for id := |conns| to |shares|
      invariant |conns'| == id && conns <= conns'
      invariant forall j :: |conns| <= j < id ==>
                  conns'[j] == Conn(Init, true, j != last || lastComplete, false, false,
                                    shares[j].segments, prefix(shares[j].count), [])
    {
      conns' := conns' + [Conn(Init, true, id != last || lastComplete, false, false,
                               shares[id].segments, prefix(shares[id].count), [])];
    }
  }

  // Later batches leave the items and the count of a subquery alone.
  lemma CountStays(owner: seq<nat>, owner': seq<nat>, items: seq<Bytes>, id: nat)
    requires owner <= owner' && |owner'| <= |items|
    requires forall i :: |owner| <= i < |owner'| ==> owner'[i] != id
    ensures Owned(owner', items, id) == Owned(owner, items, id)
    ensures multiset(owner')[id] == multiset(owner)[id]
  {
    hide Select;
    OwnedStays(owner, owner', items, id);
    SelectCount(owner, items[..|owner|], id);
    SelectCount(owner', items[..|owner'|], id);
  }

  lemma WirePrefix(text: Bytes, query: Bytes, c: Conn, missing: Bytes)
    requires ConnOk(text, query, c, missing) && !c.failed
    ensures c.wire <= query
  {
    hide SegmentText;
    assert query == c.wire + (SegmentText(text, Unsent(c)) + missing);
  }

  // A done subquery that did not fail has sent its whole query.
  lemma Delivered(text: Bytes, query: Bytes, c: Conn)
    requires ConnOk(text, query, c, []) && c.done && !c.failed
    ensures c.wire == query
  {
    NoText(text);
    assert c.wire + [] == c.wire;
  }

  // ---------- pending subqueries ----------

  // Replies: a subquery leaves the pending set when it is done, except that
  // the last one, once everything is parsed, stays and answers.
  ghost predicate PendingOk(conns: seq<Conn>, pending: set<nat>, unparsed: nat, replier: Option<nat>) {
    && (forall id :: id in pending ==> id < |conns|)
    && (forall id :: 0 <= id < |conns| && id !in pending ==> conns[id].done)
    && (forall id :: id in pending && conns[id].done ==> replier == Some(id))
    && (unparsed == 0 && conns != [] ==> pending != {})
    && (replier.Some? ==> unparsed == 0 && pending == {replier.value} && conns[replier.value].done)
  }

  lemma PendingUpdate(conns: seq<Conn>, pending: set<nat>, unparsed: nat, replier: Option<nat>, id: nat, c: Conn)
    requires PendingOk(conns, pending, unparsed, replier) && id < |conns| && c.done == conns[id].done
    ensures PendingOk(conns[id := c], pending, unparsed, replier)
  {
  }

  // A subquery that is not the last one leaves.
  lemma PendingErase(conns: seq<Conn>, pending: set<nat>, unparsed: nat, replier: Option<nat>, id: nat, c: Conn)
    requires PendingOk(conns, pending, unparsed, replier) && id in pending && !conns[id].done && c.done
    requires !(unparsed == 0 && |pending| == 1)
    ensures PendingOk(conns[id := c], pending - {id}, unparsed, replier)
  {
    assert |pending - {id}| == |pending| - 1;
  }

  // The last pending subquery answers.
  lemma PendingLast(conns: seq<Conn>, pending: set<nat>, replier: Option<nat>, id: nat, c: Conn)
    requires PendingOk(conns, pending, 0, replier) && id in pending && !conns[id].done && c.done && |pending| == 1
    ensures PendingOk(conns[id := c], pending, 0, Some(id)) && replier.None?
  {
    OnlyOne(pending, id);
  }

  lemma NoReplierYet(conns: seq<Conn>, pending: set<nat>, unparsed: nat, replier: Option<nat>, id: nat)
    requires PendingOk(conns, pending, unparsed, replier) && id in pending && !conns[id].done
    ensures replier.None?
  {
  }

  // An incomplete tail is pending.
  lemma TailPending(conns: seq<Conn>, pending: set<nat>, unparsed: nat, replier: Option<nat>, tail: nat)
    requires PendingOk(conns, pending, unparsed, replier) && tail < |conns| && !conns[tail].done
    ensures tail in pending
  {
  }

  lemma NotAllParsed(conns: seq<Conn>, pending: set<nat>, unparsed: nat, replier: Option<nat>)
    requires PendingOk(conns, pending, unparsed, replier) && unparsed > 0
    ensures replier.None?
  {
  }

  lemma FirstPending(conns: seq<Conn>, unparsed: nat)
    requires conns != [] && forall id :: 0 <= id < |conns| ==> !conns[id].done
    ensures PendingOk(conns, Ids(0, |conns|), unparsed, None)
  {
    assert 0 in Ids(0, |conns|);
  }

  lemma OnlyOne(pending: set<nat>, id: nat)
    requires id in pending && |pending| == 1
    ensures pending == {id}
  {
    assert |pending - {id}| == 0;
  }

  function Ids(from: nat, to: nat): (ids: set<nat>)
    ensures forall id: nat :: id in ids <==> from <= id < to
  {
    if from >= to then {} else Ids(from, to - 1) + {to - 1}
  }

  lemma PendingBatch(conns: seq<Conn>, pending: set<nat>, unparsed: nat, replier: Option<nat>,
                     conns': seq<Conn>, pending': set<nat>, unparsed': nat)
    requires PendingOk(conns, pending, unparsed, replier) && unparsed > 0
    requires conns <= conns' && |conns| < |conns'|
    requires forall id :: |conns| <= id < |conns'| ==> !conns'[id].done
    requires pending' == pending + Ids(|conns|, |conns'|)
    ensures PendingOk(conns', pending', unparsed', replier)
  {
    assert |conns| in pending';
  }

  // A subquery that is not done has a write outstanding, reads its reply, or
  // waits for more of the query.
  lemma Outstanding(text: Bytes, query: Bytes, c: Conn, missing: Bytes)
    requires ConnOk(text, query, c, missing) && !c.done && c.recvComplete
    ensures c.writing || c.phase.ReadingReply?
  {
  }

  // With everything parsed, either a subquery answers or one is not done.
  lemma SomeoneIsPending(conns: seq<Conn>, pending: set<nat>, replier: Option<nat>) returns (id: nat)
    requires PendingOk(conns, pending, 0, replier) && conns != []
    ensures id in pending && id < |conns| && (replier.None? ==> !conns[id].done)
  {
    id :| id in pending;
  }

  // ---------- reading more of the query ----------

  // Every subquery that is being written to holds the client's buffer, which
  // must not be read into meanwhile.
  predicate NoneWriting(conns: seq<Conn>) {
    forall id :: 0 <= id < |conns| ==> !conns[id].writing
  }

  // The reply of a subquery is being read.
  predicate SomeReading(conns: seq<Conn>) {
    exists id :: 0 <= id < |conns| && conns[id].phase.ReadingReply? && !conns[id].done
  }

  lemma StillReading(conns: seq<Conn>, id: nat)
    requires id < |conns| && conns[id].phase.ReadingReply? && !conns[id].done
    ensures SomeReading(conns)
  {
  }

  lemma SameWriting(conns: seq<Conn>, id: nat, c: Conn)
    requires id < |conns| && c.writing == conns[id].writing
    ensures NoneWriting(conns[id := c]) == NoneWriting(conns)
  {
    if NoneWriting(conns[id := c]) {
      forall j | 0 <= j < |conns| ensures !conns[j].writing {
        assert !conns[id := c][j].writing;
      }
    }
  }

  // Subqueries from `from` on are new: their prefix is being written.
  predicate AllNew(conns: seq<Conn>, from: nat) {
    forall id :: from <= id < |conns| ==> conns[id].phase.Init? && conns[id].writing && !conns[id].failed
  }

  lemma NoneNew(conns: seq<Conn>)
    ensures AllNew(conns, |conns|)
  {
  }

  lemma TailQuiet(conns: seq<Conn>, tail: nat)
    requires NoneWriting(conns) && tail < |conns|
    ensures !conns[tail].writing
  {
  }

  lemma SomeNew(conns: seq<Conn>, from: nat)
    requires AllNew(conns, from) && from < |conns|
    ensures !NoneWriting(conns)
  {
    assert conns[from].writing;
  }

  // A subquery that is being written to is pending.
  lemma WritingPending(text: Bytes, query: Bytes, conns: seq<Conn>, pending: set<nat>, unparsed: nat,
                       replier: Option<nat>, id: nat, missing: Bytes)
    requires PendingOk(conns, pending, unparsed, replier) && id < |conns| && conns[id].writing
    requires ConnOk(text, query, conns[id], missing)
    ensures id in pending
  {
  }

  // `TryReadMoreQuery`, if it is called: a read is outstanding afterwards if
  // there is room for one, and the command is starved otherwise.
  predicate Tried(tries: bool, room: bool, reading: bool, starved: bool, reading': bool, starved': bool) {
    && reading' == (reading || (tries && room))
    && starved' == if tries && !reading then !room else starved
  }

  // n more bytes of a reply have been read.
  function Replied(answer: Bytes, c: Conn, n: nat): Conn {
    var k := |c.reply| + n;
    c.(done := k == |answer|, reply := if k <= |answer| then answer[..k] else answer)
  }

  // Neither writing on nor reading makes a subquery fail.
  lemma AdvancedFailed(text: Bytes, c: Conn)
    ensures Advanced(text, c).failed == c.failed
  {
  }

  lemma RepliedFailed(answer: Bytes, c: Conn, n: nat)
    ensures Replied(answer, c, n).failed == c.failed
  {
  }

  // The pending subqueries after one of them changed to c: it leaves when it is
  // done, unless it is the last one.
  function StillPending(pending: set<nat>, id: nat, c: Conn, last: bool): set<nat> {
    if c.done && !last then pending - {id} else pending
  }
}
