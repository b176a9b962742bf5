/**
 The query side of a client connection: reads fill one buffer, commands are cut
 out of it and handed to their backends as slices, and locks keep the slices in
 place. A command may be created from part of its bytes; only the last one in
 the pipeline can be incomplete.
 */
module ClientQuery {
  import opened Resp
  import opened Net
  import opened Framing
  import B = ReadBuffer

  // The query side of one active command.
  datatype Cmd = Cmd(
    kind: Kind,
    unparsed: nat,        // unparsed_bulks_
    recvComplete: bool,   // query_recv_complete()
    sends: nat,           // query sends holding a lock on the client buffer
    tail: bool,           // the send of the last received part is outstanding
    error: bool,          // the backend of that part failed
    forwarded: Bytes,     // bytes handed to the backend of a single-key command
    from: nat,            // where the parts being sent start in the stream
    awaiting: nat)        // subqueries of DEL sent and not yet answered

  predicate Single(kind: Kind) {
    kind.Basic? || kind.Set?
  }

  // ---------- sends ----------

  function Sends(queue: seq<Cmd>): nat {
    if queue == [] then 0 else queue[0].sends + Sends(queue[1..])
  }

  lemma {:induction false} SendsSnoc(queue: seq<Cmd>, c: Cmd)
    ensures Sends(queue + [c]) == Sends(queue) + c.sends
  {
    if queue != [] {
      SendsSnoc(queue[1..], c);
      assert (queue + [c])[1..] == queue[1..] + [c];
    }
  }

  lemma {:induction false} SendsUpdate(queue: seq<Cmd>, i: nat, c: Cmd)
    requires i < |queue|
    ensures Sends(queue[i := c]) + queue[i].sends == Sends(queue) + c.sends
  {
    if i == 0 {
      assert queue[0 := c][1..] == queue[1..];
    } else {
      SendsUpdate(queue[1..], i - 1, c);
      assert queue[i := c][1..] == queue[1..][i - 1 := c];
    }
  }

  ghost predicate SendOk(c: Cmd) {
    && (Single(c.kind) ==> c.sends == if c.tail then 1 else 0)
    && (c.tail ==> c.sends > 0 && (Single(c.kind) || c.kind.Mset?))
    && (c.awaiting > 0 ==> c.kind.Del?)
  }

  ghost predicate SendsOk(queue: seq<Cmd>, locks: nat, holds: nat) {
    && (forall i :: 0 <= i < |queue| ==> SendOk(queue[i]))
    && locks == holds + Sends(queue)
  }

  // ---------- positions ----------

  ghost predicate AllSupported(cmds: seq<seq<Bytes>>, capacity: nat) {
    forall i :: 0 <= i < |cmds| ==> Supported(cmds[i], capacity)
  }

  ghost predicate SupportedCommand(ws: seq<Bytes>) {
    && ws != [] && AllWhole(ws) && KindOfCommand(ws).Some?
    && (KindOfCommand(ws).value.Mset? ==> |ws| % 2 == 1)
    && (!KindOfCommand(ws).value.Stats? ==> |ws| >= 2)
  }

  lemma SupportedAt(cmds: seq<seq<Bytes>>, capacity: nat, i: nat)
    requires AllSupported(cmds, capacity) && i < |cmds|
    ensures Supported(cmds[i], capacity) && SupportedCommand(cmds[i])
  {
  }

  // The last command: its parsed bulks and the rest make up its array.
  ghost predicate BackOk(cmds: seq<seq<Bytes>>, idx: nat, c: Cmd, len: nat, q: nat)
    requires idx < |cmds|
  {
    && c.unparsed <= |cmds[idx]|
    && q == Mark(cmds, idx, |cmds[idx]| - c.unparsed)
    && (c.kind in {Basic, Mget, Stats} ==> c.unparsed == 0)
    && (!c.kind.Set? && !c.kind.Mset? ==> q <= len)
    && (c.kind.Mset? ==> c.unparsed % 2 == 0)
  }

  // The commands created so far tile the stream up to the parse position.
  ghost predicate PositionOk(cmds: seq<seq<Bytes>>, queue: seq<Cmd>, created: nat, len: nat, q: nat) {
    && |queue| <= created <= |cmds|
    && |queue| <= 16
    && (forall i :: 0 <= i < |queue| ==>
          KindOfCommand(cmds[created - |queue| + i]) == Some(queue[i].kind))
    && (forall i :: 0 <= i < |queue| - 1 ==> queue[i].unparsed == 0 && queue[i].recvComplete)
    && (queue == [] ==> q == Off(cmds, created) <= len)
    && (queue != [] ==> BackOk(cmds, created - 1, queue[|queue| - 1], len, q))
    && (queue != [] ==> Off(cmds, created - 1) <= Min(q, len))
  }

  // The last command is complete exactly when all of it was parsed and received.
  ghost predicate CompleteOk(queue: seq<Cmd>, len: nat, q: nat) {
    queue != [] ==>
      var c := queue[|queue| - 1];
      c.recvComplete <==> c.unparsed == 0 && q <= len
  }

  // Single-key commands forward exactly their own bytes, as far as received.
  ghost predicate ForwardOk(cmds: seq<seq<Bytes>>, queue: seq<Cmd>, created: nat, stream: Bytes, p: nat) {
    && |queue| <= created <= |cmds| && p <= |stream|
    && forall i :: 0 <= i < |queue| && Single(queue[i].kind) && !queue[i].error ==>
         ForwardedOk(cmds, created - |queue| + i, stream, p, queue[i].forwarded)
  }

  ghost predicate ForwardedOk(cmds: seq<seq<Bytes>>, idx: nat, stream: Bytes, p: nat, forwarded: Bytes)
    requires idx < |cmds| && p <= |stream|
  {
    && Off(cmds, idx) <= p
    && var e := Min(p, Off(cmds, idx + 1));
       Off(cmds, idx) <= e && forwarded == stream[Off(cmds, idx)..e]
  }

  // Nothing can be created from the bytes at hand.
  ghost predicate Exhausted(cmds: seq<seq<Bytes>>, created: nat, len: nat, q: nat) {
    q < len && created < |cmds| && cmds[created] != [] && AllWhole(cmds[created]) &&
    KindOfCommand(cmds[created]).Some? ==>
      Taken(cmds[created], KindOfCommand(cmds[created]).value, len - q) == 0
  }

  predicate BackComplete(queue: seq<Cmd>) {
    queue == [] || queue[|queue| - 1].recvComplete
  }

  // When a read may be outstanding: no command could be created without it,
  // and the last part of an incomplete command is not being sent.
  ghost predicate ReadOk(cmds: seq<seq<Bytes>>, queue: seq<Cmd>, created: nat, len: nat, q: nat, reading: bool) {
    && (reading && BackComplete(queue) ==> Exhausted(cmds, created, len, q))
    && (reading && !BackComplete(queue) && !queue[|queue| - 1].error ==> !queue[|queue| - 1].tail)
  }

  ghost predicate SettledOk(cmds: seq<seq<Bytes>>, queue: seq<Cmd>, created: nat, len: nat, q: nat) {
    BackComplete(queue) && |queue| < 16 ==> Exhausted(cmds, created, len, q)
  }

  // ---------- steps on values ----------

  // A command created from the received bytes at position Off(created).
  lemma Created(cmds: seq<seq<Bytes>>, queue: seq<Cmd>, created: nat, stream: Bytes, c: Cmd)
    requires created < |cmds| && |queue| < PIPELINE_LIMIT
    requires BackComplete(queue) && stream <= Text(cmds)
    requires PositionOk(cmds, queue, created, |stream|, Off(cmds, created))
    requires CompleteOk(queue, |stream|, Off(cmds, created))
    requires Off(cmds, created) < |stream|
    requires SupportedCommand(cmds[created])
    requires var ws := cmds[created];
             var m := Taken(ws, KindOfCommand(ws).value, |stream| - Off(cmds, created));
             && m > 0 && c.kind == KindOfCommand(ws).value && c.unparsed == |ws| - m
    ensures var m := |cmds[created]| - c.unparsed;
            && PositionOk(cmds, queue + [c], created + 1, |stream|, Mark(cmds, created, m))
            && Off(cmds, created) < Min(Mark(cmds, created, m), |stream|)
            && Mark(cmds, created, m) <= Off(cmds, created + 1)
            && (2 <= m || c.kind.Stats?)
            && (c.kind in {Basic, Mget, Stats} ==> c.unparsed == 0)
            && (!c.kind.Set? && !c.kind.Mset? ==> Mark(cmds, created, m) <= |stream|)
  {
    hide Off, Size, Taken, Text, KindOfCommand, AllWhole;
    var ws := cmds[created];
    var kind := KindOfCommand(ws).value;
    var k := |stream| - Off(cmds, created);
    TakenShape(ws, kind, k);
    AtMark(cmds, created, |ws| - c.unparsed);
    var queue' := queue + [c];
    forall i | 0 <= i < |queue'|
      ensures KindOfCommand(cmds[created + 1 - |queue'| + i]) == Some(queue'[i].kind)
    {
      if i < |queue| {
        assert queue'[i] == queue[i];
      }
    }
  }

  // Position when the last command is complete, or there is none.
  lemma CompletePosition(cmds: seq<seq<Bytes>>, queue: seq<Cmd>, created: nat, len: nat, q: nat)
    requires PositionOk(cmds, queue, created, len, q)
    requires queue == [] || queue[|queue| - 1].unparsed == 0
    ensures created <= |cmds| && q == Off(cmds, created)
  {
    hide Off, Size;
    if queue != [] {
      AtMark(cmds, created - 1, |cmds[created - 1]|);
    }
  }

  lemma ReceivedPosition(cmds: seq<seq<Bytes>>, queue: seq<Cmd>, created: nat, len: nat, len': nat, q: nat)
    requires PositionOk(cmds, queue, created, len, q) && len <= len'
    ensures PositionOk(cmds, queue, created, len', q)
  {
    hide Off, Size, KindOfCommand;
  }

  lemma LastCommand(cmds: seq<seq<Bytes>>, queue: seq<Cmd>, created: nat, len: nat, q: nat)
    requires PositionOk(cmds, queue, created, len, q) && queue != []
    ensures 1 <= created <= |cmds|
    ensures BackOk(cmds, created - 1, queue[|queue| - 1], len, q)
    ensures KindOfCommand(cmds[created - 1]) == Some(queue[|queue| - 1].kind)
    ensures Off(cmds, created - 1) <= Min(q, len)
    ensures q <= Off(cmds, created)
  {
    hide Off, Size, KindOfCommand;
    assert created - |queue| + (|queue| - 1) == created - 1;
    AtMark(cmds, created - 1, |cmds[created - 1]| - queue[|queue| - 1].unparsed);
  }

  // The last command takes n more of its bulks.
  lemma MoreBulks(cmds: seq<seq<Bytes>>, queue: seq<Cmd>, created: nat, len: nat, q: nat, n: nat, q': nat, c: Cmd)
    requires PositionOk(cmds, queue, created, len, q) && queue != []
    requires var b := queue[|queue| - 1];
             && n <= b.unparsed <= |cmds[created - 1]|
             && c.kind == b.kind && c.unparsed == b.unparsed - n
             && (c.kind.Mset? ==> n % 2 == 0)
             && q' == Mark(cmds, created - 1, |cmds[created - 1]| - c.unparsed) >= q
             && (!c.kind.Set? && !c.kind.Mset? ==> q' <= len)
    ensures PositionOk(cmds, queue[|queue| - 1 := c], created, len, q')
  {
    hide Off, Size, KindOfCommand, Mark;
    var queue' := queue[|queue| - 1 := c];
    forall i | 0 <= i < |queue'|
      ensures KindOfCommand(cmds[created - |queue'| + i]) == Some(queue'[i].kind)
    {
      assert KindOfCommand(cmds[created - |queue| + i]) == Some(queue[i].kind);
    }
  }

  lemma PoppedPosition(cmds: seq<seq<Bytes>>, queue: seq<Cmd>, created: nat, len: nat, q: nat)
    requires PositionOk(cmds, queue, created, len, q) && queue != [] && CompleteOk(queue, len, q)
    requires |queue| == 1 ==> queue[0].recvComplete
    ensures PositionOk(cmds, queue[1..], created, len, q) && CompleteOk(queue[1..], len, q)
    ensures |queue| == 1 ==> q == Off(cmds, created)
  {
    hide Off, Size, KindOfCommand, Mark;
    if |queue| == 1 {
      CompletePosition(cmds, queue, created, len, q);
    }
    var queue' := queue[1..];
    forall i | 0 <= i < |queue'|
      ensures KindOfCommand(cmds[created - |queue'| + i]) == Some(queue'[i].kind)
    {
      assert KindOfCommand(cmds[created - |queue| + (i + 1)]) == Some(queue[i + 1].kind);
    }
  }

  // An update that leaves the last command's parse state alone.
  lemma SamePosition(cmds: seq<seq<Bytes>>, queue: seq<Cmd>, created: nat, len: nat, q: nat, i: nat, c: Cmd)
    requires PositionOk(cmds, queue, created, len, q) && CompleteOk(queue, len, q) && i < |queue|
    requires c.kind == queue[i].kind && c.unparsed == queue[i].unparsed && c.recvComplete == queue[i].recvComplete
    ensures PositionOk(cmds, queue[i := c], created, len, q) && CompleteOk(queue[i := c], len, q)
  {
    hide Off, Size, KindOfCommand, Mark;
    var queue' := queue[i := c];
    forall j | 0 <= j < |queue'|
      ensures KindOfCommand(cmds[created - |queue'| + j]) == Some(queue'[j].kind)
    {
      assert KindOfCommand(cmds[created - |queue| + j]) == Some(queue[j].kind);
    }
  }

  // ---------- forwarding ----------

  lemma ForwardGrows(cmds: seq<seq<Bytes>>, queue: seq<Cmd>, created: nat, stream: Bytes, more: Bytes, p: nat)
    requires ForwardOk(cmds, queue, created, stream, p)
    ensures ForwardOk(cmds, queue, created, stream + more, p)
  {
    hide Off;
    forall i | 0 <= i < |queue| && Single(queue[i].kind) && !queue[i].error
      ensures ForwardedOk(cmds, created - |queue| + i, stream + more, p, queue[i].forwarded)
    {
      var idx := created - |queue| + i;
      var o, e := Off(cmds, idx), Min(p, Off(cmds, idx + 1));
      assert ForwardedOk(cmds, idx, stream, p, queue[i].forwarded);
      assert (stream + more)[o..e] == stream[o..e];
    }
  }

  // The process position moves from p to p' within the last command.
  lemma ForwardMoves(cmds: seq<seq<Bytes>>, queue: seq<Cmd>, created: nat, stream: Bytes, p: nat, p': nat, c: Cmd)
    requires ForwardOk(cmds, queue, created, stream, p) && queue != []
    requires Off(cmds, created - 1) <= p <= p' <= |stream| && p' <= Off(cmds, created)
    requires c.kind == queue[|queue| - 1].kind
    requires Single(c.kind) && !c.error ==>
               !queue[|queue| - 1].error && c.forwarded == queue[|queue| - 1].forwarded + stream[p..p']
    ensures ForwardOk(cmds, queue[|queue| - 1 := c], created, stream, p')
  {
    hide Off;
    var queue' := queue[|queue| - 1 := c];
    forall i | 0 <= i < |queue'| && Single(queue'[i].kind) && !queue'[i].error
      ensures ForwardedOk(cmds, created - |queue'| + i, stream, p', queue'[i].forwarded)
    {
      var idx := created - |queue| + i;
      assert ForwardedOk(cmds, idx, stream, p, queue[i].forwarded);
      if i < |queue| - 1 {
        OffMonotone(cmds, idx + 1, created - 1);
      } else {
        var o := Off(cmds, idx);
        assert stream[o..p] + stream[p..p'] == stream[o..p'];
      }
    }
  }

  lemma ForwardNew(cmds: seq<seq<Bytes>>, queue: seq<Cmd>, created: nat, stream: Bytes, p: nat, p': nat, c: Cmd)
    requires ForwardOk(cmds, queue, created, stream, p) && created < |cmds|
    requires p == Off(cmds, created) <= p' <= |stream| && p' <= Off(cmds, created + 1)
    requires Single(c.kind) && !c.error ==> c.forwarded == stream[p..p']
    ensures ForwardOk(cmds, queue + [c], created + 1, stream, p')
  {
    hide Off;
    var queue' := queue + [c];
    forall i | 0 <= i < |queue'| && Single(queue'[i].kind) && !queue'[i].error
      ensures ForwardedOk(cmds, created + 1 - |queue'| + i, stream, p', queue'[i].forwarded)
    {
      var idx := created - |queue| + i;
      if i < |queue| {
        assert ForwardedOk(cmds, idx, stream, p, queue[i].forwarded);
        OffMonotone(cmds, idx + 1, created);
      }
    }
  }

  lemma ForwardPop(cmds: seq<seq<Bytes>>, queue: seq<Cmd>, created: nat, stream: Bytes, p: nat)
    requires ForwardOk(cmds, queue, created, stream, p) && queue != []
    ensures ForwardOk(cmds, queue[1..], created, stream, p)
  {
    hide ForwardedOk;
    var queue' := queue[1..];
    forall i | 0 <= i < |queue'| && Single(queue'[i].kind) && !queue'[i].error
      ensures ForwardedOk(cmds, created - |queue'| + i, stream, p, queue'[i].forwarded)
    {
      assert queue'[i] == queue[i + 1];
      assert ForwardedOk(cmds, created - |queue| + (i + 1), stream, p, queue[i + 1].forwarded);
    }
  }

  lemma ForwardSame(cmds: seq<seq<Bytes>>, queue: seq<Cmd>, created: nat, stream: Bytes, p: nat, i: nat, c: Cmd)
    requires ForwardOk(cmds, queue, created, stream, p) && i < |queue|
    requires c.kind == queue[i].kind && (!c.error ==> !queue[i].error) && c.forwarded == queue[i].forwarded
    ensures ForwardOk(cmds, queue[i := c], created, stream, p)
  {
    hide ForwardedOk;
    var queue' := queue[i := c];
    forall j | 0 <= j < |queue'| && Single(queue'[j].kind) && !queue'[j].error
      ensures ForwardedOk(cmds, created - |queue'| + j, stream, p, queue'[j].forwarded)
    {
      assert ForwardedOk(cmds, created - |queue| + j, stream, p, queue[j].forwarded);
    }
  }

  // ---------- sends ----------

  lemma SendsChange(queue: seq<Cmd>, locks: nat, holds: nat, i: nat, c: Cmd, locks': nat)
    requires SendsOk(queue, locks, holds) && i < |queue| && SendOk(c)
    requires locks' + queue[i].sends == locks + c.sends
    ensures SendsOk(queue[i := c], locks', holds)
  {
    SendsUpdate(queue, i, c);
  }

  lemma SendsPush(queue: seq<Cmd>, locks: nat, holds: nat, c: Cmd)
    requires SendsOk(queue, locks, holds) && SendOk(c)
    ensures SendsOk(queue + [c], locks + c.sends, holds)
  {
    SendsSnoc(queue, c);
  }

  lemma SendsPop(queue: seq<Cmd>, locks: nat, holds: nat)
    requires SendsOk(queue, locks, holds) && queue != [] && queue[0].sends == 0
    ensures SendsOk(queue[1..], locks, holds)
  {
  }

  lemma {:induction false} SendsBound(queue: seq<Cmd>, i: nat)
    requires i < |queue|
    ensures queue[i].sends <= Sends(queue)
  {
    if i > 0 {
      SendsBound(queue[1..], i - 1);
    }
  }

  // An unlocked buffer: no send is outstanding.
  lemma Unlocked(queue: seq<Cmd>, locks: nat, holds: nat, i: nat)
    requires SendsOk(queue, locks, holds) && locks == 0 && i < |queue|
    ensures queue[i].sends == 0 && !queue[i].tail
  {
    SendsBound(queue, i);
  }

  // ---------- batches of bulks ----------

  lemma MarkSum(cmds: seq<seq<Bytes>>, i: nat, m: nat, n: nat)
    requires i < |cmds| && m + n <= |cmds[i]|
    ensures Mark(cmds, i, m + n) == Mark(cmds, i, m) + Sum(Lengths(cmds[i][m..][..n]))
  {
    hide ArrayPrefix, Off;
    var ws := cmds[i];
    assert ws[..m + n] == ws[..m] + ws[m..][..n];
    ConcatAppend(ws[..m], ws[m..][..n]);
    ConcatLength(ws[m..][..n]);
  }

  // The bulks found in the received part of what is left of a command.
  lemma FoundBulks(cmds: seq<seq<Bytes>>, i: nat, m: nat, stream: Bytes, totals: seq<nat>)
    requires i < |cmds| && m <= |cmds[i]| && AllWhole(cmds[i])
    requires stream <= Text(cmds) && Mark(cmds, i, m) <= |stream|
    requires ParseItems(stream[Mark(cmds, i, m)..], |cmds[i]| - m) == Sizes(totals)
    ensures m + |totals| <= |cmds[i]|
    ensures Mark(cmds, i, m + |totals|) == Mark(cmds, i, m) + Sum(totals)
    ensures |totals| > 0 ==>
              && Mark(cmds, i, m + |totals| - 1) < |stream|
              && Mark(cmds, i, m + |totals|) == Mark(cmds, i, m + |totals| - 1) + totals[|totals| - 1]
  {
    hide Off, Text, ParseItems, HeadersIn, Size, WholeBulk;
    ItemsAt(cmds, i, m, stream);
    var ws := cmds[i];
    var rest := ws[m..];
    var k := |stream| - Mark(cmds, i, m);
    var n := |totals|;
    assert totals == Lengths(rest[..n]);
    MarkSum(cmds, i, m, n);
    if n > 0 {
      HeadersInExact(rest, k, n - 1);
      MarkSum(cmds, i, m, n - 1);
      ConcatLength(rest[..n - 1]);
      BulkAtMark(cmds, i, m + n - 1);
      assert rest[n - 1] == ws[m + n - 1];
    }
  }

  lemma BulkAtMark(cmds: seq<seq<Bytes>>, i: nat, m: nat)
    requires i < |cmds| && m < |cmds[i]|
    ensures Mark(cmds, i, m + 1) == Mark(cmds, i, m) + |cmds[i][m]|
  {
    hide Off, Size;
    SizeNext(cmds[i], m);
  }
}
