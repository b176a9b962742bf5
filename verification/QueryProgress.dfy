/**
 How far the query side of a client connection gets with the bytes at hand, and
 whether it still waits for something that will happen.
 */
module QueryProgress {
  import opened Resp
  import opened Net
  import opened Framing
  import opened ClientQuery
  import B = ReadBuffer

  // ---------- taking all there is ----------

  // Of the bulks ws, k bytes of which are there, a command of this kind cannot
  // take any: not a pair's headers for MSET, not a complete key for DEL, and not
  // a header for the others.
  predicate NoMore(kind: Kind, ws: seq<Bytes>, k: nat)
    requires AllWhole(ws)
  {
    var n := HeadersIn(ws, k);
    match kind
    case Mset => n < 2
    case Del => n == 0 || |ws[0]| > k
    case _ => n == 0
  }

  lemma {:induction false} RestHeaders(ws: seq<Bytes>, m: nat, k: nat)
    requires AllWhole(ws) && m <= HeadersIn(ws, k) && |Concat(ws[..m])| <= k
    ensures AllWhole(ws[m..]) && HeadersIn(ws[m..], k - |Concat(ws[..m])|) == HeadersIn(ws, k) - m
    decreases m
  {
    hide HeaderSize, WholeBulk;
    if m == 0 {
      assert ws[0..] == ws && ws[..0] == [];
    } else {
      assert ws[..m][0] == ws[0] && ws[..m][1..] == ws[1..][..m - 1];
      assert ws[m..] == ws[1..][m - 1..];
      if k > |ws[0]| {
        RestHeaders(ws[1..], m - 1, k - |ws[0]|);
      } else {
        NoRoomForHeader(ws[1..]);
        assert ws[m..] == ws[1..];
      }
    }
  }

  lemma NoRoomForHeader(ws: seq<Bytes>)
    requires AllWhole(ws)
    ensures HeadersIn(ws, 0) == 0
  {
  }

  // A new command leaves nothing it could have taken.
  lemma CreatedMaximal(ws: seq<Bytes>, kind: Kind, k: nat)
    requires AllWhole(ws) && ws != [] && (kind.Mset? ==> |ws| % 2 == 1)
    requires var m := Taken(ws, kind, k);
             0 < m < |ws| && Size(ws, m) <= k
    ensures var m := Taken(ws, kind, k);
            AllWhole(ws[m..]) && NoMore(kind, ws[m..], k - Size(ws, m))
  {
    hide HeadersIn, ArrayPrefix, Concat, WholeBulk, EncodeArray;
    var m := Taken(ws, kind, k);
    var k' := k - |ArrayPrefix(|ws|)|;
    TakenShape(ws, kind, k);
    RestHeaders(ws, m, k');
    if kind.Del? && m < HeadersIn(ws, k') {
      SizeNext(ws, m);
    }
  }

  // Neither does a batch.
  lemma BatchMaximal(kind: Kind, ws: seq<Bytes>, k: nat, n: nat)
    requires AllWhole(ws) && (kind.Mset? || kind.Del?)
    requires var seen := HeadersIn(ws, k);
             n == if kind.Mset? then seen - seen % 2 else if |Concat(ws[..seen])| > k then seen - 1 else seen
    requires n <= |ws| && |Concat(ws[..n])| <= k
    ensures AllWhole(ws[n..]) && NoMore(kind, ws[n..], k - |Concat(ws[..n])|)
  {
    hide HeadersIn, WholeBulk;
    RestHeaders(ws, n, k);
    if kind.Del? && n < HeadersIn(ws, k) {
      ConcatTake(ws, n);
    }
  }

  // Bulks that are there entirely can be taken.
  lemma WholeCanBeTaken(kind: Kind, ws: seq<Bytes>, k: nat)
    requires AllWhole(ws) && ws != [] && |Concat(ws)| <= k && (kind.Mset? ==> |ws| >= 2)
    ensures !NoMore(kind, ws, k)
  {
    hide HeadersIn, WholeBulk, Concat;
    HeaderThere(ws, k, 0);
    if kind.Mset? {
      HeaderThere(ws, k, 1);
    }
    FirstFits(ws, k);
  }

  lemma HeaderThere(ws: seq<Bytes>, k: nat, i: nat)
    requires AllWhole(ws) && i < |ws| && |Concat(ws)| <= k
    ensures i < HeadersIn(ws, k)
  {
    hide HeadersIn;
    HeadersInExact(ws, k, i);
    ConcatTake(ws, i);
    ConcatSplit(ws, i + 1);
  }

  lemma FirstFits(ws: seq<Bytes>, k: nat)
    requires ws != [] && |Concat(ws)| <= k
    ensures |ws[0]| <= k
  {
  }

  // With more bytes a command can still be created.
  lemma TakenGrows(ws: seq<Bytes>, kind: Kind, k: nat, k': nat)
    requires AllWhole(ws) && ws != [] && k <= k' && Taken(ws, kind, k) > 0
    ensures Taken(ws, kind, k') > 0
  {
    hide HeadersIn, ArrayPrefix, Concat, WholeBulk, EncodeArray;
    var h := |ArrayPrefix(|ws|)|;
    SizeAtLeast(ws);
    if kind.Mset? {
      HeadersInExact(ws, k - h, 2);
      HeadersInExact(ws, k' - h, 2);
    } else if kind.Set? || kind.Del? {
      WholeIsSeen(ws, 1, k');
    }
  }

  // A command that is there entirely can be created.
  lemma WholeIsTaken(ws: seq<Bytes>, kind: Kind, k: nat)
    requires AllWhole(ws) && ws != [] && k >= |EncodeArray(ws)|
    requires (kind.Mset? ==> |ws| >= 3) && (kind.Set? || kind.Del? ==> |ws| >= 2)
    ensures Taken(ws, kind, k) > 0
  {
    hide HeadersIn, ArrayPrefix, Concat, WholeBulk, EncodeArray;
    SizeAll(ws);
    SizesGrow(ws, 1);
    SizeAtLeast(ws);
    if kind.Mset? {
      SizesGrow(ws, 3);
      WholeIsSeen(ws, 2, k);
    } else if kind.Set? || kind.Del? {
      SizesGrow(ws, 2);
      WholeIsSeen(ws, 1, k);
    }
  }

  lemma SizesGrow(ws: seq<Bytes>, m: nat)
    requires m <= |ws|
    ensures Size(ws, m) <= Size(ws, |ws|)
  {
    hide ArrayPrefix;
    ConcatSplit(ws, m);
    assert ws[..|ws|] == ws;
  }

  // ---------- the state ----------

  // The last command has taken all the bulks it can.
  ghost predicate MaximalOk(cmds: seq<seq<Bytes>>, queue: seq<Cmd>, created: nat, len: nat, q: nat) {
    queue != [] && queue[|queue| - 1].unparsed > 0 && q <= len ==>
      var c := queue[|queue| - 1];
      && 1 <= created <= |cmds| && c.unparsed <= |cmds[created - 1]|
      && var rest := cmds[created - 1][|cmds[created - 1]| - c.unparsed..];
         AllWhole(rest) && NoMore(c.kind, rest, len - q)
  }

  // Enough of the last command created was there to create it.
  ghost predicate NeededOk(cmds: seq<seq<Bytes>>, created: nat, len: nat) {
    created > 0 ==> created <= |cmds| && CanCreate(cmds, created - 1, len)
  }

  ghost predicate CanCreate(cmds: seq<seq<Bytes>>, i: nat, len: nat)
    requires i < |cmds|
  {
    && SupportedCommand(cmds[i]) && Off(cmds, i) <= len
    && Taken(cmds[i], KindOfCommand(cmds[i]).value, len - Off(cmds, i)) > 0
  }

  // Every bulk the last command has taken has its header among the bytes at hand,
  // and the first two have been taken.
  ghost predicate SeenOk(cmds: seq<seq<Bytes>>, queue: seq<Cmd>, created: nat, len: nat) {
    queue != [] ==> 1 <= created <= |cmds| && SeenTaken(cmds, created - 1, queue[|queue| - 1].unparsed, len)
  }

  ghost predicate SeenTaken(cmds: seq<seq<Bytes>>, i: nat, unparsed: nat, len: nat)
    requires i < |cmds|
  {
    var ws := cmds[i];
    var h := Off(cmds, i) + |ArrayPrefix(|ws|)|;
    && unparsed <= |ws| && AllWhole(ws) && h <= len && |ws| - unparsed <= HeadersIn(ws, len - h)
    && (unparsed + 2 <= |ws| || KindOfCommand(ws) == Some(Stats))
  }

  lemma HeadersInGrow(ws: seq<Bytes>, k: nat, k': nat)
    requires AllWhole(ws) && k <= k'
    ensures HeadersIn(ws, k) <= HeadersIn(ws, k')
  {
    hide HeadersIn, AllWhole;
    var n := HeadersIn(ws, k);
    if n > 0 {
      HeadersInExact(ws, k, n - 1);
      HeadersInExact(ws, k', n - 1);
    }
  }

  lemma SeenGrows(cmds: seq<seq<Bytes>>, queue: seq<Cmd>, created: nat, len: nat, len': nat)
    requires SeenOk(cmds, queue, created, len) && len <= len'
    ensures SeenOk(cmds, queue, created, len')
  {
    hide HeadersIn, AllWhole, Off, ArrayPrefix;
    if queue != [] {
      var ws := cmds[created - 1];
      var h := Off(cmds, created - 1) + |ArrayPrefix(|ws|)|;
      HeadersInGrow(ws, len - h, len' - h);
    }
  }

  lemma SeenPop(cmds: seq<seq<Bytes>>, queue: seq<Cmd>, created: nat, len: nat)
    requires SeenOk(cmds, queue, created, len) && queue != []
    ensures SeenOk(cmds, queue[1..], created, len)
  {
    hide SeenTaken;
  }

  lemma SeenSame(cmds: seq<seq<Bytes>>, queue: seq<Cmd>, created: nat, len: nat, i: nat, c: Cmd)
    requires SeenOk(cmds, queue, created, len) && i < |queue| && c.unparsed == queue[i].unparsed
    ensures SeenOk(cmds, queue[i := c], created, len)
  {
    hide SeenTaken;
  }

  lemma SeenNew(cmds: seq<seq<Bytes>>, queue: seq<Cmd>, created: nat, len: nat, c: Cmd)
    requires created < |cmds| && SupportedCommand(cmds[created]) && Off(cmds, created) <= len
    requires var ws := cmds[created];
             var m := Taken(ws, KindOfCommand(ws).value, len - Off(cmds, created));
             m > 0 && c.unparsed == |ws| - m
    ensures SeenOk(cmds, queue + [c], created + 1, len)
  {
    hide Off, KindOfCommand, AllWhole, HeadersIn, ArrayPrefix, Taken, Size;
    TakenSeen(cmds[created], KindOfCommand(cmds[created]).value, len - Off(cmds, created));
    TakenShape(cmds[created], KindOfCommand(cmds[created]).value, len - Off(cmds, created));
  }

  lemma TakenSeen(ws: seq<Bytes>, kind: Kind, k: nat)
    requires AllWhole(ws) && ws != [] && Taken(ws, kind, k) > 0
    ensures |ArrayPrefix(|ws|)| <= k && Taken(ws, kind, k) <= HeadersIn(ws, k - |ArrayPrefix(|ws|)|)
  {
    hide HeadersIn, ArrayPrefix, EncodeArray, AllWhole;
    SizeAtLeast(ws);
    SizeAll(ws);
    if kind.Basic? || kind.Mget? || kind.Stats? {
      WholeIsSeen(ws, |ws| - 1, k);
    }
  }

  // After all but `unparsed` of its bulks, n more headers of command i are there.
  ghost predicate MoreSeen(cmds: seq<seq<Bytes>>, i: nat, unparsed: nat, len: nat, q: nat, n: nat)
    requires i < |cmds|
  {
    var ws := cmds[i];
    && n <= unparsed <= |ws| && q == Mark(cmds, i, |ws| - unparsed) <= len
    && AllWhole(ws[|ws| - unparsed..]) && n <= HeadersIn(ws[|ws| - unparsed..], len - q)
  }

  lemma SeenMore(cmds: seq<seq<Bytes>>, queue: seq<Cmd>, created: nat, len: nat, q: nat, n: nat, c: Cmd)
    requires queue != [] && 1 <= created <= |cmds|
    requires MoreSeen(cmds, created - 1, queue[|queue| - 1].unparsed, len, q, n)
    requires SeenOk(cmds, queue, created, len) && c.unparsed == queue[|queue| - 1].unparsed - n
    ensures SeenOk(cmds, queue[|queue| - 1 := c], created, len)
  {
    hide HeadersIn, AllWhole, Off, ArrayPrefix, Concat;
    var ws := cmds[created - 1];
    var h := Off(cmds, created - 1) + |ArrayPrefix(|ws|)|;
    RestHeaders(ws, |ws| - queue[|queue| - 1].unparsed, len - h);
  }

  lemma NeededGrows(cmds: seq<seq<Bytes>>, created: nat, len: nat, len': nat)
    requires NeededOk(cmds, created, len) && len <= len'
    ensures NeededOk(cmds, created, len')
  {
    hide Off, Taken, KindOfCommand, AllWhole;
    if created > 0 {
      var ws := cmds[created - 1];
      TakenGrows(ws, KindOfCommand(ws).value, len - Off(cmds, created - 1), len' - Off(cmds, created - 1));
    }
  }

  lemma MaximalSame(cmds: seq<seq<Bytes>>, queue: seq<Cmd>, created: nat, len: nat, q: nat, i: nat, c: Cmd)
    requires MaximalOk(cmds, queue, created, len, q) && i < |queue|
    requires c.kind == queue[i].kind && c.unparsed == queue[i].unparsed
    ensures MaximalOk(cmds, queue[i := c], created, len, q)
  {
    hide NoMore, AllWhole;
  }

  lemma MaximalPop(cmds: seq<seq<Bytes>>, queue: seq<Cmd>, created: nat, len: nat, q: nat)
    requires MaximalOk(cmds, queue, created, len, q) && queue != []
    ensures MaximalOk(cmds, queue[1..], created, len, q)
  {
    hide NoMore, AllWhole;
  }

  lemma MaximalParsed(cmds: seq<seq<Bytes>>, queue: seq<Cmd>, created: nat, len: nat, q: nat)
    requires queue == [] || queue[|queue| - 1].unparsed == 0 || q > len
    ensures MaximalOk(cmds, queue, created, len, q)
  {
  }

  lemma MaximalNew(cmds: seq<seq<Bytes>>, queue: seq<Cmd>, created: nat, len: nat, q: nat, c: Cmd)
    requires created < |cmds| && SupportedCommand(cmds[created]) && Off(cmds, created) <= len
    requires var ws := cmds[created];
             var m := Taken(ws, KindOfCommand(ws).value, len - Off(cmds, created));
             && m > 0 && c.kind == KindOfCommand(ws).value && c.unparsed == |ws| - m && q == Mark(cmds, created, m)
    ensures MaximalOk(cmds, queue + [c], created + 1, len, q)
  {
    hide Off, Taken, KindOfCommand, NoMore, AllWhole, Size;
    if c.unparsed > 0 && q <= len {
      CreatedMaximal(cmds[created], c.kind, len - Off(cmds, created));
    }
  }

  // ---------- bytes in the buffer ----------

  // What is being sent is in the buffer, which starts at position `base` of the
  // stream.
  ghost predicate HeldOk(queue: seq<Cmd>, base: nat) {
    forall i :: 0 <= i < |queue| && queue[i].sends > 0 ==> base <= queue[i].from
  }

  // The buffer moves only when nothing is being sent.
  lemma HeldMoved(queue: seq<Cmd>, base: nat, base': nat, locks: nat, holds: nat)
    requires HeldOk(queue, base) && SendsOk(queue, locks, holds) && (locks > 0 ==> base' == base)
    ensures HeldOk(queue, base')
  {
    if locks == 0 {
      forall i | 0 <= i < |queue| ensures queue[i].sends == 0 {
        SendsBound(queue, i);
      }
    }
  }

  lemma HeldSame(queue: seq<Cmd>, base: nat, i: nat, c: Cmd)
    requires HeldOk(queue, base) && i < |queue|
    requires c.sends > 0 ==> base <= c.from || (queue[i].sends > 0 && c.from == queue[i].from)
    ensures HeldOk(queue[i := c], base)
  {
  }

  lemma HeldPop(queue: seq<Cmd>, base: nat)
    requires HeldOk(queue, base) && queue != []
    ensures HeldOk(queue[1..], base)
  {
  }

  lemma HeldNew(queue: seq<Cmd>, base: nat, c: Cmd)
    requires HeldOk(queue, base) && base <= c.from
    ensures HeldOk(queue + [c], base)
  {
  }

  // ---------- changes of the pipeline ----------

  // Command i of the pipeline as it is created from the first len bytes.
  ghost predicate IsNew(cmds: seq<seq<Bytes>>, i: nat, c: Cmd, len: nat) {
    && i < |cmds| && CanCreate(cmds, i, len)
    && c.kind == KindOfCommand(cmds[i]).value && !c.error && c.from == Off(cmds, i) && c.awaiting == 0
    && c.unparsed == |cmds[i]| - Taken(cmds[i], c.kind, len - Off(cmds, i))
    && (c.kind.Basic? || c.kind.Set? ==> c.sends == 1 && c.tail) && (c.sends == 0 <==> c.kind.Stats?)
  }

  // New commands at the end.
  ghost predicate Appended(cmds: seq<seq<Bytes>>, queue: seq<Cmd>, created: nat, queue': seq<Cmd>, created': nat,
                           len: nat) {
    && queue <= queue' && created' - |queue'| == created - |queue|
    && forall i :: |queue| <= i < |queue'| ==> IsNew(cmds, created + (i - |queue|), queue'[i], len)
  }

  // More of command b has been taken, received and sent; what is being sent
  // starts at p, if nothing was being sent before, or where the backend that
  // failed has been skipped.
  ghost predicate Extended(b: Cmd, c: Cmd, p: nat) {
    && c.kind == b.kind && c.unparsed <= b.unparsed && b.forwarded <= c.forwarded && b.sends <= c.sends
    && (c.error ==> b.error) && (b.recvComplete ==> c == b) && c.awaiting == b.awaiting
    && (c.from == b.from || (b.sends == 0 && (c.from == p || (b.error && p <= c.from))))
  }

  // Only the last command changes.
  ghost predicate LastExtended(queue: seq<Cmd>, queue': seq<Cmd>, p: nat) {
    && |queue'| == |queue| && (forall i :: 0 <= i < |queue| - 1 ==> queue'[i] == queue[i])
    && (queue != [] ==> Extended(queue[|queue| - 1], queue'[|queue| - 1], p))
  }

  // More of the last command, and new commands.
  ghost predicate Grown(cmds: seq<seq<Bytes>>, queue: seq<Cmd>, created: nat, queue': seq<Cmd>, created': nat,
                        len: nat, p: nat) {
    && |queue| <= |queue'| && LastExtended(queue, queue'[..|queue|], p)
    && Appended(cmds, queue'[..|queue|], created, queue', created', len)
  }

  lemma AppendedSame(cmds: seq<seq<Bytes>>, queue: seq<Cmd>, created: nat, len: nat)
    ensures Appended(cmds, queue, created, queue, created, len)
  {
  }

  lemma AppendedOne(cmds: seq<seq<Bytes>>, queue: seq<Cmd>, created: nat, queue': seq<Cmd>, created': nat, len: nat,
                    c: Cmd)
    requires Appended(cmds, queue, created, queue', created', len) && IsNew(cmds, created', c, len)
    ensures Appended(cmds, queue, created, queue' + [c], created' + 1, len)
  {
    hide IsNew;
    var queue'' := queue' + [c];
    forall i | |queue| <= i < |queue''| ensures IsNew(cmds, created + (i - |queue|), queue''[i], len) {
      if i < |queue'| {
        assert queue''[i] == queue'[i];
      }
    }
  }

  lemma LastExtendedSame(queue: seq<Cmd>, p: nat)
    ensures LastExtended(queue, queue, p)
  {
  }

  lemma LastExtendedBy(queue: seq<Cmd>, c: Cmd, p: nat)
    requires queue != [] && Extended(queue[|queue| - 1], c, p)
    ensures LastExtended(queue, queue[|queue| - 1 := c], p)
  {
    hide Extended;
  }

  lemma LastExtendedTwice(a: seq<Cmd>, b: seq<Cmd>, c: seq<Cmd>, p: nat, p': nat)
    requires LastExtended(a, b, p) && LastExtended(b, c, p')
    requires p < p' ==> b != [] && (b[|b| - 1].sends > 0 || b[|b| - 1].error)
    requires p <= p'
    ensures LastExtended(a, c, p)
  {
  }

  lemma GrownIs(cmds: seq<seq<Bytes>>, queue: seq<Cmd>, created: nat, middle: seq<Cmd>, queue': seq<Cmd>, created': nat,
                len: nat, p: nat)
    requires LastExtended(queue, middle, p) && Appended(cmds, middle, created, queue', created', len)
    ensures Grown(cmds, queue, created, queue', created', len, p)
  {
    hide IsNew, Extended;
    assert queue'[..|queue|] == middle;
  }

  // ---------- reading ----------

  // A read is only started when a third of the buffer is free, and an unlocked
  // buffer has been recycled.
  predicate RoomOk(capacity: nat, reading: bool, locks: nat, processed: nat, received: nat) {
    && (reading ==> received * 3 < capacity * 2 || capacity == 0)
    && (locks == 0 ==> B.Tidy(capacity, processed, received))
  }

  // The commands wait for nothing but more of the client's bytes: there is no
  // send, no command to be answered, no reply to a DEL.
  predicate Drained(queue: seq<Cmd>) {
    && Sends(queue) == 0
    && (queue == [] || (|queue| == 1 && !queue[0].recvComplete && queue[0].awaiting == 0))
  }

  // And there is no read either.
  predicate Resting(queue: seq<Cmd>, reading: bool, eofHolds: nat) {
    !reading && eofHolds == 0 && Drained(queue)
  }

  // A read that waits for the next bytes, all others being used, has the whole
  // buffer for them, unless a backend failed.
  predicate EmptyOk(queue: seq<Cmd>, len: nat, q: nat, reading: bool, eofHolds: nat, received: nat) {
    && reading && eofHolds == 0 && q >= len
    && (queue == [] || !queue[|queue| - 1].error || queue[|queue| - 1].recvComplete)
    ==> received == 0
  }

  lemma EmptyUnlocked(capacity: nat, queue: seq<Cmd>, len: nat, base: nat, processed: nat, parsed: nat, received: nat,
                      eofHolds: nat)
    requires B.Tidy(capacity, processed, received) && base + received == len && processed == Min(parsed, received)
    ensures EmptyOk(queue, len, base + parsed, true, eofHolds, received)
  {
  }

  // That happens only when the buffer is full, or when a SET waits for a bulk
  // header.
  ghost predicate AwakeOk(capacity: nat, queue: seq<Cmd>, len: nat, q: nat, reading: bool, eofHolds: nat,
                          received: nat) {
    Resting(queue, reading, eofHolds) ==>
      received * 3 >= capacity * 2 || (queue != [] && queue[0].kind.Set? && queue[0].unparsed > 0 && q <= len)
  }

  lemma NotResting(capacity: nat, queue: seq<Cmd>, len: nat, q: nat, reading: bool, eofHolds: nat, received: nat)
    requires || reading || eofHolds > 0 || received * 3 >= capacity * 2
             || (queue != [] && (|queue| > 1 || queue[0].recvComplete || queue[0].awaiting > 0))
             || (queue != [] && queue[|queue| - 1].sends > 0)
    ensures AwakeOk(capacity, queue, len, q, reading, eofHolds, received)
  {
    if queue != [] {
      SendsBound(queue, |queue| - 1);
    }
  }
}
