/**
 Steps of the query side of a client connection, on values: what creating a
 command, taking more of it, sending it and letting it go do to the pipeline and
 to the positions in the stream.
 */
module ClientSteps {
  import opened Resp
  import opened Net
  import opened Framing
  import opened ClientQuery
  import opened QueryProgress
  import B = ReadBuffer
  import MP = MsetPairs
  import DK = DelKeys

  lemma OneMoreHold(queue: seq<Cmd>, locks: nat, holds: nat)
    requires SendsOk(queue, locks, holds)
    ensures SendsOk(queue, locks + 1, holds + 1)
  {
  }

  // Unparsed bytes with no incomplete command: the next command starts here.
  lemma NextCommand(cmds: seq<seq<Bytes>>, queue: seq<Cmd>, created: nat, stream: Bytes, q: nat, capacity: nat)
    requires AllSupported(cmds, capacity) && stream <= Text(cmds)
    requires PositionOk(cmds, queue, created, |stream|, q) && CompleteOk(queue, |stream|, q)
    requires (queue == [] || queue[|queue| - 1].unparsed == 0) && q < |stream|
    ensures BackComplete(queue)
    ensures created < |cmds| && q == Off(cmds, created) && SupportedCommand(cmds[created])
    ensures var ws := cmds[created];
            var kind := KindOfCommand(ws).value;
            var m := Taken(ws, kind, |stream| - q);
            CreateCommand(stream[q..], capacity) == if m == 0 then NeedMore else New(kind, m, Size(ws, m), |ws| - m)
  {
    hide PositionOk, Supported, Text, Off, Size, Taken, CreateCommand, KindOfCommand, AllWhole;
    CompletePosition(cmds, queue, created, |stream|, q);
    AtEnd(cmds);
    SupportedAt(cmds, capacity, created);
    CreateAt(cmds, created, stream, capacity);
  }

  lemma ExhaustedRead(cmds: seq<seq<Bytes>>, queue: seq<Cmd>, created: nat, len: nat, q: nat)
    requires BackComplete(queue)
    requires created < |cmds| && SupportedCommand(cmds[created]) && q < len
    requires Taken(cmds[created], KindOfCommand(cmds[created]).value, len - q) == 0
    ensures ReadOk(cmds, queue, created, len, q, true) && SettledOk(cmds, queue, created, len, q)
  {
  }

  lemma NotReading(cmds: seq<seq<Bytes>>, queue: seq<Cmd>, created: nat, len: nat, q: nat, reading: bool)
    requires BackComplete(queue) && ReadOk(cmds, queue, created, len, q, reading)
    requires created < |cmds| && SupportedCommand(cmds[created]) && q < len
    requires Taken(cmds[created], KindOfCommand(cmds[created]).value, len - q) > 0
    ensures !reading
  {
  }

  lemma NotReadingOk(cmds: seq<seq<Bytes>>, queue: seq<Cmd>, created: nat, len: nat, q: nat)
    ensures ReadOk(cmds, queue, created, len, q, false)
  {
  }

  // Keys among the bulks of a multi-key command.
  function KeyCount(kind: Kind, taken: nat): int {
    if kind.Mset? then (taken - 1) / 2 else taken - 1
  }

  lemma KeysTaken(ws: seq<Bytes>, k: nat)
    requires SupportedCommand(ws) && Taken(ws, KindOfCommand(ws).value, k) > 0
    ensures var kind := KindOfCommand(ws).value;
            kind in {Mget, Mset, Del} ==>
              var keys := KeyCount(kind, Taken(ws, kind, k));
              keys > 0 && Taken(ws, kind, k) == 1 + if kind.Mset? then 2 * keys else keys
  {
    hide Taken, KindOfCommand, AllWhole;
    TakenShape(ws, KindOfCommand(ws).value, k);
  }

  lemma NewComplete(queue: seq<Cmd>, c: Cmd, len: nat, q: nat)
    requires c.recvComplete <==> c.unparsed == 0 && q <= len
    ensures CompleteOk(queue + [c], len, q)
  {
  }

  // The last command is incomplete and its next bytes have just arrived: its
  // last send is finished, or its backend failed.
  ghost predicate FreshBack(cmds: seq<seq<Bytes>>, c: Cmd, created: nat, len: nat, p: nat, q: nat) {
    && 1 <= created <= |cmds| && Off(cmds, created - 1) <= p <= Min(q, len)
    && (c.error || !c.tail)
    && (p < q ==> c.kind.Set? || c.kind.Mset?)
    && (p == q ==> c.unparsed > 0)
  }

  lemma BeforeRead(cmds: seq<seq<Bytes>>, queue: seq<Cmd>, created: nat, len: nat, q: nat, len': nat)
    requires PositionOk(cmds, queue, created, len, q) && CompleteOk(queue, len, q) && len < len'
    requires ReadOk(cmds, queue, created, len, q, true)
    ensures BackComplete(queue) ==> q <= len && CompleteOk(queue, len', q)
    ensures !BackComplete(queue) ==> FreshBack(cmds, queue[|queue| - 1], created, len', Min(q, len), q)
  {
    hide Exhausted, KindOfCommand;
  }

  lemma OneLessHold(queue: seq<Cmd>, locks: nat, holds: nat)
    requires SendsOk(queue, locks, holds) && holds > 0
    ensures locks > 0 && SendsOk(queue, locks - 1, holds - 1)
  {
  }

  // An outstanding read and a send are two locks.
  lemma ReadingLocks(queue: seq<Cmd>, locks: nat, holds: nat, i: nat)
    requires SendsOk(queue, locks, holds) && i < |queue| && queue[i].sends > 0
    ensures locks > holds
  {
    SendsBound(queue, i);
  }

  lemma SendAt(queue: seq<Cmd>, locks: nat, holds: nat, i: nat)
    requires SendsOk(queue, locks, holds) && i < |queue|
    ensures SendOk(queue[i])
  {
  }

  // What the bulk parser sees at the parse position of the last command.
  lemma NextBulk(cmds: seq<seq<Bytes>>, queue: seq<Cmd>, created: nat, stream: Bytes, q: nat, capacity: nat)
    requires AllSupported(cmds, capacity) && stream <= Text(cmds)
    requires PositionOk(cmds, queue, created, |stream|, q) && queue != []
    requires queue[|queue| - 1].unparsed > 0 && q <= |stream|
    ensures 1 <= created <= |cmds| && queue[|queue| - 1].unparsed <= |cmds[created - 1]|
    ensures var m := |cmds[created - 1]| - queue[|queue| - 1].unparsed;
            && q == Mark(cmds, created - 1, m)
            && AllWhole(cmds[created - 1]) && WholeBulk(cmds[created - 1][m])
            && ParseBulk(stream[q..]) == (if |stream| - q < HeaderSize(cmds[created - 1][m]) then Pending
                                          else Known(|cmds[created - 1][m]|))
            && Mark(cmds, created - 1, m + 1) == q + |cmds[created - 1][m]|
  {
    hide Supported, Text, Off, Size, ParseBulk, KindOfCommand, PositionOk, AllWhole;
    LastCommand(cmds, queue, created, |stream|, q);
    SupportedAt(cmds, capacity, created - 1);
    BulkAt(cmds, created - 1, |cmds[created - 1]| - queue[|queue| - 1].unparsed, stream);
  }

  // One more bulk of a streamed command.
  lemma FreshBulk(cmds: seq<seq<Bytes>>, queue: seq<Cmd>, created: nat, len: nat, p: nat, q: nat, q': nat, c: Cmd)
    requires PositionOk(cmds, queue, created, len, q) && queue != [] && created >= 1
    requires FreshBack(cmds, queue[|queue| - 1], created, len, p, q) && !queue[|queue| - 1].recvComplete
    requires var b := queue[|queue| - 1];
             && b.kind.Set? && 0 < b.unparsed <= |cmds[created - 1]| && c == b.(unparsed := b.unparsed - 1)
             && q < q' == Mark(cmds, created - 1, |cmds[created - 1]| - c.unparsed)
    ensures PositionOk(cmds, queue[|queue| - 1 := c], created, len, q')
    ensures FreshBack(cmds, c, created, len, p, q')
  {
    hide Off, Mark, KindOfCommand, PositionOk;
    MoreBulks(cmds, queue, created, len, q, 1, q', c);
  }

  lemma LastComplete(queue: seq<Cmd>, c: Cmd, len: nat, q: nat)
    requires queue != [] && (c.recvComplete <==> c.unparsed == 0 && q <= len)
    ensures CompleteOk(queue[|queue| - 1 := c], len, q)
  {
  }

  // With the buffer unlocked, a read for an incomplete command is in order.
  lemma UnlockedRead(cmds: seq<seq<Bytes>>, queue: seq<Cmd>, created: nat, len: nat, q: nat, locks: nat, holds: nat)
    requires SendsOk(queue, locks, holds) && locks == 0 && queue != []
    requires CompleteOk(queue, len, q) && (q > len || queue[|queue| - 1].unparsed > 0)
    ensures ReadOk(cmds, queue, created, len, q, true)
  {
    hide SendsOk, Exhausted;
    Unlocked(queue, locks, holds, |queue| - 1);
  }

  // Facts about the bulks found for the last command of an MSET or DEL.
  ghost predicate BatchOk(cmds: seq<seq<Bytes>>, idx: nat, unparsed: nat, len: nat, q: nat, totals: seq<nat>) {
    && idx < |cmds| && |totals| <= unparsed <= |cmds[idx]|
    && var m := |cmds[idx]| - unparsed;
       && q == Mark(cmds, idx, m)
       && q + Sum(totals) == Mark(cmds, idx, m + |totals|)
       && (totals != [] ==> q + Sum(totals) - totals[|totals| - 1] < len && totals[|totals| - 1] <= Sum(totals))
  }

  // n is the number of bulks of command idx that c takes from the next k bytes:
  // those whose header is there, but an even number for MSET, and for DEL only
  // those that are there entirely.
  ghost predicate BatchSize(cmds: seq<seq<Bytes>>, idx: nat, c: Cmd, k: nat, n: nat) {
    && idx < |cmds| && c.unparsed <= |cmds[idx]| && AllWhole(cmds[idx])
    && var ws := cmds[idx][|cmds[idx]| - c.unparsed..];
       && AllWhole(ws) && n <= |ws|
       && var seen := HeadersIn(ws, k);
          n == if c.kind.Mset? then seen - seen % 2
               else if |Concat(ws[..seen])| > k then seen - 1 else seen
  }

  // All the bulks whose header is there are found.
  lemma FoundAll(cmds: seq<seq<Bytes>>, queue: seq<Cmd>, created: nat, stream: Bytes, q: nat, capacity: nat,
                 totals: seq<nat>)
    requires AllSupported(cmds, capacity) && stream <= Text(cmds)
    requires PositionOk(cmds, queue, created, |stream|, q) && queue != [] && q <= |stream|
    requires ParseItems(stream[q..], queue[|queue| - 1].unparsed) == Sizes(totals)
    requires queue[|queue| - 1].kind.Mset? || queue[|queue| - 1].kind.Del?
    ensures var n := if queue[|queue| - 1].kind.Mset? then |totals| - |totals| % 2
                     else if Sum(totals) > |stream| - q then |totals| - 1 else |totals|;
            created >= 1 && n >= 0 && BatchSize(cmds, created - 1, queue[|queue| - 1], |stream| - q, n)
  {
    hide AllSupported, Supported, Text, Off, Size, ParseItems, KindOfCommand, PositionOk, AllWhole, Mark, Sum, Concat,
         HeadersIn;
    LastCommand(cmds, queue, created, |stream|, q);
    SupportedAt(cmds, capacity, created - 1);
    var m := |cmds[created - 1]| - queue[|queue| - 1].unparsed;
    FoundCount(cmds, created - 1, m, stream, totals);
    assert totals == [] ==> Sum(totals) == 0 by { NoSum(); }
  }

  lemma FoundCount(cmds: seq<seq<Bytes>>, i: nat, m: nat, stream: Bytes, totals: seq<nat>)
    requires i < |cmds| && m <= |cmds[i]| && AllWhole(cmds[i])
    requires stream <= Text(cmds) && Mark(cmds, i, m) <= |stream|
    requires ParseItems(stream[Mark(cmds, i, m)..], |cmds[i]| - m) == Sizes(totals)
    ensures AllWhole(cmds[i][m..])
    ensures var rest := cmds[i][m..];
            var n := HeadersIn(rest, |stream| - Mark(cmds, i, m));
            |totals| == n && Sum(totals) == |Concat(rest[..n])|
  {
    hide Text, ParseItems, AllWhole, Mark, Sum, Concat, HeadersIn;
    ItemsAt(cmds, i, m, stream);
    ConcatLength(cmds[i][m..][..HeadersIn(cmds[i][m..], |stream| - Mark(cmds, i, m))]);
  }

  lemma NoSum()
    ensures Sum([]) == 0
  {
  }

  lemma NextItems(cmds: seq<seq<Bytes>>, queue: seq<Cmd>, created: nat, stream: Bytes, q: nat, capacity: nat)
    requires AllSupported(cmds, capacity) && stream <= Text(cmds)
    requires PositionOk(cmds, queue, created, |stream|, q) && queue != [] && q <= |stream|
    ensures !ParseItems(stream[q..], queue[|queue| - 1].unparsed).Bad?
  {
    hide Supported, Text, Off, Size, ParseItems, KindOfCommand, PositionOk, AllWhole;
    LastCommand(cmds, queue, created, |stream|, q);
    SupportedAt(cmds, capacity, created - 1);
    ItemsAt(cmds, created - 1, |cmds[created - 1]| - queue[|queue| - 1].unparsed, stream);
  }

  lemma FoundItems(cmds: seq<seq<Bytes>>, queue: seq<Cmd>, created: nat, stream: Bytes, q: nat, capacity: nat,
                   totals: seq<nat>)
    requires AllSupported(cmds, capacity) && stream <= Text(cmds)
    requires PositionOk(cmds, queue, created, |stream|, q) && queue != [] && q <= |stream|
    requires ParseItems(stream[q..], queue[|queue| - 1].unparsed) == Sizes(totals)
    ensures created >= 1 && BatchOk(cmds, created - 1, queue[|queue| - 1].unparsed, |stream|, q, totals)
  {
    hide Supported, Text, Off, Size, ParseItems, KindOfCommand, PositionOk, AllWhole, Mark, Sum;
    LastCommand(cmds, queue, created, |stream|, q);
    SupportedAt(cmds, capacity, created - 1);
    FoundBulks(cmds, created - 1, |cmds[created - 1]| - queue[|queue| - 1].unparsed, stream, totals);
    if totals != [] {
      SumLast(totals);
    }
  }

  // Leaving the last bulk found for the next batch.
  lemma OneFewer(cmds: seq<seq<Bytes>>, queue: seq<Cmd>, created: nat, stream: Bytes, q: nat, capacity: nat,
                 totals: seq<nat>)
    requires AllSupported(cmds, capacity) && stream <= Text(cmds)
    requires PositionOk(cmds, queue, created, |stream|, q) && queue != [] && q <= |stream|
    requires ParseItems(stream[q..], queue[|queue| - 1].unparsed) == Sizes(totals) && totals != []
    ensures var fewer := totals[..|totals| - 1];
            && created >= 1 && BatchOk(cmds, created - 1, queue[|queue| - 1].unparsed, |stream|, q, fewer)
            && Sum(fewer) == Sum(totals) - totals[|totals| - 1]
            && q + Sum(fewer) <= |stream|
  {
    hide Supported, Text, Off, Size, ParseItems, KindOfCommand, PositionOk, AllWhole, Mark, Sum;
    var fewer := totals[..|totals| - 1];
    FoundItems(cmds, queue, created, stream, q, capacity, totals);
    LastCommand(cmds, queue, created, |stream|, q);
    SupportedAt(cmds, capacity, created - 1);
    var m := |cmds[created - 1]| - queue[|queue| - 1].unparsed;
    FoundBulks(cmds, created - 1, m, stream, totals);
    SumLast(totals);
    if fewer != [] {
      SumLast(fewer);
      AtLeastOne(stream, q, queue[|queue| - 1].unparsed, totals, |fewer| - 1);
    }
  }

  lemma {:induction false} ItemSizes(s: Bytes, max: nat, totals: seq<nat>, i: nat)
    requires ParseItems(s, max) == Sizes(totals) && i < |totals|
    ensures totals[i] >= 5
    decreases |s|
  {
    hide ParseBulk;
    var t := ParseBulk(s).total;
    if i > 0 {
      ItemSizes(Drop(s, t), max - 1, totals[1..], i - 1);
    }
  }

  lemma AtLeastOne(stream: Bytes, q: nat, max: nat, totals: seq<nat>, i: nat)
    requires q <= |stream| && ParseItems(stream[q..], max) == Sizes(totals) && i < |totals|
    ensures totals[i] > 0
  {
    ItemSizes(stream[q..], max, totals, i);
  }

  // The last command takes n more bulks and the process position follows.
  lemma LastMoves(cmds: seq<seq<Bytes>>, queue: seq<Cmd>, created: nat, stream: Bytes, p: nat, q: nat, p': nat, q': nat,
                  locks: nat, locks': nat, holds: nat, n: nat, c: Cmd)
    requires PositionOk(cmds, queue, created, |stream|, q) && queue != [] && created >= 1
    requires ForwardOk(cmds, queue, created, stream, p) && SendsOk(queue, locks, holds)
    requires var b := queue[|queue| - 1];
             && n <= b.unparsed <= |cmds[created - 1]|
             && c.kind == b.kind && c.unparsed == b.unparsed - n
             && (c.kind.Mset? ==> n % 2 == 0)
             && q' == Mark(cmds, created - 1, |cmds[created - 1]| - c.unparsed) >= q
             && (!c.kind.Set? && !c.kind.Mset? ==> q' <= |stream|)
             && (c.recvComplete <==> c.unparsed == 0 && q' <= |stream|)
             && Off(cmds, created - 1) <= p <= p' == Min(q', |stream|)
             && (Single(c.kind) && !c.error ==> !b.error && c.forwarded == b.forwarded + stream[p..p'])
             && SendOk(c) && locks' + b.sends == locks + c.sends
    ensures var queue' := queue[|queue| - 1 := c];
            && PositionOk(cmds, queue', created, |stream|, q') && CompleteOk(queue', |stream|, q')
            && ForwardOk(cmds, queue', created, stream, p') && SendsOk(queue', locks', holds)
            && ReadOk(cmds, queue', created, |stream|, q', false)
  {
    hide PositionOk, ForwardOk, SendsOk, CompleteOk, ReadOk, Off, Mark, SendOk, KindOfCommand;
    LastCommand(cmds, queue, created, |stream|, q);
    MoreBulks(cmds, queue, created, |stream|, q, n, q', c);
    AtMark(cmds, created - 1, |cmds[created - 1]| - c.unparsed);
    ForwardMoves(cmds, queue, created, stream, p, p', c);
    SendsChange(queue, locks, holds, |queue| - 1, c, locks');
    LastComplete(queue, c, |stream|, q');
    NotReadingOk(cmds, queue[|queue| - 1 := c], created, |stream|, q');
  }

  // The last command takes a batch of bulks.
  lemma BatchMoves(cmds: seq<seq<Bytes>>, queue: seq<Cmd>, created: nat, stream: Bytes, q: nat, totals: seq<nat>,
                   locks: nat, locks': nat, holds: nat, c: Cmd)
    requires PositionOk(cmds, queue, created, |stream|, q) && queue != [] && created >= 1 && q <= |stream|
    requires ForwardOk(cmds, queue, created, stream, q) && SendsOk(queue, locks, holds)
    requires BatchOk(cmds, created - 1, queue[|queue| - 1].unparsed, |stream|, q, totals)
    requires var b := queue[|queue| - 1];
             && c.kind == b.kind && c.unparsed == b.unparsed - |totals|
             && ((c.kind.Mset? && |totals| % 2 == 0) || (c.kind.Del? && q + Sum(totals) <= |stream|))
             && (c.recvComplete <==> c.unparsed == 0 && q + Sum(totals) <= |stream|)
             && SendOk(c) && locks' + b.sends == locks + c.sends
    ensures var queue' := queue[|queue| - 1 := c];
            var q' := q + Sum(totals);
            && PositionOk(cmds, queue', created, |stream|, q') && CompleteOk(queue', |stream|, q')
            && ForwardOk(cmds, queue', created, stream, Min(q', |stream|)) && SendsOk(queue', locks', holds)
            && ReadOk(cmds, queue', created, |stream|, q', false)
  {
    hide PositionOk, ForwardOk, SendsOk, CompleteOk, ReadOk, Off, Mark, SendOk, Sum, BackOk, KindOfCommand;
    LastCommand(cmds, queue, created, |stream|, q);
    assert !Single(c.kind);
    LastMoves(cmds, queue, created, stream, q, q, Min(q + Sum(totals), |stream|), q + Sum(totals),
              locks, locks', holds, |totals|, c);
  }

  // A failed backend's command may be read on at any time.
  lemma FailedRead(cmds: seq<seq<Bytes>>, queue: seq<Cmd>, created: nat, len: nat, q: nat)
    requires queue != [] && queue[|queue| - 1].error && !queue[|queue| - 1].recvComplete
    ensures ReadOk(cmds, queue, created, len, q, true)
  {
  }

  // A finished send: the lock count and the command agree.
  lemma SendFinished(cmds: seq<seq<Bytes>>, queue: seq<Cmd>, created: nat, stream: Bytes, p: nat, q: nat,
                     locks: nat, holds: nat, reading: bool, i: nat, c: Cmd)
    requires PositionOk(cmds, queue, created, |stream|, q) && CompleteOk(queue, |stream|, q)
    requires ForwardOk(cmds, queue, created, stream, p) && SendsOk(queue, locks, holds) && i < |queue|
    requires ReadOk(cmds, queue, created, |stream|, q, reading) && SettledOk(cmds, queue, created, |stream|, q)
    requires queue[i].sends > 0
    requires c == queue[i].(sends := queue[i].sends - 1, tail := c.tail, error := c.error, awaiting := c.awaiting)
    requires (c.tail ==> queue[i].tail && queue[i].sends > 1) && (queue[i].error ==> c.error)
    requires c.awaiting > queue[i].awaiting ==> c.kind.Del?
    requires Single(c.kind) ==> !c.tail
    ensures var queue' := queue[i := c];
            && PositionOk(cmds, queue', created, |stream|, q) && CompleteOk(queue', |stream|, q)
            && ForwardOk(cmds, queue', created, stream, p)
            && locks > 0 && SendsOk(queue', locks - 1, holds)
            && ReadOk(cmds, queue', created, |stream|, q, reading) && SettledOk(cmds, queue', created, |stream|, q)
  {
    hide PositionOk, ForwardOk, Exhausted;
    SamePosition(cmds, queue, created, |stream|, q, i, c);
    ForwardSame(cmds, queue, created, stream, p, i, c);
    SendAt(queue, locks, holds, i);
    SendsBound(queue, i);
    SendsChange(queue, locks, holds, i, c, locks - 1);
  }

  lemma OthersComplete(cmds: seq<seq<Bytes>>, queue: seq<Cmd>, created: nat, len: nat, q: nat)
    requires PositionOk(cmds, queue, created, len, q)
    ensures forall i :: 0 <= i < |queue| - 1 ==> queue[i].unparsed == 0 && queue[i].recvComplete
    ensures queue == [] || queue[|queue| - 1].kind !in {Set, Mset} ==> q <= len
  {
    hide KindOfCommand, Mark, Off;
  }

  lemma IncompleteIsLast(cmds: seq<seq<Bytes>>, queue: seq<Cmd>, created: nat, len: nat, q: nat, i: nat)
    requires PositionOk(cmds, queue, created, len, q) && CompleteOk(queue, len, q)
    requires i < |queue| && !queue[i].recvComplete
    ensures i == |queue| - 1 && (q > len || queue[i].unparsed > 0)
  {
    hide KindOfCommand, BackOk, Off;
  }

  lemma UnparsedIsLast(cmds: seq<seq<Bytes>>, queue: seq<Cmd>, created: nat, len: nat, q: nat, i: nat)
    requires PositionOk(cmds, queue, created, len, q) && i < |queue| && queue[i].unparsed > 0
    ensures i == |queue| - 1
  {
    hide KindOfCommand, BackOk, Off;
  }

  lemma SettledRead(cmds: seq<seq<Bytes>>, queue: seq<Cmd>, created: nat, len: nat, q: nat)
    requires SettledOk(cmds, queue, created, len, q) && |queue| == 1 && queue[0].recvComplete
    ensures ReadOk(cmds, queue, created, len, q, true)
  {
    hide Exhausted;
  }

  // The front command leaves the pipeline.
  lemma Popped(cmds: seq<seq<Bytes>>, queue: seq<Cmd>, created: nat, stream: Bytes, p: nat, q: nat,
               locks: nat, holds: nat, reading: bool)
    requires PositionOk(cmds, queue, created, |stream|, q) && CompleteOk(queue, |stream|, q)
    requires ForwardOk(cmds, queue, created, stream, p) && SendsOk(queue, locks, holds) && queue != []
    requires ReadOk(cmds, queue, created, |stream|, q, reading) && SettledOk(cmds, queue, created, |stream|, q)
    requires queue[0].recvComplete && queue[0].sends == 0
    ensures var queue' := queue[1..];
            && PositionOk(cmds, queue', created, |stream|, q) && CompleteOk(queue', |stream|, q)
            && ForwardOk(cmds, queue', created, stream, p) && SendsOk(queue', locks, holds)
            && ReadOk(cmds, queue', created, |stream|, q, reading)
            && (queue' == [] ==> SettledOk(cmds, queue', created, |stream|, q))
  {
    hide PositionOk, ForwardOk, SendsOk, Exhausted;
    PoppedPosition(cmds, queue, created, |stream|, q);
    ForwardPop(cmds, queue, created, stream, p);
    SendsPop(queue, locks, holds);
  }

  lemma IncompleteParse(queue: seq<Cmd>, len: nat, q: nat)
    requires CompleteOk(queue, len, q) && queue != [] && !queue[|queue| - 1].recvComplete
    ensures q > len || queue[|queue| - 1].unparsed > 0
  {
  }

  lemma CompleteParse(queue: seq<Cmd>, len: nat, q: nat)
    requires CompleteOk(queue, len, q) && queue != [] && queue[|queue| - 1].recvComplete
    ensures queue[|queue| - 1].unparsed == 0
  {
  }

  lemma AllReceived(queue: seq<Cmd>, len: nat, q: nat)
    requires CompleteOk(queue, len, q) && queue != [] && queue[|queue| - 1].recvComplete
    ensures q <= len
  {
  }

  lemma IncompleteSettled(cmds: seq<seq<Bytes>>, queue: seq<Cmd>, created: nat, len: nat, q: nat)
    requires queue != [] && CompleteOk(queue, len, q)
    requires q > len || queue[|queue| - 1].unparsed > 0
    ensures SettledOk(cmds, queue, created, len, q)
  {
  }

  lemma NothingUnparsed(cmds: seq<seq<Bytes>>, queue: seq<Cmd>, created: nat, len: nat, q: nat)
    requires |queue| >= PIPELINE_LIMIT || q >= len
    ensures SettledOk(cmds, queue, created, len, q)
  {
  }

  // A slice of the query, from position p on, is sent on.
  function Continued(c: Cmd, complete: bool, slice: Bytes, p: nat): Cmd {
    c.(recvComplete := complete, sends := c.sends + 1, tail := true, from := if c.sends == 0 then p else c.from,
       forwarded := if c.kind.Set? then c.forwarded + slice else c.forwarded)
  }

  lemma SentOn(c: Cmd, complete: bool, slice: Bytes, p: nat)
    requires SendOk(c) && (c.kind.Set? || c.kind.Mset?) && !c.tail
    ensures var c' := Continued(c, complete, slice, p);
            && SendOk(c') && c'.sends == c.sends + 1 && (!c.recvComplete ==> Extended(c, c', p))
            && c'.kind == c.kind && c'.unparsed == c.unparsed && c'.error == c.error && c'.recvComplete == complete
            && (c.kind.Set? ==> c'.forwarded == c.forwarded + slice)
            && (c'.from == c.from || c'.from == p) && (c.sends == 0 ==> c'.from == p)
  {
  }

  lemma Skipped(c: Cmd, complete: bool, p: nat)
    requires SendOk(c)
    ensures SendOk(c.(recvComplete := complete)) && (!c.recvComplete ==> Extended(c, c.(recvComplete := complete), p))
  {
  }

  // A finished send of a command.
  function SendDone(c: Cmd, ok: bool, isTail: bool): Cmd
    requires c.sends > 0
  {
    c.(sends := c.sends - 1, tail := c.tail && !isTail, error := c.error || (isTail && !ok),
       awaiting := c.awaiting + if c.kind.Del? && ok then 1 else 0)
  }

  // A reply to MSET or DEL that may come: DEL has one for every subquery sent.
  predicate CanAnswer(c: Cmd) {
    c.kind.Mset? || (c.kind.Del? && c.awaiting > 0)
  }

  function Answered(c: Cmd): Cmd {
    if c.kind.Del? && c.awaiting > 0 then c.(awaiting := c.awaiting - 1) else c
  }

  // The command has been sent and answered.
  predicate IsAnswered(c: Cmd) {
    c.recvComplete && c.sends == 0 && c.awaiting == 0
  }

  lemma AnswerCounted(cmds: seq<seq<Bytes>>, queue: seq<Cmd>, created: nat, stream: Bytes, p: nat, q: nat,
                      locks: nat, holds: nat, reading: bool, i: nat)
    requires PositionOk(cmds, queue, created, |stream|, q) && CompleteOk(queue, |stream|, q)
    requires ForwardOk(cmds, queue, created, stream, p) && SendsOk(queue, locks, holds) && i < |queue|
    requires ReadOk(cmds, queue, created, |stream|, q, reading) && SettledOk(cmds, queue, created, |stream|, q)
    ensures var queue' := queue[i := Answered(queue[i])];
            && PositionOk(cmds, queue', created, |stream|, q) && CompleteOk(queue', |stream|, q)
            && ForwardOk(cmds, queue', created, stream, p) && SendsOk(queue', locks, holds)
            && ReadOk(cmds, queue', created, |stream|, q, reading) && SettledOk(cmds, queue', created, |stream|, q)
  {
    hide PositionOk, ForwardOk, Exhausted;
    var c := Answered(queue[i]);
    SamePosition(cmds, queue, created, |stream|, q, i, c);
    ForwardSame(cmds, queue, created, stream, p, i, c);
    SendAt(queue, locks, holds, i);
    SendsChange(queue, locks, holds, i, c, locks);
  }

  // A reply that asks for nothing leaves something to wait for.
  lemma AnsweredAwake(cmds: seq<seq<Bytes>>, capacity: nat, queue: seq<Cmd>, created: nat, len: nat, q: nat, i: nat,
                      locks: nat, reading: bool, eofHolds: nat, received: nat)
    requires PositionOk(cmds, queue, created, len, q) && CompleteOk(queue, len, q) && i < |queue|
    requires AwakeOk(capacity, queue, len, q, reading, eofHolds, received) && CanAnswer(queue[i])
    requires SendsOk(queue, locks, (if reading then 1 else 0) + eofHolds) && !(queue[i].unparsed > 0 && locks == 0)
    ensures AwakeOk(capacity, queue[i := Answered(queue[i])], len, q, reading, eofHolds, received)
  {
    hide PositionOk, Mark, KindOfCommand;
    LastCommand(cmds, queue, created, len, q);
    if queue[i].kind.Del? {
      SendsUpdate(queue, i, Answered(queue[i]));
    }
  }

  lemma OneSend(queue: seq<Cmd>)
    requires |queue| == 1
    ensures Sends(queue) == queue[0].sends
  {
    assert Sends(queue[1..]) == 0;
  }

  // Whether a command asks for more of its query when a send is finished.
  predicate Asks(c: Cmd, ok: bool) {
    !c.recvComplete && (Single(c.kind) || c.kind.Mset? || (c.kind.Del? && !ok))
  }

  // A header that is not there keeps SET waiting.
  lemma HeaderMissing(cmds: seq<seq<Bytes>>, queue: seq<Cmd>, created: nat, stream: Bytes, q: nat)
    requires queue != [] && queue[|queue| - 1].kind.Set? && queue[|queue| - 1].unparsed > 0 && q <= |stream|
    requires 1 <= created <= |cmds| && queue[|queue| - 1].unparsed <= |cmds[created - 1]| && AllWhole(cmds[created - 1])
    ensures var w := cmds[created - 1][|cmds[created - 1]| - queue[|queue| - 1].unparsed];
            MaximalOk(cmds, queue, created, |stream|, q) <==> |stream| - q < HeaderSize(w)
  {
  }

  // The header of bulk m of command i is among the first len bytes.
  ghost predicate HeaderAt(cmds: seq<seq<Bytes>>, i: nat, m: nat, len: nat)
    requires i < |cmds| && m < |cmds[i]|
  {
    AllWhole(cmds[i]) && Mark(cmds, i, m) + HeaderSize(cmds[i][m]) <= len
  }

  lemma OneMoreSeen(cmds: seq<seq<Bytes>>, queue: seq<Cmd>, created: nat, len: nat, q: nat, c: Cmd)
    requires SeenOk(cmds, queue, created, len) && queue != [] && PositionOk(cmds, queue, created, len, q)
    requires 0 < queue[|queue| - 1].unparsed <= |cmds[created - 1]| && c.unparsed == queue[|queue| - 1].unparsed - 1
    requires HeaderAt(cmds, created - 1, |cmds[created - 1]| - queue[|queue| - 1].unparsed, len)
    ensures SeenOk(cmds, queue[|queue| - 1 := c], created, len)
  {
    hide PositionOk, Off, Size, KindOfCommand, HeadersIn, SeenOk, WholeBulk;
    LastCommand(cmds, queue, created, len, q);
    var ws := cmds[created - 1];
    var m := |ws| - queue[|queue| - 1].unparsed;
    WholeFrom(ws, m);
    HeadersInExact(ws[m..], len - q, 0);
    assert ws[m..][..0] == [];
    NoBulks();
    SeenMore(cmds, queue, created, len, q, 1, c);
  }

  lemma BatchIsSeen(cmds: seq<seq<Bytes>>, queue: seq<Cmd>, created: nat, len: nat, q: nat, n: nat, c: Cmd)
    requires SeenOk(cmds, queue, created, len) && queue != [] && PositionOk(cmds, queue, created, len, q) && q <= len
    requires created >= 1 && BatchSize(cmds, created - 1, queue[|queue| - 1], len - q, n)
    requires n <= queue[|queue| - 1].unparsed && c.unparsed == queue[|queue| - 1].unparsed - n
    ensures SeenOk(cmds, queue[|queue| - 1 := c], created, len)
  {
    hide PositionOk, Off, Size, KindOfCommand, HeadersIn, SeenOk, WholeBulk, Concat;
    LastCommand(cmds, queue, created, len, q);
    SeenMore(cmds, queue, created, len, q, n, c);
  }

  lemma NothingLeft(cmds: seq<seq<Bytes>>, queue: seq<Cmd>, created: nat, stream: Bytes, q: nat, capacity: nat)
    requires AllSupported(cmds, capacity) && PositionOk(cmds, queue, created, |stream|, q)
    requires queue != [] && queue[|queue| - 1].kind.Set? && (queue[|queue| - 1].unparsed == 0 || q >= |stream|)
    ensures MaximalOk(cmds, queue, created, |stream|, q)
  {
    hide Supported, Off, Size, KindOfCommand, PositionOk, AllWhole, HeadersIn, WholeBulk;
    if queue[|queue| - 1].unparsed > 0 {
      LastCommand(cmds, queue, created, |stream|, q);
      SupportedAt(cmds, capacity, created - 1);
      var m := |cmds[created - 1]| - queue[|queue| - 1].unparsed;
      WholeFrom(cmds[created - 1], m);
      NoRoomForHeader(cmds[created - 1][m..]);
    }
  }

  // A batch takes all there is.
  lemma BatchLeavesNothing(cmds: seq<seq<Bytes>>, queue: seq<Cmd>, created: nat, len: nat, q: nat, totals: seq<nat>,
                           c: Cmd)
    requires PositionOk(cmds, queue, created, len, q) && queue != [] && created >= 1 && q <= len
    requires BatchSize(cmds, created - 1, queue[|queue| - 1], len - q, |totals|)
    requires BatchOk(cmds, created - 1, queue[|queue| - 1].unparsed, len, q, totals)
    requires var b := queue[|queue| - 1];
             c.kind == b.kind && (c.kind.Mset? || c.kind.Del?) && c.unparsed == b.unparsed - |totals|
    ensures MaximalOk(cmds, queue[|queue| - 1 := c], created, len, q + Sum(totals))
  {
    hide Off, Size, KindOfCommand, PositionOk, AllWhole, HeadersIn, Sum, Concat, NoMore;
    var ws := cmds[created - 1];
    var b := queue[|queue| - 1];
    var m := |ws| - b.unparsed;
    if c.unparsed > 0 && q + Sum(totals) <= len {
      MarkSum(cmds, created - 1, m, |totals|);
      ConcatLength(ws[m..][..|totals|]);
      BatchMaximal(c.kind, ws[m..], len - q, |totals|);
      assert ws[m..][|totals|..] == ws[m + |totals|..];
    }
  }

  lemma NoBatch(cmds: seq<seq<Bytes>>, queue: seq<Cmd>, created: nat, len: nat, q: nat)
    requires queue != [] && created >= 1 && q <= len && (queue[|queue| - 1].kind.Mset? || queue[|queue| - 1].kind.Del?)
    requires BatchSize(cmds, created - 1, queue[|queue| - 1], len - q, 0)
    ensures MaximalOk(cmds, queue, created, len, q)
  {
    hide AllWhole, HeadersIn, NoMore, Concat;
    var c := queue[|queue| - 1];
    var ws := cmds[created - 1][|cmds[created - 1]| - c.unparsed..];
    assert ws[0..] == ws && ws[..0] == [];
    NoBulks();
    BatchMaximal(c.kind, ws, len - q, 0);
  }

  lemma NoBulks()
    ensures Concat([]) == []
  {
  }

  lemma OnlySet(cmds: seq<seq<Bytes>>, queue: seq<Cmd>, created: nat, len: nat, q: nat)
    requires PositionOk(cmds, queue, created, len, q) && queue != [] && queue[|queue| - 1].unparsed > 0
    requires !queue[|queue| - 1].kind.Mset? && !queue[|queue| - 1].kind.Del?
    ensures queue[|queue| - 1].kind.Set?
  {
    hide PositionOk, Mark;
    LastCommand(cmds, queue, created, len, q);
  }

  lemma SetRests(capacity: nat, queue: seq<Cmd>, len: nat, q: nat, reading: bool, eofHolds: nat, received: nat)
    requires queue != [] && queue[|queue| - 1].kind.Set? && queue[|queue| - 1].unparsed > 0 && q <= len
    ensures AwakeOk(capacity, queue, len, q, reading, eofHolds, received)
  {
  }

  lemma StillIncomplete(queue: seq<Cmd>, len: nat, q: nat)
    requires CompleteOk(queue, len, q) && queue != [] && queue[|queue| - 1].unparsed > 0
    ensures !queue[|queue| - 1].recvComplete
  {
  }

  // A lock that is not the read's is a send's.
  lemma LockedRests(capacity: nat, queue: seq<Cmd>, len: nat, q: nat, reading: bool, eofHolds: nat, received: nat,
                    locks: nat)
    requires SendsOk(queue, locks, (if reading then 1 else 0) + eofHolds)
    requires locks == 0 ==> reading || received * 3 >= capacity * 2
    ensures AwakeOk(capacity, queue, len, q, reading, eofHolds, received)
  {
  }

  lemma CompleteAwake(cmds: seq<seq<Bytes>>, queue: seq<Cmd>, created: nat, len: nat, q: nat)
    requires CompleteOk(queue, len, q) && queue != [] && queue[|queue| - 1].unparsed == 0 && (|queue| > 1 || q <= len)
    ensures |queue| > 1 || queue[0].recvComplete
  {
  }

  // A finished send that asks for nothing leaves something to wait for.
  lemma SendAwake(cmds: seq<seq<Bytes>>, capacity: nat, queue: seq<Cmd>, created: nat, len: nat, q: nat, i: nat,
                  ok: bool, locks: nat, reading: bool, eofHolds: nat, received: nat)
    requires PositionOk(cmds, queue, created, len, q) && CompleteOk(queue, len, q) && i < |queue|
    requires SendsOk(queue, locks, (if reading then 1 else 0) + eofHolds) && !(Asks(queue[i], ok) && locks == 0)
    requires queue[i].kind.Del? && ok ==> queue[i].awaiting > 0
    ensures AwakeOk(capacity, queue, len, q, reading, eofHolds, received)
  {
    hide PositionOk, Mark, KindOfCommand;
    LastCommand(cmds, queue, created, len, q);
  }

  // Bytes that are left over.
  lemma EmptyBehind(queue: seq<Cmd>, len: nat, q: nat, eofHolds: nat, received: nat)
    requires q < len
    ensures EmptyOk(queue, len, q, true, eofHolds, received)
  {
  }

  lemma EmptyFailed(queue: seq<Cmd>, len: nat, q: nat, eofHolds: nat, received: nat)
    requires queue != [] && queue[|queue| - 1].error && !queue[|queue| - 1].recvComplete
    ensures EmptyOk(queue, len, q, true, eofHolds, received)
  {
  }

  lemma EmptyNoRead(queue: seq<Cmd>, len: nat, q: nat, eofHolds: nat, received: nat)
    ensures EmptyOk(queue, len, q, false, eofHolds, received)
  {
  }

  lemma EmptyKept(queue: seq<Cmd>, len: nat, q: nat, reading: bool, eofHolds: nat, received: nat, received': nat)
    requires EmptyOk(queue, len, q, reading, eofHolds, received) && (reading ==> received' == received)
    ensures EmptyOk(queue, len, q, reading, eofHolds, received')
  {
  }

  // A finished send does not stop the read.
  lemma EmptySame(queue: seq<Cmd>, len: nat, q: nat, reading: bool, eofHolds: nat, received: nat, i: nat, c: Cmd)
    requires EmptyOk(queue, len, q, reading, eofHolds, received) && i < |queue|
    requires (queue[i].error ==> c.error) && c.recvComplete == queue[i].recvComplete
    ensures EmptyOk(queue[i := c], len, q, reading, eofHolds, received)
  {
  }

  lemma EmptyPop(queue: seq<Cmd>, len: nat, q: nat, reading: bool, eofHolds: nat, received: nat)
    requires EmptyOk(queue, len, q, reading, eofHolds, received) && queue != [] && queue[0].recvComplete
    ensures EmptyOk(queue[1..], len, q, reading, eofHolds, received)
  {
  }

  // A read is started.
  lemma RoomRead(capacity: nat, locks: nat, processed: nat, received: nat)
    requires received * 3 < capacity * 2
    ensures RoomOk(capacity, true, locks + 1, processed, received)
  {
  }

  // A command is created from the bytes at hand.
  lemma NeededNew(cmds: seq<seq<Bytes>>, created: nat, len: nat)
    requires created < |cmds| && SupportedCommand(cmds[created]) && Off(cmds, created) <= len
    requires Taken(cmds[created], KindOfCommand(cmds[created]).value, len - Off(cmds, created)) > 0
    ensures CanCreate(cmds, created, len) && NeededOk(cmds, created + 1, len)
  {
    hide Off, Taken, KindOfCommand, AllWhole;
  }

  // A command joins the pipeline, parsed up to q and processed as far as it is there.
  lemma StartMoves(cmds: seq<seq<Bytes>>, queue: seq<Cmd>, created: nat, stream: Bytes, q: nat, locks: nat, holds: nat,
                   c: Cmd)
    requires |queue| < PIPELINE_LIMIT && BackComplete(queue) && stream <= Text(cmds)
    requires IsNew(cmds, created, c, |stream|) && Off(cmds, created) < |stream|
    requires PositionOk(cmds, queue, created, |stream|, Off(cmds, created))
    requires CompleteOk(queue, |stream|, Off(cmds, created))
    requires ForwardOk(cmds, queue, created, stream, Off(cmds, created)) && SendsOk(queue, locks, holds) && SendOk(c)
    requires q == Mark(cmds, created, |cmds[created]| - c.unparsed) && Off(cmds, created) <= Min(q, |stream|)
    requires c.recvComplete == match c.kind
                               case Set => q <= |stream| && c.unparsed == 0
                               case Mset => q <= |stream| && c.unparsed == 0
                               case Del => c.unparsed == 0
                               case _ => true
    requires Single(c.kind) ==> c.forwarded == stream[Off(cmds, created)..Min(q, |stream|)]
    ensures var queue' := queue + [c];
            && PositionOk(cmds, queue', created + 1, |stream|, q) && CompleteOk(queue', |stream|, q)
            && ForwardOk(cmds, queue', created + 1, stream, Min(q, |stream|)) && SendsOk(queue', locks + c.sends, holds)
            && ReadOk(cmds, queue', created + 1, |stream|, q, false) && MaximalOk(cmds, queue', created + 1, |stream|, q)
            && SeenOk(cmds, queue', created + 1, |stream|) && NeededOk(cmds, created + 1, |stream|)
    ensures c.recvComplete <==> c.unparsed == 0 && q <= |stream|
  {
    hide Text, PositionOk, SendsOk, ForwardOk, CompleteOk, ReadOk, Taken, Off, Size, AllWhole, KindOfCommand, MaximalOk,
         SeenOk, SendOk;
    Created(cmds, queue, created, stream, c);
    ForwardNew(cmds, queue, created, stream, Off(cmds, created), Min(q, |stream|), c);
    SendsPush(queue, locks, holds, c);
    NewComplete(queue, c, |stream|, q);
    NotReadingOk(cmds, queue + [c], created + 1, |stream|, q);
    MaximalNew(cmds, queue, created, |stream|, q, c);
    SeenNew(cmds, queue, created, |stream|, c);
  }

  lemma RoomLeft(capacity: nat, locks: nat, processed: nat, received: nat)
    requires locks == 0 ==> B.Tidy(capacity, processed, received)
    ensures RoomOk(capacity, false, locks, processed, received)
  {
  }

  lemma RoomKept(capacity: nat, reading: bool, processed: nat, received: nat, locks: nat, processed': nat,
                 received': nat, locks': nat)
    requires RoomOk(capacity, reading, locks, processed, received) && (reading ==> received' == received)
    requires locks' == 0 ==> B.Tidy(capacity, processed', received')
    ensures RoomOk(capacity, reading, locks', processed', received')
  {
  }

  // SET waits for a bulk header, although q is as far as it has got.
  ghost predicate WaitsForHeader(cmds: seq<seq<Bytes>>, queue: seq<Cmd>, created: nat, len: nat, q: nat) {
    && queue != [] && queue[|queue| - 1].kind.Set? && queue[|queue| - 1].unparsed > 0 && q <= len
    && MaximalOk(cmds, queue, created, len, q)
  }

  lemma SameLength(queue: seq<Cmd>, queue': seq<Cmd>, p: nat)
    requires LastExtended(queue, queue', p)
    ensures |queue| == |queue'|
  {
  }

  lemma Composed(cmds: seq<seq<Bytes>>, queue: seq<Cmd>, created: nat, middle: seq<Cmd>, queue': seq<Cmd>,
                 created': nat, len: nat, p: nat, p': nat)
    requires LastExtended(queue, middle, p) && Grown(cmds, middle, created, queue', created', len, p') && p <= p'
    requires p < p' ==> middle != [] && (middle[|middle| - 1].sends > 0 || middle[|middle| - 1].error)
    ensures Grown(cmds, queue, created, queue', created', len, p)
  {
    hide IsNew, Extended;
    LastExtendedTwice(queue, middle, queue'[..|middle|], p, p');
    GrownIs(cmds, queue, created, queue'[..|middle|], queue', created', len, p);
  }

  lemma NextBytes(text: Bytes, stream: Bytes, arrived: nat, n: nat)
    requires stream <= text && arrived == |stream| && arrived + n <= |text|
    ensures stream + text[arrived..arrived + n] <= text
  {
    assert stream + text[arrived..arrived + n] == text[..arrived + n];
  }

  // ---------- batches, as the commands see them ----------

  // The batch of an MSET is the pairs it can take.
  lemma MsetBatchIsPairs(cmds: seq<seq<Bytes>>, idx: nat, name: Bytes, pairs: seq<MP.Pair>, from: nat, c: Cmd, k: nat,
                         n: nat)
    requires MP.PairsOk(pairs) && from <= |pairs| && c.kind.Mset? && c.unparsed == 2 * (|pairs| - from)
    requires idx < |cmds| && cmds[idx] == [name] + MP.Flat(pairs) && BatchSize(cmds, idx, c, k, n)
    ensures MP.PairsOk(pairs[from..]) && n == 2 * MP.PairsIn(pairs[from..], k)
  {
    hide MP.Flat, HeadersIn, AllWhole, WholeBulk, Concat;
    MP.FlatSlice(pairs, from);
    assert cmds[idx][|cmds[idx]| - c.unparsed..] == MP.Flat(pairs)[2 * from..];
  }

  // The batch of a DEL is the keys that are complete.
  lemma DelBatchIsKeys(cmds: seq<seq<Bytes>>, idx: nat, name: Bytes, keys: seq<Bytes>, from: nat, c: Cmd, k: nat,
                       n: nat)
    requires from <= |keys| && AllWhole(keys[from..]) && c.kind.Del? && c.unparsed == |keys| - from
    requires idx < |cmds| && cmds[idx] == [name] + keys && BatchSize(cmds, idx, c, k, n)
    ensures n == DK.KeysIn(keys[from..], k)
  {
    hide HeadersIn, AllWhole;
    assert cmds[idx][|cmds[idx]| - c.unparsed..] == keys[from..];
    assert keys[from..][..0] == [];
  }
}
