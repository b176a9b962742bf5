/**
 Runs of the query side of a client connection: what every event does, what
 holds in every state, and when a connection stops for good.
 */
module ClientRuns {
  import opened Resp
  import opened Net
  import opened Framing
  import opened ClientQuery
  import opened QueryProgress
  import opened ClientSteps
  import opened UsableBytes
  import B = ReadBuffer

  // What has been sent to the backend of a single-key command.
  lemma ForwardedPart(cmds: seq<seq<Bytes>>, queue: seq<Cmd>, created: nat, stream: Bytes, q: nat, i: nat)
    requires PositionOk(cmds, queue, created, |stream|, q) && CompleteOk(queue, |stream|, q)
    requires stream <= Text(cmds) && ForwardOk(cmds, queue, created, stream, Min(q, |stream|))
    requires i < |queue| && Single(queue[i].kind) && !queue[i].error
    ensures |queue| <= created <= |cmds| && SentOf(queue[i], EncodeArray(cmds[created - |queue| + i]))
  {
    hide *;
    var idx := created - |queue| + i;
    var p := Min(q, |stream|);
    MinIs(q, |stream|);
    LastCommand(cmds, queue, created, |stream|, q);
    QueueBounds(cmds, queue, created, |stream|, q);
    ForwardAt(cmds, queue, created, stream, p, i);
    AtCommand(cmds, idx);
    if queue[i].recvComplete {
      if i < |queue| - 1 {
        OffMonotone(cmds, idx + 1, created - 1);
      } else {
        LastEnds(cmds, queue, created, |stream|, q);
      }
    }
    SliceOfCommand(queue[i], Text(cmds), stream, EncodeArray(cmds[idx]), Text(cmds)[Off(cmds, idx + 1)..], Off(cmds, idx), p);
  }

  lemma MinIs(a: nat, b: nat)
    ensures Min(a, b) == if a < b then a else b
  {
  }

  lemma QueueBounds(cmds: seq<seq<Bytes>>, queue: seq<Cmd>, created: nat, len: nat, q: nat)
    requires PositionOk(cmds, queue, created, len, q)
    ensures |queue| <= created <= |cmds|
  {
    hide Off, Mark, KindOfCommand;
  }

  lemma LastEnds(cmds: seq<seq<Bytes>>, queue: seq<Cmd>, created: nat, len: nat, q: nat)
    requires PositionOk(cmds, queue, created, len, q) && CompleteOk(queue, len, q)
    requires queue != [] && queue[|queue| - 1].recvComplete
    ensures created <= |cmds| && q == Off(cmds, created) <= len
  {
    hide PositionOk, Off;
    CompleteParse(queue, len, q);
    CompletePosition(cmds, queue, created, len, q);
  }

  // The part up to p of a command that starts at o.
  lemma SliceOfCommand(c: Cmd, text: Bytes, stream: Bytes, command: Bytes, rest: Bytes, o: nat, p: nat)
    requires stream <= text && o <= p <= |stream| && text[o..] == command + rest
    requires c.forwarded == stream[o..Min(p, o + |command|)] && (c.recvComplete ==> p >= o + |command|)
    ensures SentOf(c, command)
  {
    var e := Min(p, o + |command|);
    PrefixFrom(stream[..e], text, o);
    assert stream[o..e] == text[o..][..e - o];
    assert (command + rest)[..e - o] == command[..e - o];
  }

  lemma ForwardAt(cmds: seq<seq<Bytes>>, queue: seq<Cmd>, created: nat, stream: Bytes, p: nat, i: nat)
    requires ForwardOk(cmds, queue, created, stream, p)
    requires i < |queue| && Single(queue[i].kind) && !queue[i].error
    ensures |queue| <= created <= |cmds| && p <= |stream|
    ensures var idx := created - |queue| + i;
            && 0 <= idx < |cmds| && p <= |stream| && Off(cmds, idx) <= p && Off(cmds, idx) <= Min(p, Off(cmds, idx + 1))
            && queue[i].forwarded == stream[Off(cmds, idx)..Min(p, Off(cmds, idx + 1))]
  {
    hide Off;
    assert ForwardedOk(cmds, created - |queue| + i, stream, p, queue[i].forwarded);
  }

  // The commands created so far are the first ones of the pipeline, the active
  // ones at its end, and the bulks they have taken end at the parse position.
  ghost predicate Tiled(cmds: seq<seq<Bytes>>, queue: seq<Cmd>, created: nat, position: nat) {
    && |queue| <= created <= |cmds|
    && (forall i :: 0 <= i < |queue| ==> KindOfCommand(cmds[created - |queue| + i]) == Some(queue[i].kind))
    && (queue == [] ==> position == Off(cmds, created))
    && (queue != [] ==>
          && TakenUpTo(cmds, created - 1, queue[|queue| - 1].unparsed, position)
          && (queue[|queue| - 1].kind.Mset? ==> queue[|queue| - 1].unparsed % 2 == 0))
  }

  // All but the last `unparsed` bulks of command i end at the position.
  ghost predicate TakenUpTo(cmds: seq<seq<Bytes>>, i: nat, unparsed: nat, position: nat)
    requires i < |cmds|
  {
    unparsed <= |cmds[i]| && position == Mark(cmds, i, |cmds[i]| - unparsed)
  }

  lemma TilingAt(cmds: seq<seq<Bytes>>, queue: seq<Cmd>, created: nat, len: nat, q: nat)
    requires PositionOk(cmds, queue, created, len, q)
    ensures |queue| <= PIPELINE_LIMIT && Tiled(cmds, queue, created, q)
  {
    hide Off, Mark, KindOfCommand;
  }

  // The backend of a single-key command is sent a prefix of the command's
  // bytes, and all of them once the command has been received.
  ghost predicate Forwarded(cmds: seq<seq<Bytes>>, queue: seq<Cmd>, created: nat) {
    && |queue| <= created <= |cmds|
    && forall i :: 0 <= i < |queue| && (queue[i].kind.Basic? || queue[i].kind.Set?) && !queue[i].error ==>
         SentOf(queue[i], EncodeArray(cmds[created - |queue| + i]))
  }

  predicate SentOf(c: Cmd, text: Bytes) {
    c.forwarded <= text && (c.recvComplete ==> c.forwarded == text)
  }

  lemma AllForwarded(cmds: seq<seq<Bytes>>, queue: seq<Cmd>, created: nat, stream: Bytes, q: nat)
    requires PositionOk(cmds, queue, created, |stream|, q) && CompleteOk(queue, |stream|, q)
    requires stream <= Text(cmds) && ForwardOk(cmds, queue, created, stream, Min(q, |stream|))
    ensures Forwarded(cmds, queue, created)
  {
    hide PositionOk, CompleteOk, Text, EncodeArray, ForwardOk, SentOf;
    TilingAt(cmds, queue, created, |stream|, q);
    forall i | 0 <= i < |queue| && Single(queue[i].kind) && !queue[i].error
      ensures SentOf(queue[i], EncodeArray(cmds[created - |queue| + i]))
    {
      ForwardedPart(cmds, queue, created, stream, q, i);
    }
  }

  // ---------- runs ----------

  // Completions of asynchronous operations of the client and of its commands.
  datatype Event =
    | ReadBytes(size: nat)
    | ReadEof
    | ReadError
    | QuerySent(index: nat, ok: bool, isTail: bool)
    | ReplyRead(index: nat)
    | ReplyFinished

  datatype Snapshot = Snapshot(
    queue: seq<Cmd>, created: nat, reading: bool, eofHolds: nat, locks: nat,
    arrived: nat,                              // bytes received so far
    processed: nat, parsed: nat, received: nat, // offsets into the buffer
    aborted: bool)

  // How far the stream has been parsed: the received bytes end where the buffer's do.
  function Position(v: Snapshot): nat {
    if v.received <= v.arrived then v.arrived - v.received + v.parsed else 0
  }

  // Where the buffer starts in the stream, and up to where it is processed.
  function Base(v: Snapshot): nat {
    if v.received <= v.arrived then v.arrived - v.received else 0
  }

  function Used(v: Snapshot): nat {
    Base(v) + v.processed
  }

  predicate HasRoom(capacity: nat, v: Snapshot) {
    v.received * 3 < capacity * 2
  }

  // The framing is exact: the commands created are the first ones of the
  // pipeline, the active ones at its end; the parse position lies where the bulks
  // they have taken end; all of them but the last are complete, and the last one
  // is complete exactly when all of it was parsed and received; single-key
  // backends are sent exactly the bytes of their command; all that was parsed and
  // received is processed; the lock count is the outstanding read (and the reads
  // ended by end-of-file) plus the unfinished sends.
  ghost predicate Framed(cmds: seq<seq<Bytes>>, v: Snapshot) {
    && v.received <= v.arrived <= |Text(cmds)| && |v.queue| <= 16
    && Tiled(cmds, v.queue, v.created, Position(v)) && Forwarded(cmds, v.queue, v.created)
    && (forall i :: 0 <= i < |v.queue| - 1 ==> v.queue[i].unparsed == 0 && v.queue[i].recvComplete)
    && CompleteOk(v.queue, v.arrived, Position(v))
    && (v.queue == [] || v.queue[|v.queue| - 1].kind !in {Set, Mset} ==> Position(v) <= v.arrived)
    && v.processed == Min(v.parsed, v.received)
    && SendsOk(v.queue, v.locks, (if v.reading then 1 else 0) + v.eofHolds)
  }

  // Everything that can be made of the bytes at hand has been made, and nothing
  // else: the last command created had enough bytes and has taken all the bulks
  // it can, and unless the pipeline is full there are not enough bytes for the
  // next one. Reads are outstanding only where they may be.
  ghost predicate Settled(cmds: seq<seq<Bytes>>, capacity: nat, v: Snapshot) {
    && NeededOk(cmds, v.created, v.arrived) && SeenOk(cmds, v.queue, v.created, v.arrived)
    && v.received <= v.arrived && v.received <= capacity && HeldOk(v.queue, Base(v)) && BaseOk(cmds, Base(v))
    && MaximalOk(cmds, v.queue, v.created, v.arrived, Position(v))
    && SettledOk(cmds, v.queue, v.created, v.arrived, Position(v))
    && ReadOk(cmds, v.queue, v.created, v.arrived, Position(v), v.reading)
    && RoomOk(capacity, v.reading, v.locks, v.processed, v.received)
    && EmptyOk(v.queue, v.arrived, Position(v), v.reading, v.eofHolds, v.received)
    && AwakeOk(capacity, v.queue, v.arrived, Position(v), v.reading, v.eofHolds, v.received)
  }

  ghost predicate Exact(cmds: seq<seq<Bytes>>, capacity: nat, v: Snapshot) {
    v.aborted || (Framed(cmds, v) && Settled(cmds, capacity, v))
  }

  // What every event does; one that cannot happen now does nothing.
  ghost predicate Next(cmds: seq<seq<Bytes>>, capacity: nat, v: Snapshot, e: Event, w: Snapshot) {
    if v.aborted then w == v
    else match e
      case ReadBytes(n) =>
        if v.reading && 0 < n && v.received + n <= capacity && v.arrived + n <= |Text(cmds)|
        then AfterRead(cmds, capacity, v, n, w) else w == v
      case ReadEof => if v.reading then w == v.(reading := false, eofHolds := v.eofHolds + 1) else w == v
      case ReadError => if v.reading then w == v.(aborted := true) else w == v
      case QuerySent(i, ok, isTail) =>
        if CanFinish(v.queue, i, isTail) then AfterSent(capacity, v, i, ok, isTail, w) else w == v
      case ReplyRead(i) =>
        if i < |v.queue| && CanAnswer(v.queue[i]) then AfterReply(capacity, v, i, w) else w == v
      case ReplyFinished =>
        if v.queue != [] && IsAnswered(v.queue[0]) then AfterRotate(cmds, capacity, v, w) else w == v
  }

  // More of the last command is taken and sent, and commands are created; but
  // nothing happens, and no read is started, when SET waits for a bulk header.
  ghost predicate AfterRead(cmds: seq<seq<Bytes>>, capacity: nat, v: Snapshot, n: nat, w: Snapshot) {
    && w.arrived == v.arrived + n && w.eofHolds == v.eofHolds && !w.aborted
    && Grown(cmds, v.queue, v.created, w.queue, w.created, w.arrived, Used(v))
    && B.Shifted(capacity, Base(v), Base(w), w.arrived)
    && (Position(v) <= v.arrived && WaitsForHeader(cmds, v.queue, v.created, w.arrived, Position(v)) ==>
          w.queue == v.queue && !w.reading)
  }

  predicate CanFinish(queue: seq<Cmd>, i: nat, isTail: bool) {
    && i < |queue| && queue[i].sends > (if queue[i].tail && !isTail then 1 else 0)
    && (isTail ==> queue[i].tail) && (Single(queue[i].kind) ==> isTail)
  }

  ghost predicate AfterSent(capacity: nat, v: Snapshot, i: nat, ok: bool, isTail: bool, w: Snapshot)
    requires CanFinish(v.queue, i, isTail)
  {
    && w.queue == v.queue[i := v.queue[i].(
                    sends := v.queue[i].sends - 1, tail := v.queue[i].tail && !isTail,
                    error := v.queue[i].error || (isTail && !ok),
                    awaiting := v.queue[i].awaiting + if v.queue[i].kind.Del? && ok then 1 else 0)]
    && w.created == v.created && w.arrived == v.arrived
    && w.eofHolds == v.eofHolds && !w.aborted && Position(w) == Position(v)
    && (w.processed, w.received) == (if v.locks == 1 then B.Recycled(capacity, v.processed, v.received)
                                     else (v.processed, v.received))
    && w.reading == (v.reading || (Asks(w.queue[i], ok) && v.locks == 1 && HasRoom(capacity, w)))
  }

  ghost predicate AfterReply(capacity: nat, v: Snapshot, i: nat, w: Snapshot)
    requires i < |v.queue|
  {
    && w == v.(queue := w.queue, reading := w.reading, locks := w.locks)
    && w.queue == v.queue[i := if v.queue[i].kind.Del? && v.queue[i].awaiting > 0
                               then v.queue[i].(awaiting := v.queue[i].awaiting - 1) else v.queue[i]]
    && w.reading == (v.reading || (v.queue[i].unparsed > 0 && v.locks == 0 && HasRoom(capacity, v)))
    && w.locks == v.locks + (if w.reading && !v.reading then 1 else 0)
  }

  ghost predicate AfterRotate(cmds: seq<seq<Bytes>>, capacity: nat, v: Snapshot, w: Snapshot)
    requires v.queue != []
  {
    && Appended(cmds, v.queue[1..], v.created, w.queue, w.created, v.arrived)
    && w.arrived == v.arrived && w.eofHolds == v.eofHolds && !w.aborted
    && B.Shifted(capacity, Base(v), Base(w), v.arrived)
    && (|v.queue| == 1 ==>
          w == v.(queue := [], reading := v.reading || HasRoom(capacity, v), locks := w.locks))
  }

  ghost predicate Starts(v: Snapshot) {
    v == Snapshot([], 0, true, 0, 1, 0, 0, 0, 0, false)
  }

  ghost predicate IsRun(cmds: seq<seq<Bytes>>, capacity: nat, schedule: seq<Event>, run: seq<Snapshot>) {
    |run| == |schedule| + 1
    && forall i :: 0 <= i < |schedule| ==> Next(cmds, capacity, run[i], schedule[i], run[i + 1])
  }

  // A connection is aborted only by a read that fails.
  lemma {:induction false} BlameFor(cmds: seq<seq<Bytes>>, capacity: nat, schedule: seq<Event>, run: seq<Snapshot>,
                                    i: nat)
    requires IsRun(cmds, capacity, schedule, run) && Starts(run[0]) && i < |run| && run[i].aborted
    ensures exists k :: 0 <= k < i && schedule[k].ReadError?
  {
    hide Grown, WaitsForHeader, Appended, HasRoom, Asks, Text, SendDone, Position;
    assert Next(cmds, capacity, run[i - 1], schedule[i - 1], run[i]);
    if run[i - 1].aborted {
      BlameFor(cmds, capacity, schedule, run, i - 1);
    }
  }

  ghost predicate Good(cmds: seq<seq<Bytes>>, capacity: nat, v: Snapshot) {
    !v.aborted && Framed(cmds, v) && Settled(cmds, capacity, v)
  }

  // Unparsed bulks of the last command created, if it is still active.
  function Unparsed(v: Snapshot): nat {
    if v.queue == [] then 0 else v.queue[|v.queue| - 1].unparsed
  }

  // ---------- progress ----------

  // Nothing is outstanding that would make the connection go on.
  predicate Asleep(v: Snapshot) {
    !v.aborted && Resting(v.queue, v.reading, v.eofHolds)
  }

  // From there it never wakes up.
  lemma AsleepForever(cmds: seq<seq<Bytes>>, capacity: nat, v: Snapshot, e: Event, w: Snapshot)
    requires Framed(cmds, v) && Settled(cmds, capacity, v) && Asleep(v) && Next(cmds, capacity, v, e, w)
    ensures w == v
  {
    hide Tiled, Forwarded, Text, NeededOk, SeenOk, HeldOk, BaseOk, EmptyOk, MaximalOk, SettledOk, ReadOk, RoomOk,
         AfterRead, AfterRotate, SendDone;
    if v.queue != [] {
      SendsBound(v.queue, 0);
    }
  }

  lemma WholeSupported(ws: seq<Bytes>, capacity: nat, k: nat)
    requires Supported(ws, capacity) && k >= |EncodeArray(ws)|
    ensures Taken(ws, KindOfCommand(ws).value, k) > 0
  {
    hide Taken, KindOfCommand, EncodeArray, AllWhole, ArrayPrefix;
    WholeIsTaken(ws, KindOfCommand(ws).value, k);
  }

  // w waits for bulks that it could not take.
  lemma Waiting(cmds: seq<seq<Bytes>>, capacity: nat, w: Snapshot)
    requires Good(cmds, capacity, w) && 0 < w.created <= |cmds| && Unparsed(w) > 0
    ensures w.queue != [] && Unparsed(w) <= |cmds[w.created - 1]|
    ensures var kind := w.queue[|w.queue| - 1].kind;
            var rest := cmds[w.created - 1][|cmds[w.created - 1]| - Unparsed(w)..];
            && KindOfCommand(cmds[w.created - 1]) == Some(kind) && (kind.Mset? ==> Unparsed(w) % 2 == 0)
            && (Position(w) <= w.arrived ==> AllWhole(rest) && NoMore(kind, rest, w.arrived - Position(w)))
  {
    hide Forwarded, Text, ReadOk, RoomOk, AwakeOk, SettledOk, Off, NeededOk, KindOfCommand, Size, CompleteOk, SendsOk,
         SeenOk, HeldOk, BaseOk, EmptyOk, NoMore, AllWhole;
    assert KindOfCommand(cmds[w.created - |w.queue| + (|w.queue| - 1)]) == Some(w.queue[|w.queue| - 1].kind);
  }

  lemma LastUnparsed(cmds: seq<seq<Bytes>>, capacity: nat, v: Snapshot)
    requires Good(cmds, capacity, v) && v.queue != [] && !v.queue[|v.queue| - 1].recvComplete
    requires Position(v) <= v.arrived
    ensures 0 < v.created <= |cmds| && Unparsed(v) > 0
  {
    hide Forwarded, Text, NeededOk, SeenOk, HeldOk, BaseOk, EmptyOk, ReadOk, KindOfCommand, AwakeOk, RoomOk,
         SettledOk, MaximalOk, Off, SendsOk;
  }

  // ---------- independence of the cut ----------

  // A command before the last one created could have been created as well.
  lemma CouldCreate(cmds: seq<seq<Bytes>>, capacity: nat, created: nat, len: nat, i: nat)
    requires AllSupported(cmds, capacity) && NeededOk(cmds, created, len) && i < created
    ensures i < |cmds| && CanCreate(cmds, i, len) && (i + 1 < created ==> Off(cmds, i + 1) <= len)
  {
    hide AllSupported, Off, Taken, KindOfCommand, AllWhole, EncodeArray;
    SupportedAt(cmds, capacity, i);
    if i + 1 < created {
      OffMonotone(cmds, i + 1, created - 1);
      AtCommand(cmds, i);
      WholeSupported(cmds[i], capacity, len - Off(cmds, i));
    }
  }

  // A connection whose pipeline is not full has created every command that
  // could have been created from the same bytes.
  lemma NotBehind(cmds: seq<seq<Bytes>>, capacity: nat, v: Snapshot, created: nat)
    requires AllSupported(cmds, capacity) && Good(cmds, capacity, v) && |v.queue| < PIPELINE_LIMIT
    requires NeededOk(cmds, created, v.arrived)
    ensures created <= v.created
  {
    hide AllSupported, Forwarded, Text, MaximalOk, SettledOk, ReadOk, RoomOk, AwakeOk, SeenOk, HeldOk, BaseOk,
         EmptyOk, Off, Mark, NeededOk, Tiled, Taken, SupportedCommand, KindOfCommand;
    if v.created < created {
      CouldCreate(cmds, capacity, created, v.arrived, v.created);
      if BackComplete(v.queue) {
        NotExhausted(cmds, capacity, v);
      } else {
        NotMaximal(cmds, capacity, v);
      }
    }
  }

  lemma NotExhausted(cmds: seq<seq<Bytes>>, capacity: nat, v: Snapshot)
    requires Good(cmds, capacity, v) && |v.queue| < PIPELINE_LIMIT && BackComplete(v.queue)
    requires v.created < |cmds|
    ensures !CanCreate(cmds, v.created, v.arrived)
  {
    hide Forwarded, Text, MaximalOk, ReadOk, RoomOk, AwakeOk, SeenOk, HeldOk, BaseOk, EmptyOk, Off, NeededOk, Taken,
         KindOfCommand, Size;
    if v.queue != [] {
      AtMark(cmds, v.created - 1, |cmds[v.created - 1]|);
    }
    if CanCreate(cmds, v.created, v.arrived) {
      TakenShape(cmds[v.created], KindOfCommand(cmds[v.created]).value, v.arrived - Off(cmds, v.created));
    }
  }

  // Of a command that is not complete some bytes are missing.
  lemma NotMaximal(cmds: seq<seq<Bytes>>, capacity: nat, v: Snapshot)
    requires Good(cmds, capacity, v) && !BackComplete(v.queue)
    ensures 0 < v.created <= |cmds| && v.arrived < Off(cmds, v.created)
  {
    hide Good, Off, Taken, KindOfCommand, Size, NoMore, AllWhole, Mark;
    LastPosition(cmds, capacity, v);
    if Off(cmds, v.created) <= v.arrived {
      LastUnparsed(cmds, capacity, v);
      Waiting(cmds, capacity, v);
      var ws := cmds[v.created - 1];
      WholeCanBeTaken(v.queue[|v.queue| - 1].kind, ws[|ws| - Unparsed(v)..], v.arrived - Position(v));
    }
  }

  lemma LastPosition(cmds: seq<seq<Bytes>>, capacity: nat, v: Snapshot)
    requires Good(cmds, capacity, v) && !BackComplete(v.queue)
    ensures 0 < v.created <= |cmds| && TakenUpTo(cmds, v.created - 1, Unparsed(v), Position(v))
    ensures var ws := cmds[v.created - 1];
            Off(cmds, v.created) == Position(v) + |Concat(ws[|ws| - Unparsed(v)..])|
  {
    hide Forwarded, Text, NeededOk, SeenOk, HeldOk, BaseOk, EmptyOk, ReadOk, KindOfCommand, AwakeOk, RoomOk,
         SettledOk, MaximalOk, Off, SendsOk, Size, CompleteOk;
    EndOfRest(cmds, v.created - 1, |cmds[v.created - 1]| - Unparsed(v));
  }

  lemma EndOfRest(cmds: seq<seq<Bytes>>, i: nat, m: nat)
    requires i < |cmds| && m <= |cmds[i]|
    ensures Off(cmds, i + 1) == Mark(cmds, i, m) + |Concat(cmds[i][m..])|
  {
    hide Off, ArrayPrefix;
    AtMark(cmds, i, m);
    SizeAll(cmds[i]);
    ConcatSplit(cmds[i], m);
    assert cmds[i][..|cmds[i]|] == cmds[i];
  }

  // How the bytes were cut, and when what completed, does not matter: two
  // connections that have received the same number of bytes of the same pipeline
  // have created the same commands and parsed just as far, unless one of them
  // holds back because its pipeline is full.
  lemma CutDoesNotMatter(cmds: seq<seq<Bytes>>, capacity: nat, capacity': nat, v: Snapshot, w: Snapshot)
    requires AllSupported(cmds, capacity) && AllSupported(cmds, capacity')
    requires Good(cmds, capacity, v) && Good(cmds, capacity', w) && v.arrived == w.arrived
    requires |v.queue| < PIPELINE_LIMIT && |w.queue| < PIPELINE_LIMIT
    ensures v.created == w.created && Position(v) == Position(w)
  {
    hide AllSupported, Framed, Good;
    Parts(cmds, capacity, v);
    Parts(cmds, capacity', w);
    NotBehind(cmds, capacity, v, w.created);
    NotBehind(cmds, capacity', w, v.created);
    NotFurther(cmds, capacity, capacity', v, w);
    NotFurther(cmds, capacity', capacity, w, v);
  }

  lemma Parts(cmds: seq<seq<Bytes>>, capacity: nat, v: Snapshot)
    requires Good(cmds, capacity, v)
    ensures Framed(cmds, v) && Settled(cmds, capacity, v)
  {
    hide Framed, Settled;
  }

  lemma PositionIs(cmds: seq<seq<Bytes>>, capacity: nat, v: Snapshot)
    requires Good(cmds, capacity, v) && 0 < v.created <= |cmds|
    ensures TakenUpTo(cmds, v.created - 1, Unparsed(v), Position(v))
  {
    hide Forwarded, Text, ReadOk, RoomOk, AwakeOk, SeenOk, HeldOk, BaseOk, EmptyOk, SettledOk, Off, NeededOk,
         KindOfCommand, Size, MaximalOk, CompleteOk, SendsOk;
    if v.queue == [] {
      AtMark(cmds, v.created - 1, |cmds[v.created - 1]|);
    }
  }

  lemma NotFurther(cmds: seq<seq<Bytes>>, capacity: nat, capacity': nat, v: Snapshot, w: Snapshot)
    requires AllSupported(cmds, capacity) && Good(cmds, capacity, v) && Good(cmds, capacity', w)
    requires v.arrived == w.arrived && v.created == w.created
    ensures Position(v) <= Position(w)
  {
    hide AllSupported, Framed, Settled, Mark, Good;
    Parts(cmds, capacity, v);
    Bounds(cmds, v);
    if v.created == 0 {
      NoneCreated(cmds, capacity, v);
      NoneCreated(cmds, capacity', w);
    } else {
      PositionIs(cmds, capacity, v);
      PositionIs(cmds, capacity', w);
      TookAsMuch(cmds, capacity, capacity', v, w);
      MarkMonotone(cmds, v.created - 1, |cmds[v.created - 1]| - Unparsed(v), |cmds[v.created - 1]| - Unparsed(w));
    }
  }

  lemma Bounds(cmds: seq<seq<Bytes>>, v: Snapshot)
    requires Framed(cmds, v)
    ensures |v.queue| <= v.created <= |cmds|
  {
    hide Forwarded, Text, CompleteOk, SendsOk, Off;
  }

  lemma NoneCreated(cmds: seq<seq<Bytes>>, capacity: nat, v: Snapshot)
    requires Good(cmds, capacity, v) && v.created == 0
    ensures Position(v) == Off(cmds, 0)
  {
    hide Forwarded, Text, CompleteOk, SendsOk, Off, Settled;
  }

  lemma {:induction false} MarkMonotone(cmds: seq<seq<Bytes>>, i: nat, m: nat, n: nat)
    requires i < |cmds| && m <= n <= |cmds[i]|
    ensures Mark(cmds, i, m) <= Mark(cmds, i, n)
    decreases n
  {
    hide Off, Size;
    if m < n {
      MarkMonotone(cmds, i, m, n - 1);
      BulkAtMark(cmds, i, n - 1);
    }
  }

  // A bulk that one of them has taken, the other one would have taken too.
  lemma TookAsMuch(cmds: seq<seq<Bytes>>, capacity: nat, capacity': nat, v: Snapshot, w: Snapshot)
    requires AllSupported(cmds, capacity) && Good(cmds, capacity, v) && Good(cmds, capacity', w)
    requires v.arrived == w.arrived && v.created == w.created && 0 < v.created <= |cmds|
    ensures Unparsed(w) <= Unparsed(v)
  {
    hide AllSupported, Good, WellTaken;
    Taking(cmds, capacity, v);
    TookAll(cmds, capacity', w, Unparsed(v));
  }

  // What has been taken of command i is there, entirely for DEL; and MSET takes
  // pairs.
  ghost predicate WellTaken(cmds: seq<seq<Bytes>>, i: nat, unparsed: nat, len: nat)
    requires i < |cmds|
  {
    && SeenTaken(cmds, i, unparsed, len)
    && (KindOfCommand(cmds[i]) == Some(Mset) ==> unparsed % 2 == 0)
    && (KindOfCommand(cmds[i]) == Some(Del) ==> Mark(cmds, i, |cmds[i]| - unparsed) <= len)
  }

  // What can be taken has been taken.
  lemma TookAll(cmds: seq<seq<Bytes>>, capacity: nat, w: Snapshot, less: nat)
    requires Good(cmds, capacity, w) && 0 < w.created <= |cmds|
    requires WellTaken(cmds, w.created - 1, less, w.arrived)
    ensures Unparsed(w) <= less
  {
    hide Good, Mark, SeenTaken, HeadersIn, AllWhole, KindOfCommand;
    if less < Unparsed(w) {
      var i := w.created - 1;
      var m := |cmds[i]| - Unparsed(w);
      Waiting(cmds, capacity, w);
      PositionIs(cmds, capacity, w);
      SeenRest(cmds, i, less, Unparsed(w), w.arrived);
      if w.queue[|w.queue| - 1].kind.Del? {
        LessIs(cmds, i, less, w.arrived);
        MarkMonotone(cmds, i, m + 1, |cmds[i]| - less);
        BulkAtMark(cmds, i, m);
      }
    }
  }

  lemma LessIs(cmds: seq<seq<Bytes>>, i: nat, less: nat, len: nat)
    requires i < |cmds| && SeenTaken(cmds, i, less, len)
    ensures less <= |cmds[i]|
  {
  }

  lemma Taking(cmds: seq<seq<Bytes>>, capacity: nat, v: Snapshot)
    requires AllSupported(cmds, capacity) && Good(cmds, capacity, v) && 0 < v.created <= |cmds|
    ensures WellTaken(cmds, v.created - 1, Unparsed(v), v.arrived)
  {
    hide AllSupported, Forwarded, Text, ReadOk, RoomOk, AwakeOk, SettledOk, Off, NeededOk, KindOfCommand, Size,
         MaximalOk, CompleteOk, SendsOk, SeenTaken, AllWhole;
    PositionIs(cmds, capacity, v);
    if v.queue == [] {
      SupportedAt(cmds, capacity, v.created - 1);
      AllSeen(cmds, v.created - 1, v.arrived);
    } else {
      assert KindOfCommand(cmds[v.created - |v.queue| + (|v.queue| - 1)]) == Some(v.queue[|v.queue| - 1].kind);
    }
  }

  // A command that has arrived has all its headers there.
  lemma AllSeen(cmds: seq<seq<Bytes>>, i: nat, len: nat)
    requires i < |cmds| && SupportedCommand(cmds[i]) && Mark(cmds, i, |cmds[i]|) <= len
    ensures SeenTaken(cmds, i, 0, len)
  {
    hide HeadersIn, WholeBulk, Off, ArrayPrefix, Concat;
    var ws := cmds[i];
    assert ws[..|ws|] == ws;
    HeaderThere(ws, len - Off(cmds, i) - |ArrayPrefix(|ws|)|, |ws| - 1);
  }

  // Headers among those that are there that the other one has not taken.
  lemma SeenRest(cmds: seq<seq<Bytes>>, i: nat, less: nat, more: nat, len: nat)
    requires i < |cmds| && less < more <= |cmds[i]| && SeenTaken(cmds, i, less, len)
    ensures var m := |cmds[i]| - more;
            && Mark(cmds, i, m) <= len && AllWhole(cmds[i][m..])
            && HeadersIn(cmds[i][m..], len - Mark(cmds, i, m)) >= more - less
  {
    hide HeadersIn, AllWhole, Off, ArrayPrefix, Concat;
    var ws := cmds[i];
    var k := len - Off(cmds, i) - |ArrayPrefix(|ws|)|;
    HeadersInExact(ws, k, |ws| - more);
    RestHeaders(ws, |ws| - more, k);
  }
}
