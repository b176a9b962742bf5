/**
 The client connection's query handlers over a real read buffer: reads, command
 creation, streaming of long queries, and the locks in between.
 */
module ClientConn {
  import opened Resp
  import opened Net
  import opened Framing
  import opened ClientQuery
  import opened QueryProgress
  import opened ClientSteps
  import opened UsableBytes
  import opened ClientRuns
  import opened ClientStops
  import B = ReadBuffer

  // `CreateCommand`, with its scans.
  method MakeCommand(buf: Bytes, capacity: nat) returns (r: Create)
    requires buf != []
    ensures r == CreateCommand(buf, capacity)
  {
    hide ParseArray, ParseBulk, KindOf, FromArray;
    var p := 0;
    while p < |buf| && buf[p] != '\n'
      invariant 0 <= p <= |buf|
      invariant forall i :: 0 <= i < p ==> buf[i] != '\n'
    {
      p := p + 1;
    }
    if p == |buf| {
      return if |buf| > capacity / 2 then Error else NeedMore;
    }
    assert HasNewLine(buf);
    if buf[0] != '*' {
      return Memcached;
    }
    var view := ScanArray(buf);
    if TotalBulks(buf) == 0 {
      return Error;
    }
    if view.Items() == [] || view.Offset(1) > |buf| {
      return NeedMore;
    }
    var name := view.Item(buf, 0);
    if !WholeBulk(name) {
      return Error;
    }
    match KindOf(Payload(name)) {
      case None => return Error;
      case Some(kind) => return FromArray(view, kind, |buf|);
    }
  }

  // Keys go to at least one endpoint.
  ghost predicate SpreadOk(spread: (Bytes, nat) -> nat) {
    forall t, n :: n > 0 ==> spread(t, n) > 0
  }

  class ClientConnection {
    const buffer: B.ReadBuffer
    const cmds: seq<seq<Bytes>>            // what the client sends, command by command
    const spread: (Bytes, nat) -> nat      // endpoints among the keys of a batch

    var queue: seq<Cmd>                    // active_cmd_queue_
    var created: nat                       // commands created so far
    var reading: bool                      // is_reading_query_
    var eofHolds: nat                      // reads ended by end-of-file keep their lock
    var aborted: bool
    var arrived: nat                       // bytes the client has sent

    ghost function Holds(): nat
      reads this
    {
      (if reading then 1 else 0) + eofHolds
    }

    ghost predicate Core()
      reads this, buffer, buffer.data
    {
      && buffer.Valid()
      && AllSupported(cmds, buffer.data.Length)
      && SpreadOk(spread)
      && buffer.stream <= Text(cmds) && arrived == |buffer.stream|
      && PositionOk(cmds, queue, created, |buffer.stream|, buffer.Q())
      && SendsOk(queue, buffer.locks, Holds())
      && ForwardOk(cmds, queue, created, buffer.stream, buffer.P())
      && NeededOk(cmds, created, |buffer.stream|) && SeenOk(cmds, queue, created, |buffer.stream|)
      && HeldOk(queue, buffer.base) && BaseOk(cmds, buffer.base)
      && RoomOk(buffer.data.Length, reading, buffer.locks, buffer.processed, buffer.received)
    }

    // Everything parsed and received is processed.
    ghost predicate Aligned()
      reads this, buffer
    {
      && buffer.P() == Min(buffer.Q(), |buffer.stream|)
      && CompleteOk(queue, |buffer.stream|, buffer.Q())
      && ReadOk(cmds, queue, created, |buffer.stream|, buffer.Q(), reading)
      && EmptyOk(queue, |buffer.stream|, buffer.Q(), reading, eofHolds, buffer.received)
    }

    ghost predicate Valid()
      reads this, buffer, buffer.data
    {
      !aborted ==> Core() && Aligned() && Done()
    }

    // All that can be made of the bytes at hand has been made, and something is
    // awaited.
    ghost predicate Done()
      reads this, buffer
    {
      && SettledOk(cmds, queue, created, |buffer.stream|, buffer.Q())
      && MaximalOk(cmds, queue, created, |buffer.stream|, buffer.Q())
      && AwakeOk(buffer.data.Length, queue, |buffer.stream|, buffer.Q(), reading, eofHolds, buffer.received)
    }

    constructor (cmds: seq<seq<Bytes>>, capacity: nat, spread: (Bytes, nat) -> nat)
      requires AllSupported(cmds, capacity)
      requires SpreadOk(spread)
      ensures Valid() && fresh(buffer) && fresh(buffer.data)
      ensures this.cmds == cmds && buffer.data.Length == capacity && Starts(Seen())
    {
      var buf := new B.ReadBuffer(capacity);
      buffer := buf;
      this.cmds, this.spread := cmds, spread;
      queue, created, eofHolds, aborted, arrived := [], 0, 0, false, 0;
      reading := true;
      new;
      buf.IncLock();
      assert Encoded(cmds)[..0] == [];
      assert Off(cmds, 0) == 0;
      BoundaryIsFull(cmds, capacity, 0);
    }

    function Seen(): Snapshot
      reads this, buffer
    {
      Snapshot(queue, created, reading, eofHolds, buffer.locks, arrived, buffer.processed, buffer.parsed, buffer.received,
               aborted)
    }

    lemma SeenExact()
      requires Valid()
      ensures Exact(cmds, buffer.data.Length, Seen())
      ensures !aborted ==> Position(Seen()) == buffer.Q()
    {
      hide B.ReadBuffer.InData, AllSupported, Text, PositionOk, SendsOk, ForwardOk, CompleteOk, ReadOk, SettledOk,
           NeededOk, SeenOk, HeldOk, BaseOk, SpreadOk, EmptyOk, MaximalOk, RoomOk, AwakeOk, Tiled, Forwarded;
      if !aborted {
        TilingAt(cmds, queue, created, |buffer.stream|, buffer.Q());
        AllForwarded(cmds, queue, created, buffer.stream, buffer.Q());
        OthersComplete(cmds, queue, created, |buffer.stream|, buffer.Q());
      }
    }

    // How much of what the client has sent is processed.
    function Processed(): nat
      reads this, buffer
    {
      if buffer.received <= arrived + buffer.processed then arrived - buffer.received + buffer.processed else 0
    }

    // An unlocked buffer has been recycled.
    lemma EmptyIfUnlocked()
      requires Core() && Aligned() && buffer.locks == 0
      ensures EmptyOk(queue, |buffer.stream|, buffer.Q(), true, eofHolds, buffer.received)
    {
      hide B.ReadBuffer.InData, AllSupported, Text, PositionOk, SendsOk, ForwardOk, CompleteOk, ReadOk, NeededOk,
           SeenOk, HeldOk, BaseOk, SpreadOk, EmptyOk, B.Tidy;
      EmptyUnlocked(buffer.data.Length, queue, |buffer.stream|, buffer.base, buffer.processed, buffer.parsed,
                    buffer.received, eofHolds);
    }

    // ---------- reading ----------

    method TryReadMoreQuery()
      requires Core() && Aligned()
      requires ReadOk(cmds, queue, created, |buffer.stream|, buffer.Q(), true)
      requires EmptyOk(queue, |buffer.stream|, buffer.Q(), true, eofHolds, buffer.received)
      modifies this`reading, buffer`locks
      ensures Core() && Aligned() && reading == (old(reading) || buffer.HasMuchFreeSpace())
      ensures buffer.locks == old(buffer.locks) + (if reading && !old(reading) then 1 else 0)
    {
      hide B.ReadBuffer.InData, AllSupported, Supported, Text, PositionOk, SendsOk, ForwardOk, CompleteOk, ReadOk,
           NeededOk, SeenOk, HeldOk, BaseOk, SpreadOk, EmptyOk, RoomOk;
      if reading || !buffer.HasMuchFreeSpace() {
        return;
      }
      OneMoreHold(queue, buffer.locks, Holds());
      RoomRead(buffer.data.Length, buffer.locks, buffer.processed, buffer.received);
      reading := true;
      buffer.IncLock();
    }

    // ---------- creating commands ----------

    ghost predicate ParsingComplete()
      reads this
    {
      queue == [] || queue[|queue| - 1].unparsed == 0
    }

    // The last command is there entirely, or the part that is there is being sent.
    ghost predicate Started()
      reads this, buffer
    {
      buffer.Q() <= |buffer.stream| || (queue != [] && queue[|queue| - 1].sends > 0)
    }

    method ProcessUnparsedQuery()
      requires Core() && Aligned() && ParsingComplete() && Started()
      requires queue != [] || buffer.UnparsedBytes() > 0
      modifies this`queue, this`created, this`reading, buffer, buffer.data
      ensures Core() && Aligned() && Done()
      ensures buffer.stream == old(buffer.stream)
      ensures Appended(cmds, old(queue), old(created), queue, created, |buffer.stream|)
      ensures B.Shifted(buffer.data.Length, old(buffer.base), buffer.base, |buffer.stream|)
    {
      hide Core, Aligned, Done, Appended, B.Shifted;
      AppendedSame(cmds, queue, created, |buffer.stream|);
      B.NotShifted(buffer.data.Length, buffer.base, |buffer.stream|);
      while |queue| < PIPELINE_LIMIT && buffer.UnparsedBytes() > 0
        invariant Core() && Aligned() && ParsingComplete() && Started()
        invariant queue != [] || buffer.UnparsedBytes() > 0
        invariant buffer.stream == old(buffer.stream)
        invariant Appended(cmds, old(queue), old(created), queue, created, |buffer.stream|)
        invariant B.Shifted(buffer.data.Length, old(buffer.base), buffer.base, |buffer.stream|)
        decreases Uncreated(cmds, created)
      {
        ghost var queue0, created0, base0 := queue, created, buffer.base;
        var goOn := CreateNext();
        B.ShiftedTwice(buffer.data.Length, old(buffer.base), base0, buffer.base, |buffer.stream|);
        if |queue0| < |queue| {
          AppendedOne(cmds, old(queue), old(created), queue0, created0, |buffer.stream|, queue[|queue| - 1]);
        }
        if !goOn {
          return;
        }
      }
      NothingToTake();
    }

    // The next command is created, if enough of it is there, and starts sending.
    method CreateNext() returns (goOn: bool)
      requires Core() && Aligned() && ParsingComplete() && Started()
      requires |queue| < PIPELINE_LIMIT && buffer.UnparsedBytes() > 0
      modifies this`queue, this`created, this`reading, buffer, buffer.data
      ensures Core() && Aligned() && buffer.stream == old(buffer.stream)
      ensures B.Shifted(buffer.data.Length, old(buffer.base), buffer.base, |buffer.stream|)
      ensures if |old(queue)| < |queue|
              then && queue == old(queue) + [queue[|queue| - 1]] && created == old(created) + 1 <= |cmds|
                   && IsNew(cmds, old(created), queue[|queue| - 1], |buffer.stream|)
              else queue == old(queue) && created == old(created)
      ensures if goOn then ParsingComplete() && Started() && |old(queue)| < |queue| else Done()
    {
      hide B.ReadBuffer.InData, AllSupported, Supported, Text, PositionOk, SendsOk, ForwardOk, CompleteOk, ReadOk,
           CreateCommand, Taken, Off, Size, AllWhole, KindOfCommand, NeededOk, SeenOk, HeldOk, BaseOk, SpreadOk,
           EmptyOk, RoomOk, AwakeOk, MaximalOk, SettledOk, IsNew, B.Shifted;
      NextCommand(cmds, queue, created, buffer.stream, buffer.Q(), buffer.data.Length);
      var buf := buffer.ReceivedData();
      var r := MakeCommand(buf, buffer.data.Length);
      if r.NeedMore? {
        B.NotShifted(buffer.data.Length, buffer.base, |buffer.stream|);
        ExhaustedRead(cmds, queue, created, |buffer.stream|, buffer.Q());
        EmptyBehind(queue, |buffer.stream|, buffer.Q(), eofHolds, buffer.received);
        TryReadMoreQuery();
        MaximalParsed(cmds, queue, created, |buffer.stream|, buffer.Q());
        NotResting(buffer.data.Length, queue, |buffer.stream|, buffer.Q(), reading, eofHolds, buffer.received);
        return false;
      }
      NotReading(cmds, queue, created, |buffer.stream|, buffer.Q(), reading);
      StartCommand(r.kind, r.taken, r.size, r.unparsed, buf);
      goOn := !(buffer.ParsedUnreceivedBytes() > 0 || queue[|queue| - 1].unparsed > 0);
      if !goOn {
        IncompleteSettled(cmds, queue, created, |buffer.stream|, buffer.Q());
        NotResting(buffer.data.Length, queue, |buffer.stream|, buffer.Q(), reading, eofHolds, buffer.received);
      }
    }

    // The pipeline is full, or all bytes are parsed.
    lemma NothingToTake()
      requires Core() && Aligned() && ParsingComplete() && Started() && queue != []
      requires |queue| >= PIPELINE_LIMIT || buffer.UnparsedBytes() == 0
      ensures Done()
    {
      hide B.ReadBuffer.InData, AllSupported, Text, PositionOk, SendsOk, ForwardOk, CompleteOk, ReadOk, NeededOk,
           SeenOk, HeldOk, BaseOk, SpreadOk, EmptyOk, RoomOk, AwakeOk, MaximalOk, SettledOk;
      NothingUnparsed(cmds, queue, created, |buffer.stream|, buffer.Q());
      MaximalParsed(cmds, queue, created, |buffer.stream|, buffer.Q());
      if buffer.Q() <= |buffer.stream| {
        CompleteAwake(cmds, queue, created, |buffer.stream|, buffer.Q());
      }
      NotResting(buffer.data.Length, queue, |buffer.stream|, buffer.Q(), reading, eofHolds, buffer.received);
    }

    // The query side of a new command: its locks, and the slice it sends.
    method NewCommand(kind: Kind, taken: nat, size: nat, unparsed: nat, buf: Bytes) returns (c: Cmd)
      requires buffer.Valid() && buffer.P() == buffer.Q() < |buffer.stream| && arrived == |buffer.stream|
      requires SpreadOk(spread)
      requires kind in {Mget, Mset, Del} ==> KeyCount(kind, taken) > 0
      modifies buffer`locks, buffer`parsed
      ensures buffer.Valid() && buffer.P() <= buffer.Q() == old(buffer.Q()) + size
      ensures buffer.locks == old(buffer.locks) + c.sends && SendOk(c)
      ensures c.kind == kind && c.unparsed == unparsed && !c.error && c.from == buffer.P() && c.awaiting == 0
      ensures (Single(kind) ==> c.sends == 1 && c.tail) && (c.sends == 0 <==> kind.Stats?)
      ensures c.recvComplete == match kind
                                case Set => buffer.Q() <= |buffer.stream| && unparsed == 0
                                case Mset => buffer.Q() <= |buffer.stream| && unparsed == 0
                                case Del => unparsed == 0
                                case _ => true
      ensures Single(kind) ==> c.forwarded == buffer.stream[buffer.P()..Min(buffer.Q(), |buffer.stream|)]
    {
      hide B.ReadBuffer.InData;
      var sends: nat := 0;
      if kind in {Mget, Mset, Del} {
        sends := spread(buf, KeyCount(kind, taken));
        buffer.AddLocks(sends);
      }
      buffer.UpdateParsed(size);
      var complete := match kind
        case Set => buffer.ParsedUnreceivedBytes() == 0 && unparsed == 0
        case Mset => buffer.ParsedUnreceivedBytes() == 0 && unparsed == 0
        case Del => unparsed == 0
        case _ => true;
      var slice: Bytes := [];
      if Single(kind) {
        sends := 1;
        buffer.IncLock();
        slice := buffer.UnprocessedData();
      }
      c := Cmd(kind, unparsed, complete, sends, Single(kind) || kind.Mset?, false, slice, Processed(), 0);
    }

    // The command is pushed and starts sending what is there of it: a slice of
    // the buffer for a single-key command, one subquery per endpoint otherwise.
    method StartCommand(kind: Kind, taken: nat, size: nat, unparsed: nat, buf: Bytes)
      requires Core() && Aligned() && ParsingComplete() && !reading
      requires |queue| < PIPELINE_LIMIT && created < |cmds| && BackComplete(queue)
      requires buffer.Q() == Off(cmds, created) < |buffer.stream| && SupportedCommand(cmds[created])
      requires var ws := cmds[created];
               && kind == KindOfCommand(ws).value && taken == Taken(ws, kind, |buffer.stream| - buffer.Q()) > 0
               && size == Size(ws, taken) && unparsed == |ws| - taken
      modifies this`queue, this`created, buffer, buffer.data
      ensures Core() && Aligned() && created == old(created) + 1
      ensures |queue| == |old(queue)| + 1 && queue == old(queue) + [queue[|queue| - 1]]
      ensures IsNew(cmds, old(created), queue[|queue| - 1], |buffer.stream|)
      ensures MaximalOk(cmds, queue, created, |buffer.stream|, buffer.Q())
      ensures buffer.stream == old(buffer.stream) && queue[|queue| - 1].unparsed == unparsed
      ensures unparsed > 0 || buffer.ParsedUnreceivedBytes() > 0 ==> queue[|queue| - 1].sends > 0
      ensures B.Shifted(buffer.data.Length, old(buffer.base), buffer.base, |buffer.stream|)
    {
      hide B.ReadBuffer.InData, AllSupported, SupportedCommand, Text, PositionOk, SendsOk, ForwardOk, CompleteOk,
           ReadOk, CreateCommand, Taken, Off, Size, AllWhole, KindOfCommand, MaximalOk, B.Tidy, SeenOk, HeldOk,
           BaseOk, SpreadOk, EmptyOk, NeededOk, RoomOk, CanCreate, B.ReadBuffer.Compacted;
      NeededNew(cmds, created, |buffer.stream|);
      KeysTaken(cmds[created], |buffer.stream| - buffer.Q());
      var c := NewCommand(kind, taken, size, unparsed, buf);
      AtMark(cmds, created, taken);
      StartMoves(cmds, queue, created, buffer.stream, buffer.Q(), old(buffer.locks), Holds(), c);
      HeldNew(queue, buffer.base, c);
      queue := queue + [c];
      created := created + 1;
      CatchUp();
    }

    // A command has been pushed, and its bytes are still to be counted as processed.
    ghost predicate Pushed()
      reads this, buffer, buffer.data
    {
      && buffer.Valid() && AllSupported(cmds, buffer.data.Length) && SpreadOk(spread)
      && buffer.stream <= Text(cmds) && arrived == |buffer.stream| && !reading
      && PositionOk(cmds, queue, created, |buffer.stream|, buffer.Q()) && SendsOk(queue, buffer.locks, Holds())
      && ForwardOk(cmds, queue, created, buffer.stream, Min(buffer.Q(), |buffer.stream|))
      && CompleteOk(queue, |buffer.stream|, buffer.Q())
      && ReadOk(cmds, queue, created, |buffer.stream|, buffer.Q(), false)
      && NeededOk(cmds, created, |buffer.stream|) && SeenOk(cmds, queue, created, |buffer.stream|)
      && HeldOk(queue, buffer.base) && BaseOk(cmds, buffer.base)
    }

    method CatchUp()
      requires Pushed() && buffer.P() <= Min(buffer.Q(), |buffer.stream|)
      modifies buffer`processed, buffer`received, buffer`parsed, buffer`base, buffer.data
      ensures Core() && Aligned() && buffer.Q() == old(buffer.Q())
      ensures B.Shifted(buffer.data.Length, old(buffer.base), buffer.base, |buffer.stream|)
    {
      hide B.ReadBuffer.InData, AllSupported, Text, PositionOk, SendsOk, ForwardOk, CompleteOk, ReadOk, B.Tidy, SeenOk,
           HeldOk, BaseOk, SpreadOk, EmptyOk, NeededOk, RoomOk, B.ReadBuffer.Compacted;
      ghost var base := buffer.base;
      UsedIsFull(cmds, buffer.data.Length, queue, created, |buffer.stream|, buffer.Q());
      buffer.ProcessParsed();
      HeldMoved(queue, base, buffer.base, buffer.locks, Holds());
      RoomLeft(buffer.data.Length, buffer.locks, buffer.processed, buffer.received);
      EmptyNoRead(queue, |buffer.stream|, buffer.Q(), eofHolds, buffer.received);
    }

    // ---------- more of the last command ----------

    // After a read, before its bytes are looked at.
    ghost predicate Fresh()
      reads this, buffer, buffer.data
    {
      && Core() && !reading
      && (BackComplete(queue) ==> buffer.P() == buffer.Q() && CompleteOk(queue, |buffer.stream|, buffer.Q()))
      && (!BackComplete(queue) ==>
            && FreshBack(cmds, queue[|queue| - 1], created, |buffer.stream|, buffer.P(), buffer.Q()))
    }

    method Receive(bytes: Bytes)
      requires Valid() && !aborted && reading
      requires bytes != [] && |bytes| <= buffer.FreeSpace() && buffer.stream + bytes <= Text(cmds)
      modifies this`reading, this`arrived, buffer, buffer.data
      ensures Fresh() && buffer.stream == old(buffer.stream) + bytes
      ensures buffer.Q() == old(buffer.Q()) && buffer.P() == old(buffer.P())
      ensures queue == [] ==> buffer.UnparsedBytes() > 0
      ensures B.Shifted(buffer.data.Length, old(buffer.base), buffer.base, |buffer.stream|)
    {
      hide B.ReadBuffer.InData, AllSupported, Text, PositionOk, SendsOk, ForwardOk, CompleteOk, ReadOk, SettledOk,
           FreshBack, NeededOk, SeenOk, HeldOk, BaseOk, SpreadOk, EmptyOk, MaximalOk, AwakeOk, B.Tidy;
      UsedIsFull(cmds, buffer.data.Length, queue, created, |buffer.stream|, buffer.Q());
      BeforeRead(cmds, queue, created, |buffer.stream|, buffer.Q(), |buffer.stream| + |bytes|);
      ReceivedPosition(cmds, queue, created, |buffer.stream|, |buffer.stream| + |bytes|, buffer.Q());
      NeededGrows(cmds, created, |buffer.stream|, |buffer.stream| + |bytes|);
      SeenGrows(cmds, queue, created, |buffer.stream|, |buffer.stream| + |bytes|);
      ForwardGrows(cmds, queue, created, buffer.stream, bytes, buffer.P());
      OneLessHold(queue, buffer.locks, Holds());
      reading := false;
      arrived := arrived + |bytes|;
      buffer.UpdateReceived(bytes);
      ghost var base := buffer.base;
      buffer.DecLock();
      HeldMoved(queue, base, buffer.base, buffer.locks, Holds());
    }

    // One more bulk of the last command is parsed.
    method TakeBulk(total: nat)
      requires !BackComplete(queue) && queue[|queue| - 1].kind.Set? && queue[|queue| - 1].unparsed > 0 && total > 0
      requires 1 <= created <= |cmds| && queue[|queue| - 1].unparsed <= |cmds[created - 1]|
      requires buffer.Q() + total == Mark(cmds, created - 1, |cmds[created - 1]| - (queue[|queue| - 1].unparsed - 1))
      requires HeaderAt(cmds, created - 1, |cmds[created - 1]| - queue[|queue| - 1].unparsed, |buffer.stream|)
      requires Fresh()
      modifies this`queue, buffer`parsed
      ensures Fresh() && !BackComplete(queue) && LastExtended(old(queue), queue, buffer.P()) && queue[|queue| - 1].kind.Set?
      ensures queue[|queue| - 1].unparsed == old(queue[|queue| - 1].unparsed) - 1
    {
      hide B.ReadBuffer.InData, AllSupported, Text, PositionOk, SendsOk, ForwardOk, CompleteOk, FreshBack, Off, Size,
           Mark, KindOfCommand, NeededOk, SeenOk, HeldOk, BaseOk, SpreadOk, EmptyOk, RoomOk;
      ghost var len, p, q := |buffer.stream|, buffer.P(), buffer.Q();
      var i := |queue| - 1;
      var c := queue[i].(unparsed := queue[i].unparsed - 1);
      FreshBulk(cmds, queue, created, len, p, q, q + total, c);
      ForwardSame(cmds, queue, created, buffer.stream, p, i, c);
      SendAt(queue, buffer.locks, Holds(), i);
      SendsChange(queue, buffer.locks, Holds(), i, c, buffer.locks);
      LastExtendedBy(queue, c, p);
      OneMoreSeen(cmds, queue, created, len, q, c);
      HeldSame(queue, buffer.base, i, c);
      buffer.UpdateParsed(total);
      queue := queue[i := c];
    }

    // SET and its like parse the bulks that have arrived, whole or not.
    method ParseUnparsedPart()
      requires Fresh() && !BackComplete(queue)
      modifies this`queue, buffer`parsed
      ensures Fresh() && !BackComplete(queue) && LastExtended(old(queue), queue, buffer.P())
      ensures queue[|queue| - 1].kind.Set? ==> MaximalOk(cmds, queue, created, |buffer.stream|, buffer.Q())
      ensures old(queue[|queue| - 1].kind.Set? && MaximalOk(cmds, queue, created, |buffer.stream|, buffer.Q())) ==>
                queue == old(queue) && buffer.parsed == old(buffer.parsed)
    {
      hide B.ReadBuffer.InData, AllSupported, Supported, Text, PositionOk, SendsOk, ForwardOk, CompleteOk, ReadOk,
           SettledOk, FreshBack, ParseBulk, Off, Size, AllWhole, KindOfCommand, BackOk, NeededOk, SeenOk, HeldOk,
           BaseOk, SpreadOk, EmptyOk, RoomOk, MaximalOk;
      LastExtendedSame(queue, buffer.P());
      if !queue[|queue| - 1].kind.Set? {
        return;
      }
      while queue[|queue| - 1].unparsed > 0 && buffer.UnparsedBytes() > 0
        invariant Fresh() && !BackComplete(queue) && LastExtended(old(queue), queue, buffer.P())
        invariant queue[|queue| - 1].kind.Set?
        invariant old(MaximalOk(cmds, queue, created, |buffer.stream|, buffer.Q())) ==>
                    queue == old(queue) && buffer.parsed == old(buffer.parsed)
        decreases queue[|queue| - 1].unparsed
      {
        var text := buffer.UnparsedData();
        NextBulk(cmds, queue, created, buffer.stream, buffer.Q(), buffer.data.Length);
        HeaderMissing(cmds, queue, created, buffer.stream, buffer.Q());
        var present, total := ScanBulk(text);
        if present < 0 {
          // aborts the client; never reached with well-formed commands
          assert false;
        }
        if present == 0 {
          return;
        }
        ghost var before := queue;
        TakeBulk(total);
        LastExtendedTwice(old(queue), before, queue, buffer.P(), buffer.P());
      }
      NothingLeft(cmds, queue, created, buffer.stream, buffer.Q(), buffer.data.Length);
    }

    // The newly parsed or received part of the last command is sent on, unless
    // its backend failed: then it is skipped, and `noCallback` says that
    // nothing else will ask for the rest of it.
    method ContinueCommand(c: Cmd) returns (c': Cmd, noCallback: bool)
      requires buffer.Valid() && buffer.P() <= Min(buffer.Q(), |buffer.stream|) && SendOk(c) && arrived == |buffer.stream|
      requires (c.kind.Set? || c.kind.Mset?) && (c.error || !c.tail)
      modifies buffer`locks, buffer`processed, buffer`received, buffer`parsed, buffer`base, buffer.data
      ensures buffer.Valid() && SendOk(c') && buffer.locks + c.sends == old(buffer.locks) + c'.sends
      ensures buffer.Q() == old(buffer.Q()) && buffer.P() == Min(buffer.Q(), |buffer.stream|)
      ensures c'.kind == c.kind && c'.unparsed == c.unparsed && c'.error == c.error
      ensures c'.recvComplete <==> c'.unparsed == 0 && buffer.Q() <= |buffer.stream|
      ensures c.kind.Set? && !c.error ==> c'.forwarded == c.forwarded + buffer.stream[old(buffer.P())..buffer.P()]
      ensures noCallback ==> c'.error && !c'.recvComplete
      ensures buffer.locks > 0 ==> buffer.base == old(buffer.base)
      ensures B.Shifted(buffer.data.Length, old(buffer.base), buffer.base, |buffer.stream|)
      ensures buffer.base == old(buffer.base) || buffer.base == buffer.P()
      ensures !c.recvComplete ==> Extended(c, c', old(buffer.P()))
      ensures c'.from == c.from || c'.from == old(buffer.P())
      ensures c'.sends > 0 && c.sends == 0 ==> c'.from == old(buffer.P())
      ensures !c.error ==> c'.sends > 0
      ensures c.error && buffer.Q() > |buffer.stream| ==> noCallback
      ensures buffer.locks == 0 ==> B.Tidy(buffer.data.Length, buffer.processed, buffer.received)
    {
      hide B.ReadBuffer.InData, B.ReadBuffer.Compacted, B.Tidy, B.Shifted, SendOk, Extended, Continued;
      var tailComplete := buffer.ParsedUnreceivedBytes() == 0;
      var complete := tailComplete && c.unparsed == 0;
      if c.error {
        Skipped(c, complete, buffer.P());
        c' := c.(recvComplete := complete);
        noCallback := !(if c.kind.Set? then complete else tailComplete);
      } else {
        assert !c.tail;  // MSET asserts that its tail is waiting for more of the query
        var slice := buffer.UnprocessedData();
        buffer.IncLock();
        SentOn(c, complete, slice, buffer.P());
        c' := Continued(c, complete, slice, Processed());
        noCallback := false;
      }
      buffer.ProcessParsed();
    }

    method ContinueWriteQuery() returns (noCallback: bool)
      requires Fresh() && !BackComplete(queue) && buffer.P() < buffer.Q()
      modifies this`queue, buffer, buffer.data
      ensures Core() && Aligned() && !reading && queue != [] && LastExtended(old(queue), queue, old(buffer.P()))
      ensures B.Shifted(buffer.data.Length, old(buffer.base), buffer.base, |buffer.stream|)
      ensures queue[|queue| - 1].kind == old(queue[|queue| - 1].kind)
      ensures noCallback ==> queue[|queue| - 1].error && !queue[|queue| - 1].recvComplete
      ensures !noCallback && buffer.Q() > |buffer.stream| ==> queue[|queue| - 1].sends > 0
      ensures queue[|queue| - 1].error || queue[|queue| - 1].sends > 0
      ensures buffer.stream == old(buffer.stream) && buffer.Q() == old(buffer.Q())
      ensures queue[|queue| - 1].unparsed == old(queue[|queue| - 1].unparsed)
      ensures old(MaximalOk(cmds, queue, created, |buffer.stream|, buffer.Q())) ==>
                MaximalOk(cmds, queue, created, |buffer.stream|, buffer.Q())
    {
      hide B.ReadBuffer.InData, AllSupported, Text, PositionOk, SendsOk, ForwardOk, CompleteOk, ReadOk, SettledOk,
           Off, Mark, SendOk, NeededOk, SeenOk, HeldOk, BaseOk, SpreadOk, EmptyOk, B.Tidy, MaximalOk, RoomOk,
           LastExtended, Extended, B.Shifted, KindOfCommand;
      var i := |queue| - 1;
      ghost var locks, p, q, base := buffer.locks, buffer.P(), buffer.Q(), buffer.base;
      SendAt(queue, locks, Holds(), i);
      LastCommand(cmds, queue, created, |buffer.stream|, q);
      UsedIsFull(cmds, buffer.data.Length, queue, created, |buffer.stream|, q);
      var c;
      c, noCallback := ContinueCommand(queue[i]);
      LastMoves(cmds, queue, created, buffer.stream, p, q, buffer.P(), q, locks, buffer.locks, Holds(), 0, c);
      RoomLeft(buffer.data.Length, buffer.locks, buffer.processed, buffer.received);
      LastExtendedBy(queue, c, p);
      SeenSame(cmds, queue, created, |buffer.stream|, i, c);
      HeldSame(queue, base, i, c);
      HeldMoved(queue[i := c], base, buffer.base, buffer.locks, Holds());
      if MaximalOk(cmds, queue, created, |buffer.stream|, q) {
        MaximalSame(cmds, queue, created, |buffer.stream|, q, i, c);
      }
      queue := queue[i := c];
      EmptyNoRead(queue, |buffer.stream|, buffer.Q(), eofHolds, buffer.received);
    }

    // One subquery, with its lock, per endpoint of the batch. The process
    // position passes the parse position for a moment, under those locks.
    method BatchCommand(c: Cmd, text: Bytes, parsed: nat, totals: seq<nat>) returns (c': Cmd)
      requires buffer.Valid() && buffer.P() == buffer.Q() <= |buffer.stream| && SendOk(c) && arrived == |buffer.stream|
      requires SpreadOk(spread)
      requires totals != [] && parsed == Sum(totals) && text == buffer.stream[buffer.Q()..]
      requires totals[|totals| - 1] <= parsed && parsed - totals[|totals| - 1] <= |text| && |totals| <= c.unparsed
      requires (c.kind.Mset? && |totals| % 2 == 0) || (c.kind.Del? && parsed <= |text|)
      modifies buffer`locks, buffer`processed, buffer`received, buffer`parsed, buffer`base, buffer.data
      ensures buffer.Valid() && SendOk(c') && buffer.locks + c.sends == old(buffer.locks) + c'.sends
      ensures buffer.Q() == old(buffer.Q()) + parsed && buffer.P() == Min(buffer.Q(), |buffer.stream|)
      ensures c'.kind == c.kind && c'.unparsed == c.unparsed - |totals|
      ensures c'.recvComplete <==> c'.unparsed == 0 && buffer.Q() <= |buffer.stream|
      ensures buffer.locks > 0 && buffer.base == old(buffer.base) && c'.sends > 0
      ensures !c.recvComplete ==> Extended(c, c', old(buffer.P()))
      ensures c'.from == if c.sends == 0 then old(buffer.P()) else c.from
    {
      hide B.ReadBuffer.InData, B.ReadBuffer.Compacted;
      var from := if c.sends == 0 then Processed() else c.from;
      var sends := spread(text, if c.kind.Mset? then |totals| / 2 else |totals|);
      buffer.AddLocks(sends);
      var last := totals[|totals| - 1];
      var toProcess := parsed - last + Min(|text| - (parsed - last), last);
      buffer.UpdateProcessedBytes(toProcess);
      buffer.UpdateParsed(parsed);
      var unparsed := c.unparsed - |totals|;
      var complete := unparsed == 0 && (c.kind.Del? || buffer.ParsedUnreceivedBytes() == 0);
      c' := c.(unparsed := unparsed, recvComplete := complete, sends := c.sends + sends,
               tail := c.kind.Mset?, error := c.error && !c.kind.Mset?, from := from);
    }

    method TakeBatch(text: Bytes, parsed: nat, totals: seq<nat>)
      requires Core() && Aligned() && !reading && queue != [] && totals != []
      requires var c := queue[|queue| - 1];
               && created >= 1 && BatchOk(cmds, created - 1, c.unparsed, |buffer.stream|, buffer.Q(), totals)
               && parsed == Sum(totals) && text == buffer.stream[buffer.Q()..] && buffer.Q() <= |buffer.stream|
               && ((c.kind.Mset? && |totals| % 2 == 0) || (c.kind.Del? && parsed <= |text|))
      requires !queue[|queue| - 1].recvComplete
      requires BatchSize(cmds, created - 1, queue[|queue| - 1], |buffer.stream| - buffer.Q(), |totals|)
      modifies this`queue, buffer, buffer.data
      ensures Core() && Aligned() && LastExtended(old(queue), queue, old(buffer.P())) && buffer.base == old(buffer.base)
      ensures buffer.stream == old(buffer.stream) && queue[|queue| - 1].sends > 0
      ensures queue[|queue| - 1].unparsed > 0 ==> SettledOk(cmds, queue, created, |buffer.stream|, buffer.Q())
      ensures MaximalOk(cmds, queue, created, |buffer.stream|, buffer.Q())
      ensures queue[|queue| - 1].unparsed == old(queue[|queue| - 1].unparsed) - |totals|
    {
      hide B.ReadBuffer.InData, AllSupported, Text, PositionOk, SendsOk, ForwardOk, CompleteOk, ReadOk, SettledOk,
           Off, Mark, SendOk, Sum, NeededOk, SeenOk, HeldOk, BaseOk, SpreadOk, EmptyOk, MaximalOk, BatchSize;
      var i := |queue| - 1;
      ghost var locks, q := buffer.locks, buffer.Q();
      SendAt(queue, locks, Holds(), i);
      var c := BatchCommand(queue[i], text, parsed, totals);
      BatchMoves(cmds, queue, created, buffer.stream, q, totals, locks, buffer.locks, Holds(), c);
      LastExtendedBy(queue, c, q);
      BatchIsSeen(cmds, queue, created, |buffer.stream|, q, |totals|, c);
      HeldSame(queue, buffer.base, i, c);
      BatchLeavesNothing(cmds, queue, created, |buffer.stream|, q, totals, c);
      queue := queue[i := c];
      EmptyNoRead(queue, |buffer.stream|, buffer.Q(), eofHolds, buffer.received);
      if c.unparsed > 0 {
        IncompleteSettled(cmds, queue, created, |buffer.stream|, buffer.Q());
      }
    }

    // The bulks of the next batch: for MSET an odd one out waits, and so does
    // a key of DEL that is not there entirely.
    method NextBatch() returns (text: Bytes, parsed: nat, totals: seq<nat>)
      requires Core() && queue != [] && buffer.Q() <= |buffer.stream|
      requires queue[|queue| - 1].kind.Mset? || queue[|queue| - 1].kind.Del?
      ensures text == buffer.stream[buffer.Q()..] && parsed == Sum(totals)
      ensures created >= 1
      ensures BatchOk(cmds, created - 1, queue[|queue| - 1].unparsed, |buffer.stream|, buffer.Q(), totals)
      ensures if queue[|queue| - 1].kind.Mset? then |totals| % 2 == 0 else parsed <= |text|
      ensures BatchSize(cmds, created - 1, queue[|queue| - 1], |buffer.stream| - buffer.Q(), |totals|)
    {
      hide B.ReadBuffer.InData, AllSupported, Text, PositionOk, SendsOk, ForwardOk, CompleteOk, ReadOk, SettledOk,
           Off, ParseItems, AllWhole, KindOfCommand, Supported, BackOk, Mark, BatchOk, NeededOk, SeenOk, HeldOk,
           BaseOk, SpreadOk, EmptyOk, RoomOk;
      var c := queue[|queue| - 1];
      text := buffer.UnparsedData();
      NextItems(cmds, queue, created, buffer.stream, buffer.Q(), buffer.data.Length);
      var size;
      size, totals := ParseBulkItems(text, c.unparsed);
      if size < 0 {
        // aborts the client; never reached with well-formed commands
        assert false;
      }
      FoundItems(cmds, queue, created, buffer.stream, buffer.Q(), buffer.data.Length, totals);
      FoundAll(cmds, queue, created, buffer.stream, buffer.Q(), buffer.data.Length, totals);
      parsed := size;
      if totals != [] && (if c.kind.Mset? then |totals| % 2 == 1 else parsed > |text|) {
        OneFewer(cmds, queue, created, buffer.stream, buffer.Q(), buffer.data.Length, totals);
        parsed := parsed - totals[|totals| - 1];
        totals := totals[..|totals| - 1];
      }
    }

    // Nothing can be taken of the bulks to come: more is read if the buffer is not
    // locked.
    method AwaitBulks()
      requires Core() && Aligned() && queue != [] && queue[|queue| - 1].unparsed > 0
      requires MaximalOk(cmds, queue, created, |buffer.stream|, buffer.Q())
      modifies this`reading, buffer`locks
      ensures Core() && Aligned() && Done()
    {
      hide B.ReadBuffer.InData, AllSupported, Text, PositionOk, SendsOk, ForwardOk, CompleteOk, ReadOk, SettledOk,
           NeededOk, SeenOk, HeldOk, BaseOk, SpreadOk, EmptyOk, RoomOk, AwakeOk, MaximalOk;
      if buffer.locks == 0 {
        UnlockedRead(cmds, queue, created, |buffer.stream|, buffer.Q(), buffer.locks, Holds());
        EmptyIfUnlocked();
        TryReadMoreQuery();
      }
      IncompleteSettled(cmds, queue, created, |buffer.stream|, buffer.Q());
      LockedRests(buffer.data.Length, queue, |buffer.stream|, buffer.Q(), reading, eofHolds, buffer.received, buffer.locks);
    }

    // MSET and DEL take the next batch of their bulks: pairs whose value may
    // be partly there, or keys that are there entirely.
    method ProcessUnparsedPart()
      requires Core() && Aligned() && !reading && queue != []
      requires queue[|queue| - 1].unparsed > 0 && buffer.Q() <= |buffer.stream|
      requires queue[|queue| - 1].kind.Set? ==> MaximalOk(cmds, queue, created, |buffer.stream|, buffer.Q())
      modifies this`queue, this`reading, buffer, buffer.data
      ensures Core() && Aligned() && LastExtended(old(queue), queue, old(buffer.P()))
      ensures buffer.stream == old(buffer.stream) && buffer.base == old(buffer.base)
      ensures queue[|queue| - 1].unparsed > 0 ==> Done()
      ensures Started()
      ensures old(queue[|queue| - 1].kind.Set?) ==> queue == old(queue) && !reading
      ensures var c := old(queue[|queue| - 1]);
              var n := c.unparsed - queue[|queue| - 1].unparsed;
              c.kind.Mset? || c.kind.Del? ==>
                n >= 0 && created >= 1 && BatchSize(cmds, created - 1, c, |buffer.stream| - old(buffer.Q()), n)
    {
      hide B.ReadBuffer.InData, AllSupported, Text, PositionOk, SendsOk, ForwardOk, CompleteOk, ReadOk, SettledOk,
           Off, ParseItems, AllWhole, KindOfCommand, Supported, BackOk, Mark, BatchSize, NeededOk, SeenOk, HeldOk,
           BaseOk, SpreadOk, EmptyOk, RoomOk, AwakeOk, MaximalOk, BatchOk;
      IncompleteSettled(cmds, queue, created, |buffer.stream|, buffer.Q());
      LastExtendedSame(queue, buffer.P());
      var c := queue[|queue| - 1];
      if !c.kind.Mset? && !c.kind.Del? {
        OnlySet(cmds, queue, created, |buffer.stream|, buffer.Q());
        SetRests(buffer.data.Length, queue, |buffer.stream|, buffer.Q(), reading, eofHolds, buffer.received);
        return;
      }
      StillIncomplete(queue, |buffer.stream|, buffer.Q());
      var text, parsed, totals := NextBatch();
      if totals == [] {
        NoBatch(cmds, queue, created, |buffer.stream|, buffer.Q());
        AwaitBulks();
        return;
      }
      TakeBatch(text, parsed, totals);
      NotResting(buffer.data.Length, queue, |buffer.stream|, buffer.Q(), reading, eofHolds, buffer.received);
    }

    // ---------- events ----------

    // A client read completed.
    method HandleRead(bytes: Bytes)
      requires Valid() && !aborted && reading
      requires bytes != [] && |bytes| <= buffer.FreeSpace() && buffer.stream + bytes <= Text(cmds)
      modifies this`reading, this`queue, this`created, this`arrived, buffer, buffer.data
      ensures Valid() && !aborted && buffer.stream == old(buffer.stream) + bytes
      ensures Grown(cmds, old(queue), old(created), queue, created, |buffer.stream|, old(buffer.P()))
      ensures B.Shifted(buffer.data.Length, old(buffer.base), buffer.base, |buffer.stream|)
      ensures old(&& buffer.Q() <= |buffer.stream|
                  && WaitsForHeader(cmds, queue, created, |buffer.stream| + |bytes|, buffer.Q())) ==>
                queue == old(queue) && !reading
    {
      hide B.ReadBuffer.InData, AllSupported, Text, PositionOk, SendsOk, ForwardOk, CompleteOk, ReadOk, SettledOk,
           FreshBack, NeededOk, SeenOk, HeldOk, BaseOk, SpreadOk, EmptyOk, RoomOk, AwakeOk, MaximalOk, LastExtended,
           Grown;
      Receive(bytes);
      ghost var p, base := buffer.P(), buffer.base;
      var waits := TakeReceived();
      ghost var middle, p', base' := queue, buffer.P(), buffer.base;
      B.ShiftedTwice(buffer.data.Length, old(buffer.base), base, buffer.base, |buffer.stream|);
      if waits {
        AppendedSame(cmds, queue, created, |buffer.stream|);
        GrownIs(cmds, old(queue), created, queue, queue, created, |buffer.stream|, p);
      } else {
        TakeUpNext();
        B.ShiftedTwice(buffer.data.Length, old(buffer.base), base', buffer.base, |buffer.stream|);
        Composed(cmds, old(queue), old(created), middle, queue, created, |buffer.stream|, p, p');
      }
    }

    // More of the last command is parsed and sent on. Says whether the rest of
    // what was parsed has yet to arrive.
    method TakeReceived() returns (waits: bool)
      requires Fresh() && !aborted && (queue == [] ==> buffer.UnparsedBytes() > 0)
      modifies this`reading, this`queue, buffer, buffer.data
      ensures buffer.stream == old(buffer.stream) && LastExtended(old(queue), queue, old(buffer.P()))
      ensures B.Shifted(buffer.data.Length, old(buffer.base), buffer.base, |buffer.stream|) && old(buffer.P()) <= buffer.P()
      ensures old(buffer.P()) < buffer.P() ==> queue != [] && (queue[|queue| - 1].sends > 0 || queue[|queue| - 1].error)
      ensures waits ==> Valid()
      ensures !waits ==>
                && Core() && Aligned() && !reading && buffer.Q() <= |buffer.stream|
                && (queue != [] || buffer.UnparsedBytes() > 0)
                && (queue != [] && queue[|queue| - 1].kind.Set? ==>
                      MaximalOk(cmds, queue, created, |buffer.stream|, buffer.Q()))
      ensures old(&& buffer.P() == buffer.Q() <= |buffer.stream|
                  && WaitsForHeader(cmds, queue, created, |buffer.stream|, buffer.Q())) ==>
                queue == old(queue) && !waits
    {
      hide B.ReadBuffer.InData, AllSupported, Text, PositionOk, SendsOk, ForwardOk, CompleteOk, ReadOk, SettledOk,
           FreshBack, NeededOk, SeenOk, HeldOk, BaseOk, SpreadOk, EmptyOk, RoomOk, AwakeOk, MaximalOk, LastExtended,
           Grown, B.Shifted;
      ghost var p, base := buffer.P(), buffer.base;
      LastExtendedSame(queue, p);
      if !BackComplete(queue) {
        ParseUnparsedPart();
      } else if queue != [] {
        CompleteParse(queue, |buffer.stream|, buffer.Q());
        MaximalParsed(cmds, queue, created, |buffer.stream|, buffer.Q());
      }
      ghost var parsed := queue;
      if buffer.parsed > buffer.processed {
        var noCallback := ContinueWriteQuery();
        LastExtendedTwice(old(queue), parsed, queue, p, p);
        waits := buffer.ParsedUnreceivedBytes() > 0;
        if waits {
          AwaitRest(noCallback);
        }
      } else {
        B.NotShifted(buffer.data.Length, buffer.base, |buffer.stream|);
        NothingNew();
        waits := false;
      }
    }

    // The rest of what was parsed has yet to arrive: it is read when what is there
    // has been sent, or at once if nothing was sent.
    method AwaitRest(noCallback: bool)
      requires Core() && Aligned() && !aborted && !reading && queue != [] && buffer.Q() > |buffer.stream|
      requires if noCallback then queue[|queue| - 1].error && !queue[|queue| - 1].recvComplete
               else queue[|queue| - 1].sends > 0
      modifies this`reading, buffer`locks
      ensures Valid()
    {
      hide B.ReadBuffer.InData, AllSupported, Text, PositionOk, SendsOk, ForwardOk, CompleteOk, ReadOk, SettledOk,
           FreshBack, NeededOk, SeenOk, HeldOk, BaseOk, SpreadOk, EmptyOk, RoomOk, AwakeOk, MaximalOk, LastExtended,
           Grown;
      if noCallback {
        FailedRead(cmds, queue, created, |buffer.stream|, buffer.Q());
        EmptyFailed(queue, |buffer.stream|, buffer.Q(), eofHolds, buffer.received);
        TryReadMoreQuery();
      }
      IncompleteSettled(cmds, queue, created, |buffer.stream|, buffer.Q());
      MaximalParsed(cmds, queue, created, |buffer.stream|, buffer.Q());
      NotResting(buffer.data.Length, queue, |buffer.stream|, buffer.Q(), reading, eofHolds, buffer.received);
    }

    // The next batch of the last command, or the next commands.
    method TakeUpNext()
      requires Core() && Aligned() && !reading && !aborted && buffer.Q() <= |buffer.stream|
      requires queue != [] || buffer.UnparsedBytes() > 0
      requires queue != [] && queue[|queue| - 1].kind.Set? ==> MaximalOk(cmds, queue, created, |buffer.stream|, buffer.Q())
      modifies this`reading, this`queue, this`created, buffer, buffer.data
      ensures Valid() && buffer.stream == old(buffer.stream)
      ensures Grown(cmds, old(queue), old(created), queue, created, |buffer.stream|, old(buffer.P()))
      ensures B.Shifted(buffer.data.Length, old(buffer.base), buffer.base, |buffer.stream|)
      ensures old(queue != [] && queue[|queue| - 1].kind.Set? && queue[|queue| - 1].unparsed > 0) ==>
                queue == old(queue) && !reading
    {
      hide B.ReadBuffer.InData, AllSupported, Text, PositionOk, SendsOk, ForwardOk, CompleteOk, ReadOk, SettledOk,
           NeededOk, SeenOk, HeldOk, BaseOk, SpreadOk, EmptyOk, RoomOk, AwakeOk, MaximalOk, LastExtended, Grown,
           Appended;
      LastExtendedSame(queue, buffer.P());
      AppendedSame(cmds, queue, created, |buffer.stream|);
      if queue != [] && queue[|queue| - 1].unparsed > 0 {
        ProcessUnparsedPart();
        SameLength(old(queue), queue, old(buffer.P()));
        AppendedSame(cmds, queue, created, |buffer.stream|);
      }
      ghost var middle := queue;
      if queue == [] || queue[|queue| - 1].unparsed == 0 {
        ProcessUnparsedQuery();
      }
      GrownIs(cmds, old(queue), old(created), middle, queue, created, |buffer.stream|, old(buffer.P()));
    }

    // The read brought nothing the last command could use yet.
    lemma NothingNew()
      requires Fresh() && buffer.P() >= buffer.Q()
      ensures Aligned() && buffer.Q() <= |buffer.stream|
    {
      hide B.ReadBuffer.InData, AllSupported, Text, SendsOk, ForwardOk, Off, Mark, KindOfCommand;
    }

    // End of file: the connection is half closed, and the read keeps its lock.
    method HandleEof()
      requires Valid() && !aborted && reading
      modifies this`reading, this`eofHolds
      ensures Valid() && !aborted && buffer.locks == old(buffer.locks)
      ensures !reading && eofHolds == old(eofHolds) + 1
    {
      hide B.ReadBuffer.InData, AllSupported, Text, PositionOk, SendsOk, ForwardOk, CompleteOk, SettledOk, Exhausted,
           NeededOk, SeenOk, HeldOk, BaseOk, SpreadOk, EmptyOk, MaximalOk;
      reading := false;
      eofHolds := eofHolds + 1;
      EmptyNoRead(queue, |buffer.stream|, buffer.Q(), eofHolds, buffer.received);
    }

    // A send of query bytes for command i finished; `isTail` when it was the
    // send of the last part received.
    method OnWriteQueryFinished(i: nat, ok: bool, isTail: bool)
      requires Valid() && !aborted && i < |queue|
      requires queue[i].sends > (if queue[i].tail && !isTail then 1 else 0) && (isTail ==> queue[i].tail)
      requires Single(queue[i].kind) ==> isTail
      modifies this`queue, this`reading, buffer, buffer.data
      ensures Valid() && !aborted && created == old(created) && buffer.stream == old(buffer.stream)
      ensures queue == old(queue)[i := SendDone(old(queue)[i], ok, isTail)] && buffer.Q() == old(buffer.Q())
      ensures (buffer.processed, buffer.received) == if old(buffer.locks) == 1
                then B.Recycled(buffer.data.Length, old(buffer.processed), old(buffer.received))
                else (old(buffer.processed), old(buffer.received))
      ensures reading == (old(reading) || (Asks(queue[i], ok) && old(buffer.locks) == 1 && buffer.HasMuchFreeSpace()))
    {
      hide B.ReadBuffer.InData, AllSupported, Text, PositionOk, SendsOk, ForwardOk, CompleteOk, ReadOk, SettledOk,
           NeededOk, SeenOk, HeldOk, BaseOk, SpreadOk, EmptyOk, AwakeOk, MaximalOk, RoomOk, B.ReadBuffer.Compacted;
      ReleaseSend(i, ok, isTail);
      var c := queue[i];
      if !c.recvComplete && buffer.locks == 0 && (Single(c.kind) || c.kind.Mset? || (c.kind.Del? && !ok)) {
        IncompleteIsLast(cmds, queue, created, |buffer.stream|, buffer.Q(), i);
        UnlockedRead(cmds, queue, created, |buffer.stream|, buffer.Q(), buffer.locks, Holds());
        EmptyIfUnlocked();
        TryReadMoreQuery();
        IncompleteSettled(cmds, queue, created, |buffer.stream|, buffer.Q());
        NotResting(buffer.data.Length, queue, |buffer.stream|, buffer.Q(), reading, eofHolds, buffer.received);
      } else {
        SendAwake(cmds, buffer.data.Length, queue, created, |buffer.stream|, buffer.Q(), i, ok, buffer.locks, reading, eofHolds,
                  buffer.received);
      }
    }

    // The lock of a finished send is released.
    method ReleaseSend(i: nat, ok: bool, isTail: bool)
      requires Valid() && !aborted && i < |queue|
      requires queue[i].sends > (if queue[i].tail && !isTail then 1 else 0) && (isTail ==> queue[i].tail)
      requires Single(queue[i].kind) ==> isTail
      modifies this`queue, buffer, buffer.data
      ensures Core() && Aligned() && buffer.stream == old(buffer.stream) && buffer.Q() == old(buffer.Q())
      ensures SettledOk(cmds, queue, created, |buffer.stream|, buffer.Q())
      ensures MaximalOk(cmds, queue, created, |buffer.stream|, buffer.Q())
      ensures queue == old(queue)[i := SendDone(old(queue)[i], ok, isTail)] && buffer.locks == old(buffer.locks) - 1
      ensures (buffer.processed, buffer.received) == if buffer.locks == 0
                then B.Recycled(buffer.data.Length, old(buffer.processed), old(buffer.received))
                else (old(buffer.processed), old(buffer.received))
    {
      hide B.ReadBuffer.InData, AllSupported, Text, PositionOk, SendsOk, ForwardOk, CompleteOk, ReadOk, SettledOk,
           NeededOk, SeenOk, HeldOk, BaseOk, SpreadOk, EmptyOk, AwakeOk, MaximalOk, RoomOk, B.Tidy,
           B.Shifted, SendOk, KindOfCommand;
      var c := SendDone(queue[i], ok, isTail);
      MaximalSame(cmds, queue, created, |buffer.stream|, buffer.Q(), i, c);
      SeenSame(cmds, queue, created, |buffer.stream|, i, c);
      HeldSame(queue, buffer.base, i, c);
      EmptySame(queue, |buffer.stream|, buffer.Q(), reading, eofHolds, buffer.received, i, c);
      UsedIsFull(cmds, buffer.data.Length, queue, created, |buffer.stream|, buffer.Q());
      SendFinished(cmds, queue, created, buffer.stream, buffer.P(), buffer.Q(), buffer.locks, Holds(), reading, i, c);
      ReadingLocks(queue, buffer.locks, Holds(), i);
      queue := queue[i := c];
      ghost var processed, received, locks, base := buffer.processed, buffer.received, buffer.locks, buffer.base;
      buffer.DecLock();
      HeldMoved(queue, base, buffer.base, buffer.locks, Holds());
      RoomKept(buffer.data.Length, reading, processed, received, locks, buffer.processed, buffer.received, buffer.locks);
      EmptyKept(queue, |buffer.stream|, buffer.Q(), reading, eofHolds, received, buffer.received);
    }

    // A reply of MSET or DEL that is not the last one may restart reading.
    method OnBackendReplyReceived(i: nat)
      requires Valid() && !aborted && i < |queue| && CanAnswer(queue[i])
      modifies this`queue, this`reading, buffer`locks
      ensures Valid() && !aborted && queue == old(queue)[i := Answered(old(queue)[i])]
      ensures reading == (old(reading) || (queue[i].unparsed > 0 && old(buffer.locks) == 0 && buffer.HasMuchFreeSpace()))
      ensures buffer.locks == old(buffer.locks) + (if reading && !old(reading) then 1 else 0)
    {
      hide B.ReadBuffer.InData, AllSupported, Text, PositionOk, SendsOk, ForwardOk, CompleteOk, ReadOk, SettledOk,
           Exhausted, NeededOk, SeenOk, HeldOk, BaseOk, SpreadOk, EmptyOk, AwakeOk, MaximalOk, B.Tidy, RoomOk;
      Answer(i);
      if queue[i].unparsed > 0 && buffer.locks == 0 {
        UnparsedIsLast(cmds, queue, created, |buffer.stream|, buffer.Q(), i);
        UnlockedRead(cmds, queue, created, |buffer.stream|, buffer.Q(), buffer.locks, Holds());
        EmptyIfUnlocked();
        TryReadMoreQuery();
        NotResting(buffer.data.Length, queue, |buffer.stream|, buffer.Q(), reading, eofHolds, buffer.received);
      } else {
        AnsweredAwake(cmds, buffer.data.Length, old(queue), created, |buffer.stream|, buffer.Q(), i, buffer.locks, reading,
                      eofHolds, buffer.received);
      }
    }

    method Answer(i: nat)
      requires Valid() && !aborted && i < |queue| && CanAnswer(queue[i])
      modifies this`queue
      ensures Core() && Aligned() && queue == old(queue)[i := Answered(old(queue)[i])]
      ensures SettledOk(cmds, queue, created, |buffer.stream|, buffer.Q())
      ensures MaximalOk(cmds, queue, created, |buffer.stream|, buffer.Q())
    {
      hide B.ReadBuffer.InData, AllSupported, Text, PositionOk, SendsOk, ForwardOk, CompleteOk, ReadOk, SettledOk,
           NeededOk, SeenOk, HeldOk, BaseOk, SpreadOk, EmptyOk, AwakeOk, MaximalOk, RoomOk;
      var c := Answered(queue[i]);
      MaximalSame(cmds, queue, created, |buffer.stream|, buffer.Q(), i, c);
      SeenSame(cmds, queue, created, |buffer.stream|, i, c);
      HeldSame(queue, buffer.base, i, c);
      EmptySame(queue, |buffer.stream|, buffer.Q(), reading, eofHolds, buffer.received, i, c);
      AnswerCounted(cmds, queue, created, buffer.stream, buffer.P(), buffer.Q(), buffer.locks, Holds(), reading, i);
      queue := queue[i := c];
    }

    // The front command has written its whole reply.
    method RotateReplyingCommand()
      requires Valid() && !aborted && queue != [] && queue[0].recvComplete && queue[0].sends == 0
      modifies this`queue, this`created, this`reading, buffer, buffer.data
      ensures Valid() && !aborted && buffer.stream == old(buffer.stream)
      ensures Appended(cmds, old(queue)[1..], old(created), queue, created, |buffer.stream|)
      ensures B.Shifted(buffer.data.Length, old(buffer.base), buffer.base, |buffer.stream|)
      ensures |old(queue)| == 1 ==>
                && queue == [] && buffer.processed == old(buffer.processed) && buffer.parsed == old(buffer.parsed)
                && buffer.received == old(buffer.received) && reading == (old(reading) || buffer.HasMuchFreeSpace())
    {
      hide B.ReadBuffer.InData, AllSupported, Text, PositionOk, SendsOk, ForwardOk, CompleteOk, ReadOk, SettledOk,
           Exhausted, NeededOk, SeenOk, HeldOk, BaseOk, SpreadOk, EmptyOk, RoomOk, AwakeOk, MaximalOk, Appended;
      if |queue| == 1 {
        SettledRead(cmds, queue, created, |buffer.stream|, buffer.Q());
        EmptyAtLast();
        TryReadMoreQuery();
      }
      Popped(cmds, queue, created, buffer.stream, buffer.P(), buffer.Q(), buffer.locks, Holds(), reading);
      MaximalPop(cmds, queue, created, |buffer.stream|, buffer.Q());
      SeenPop(cmds, queue, created, |buffer.stream|);
      HeldPop(queue, buffer.base);
      EmptyPop(queue, |buffer.stream|, buffer.Q(), reading, eofHolds, buffer.received);
      queue := queue[1..];
      AppendedSame(cmds, queue, created, |buffer.stream|);
      if queue != [] {
        if !queue[|queue| - 1].recvComplete {
          IncompleteParse(queue, |buffer.stream|, buffer.Q());
          if buffer.locks == 0 {
            UnlockedRead(cmds, queue, created, |buffer.stream|, buffer.Q(), buffer.locks, Holds());
            EmptyIfUnlocked();
            TryReadMoreQuery();
          }
          IncompleteSettled(cmds, queue, created, |buffer.stream|, buffer.Q());
          LockedRests(buffer.data.Length, queue, |buffer.stream|, buffer.Q(), reading, eofHolds, buffer.received, buffer.locks);
        } else {
          CompleteParse(queue, |buffer.stream|, buffer.Q());
          AllReceived(queue, |buffer.stream|, buffer.Q());
          ProcessUnparsedQuery();
        }
      } else {
        NotResting(buffer.data.Length, queue, |buffer.stream|, buffer.Q(), reading, eofHolds, buffer.received);
      }
    }

    lemma EmptyAtLast()
      requires Core() && Aligned() && |queue| == 1 && queue[0].sends == 0
      ensures EmptyOk(queue, |buffer.stream|, buffer.Q(), true, eofHolds, buffer.received)
    {
      hide B.ReadBuffer.InData, AllSupported, Text, PositionOk, ForwardOk, CompleteOk, ReadOk, NeededOk, SeenOk, HeldOk,
           BaseOk, B.Tidy, RoomOk;
      if !reading && eofHolds == 0 {
        OneSend(queue);
        EmptyIfUnlocked();
      }
    }

    // One completion, if it is one that can happen now.
    method Step(e: Event)
      requires Valid()
      modifies this, buffer, buffer.data
      ensures Valid() && Next(cmds, buffer.data.Length, old(Seen()), e, Seen())
    {
      hide Core, Aligned, Done, Text, AfterRead, AfterSent, AfterReply, AfterRotate;
      if aborted {
        return;
      }
      match e {
        case ReadBytes(n) => OnRead(n);
        case ReadEof =>
          if reading {
            HandleEof();
          }
        case ReadError =>
          if reading {
            aborted := true;
          }
        case QuerySent(i, ok, isTail) =>
          if CanFinish(queue, i, isTail) {
            OnSent(i, ok, isTail);
          }
        case ReplyRead(i) =>
          if i < |queue| && CanAnswer(queue[i]) {
            OnReply(i);
          }
        case ReplyFinished =>
          if queue != [] && IsAnswered(queue[0]) {
            OnRotate();
          }
      }
    }

    // n bytes arrive, if the read is outstanding and they fit.
    method OnRead(n: nat)
      requires Valid() && !aborted
      modifies this`reading, this`queue, this`created, this`arrived, buffer, buffer.data
      ensures Valid() && Next(cmds, buffer.data.Length, old(Seen()), ReadBytes(n), Seen())
    {
      hide Core, Aligned, Done, Text, Grown, WaitsForHeader, Exact, Position, Base, Used, B.Shifted;
      if reading && 0 < n <= buffer.FreeSpace() && arrived + n <= |Text(cmds)| {
        SeenExact();
        SameArrived();
        var bytes := Text(cmds)[arrived..arrived + n];
        NextBytes(Text(cmds), buffer.stream, arrived, n);
        HandleRead(bytes);
        SameArrived();
      }
    }

    method OnSent(i: nat, ok: bool, isTail: bool)
      requires Valid() && !aborted && CanFinish(queue, i, isTail)
      modifies this`queue, this`reading, buffer, buffer.data
      ensures Valid() && AfterSent(buffer.data.Length, old(Seen()), i, ok, isTail, Seen())
    {
      hide Core, Aligned, Done, Asks, Exact, Position;
      SeenExact();
      OnWriteQueryFinished(i, ok, isTail);
      SameArrived();
      SeenExact();
    }

    lemma SameArrived()
      requires Valid() && !aborted
      ensures arrived == |buffer.stream| && buffer.stream <= Text(cmds)
      ensures Base(Seen()) == buffer.base && Used(Seen()) == buffer.P()
    {
      hide AllSupported, Text, PositionOk, SendsOk, ForwardOk, NeededOk, SeenOk, HeldOk, BaseOk, SpreadOk, EmptyOk,
           RoomOk, B.ReadBuffer.InData, Aligned, Done;
    }

    method OnReply(i: nat)
      requires Valid() && !aborted && i < |queue| && CanAnswer(queue[i])
      modifies this`queue, this`reading, buffer`locks
      ensures Valid() && AfterReply(buffer.data.Length, old(Seen()), i, Seen())
    {
      hide Core, Aligned, Done;
      OnBackendReplyReceived(i);
    }

    method OnRotate()
      requires Valid() && !aborted && queue != [] && IsAnswered(queue[0])
      modifies this`queue, this`created, this`reading, buffer, buffer.data
      ensures Valid() && AfterRotate(cmds, buffer.data.Length, old(Seen()), Seen())
    {
      hide Core, Aligned, Done, IsNew, Base, B.Shifted;
      SameArrived();
      RotateReplyingCommand();
      SameArrived();
    }
  }

  // Chunk-independent framing and lock accounting: for every pipeline of
  // supported commands, every split of its bytes into reads and every order of
  // completions, every state of the run is exact and follows from the previous
  // one by its event, only a failed read aborts the connection, and it stops for
  // good only if the pipeline and the size of the buffer allow it.
  method Serve(cmds: seq<seq<Bytes>>, capacity: nat, spread: (Bytes, nat) -> nat, schedule: seq<Event>)
    returns (run: seq<Snapshot>)
    requires AllSupported(cmds, capacity) && SpreadOk(spread)
    ensures IsRun(cmds, capacity, schedule, run) && Starts(run[0])
    ensures forall i :: 0 <= i < |run| ==> run[i].aborted || (Framed(cmds, run[i]) && Settled(cmds, capacity, run[i]))
    ensures forall i :: 0 <= i < |run| && run[i].aborted ==> exists k :: 0 <= k < i && schedule[k].ReadError?
    ensures cmds != [] ==> forall i :: 0 <= i < |run| && Asleep(run[i]) ==> Stops(cmds, capacity)
  {
    hide AllSupported, Framed, Settled, Next, ClientConnection.Valid, Starts, SpreadOk, Stops, Asleep;
    var c := new ClientConnection(cmds, capacity, spread);
    run := [c.Seen()];
    c.SeenExact();
    for i := 0 to |schedule|
      invariant fresh(c) && fresh(c.buffer) && fresh(c.buffer.data) && c.Valid()
      invariant |run| == i + 1 && run[i] == c.Seen() && Starts(run[0])
      invariant forall k :: 0 <= k < i ==> Next(cmds, capacity, run[k], schedule[k], run[k + 1])
      invariant forall k :: 0 <= k <= i ==> Exact(cmds, capacity, run[k])
    {
      c.Step(schedule[i]);
      c.SeenExact();
      run := run + [c.Seen()];
    }
    WholeRun(cmds, capacity, schedule, run);
  }

  // ---------- schedules that stop a connection ----------

  // One more event of a run.
  method Advance(c: ClientConnection, e: Event, schedule: seq<Event>, run: seq<Snapshot>)
    returns (schedule': seq<Event>, run': seq<Snapshot>)
    requires c.Valid() && Leads(c.cmds, c.buffer.data.Length, schedule, run, c.Seen()) && !e.ReadError?
    modifies c, c.buffer, c.buffer.data
    ensures c.Valid() && Leads(c.cmds, c.buffer.data.Length, schedule', run', c.Seen())
    ensures Next(c.cmds, c.buffer.data.Length, old(c.Seen()), e, c.Seen())
    ensures Good(c.cmds, c.buffer.data.Length, c.Seen())
  {
    hide Next, Good, Exact, ClientConnection.Valid, Starts;
    ghost var v := c.Seen();
    c.Step(e);
    c.SeenExact();
    StillGood(c.cmds, c.buffer.data.Length, v, e, c.Seen());
    LeadsOn(c.cmds, c.buffer.data.Length, schedule, run, v, e, c.Seen());
    schedule', run' := schedule + [e], run + [c.Seen()];
  }

  // The bytes up to the target arrive as fast as they are read, and everything
  // else completes, until the connection waits for the client only or stops.
  method Reach(c: ClientConnection, target: nat, schedule: seq<Event>, run: seq<Snapshot>)
    returns (schedule': seq<Event>, run': seq<Snapshot>)
    requires c.Valid() && AllSupported(c.cmds, c.buffer.data.Length) && c.cmds != []
    requires Leads(c.cmds, c.buffer.data.Length, schedule, run, c.Seen())
    requires Healthy(c.Seen()) && c.arrived <= target <= |Text(c.cmds)|
    modifies c, c.buffer, c.buffer.data
    ensures c.Valid() && Leads(c.cmds, c.buffer.data.Length, schedule', run', c.Seen())
    ensures Healthy(c.Seen()) && Drained(c.queue) && (c.reading ==> c.arrived == target)
    ensures old(c.arrived) == target ==>
              c.arrived == target && B.Shifted(c.buffer.data.Length, old(Base(c.Seen())), Base(c.Seen()), target)
  {
    hide AllSupported, Next, Good, ClientConnection.Valid, Leads, Text, NoErrors, Drained, Work, Base, B.Shifted;
    ghost var cmds, capacity, base := c.cmds, c.buffer.data.Length, Base(c.Seen());
    schedule', run' := schedule, run;
    B.NotShifted(capacity, base, target);
    while !Drained(c.queue) || (c.reading && c.arrived < target)
      invariant c.Valid() && Leads(cmds, capacity, schedule', run', c.Seen()) && Healthy(c.Seen()) && c.arrived <= target
      invariant old(c.arrived) == target ==> c.arrived == target && B.Shifted(capacity, base, Base(c.Seen()), target)
      decreases target - c.arrived, Uncreated(cmds, c.created), Work(c.queue)
    {
      ghost var v := c.Seen();
      LastOf(cmds, capacity, schedule', run', v);
      if !Drained(c.queue) {
        schedule', run' := Advance(c, NextEvent(c.queue), schedule', run');
        DriveStep(cmds, capacity, v, c.Seen());
        LastOf(cmds, capacity, schedule', run', c.Seen());
        if old(c.arrived) == target {
          B.ShiftedTwice(capacity, base, Base(v), Base(c.Seen()), target);
        }
      } else {
        RoomToRead(cmds, capacity, v);
        var n := Min(c.buffer.data.Length - c.buffer.received, target - c.arrived);
        schedule', run' := Advance(c, ReadBytes(n), schedule', run');
        ReadOn(cmds, capacity, v, n, c.Seen());
      }
    }
  }

  // A SET of three bulks or more stops the connection wherever it stands in the
  // pipeline: the bytes up to its key arrive, and then one more.
  method StopAtSet(cmds: seq<seq<Bytes>>, capacity: nat, spread: (Bytes, nat) -> nat, i: nat)
    returns (schedule: seq<Event>, run: seq<Snapshot>)
    requires AllSupported(cmds, capacity) && SpreadOk(spread) && LongSet(cmds, i)
    ensures run != [] && Leads(cmds, capacity, schedule, run, run[|run| - 1]) && Asleep(run[|run| - 1])
  {
    hide AllSupported, Next, Good, ClientConnection.Valid, Leads, Text, NoErrors, SpreadOk, LongSet, FullAt, Off, Size;
    IsCommand(cmds, i);
    SetCut(cmds, capacity, i);
    var c := new ClientConnection(cmds, capacity, spread);
    schedule, run := Begin(c);
    schedule, run := Reach(c, Mark(cmds, i, 2), schedule, run);
    LastOf(cmds, capacity, schedule, run, c.Seen());
    if c.reading {
      ghost var v := c.Seen();
      EmptiedWhen(cmds, capacity, v, i);
      schedule, run := Advance(c, ReadBytes(1), schedule, run);
      SetStops(cmds, capacity, i, v, c.Seen());
      LastOf(cmds, capacity, schedule, run, c.Seen());
    }
  }

  // So do bytes that crowd the buffer: it is emptied, they arrive at once, and
  // everything else completes.
  method StopInCrowd(cmds: seq<seq<Bytes>>, capacity: nat, spread: (Bytes, nat) -> nat, i: nat, b: nat, j: nat, len: nat)
    returns (schedule: seq<Event>, run: seq<Snapshot>)
    requires AllSupported(cmds, capacity) && SpreadOk(spread) && Crowds(cmds, capacity, i, b, j, len)
    ensures run != [] && Leads(cmds, capacity, schedule, run, run[|run| - 1]) && Asleep(run[|run| - 1])
  {
    hide AllSupported, Next, Good, ClientConnection.Valid, Leads, Text, NoErrors, SpreadOk, FullAt, Crowds, Off;
    InCrowd(cmds, capacity, i, b, j, len);
    var c := new ClientConnection(cmds, capacity, spread);
    schedule, run := Begin(c);
    schedule, run := Reach(c, b, schedule, run);
    LastOf(cmds, capacity, schedule, run, c.Seen());
    if c.reading {
      ghost var v := c.Seen();
      EmptiedWhen(cmds, capacity, v, i);
      schedule, run := Advance(c, ReadBytes(len - b), schedule, run);
      ghost var w := c.Seen();
      CrowdArrives(cmds, capacity, b, len, v, w);
      schedule, run := Reach(c, len, schedule, run);
      LastOf(cmds, capacity, schedule, run, c.Seen());
      B.ShiftedTwice(capacity, b, Base(w), Base(c.Seen()), len);
      CrowdStops(cmds, capacity, i, b, j, len, c.Seen());
    }
  }

  method Begin(c: ClientConnection) returns (schedule: seq<Event>, run: seq<Snapshot>)
    requires c.Valid() && Starts(c.Seen())
    ensures Leads(c.cmds, c.buffer.data.Length, schedule, run, c.Seen()) && Healthy(c.Seen()) && c.arrived == 0
  {
    hide ClientConnection.Valid, Framed, Settled;
    c.SeenExact();
    LeadsFirst(c.cmds, c.buffer.data.Length, c.Seen());
    schedule, run := [], [c.Seen()];
  }
}
