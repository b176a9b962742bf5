/**
 When a client connection stops for good: exactly which pipelines, and which
 buffer sizes, allow it.
 */
module ClientStops {
  import opened Resp
  import opened Net
  import opened Framing
  import opened ClientQuery
  import opened QueryProgress
  import opened UsableBytes
  import opened ClientSteps
  import opened ClientRuns
  import B = ReadBuffer

  // ---------- the condition ----------

  // A SET that can be cut behind its key, before the header of its next bulk.
  predicate LongSet(cmds: seq<seq<Bytes>>, i: nat) {
    i < |cmds| && KindOfCommand(cmds[i]) == Some(Set) && |cmds[i]| >= 3
  }

  // The buffer can be emptied at b, and the bytes up to len fill two thirds of
  // it. Those at the end, a part of command j, cannot be used, and they are all of
  // them or leave no reason to recycle the others.
  ghost predicate Crowds(cmds: seq<seq<Bytes>>, capacity: nat, i: nat, b: nat, j: nat, len: nat) {
    && FullAt(cmds, i, b)
    && j < |cmds| && SupportedCommand(cmds[j]) && Off(cmds, j) < len < Off(cmds, j + 1)
    && var n, left := len - b, len - Usable(cmds, j, len);
       0 < left <= n <= capacity && 3 * n >= 2 * capacity && (left == n || 2 * n - left <= capacity)
  }

  ghost predicate Stops(cmds: seq<seq<Bytes>>, capacity: nat) {
    || (exists i: nat :: LongSet(cmds, i))
    || (exists i: nat, b: nat, j: nat, len: nat :: Crowds(cmds, capacity, i, b, j, len))
  }

  // ---------- what can be used of the bytes at hand ----------

  lemma CompleteEnds(cmds: seq<seq<Bytes>>, v: Snapshot)
    requires Framed(cmds, v) && BackComplete(v.queue)
    ensures v.created <= |cmds| && Position(v) == Off(cmds, v.created) <= v.arrived
  {
    hide Forwarded, Text, SendsOk, Off, Size, KindOfCommand, Position;
    if v.queue != [] {
      AtMark(cmds, v.created - 1, |cmds[v.created - 1]|);
    }
  }

  lemma Creatable(cmds: seq<seq<Bytes>>, capacity: nat, i: nat, len: nat)
    requires AllSupported(cmds, capacity) && i < |cmds| && Off(cmds, i + 1) <= len
    ensures CanCreate(cmds, i, len)
  {
    hide AllSupported, Off, Taken, KindOfCommand, AllWhole, EncodeArray;
    SupportedAt(cmds, capacity, i);
    AtCommand(cmds, i);
    WholeSupported(cmds[i], capacity, len - Off(cmds, i));
  }

  // However the bytes were cut, the same of them are used.
  lemma UsableAt(cmds: seq<seq<Bytes>>, capacity: nat, v: Snapshot, j: nat)
    requires AllSupported(cmds, capacity) && Good(cmds, capacity, v) && |v.queue| < PIPELINE_LIMIT
    requires j < |cmds| && Off(cmds, j) <= v.arrived <= Off(cmds, j + 1)
    ensures SupportedCommand(cmds[j]) && Min(Position(v), v.arrived) == Usable(cmds, j, v.arrived)
  {
    hide AllSupported, Framed, Settled, Off, SupportedCommand, Usable, Position;
    SupportedAt(cmds, capacity, j);
    if BackComplete(v.queue) {
      UsableBetween(cmds, capacity, v, j);
    } else {
      UsableWithin(cmds, capacity, v, j);
    }
  }

  lemma UsableBetween(cmds: seq<seq<Bytes>>, capacity: nat, v: Snapshot, j: nat)
    requires AllSupported(cmds, capacity) && Good(cmds, capacity, v) && |v.queue| < PIPELINE_LIMIT && BackComplete(v.queue)
    requires j < |cmds| && Off(cmds, j) <= v.arrived <= Off(cmds, j + 1) && SupportedCommand(cmds[j])
    ensures Min(Position(v), v.arrived) == Usable(cmds, j, v.arrived)
  {
    hide AllSupported, Framed, Settled, Off, Taken, KindOfCommand, Size, AllWhole, Position;
    CompleteEnds(cmds, v);
    if v.created < j {
      OffMonotone(cmds, v.created + 1, j);
      Creatable(cmds, capacity, v.created, v.arrived);
      NotExhausted(cmds, capacity, v);
      assert false;
    } else if v.created == j {
      NotExhausted(cmds, capacity, v);
    } else {
      OffMonotone(cmds, j + 1, v.created);
      WholeIsFull(cmds, capacity, j);
    }
  }

  lemma WholeIsFull(cmds: seq<seq<Bytes>>, capacity: nat, j: nat)
    requires AllSupported(cmds, capacity) && j < |cmds|
    ensures FullAt(cmds, j, Off(cmds, j + 1))
  {
    hide AllSupported, Off, Taken, KindOfCommand, Size, AllWhole, FullAt;
    SupportedAt(cmds, capacity, j);
    AtMark(cmds, j, |cmds[j]|);
    WholeOdd(cmds, capacity, j);
    TakenFromWhole(cmds[j], |cmds[j]|);
    FullFrom(cmds, j, |cmds[j]|, Off(cmds, j + 1));
  }

  // The last command lies around the end of the bytes at hand.
  lemma LastAround(cmds: seq<seq<Bytes>>, capacity: nat, v: Snapshot)
    requires Good(cmds, capacity, v) && !BackComplete(v.queue)
    ensures 0 < v.created <= |cmds| && CanCreate(cmds, v.created - 1, v.arrived)
    ensures Off(cmds, v.created - 1) < v.arrived < Off(cmds, v.created)
  {
    hide Framed, Off, Taken, KindOfCommand, Size, AllWhole, SeenOk, HeldOk, BaseOk, EmptyOk, MaximalOk, SettledOk,
         ReadOk, RoomOk, AwakeOk;
    NotMaximal(cmds, capacity, v);
    var i := v.created - 1;
    TakenShape(cmds[i], KindOfCommand(cmds[i]).value, v.arrived - Off(cmds, i));
  }

  lemma UsableWithin(cmds: seq<seq<Bytes>>, capacity: nat, v: Snapshot, j: nat)
    requires AllSupported(cmds, capacity) && Good(cmds, capacity, v) && !BackComplete(v.queue)
    requires j < |cmds| && Off(cmds, j) <= v.arrived <= Off(cmds, j + 1) && SupportedCommand(cmds[j])
    ensures v.created == j + 1 && Min(Position(v), v.arrived) == Usable(cmds, j, v.arrived)
    ensures Unparsed(v) == |cmds[j]| - Taken(cmds[j], KindOfCommand(cmds[j]).value, v.arrived - Off(cmds, j))
  {
    hide AllSupported, Good, Off, Taken, KindOfCommand, Size, AllWhole, Position, WellTaken;
    LastAround(cmds, capacity, v);
    if v.created - 1 < j {
      OffMonotone(cmds, v.created, j);
      assert false;
    }
    if v.created - 1 > j {
      OffMonotone(cmds, j + 1, v.created - 1);
      assert false;
    }
    TakenWell(cmds, j, v.arrived);
    TookAll(cmds, capacity, v, |cmds[j]| - Taken(cmds[j], KindOfCommand(cmds[j]).value, v.arrived - Off(cmds, j)));
    Taking(cmds, capacity, v);
    TookNoMore(cmds, j, Unparsed(v), v.arrived);
    PositionIs(cmds, capacity, v);
  }

  lemma TakenWell(cmds: seq<seq<Bytes>>, i: nat, len: nat)
    requires i < |cmds| && CanCreate(cmds, i, len)
    ensures WellTaken(cmds, i, |cmds[i]| - Taken(cmds[i], KindOfCommand(cmds[i]).value, len - Off(cmds, i)), len)
  {
    hide Off, Taken, KindOfCommand, Size, AllWhole, HeadersIn, ArrayPrefix;
    var ws := cmds[i];
    TakenSeen(ws, KindOfCommand(ws).value, len - Off(cmds, i));
    TakenShape(ws, KindOfCommand(ws).value, len - Off(cmds, i));
  }

  lemma TookNoMore(cmds: seq<seq<Bytes>>, i: nat, unparsed: nat, len: nat)
    requires i < |cmds| && CanCreate(cmds, i, len) && WellTaken(cmds, i, unparsed, len)
    ensures |cmds[i]| - unparsed <= Taken(cmds[i], KindOfCommand(cmds[i]).value, len - Off(cmds, i))
  {
    hide Off, Taken, KindOfCommand, Size, AllWhole, HeadersIn, ArrayPrefix;
    TakenAtLeast(cmds[i], KindOfCommand(cmds[i]).value, |cmds[i]| - unparsed, len - Off(cmds, i));
  }

  // ---------- only then ----------

  // A connection that has stopped meets the condition.
  lemma AsleepBecause(cmds: seq<seq<Bytes>>, capacity: nat, v: Snapshot)
    requires AllSupported(cmds, capacity) && cmds != [] && Good(cmds, capacity, v) && Asleep(v)
    ensures Stops(cmds, capacity)
  {
    hide AllSupported, Framed, Settled, FullAt, Crowds, LongSet, WaitsForHeader, Position;
    if v.queue != [] && v.queue[0].kind.Set? && v.queue[0].unparsed > 0 {
      SetIsLong(cmds, capacity, v);
    } else {
      FullBuffer(cmds, capacity, v);
      var j := AroundEnd(cmds, capacity, v);
      StartOfBuffer(cmds, capacity, v);
      var i: nat :| FullAt(cmds, i, Base(v));
      ItCrowds(cmds, capacity, v, i, j);
    }
  }

  lemma SetIsLong(cmds: seq<seq<Bytes>>, capacity: nat, v: Snapshot)
    requires Good(cmds, capacity, v) && |v.queue| == 1 && v.queue[0].kind.Set? && v.queue[0].unparsed > 0
    ensures v.created > 0 && LongSet(cmds, v.created - 1)
  {
    hide Forwarded, Text, SendsOk, Off, Size, KindOfCommand, NeededOk, HeldOk, BaseOk, EmptyOk, MaximalOk, SettledOk,
         ReadOk, RoomOk, AwakeOk, HeadersIn, CompleteOk, AllWhole;
    assert KindOfCommand(cmds[v.created - 1 + 0]) == Some(v.queue[0].kind);
  }

  lemma RoomForSome(cmds: seq<seq<Bytes>>, capacity: nat)
    requires AllSupported(cmds, capacity) && cmds != []
    ensures capacity > 0
  {
    assert Supported(cmds[0], capacity);
  }

  // The buffer is full of bytes that cannot be used, and it has been recycled.
  lemma FullBuffer(cmds: seq<seq<Bytes>>, capacity: nat, v: Snapshot)
    requires AllSupported(cmds, capacity) && cmds != [] && Good(cmds, capacity, v) && Asleep(v)
    requires v.queue == [] || !v.queue[0].kind.Set? || v.queue[0].unparsed == 0
    ensures 3 * v.received >= 2 * capacity > 0 && v.received <= v.arrived && Position(v) == Used(v) < v.arrived
    ensures v.processed == 0 || v.processed + v.received <= capacity
  {
    hide AllSupported, Tiled, Forwarded, Text, NeededOk, SeenOk, HeldOk, BaseOk, EmptyOk, MaximalOk, SettledOk, ReadOk;
    RoomForSome(cmds, capacity);
  }

  lemma AroundEnd(cmds: seq<seq<Bytes>>, capacity: nat, v: Snapshot) returns (j: nat)
    requires AllSupported(cmds, capacity) && Good(cmds, capacity, v) && Drained(v.queue) && Position(v) < v.arrived
    ensures j < |cmds| && Off(cmds, j) < v.arrived < Off(cmds, j + 1)
  {
    hide AllSupported, Framed, Settled, Off, Text, Position, CanCreate;
    if v.queue == [] {
      CompleteEnds(cmds, v);
      InText(cmds, v);
      AtEnd(cmds);
      j := v.created;
      if Off(cmds, j + 1) <= v.arrived {
        Creatable(cmds, capacity, j, v.arrived);
        NotExhausted(cmds, capacity, v);
      }
    } else {
      LastAround(cmds, capacity, v);
      j := v.created - 1;
    }
  }

  lemma InText(cmds: seq<seq<Bytes>>, v: Snapshot)
    requires Framed(cmds, v)
    ensures v.arrived <= |Text(cmds)|
  {
    hide Tiled, Forwarded, Text, CompleteOk, SendsOk;
  }

  lemma StartOfBuffer(cmds: seq<seq<Bytes>>, capacity: nat, v: Snapshot)
    requires Good(cmds, capacity, v)
    ensures BaseOk(cmds, Base(v))
  {
    hide Framed, NeededOk, SeenOk, HeldOk, BaseOk, EmptyOk, MaximalOk, SettledOk, ReadOk, RoomOk, AwakeOk;
  }

  lemma FitsIn(cmds: seq<seq<Bytes>>, capacity: nat, v: Snapshot)
    requires Good(cmds, capacity, v)
    ensures v.received <= capacity
  {
    hide Framed, NeededOk, SeenOk, HeldOk, BaseOk, EmptyOk, MaximalOk, SettledOk, ReadOk, RoomOk, AwakeOk;
  }

  lemma ItCrowds(cmds: seq<seq<Bytes>>, capacity: nat, v: Snapshot, i: nat, j: nat)
    requires AllSupported(cmds, capacity) && Good(cmds, capacity, v) && Drained(v.queue)
    requires 3 * v.received >= 2 * capacity > 0 && v.received <= v.arrived && Position(v) == Used(v) < v.arrived
    requires v.processed == 0 || v.processed + v.received <= capacity
    requires FullAt(cmds, i, Base(v)) && j < |cmds| && Off(cmds, j) < v.arrived < Off(cmds, j + 1)
    ensures Crowds(cmds, capacity, i, Base(v), j, v.arrived)
  {
    hide AllSupported, Framed, Settled, Off, FullAt, SupportedCommand, Usable, Position;
    UsableAt(cmds, capacity, v, j);
    FitsIn(cmds, capacity, v);
  }

  // No command needs more than a third of the buffer.
  predicate Spacious(cmds: seq<seq<Bytes>>, capacity: nat) {
    forall i :: 0 <= i < |cmds| ==> 3 * |EncodeArray(cmds[i])| <= capacity
  }

  // Then it takes a SET.
  lemma SpaciousStops(cmds: seq<seq<Bytes>>, capacity: nat)
    requires Spacious(cmds, capacity)
    ensures Stops(cmds, capacity) <==> exists i: nat :: LongSet(cmds, i)
  {
    hide LongSet, Crowds, EncodeArray;
    if i: nat, b: nat, j: nat, len: nat :| Crowds(cmds, capacity, i, b, j, len) {
      NotSpacious(cmds, capacity, i, b, j, len);
    }
  }

  lemma NotSpacious(cmds: seq<seq<Bytes>>, capacity: nat, i: nat, b: nat, j: nat, len: nat)
    requires Crowds(cmds, capacity, i, b, j, len)
    ensures j < |cmds| && 3 * |EncodeArray(cmds[j])| > capacity
  {
    hide FullAt, Off, Taken, KindOfCommand, SupportedCommand, EncodeArray, Size, AllWhole;
    AtCommand(cmds, j);
  }

  // Commands i to j - 1 and too little of command j to create it arrive together,
  // at a command boundary: two thirds of the buffer, and if there are any commands
  // in front, too little to move the rest to the start of it.
  ghost predicate Squeezed(cmds: seq<seq<Bytes>>, capacity: nat, i: nat, j: nat, part: nat) {
    && i <= j < |cmds| && SupportedCommand(cmds[j])
    && 0 < part && Taken(cmds[j], KindOfCommand(cmds[j]).value, part) == 0
    && var size := Off(cmds, j) - Off(cmds, i);
       && 0 <= size && size + part <= capacity && 3 * (size + part) >= 2 * capacity
       && (size == 0 || 2 * size + part <= capacity)
  }

  // They crowd the buffer, whatever these commands are.
  lemma SqueezedCrowds(cmds: seq<seq<Bytes>>, capacity: nat, i: nat, j: nat, part: nat)
    requires AllSupported(cmds, capacity) && Squeezed(cmds, capacity, i, j, part)
    ensures Crowds(cmds, capacity, i, Off(cmds, i), j, Off(cmds, j) + part)
  {
    hide AllSupported, Off, Taken, KindOfCommand, AllWhole, Size, EncodeArray;
    SupportedAt(cmds, capacity, i);
    NothingTaken(cmds[i], KindOfCommand(cmds[i]).value);
    AtCommand(cmds, j);
    SupportedAt(cmds, capacity, j);
    if part >= |EncodeArray(cmds[j])| {
      WholeSupported(cmds[j], capacity, part);
    }
  }

  // ---------- driving a connection ----------

  // What is left to be done for the commands of a pipeline.
  function Work(queue: seq<Cmd>): nat {
    if queue == [] then 0 else WorkOf(queue[0]) + Work(queue[1..])
  }

  function WorkOf(c: Cmd): nat {
    2 * c.sends + c.awaiting + 1
  }

  lemma {:induction false} WorkUpdate(queue: seq<Cmd>, i: nat, c: Cmd)
    requires i < |queue|
    ensures Work(queue[i := c]) + WorkOf(queue[i]) == Work(queue) + WorkOf(c)
  {
    hide WorkOf;
    if i == 0 {
      assert queue[0 := c][1..] == queue[1..];
    } else {
      WorkUpdate(queue[1..], i - 1, c);
      assert queue[i := c][1..] == queue[1..][i - 1 := c];
    }
  }

  function FirstSending(queue: seq<Cmd>): (i: nat)
    requires Sends(queue) > 0
    ensures i < |queue| && queue[i].sends > 0
  {
    if queue[0].sends > 0 then 0 else FirstSending(queue[1..]) + 1
  }

  // The next completion, unless all the connection waits for is the client.
  function NextEvent(queue: seq<Cmd>): Event
    requires !Drained(queue)
  {
    if Sends(queue) > 0 then QuerySent(FirstSending(queue), true, queue[FirstSending(queue)].tail)
    else if queue[0].awaiting > 0 then ReplyRead(0)
    else ReplyFinished
  }

  predicate NoErrors(queue: seq<Cmd>) {
    forall i :: 0 <= i < |queue| ==> !queue[i].error
  }

  // Nothing has gone wrong so far.
  predicate Healthy(v: Snapshot) {
    !v.aborted && v.eofHolds == 0 && NoErrors(v.queue)
  }

  // A step that brings the connection nearer to waiting for the client only.
  ghost predicate Nearer(capacity: nat, v: Snapshot, w: Snapshot) {
    && Healthy(w) && w.arrived == v.arrived && B.Shifted(capacity, Base(v), Base(w), v.arrived)
    && (w.created > v.created || (w.created == v.created && Work(w.queue) < Work(v.queue)))
  }

  lemma DriveStep(cmds: seq<seq<Bytes>>, capacity: nat, v: Snapshot, w: Snapshot)
    requires Good(cmds, capacity, v) && Healthy(v) && !Drained(v.queue)
    requires Next(cmds, capacity, v, NextEvent(v.queue), w)
    ensures Nearer(capacity, v, w)
  {
    hide Framed, Settled, AfterSent, AfterReply, AfterRotate, AfterRead, Text, Base, IsAnswered;
    SendsFit(cmds, v);
    if Sends(v.queue) > 0 {
      var i := FirstSending(v.queue);
      SentNearer(cmds, capacity, v, i, w);
    } else if v.queue[0].awaiting > 0 {
      ReplyNearer(capacity, v, w);
    } else {
      FrontAnswered(cmds, v);
      RotateNearer(cmds, capacity, v, w);
    }
  }

  lemma SendsFit(cmds: seq<seq<Bytes>>, v: Snapshot)
    requires Framed(cmds, v)
    ensures forall i :: 0 <= i < |v.queue| ==> SendOk(v.queue[i])
    ensures v.received <= v.arrived && v.processed <= v.received
  {
    hide Tiled, Forwarded, Text, CompleteOk, SendOk, Position;
  }

  lemma SentNearer(cmds: seq<seq<Bytes>>, capacity: nat, v: Snapshot, i: nat, w: Snapshot)
    requires Healthy(v) && i < |v.queue| && v.queue[i].sends > 0 && SendOk(v.queue[i])
    requires v.received <= v.arrived && v.processed <= v.received
    requires Next(cmds, capacity, v, QuerySent(i, true, v.queue[i].tail), w)
    ensures Nearer(capacity, v, w)
  {
    hide Position;
    WorkUpdate(v.queue, i, SendDone(v.queue[i], true, v.queue[i].tail));
  }

  lemma ReplyNearer(capacity: nat, v: Snapshot, w: Snapshot)
    requires Healthy(v) && v.queue != [] && v.queue[0].awaiting > 0 && v.queue[0].kind.Del?
    requires AfterReply(capacity, v, 0, w)
    ensures Nearer(capacity, v, w)
  {
    WorkUpdate(v.queue, 0, Answered(v.queue[0]));
  }

  lemma FrontAnswered(cmds: seq<seq<Bytes>>, v: Snapshot)
    requires Framed(cmds, v) && !Drained(v.queue) && Sends(v.queue) == 0 && v.queue[0].awaiting == 0
    ensures IsAnswered(v.queue[0])
  {
    hide Tiled, Forwarded, Text, CompleteOk, Position;
    SendsBound(v.queue, 0);
  }

  lemma RotateNearer(cmds: seq<seq<Bytes>>, capacity: nat, v: Snapshot, w: Snapshot)
    requires Healthy(v) && v.queue != [] && AfterRotate(cmds, capacity, v, w)
    ensures Nearer(capacity, v, w)
  {
    hide CanCreate, KindOfCommand, Taken, Off, B.Shifted, Base;
    if w.created == v.created {
      assert w.queue == v.queue[1..];
    }
    forall i | 0 <= i < |w.queue| ensures !w.queue[i].error {
      if i < |v.queue| - 1 {
        assert w.queue[i] == v.queue[1..][i];
      } else {
        assert IsNew(cmds, v.created + (i - (|v.queue| - 1)), w.queue[i], v.arrived);
      }
    }
  }

  // A read leaves nothing wrong either.
  lemma ReadHealthy(cmds: seq<seq<Bytes>>, capacity: nat, v: Snapshot, n: nat, w: Snapshot)
    requires Healthy(v) && AfterRead(cmds, capacity, v, n, w)
    ensures Healthy(w) && w.arrived == v.arrived + n
  {
    hide CanCreate, KindOfCommand, Taken, Off, B.Shifted, Base, WaitsForHeader, Position;
    forall i | 0 <= i < |w.queue| ensures !w.queue[i].error {
      if i < |v.queue| {
        assert w.queue[i] == w.queue[..|v.queue|][i];
      } else {
        assert IsNew(cmds, v.created + (i - |v.queue|), w.queue[i], w.arrived);
      }
    }
  }

  // ---------- and always then ----------

  // The connection has used all bytes, and reads into an empty buffer.
  ghost predicate EmptiedAt(v: Snapshot, b: nat) {
    Healthy(v) && Drained(v.queue) && v.reading && v.arrived == b && v.received == 0
  }

  lemma EmptiedWhen(cmds: seq<seq<Bytes>>, capacity: nat, v: Snapshot, i: nat)
    requires AllSupported(cmds, capacity) && Good(cmds, capacity, v) && Healthy(v) && Drained(v.queue) && v.reading
    requires FullAt(cmds, i, v.arrived)
    ensures EmptiedAt(v, v.arrived)
  {
    hide AllSupported, Framed, NeededOk, SeenOk, HeldOk, BaseOk, MaximalOk, SettledOk, ReadOk, RoomOk, AwakeOk,
         FullAt, Off, Usable, Position;
    FullEnds(cmds, i, v.arrived);
    UsableAt(cmds, capacity, v, i);
  }

  lemma FullEnds(cmds: seq<seq<Bytes>>, i: nat, b: nat)
    requires FullAt(cmds, i, b)
    ensures i < |cmds| && SupportedCommand(cmds[i]) && Off(cmds, i) <= b <= Off(cmds, i + 1) <= |Text(cmds)|
    ensures Usable(cmds, i, b) == b
  {
    hide Off, Taken, KindOfCommand, Size, AllWhole, Text;
    AtMark(cmds, i, Taken(cmds[i], KindOfCommand(cmds[i]).value, b - Off(cmds, i)));
  }

  // Bytes that crowd an empty buffer stop the connection once all the rest is done.
  lemma CrowdStops(cmds: seq<seq<Bytes>>, capacity: nat, i: nat, b: nat, j: nat, len: nat, x: Snapshot)
    requires AllSupported(cmds, capacity) && Crowds(cmds, capacity, i, b, j, len)
    requires Good(cmds, capacity, x) && Healthy(x) && Drained(x.queue) && x.arrived == len
    requires B.Shifted(capacity, b, Base(x), len)
    ensures Asleep(x)
  {
    hide AllSupported, Framed, NeededOk, SeenOk, HeldOk, BaseOk, EmptyOk, MaximalOk, SettledOk, ReadOk, AwakeOk,
         FullAt, Off, Usable, SupportedCommand;
    UsableAt(cmds, capacity, x, j);
    UsedIs(cmds, x);
  }

  lemma UsedIs(cmds: seq<seq<Bytes>>, v: Snapshot)
    requires Framed(cmds, v)
    ensures v.received <= v.arrived && Used(v) == Min(Position(v), v.arrived)
  {
    hide Tiled, Forwarded, Text, CompleteOk, SendsOk;
  }

  // Where a SET can be cut.
  lemma SetCut(cmds: seq<seq<Bytes>>, capacity: nat, i: nat)
    requires AllSupported(cmds, capacity) && LongSet(cmds, i)
    ensures FullAt(cmds, i, Mark(cmds, i, 2)) && Off(cmds, i) < Mark(cmds, i, 2) < Off(cmds, i + 1) <= |Text(cmds)|
    ensures Taken(cmds[i], Set, Size(cmds[i], 2)) == 2
    ensures AllWhole(cmds[i][2..]) && HeadersIn(cmds[i][2..], 1) == 0
  {
    hide AllSupported, Off, Taken, KindOfCommand, Size, AllWhole, FullAt, HeadersIn, Text;
    SupportedAt(cmds, capacity, i);
    KeyPart(cmds[i]);
    AtCommand(cmds, i);
    FullFrom(cmds, i, 2, Mark(cmds, i, 2));
  }

  lemma KeyPart(ws: seq<Bytes>)
    requires |ws| >= 3 && AllWhole(ws)
    ensures 0 < Size(ws, 2) < |EncodeArray(ws)|
    ensures Taken(ws, Set, Size(ws, 2)) == 2
    ensures AllWhole(ws[2..]) && HeadersIn(ws[2..], 1) == 0
  {
    hide ArrayPrefix, EncodeArray, HeadersIn, HeaderSize;
    var h := |ArrayPrefix(|ws|)|;
    SizeAll(ws);
    SizeNext(ws, 2);
    SizesGrow(ws, 3);
    SizesGrow(ws, 2);
    SizeNext(ws, 0);
    SizeNext(ws, 1);
    HeadersInExact(ws, Size(ws, 2) - h, 2);
    WholeIsSeen(ws, 1, Size(ws, 2));
    HeaderLong(ws[2]);
    HeaderLong(ws[0]);
    FirstHeaderMissing(ws[2..]);
  }

  lemma HeaderLong(w: Bytes)
    requires WholeBulk(w)
    ensures 1 < HeaderSize(w) <= |w|
  {
  }

  lemma FirstHeaderMissing(ws: seq<Bytes>)
    requires AllWhole(ws) && ws != []
    ensures HeadersIn(ws, 1) == 0
  {
    HeaderLong(ws[0]);
  }

  // A SET that has been cut there waits for a header that does not come.
  lemma SetStops(cmds: seq<seq<Bytes>>, capacity: nat, i: nat, v: Snapshot, w: Snapshot)
    requires AllSupported(cmds, capacity) && LongSet(cmds, i) && Good(cmds, capacity, v)
    requires EmptiedAt(v, Mark(cmds, i, 2)) && Next(cmds, capacity, v, ReadBytes(1), w)
    ensures Asleep(w)
  {
    hide AllSupported, Framed, Settled, Off, Taken, KindOfCommand, Size, AllWhole, FullAt, HeadersIn, Text, Grown,
         Position, WaitsForHeader, B.Shifted, Base;
    SetCut(cmds, capacity, i);
    RoomForSome(cmds, capacity);
    SetWaits(cmds, capacity, i, v);
  }

  lemma SetWaits(cmds: seq<seq<Bytes>>, capacity: nat, i: nat, v: Snapshot)
    requires AllSupported(cmds, capacity) && LongSet(cmds, i) && Good(cmds, capacity, v)
    requires EmptiedAt(v, Mark(cmds, i, 2))
    ensures Position(v) <= v.arrived && |v.queue| == 1
    ensures WaitsForHeader(cmds, v.queue, v.created, v.arrived + 1, Position(v))
  {
    hide AllSupported, Framed, Settled, Off, Taken, KindOfCommand, Size, AllWhole, FullAt, HeadersIn, Text, Position;
    SetCut(cmds, capacity, i);
    SupportedAt(cmds, capacity, i);
    if v.queue == [] {
      UsableBetween(cmds, capacity, v, i);
      CompleteEnds(cmds, v);
      FullEnds(cmds, i, v.arrived);
      if v.created <= i {
        OffMonotone(cmds, v.created, i);
      } else {
        OffMonotone(cmds, i + 1, v.created);
      }
    } else {
      UsableWithin(cmds, capacity, v, i);
      PositionIs(cmds, capacity, v);
      Waiting(cmds, capacity, v);
    }
  }

  // ---------- runs ----------

  // A run of states without fault that ends in v.
  ghost predicate Leads(cmds: seq<seq<Bytes>>, capacity: nat, schedule: seq<Event>, run: seq<Snapshot>, v: Snapshot) {
    && IsRun(cmds, capacity, schedule, run) && Starts(run[0]) && run[|schedule|] == v
    && forall i :: 0 <= i < |run| ==> Good(cmds, capacity, run[i])
  }

  lemma LeadsFirst(cmds: seq<seq<Bytes>>, capacity: nat, v: Snapshot)
    requires Starts(v) && Good(cmds, capacity, v)
    ensures Leads(cmds, capacity, [], [v], v)
  {
    hide Good, Starts, Next;
  }

  lemma LeadsOn(cmds: seq<seq<Bytes>>, capacity: nat, schedule: seq<Event>, run: seq<Snapshot>, v: Snapshot, e: Event,
                w: Snapshot)
    requires Leads(cmds, capacity, schedule, run, v) && Next(cmds, capacity, v, e, w) && Good(cmds, capacity, w)
    ensures Leads(cmds, capacity, schedule + [e], run + [w], w)
  {
    hide Good, Starts, Next;
    var schedule', run' := schedule + [e], run + [w];
    forall i | 0 <= i < |schedule'| ensures Next(cmds, capacity, run'[i], schedule'[i], run'[i + 1]) {
      if i < |schedule| {
        assert Next(cmds, capacity, run[i], schedule[i], run[i + 1]);
      }
    }
  }

  lemma StillGood(cmds: seq<seq<Bytes>>, capacity: nat, v: Snapshot, e: Event, w: Snapshot)
    requires Good(cmds, capacity, v) && Next(cmds, capacity, v, e, w) && !e.ReadError? && Exact(cmds, capacity, w)
    ensures Good(cmds, capacity, w)
  {
    hide Framed, Settled, Grown, WaitsForHeader, Appended, HasRoom, Asks, Text, SendDone, Position, Base, Used,
         B.Shifted;
  }

  // What the contract of a run says beyond its single states.
  lemma WholeRun(cmds: seq<seq<Bytes>>, capacity: nat, schedule: seq<Event>, run: seq<Snapshot>)
    requires AllSupported(cmds, capacity) && IsRun(cmds, capacity, schedule, run) && Starts(run[0])
    requires forall i :: 0 <= i < |run| ==> Exact(cmds, capacity, run[i])
    ensures forall i :: 0 <= i < |run| && run[i].aborted ==> exists k :: 0 <= k < i && schedule[k].ReadError?
    ensures cmds != [] ==> forall i :: 0 <= i < |run| && Asleep(run[i]) ==> Stops(cmds, capacity)
  {
    hide AllSupported, Framed, Settled, Next, Starts, Stops, Resting;
    forall i | 0 <= i < |run| && run[i].aborted ensures exists k :: 0 <= k < i && schedule[k].ReadError? {
      BlameFor(cmds, capacity, schedule, run, i);
    }
    if cmds != [] {
      forall i | 0 <= i < |run| && Asleep(run[i]) ensures Stops(cmds, capacity) {
        AsleepBecause(cmds, capacity, run[i]);
      }
    }
  }

  lemma RoomToRead(cmds: seq<seq<Bytes>>, capacity: nat, v: Snapshot)
    requires AllSupported(cmds, capacity) && cmds != [] && Good(cmds, capacity, v) && v.reading
    ensures v.received < capacity && v.created <= |cmds|
  {
    hide AllSupported, Framed, NeededOk, SeenOk, HeldOk, BaseOk, EmptyOk, MaximalOk, SettledOk, ReadOk, AwakeOk;
    RoomForSome(cmds, capacity);
    Bounds(cmds, v);
  }

  function Uncreated(cmds: seq<seq<Bytes>>, created: nat): nat {
    if created <= |cmds| then |cmds| - created else 0
  }

  lemma LastOf(cmds: seq<seq<Bytes>>, capacity: nat, schedule: seq<Event>, run: seq<Snapshot>, v: Snapshot)
    requires Leads(cmds, capacity, schedule, run, v)
    ensures |run| == |schedule| + 1 && run[|run| - 1] == v && Good(cmds, capacity, v) && v.created <= |cmds|
  {
    hide Framed, Settled, Starts, Next;
    Bounds(cmds, v);
  }

  lemma ReadOn(cmds: seq<seq<Bytes>>, capacity: nat, v: Snapshot, n: nat, w: Snapshot)
    requires Healthy(v) && v.reading && 0 < n && v.received + n <= capacity && v.arrived + n <= |Text(cmds)|
    requires Next(cmds, capacity, v, ReadBytes(n), w)
    ensures Healthy(w) && w.arrived == v.arrived + n && B.Shifted(capacity, Base(v), Base(w), w.arrived)
  {
    hide Text, Grown, Position, WaitsForHeader, Base, B.Shifted, NoErrors;
    ReadHealthy(cmds, capacity, v, n, w);
  }

  lemma IsCommand(cmds: seq<seq<Bytes>>, i: nat)
    requires LongSet(cmds, i)
    ensures i < |cmds| && |cmds[i]| >= 3
  {
  }

  lemma InCrowd(cmds: seq<seq<Bytes>>, capacity: nat, i: nat, b: nat, j: nat, len: nat)
    requires Crowds(cmds, capacity, i, b, j, len)
    ensures cmds != [] && FullAt(cmds, i, b) && b < len <= |Text(cmds)| && len - b <= capacity
  {
    hide FullAt, Off, Taken, KindOfCommand, SupportedCommand, Size, AllWhole, Text;
    AtCommand(cmds, j);
  }

  lemma CrowdArrives(cmds: seq<seq<Bytes>>, capacity: nat, b: nat, len: nat, v: Snapshot, w: Snapshot)
    requires EmptiedAt(v, b) && b < len <= |Text(cmds)| && len - b <= capacity
    requires Next(cmds, capacity, v, ReadBytes(len - b), w)
    ensures Healthy(w) && w.arrived == len && B.Shifted(capacity, b, Base(w), len)
  {
    hide Next, Text, B.Shifted, NoErrors;
    ReadOn(cmds, capacity, v, len - b, w);
  }
}
