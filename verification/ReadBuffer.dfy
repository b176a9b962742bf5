/**
 The read buffer shared by client and backend connections: three offsets into
 one fixed array and a lock count that keeps the contents in place. Seen from
 outside it is an unbounded byte stream with a parse and a process position.
 */
module ReadBuffer {
  import opened Resp

  // Calls that commands and connections make on a shared buffer.
  datatype Op =
    | Received(bytes: Bytes)
    | Parsed(size: nat)
    | Processed(size: nat)
    | ProcessedOffset(size: nat)
    | Locked
    | Unlocked

  // Offsets that recycling leaves alone: nothing is processed, or something is
  // unprocessed and there is still room for what precedes it.
  predicate Tidy(capacity: nat, processed: nat, received: nat) {
    processed == 0 || (processed < received && processed + received <= capacity)
  }

  lemma Appended(stream: Bytes, base: nat, bytes: Bytes)
    requires base <= |stream|
    ensures (stream + bytes)[base..] == stream[base..] + bytes
  {
  }

  // Where recycling leaves the process and the receive offset of an unlocked buffer.
  function Recycled(capacity: nat, processed: nat, received: nat): (int, int) {
    if processed == received || processed > capacity - received then (0, received - processed) else (processed, received)
  }

  // The buffer moves on from position base to base', len bytes having arrived, only
  // if all of them are processed or there is little room for more.
  predicate Shifted(capacity: nat, base: nat, base': nat, len: nat) {
    base <= base' && (base' == base || base' == len || base' - base > capacity - (len - base))
  }

  lemma NotShifted(capacity: nat, base: nat, len: nat)
    ensures Shifted(capacity, base, base, len)
  {
  }

  lemma ShiftedTwice(capacity: nat, a: nat, b: nat, c: nat, len: nat)
    requires Shifted(capacity, a, b, len) && Shifted(capacity, b, c, len)
    ensures Shifted(capacity, a, c, len)
  {
  }

  // The buffer seen from outside: an unbounded stream, the part of it that has
  // left the array, the process and the parse position, and the locks.
  datatype View = View(stream: Bytes, base: nat, processed: nat, parsed: nat, locks: nat)

  // Without a lock, the processed bytes leave the array once all of them are
  // processed or the room behind them runs short.
  function Slid(capacity: nat, v: View): View {
    var received := |v.stream| - v.base;
    if v.locks == 0 && (v.processed == |v.stream| || v.processed - v.base > capacity - received)
    then v.(base := v.processed) else v
  }

  // What a call does; one that the source does not allow now does nothing.
  function Done(capacity: nat, v: View, op: Op): View {
    match op
    case Received(bytes) =>
      if |v.stream| - v.base + |bytes| <= capacity then v.(stream := v.stream + bytes) else v
    case Parsed(n) => v.(parsed := v.parsed + n)
    case Processed(n) =>
      if CanProcess(v, n) then Slid(capacity, v.(processed := v.processed + n)) else v
    case ProcessedOffset(n) =>
      if CanProcess(v, n) then v.(processed := v.processed + n) else v
    case Locked => v.(locks := v.locks + 1)
    case Unlocked =>
      if v.locks > 0 && (v.locks == 1 ==> v.processed <= v.parsed) then Slid(capacity, v.(locks := v.locks - 1)) else v
  }

  predicate CanProcess(v: View, n: nat) {
    v.processed + n <= |v.stream| && (v.locks == 0 ==> v.processed + n <= v.parsed)
  }

  function AllDone(capacity: nat, v: View, ops: seq<Op>): View {
    if ops == [] then v else Done(capacity, AllDone(capacity, v, ops[..|ops| - 1]), ops[|ops| - 1])
  }

  // The calls of others, who do not release the lock of a holder.
  function DoneByOthers(capacity: nat, v: View, op: Op): View {
    if op.Unlocked? && v.locks <= 1 then v else Done(capacity, v, op)
  }

  function AllDoneByOthers(capacity: nat, v: View, ops: seq<Op>): View {
    if ops == [] then v
    else DoneByOthers(capacity, AllDoneByOthers(capacity, v, ops[..|ops| - 1]), ops[|ops| - 1])
  }

  // Bytes are only appended, and positions only advance.
  predicate Advanced(v: View, w: View) {
    v.stream <= w.stream && v.base <= w.base && v.processed <= w.processed && v.parsed <= w.parsed
  }

  lemma {:induction false} AllAdvance(capacity: nat, v: View, ops: seq<Op>)
    requires v.base <= v.processed
    ensures Advanced(v, AllDone(capacity, v, ops))
    ensures AllDone(capacity, v, ops).base <= AllDone(capacity, v, ops).processed
  {
    if ops != [] {
      AllAdvance(capacity, v, ops[..|ops| - 1]);
    }
  }

  // A holder keeps its lock, and so everything it was handed out stays in the array.
  lemma {:induction false} OthersKeep(capacity: nat, v: View, ops: seq<Op>)
    requires v.locks > 0
    ensures var w := AllDoneByOthers(capacity, v, ops);
            Advanced(v, w) && w.base == v.base && w.locks > 0
  {
    if ops != [] {
      OthersKeep(capacity, v, ops[..|ops| - 1]);
    }
  }

  class ReadBuffer {
    const data: array<char>
    var processed: nat   // processed_offset_
    var received: nat    // received_offset_
    var parsed: nat      // parsed_offset_, may run ahead of received
    var locks: nat       // recycle_lock_count_

    ghost var stream: Bytes  // every byte received so far
    ghost var base: nat      // stream position of data[0]

    ghost predicate Valid()
      reads this, data
    {
      && processed <= received <= data.Length
      && base + received == |stream|
      && InData()
      && (locks == 0 ==> processed <= parsed)
    }

    // The array holds the stream from position base on.
    ghost predicate InData()
      reads this, data
    {
      received <= data.Length && base <= |stream| && data[..received] == stream[base..]
    }

    // Stream positions up to which bytes are processed and parsed.
    ghost function P(): nat
      reads this
    {
      base + processed
    }

    ghost function Q(): nat
      reads this
    {
      base + parsed
    }

    constructor (size: nat)
      ensures Valid() && fresh(data) && data.Length == size
      ensures stream == [] && P() == Q() == 0 && locks == 0 && base == 0
    {
      data := new char[size];
      processed, received, parsed, locks := 0, 0, 0, 0;
      stream, base := [], 0;
    }

    method Reset()
      modifies this
      ensures Valid() && stream == [] && P() == Q() == 0 && locks == 0 && base == 0
    {
      processed, received, parsed, locks := 0, 0, 0, 0;
      stream, base := [], 0;
    }

    predicate HasMuchFreeSpace()
      reads this
    {
      received * 3 < data.Length * 2
    }

    function FreeSpace(): int
      reads this
    {
      data.Length - received
    }

    function UnparsedBytes(): nat
      reads this
    {
      if received > parsed then received - parsed else 0
    }

    function ParsedUnreceivedBytes(): nat
      reads this
    {
      if parsed > received then parsed - received else 0
    }

    function UnprocessedBytes(): int
      reads this
    {
      Min(received, parsed) - processed
    }

    // `unprocessed_data()` for `unprocessed_bytes()`: the slice a command sends.
    method UnprocessedData() returns (slice: Bytes)
      requires Valid() && UnprocessedBytes() >= 0
      ensures P() + UnprocessedBytes() <= |stream| && slice == stream[P()..P() + UnprocessedBytes()]
    {
      slice := data[processed..processed + UnprocessedBytes()];
      assert slice == data[..received][processed..processed + UnprocessedBytes()];
    }

    // `unprocessed_data()` for `received_bytes()`.
    method ReceivedData() returns (slice: Bytes)
      requires Valid()
      ensures P() <= |stream| && slice == stream[P()..]
    {
      slice := data[processed..received];
      assert slice == data[..received][processed..];
    }

    // `unparsed_data()`
    method UnparsedData() returns (slice: Bytes)
      requires Valid() && parsed <= received
      ensures Q() <= |stream| && slice == stream[Q()..]
    {
      slice := data[parsed..received];
      assert slice == data[..received][parsed..];
    }

    // The bytes of a slice handed out earlier.
    method Slice(start: nat, size: nat) returns (slice: Bytes)
      requires Valid() && start + size <= received
      ensures base + start + size <= |stream| && slice == stream[base + start..base + start + size]
    {
      slice := data[start..start + size];
      assert slice == data[..received][start..start + size];
    }

    // A read into the free space completed: `update_received_bytes`.
    method UpdateReceived(bytes: Bytes)
      requires Valid() && |bytes| <= FreeSpace()
      modifies this`received, this`stream, data
      ensures Valid()
      ensures stream == old(stream) + bytes && received == old(received) + |bytes|
      ensures data[..old(received)] == old(data[..received])
    {
      ghost var before := data[..received];
      for i := 0 to |bytes|
        invariant received == old(received) && stream == old(stream)
        invariant data[..received] == before
        invariant data[received..received + i] == bytes[..i]
      {
        data[received + i] := bytes[i];
      }
      assert data[..received + |bytes|] == data[..received] + data[received..received + |bytes|];
      assert bytes[..|bytes|] == bytes;
      Appended(stream, base, bytes);
      received := received + |bytes|;
      stream := stream + bytes;
    }

    method UpdateParsed(n: nat)
      requires Valid()
      modifies this`parsed
      ensures Valid() && parsed == old(parsed) + n
    {
      parsed := parsed + n;
    }

    // Moves the process position without recycling.
    method UpdateProcessedOffset(n: nat)
      requires Valid() && processed + n <= received && (locks == 0 ==> processed + n <= parsed)
      modifies this`processed
      ensures Valid() && processed == old(processed) + n
    {
      processed := processed + n;
    }

    method UpdateProcessedBytes(n: nat)
      requires Valid() && processed + n <= received && (locks == 0 ==> processed + n <= parsed)
      modifies this`processed, this`received, this`parsed, this`base, data
      ensures Valid()
      ensures P() == old(P()) + n && Q() == old(Q())
      ensures locks > 0 ==> base == old(base) && unchanged(data)
      ensures Compacted(old(processed) + n, old(received), old(base))
      ensures Shifted(data.Length, old(base), base, |stream|) && (base == old(base) || base == P())
      ensures locks == 0 ==> Tidy(data.Length, processed, received)
    {
      processed := processed + n;
      TryRecycle();
    }

    // All that is parsed and received becomes processed, as after every hand-over.
    method ProcessParsed()
      requires Valid() && P() <= Min(Q(), |stream|)
      modifies this`processed, this`received, this`parsed, this`base, data
      ensures Valid() && Q() == old(Q()) && P() == Min(Q(), |stream|)
      ensures Shifted(data.Length, old(base), base, |stream|) && (base == old(base) || base == P())
      ensures locks > 0 ==> base == old(base)
      ensures locks == 0 ==> Tidy(data.Length, processed, received)
    {
      hide InData, Tidy, Shifted, Compacted;
      UpdateProcessedBytes(UnprocessedBytes());
    }

    method IncLock()
      requires Valid()
      modifies this`locks
      ensures Valid() && locks == old(locks) + 1
    {
      locks := locks + 1;
    }

    // A slice of n bytes is handed out: it is locked and counts as processed.
    method HandOut(n: nat) returns (start: nat)
      requires Valid() && n <= UnprocessedBytes()
      modifies this`locks, this`processed, this`received, this`parsed, this`base, data
      ensures Valid() && locks == old(locks) + 1
      ensures start == old(processed) && processed == start + n
      ensures received == old(received) && parsed == old(parsed) && base == old(base) && unchanged(data)
    {
      hide InData;
      start := processed;
      IncLock();
      UpdateProcessedBytes(n);
    }

    // n commands take a lock each.
    method AddLocks(n: nat)
      requires Valid()
      modifies this`locks
      ensures Valid() && locks == old(locks) + n
    {
      for i := 0 to n
        invariant Valid() && locks == old(locks) + i
      {
        IncLock();
      }
    }

    method DecLock()
      requires Valid() && locks > 0  // asserted by the source
      requires locks == 1 ==> processed <= parsed
      modifies this`locks, this`processed, this`received, this`parsed, this`base, data
      ensures Valid() && locks == old(locks) - 1
      ensures P() == old(P()) && Q() == old(Q())
      ensures locks > 0 ==> base == old(base) && unchanged(data)
      ensures Compacted(old(processed), old(received), old(base))
      ensures Shifted(data.Length, old(base), base, |stream|) && (base == old(base) || base == P())
      ensures locks == 0 ==> Tidy(data.Length, processed, received)
    {
      locks := locks - 1;
      TryRecycle();
    }

    // Where recycling leaves the offsets, given those before it.
    ghost predicate Compacted(processed0: nat, received0: nat, base0: nat)
      reads this
    {
      if locks == 0 && processed0 == received0 then
        processed == 0 && received == 0 && base == base0 + processed0
      else if locks == 0 && processed0 > data.Length - received0 then
        processed == 0 && received == received0 - processed0 && base == base0 + processed0
      else
        processed == processed0 && received == received0 && base == base0
    }

    method TryRecycle()
      requires Valid()
      modifies this`processed, this`received, this`parsed, this`base, data
      ensures Valid()
      ensures P() == old(P()) && Q() == old(Q())
      ensures locks > 0 ==> base == old(base) && unchanged(data)
      ensures Compacted(old(processed), old(received), old(base))
      ensures Shifted(data.Length, old(base), base, |stream|) && (base == old(base) || base == P())
      ensures locks == 0 ==> Tidy(data.Length, processed, received)
    {
      if locks == 0 {
        if processed == received {
          base := base + processed;
          parsed := parsed - processed;
          processed, received := 0, 0;
        } else if processed > data.Length - received {
          MoveToFront();
          base := base + processed;
          parsed := parsed - processed;
          received := received - processed;
          processed := 0;
        }
      }
    }

    // The overlapping move of the unprocessed bytes to the start of the array.
    method MoveToFront()
      requires processed <= received <= data.Length
      modifies data
      ensures data[..received - processed] == old(data[processed..received])
    {
      ghost var before := data[..];
      var n := received - processed;
      for i := 0 to n
        invariant data[..i] == before[processed..processed + i]
        invariant data[processed + i..] == before[processed + i..]
      {
        assert data[processed + i..][0] == data[processed + i];
        assert before[processed + i..][0] == before[processed + i];
        assert data[processed + i..][1..] == data[processed + i + 1..];
        assert before[processed + i..][1..] == before[processed + i + 1..];
        data[i] := data[processed + i];
      }
    }

    // Copies a reply over the start of a buffer that has just been reset.
    method PushReplyData(bytes: Bytes, isParsed: bool)
      requires Valid() && stream == [] && processed == received == parsed == 0 && base == 0
      requires |bytes| <= data.Length
      modifies this`received, this`parsed, this`stream, data
      ensures Valid() && stream == bytes && P() == 0 && Q() == (if isParsed then |bytes| else 0)
    {
      UpdateReceived(bytes);
      if isParsed {
        parsed := parsed + |bytes|;
      }
    }

    ghost function Seen(): View
      reads this
    {
      View(stream, base, P(), Q(), locks)
    }

    // Slice stability. While a holder keeps its own lock, the others may
    // receive, parse, process, lock and release their locks in any order: the
    // bytes at an offset handed out to the holder, and the stream position
    // that offset stands for, stay what they were.
    method WhileLocked(ops: seq<Op>, start: nat, size: nat)
      requires Valid() && locks > 0 && start + size <= received
      modifies this, data
      ensures Valid() && Seen() == AllDoneByOthers(data.Length, old(Seen()), ops)
      ensures locks > 0 && base == old(base)
      ensures start + size <= received && data[start..start + size] == old(data[start..start + size])
    {
      hide InData, Done;
      ghost var before, slice := Seen(), data[start..start + size];
      SliceInStream(start, size);
      for i := 0 to |ops|
        invariant Valid() && Seen() == AllDoneByOthers(data.Length, before, ops[..i])
      {
        if !(ops[i].Unlocked? && locks <= 1) {
          AnyOp(ops[i]);
        }
        assert ops[..i + 1][..i] == ops[..i];
      }
      assert ops[..|ops|] == ops;
      OthersKeep(data.Length, before, ops);
      SliceInStream(start, size);
    }

    lemma SliceInStream(start: nat, size: nat)
      requires Valid() && start + size <= received
      ensures base + start + size <= |stream|
      ensures data[start..start + size] == stream[base + start..base + start + size]
    {
      forall k | start <= k < start + size ensures data[k] == stream[base + k] {
        assert data[..received][k] == stream[base..][k];
      }
    }

    // One call, if the source allows it now.
    method AnyOp(op: Op)
      requires Valid()
      modifies this, data
      ensures Valid() && Seen() == Done(data.Length, old(Seen()), op)
    {
      hide InData;
      match op {
        case Received(bytes) =>
          if |bytes| <= FreeSpace() {
            UpdateReceived(bytes);
          }
        case Parsed(n) =>
          UpdateParsed(n);
        case Processed(n) =>
          if processed + n <= received && (locks == 0 ==> processed + n <= parsed) {
            UpdateProcessedBytes(n);
          }
        case ProcessedOffset(n) =>
          if processed + n <= received && (locks == 0 ==> processed + n <= parsed) {
            UpdateProcessedOffset(n);
          }
        case Locked =>
          IncLock();
        case Unlocked =>
          if locks > 0 && (locks == 1 ==> processed <= parsed) {
            DecLock();
          }
      }
    }

    // Any sequence of calls, with recycling whenever no lock is held, acts on
    // an unbounded stream: it does what each call does to the stream, bytes are
    // only appended, positions only advance, and what is still unprocessed is
    // the end of the stream.
    method AnyRun(ops: seq<Op>)
      requires Valid()
      modifies this, data
      ensures Valid() && Seen() == AllDone(data.Length, old(Seen()), ops)
      ensures old(stream) <= stream && old(P()) <= P() && old(Q()) <= Q()
      ensures data[processed..received] == stream[P()..]
      ensures parsed - processed == Q() - P()
    {
      hide Done, InData;
      for i := 0 to |ops|
        invariant Valid() && Seen() == AllDone(data.Length, old(Seen()), ops[..i])
      {
        AnyOp(ops[i]);
        assert ops[..i + 1][..i] == ops[..i];
      }
      assert ops[..|ops|] == ops;
      AllAdvance(data.Length, old(Seen()), ops);
      SliceInStream(processed, received - processed);
    }
  }
}
