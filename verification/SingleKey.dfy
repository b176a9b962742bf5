/**
 Single-key Redis commands: one backend, whose reply is streamed to the client
 through the fixed-size buffer of the backend connection.
 */
module SingleKey {
  import opened Resp
  import opened Net
  import B = ReadBuffer

  // A line reply: one of + - : and exactly one '\n', at the end.
  predicate IsLine(doc: Bytes) {
    && doc != [] && doc[0] in {'+', '-', ':'}
    && doc[|doc| - 1] == '\n'
    && forall i :: 0 <= i < |doc| - 1 ==> doc[i] != '\n'
  }

  predicate IsReply(doc: Bytes) {
    WholeBulk(doc) || IsLine(doc)
  }

  // Bytes of a reply that must be in the buffer before it can be parsed: the
  // whole line, or the length line of a bulk.
  function Needed(doc: Bytes): (n: nat)
    requires IsReply(doc)
    ensures 0 < n <= |doc|
  {
    if WholeBulk(doc) then HeaderSize(doc) else |doc|
  }

  // Position of the first '\n' at or after i, or the end of the text.
  function NewLine(s: Bytes, i: nat): (e: nat)
    requires i <= |s|
    ensures i <= e <= |s|
    ensures forall k :: i <= k < e ==> s[k] != '\n'
    ensures e < |s| ==> s[e] == '\n'
    decreases |s| - i
  {
    if i == |s| || s[i] == '\n' then i else NewLine(s, i + 1)
  }

  lemma NewLineAt(s: Bytes, i: nat, e: nat)
    requires i <= e <= |s|
    requires forall k :: i <= k < e ==> s[k] != '\n'
    requires e < |s| ==> s[e] == '\n'
    ensures NewLine(s, i) == e
    decreases e - i
  {
    if i < e {
      NewLineAt(s, i + 1, e);
    }
  }

  datatype Parse = Refused | NeedMore | Found(size: nat, complete: bool)

  // `ParseRedisSimpleReply` on the unparsed bytes of the buffer.
  method ParseSimple(text: Bytes) returns (r: Parse)
    requires text != []
    ensures r == SimpleReply(text)
  {
    if text[0] != ':' && text[0] != '+' && text[0] != '-' && text[0] != '$' {
      return Refused;
    }
    var p := 0;
    while p < |text| && text[p] != '\n'
      invariant 0 <= p <= |text|
      invariant NewLine(text, 0) == NewLine(text, p)
    {
      p := p + 1;
    }
    if p == |text| {
      return NeedMore;
    }
    if text[0] == '$' {
      var present, total := ScanBulk(text);
      if present < 0 {
        return Refused;
      }
      if present == 0 {
        return NeedMore;
      }
      return Found(total, present >= total);
    }
    return Found(p + 1, true);
  }

  function SimpleReply(text: Bytes): Parse
    requires text != []
  {
    if text[0] !in {':', '+', '-', '$'} then Refused
    else
      var p := NewLine(text, 0);
      if p == |text| then NeedMore
      else if text[0] == '$' then
        match ParseBulk(text)
        case Malformed => Refused
        case Pending => NeedMore
        case Known(total) => Found(total, |text| >= total)
      else Found(p + 1, true)
  }

  // A received prefix of a reply is parsed exactly when the needed bytes are
  // there, and then as the whole reply.
  lemma PrefixParses(doc: Bytes, text: Bytes)
    requires IsReply(doc) && text <= doc && text != []
    ensures SimpleReply(text) ==
            if |text| < Needed(doc) then NeedMore else Found(|doc|, |text| == |doc|)
  {
    hide ParseBulk;
    assert text == doc[..|text|];
    var p := NewLine(text, 0);
    if WholeBulk(doc) {
      PrefixOfWhole(doc, |text|);
      BulkStarts(doc);
      if |text| >= HeaderSize(doc) {
        var e := BulkLine(doc);
        assert text[e] == '\n';
        assert p <= e;
      }
    } else {
      if |text| < |doc| {
        NewLineAt(text, 0, |text|);
      } else {
        assert text == doc;
        NewLineAt(doc, 0, |doc| - 1);
      }
    }
  }

  lemma BulkStarts(w: Bytes)
    requires WholeBulk(w)
    ensures w[0] == '$' && |w| >= 5
  {
  }

  // The length line of a whole bulk ends within its header.
  lemma BulkLine(w: Bytes) returns (e: nat)
    requires WholeBulk(w)
    ensures e < HeaderSize(w) && w[e] == '\n'
  {
    e := if w[1] == '-' then 4 else LineEnd(w, 1) + 1;
  }

  // Every partly received header leaves room for another read.
  predicate Fits(doc: Bytes, capacity: nat)
    requires IsReply(doc)
  {
    (Needed(doc) - 1) * 3 < capacity * 2
  }

  // Completions of asynchronous operations, and query data from the client.
  datatype Event =
    | QuerySent(result: Option<BackendError>)
    | MoreQuery(last: bool)
    | ReplyRead(size: nat)
    | ReplyError(ec: BackendError)
    | BecomesFirst
    | ReplyWritten(ok: bool)

  datatype BackendError =
    | Connect | WriteQuery | ReadReply | Protocol
    | ConnectTimeout | WriteTimeout | ReadTimeout | Other

  function RedisErrorReply(ec: BackendError): (line: Bytes)
    ensures IsLine(line) && |line| <= 64
  {
    "-Backend " + Trouble(ec) + "\r\n"
  }

  function Trouble(ec: BackendError): (text: Bytes)
    ensures '\n' !in text && |text| <= 32
  {
    match ec
    case Connect => "Connect Error"
    case WriteQuery => "Write Error"
    case ReadReply => "Read Error"
    case Protocol => "Protocol Error"
    case ConnectTimeout => "Connect Timeout"
    case WriteTimeout => "Write Timeout"
    case ReadTimeout => "Read Timeout"
    case Other => "Unknown Error"
  }

  // The lines, spelled out.
  lemma ErrorLines()
    ensures RedisErrorReply(Connect) == "-Backend Connect Error\r\n"
    ensures RedisErrorReply(WriteQuery) == "-Backend Write Error\r\n"
    ensures RedisErrorReply(ReadReply) == "-Backend Read Error\r\n"
  {
    hide IsLine;
  }

  lemma OtherErrorLines()
    ensures RedisErrorReply(Other) == "-Backend Unknown Error\r\n"
    ensures RedisErrorReply(Protocol) == "-Backend Protocol Error\r\n"
  {
    hide IsLine;
  }

  lemma ConnectTimeoutLine()
    ensures RedisErrorReply(ConnectTimeout) == "-Backend Connect Timeout\r\n"
  {
    hide IsLine;
  }

  lemma TimeoutLines()
    ensures RedisErrorReply(WriteTimeout) == "-Backend Write Timeout\r\n"
    ensures RedisErrorReply(ReadTimeout) == "-Backend Read Timeout\r\n"
  {
    hide IsLine;
  }

  // Replies of every form, and how much of them must be there.
  lemma KnownReplies()
    ensures IsReply("+OK\r\n") && Needed("+OK\r\n") == 5
    ensures IsReply("-ERR syntax\r\n") && IsReply(":1000\r\n")
    ensures IsReply("$6\r\nfoobar\r\n") && Needed("$6\r\nfoobar\r\n") == 4
    ensures IsReply("$-1\r\n") && Needed("$-1\r\n") == 5
    ensures !IsReply("*1\r\n") && !IsReply("+OK\r") && !IsReply("OK\r\n")
  {
    KnownTexts();
    assert LineEnd("$6\r\nfoobar\r\n", 1) == 2;
  }

  // What can be seen of a command between two completions.
  datatype Snapshot = Snapshot(
    queryComplete: bool, sending: bool, started: bool, reading: bool, arrived: nat, free: int,
    first: bool, isWriting: bool, size: nat, hasWritten: bool,
    failed: bool, error: BackendError, aborted: bool, rotated: bool, sent: Bytes)

  // The part that only the given kind of event may change stays as it was.
  ghost predicate SameQuery(v: Snapshot, w: Snapshot) {
    w.queryComplete == v.queryComplete && w.sending == v.sending && w.started == v.started
  }

  ghost predicate SameOutcome(v: Snapshot, w: Snapshot) {
    w.failed == v.failed && w.error == v.error && w.aborted == v.aborted
  }

  // The error reply for ec has taken the place of the backend's.
  ghost predicate FailedWith(v: Snapshot, w: Snapshot, ec: BackendError) {
    && w.failed && w.error == ec && !w.aborted && w.first == v.first && w.queryComplete == v.queryComplete
    && w.sent == v.sent && !w.sending && !w.reading && w.isWriting == (v.first && v.queryComplete)
  }

  // What every completion does; one that cannot happen now does nothing.
  ghost predicate Next(reply: Bytes, capacity: nat, v: Snapshot, e: Event, w: Snapshot)
    requires IsReply(reply)
  {
    if v.aborted || v.rotated then w == v
    else match e
      case QuerySent(result) =>
        if !v.sending then w == v
        else if result.None? then
          w == v.(sending := false, started := v.started || v.queryComplete, reading := v.reading || v.queryComplete)
        else FailedWith(v, w, result.value)
      case MoreQuery(last) =>
        if v.queryComplete || v.sending then w == v
        else
          && SameOutcome(v, w) && w.queryComplete == last && w.sending == !v.failed && w.first == v.first
          && w.arrived == v.arrived && w.sent == v.sent && w.isWriting == (v.isWriting || (v.failed && last && v.first))
      case ReplyRead(n) =>
        if !(v.reading && 0 < n <= v.free && v.arrived + n <= |reply|) then w == v
        else
          && SameOutcome(v, w) && SameQuery(v, w) && w.first == v.first && w.sent == v.sent
          && w.arrived == v.arrived + n
          && (w.arrived < Needed(reply) ==> !w.isWriting && !w.rotated && (w.reading <==> w.arrived * 3 < capacity * 2))
      case ReplyError(ec) =>
        if !v.reading then w == v
        else if v.hasWritten then w == v.(aborted := true)
        else FailedWith(v, w, ec)
      case BecomesFirst =>
        if v.first then w == v
        else
          && SameOutcome(v, w) && SameQuery(v, w) && w.first
          && w.arrived == v.arrived && w.sent == v.sent && w.reading == v.reading
      case ReplyWritten(ok) =>
        if !v.isWriting then w == v
        else if !ok then w == v.(aborted := true)
        else
          && SameOutcome(v, w) && SameQuery(v, w) && w.first == v.first && w.arrived == v.arrived
          && v.sent <= w.sent && |w.sent| == |v.sent| + v.size
  }

  ghost predicate Starts(capacity: nat, isFirst: bool, isComplete: bool, v: Snapshot) {
    v == Snapshot(isComplete, true, false, false, 0, capacity, isFirst, false, 0, false, false, Other, false, false, [])
  }

  ghost predicate IsRun(reply: Bytes, capacity: nat, schedule: seq<Event>, run: seq<Snapshot>)
    requires IsReply(reply)
  {
    |run| == |schedule| + 1 && forall i :: 0 <= i < |schedule| ==> Next(reply, capacity, run[i], schedule[i], run[i + 1])
  }

  // The front command's reply is unfinished and nothing is outstanding.
  predicate Stalled(v: Snapshot) {
    v.started && v.first && !v.aborted && !v.rotated && !v.reading && !v.isWriting
  }

  // The client has a prefix of the backend's reply, or of the error line; all of
  // it when the command is done.
  ghost predicate Exact(reply: Bytes, v: Snapshot) {
    var doc := if v.failed then RedisErrorReply(v.error) else reply;
    v.sent <= doc && (v.rotated && !v.aborted ==> v.sent == doc)
  }

  // Bytes of the reply that can be passed on.
  ghost function Ready(reply: Bytes, v: Snapshot): nat
    requires IsReply(reply)
  {
    if v.failed then |RedisErrorReply(v.error)| else if v.arrived >= Needed(reply) then v.arrived else 0
  }

  // The front command is writing whenever it has bytes to pass on, never more
  // than those, and it is done exactly when its whole reply is written.
  ghost predicate Delivers(reply: Bytes, v: Snapshot)
    requires IsReply(reply)
  {
    && (v.isWriting && !v.aborted ==> v.first && v.size > 0 && |v.sent| + v.size <= Ready(reply, v))
    && (v.first && v.queryComplete && !v.aborted && !v.isWriting ==>
          && |v.sent| == Ready(reply, v)
          && (v.rotated <==> |v.sent| == if v.failed then |RedisErrorReply(v.error)| else |reply|))
  }

  // A completion that makes the backend fail with ec.
  ghost predicate Breaks(e: Event, ec: BackendError) {
    e == QuerySent(Some(ec)) || e == ReplyError(ec)
  }

  // A command that failed has an error completion to blame.
  lemma {:induction false} BlameFor(reply: Bytes, capacity: nat, schedule: seq<Event>, run: seq<Snapshot>, i: nat)
    requires IsReply(reply) && IsRun(reply, capacity, schedule, run) && i < |run| && !run[0].failed && run[i].failed
    ensures exists k :: 0 <= k < i && Breaks(schedule[k], run[i].error)
  {
    hide IsReply;
    assert i > 0;
    assert Next(reply, capacity, run[i - 1], schedule[i - 1], run[i]);
    if run[i - 1].failed && run[i].error == run[i - 1].error {
      BlameFor(reply, capacity, schedule, run, i - 1);
    } else {
      assert Breaks(schedule[i - 1], run[i].error);
    }
  }

  // A reply header that is too long for the buffer, read up to its last byte or
  // as far as there is room.
  function LongRead(reply: Bytes, capacity: nat): seq<Event>
    requires IsReply(reply)
  {
    [QuerySent(None), ReplyRead(Min(Needed(reply) - 1, capacity))]
  }

  lemma LongHeader(reply: Bytes, capacity: nat, run: seq<Snapshot>)
    requires IsReply(reply) && capacity >= 1024 && !Fits(reply, capacity)
    requires IsRun(reply, capacity, LongRead(reply, capacity), run) && Starts(capacity, true, true, run[0])
    ensures Stalled(run[2])
  {
    hide IsReply, Needed;
    var schedule := LongRead(reply, capacity);
    assert Next(reply, capacity, run[0], schedule[0], run[1]);
    assert Next(reply, capacity, run[1], schedule[1], run[2]);
  }

  class SingleKeyCommand {
    const buffer: B.ReadBuffer   // reply buffer of the backend connection
    const reply: Bytes           // what the backend answers

    var queryComplete: bool      // query_recv_complete()
    var sending: bool            // a write of the query is outstanding
    var started: bool            // ReadReply has been called
    var reading: bool            // is_reading_reply_
    var recvComplete: bool       // reply_recv_complete_
    var failed: bool             // no_recycle_: an error reply was put in the buffer
    var error: BackendError      // which one
    var first: bool              // the command is the front of the pipeline
    var isWriting: bool          // a client write is outstanding
    var hasWritten: bool         // has_written_some_reply_
    var aborted: bool
    var rotated: bool
    var start: nat               // the slice of the buffer being written
    var size: nat
    var arrived: nat             // bytes of the reply that have arrived
    var sent: Bytes              // bytes the client has been sent

    ghost var doc: Bytes         // the reply to deliver: the backend's, or an error line

    // Parse position, as far as the received bytes allow.
    ghost predicate ParsedOk()
      reads this, buffer
    {
      && IsReply(doc)
      && (buffer.Q() == 0 || buffer.Q() == |doc|)
      && (buffer.Q() == 0 <==> |buffer.stream| < Needed(doc))
      && (recvComplete <==> buffer.Q() == |doc| == |buffer.stream|)
    }

    // Positions and outstanding operations.
    ghost predicate CoreOk()
      reads this, buffer, buffer.data
    {
      && buffer.Valid() && buffer.data.Length >= 1024
      && IsReply(doc) && IsReply(reply)
      && buffer.stream <= doc
      && buffer.P() <= buffer.Q() && (buffer.Q() == 0 || buffer.Q() == |doc|)
      && buffer.locks == (if reading then 1 else 0) + (if isWriting then 1 else 0)
      && (hasWritten <==> buffer.P() > 0)
      && (!failed ==> doc == reply && arrived == |buffer.stream|)
      && (failed ==> doc == RedisErrorReply(error) && buffer.stream == doc && buffer.Q() == |doc| && recvComplete && !reading)
      && (!started && !failed ==> buffer.stream == [] && !reading)
      && (started ==> queryComplete && !sending)
      && (sending ==> !failed) && (recvComplete ==> !reading)
      && (isWriting || buffer.P() > 0 ==> first && queryComplete)
    }

    // The client has got, or is being written, exactly the processed bytes.
    ghost predicate SentOk()
      reads this, buffer
    {
      && |sent| + (if isWriting then size else 0) == buffer.P()
      && sent <= doc
      && (isWriting ==> size > 0 && buffer.base + start == |sent| && start + size <= buffer.processed)
    }

    // Nothing to write and not everything received.
    ghost predicate Idle()
      reads this, buffer
    {
      !failed && !recvComplete && !isWriting && buffer.UnprocessedBytes() == 0
    }

    // Nothing is forgotten: bytes that may be written are being written, and
    // when there are none a read is outstanding.
    ghost predicate ProgressOk()
      reads this, buffer
      requires IsReply(doc)
    {
      && (first && queryComplete && !isWriting ==> buffer.UnprocessedBytes() == 0)
      && (first && queryComplete && recvComplete && !isWriting ==> rotated)
      && (Fits(doc, buffer.data.Length) && started && Idle() ==> reading)
      && (rotated ==> !isWriting && sent == doc)
    }

    ghost predicate Valid()
      reads this, buffer, buffer.data
    {
      && CoreOk() && SentOk()
      && (!aborted ==> ParsedOk() && ProgressOk())
    }

    // ---------- delivering ----------

    method TryWriteReply()
      requires CoreOk() && SentOk() && !aborted && !rotated && first && queryComplete
      modifies this`isWriting, this`hasWritten, this`start, this`size,
               buffer`locks, buffer`processed, buffer`received, buffer`parsed, buffer`base, buffer.data
      ensures CoreOk() && SentOk()
      ensures buffer.stream == old(buffer.stream) && buffer.Q() == old(buffer.Q())
      ensures isWriting == (old(isWriting) || old(buffer.UnprocessedBytes()) > 0)
      ensures !old(isWriting) ==> buffer.UnprocessedBytes() == 0
      ensures old(isWriting) || old(buffer.UnprocessedBytes()) == 0 ==>
                buffer.processed == old(buffer.processed) && buffer.received == old(buffer.received)
                && buffer.parsed == old(buffer.parsed)
    {
      hide B.ReadBuffer.InData, IsReply, Needed, Fits, RedisErrorReply;
      var n := buffer.UnprocessedBytes();
      if !isWriting && n > 0 {
        isWriting, hasWritten := true, true;
        size := n;
        start := buffer.HandOut(n);
      }
    }

    constructor (reply: Bytes, capacity: nat, isFirst: bool, isComplete: bool)
      requires IsReply(reply) && capacity >= 1024
      ensures Valid() && fresh(buffer) && fresh(buffer.data)
      ensures this.reply == reply && buffer.data.Length == capacity && Starts(capacity, isFirst, isComplete, Seen())
      ensures !aborted && !rotated && first == isFirst && queryComplete == isComplete && sending && !started
      ensures sent == [] && buffer.received == 0 && buffer.stream == [] && doc == reply
    {
      buffer := new B.ReadBuffer(capacity);
      this.reply := reply;
      queryComplete, sending, started := isComplete, true, false;
      reading, recvComplete, failed, error := false, false, false, Other;
      first, isWriting, hasWritten, aborted, rotated := isFirst, false, false, false, false;
      start, size, arrived, sent := 0, 0, 0, [];
      doc := reply;
    }

    // ---------- reading the reply ----------

    method ReadReply()
      requires CoreOk() && SentOk() && !reading && started && !failed && !recvComplete
      modifies this`reading, buffer`locks
      ensures CoreOk() && SentOk() && reading
    {
      hide B.ReadBuffer.InData, IsReply, Needed, Fits, RedisErrorReply;
      reading := true;
      buffer.IncLock();
    }

    method TryReadMoreReply()
      requires CoreOk() && SentOk() && (started || failed)
      modifies this`reading, buffer`locks
      ensures CoreOk() && SentOk()
      ensures reading == (old(reading) || (!recvComplete && buffer.HasMuchFreeSpace()))
    {
      hide B.ReadBuffer.InData, IsReply, Needed, Fits, RedisErrorReply;
      if recvComplete || reading || !buffer.HasMuchFreeSpace() {
        return;
      }
      ReadReply();
    }

    method ParseReply() returns (ok: bool)
      requires CoreOk() && SentOk() && started && !failed && !recvComplete && !reading && buffer.stream != []
      requires buffer.Q() == 0 || |buffer.stream| >= Needed(doc)
      modifies this`recvComplete, buffer`parsed
      ensures ok
      ensures CoreOk() && SentOk() && ParsedOk()
    {
      hide B.ReadBuffer.InData, RedisErrorReply;
      if buffer.UnparsedBytes() == 0 {
        if buffer.ParsedUnreceivedBytes() == 0 {
          recvComplete := true;
        }
        return true;
      }
      var text := buffer.UnparsedData();
      assert text == buffer.stream;
      PrefixParses(doc, text);
      var r := ParseSimple(text);
      match r {
        case Refused => return false;
        case NeedMore => return true;
        case Found(n, complete) =>
          if complete {
            recvComplete := true;
          }
          buffer.UpdateParsed(n);
          return true;
      }
    }

    // A read of the backend completed: `HandleRead` of the connection.
    method HandleRead(chunk: Bytes)
      requires Valid() && !aborted && !rotated && reading
      requires chunk != [] && |chunk| <= buffer.FreeSpace() && buffer.stream + chunk <= doc
      modifies this`reading, this`arrived, this`recvComplete, this`isWriting, this`hasWritten, this`start, this`size,
               buffer, buffer.data
      ensures Valid() && buffer.stream == old(buffer.stream) + chunk && arrived == old(arrived) + |chunk|
      ensures |buffer.stream| < Needed(doc) ==>
                !isWriting && (reading <==> |buffer.stream| * 3 < buffer.data.Length * 2)
    {
      hide B.ReadBuffer.InData, IsReply, Needed, Fits, RedisErrorReply;
      reading := false;
      arrived := arrived + |chunk|;
      buffer.UpdateReceived(chunk);
      buffer.DecLock();
      OnBackendReplyReceived();
    }

    method OnBackendReplyReceived()
      requires CoreOk() && SentOk() && started && !failed && !recvComplete && !reading && buffer.stream != []
      requires !aborted && !rotated && buffer.P() < |buffer.stream|
      requires buffer.Q() == 0 || |buffer.stream| >= Needed(doc)
      modifies this`recvComplete, this`reading, this`isWriting, this`hasWritten, this`start, this`size,
               buffer`locks, buffer`processed, buffer`received, buffer`parsed, buffer`base, buffer.data
      ensures Valid()
      ensures |buffer.stream| < Needed(doc) ==>
                !isWriting && (reading <==> |buffer.stream| * 3 < buffer.data.Length * 2)
    {
      hide B.ReadBuffer.InData, IsReply, Needed, RedisErrorReply, B.Shifted, B.Tidy, B.ReadBuffer.Compacted;
      var ok := ParseReply();
      if !ok {
        // turned into a protocol error; never reached with well-formed backends
        assert false;
      }
      if first {
        TryWriteReply();
      }
      TryReadMoreReply();
    }

    // ---------- backend errors ----------

    method OnBackendRecoverableError(ec: BackendError)
      requires buffer.Valid() && buffer.data.Length >= 1024 && IsReply(reply) && (started ==> queryComplete)
      requires !aborted && !rotated && !hasWritten && !isWriting && !reading && !failed && !sending && sent == []
      modifies this`doc, this`recvComplete, this`failed, this`error, this`isWriting, this`hasWritten, this`start,
               this`size, buffer, buffer.data
      ensures Valid() && failed && error == ec && isWriting == (first && queryComplete)
    {
      hide B.ReadBuffer.InData, IsReply, Needed, RedisErrorReply, WholeBulk, IsLine;
      SetErrorReply(ec);
      if queryComplete {
        if first {
          TryWriteReply();
        }
      }
    }

    // The error line becomes the reply.
    method SetErrorReply(ec: BackendError)
      requires buffer.Valid() && buffer.data.Length >= 1024 && IsReply(reply) && (started ==> queryComplete)
      requires !hasWritten && !isWriting && !reading && !failed && !sending && sent == []
      modifies this`doc, this`recvComplete, this`failed, this`error, buffer, buffer.data
      ensures CoreOk() && SentOk() && ParsedOk() && failed && error == ec && recvComplete
      ensures buffer.UnprocessedBytes() > 0
    {
      hide B.ReadBuffer.InData, Needed, RedisErrorReply, WholeBulk, IsLine;
      var line := RedisErrorReply(ec);
      buffer.Reset();
      buffer.PushReplyData(line, true);
      doc := line;
      recvComplete, failed, error := true, true, ec;
    }

    // A read failed, or the reply could not be sent on.
    method OnBackendReadError(ec: BackendError)
      requires Valid() && !aborted && !rotated && reading
      modifies this`reading, this`aborted, this`doc, this`recvComplete, this`failed, this`error, this`isWriting,
               this`hasWritten, this`start, this`size, buffer, buffer.data
      ensures Valid()
      ensures IsReply(reply) && Next(reply, buffer.data.Length, old(Seen()), ReplyError(ec), Seen())
    {
      hide B.ReadBuffer.InData, IsReply, Needed, Fits, RedisErrorReply;
      if hasWritten {
        aborted := true;
        return;
      }
      reading := false;
      OnBackendRecoverableError(ec);
    }

    // ---------- the query ----------

    method OnWriteQueryFinished(result: Option<BackendError>)
      requires Valid() && !aborted && !rotated && sending
      modifies this`sending, this`started, this`reading, this`doc, this`recvComplete, this`failed, this`error,
               this`isWriting, this`hasWritten, this`start, this`size, buffer, buffer.data
      ensures Valid() && !aborted
      ensures IsReply(reply) && Next(reply, buffer.data.Length, old(Seen()), QuerySent(result), Seen())
    {
      hide B.ReadBuffer.InData, IsReply, Needed, RedisErrorReply;
      sending := false;
      if result.Some? {
        OnBackendRecoverableError(result.value);
        return;
      }
      if queryComplete {
        started := true;
        ReadReply();
      }
    }

    // More of the query arrived; `last` when it is now complete.
    method ContinueWriteQuery(last: bool)
      requires Valid() && !aborted && !rotated && !queryComplete && !sending
      modifies this`queryComplete, this`sending, this`isWriting, this`hasWritten, this`start, this`size,
               buffer`locks, buffer`processed, buffer`received, buffer`parsed, buffer`base, buffer.data
      ensures Valid() && !aborted
      ensures IsReply(reply) && Next(reply, buffer.data.Length, old(Seen()), MoreQuery(last), Seen())
    {
      hide B.ReadBuffer.InData, IsReply, Needed, Fits, RedisErrorReply;
      if failed {
        SkipQuery(last);
        return;
      }
      queryComplete := last;
      sending := true;
    }

    // The backend failed: the rest of the query is dropped, and once it is there
    // the error is the answer.
    method SkipQuery(last: bool)
      requires Valid() && !aborted && !rotated && !queryComplete && !sending && failed
      modifies this`queryComplete, this`isWriting, this`hasWritten, this`start, this`size,
               buffer`locks, buffer`processed, buffer`received, buffer`parsed, buffer`base, buffer.data
      ensures Valid() && !aborted
      ensures IsReply(reply) && Next(reply, buffer.data.Length, old(Seen()), MoreQuery(last), Seen())
    {
      hide B.ReadBuffer.InData, IsReply, Needed, Fits, RedisErrorReply;
      queryComplete := last;
      if last && first {
        TryWriteReply();
      }
    }

    // ---------- the client side ----------

    // The command reaches the front of the pipeline.
    method StartWriteReply()
      requires Valid() && !aborted && !rotated && !first
      modifies this`first, this`isWriting, this`hasWritten, this`start, this`size,
               buffer`locks, buffer`processed, buffer`received, buffer`parsed, buffer`base, buffer.data
      ensures Valid() && !aborted
      ensures IsReply(reply) && Next(reply, buffer.data.Length, old(Seen()), BecomesFirst, Seen())
    {
      hide B.ReadBuffer.InData, IsReply, Needed, Fits, RedisErrorReply;
      first := true;
      if queryComplete {
        TryWriteReply();
      }
    }

    method OnWriteReplyFinished(ok: bool)
      requires Valid() && !aborted && !rotated && isWriting
      modifies this`reading, this`isWriting, this`hasWritten, this`start, this`size, this`sent, this`rotated,
               this`aborted, buffer`locks, buffer`processed, buffer`received, buffer`parsed, buffer`base, buffer.data
      ensures Valid()
      ensures IsReply(reply) && Next(reply, buffer.data.Length, old(Seen()), ReplyWritten(ok), Seen())
    {
      hide B.ReadBuffer.InData, IsReply, Needed, RedisErrorReply;
      if !ok {
        aborted := true;
        return;
      }
      WriteDone();
    }

    // The written bytes are the client's: the command is done, or goes on.
    method WriteDone()
      requires Valid() && !aborted && !rotated && isWriting
      modifies this`reading, this`isWriting, this`hasWritten, this`start, this`size, this`sent, this`rotated,
               buffer`locks, buffer`processed, buffer`received, buffer`parsed, buffer`base, buffer.data
      ensures Valid() && old(sent) <= sent && |sent| == |old(sent)| + old(size)
    {
      hide B.ReadBuffer.InData, IsReply, Needed, Fits, RedisErrorReply;
      TakeWritten();
      if recvComplete && buffer.UnprocessedBytes() == 0 {
        Rotate();
      } else {
        KeepGoing();
      }
    }

    method Rotate()
      requires CoreOk() && SentOk() && ParsedOk() && !aborted && !isWriting && first && queryComplete
      requires recvComplete && buffer.UnprocessedBytes() == 0
      modifies this`rotated
      ensures Valid()
    {
      hide B.ReadBuffer.InData, IsReply, Needed, Fits, RedisErrorReply;
      assert buffer.locks == 0 && queryComplete;  // both asserted by the source
      rotated := true;
    }

    // The bytes read from the buffer when the write completes are the ones the
    // write was started with: the lock kept them in place.
    method TakeWritten()
      requires CoreOk() && SentOk() && isWriting
      modifies this`isWriting, this`sent,
               buffer`locks, buffer`processed, buffer`received, buffer`parsed, buffer`base, buffer.data
      ensures CoreOk() && SentOk() && !isWriting
      ensures |sent| == old(|sent| + size) == buffer.P() && old(sent) <= sent
      ensures buffer.stream == old(buffer.stream) && buffer.Q() == old(buffer.Q())
      ensures buffer.P() == |buffer.stream| && !reading ==> buffer.received == 0
    {
      hide B.ReadBuffer.InData, IsReply, Needed, Fits, RedisErrorReply;
      var bytes := buffer.Slice(start, size);
      assert bytes == doc[|sent|..|sent| + size];
      assert sent + bytes == doc[..|sent| + size];
      isWriting := false;
      sent := sent + bytes;
      buffer.DecLock();
    }

    method KeepGoing()
      requires CoreOk() && SentOk() && ParsedOk() && !aborted && !rotated && !isWriting && first && queryComplete
      requires (started || failed) && !(recvComplete && buffer.UnprocessedBytes() == 0)
      requires buffer.P() > 0 && (buffer.P() == |buffer.stream| && !reading ==> buffer.received == 0)
      modifies this`reading, this`isWriting, this`hasWritten, this`start, this`size,
               buffer`locks, buffer`processed, buffer`received, buffer`parsed, buffer`base, buffer.data
      ensures Valid()
    {
      hide B.ReadBuffer.InData, IsReply, Needed, RedisErrorReply;
      TryReadMoreReply();
      TryWriteReply();
    }

    // ---------- whole runs ----------

    // A read may complete with the next n bytes of the reply.
    predicate CanRead(n: nat)
      reads this, buffer
    {
      reading && 0 < n <= buffer.FreeSpace() && arrived + n <= |reply|
    }

    // What the invariant says about what can be seen.
    lemma SoundNow()
      requires Valid()
      ensures IsReply(reply) && Sound(reply, buffer.data.Length, Seen())
    {
      hide B.ReadBuffer.InData, IsReply, Needed, Fits, RedisErrorReply;
    }

    function Seen(): Snapshot
      reads this, buffer
    {
      Snapshot(queryComplete, sending, started, reading, arrived, buffer.FreeSpace(), first, isWriting, size, hasWritten,
               failed, error, aborted, rotated, sent)
    }

    // One completion, if it is one that can happen now.
    method Step(e: Event)
      requires Valid()
      modifies this, buffer, buffer.data
      ensures Valid() && IsReply(reply)
      ensures Next(reply, buffer.data.Length, old(Seen()), e, Seen())
    {
      hide B.ReadBuffer.InData, IsReply, Needed, Fits, RedisErrorReply;
      if aborted || rotated {
        return;
      }
      match e {
        case QuerySent(result) =>
          if sending {
            OnWriteQueryFinished(result);
          }
        case MoreQuery(last) =>
          if !queryComplete && !sending {
            ContinueWriteQuery(last);
          }
        case ReplyRead(n) =>
          if CanRead(n) {
            assert buffer.stream + reply[arrived..arrived + n] == reply[..arrived + n];
            HandleRead(reply[arrived..arrived + n]);
          }
        case ReplyError(ec) =>
          if reading {
            OnBackendReadError(ec);
          }
        case BecomesFirst =>
          if !first {
            StartWriteReply();
          }
        case ReplyWritten(ok) =>
          if isWriting {
            OnWriteReplyFinished(ok);
          }
      }
    }
  }

  // What holds in every state.
  ghost predicate Sound(reply: Bytes, capacity: nat, v: Snapshot)
    requires IsReply(reply)
  {
    Exact(reply, v) && Delivers(reply, v) && (Fits(reply, capacity) ==> !Stalled(v))
  }

  // What the contract of a run says beyond its single states.
  lemma WholeRun(reply: Bytes, capacity: nat, isFirst: bool, isComplete: bool, schedule: seq<Event>, run: seq<Snapshot>)
    requires IsReply(reply) && capacity >= 1024
    requires IsRun(reply, capacity, schedule, run) && Starts(capacity, isFirst, isComplete, run[0])
    requires forall i :: 0 <= i < |run| ==> Sound(reply, capacity, run[i])
    ensures forall i :: 0 <= i < |run| ==> Exact(reply, run[i]) && Delivers(reply, run[i])
    ensures forall i :: 0 <= i < |run| && run[i].failed ==> exists k :: 0 <= k < i && Breaks(schedule[k], run[i].error)
    ensures Fits(reply, capacity) ==> forall i :: 0 <= i < |run| ==> !Stalled(run[i])
    ensures !Fits(reply, capacity) && isFirst && isComplete && schedule == LongRead(reply, capacity) ==> Stalled(run[2])
  {
    hide IsReply, Needed, Fits, RedisErrorReply, Next, Exact, Delivers, Stalled, Breaks;
    forall i | 0 <= i < |run| && run[i].failed ensures exists k :: 0 <= k < i && Breaks(schedule[k], run[i].error) {
      BlameFor(reply, capacity, schedule, run, i);
    }
    if !Fits(reply, capacity) && isFirst && isComplete && schedule == LongRead(reply, capacity) {
      LongHeader(reply, capacity, run);
    }
  }

  // Streaming is exact and never gets stuck: for any schedule of completions,
  // with any chunking, every state of the run has sent the client a prefix of
  // the backend's reply (all of it once the command is done), or of an error
  // line if an operation on the backend failed before any byte was sent on; and
  // while the front command's reply is unfinished a backend read or a client
  // write is outstanding, provided no partly received header fills two thirds
  // of the buffer. The condition is exact: otherwise reading all but the last
  // byte of the header leaves nothing outstanding.
  method Serve(reply: Bytes, capacity: nat, isFirst: bool, isComplete: bool, schedule: seq<Event>)
    returns (run: seq<Snapshot>)
    requires IsReply(reply) && capacity >= 1024
    ensures IsRun(reply, capacity, schedule, run) && Starts(capacity, isFirst, isComplete, run[0])
    ensures forall i :: 0 <= i < |run| ==> Exact(reply, run[i]) && Delivers(reply, run[i])
    ensures forall i :: 0 <= i < |run| && run[i].failed ==> exists k :: 0 <= k < i && Breaks(schedule[k], run[i].error)
    ensures Fits(reply, capacity) ==> forall i :: 0 <= i < |run| ==> !Stalled(run[i])
    ensures !Fits(reply, capacity) && isFirst && isComplete && schedule == LongRead(reply, capacity) ==> Stalled(run[2])
  {
    hide IsReply, Next, Sound, Fits, Stalled, Exact, Delivers, Starts, Breaks, SingleKeyCommand.Valid;
    var c := new SingleKeyCommand(reply, capacity, isFirst, isComplete);
    run := [c.Seen()];
    c.SoundNow();
    for i := 0 to |schedule|
      invariant fresh(c) && fresh(c.buffer) && fresh(c.buffer.data) && c.Valid() && c.reply == reply
      invariant c.buffer.data.Length == capacity
      invariant |run| == i + 1 && run[i] == c.Seen() && Starts(capacity, isFirst, isComplete, run[0])
      invariant forall j :: 0 <= j < i ==> Next(reply, capacity, run[j], schedule[j], run[j + 1])
      invariant forall j :: 0 <= j <= i ==> Sound(reply, capacity, run[j])
    {
      c.Step(schedule[i]);
      c.SoundNow();
      run := run + [c.Seen()];
    }
    WholeRun(reply, capacity, isFirst, isComplete, schedule, run);
  }
}
