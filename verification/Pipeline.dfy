/**
 The reply side of a client connection: a queue of at most 16 active commands of
 which only the front one writes to the client, one write at a time.
 */
module Pipeline {
  import opened Resp
  import opened Net

  // What sets the commands apart when they answer: a single-key command streams
  // the reply of one backend; MSET and DEL answer at once; MGET first writes its
  // array prefix; stats answers from memory.
  datatype Kind = SingleKey | Batched | Mget(prefix: nat) | Stats

  // A command the client sends, and the reply it will produce.
  datatype Request = Request(kind: Kind, reply: Bytes)

  ghost predicate RequestOk(r: Request) {
    r.reply != [] && (r.kind.Mget? ==> 0 < r.kind.prefix < |r.reply|)
  }

  ghost predicate RequestsOk(rs: seq<Request>) {
    forall i :: 0 <= i < |rs| ==> RequestOk(rs[i])
  }

  // An active command.
  datatype Cmd = Cmd(
    ready: nat,       // bytes of the reply that may be written
    written: nat,     // bytes of the reply the client has
    isWriting: bool,  // is_writing_reply_ of the command
    replying: bool)   // it has a replying_backend_

  // A command that is not at the front has written nothing.
  ghost predicate Waiting(r: Request, c: Cmd) {
    && c.written == 0 && !c.isWriting && c.ready <= |r.reply|
    && match r.kind
       case SingleKey => c.replying
       case Batched => c.ready in {0, |r.reply|} && (c.replying <==> c.ready > 0)
       case Mget(_) => c.ready == 0
       case Stats => c.ready == |r.reply|
  }

  // A command at the front, which may have ready bytes that are not being written yet.
  ghost predicate Loose(r: Request, c: Cmd, clientWriting: bool, inflight: nat) {
    && c.written + inflight <= c.ready <= |r.reply|
    && (clientWriting <==> inflight > 0)
    && (!clientWriting ==> c.written < |r.reply| && !c.isWriting)
    && match r.kind
       case SingleKey => c.isWriting == clientWriting
       case Batched => c.isWriting == clientWriting && c.ready in {0, |r.reply|} && c.written == 0 &&
                       (clientWriting ==> inflight == |r.reply|)
       case Mget(prefix) =>
         && (clientWriting ==> c.ready == c.written + inflight)
         && (c.isWriting <==> clientWriting && c.written >= prefix)
         && (c.written < prefix ==> clientWriting && c.written == 0 && inflight == prefix)
       case Stats => clientWriting && !c.isWriting && c.written == 0 && inflight == |r.reply|
  }

  // The front command between events: whenever it has something to write, a
  // write is outstanding.
  ghost predicate Front(r: Request, c: Cmd, clientWriting: bool, inflight: nat) {
    Loose(r, c, clientWriting, inflight) && (!clientWriting ==> c.written == c.ready)
  }

  // Everything the client has been sent by the first n commands, of which those
  // in `lost` failed to write.
  function Kept(rs: seq<Request>, n: nat, lost: set<nat>): Bytes
    requires n <= |rs|
  {
    if n == 0 then [] else Kept(rs, n - 1, lost) + if n - 1 in lost then [] else rs[n - 1].reply
  }

  function Replies(rs: seq<Request>): (ws: seq<Bytes>)
    ensures |ws| == |rs|
  {
    seq(|rs|, i requires 0 <= i < |rs| => rs[i].reply)
  }

  lemma {:induction false} KeptWhole(rs: seq<Request>, n: nat, lost: set<nat>)
    requires n <= |rs| && forall i :: 0 <= i < n ==> i !in lost
    ensures Kept(rs, n, lost) == Concat(Replies(rs)[..n])
  {
    hide Replies, Concat;
    if n == 0 {
      NoReplies(rs);
    } else {
      KeptWhole(rs, n - 1, lost);
      RepliesNext(rs, n - 1);
    }
  }

  lemma RepliesNext(rs: seq<Request>, i: nat)
    requires i < |rs|
    ensures Concat(Replies(rs)[..i + 1]) == Concat(Replies(rs)[..i]) + rs[i].reply
  {
    hide Concat;
    ConcatTake(Replies(rs), i);
  }

  lemma {:induction false} KeptLess(rs: seq<Request>, n: nat, lost: set<nat>)
    requires n <= |rs| && RequestsOk(rs)
    ensures |Kept(rs, n, lost)| <= |Concat(Replies(rs)[..n])|
    ensures (exists i :: 0 <= i < n && i in lost) ==> |Kept(rs, n, lost)| < |Concat(Replies(rs)[..n])|
  {
    if n > 0 {
      hide Concat, Replies, RequestsOk;
      KeptLess(rs, n - 1, lost);
      RepliesNext(rs, n - 1);
      NotEmpty(rs, n - 1);
    }
  }

  lemma NoReplies(rs: seq<Request>)
    ensures Concat(Replies(rs)[..0]) == []
  {
  }

  lemma NotEmpty(rs: seq<Request>, i: nat)
    requires RequestsOk(rs) && i < |rs|
    ensures rs[i].reply != []
  {
  }

  // What the client has received is in order if and only if nothing was lost.
  lemma InOrder(rs: seq<Request>, done: nat, active: bool, part: nat, lost: set<nat>, output: Bytes)
    requires RequestsOk(rs) && done <= |rs| && (active ==> done < |rs| && part <= |rs[done].reply|)
    requires forall i :: i in lost ==> i < done
    requires output == Kept(rs, done, lost) + (if active then rs[done].reply[..part] else [])
    ensures lost == {} <==> output == Concat(Replies(rs)[..done]) + (if active then rs[done].reply[..part] else [])
    ensures lost == {} ==> output <= Concat(Replies(rs))
  {
    hide Kept, Concat, RequestsOk;
    if lost == {} {
      KeptWhole(rs, done, lost);
    }
    KeptLess(rs, done, lost);
    if lost != {} {
      var i :| i in lost;
      assert i < done;
    }
    var all := Replies(rs);
    ConcatSplit(all, done);
    if active {
      assert all[done..][0] == rs[done].reply;
      ConcatHead(all[done..]);
    }
  }

  lemma ConcatHead(ws: seq<Bytes>)
    requires ws != []
    ensures Concat(ws) == ws[0] + Concat(ws[1..])
  {
  }

  lemma {:induction false} KeptMore(rs: seq<Request>, n: nat, lost: set<nat>, i: nat)
    requires n <= |rs| && n <= i
    ensures Kept(rs, n, lost + {i}) == Kept(rs, n, lost)
  {
    if n > 0 {
      KeptMore(rs, n - 1, lost, i);
    }
  }

  // Requests whose bytes are there: the first `complete` ones entirely, and one
  // more when its command streams its query.
  predicate ReceivedOk(rs: seq<Request>, available: nat, complete: nat) {
    && complete <= available <= complete + 1 && available <= |rs|
    && (available > complete ==> rs[complete].kind.SingleKey? || rs[complete].kind.Batched?)
  }

  // The commands behind the front one.
  ghost predicate TailOk(rs: seq<Request>, done: nat, queue: seq<Cmd>) {
    && done + |queue| <= |rs|
    && forall i :: 1 <= i < |queue| ==> Waiting(rs[done + i], queue[i])
  }

  // A reply is ready only when the whole query has been received.
  ghost predicate ReadyOk(done: nat, queue: seq<Cmd>, complete: nat) {
    forall i :: 0 <= i < |queue| && queue[i].ready > 0 ==> done + i < complete
  }

  // What the client has: the replies of the commands that are done, in order,
  // and the written part of the front command's reply.
  ghost predicate OutputOk(rs: seq<Request>, done: nat, queue: seq<Cmd>, lost: set<nat>, output: Bytes) {
    && done + |queue| <= |rs|
    && (queue != [] ==> queue[0].written <= |rs[done].reply|)
    && output == Kept(rs, done, lost) + (if queue == [] then [] else rs[done].reply[..queue[0].written])
    && (forall i :: i in lost ==> i < done && rs[i].kind.Stats?)
  }

  lemma TailUpdate(rs: seq<Request>, done: nat, queue: seq<Cmd>, i: nat, c: Cmd)
    requires TailOk(rs, done, queue) && i < |queue| && (i > 0 ==> Waiting(rs[done + i], c))
    ensures TailOk(rs, done, queue[i := c])
  {
    hide Waiting;
  }

  lemma ReadyUpdate(done: nat, queue: seq<Cmd>, complete: nat, i: nat, c: Cmd)
    requires ReadyOk(done, queue, complete) && i < |queue| && (c.ready > 0 ==> done + i < complete)
    ensures ReadyOk(done, queue[i := c], complete)
  {
  }

  // Updates that leave what the front command has written alone.
  lemma OutputSame(rs: seq<Request>, done: nat, queue: seq<Cmd>, lost: set<nat>, output: Bytes, i: nat, c: Cmd)
    requires OutputOk(rs, done, queue, lost, output) && i < |queue| && c.written == queue[i].written
    ensures OutputOk(rs, done, queue[i := c], lost, output)
  {
    hide Kept;
  }

  // The front command has written n more bytes.
  lemma OutputMore(rs: seq<Request>, done: nat, queue: seq<Cmd>, lost: set<nat>, output: Bytes, n: nat, c: Cmd)
    requires OutputOk(rs, done, queue, lost, output) && queue != []
    requires c.written == queue[0].written + n <= |rs[done].reply|
    ensures OutputOk(rs, done, queue[0 := c], lost, output + rs[done].reply[queue[0].written..c.written])
  {
    hide Kept;
    var r := rs[done].reply;
    assert r[..c.written] == r[..queue[0].written] + r[queue[0].written..c.written];
  }

  // The front command is done, and the next one has written nothing.
  lemma OutputPop(rs: seq<Request>, done: nat, queue: seq<Cmd>, lost: set<nat>, output: Bytes)
    requires OutputOk(rs, done, queue, lost, output) && TailOk(rs, done, queue)
    requires queue != [] && queue[0].written == |rs[done].reply|
    ensures OutputOk(rs, done + 1, queue[1..], lost, output)
  {
    assert rs[done].reply[..queue[0].written] == rs[done].reply;
    assert |queue| > 1 ==> Waiting(rs[done + 1], queue[1]);
  }

  // A stats reply that failed to be written is lost, and the command is done nevertheless.
  lemma OutputLost(rs: seq<Request>, done: nat, queue: seq<Cmd>, lost: set<nat>, output: Bytes)
    requires OutputOk(rs, done, queue, lost, output) && TailOk(rs, done, queue)
    requires queue != [] && queue[0].written == 0 && rs[done].kind.Stats?
    ensures OutputOk(rs, done + 1, queue[1..], lost + {done}, output)
  {
    KeptMore(rs, done, lost, done);
    assert |queue| > 1 ==> Waiting(rs[done + 1], queue[1]);
  }

  lemma PopOk(rs: seq<Request>, done: nat, queue: seq<Cmd>, complete: nat)
    requires TailOk(rs, done, queue) && ReadyOk(done, queue, complete) && queue != []
    ensures TailOk(rs, done + 1, queue[1..]) && ReadyOk(done + 1, queue[1..], complete)
    ensures |queue| > 1 ==> Waiting(rs[done + 1], queue[1..][0])
  {
    hide Waiting;
    forall i | 1 <= i < |queue| - 1 ensures Waiting(rs[done + 1 + i], queue[1..][i]) {
      assert Waiting(rs[done + (i + 1)], queue[i + 1]);
    }
    forall i | 0 <= i < |queue| - 1 && queue[1..][i].ready > 0 ensures done + 1 + i < complete {
      assert queue[i + 1].ready > 0;
    }
  }

  lemma PushOk(rs: seq<Request>, done: nat, queue: seq<Cmd>, complete: nat, lost: set<nat>, output: Bytes, c: Cmd)
    requires TailOk(rs, done, queue) && ReadyOk(done, queue, complete) && OutputOk(rs, done, queue, lost, output)
    requires done + |queue| < |rs| && Waiting(rs[done + |queue|], c) && (c.ready > 0 ==> done + |queue| < complete)
    ensures TailOk(rs, done, queue + [c]) && ReadyOk(done, queue + [c], complete)
    ensures OutputOk(rs, done, queue + [c], lost, output)
  {
    hide Kept;
    assert queue != [] ==> (queue + [c])[0] == queue[0];
  }

  datatype Event =
    | ClientRead(available: nat, complete: nat)
    | ReplyReady(i: nat, size: nat)
    | ReplyWritten(ok: bool, more: nat)

  // A new command, before it starts.
  function Created(r: Request): (c: Cmd)
    requires RequestOk(r)
    ensures Waiting(r, c) && (c.ready > 0 ==> r.kind.Stats?)
  {
    Cmd(if r.kind.Stats? then |r.reply| else 0, 0, false, r.kind.SingleKey?)
  }

  // ---------- runs ----------

  datatype Snapshot = Snapshot(
    available: nat, complete: nat, done: nat, queue: seq<Cmd>, clientWriting: bool, inflight: nat,
    output: Bytes, aborted: bool, lost: set<nat>)

  // The replies are in order: the client has received the replies of the first
  // `done` commands in the order of their creation, less those in `lost`, and a
  // part of the next one's. At most 16 commands are active, and fewer only when
  // no other command has arrived; and whenever the front command has something
  // to write, a write is outstanding.
  ghost predicate Ordered(rs: seq<Request>, v: Snapshot) {
    && |v.queue| <= 16 && v.done + |v.queue| <= v.available <= |rs|
    && (v.done + |v.queue| < v.available ==> |v.queue| == 16)
    && OutputOk(rs, v.done, v.queue, v.lost, v.output)
    && (v.queue != [] ==> Front(rs[v.done], v.queue[0], v.clientWriting, v.inflight))
    && (v.queue == [] ==> !v.clientWriting)
  }

  // The part of the front command's reply that the client has.
  function Part(rs: seq<Request>, v: Snapshot): Bytes {
    if v.queue != [] && v.done < |rs| && v.queue[0].written <= |rs[v.done].reply|
    then rs[v.done].reply[..v.queue[0].written] else []
  }

  // What every event does; one that cannot happen now does nothing.
  ghost predicate Next(rs: seq<Request>, v: Snapshot, e: Event, w: Snapshot) {
    if v.aborted then w == v
    else match e
      case ClientRead(available, complete) =>
        if v.available <= available && v.complete <= complete && ReceivedOk(rs, available, complete)
        then AfterRead(v, available, complete, w) else w == v
      case ReplyReady(i, n) =>
        if CanReply(rs, v, i, n) then AfterReady(rs, v, i, n, w) else w == v
      case ReplyWritten(ok, more) =>
        if v.clientWriting && v.queue != [] && v.done < |rs| then AfterWritten(rs, v, ok, w) else w == v
  }

  ghost predicate AfterRead(v: Snapshot, available: nat, complete: nat, w: Snapshot) {
    && w == v.(available := available, complete := complete, queue := w.queue, clientWriting := w.clientWriting,
               inflight := w.inflight)
    && |v.queue| <= |w.queue|
    && (v.queue != [] ==> v.queue <= w.queue && w.clientWriting == v.clientWriting && w.inflight == v.inflight)
  }

  // The i-th active command may have n more bytes of its reply ready.
  predicate CanReply(rs: seq<Request>, v: Snapshot, i: nat, n: nat) {
    && i < |v.queue| && v.done + i < v.complete && v.done + i < |rs|
    && 0 < n && v.queue[i].ready + n <= |rs[v.done + i].reply|
    && (rs[v.done + i].kind.Batched? ==> n == |rs[v.done + i].reply|) && !rs[v.done + i].kind.Stats?
  }

  ghost predicate AfterReady(rs: seq<Request>, v: Snapshot, i: nat, n: nat, w: Snapshot)
    requires CanReply(rs, v, i, n)
  {
    && w == v.(queue := w.queue, clientWriting := w.clientWriting, inflight := w.inflight)
    && |w.queue| == |v.queue| && (forall j :: 0 <= j < |v.queue| && j != i ==> w.queue[j] == v.queue[j])
    && w.queue[i].written == v.queue[i].written
    && (!rs[v.done + i].kind.Mget? || (i == 0 && !v.clientWriting) ==> w.queue[i].ready == v.queue[i].ready + n)
    && (i == 0 ==> w.clientWriting) && (i > 0 ==> w.clientWriting == v.clientWriting)
    && (i > 0 || v.clientWriting ==> w.inflight == v.inflight)
  }

  // The bytes of the outstanding write have reached the client, and the command
  // is done when they were the last of its reply. A failed write aborts the
  // connection, except that stats does not look at the outcome.
  ghost predicate AfterWritten(rs: seq<Request>, v: Snapshot, ok: bool, w: Snapshot)
    requires v.queue != [] && v.done < |rs|
  {
    var r, n := rs[v.done].reply, v.queue[0].written + v.inflight;
    && w.available == v.available && w.complete == v.complete
    && if rs[v.done].kind.Stats? then
         && w.done == v.done + 1 && w.output == v.output + (if ok then r else []) && !w.aborted
         && w.lost == v.lost + (if ok then {} else {v.done})
       else if !ok then w == v.(aborted := true)
       else
         && n <= |r| && w.output == v.output + r[v.queue[0].written..n] && !w.aborted && w.lost == v.lost
         && w.done == (if n == |r| then v.done + 1 else v.done)
  }

  ghost predicate Starts(v: Snapshot) {
    v == Snapshot(0, 0, 0, [], false, 0, [], false, {})
  }

  ghost predicate IsRun(rs: seq<Request>, schedule: seq<Event>, run: seq<Snapshot>) {
    |run| == |schedule| + 1 && forall i :: 0 <= i < |schedule| ==> Next(rs, run[i], schedule[i], run[i + 1])
  }

  // The completion that loses the reply of command i: its write fails, and it is
  // a stats command.
  predicate Loses(rs: seq<Request>, v: Snapshot, e: Event, i: nat) {
    && !v.aborted && v.clientWriting && v.queue != [] && v.done == i && i < |rs| && rs[i].kind.Stats?
    && e.ReplyWritten? && !e.ok
  }

  // Replies are lost in no other way.
  lemma {:induction false} LostBecause(rs: seq<Request>, schedule: seq<Event>, run: seq<Snapshot>, i: nat, j: nat)
    requires IsRun(rs, schedule, run) && Starts(run[0]) && i < |run|
    ensures j in run[i].lost <==> exists k :: 0 <= k < i && Loses(rs, run[k], schedule[k], j)
  {
    hide CanReply, ReceivedOk;
    if i > 0 {
      LostBecause(rs, schedule, run, i - 1, j);
      var v, e, w := run[i - 1], schedule[i - 1], run[i];
      assert Next(rs, v, e, w);
      assert j in w.lost <==> j in v.lost || Loses(rs, v, e, j);
    }
  }

  // A connection is aborted only by a failed write.
  lemma {:induction false} AbortBecause(rs: seq<Request>, schedule: seq<Event>, run: seq<Snapshot>, i: nat)
    requires IsRun(rs, schedule, run) && Starts(run[0]) && i < |run| && run[i].aborted
    ensures exists k :: 0 <= k < i && schedule[k].ReplyWritten? && !schedule[k].ok
  {
    hide CanReply, ReceivedOk;
    assert Next(rs, run[i - 1], schedule[i - 1], run[i]);
    if run[i - 1].aborted {
      AbortBecause(rs, schedule, run, i - 1);
    }
  }

  predicate NoStats(rs: seq<Request>) {
    forall i :: 0 <= i < |rs| ==> !rs[i].kind.Stats?
  }

  lemma OnlyStatsLost(rs: seq<Request>, v: Snapshot)
    requires Ordered(rs, v) && v.lost != {}
    ensures !NoStats(rs)
  {
    hide Kept, Front;
    var i :| i in v.lost;
    assert rs[i].kind.Stats?;
  }

  lemma OrderOf(rs: seq<Request>, v: Snapshot)
    requires RequestsOk(rs) && Ordered(rs, v)
    ensures v.done <= |rs|
    ensures v.lost == {} <==> v.output == Concat(Replies(rs)[..v.done]) + Part(rs, v)
    ensures v.lost == {} ==> v.output <= Concat(Replies(rs))
  {
    hide Kept, Concat, RequestsOk;
    InOrder(rs, v.done, v.queue != [], if v.queue == [] then 0 else v.queue[0].written, v.lost, v.output);
  }

  // ---------- a run that loses a reply ----------

  lemma FirstOfRun(rs: seq<Request>, run: seq<Snapshot>)
    requires |run| == 1
    ensures IsRun(rs, [], run)
  {
  }

  lemma RunOn(rs: seq<Request>, schedule: seq<Event>, run: seq<Snapshot>, e: Event, w: Snapshot)
    requires IsRun(rs, schedule, run) && Next(rs, run[|schedule|], e, w)
    ensures IsRun(rs, schedule + [e], run + [w])
  {
    hide Next;
  }

  // Everything has arrived, nothing was lost, and command i has not been answered.
  ghost predicate Ready(rs: seq<Request>, i: nat, v: Snapshot) {
    && !v.aborted && v.available == v.complete == |rs| && v.lost == {} && v.done <= i < |rs|
  }

  // Bytes the client has not received, and whether a write is to be started.
  function Left(rs: seq<Request>, v: Snapshot): int {
    2 * (|Concat(Replies(rs))| - |v.output|) + (if v.clientWriting then 0 else 1)
  }

  function NotReady(rs: seq<Request>, v: Snapshot): nat {
    if v.queue != [] && v.done < |rs| && v.queue[0].ready <= |rs[v.done].reply|
    then |rs[v.done].reply| - v.queue[0].ready else 0
  }

  lemma FirstRead(rs: seq<Request>, v: Snapshot, w: Snapshot)
    requires Starts(v) && Next(rs, v, ClientRead(|rs|, |rs|), w)
    ensures !w.aborted && w.available == w.complete == |rs| && w.lost == {} && w.done == 0
  {
  }

  lemma GoOn(rs: seq<Request>, i: nat, v: Snapshot, e: Event, w: Snapshot)
    requires RequestsOk(rs) && Ready(rs, i, v) && v.done < i && Ordered(rs, v) && Ordered(rs, w) && Next(rs, v, e, w)
    requires e == if v.clientWriting then ReplyWritten(true, 0) else ReplyReady(0, NotReady(rs, v))
    ensures Ready(rs, i, w) && 0 <= Left(rs, w) < Left(rs, v)
  {
    hide Kept, Concat, OutputOk, Waiting;
    assert RequestOk(rs[v.done]);
    OrderOf(rs, w);
  }

  lemma LastWrite(rs: seq<Request>, i: nat, v: Snapshot, w: Snapshot)
    requires Ready(rs, i, v) && v.done == i && rs[i].kind.Stats? && Ordered(rs, v)
    requires Next(rs, v, ReplyWritten(false, 0), w)
    ensures !w.aborted && i in w.lost && w.done == i + 1
  {
    hide Kept, OutputOk;
  }

  class ClientConnection {
    const requests: seq<Request>

    var available: nat        // commands of which enough has been received to create them
    var complete: nat         // commands received entirely
    var done: nat             // commands that have been rotated away
    var queue: seq<Cmd>       // active_cmd_queue_
    var clientWriting: bool   // is_writing_reply_ of the connection
    var inflight: nat         // bytes of the outstanding write
    var output: Bytes         // what the client has received
    var aborted: bool

    var lost: set<nat>        // bookkeeping of the model: stats commands whose write failed

    // All but the state of the front command.
    ghost predicate Base()
      reads this
    {
      && RequestsOk(requests) && ReceivedOk(requests, available, complete)
      && |queue| <= PIPELINE_LIMIT && done + |queue| <= available
      && TailOk(requests, done, queue) && ReadyOk(done, queue, complete)
      && OutputOk(requests, done, queue, lost, output)
    }

    ghost predicate Valid()
      reads this
    {
      && Base()
      && (queue == [] ==> !clientWriting)
      && (queue != [] && done < |requests| ==> Front(requests[done], queue[0], clientWriting, inflight))
    }

    function Seen(): Snapshot
      reads this
    {
      Snapshot(available, complete, done, queue, clientWriting, inflight, output, aborted, lost)
    }

    lemma SeenOrdered()
      requires Valid() && Busy()
      ensures RequestsOk(requests) && Ordered(requests, Seen())
    {
      hide RequestsOk, TailOk, ReadyOk, OutputOk, Front;
    }

    // No command that could be active is left waiting.
    ghost predicate Busy()
      reads this
    {
      done + |queue| < available ==> |queue| == PIPELINE_LIMIT
    }

    constructor (requests: seq<Request>)
      requires RequestsOk(requests)
      ensures Valid() && Busy() && Starts(Seen()) && this.requests == requests
    {
      this.requests := requests;
      available, complete, done, queue := 0, 0, 0, [];
      clientWriting, inflight, output, aborted, lost := false, 0, [], false, {};
    }

    // ---------- writing ----------

    method WriteReply(size: nat)
      requires !clientWriting  // the source asserts it
      modifies this`clientWriting, this`inflight
      ensures clientWriting && inflight == size
    {
      clientWriting := true;
      inflight := size;
    }

    // `Command::TryWriteReply` for the front command
    method TryWriteReply()
      requires Base() && queue != [] && done < |requests|
      requires Loose(requests[done], queue[0], clientWriting, inflight)
      requires !requests[done].kind.Stats? && (requests[done].kind.Mget? ==> !clientWriting)
      modifies this`queue, this`clientWriting, this`inflight
      ensures Valid() && queue == old(queue)[0 := old(queue)[0].(isWriting := clientWriting)]
      ensures old(clientWriting) ==> clientWriting && inflight == old(inflight)
    {
      hide TailOk, OutputOk, RequestsOk, ReceivedOk;
      var c := queue[0];
      if !c.isWriting && c.ready > c.written {
        WriteReply(c.ready - c.written);
        SetFront(c.(isWriting := true));
      }
    }

    // Replaces the front command by one that has written as much.
    method SetFront(c: Cmd)
      requires Base() && queue != [] && c.written == queue[0].written && (c.ready > 0 ==> done < complete)
      modifies this`queue
      ensures Base() && queue == old(queue)[0 := c]
    {
      hide TailOk, ReadyOk, OutputOk, RequestsOk, ReceivedOk;
      TailUpdate(requests, done, queue, 0, c);
      ReadyUpdate(done, queue, complete, 0, c);
      OutputSame(requests, done, queue, lost, output, 0, c);
      queue := queue[0 := c];
    }

    // A command reaches the front, or is created there.
    method StartWriteReply()
      requires Base() && queue != [] && done < |requests| && !clientWriting && inflight == 0
      requires Waiting(requests[done], queue[0]) && RequestOk(requests[done])
      modifies this`queue, this`clientWriting, this`inflight
      ensures Valid() && |queue| == |old(queue)|
    {
      hide TailOk, OutputOk, RequestsOk;
      var r := requests[done];
      match r.kind {
        case Mget(prefix) =>
          WriteReply(prefix);
          SetFront(queue[0].(ready := prefix));
        case Stats =>
          WriteReply(|r.reply|);
        case _ =>
          if done < complete && queue[0].replying {
            TryWriteReply();
          }
      }
    }

    // ---------- the queue ----------

    // The front command is done.
    method RotateReplyingCommand()
      requires Base() && Busy() && queue != [] && !clientWriting && inflight == 0
      requires done < |requests| && queue[0].written == |requests[done].reply|
      modifies this`done, this`queue, this`clientWriting, this`inflight
      ensures Valid() && Busy() && done == old(done) + 1
    {
      hide TailOk, ReadyOk, OutputOk, RequestsOk, Waiting, RequestOk;
      PopOk(requests, done, queue, complete);
      OutputPop(requests, done, queue, lost, output);
      done := done + 1;
      queue := queue[1..];
      AfterPop();
    }

    method AfterPop()
      requires Base() && !clientWriting && inflight == 0
      requires queue != [] && done < |requests| ==> Waiting(requests[done], queue[0])
      requires done + |queue| < available ==> |queue| == PIPELINE_LIMIT - 1
      modifies this`queue, this`clientWriting, this`inflight
      ensures Valid() && Busy()
    {
      hide TailOk, ReadyOk, OutputOk, Waiting, RequestOk;
      if queue != [] {
        StartWriteReply();
        if done + |queue| <= complete {  // the last command's query is complete
          ProcessUnparsedQuery();
        }
      }
    }

    // Commands are created while there is room for them.
    method ProcessUnparsedQuery()
      requires Valid()
      modifies this`queue, this`clientWriting, this`inflight
      ensures Valid() && Busy() && |old(queue)| <= |queue|
      ensures old(queue) != [] ==> old(queue) <= queue && clientWriting == old(clientWriting) && inflight == old(inflight)
    {
      hide TailOk, ReadyOk, OutputOk, RequestsOk, Waiting, RequestOk, Front;
      while |queue| < PIPELINE_LIMIT && done + |queue| < available
        invariant Valid() && |old(queue)| <= |queue|
        invariant old(queue) != [] ==> old(queue) <= queue && clientWriting == old(clientWriting) && inflight == old(inflight)
        decreases available - |queue|
      {
        NewCommand();
        if done + |queue| > complete {
          break;
        }
      }
    }

    method NewCommand()
      requires Valid() && |queue| < PIPELINE_LIMIT && done + |queue| < available
      modifies this`queue, this`clientWriting, this`inflight
      ensures Valid() && |queue| == |old(queue)| + 1
      ensures old(queue) != [] ==> old(queue) <= queue && clientWriting == old(clientWriting) && inflight == old(inflight)
    {
      hide OutputOk, TailOk, ReadyOk;
      var r := requests[done + |queue|];
      assert RequestOk(r);
      var c := Created(r);
      PushOk(requests, done, queue, complete, lost, output, c);
      if queue == [] {
        inflight := 0;
      }
      queue := queue + [c];
      if |queue| == 1 {
        StartWriteReply();
      }
    }

    // A client read completed.
    method HandleRead(available: nat, complete: nat)
      requires Valid() && ReceivedOk(requests, available, complete)
      requires this.available <= available && this.complete <= complete
      modifies this`available, this`complete, this`queue, this`clientWriting, this`inflight
      ensures Valid() && Busy() && AfterRead(old(Seen()), available, complete, Seen())
    {
      hide TailOk, OutputOk, RequestsOk, Waiting, RequestOk, Front;
      this.available := available;
      this.complete := complete;
      if queue == [] || done + |queue| <= complete {
        ProcessUnparsedQuery();
      }
    }

    // ---------- replies ----------

    // n more bytes of the reply of the i-th active command are ready.
    method OnBackendReplyReceived(i: nat, n: nat)
      requires Valid() && Busy() && i < |queue| && done + i < complete && done + i < |requests|
      requires 0 < n && queue[i].ready + n <= |requests[done + i].reply|
      requires requests[done + i].kind.Batched? ==> n == |requests[done + i].reply|
      requires !requests[done + i].kind.Stats?
      modifies this`queue, this`clientWriting, this`inflight
      ensures Valid() && Busy() && AfterReady(requests, old(Seen()), i, n, Seen())
    {
      hide TailOk, OutputOk, RequestsOk, ReadyOk, ReceivedOk;
      if i == 0 {
        if requests[done].kind.Mget? && (clientWriting || queue[0].written < requests[done].kind.prefix) {
          assert clientWriting;
          return;  // the bytes wait in the backend's buffer
        }
        SetFront(queue[0].(ready := queue[0].ready + n));
        TryWriteReply();
      } else {
        ReadyBehind(i, n);
      }
    }

    // A command that is not at the front waits to write its reply.
    method ReadyBehind(i: nat, n: nat)
      requires Valid() && 0 < i < |queue| && done + i < complete && done + i < |requests|
      requires 0 < n && queue[i].ready + n <= |requests[done + i].reply|
      requires requests[done + i].kind.Batched? ==> n == |requests[done + i].reply|
      requires !requests[done + i].kind.Stats?
      modifies this`queue
      ensures Valid() && |queue| == |old(queue)| && queue == old(queue)[i := queue[i]]
      ensures !requests[done + i].kind.Mget? ==> queue[i].ready == old(queue)[i].ready + n
      ensures queue[i].written == old(queue)[i].written
    {
      hide OutputOk, RequestsOk, ReadyOk, ReceivedOk, Front;
      var r, c := requests[done + i], queue[i];
      assert Waiting(r, c);
      if !r.kind.Mget? {
        c := c.(ready := c.ready + n, replying := true);
      }
      TailUpdate(requests, done, queue, i, c);
      ReadyUpdate(done, queue, complete, i, c);
      OutputSame(requests, done, queue, lost, output, i, c);
      queue := queue[i := c];
    }

    // The outstanding write completed. For an MGET, `more` bytes of its next
    // backend are there.
    method OnWriteReplyFinished(ok: bool, more: nat)
      requires Valid() && Busy() && clientWriting && !aborted
      modifies this`done, this`queue, this`clientWriting, this`inflight, this`output, this`aborted, this`lost
      ensures Valid() && Busy()
      ensures old(queue) != [] && old(done) < |requests| && AfterWritten(requests, old(Seen()), ok, Seen())
    {
      hide TailOk, OutputOk, RequestsOk, ReadyOk;
      var r := requests[done];
      if r.kind.Stats? {
        StatsWritten(ok);
      } else if !ok {
        aborted := true;
      } else {
        Written(more);
      }
    }

    // Stats ignores the outcome of its write.
    method StatsWritten(ok: bool)
      requires Valid() && Busy() && clientWriting && !aborted && done < |requests| && requests[done].kind.Stats?
      modifies this`done, this`queue, this`clientWriting, this`inflight, this`output, this`lost
      ensures Valid() && Busy()
      ensures lost == if ok then old(lost) else old(lost) + {old(done)}
      ensures done == old(done) + 1
      ensures output == old(output) + if ok then requests[old(done)].reply else []
    {
      hide TailOk, OutputOk, RequestsOk, ReadyOk, RequestOk, Waiting;
      var n := inflight;
      clientWriting, inflight := false, 0;
      PopOk(requests, done, queue, complete);
      if ok {
        FrontWritten(n);
        OutputPop(requests, done, queue, lost, output);
      } else {
        OutputLost(requests, done, queue, lost, output);
        lost := lost + {done};
      }
      done := done + 1;
      queue := queue[1..];
      AfterPop();
    }

    // The bytes of the write that completed are the client's.
    method FrontWritten(n: nat)
      requires Base() && queue != [] && done < |requests| && queue[0].written + n <= |requests[done].reply|
      requires queue[0].ready > 0 ==> done < complete
      modifies this`queue, this`output
      ensures output == old(output) + requests[done].reply[old(queue)[0].written..old(queue)[0].written + n]
      ensures Base()
      ensures queue == old(queue)[0 := old(queue)[0].(written := old(queue)[0].written + n, isWriting := false)]
    {
      hide TailOk, OutputOk, RequestsOk, ReadyOk, ReceivedOk;
      var r, c := requests[done], queue[0];
      var c' := c.(written := c.written + n, isWriting := false);
      TailUpdate(requests, done, queue, 0, c');
      ReadyUpdate(done, queue, complete, 0, c');
      OutputMore(requests, done, queue, lost, output, n, c');
      output := output + r.reply[c.written..c'.written];
      queue := queue[0 := c'];
    }

    // The bytes of the outstanding write have reached the client, and the
    // command is done when they were the last of its reply.
    ghost predicate Wrote(done0: nat, queue0: seq<Cmd>, inflight0: nat, output0: Bytes)
      reads this
    {
      && queue0 != [] && done0 < |requests|
      && var r, n := requests[done0].reply, queue0[0].written + inflight0;
         && n <= |r| && output == output0 + r[queue0[0].written..n]
         && done == if n == |r| then done0 + 1 else done0
    }

    method Written(more: nat)
      requires Valid() && Busy() && clientWriting && !aborted && done < |requests| && !requests[done].kind.Stats?
      modifies this`done, this`queue, this`clientWriting, this`inflight, this`output
      ensures Valid() && Busy()
      ensures Wrote(old(done), old(queue), old(inflight), old(output))
    {
      hide TailOk, OutputOk, RequestsOk, ReceivedOk;
      var r, n := requests[done], inflight;
      clientWriting, inflight := false, 0;
      FrontWritten(n);
      if queue[0].written == |r.reply| {  // finished
        RotateReplyingCommand();
      } else {
        if r.kind.Mget? {
          SetFront(queue[0].(ready := Min(queue[0].ready + more, |r.reply|)));
        }
        TryWriteReply();
      }
    }

    method Step(e: Event)
      requires Valid() && Busy()
      modifies this
      ensures Valid() && Busy() && Next(requests, old(Seen()), e, Seen())
    {
      hide Base, Front, AfterRead, AfterReady, AfterWritten, ReceivedOk;
      if aborted {
        return;
      }
      match e {
        case ClientRead(available, complete) =>
          if this.available <= available && this.complete <= complete && ReceivedOk(requests, available, complete) {
            HandleRead(available, complete);
          }
        case ReplyReady(i, n) =>
          if CanReply(requests, Seen(), i, n) {
            OnBackendReplyReceived(i, n);
          }
        case ReplyWritten(ok, more) =>
          if clientWriting {
            OnWriteReplyFinished(ok, more);
          }
      }
    }
  }

  // The order of replies: for every schedule, every state of the run is in order
  // and follows from the previous one by its event. A reply is missing if and
  // only if it is that of a stats command whose write failed, so nothing is ever
  // missing in a pipeline without stats.
  method Serve(requests: seq<Request>, schedule: seq<Event>) returns (run: seq<Snapshot>)
    requires RequestsOk(requests)
    ensures IsRun(requests, schedule, run) && Starts(run[0])
    ensures forall i :: 0 <= i < |run| ==> Ordered(requests, run[i])
    ensures forall i :: 0 <= i < |run| ==>
              && run[i].done <= |requests|
              && (run[i].lost == {} <==> run[i].output == Concat(Replies(requests)[..run[i].done]) + Part(requests, run[i]))
              && (run[i].lost == {} ==> run[i].output <= Concat(Replies(requests)))
    ensures forall i, j: nat :: 0 <= i < |run| ==>
              (j in run[i].lost <==> exists k :: 0 <= k < i && Loses(requests, run[k], schedule[k], j))
    ensures NoStats(requests) ==> forall i :: 0 <= i < |run| ==> run[i].lost == {}
    ensures forall i :: 0 <= i < |run| && run[i].aborted ==>
              exists k :: 0 <= k < i && schedule[k].ReplyWritten? && !schedule[k].ok
  {
    hide RequestsOk, Ordered, Part, Concat, Next, Loses, NoStats, ClientConnection.Valid, ClientConnection.Busy;
    var c := new ClientConnection(requests);
    run := [c.Seen()];
    c.SeenOrdered();
    for i := 0 to |schedule|
      invariant fresh(c) && c.Valid() && c.Busy() && |run| == i + 1 && run[i] == c.Seen() && Starts(run[0])
      invariant forall k :: 0 <= k < i ==> Next(requests, run[k], schedule[k], run[k + 1])
      invariant forall k :: 0 <= k <= i ==> Ordered(requests, run[k])
    {
      c.Step(schedule[i]);
      c.SeenOrdered();
      run := run + [c.Seen()];
    }
    AllOf(requests, schedule, run);
  }

  lemma AllOf(rs: seq<Request>, schedule: seq<Event>, run: seq<Snapshot>)
    requires RequestsOk(rs) && IsRun(rs, schedule, run) && Starts(run[0])
    requires forall i :: 0 <= i < |run| ==> Ordered(rs, run[i])
    ensures forall i :: 0 <= i < |run| ==> run[i].done <= |rs|
    ensures forall i :: 0 <= i < |run| ==>
              && (run[i].lost == {} <==> run[i].output == Concat(Replies(rs)[..run[i].done]) + Part(rs, run[i]))
              && (run[i].lost == {} ==> run[i].output <= Concat(Replies(rs)))
    ensures forall i, j: nat :: 0 <= i < |run| ==>
              (j in run[i].lost <==> exists k :: 0 <= k < i && Loses(rs, run[k], schedule[k], j))
    ensures NoStats(rs) ==> forall i :: 0 <= i < |run| ==> run[i].lost == {}
    ensures forall i :: 0 <= i < |run| && run[i].aborted ==>
              exists k :: 0 <= k < i && schedule[k].ReplyWritten? && !schedule[k].ok
  {
    hide RequestsOk, Ordered, Part, Concat, Next, Loses, NoStats, Starts;
    forall i | 0 <= i < |run|
      ensures run[i].done <= |rs|
      ensures run[i].lost == {} <==> run[i].output == Concat(Replies(rs)[..run[i].done]) + Part(rs, run[i])
      ensures run[i].lost == {} ==> run[i].output <= Concat(Replies(rs))
    {
      OrderOf(rs, run[i]);
    }
    forall i, j: nat | 0 <= i < |run|
      ensures j in run[i].lost <==> exists k :: 0 <= k < i && Loses(rs, run[k], schedule[k], j)
    {
      LostBecause(rs, schedule, run, i, j);
    }
    if NoStats(rs) {
      forall i | 0 <= i < |run| ensures run[i].lost == {} {
        if run[i].lost != {} {
          OnlyStatsLost(rs, run[i]);
        }
      }
    }
    forall i | 0 <= i < |run| && run[i].aborted
      ensures exists k :: 0 <= k < i && schedule[k].ReplyWritten? && !schedule[k].ok
    {
      AbortBecause(rs, schedule, run, i);
    }
  }

  // For every pipeline with a stats command there is a run that loses its reply:
  // all the commands before it are answered, and then its write fails.
  method Losing(requests: seq<Request>, i: nat) returns (schedule: seq<Event>, run: seq<Snapshot>)
    requires RequestsOk(requests) && i < |requests| && requests[i].kind.Stats?
    ensures IsRun(requests, schedule, run) && Starts(run[0])
    ensures var v := run[|schedule|];
            && !v.aborted && i in v.lost && v.done == i + 1
            && v.output != Concat(Replies(requests)[..v.done]) + Part(requests, v)
  {
    hide RequestsOk, Concat, Next, Ordered, Part, ClientConnection.Valid, ClientConnection.Busy, OutputOk;
    var c := new ClientConnection(requests);
    schedule, run := [], [c.Seen()];
    FirstOfRun(requests, run);
    c.SeenOrdered();
    var e := ClientRead(|requests|, |requests|);
    c.Step(e);
    FirstRead(requests, run[0], c.Seen());
    RunOn(requests, schedule, run, e, c.Seen());
    schedule, run := schedule + [e], run + [c.Seen()];
    while c.done < i
      invariant fresh(c) && c.Valid() && c.Busy() && c.requests == requests
      invariant IsRun(requests, schedule, run) && Starts(run[0]) && |run| == |schedule| + 1 && run[|schedule|] == c.Seen()
      invariant Ready(requests, i, c.Seen())
      decreases Left(requests, c.Seen())
    {
      c.SeenOrdered();
      var v := c.Seen();
      e := if c.clientWriting then ReplyWritten(true, 0)
           else ReplyReady(0, NotReady(requests, v));
      c.Step(e);
      c.SeenOrdered();
      GoOn(requests, i, v, e, c.Seen());
      RunOn(requests, schedule, run, e, c.Seen());
      schedule, run := schedule + [e], run + [c.Seen()];
    }
    c.SeenOrdered();
    ghost var v := c.Seen();
    c.Step(ReplyWritten(false, 0));
    c.SeenOrdered();
    LastWrite(requests, i, v, c.Seen());
    RunOn(requests, schedule, run, ReplyWritten(false, 0), c.Seen());
    schedule, run := schedule + [ReplyWritten(false, 0)], run + [c.Seen()];
    OrderOf(requests, c.Seen());
  }
}
