/**
 When an MGET stops for good: a schedule for every query in which two keys
 belong to one endpoint.
 */
module MgetStops {
  import opened Resp
  import opened Net
  import opened Scatter
  import opened MgetSplit
  import opened MgetGather
  import opened Mget

  // A completion without an error, and with room for another read.
  predicate Calm(e: Event) {
    match e
    case QuerySent(_, ec, space) => ec.Success? && space
    case ReplyRead(_, _, space) => space
    case ReplyError(_, _) => false
    case ReplyWritten(ec, space) => ec.Success? && space
    case BecomesFirst => true
  }

  lemma CalmHasRoom(e: Event)
    requires Calm(e)
    ensures !Refuses(e) && forall b :: !Breaks(e, b)
  {
  }

  // A run of such completions that ends in v.
  ghost predicate Leads(keys: seq<Bytes>, eps: seq<Endpoint>, want: seq<Bytes>, isFirst: bool, schedule: seq<Event>,
                        run: seq<Snapshot>, v: Snapshot)
  {
    && |eps| == |want| && IsRun(eps, want, schedule, run) && Starts(keys, eps, isFirst, run[0]) && run[|schedule|] == v
    && forall k :: 0 <= k < |schedule| ==> Calm(schedule[k])
  }

  lemma LeadsOn(keys: seq<Bytes>, eps: seq<Endpoint>, want: seq<Bytes>, isFirst: bool, schedule: seq<Event>,
                run: seq<Snapshot>, v: Snapshot, e: Event, w: Snapshot)
    requires Leads(keys, eps, want, isFirst, schedule, run, v) && Calm(e) && Next(eps, want, v, e, w)
    ensures Leads(keys, eps, want, isFirst, schedule + [e], run + [w], w)
  {
    hide Next, Starts, Calm;
    var schedule', run' := schedule + [e], run + [w];
    forall i | 0 <= i < |schedule'| ensures Next(eps, want, run'[i], schedule'[i], run'[i + 1]) {
      if i < |schedule| {
        assert Next(eps, want, run[i], schedule[i], run[i + 1]);
      }
    }
  }

  lemma LeadsFirst(keys: seq<Bytes>, eps: seq<Endpoint>, want: seq<Bytes>, isFirst: bool, v: Snapshot)
    requires |eps| == |want| && Starts(keys, eps, isFirst, v)
    ensures Leads(keys, eps, want, isFirst, [], [v], v)
  {
    hide Next, Starts;
  }

  // ---------- sending the queries ----------

  // The first n keys' endpoints have been sent their queries, and nothing has been read.
  ghost predicate Sending(eps: seq<Endpoint>, v: Snapshot, n: nat) {
    && !v.aborted && !v.rotated && !v.prefixed && !v.starved && (v.clientWriting <==> v.first)
    && v.backends.Keys == v.subqueries.Keys && (forall b :: b in v.backends <==> b in eps)
    && (forall b :: b in v.backends ==> Unanswered(v.backends[b], b in v.holding))
    && n <= |eps| && (forall j :: 0 <= j < n ==> eps[j] !in v.holding)
    && v.holding <= v.backends.Keys
  }

  // Nothing has come; it is being read from unless it is still being sent its query.
  predicate Unanswered(k: Backend, held: bool) {
    k == Backend([], 0, 0, !held, false, false)
  }

  lemma SendingFirst(keys: seq<Bytes>, eps: seq<Endpoint>, isFirst: bool, v: Snapshot)
    requires Starts(keys, eps, isFirst, v)
    ensures Sending(eps, v, 0)
  {
    hide ArrayPrefix, Runs;
  }

  lemma SendingOn(eps: seq<Endpoint>, want: seq<Bytes>, v: Snapshot, n: nat, b: Endpoint, w: Snapshot)
    requires |eps| == |want| && Sending(eps, v, n) && b in v.holding && Next(eps, want, v, QuerySent(b, Success, true), w)
    ensures Sending(eps, w, n) && b in v.subqueries && b in w.subqueries
    ensures |w.subqueries[b].segments| < |v.subqueries[b].segments|
  {
    hide Full, ArrayPrefix;
  }

  // ---------- the replies ----------

  // What each backend sends in one piece: all of its reply, but of the reply of b
  // only what goes up to the cut.
  function Part(eps: seq<Endpoint>, want: seq<Bytes>, b: Endpoint, cut: nat, c: Endpoint): Bytes
    requires |eps| == |want| && cut <= |Full(eps, want, b)|
  {
    if c == b then Full(eps, want, c)[..cut] else Full(eps, want, c)
  }

  // Exactly that has come, and has not been looked at.
  predicate Answered(k: Backend, stream: Bytes) {
    k == Backend(stream, 0, 0, false, false, false)
  }

  // The endpoints of the first n keys have answered that much.
  ghost predicate Reading(eps: seq<Endpoint>, want: seq<Bytes>, b: Endpoint, cut: nat, v: Snapshot, n: nat)
    requires |eps| == |want| && cut <= |Full(eps, want, b)|
  {
    && !v.aborted && !v.rotated && !v.prefixed && !v.starved && (v.clientWriting <==> v.first) && v.holding == {}
    && (forall c :: c in v.backends <==> c in eps) && n <= |eps|
    && (forall c :: c in v.backends ==>
          Answered(v.backends[c], Part(eps, want, b, cut, c)) || Unanswered(v.backends[c], false))
    && (forall j :: 0 <= j < n ==> eps[j] in v.backends && !v.backends[eps[j]].reading)
  }

  lemma ReadingFirst(eps: seq<Endpoint>, want: seq<Bytes>, b: Endpoint, cut: nat, v: Snapshot)
    requires |eps| == |want| && cut <= |Full(eps, want, b)| && Sending(eps, v, |eps|)
    ensures Reading(eps, want, b, cut, v, 0)
  {
    hide Full;
    forall c | c in v.backends ensures c !in v.holding {
      var j :| 0 <= j < |eps| && eps[j] == c;
    }
    assert v.holding == {};
  }

  lemma ReadingOn(eps: seq<Endpoint>, want: seq<Bytes>, b: Endpoint, cut: nat, v: Snapshot, n: nat, w: Snapshot)
    requires |eps| == |want| && 0 < cut <= |Full(eps, want, b)| && Reading(eps, want, b, cut, v, n) && n < |eps|
    requires var c := eps[n];
             c in v.backends && v.backends[c].reading &&
             Next(eps, want, v, ReplyRead(c, |Part(eps, want, b, cut, c)|, true), w)
    ensures Reading(eps, want, b, cut, w, n + 1)
  {
    hide Frame, Fails, SentOne, Full;
    FullNotEmpty(eps, want, eps[n]);
    var f := Full(eps, want, eps[n]);
    assert f[..|f|] == f;
  }

  lemma FullNotEmpty(eps: seq<Endpoint>, want: seq<Bytes>, c: Endpoint)
    requires |eps| == |want|
    ensures Full(eps, want, c) != []
  {
    hide Select, Concat;
  }

  // ---------- writing ----------

  // All have answered that much, and nothing is wrong.
  ghost predicate Writing(eps: seq<Endpoint>, want: seq<Bytes>, b: Endpoint, cut: nat, v: Snapshot)
    requires |eps| == |want| && cut <= |Full(eps, want, b)|
  {
    && !v.aborted && !v.starved && v.first && v.holding == {}
    && (forall c :: c in v.backends <==> c in eps)
    && (forall c :: c in v.backends ==> v.backends[c].stream == Part(eps, want, b, cut, c) && !v.backends[c].failed)
  }

  lemma WritingFirst(eps: seq<Endpoint>, want: seq<Bytes>, b: Endpoint, cut: nat, v: Snapshot)
    requires |eps| == |want| && cut <= |Full(eps, want, b)| && Reading(eps, want, b, cut, v, |eps|) && v.first
    ensures Writing(eps, want, b, cut, v) && v.clientWriting && !v.rotated
  {
    hide Full;
    forall c | c in v.backends ensures !v.backends[c].reading {
      var j :| 0 <= j < |eps| && eps[j] == c;
    }
  }

  lemma WritingTurn(eps: seq<Endpoint>, want: seq<Bytes>, b: Endpoint, cut: nat, v: Snapshot, w: Snapshot)
    requires |eps| == |want| && cut <= |Full(eps, want, b)| && Reading(eps, want, b, cut, v, |eps|) && !v.first
    requires Next(eps, want, v, BecomesFirst, w)
    ensures Reading(eps, want, b, cut, w, |eps|) && w.first
  {
    hide Full, ArrayPrefix;
  }

  lemma WritingOn(eps: seq<Endpoint>, want: seq<Bytes>, b: Endpoint, cut: nat, v: Snapshot, w: Snapshot)
    requires |eps| == |want| && cut <= |Full(eps, want, b)| && Writing(eps, want, b, cut, v)
    requires v.clientWriting && !v.rotated && Next(eps, want, v, ReplyWritten(Success, true), w)
    ensures Writing(eps, want, b, cut, w) && w.sent == v.sent + v.inflight
  {
    hide Full, ArrayPrefix, Part;
  }

  // ---------- the cut ----------

  // Keys i and j are the first two of endpoint b.
  ghost predicate FirstTwo(eps: seq<Endpoint>, b: Endpoint, i: nat, j: nat) {
    && i < j < |eps| && eps[i] == b == eps[j]
    && (forall k :: 0 <= k < i ==> eps[k] != b) && (forall k :: i < k < j ==> eps[k] != b)
  }

  lemma NoneBefore(eps: seq<Endpoint>, ans: seq<Bytes>, b: Endpoint, d: nat)
    requires |eps| == |ans| && d <= |eps| && forall k :: 0 <= k < d ==> eps[k] != b
    ensures Position(eps, ans, b, d) == 0
  {
    hide Position, Full;
    PositionZero(eps, ans, b, d);
    assert b !in eps[..d];
  }

  lemma {:induction false} NoneBetween(eps: seq<Endpoint>, ans: seq<Bytes>, b: Endpoint, i: nat, d: nat)
    requires |eps| == |ans| && i <= d <= |eps| && forall k :: i <= k < d ==> eps[k] != b
    ensures Position(eps, ans, b, d) == Position(eps, ans, b, i)
    decreases d
  {
    hide Position;
    if i < d {
      NoneBetween(eps, ans, b, i, d - 1);
      PositionOther(eps, ans, d - 1, b);
    }
  }

  // The answer to the first key ends at the cut, and more of the reply follows.
  lemma CutAt(eps: seq<Endpoint>, ans: seq<Bytes>, b: Endpoint, i: nat, j: nat)
    requires |eps| == |ans| && AllWhole(ans) && FirstTwo(eps, b, i, j)
    ensures var cut := BulkStart(eps, ans, i) + |ans[i]|;
            && 0 < cut < |Full(eps, ans, b)| && Position(eps, ans, b, j) == BulkStart(eps, ans, j) == cut
            && (forall d :: 0 <= d <= j ==> Position(eps, ans, b, d) <= cut)
            && BulkStart(eps, ans, i) + HeaderSize(ans[i]) <= cut
  {
    hide Position, Full, WholeBulk, BulkStart;
    PositionNext(eps, ans, i);
    NoneBetween(eps, ans, b, i + 1, j);
    BulkLong(ans[i]);
    BulkLong(ans[j]);
    StartIs(eps, ans, j);
    PositionNext(eps, ans, j);
    forall d | 0 <= d <= j ensures Position(eps, ans, b, d) <= BulkStart(eps, ans, i) + |ans[i]| {
      if d <= i {
        NoneBefore(eps, ans, b, d);
      } else {
        NoneBetween(eps, ans, b, i + 1, d);
      }
    }
  }

  lemma StartIs(eps: seq<Endpoint>, ans: seq<Bytes>, d: nat)
    requires |eps| == |ans| && d < |eps| && Position(eps, ans, eps[d], d) > 0
    ensures BulkStart(eps, ans, d) == Position(eps, ans, eps[d], d)
  {
    hide Position;
  }

  lemma BulkLong(w: Bytes)
    requires WholeBulk(w)
    ensures 0 < HeaderSize(w) <= |w|
  {
  }

  // ---------- the end ----------

  lemma AllTrue(eps: seq<Endpoint>, want: seq<Bytes>, ans: seq<Bytes>, backends: map<Endpoint, Backend>)
    requires AnswersOk(eps, want, ans, backends) && forall c :: c in backends ==> !backends[c].failed
    ensures ans == want
  {
  }

  // What the invariant says about backends that have sent that much, when no client
  // write is outstanding: the reply of b ends at the end of a bulk, and it is its turn.
  lemma TurnOfCut(eps: seq<Endpoint>, ans: seq<Bytes>, d: nat, queue: seq<Run>, backends: map<Endpoint, Backend>,
                  replying: Option<Endpoint>, holding: set<Endpoint>, out: Bytes, b: Endpoint, i: nat, j: nat)
    requires GatherOk(eps, ans, d, backends, replying, out) && QueueOk(queue, eps, d) && queue != []
    requires FlagsOk(queue, backends, replying, false, holding, None) && FirstTwo(eps, b, i, j)
    requires queue[0].ep in backends && !Announced(queue, eps, ans, d, backends, queue[0].ep)
    requires var cut := BulkStart(eps, ans, i) + |ans[i]|;
             cut <= |Full(eps, ans, b)| &&
             forall c :: c in backends ==> backends[c].stream == Part(eps, ans, b, cut, c)
    ensures queue[0].ep == b && AtBulkEnd(backends[b])
  {
    hide Full, Position, WholeBulk, BulkStart, QueueOk, Part, FirstTwo;
    var f := queue[0].ep;
    TwoAt(eps, b, i, j);
    var cut := BulkStart(eps, ans, i) + |ans[i]|;
    GatherAt(eps, ans, d, backends, replying, out, f);
    CutAt(eps, ans, b, i, j);
    PartSizes(eps, ans, b, cut, f);
    PartSizes(eps, ans, b, cut, b);
    assert eps[i] in backends;
    NotBeyond(eps, ans, d, backends, b, i, j, cut);
    PositionZero(eps, ans, f, d);
    QueueFront(queue, eps, d);
    PositionNext(eps, ans, d);
    BulkLong(ans[d]);
    SecondKey(eps, b, i, j, d);
  }

  lemma PartSizes(eps: seq<Endpoint>, ans: seq<Bytes>, b: Endpoint, cut: nat, c: Endpoint)
    requires |eps| == |ans| && cut <= |Full(eps, ans, b)|
    ensures |Part(eps, ans, b, cut, c)| == if c == b then cut else |Full(eps, ans, c)|
  {
    hide Full;
  }

  // The second key of b has not been parsed.
  lemma NotBeyond(eps: seq<Endpoint>, ans: seq<Bytes>, d: nat, backends: map<Endpoint, Backend>, b: Endpoint, i: nat,
                  j: nat, cut: nat)
    requires HeadersSeen(eps, ans, d, backends) && FirstTwo(eps, b, i, j) && b in backends
    requires |backends[b].stream| == cut == BulkStart(eps, ans, j)
    ensures d <= j
  {
    hide BulkStart, WholeBulk;
  }

  lemma SecondKey(eps: seq<Endpoint>, b: Endpoint, i: nat, j: nat, d: nat)
    requires FirstTwo(eps, b, i, j) && d <= j && d < |eps|
    ensures eps[d] == b ==> d == i || d == j
  {
  }

  // Such a command has stopped.
  lemma HasStopped(c: MgetCommand, b: Endpoint, i: nat, j: nat)
    requires c.Valid() && |c.eps| == |c.want| && FirstTwo(c.eps, b, i, j) && AllWhole(c.want)
    requires var cut := BulkStart(c.eps, c.want, i) + |c.want[i]|;
             cut <= |Full(c.eps, c.want, b)| && Writing(c.eps, c.want, b, cut, c.Seen())
    requires !c.clientWriting || c.rotated
    ensures Stopped(c.Seen())
  {
    hide GatherOk, AnswersOk, SendsOk, QueueOk, AbsentOk, FlagsOk, CompleteOk, ArrayPrefix, Position, Full, AllWhole,
         ReachOk, Announced, Waits, BulkStart, FirstTwo, Part;
    TwoAt(c.eps, b, i, j);
    AllTrue(c.eps, c.want, c.ans, c.backends);
    CutAt(c.eps, c.want, b, i, j);
    if c.rotated {
      c.EndOf(b);
      GatherAt(c.eps, c.ans, c.d, c.backends, c.replying, c.Out(), b);
      PartSizes(c.eps, c.want, b, BulkStart(c.eps, c.want, i) + |c.want[i]|, b);
      assert false;
    }
    FrontKnown(c.eps, c.want, c.ans, c.backends, c.queue, c.d);
    TurnOfCut(c.eps, c.ans, c.d, c.queue, c.backends, c.replying, c.holding, c.Out(), b, i, j);
    c.WaitsNow();
    ThenStopped(c.eps, c.Seen());
  }

  lemma TwoAt(eps: seq<Endpoint>, b: Endpoint, i: nat, j: nat)
    requires FirstTwo(eps, b, i, j)
    ensures i < j < |eps| && eps[i] == b == eps[j] && b in eps
  {
  }

  lemma ThenStopped(eps: seq<Endpoint>, v: Snapshot)
    requires Waits(eps, v) && !v.aborted && !v.rotated && v.first && !v.clientWriting
    requires v.queue != [] && v.queue[0].ep in v.backends && AtBulkEnd(v.backends[v.queue[0].ep])
    ensures Stopped(v)
  {
    hide Stopped, AtBulkEnd;
  }

  // ---------- the schedule ----------

  ghost predicate Ready(c: MgetCommand)
    reads c
  {
    c.Valid() && |c.eps| == |c.want| && (c.rotated ==> !c.aborted && c.sent == Answer(c.ans, |c.ans|))
  }

  method Advance(c: MgetCommand, isFirst: bool, e: Event, schedule: seq<Event>, run: seq<Snapshot>)
    returns (schedule': seq<Event>, run': seq<Snapshot>)
    requires Ready(c) && Calm(e) && Leads(c.keys, c.eps, c.want, isFirst, schedule, run, c.Seen())
    modifies c
    ensures Ready(c) && Leads(c.keys, c.eps, c.want, isFirst, schedule', run', c.Seen())
    ensures Next(c.eps, c.want, old(c.Seen()), e, c.Seen())
  {
    hide Next, Starts, Calm, MgetCommand.Valid;
    ghost var v := c.Seen();
    c.Step(e);
    LeadsOn(c.keys, c.eps, c.want, isFirst, schedule, run, v, e, c.Seen());
    schedule', run' := schedule + [e], run + [c.Seen()];
  }

  method SendAll(c: MgetCommand, isFirst: bool, schedule: seq<Event>, run: seq<Snapshot>)
    returns (schedule': seq<Event>, run': seq<Snapshot>)
    requires Ready(c) && Leads(c.keys, c.eps, c.want, isFirst, schedule, run, c.Seen()) && Sending(c.eps, c.Seen(), 0)
    modifies c
    ensures Ready(c) && Leads(c.keys, c.eps, c.want, isFirst, schedule', run', c.Seen())
    ensures Sending(c.eps, c.Seen(), |c.eps|)
  {
    hide Next, Starts, MgetCommand.Valid, Leads, Answer;
    schedule', run' := schedule, run;
    for i := 0 to |c.eps|
      invariant Ready(c) && Leads(c.keys, c.eps, c.want, isFirst, schedule', run', c.Seen())
      invariant Sending(c.eps, c.Seen(), i)
    {
      var b := c.eps[i];
      while b in c.holding
        invariant Ready(c) && Leads(c.keys, c.eps, c.want, isFirst, schedule', run', c.Seen())
        invariant Sending(c.eps, c.Seen(), i)
        decreases if b in c.subqueries then |c.subqueries[b].segments| else 0
      {
        ghost var v := c.Seen();
        schedule', run' := Advance(c, isFirst, QuerySent(b, Success, true), schedule', run');
        SendingOn(c.eps, c.want, v, i, b, c.Seen());
      }
    }
  }

  method ReadAll(c: MgetCommand, isFirst: bool, b: Endpoint, cut: nat, schedule: seq<Event>, run: seq<Snapshot>)
    returns (schedule': seq<Event>, run': seq<Snapshot>)
    requires Ready(c) && Leads(c.keys, c.eps, c.want, isFirst, schedule, run, c.Seen())
    requires 0 < cut <= |Full(c.eps, c.want, b)| && Reading(c.eps, c.want, b, cut, c.Seen(), 0)
    modifies c
    ensures Ready(c) && Leads(c.keys, c.eps, c.want, isFirst, schedule', run', c.Seen())
    ensures Reading(c.eps, c.want, b, cut, c.Seen(), |c.eps|)
  {
    hide Next, Starts, MgetCommand.Valid, Leads, Answer, Full, Part;
    schedule', run' := schedule, run;
    for i := 0 to |c.eps|
      invariant Ready(c) && Leads(c.keys, c.eps, c.want, isFirst, schedule', run', c.Seen())
      invariant Reading(c.eps, c.want, b, cut, c.Seen(), i)
    {
      var ep := c.eps[i];
      if c.backends[ep].reading {
        ghost var v := c.Seen();
        schedule', run' := Advance(c, isFirst, ReplyRead(ep, |Part(c.eps, c.want, b, cut, ep)|, true), schedule', run');
        ReadingOn(c.eps, c.want, b, cut, v, i, c.Seen());
      }
    }
  }

  method WriteAll(c: MgetCommand, locate: Bytes -> Endpoint, lookup: (Endpoint, Bytes) -> Reply, isFirst: bool,
                  b: Endpoint, cut: nat, schedule: seq<Event>, run: seq<Snapshot>)
    returns (schedule': seq<Event>, run': seq<Snapshot>)
    requires Ready(c) && Leads(c.keys, c.eps, c.want, isFirst, schedule, run, c.Seen()) && AllWhole(c.keys)
    requires c.eps == Located(c.keys, locate) && c.want == Stored(c.keys, locate, lookup)
    requires cut <= |Full(c.eps, c.want, b)| && Writing(c.eps, c.want, b, cut, c.Seen())
    modifies c
    ensures Ready(c) && Leads(c.keys, c.eps, c.want, isFirst, schedule', run', c.Seen())
    ensures Writing(c.eps, c.want, b, cut, c.Seen()) && (!c.clientWriting || c.rotated)
  {
    hide Next, Starts, MgetCommand.Valid, Leads, Answer, Full, Part, AllWhole, Located, Stored, InOrder;
    schedule', run' := schedule, run;
    Bounded(c, locate, lookup);
    while c.clientWriting && !c.rotated
      invariant Ready(c) && Leads(c.keys, c.eps, c.want, isFirst, schedule', run', c.Seen())
      invariant Writing(c.eps, c.want, b, cut, c.Seen())
      invariant |c.sent| <= |InOrder(c.keys, locate, lookup, {})|
      decreases |InOrder(c.keys, locate, lookup, {})| - |c.sent|
    {
      ghost var v := c.Seen();
      HasBytes(c, locate, lookup);
      schedule', run' := Advance(c, isFirst, ReplyWritten(Success, true), schedule', run');
      WritingOn(c.eps, c.want, b, cut, v, c.Seen());
      Bounded(c, locate, lookup);
    }
  }

  // The client has no more than the whole answer.
  lemma Bounded(c: MgetCommand, locate: Bytes -> Endpoint, lookup: (Endpoint, Bytes) -> Reply)
    requires Ready(c) && AllWhole(c.keys) && c.eps == Located(c.keys, locate) && c.want == Stored(c.keys, locate, lookup)
    requires forall b :: b in c.backends ==> !c.backends[b].failed
    ensures |c.sent| <= |InOrder(c.keys, locate, lookup, {})|
  {
    hide MgetCommand.Valid, InOrder, AllWhole, Located, Stored, Answer, OwnQuery;
    c.SoundNow(locate, lookup);
    assert Broke(c.backends) == {};
  }

  lemma HasBytes(c: MgetCommand, locate: Bytes -> Endpoint, lookup: (Endpoint, Bytes) -> Reply)
    requires Ready(c) && AllWhole(c.keys) && c.eps == Located(c.keys, locate) && c.want == Stored(c.keys, locate, lookup)
    requires c.clientWriting && !c.aborted
    ensures c.inflight != []
  {
    hide MgetCommand.Valid, InOrder, AllWhole, Located, Stored, Answer, Gathers;
    c.SoundNow(locate, lookup);
  }

  // Everything is sent, every backend answers, and everything is written.
  method Drive(c: MgetCommand, locate: Bytes -> Endpoint, lookup: (Endpoint, Bytes) -> Reply, isFirst: bool,
               b: Endpoint, cut: nat)
    returns (schedule: seq<Event>, run: seq<Snapshot>)
    requires Ready(c) && AllWhole(c.keys) && Starts(c.keys, c.eps, isFirst, c.Seen())
    requires c.eps == Located(c.keys, locate) && c.want == Stored(c.keys, locate, lookup)
    requires 0 < cut <= |Full(c.eps, c.want, b)|
    modifies c
    ensures Ready(c) && Leads(c.keys, c.eps, c.want, isFirst, schedule, run, c.Seen())
    ensures Writing(c.eps, c.want, b, cut, c.Seen()) && (!c.clientWriting || c.rotated)
  {
    hide Ready, Next, Starts, AllWhole, Located, Stored, Full, Leads, Sending, Reading, Writing;
    LengthsFit(c);
    schedule, run := [], [c.Seen()];
    LeadsFirst(c.keys, c.eps, c.want, isFirst, c.Seen());
    SendingFirst(c.keys, c.eps, isFirst, c.Seen());
    schedule, run := SendAll(c, isFirst, schedule, run);
    ReadingFirst(c.eps, c.want, b, cut, c.Seen());
    schedule, run := ReadAll(c, isFirst, b, cut, schedule, run);
    if !c.first {
      ghost var v := c.Seen();
      schedule, run := Advance(c, isFirst, BecomesFirst, schedule, run);
      WritingTurn(c.eps, c.want, b, cut, v, c.Seen());
    }
    WritingFirst(c.eps, c.want, b, cut, c.Seen());
    schedule, run := WriteAll(c, locate, lookup, isFirst, b, cut, schedule, run);
  }

  lemma LengthsFit(c: MgetCommand)
    requires Ready(c)
    ensures |c.eps| == |c.want|
  {
    hide MgetCommand.Valid, Answer;
  }

  // Two keys of one endpoint are enough: with room for every read, and without any
  // failure, there is a run that stops.
  method Stopping(keys: seq<Bytes>, locate: Bytes -> Endpoint, lookup: (Endpoint, Bytes) -> Reply, isFirst: bool,
                  p: nat, q: nat)
    returns (schedule: seq<Event>, run: seq<Snapshot>)
    requires AllWhole(keys) && p < q < |keys| && locate(Payload(keys[p])) == locate(Payload(keys[q]))
    ensures |run| == |schedule| + 1 && Stopped(run[|schedule|])
    ensures Leads(keys, Located(keys, locate), Stored(keys, locate, lookup), isFirst, schedule, run, run[|schedule|])
  {
    hide MgetCommand.Valid, Next, Starts, AllWhole, Located, Stored, Answer, Full, Leads, Writing, BulkStart, FirstTwo,
         Stopped;
    var c := new MgetCommand(keys, locate, lookup, isFirst);
    var i, j := FindTwo(c.eps, p, q);
    var b := c.eps[i];
    StoredWhole(keys, locate, lookup);
    CutAt(c.eps, c.want, b, i, j);
    schedule, run := Drive(c, locate, lookup, isFirst, b, BulkStart(c.eps, c.want, i) + |c.want[i]|);
    HasStopped(c, b, i, j);
    LastOf(keys, c.eps, c.want, isFirst, schedule, run, c.Seen());
  }

  lemma LastOf(keys: seq<Bytes>, eps: seq<Endpoint>, want: seq<Bytes>, isFirst: bool, schedule: seq<Event>,
               run: seq<Snapshot>, v: Snapshot)
    requires Leads(keys, eps, want, isFirst, schedule, run, v)
    ensures |run| == |schedule| + 1 && run[|schedule|] == v
  {
    hide Next, Starts, Calm;
  }

  // The first two keys of an endpoint that has two.
  method FindTwo(eps: seq<Endpoint>, p: nat, q: nat) returns (i: nat, j: nat)
    requires p < q < |eps| && eps[p] == eps[q]
    ensures FirstTwo(eps, eps[p], i, j) && eps[i] == eps[p]
  {
    i := 0;
    while eps[i] != eps[p]
      invariant i <= p && forall k :: 0 <= k < i ==> eps[k] != eps[p]
      decreases p - i
    {
      i := i + 1;
    }
    j := i + 1;
    while eps[j] != eps[p]
      invariant i < j <= q && forall k :: i < k < j ==> eps[k] != eps[p]
      decreases q - j
    {
      j := j + 1;
    }
  }
}
