/**
 Backend connections and the pool that lends them out and takes them back.
 */
module Pool {
  import opened Net
  import opened Resp

  // ---------- connections ----------

  // What a connection looks like between two operations on it.
  datatype Conn = Conn(
    ep: Endpoint,
    noRecycle: bool,      // no_recycle_
    aborted: bool,        // aborted_
    isReading: bool,      // is_reading_reply_: a read is outstanding
    hasReadSome: bool,    // has_read_some_reply_
    recvComplete: bool,   // reply_recv_complete_
    isWriting: bool,      // a connect or a write is outstanding
    unprocessed: nat)     // bytes in the buffer that have not been passed on
  {
    predicate Finished() {
      recvComplete && unprocessed == 0
    }

    predicate Recyclable() {
      !noRecycle && Finished()
    }

    // What holds while a command uses the connection: when a reply is complete
    // and the connection may be reused, nothing is outstanding.
    predicate InUse() {
      && (recvComplete && !noRecycle ==> !isReading && !isWriting && !aborted)
      && (aborted ==> noRecycle)
      && !(isReading && isWriting)
    }
  }

  // As new: nothing outstanding, nothing left over from an earlier command.
  function NewConn(ep: Endpoint): Conn {
    Conn(ep, false, false, false, false, false, false, 0)
  }

  // What a command does with a connection, and what becomes of its operations.
  datatype Op =
    | Write
    | Written(ok: bool, recover: bool)
    | Read
    | ReadMore(space: bool)
    | Received(ok: bool, size: nat, complete: bool, recover: bool)
    | Complete              // bytes received earlier turn out to end the reply
    | PassOn(size: nat)
    | TimeOut(recover: bool)

  // The command supplied an error reply of n bytes.
  function ErrorReply(c: Conn, n: nat): Conn {
    c.(unprocessed := n, recvComplete := true, noRecycle := true)
  }

  // What an operation does; one that cannot happen now does nothing.
  function Done(c: Conn, op: Op): Conn {
    match op
    case Write => if c.isReading || c.isWriting || c.recvComplete then c else c.(isWriting := true)
    case Written(ok, recover) =>
      if !c.isWriting then c
      else
        var quiet := c.(isWriting := false);
        if !ok && recover && !c.aborted then ErrorReply(quiet, 1) else quiet
    case Read => if c.isReading || c.isWriting || c.recvComplete then c else c.(isReading := true)
    case ReadMore(space) =>
      if c.isWriting || c.recvComplete || c.isReading || !space then c else c.(isReading := true)
    case Received(ok, n, complete, recover) =>
      if !c.isReading || c.aborted then c
      else
        var quiet := c.(isReading := false);
        if ok then quiet.(hasReadSome := true, unprocessed := c.unprocessed + n, recvComplete := c.recvComplete || complete)
        else if recover then ErrorReply(quiet, 1)
        else quiet
    case Complete => if c.isReading || c.isWriting || c.aborted then c else c.(recvComplete := true)
    case PassOn(n) => if n > c.unprocessed then c else c.(unprocessed := c.unprocessed - n)
    case TimeOut(recover) =>
      if c.aborted || (!c.isReading && !c.isWriting) then c
      else
        var answered := if recover then ErrorReply(c, 1) else c;
        answered.(aborted := true, noRecycle := true, isReading := false)
  }

  lemma DoneInUse(c: Conn, op: Op)
    requires c.InUse()
    ensures Done(c, op).InUse() && Done(c, op).ep == c.ep
  {
  }

  // A connection to one backend, with the operations outstanding on its socket.
  class BackendConn {
    const id: nat            // number of the connection, in the order of their making
    const ep: Endpoint
    var noRecycle: bool
    var aborted: bool
    var isReading: bool
    var hasReadSome: bool
    var recvComplete: bool
    var isWriting: bool
    var unprocessed: nat

    function Seen(): Conn
      reads this
    {
      Conn(ep, noRecycle, aborted, isReading, hasReadSome, recvComplete, isWriting, unprocessed)
    }

    constructor (id: nat, ep: Endpoint)
      ensures this.id == id && Seen() == NewConn(ep)
    {
      this.id, this.ep := id, ep;
      noRecycle, aborted, isReading, hasReadSome, recvComplete, isWriting, unprocessed :=
        false, false, false, false, false, false, 0;
    }

    method Close()
      modifies this`aborted
      ensures Seen() == old(Seen()).(aborted := true)
    {
      aborted := true;
    }

    method Abort()
      requires Seen().InUse()
      modifies this`aborted, this`noRecycle, this`isReading
      ensures Seen().InUse() && aborted && noRecycle
      ensures Seen() == if old(aborted) then old(Seen())
                        else old(Seen()).(aborted := true, noRecycle := true, isReading := false)
    {
      if aborted {
        return;
      }
      aborted, noRecycle, isReading := true, true, false;
    }

    // A connection that is lent again is as new.
    method Reset()
      requires Seen().InUse() && Seen().Recyclable()
      modifies this`isReading, this`hasReadSome, this`recvComplete, this`unprocessed
      ensures Seen() == NewConn(ep)
    {
      assert !noRecycle;  // as the source asserts
      isReading, hasReadSome, recvComplete, unprocessed := false, false, false, 0;
    }

    // A command sends a part of its query, before it reads.
    method WriteQuery()
      requires Seen().InUse() && !isReading && !isWriting && !recvComplete
      modifies this`isWriting
      ensures Seen().InUse() && Seen() == old(Seen()).(isWriting := true)
    {
      isWriting := true;
    }

    // The connect or the write completed; the command reacts to an error by
    // supplying a reply of its own, or by giving up.
    method HandleWrite(ok: bool, recover: bool)
      requires Seen().InUse() && isWriting
      modifies this`isWriting, this`recvComplete, this`noRecycle, this`unprocessed
      ensures Seen().InUse() && !isWriting && Seen() == Done(old(Seen()), Written(ok, recover))
      ensures !ok && recover && !aborted ==> noRecycle && recvComplete
    {
      isWriting := false;
      if aborted {
        return;
      }
      if !ok && recover {
        SetErrorReply(1);
      }
    }

    // `SetReplyData` with an error reply of n bytes
    method SetErrorReply(n: nat)
      modifies this`recvComplete, this`noRecycle, this`unprocessed
      ensures Seen() == ErrorReply(old(Seen()), n)
    {
      unprocessed := n;
      recvComplete, noRecycle := true, true;
    }

    method ReadReply()
      requires Seen().InUse() && !isReading && !isWriting && !recvComplete
      modifies this`isReading
      ensures Seen().InUse() && Seen() == old(Seen()).(isReading := true)
    {
      isReading := true;
    }

    method TryReadMoreReply(hasMuchFreeSpace: bool)
      requires Seen().InUse() && !isWriting
      modifies this`isReading
      ensures Seen().InUse()
      ensures Seen() == old(Seen()).(isReading := old(isReading) || (!recvComplete && hasMuchFreeSpace))
    {
      if recvComplete || isReading || !hasMuchFreeSpace {
        return;
      }
      ReadReply();
    }

    // The read completed with n bytes; the command's parser may find the reply
    // complete, and an error is answered as in HandleWrite.
    method HandleRead(ok: bool, n: nat, complete: bool, recover: bool)
      requires Seen().InUse() && isReading
      modifies this`isReading, this`hasReadSome, this`recvComplete, this`noRecycle, this`unprocessed
      ensures Seen().InUse() && Seen() == Done(old(Seen()), Received(ok, n, complete, recover))
      ensures !aborted ==> !isReading && (recvComplete && !noRecycle ==> !isWriting)
    {
      if aborted {
        return;
      }
      isReading := false;
      if ok {
        hasReadSome := true;
        unprocessed := unprocessed + n;
        if complete {
          recvComplete := true;  // set_reply_recv_complete
        }
      } else if recover {
        SetErrorReply(1);
      }
    }

    // The command's parser finds the reply complete when it comes to bytes that
    // were received before.
    method SetReplyRecvComplete()
      requires Seen().InUse() && !isReading && !isWriting && !aborted
      modifies this`recvComplete
      ensures Seen().InUse() && Seen() == old(Seen()).(recvComplete := true)
    {
      recvComplete := true;
    }

    // n bytes of the buffer are passed on to the client.
    method UpdateProcessed(n: nat)
      requires Seen().InUse() && n <= unprocessed
      modifies this`unprocessed
      ensures Seen().InUse() && Seen() == old(Seen()).(unprocessed := old(unprocessed) - n)
    {
      unprocessed := unprocessed - n;
    }

    // The timer of the outstanding operation ran out: the command is told first.
    method OnTimeout(recover: bool)
      requires Seen().InUse() && !aborted && (isReading || isWriting)
      modifies this`aborted, this`noRecycle, this`isReading, this`recvComplete, this`unprocessed
      ensures Seen().InUse() && Seen() == Done(old(Seen()), TimeOut(recover))
    {
      if recover {
        SetErrorReply(1);
      }
      Abort();
    }
  }

  // An operation is possible when none of the kind is outstanding, a completion
  // when one is.
  method OperateOn(c: BackendConn, op: Op)
    requires c.Seen().InUse()
    modifies c
    ensures c.Seen().InUse() && c.Seen() == Done(old(c.Seen()), op)
  {
    match op {
      case Write =>
        if !c.isReading && !c.isWriting && !c.recvComplete {
          c.WriteQuery();
        }
      case Written(ok, recover) =>
        if c.isWriting {
          c.HandleWrite(ok, recover);
        }
      case Read =>
        if !c.isReading && !c.isWriting && !c.recvComplete {
          c.ReadReply();
        }
      case ReadMore(space) =>
        if !c.isWriting {
          c.TryReadMoreReply(space);
        }
      case Received(ok, n, complete, recover) =>
        if c.isReading {
          c.HandleRead(ok, n, complete, recover);
        }
      case Complete =>
        if !c.isReading && !c.isWriting && !c.aborted {
          c.SetReplyRecvComplete();
        }
      case PassOn(n) =>
        if n <= c.unprocessed {
          c.UpdateProcessed(n);
        }
      case TimeOut(recover) =>
        if !c.aborted && (c.isReading || c.isWriting) {
          c.OnTimeout(recover);
        }
    }
  }

  // ---------- the pool as a value ----------

  // The connections by number, the queues of idle ones, those lent out, and the
  // number of the connection that was lent each time.
  datatype Snapshot = Snapshot(conns: seq<Conn>, idle: map<Endpoint, seq<nat>>, active: set<nat>, lent: seq<nat>)

  // The k-th connection lent out is released, or operated on.
  datatype Event =
    | Lend(ep: Endpoint)
    | TakeBack(k: nat)
    | Use(k: nat, op: Op)

  function Queue(v: Snapshot, ep: Endpoint): seq<nat> {
    if ep in v.idle then v.idle[ep] else []
  }

  // The connection that is lent for an endpoint: the one that has been idle
  // longest, or a new one.
  function Given(v: Snapshot, ep: Endpoint): nat {
    if Queue(v, ep) != [] then v.idle[ep][0] else |v.conns|
  }

  function Lent(v: Snapshot, ep: Endpoint): Snapshot {
    var id := Given(v, ep);
    var out := v.(active := v.active + {id}, lent := v.lent + [id]);
    if Queue(v, ep) != [] then out.(idle := v.idle[ep := v.idle[ep][1..]])
    else out.(conns := v.conns + [NewConn(ep)])
  }

  // A connection that is not lent out is left alone, however often it is released.
  function TakenBack(maxIdle: nat, v: Snapshot, id: nat): Snapshot {
    if id !in v.active || id >= |v.conns| then v
    else
      var c := v.conns[id];
      if c.Recyclable() && (c.ep !in v.idle || |v.idle[c.ep]| < maxIdle)
      then v.(active := v.active - {id}, conns := v.conns[id := NewConn(c.ep)],
              idle := v.idle[c.ep := Queue(v, c.ep) + [id]])
      else v.(active := v.active - {id}, conns := v.conns[id := c.(aborted := true)])
  }

  function Used(v: Snapshot, id: nat, op: Op): Snapshot {
    if id !in v.active || id >= |v.conns| then v else v.(conns := v.conns[id := Done(v.conns[id], op)])
  }

  // What every event does.
  function Next(maxIdle: nat, v: Snapshot, e: Event): Snapshot {
    match e
    case Lend(ep) => Lent(v, ep)
    case TakeBack(k) => if k < |v.lent| then TakenBack(maxIdle, v, v.lent[k]) else v
    case Use(k, op) => if k < |v.lent| then Used(v, v.lent[k], op) else v
  }

  // The queue of idle connections of one endpoint: of bounded length, each there
  // once, of that endpoint, not lent out, and as new.
  ghost predicate QueueOk(maxIdle: nat, v: Snapshot, ep: Endpoint, q: seq<nat>) {
    && |q| <= Max(1, maxIdle)
    && (forall i :: 0 <= i < |q| ==> q[i] < |v.conns| && q[i] !in v.active && v.conns[q[i]] == NewConn(ep))
    && (forall i, j :: 0 <= i < j < |q| ==> q[i] != q[j])
  }

  ghost predicate IdleOk(maxIdle: nat, v: Snapshot) {
    forall ep :: ep in v.idle ==> QueueOk(maxIdle, v, ep, v.idle[ep])
  }

  // A connection that is lent out is in a state fit for use.
  ghost predicate ActiveOk(v: Snapshot) {
    && (forall id :: id in v.active ==> id < |v.conns| && v.conns[id].InUse())
    && (forall k :: 0 <= k < |v.lent| ==> v.lent[k] < |v.conns|)
  }

  // A connection that is neither lent out nor idle is closed.
  ghost predicate NoneLost(v: Snapshot) {
    forall id :: 0 <= id < |v.conns| && id !in v.active ==>
      v.conns[id].aborted || id in Queue(v, v.conns[id].ep)
  }

  ghost predicate Sound(maxIdle: nat, v: Snapshot) {
    IdleOk(maxIdle, v) && ActiveOk(v) && NoneLost(v)
  }

  lemma LentSound(maxIdle: nat, v: Snapshot, ep: Endpoint)
    requires Sound(maxIdle, v)
    ensures Given(v, ep) !in v.active
    ensures var w := Lent(v, ep);
            Sound(maxIdle, w) && Given(v, ep) < |w.conns| && w.conns[Given(v, ep)] == NewConn(ep)
  {
    var w := Lent(v, ep);
    var id := Given(v, ep);
    if Queue(v, ep) != [] {
      assert QueueOk(maxIdle, v, ep, v.idle[ep]);
    }
    forall e | e in w.idle ensures QueueOk(maxIdle, w, e, w.idle[e]) {
      assert QueueOk(maxIdle, v, e, v.idle[e]);
    }
    forall i | 0 <= i < |w.conns| && i !in w.active ensures w.conns[i].aborted || i in Queue(w, w.conns[i].ep) {
      assert i < |v.conns| && i !in v.active && w.conns[i] == v.conns[i];
      if !v.conns[i].aborted && v.conns[i].ep == ep {
        assert i in v.idle[ep] && i != v.idle[ep][0];
        assert v.idle[ep] == [v.idle[ep][0]] + v.idle[ep][1..];
      }
    }
  }

  lemma TakenBackSound(maxIdle: nat, v: Snapshot, id: nat)
    requires Sound(maxIdle, v)
    ensures Sound(maxIdle, TakenBack(maxIdle, v, id))
  {
    if id in v.active {
      var w := TakenBack(maxIdle, v, id);
      var c := v.conns[id];
      forall e | e in w.idle ensures QueueOk(maxIdle, w, e, w.idle[e]) {
        if e in v.idle {
          assert QueueOk(maxIdle, v, e, v.idle[e]);
        }
      }
      forall i | 0 <= i < |w.conns| && i !in w.active ensures w.conns[i].aborted || i in Queue(w, w.conns[i].ep) {
        if i != id {
          assert w.conns[i] == v.conns[i];
          assert v.conns[i].aborted || i in Queue(v, v.conns[i].ep);
        }
      }
    }
  }

  lemma UsedSound(maxIdle: nat, v: Snapshot, id: nat, op: Op)
    requires Sound(maxIdle, v)
    ensures Sound(maxIdle, Used(v, id, op))
  {
    hide Done;
    if id in v.active {
      var w := Used(v, id, op);
      DoneInUse(v.conns[id], op);
      forall e | e in w.idle ensures QueueOk(maxIdle, w, e, w.idle[e]) {
        assert QueueOk(maxIdle, v, e, v.idle[e]);
      }
      forall i | 0 <= i < |w.conns| && i !in w.active ensures w.conns[i].aborted || i in Queue(w, w.conns[i].ep) {
        assert w.conns[i] == v.conns[i];
      }
    }
  }

  // ---------- the pool ----------

  function Ids(q: seq<BackendConn>): (ids: seq<nat>)
    ensures |ids| == |q| && forall i :: 0 <= i < |q| ==> ids[i] == q[i].id
  {
    seq(|q|, i requires 0 <= i < |q| => q[i].id)
  }

  function IdleIds(idle: map<Endpoint, seq<BackendConn>>): map<Endpoint, seq<nat>> {
    map ep | ep in idle :: Ids(idle[ep])
  }

  function ActiveIds(active: map<BackendConn, Endpoint>): set<nat> {
    set c | c in active :: c.id
  }

  function States(cs: seq<BackendConn>): (vs: seq<Conn>)
    reads cs
    ensures |vs| == |cs| && forall i :: 0 <= i < |cs| ==> vs[i] == cs[i].Seen()
  {
    if cs == [] then [] else States(cs[..|cs| - 1]) + [cs[|cs| - 1].Seen()]
  }

  lemma IdlePop(idle: map<Endpoint, seq<BackendConn>>, ep: Endpoint)
    requires ep in idle && idle[ep] != []
    ensures IdleIds(idle[ep := idle[ep][1..]]) == IdleIds(idle)[ep := IdleIds(idle)[ep][1..]]
  {
    assert Ids(idle[ep][1..]) == Ids(idle[ep])[1..];
  }

  lemma IdlePush(idle: map<Endpoint, seq<BackendConn>>, ep: Endpoint, q: seq<BackendConn>, c: BackendConn)
    requires q == if ep in idle then idle[ep] else []
    ensures IdleIds(idle[ep := q + [c]])
         == IdleIds(idle)[ep := (if ep in IdleIds(idle) then IdleIds(idle)[ep] else []) + [c.id]]
  {
    assert Ids(q + [c]) == Ids(q) + [c.id];
    assert Ids([]) == [];
  }

  lemma ActiveAdd(active: map<BackendConn, Endpoint>, c: BackendConn, ep: Endpoint)
    ensures ActiveIds(active[c := ep]) == ActiveIds(active) + {c.id}
  {
    forall id ensures id in ActiveIds(active[c := ep]) <==> id in ActiveIds(active) + {c.id} {
      if id in ActiveIds(active) {
        var d :| d in active && d.id == id;
        assert d in active[c := ep];
      }
      if id == c.id {
        assert c in active[c := ep];
      }
    }
  }

  // Different connections have different numbers.
  ghost predicate Listed(all: seq<BackendConn>, c: BackendConn) {
    c.id < |all| && all[c.id] == c
  }

  ghost predicate Numbered(all: seq<BackendConn>, idle: map<Endpoint, seq<BackendConn>>, active: map<BackendConn, Endpoint>) {
    && (forall i :: 0 <= i < |all| ==> all[i].id == i)
    && (forall c :: c in active ==> Listed(all, c) && active[c] == c.ep)
    && (forall ep, i :: ep in idle && 0 <= i < |idle[ep]| ==> Listed(all, idle[ep][i]))
  }

  lemma NumberedPop(all: seq<BackendConn>, idle: map<Endpoint, seq<BackendConn>>, active: map<BackendConn, Endpoint>,
                    ep: Endpoint)
    requires Numbered(all, idle, active) && ep in idle && idle[ep] != []
    ensures Listed(all, idle[ep][0]) && Numbered(all, idle[ep := idle[ep][1..]], active)
  {
  }

  lemma NumberedMade(all: seq<BackendConn>, idle: map<Endpoint, seq<BackendConn>>, active: map<BackendConn, Endpoint>,
                     c: BackendConn)
    requires Numbered(all, idle, active) && c.id == |all|
    ensures Listed(all + [c], c) && Numbered(all + [c], idle, active)
  {
  }

  lemma NumberedLent(all: seq<BackendConn>, idle: map<Endpoint, seq<BackendConn>>, active: map<BackendConn, Endpoint>,
                     c: BackendConn)
    requires Numbered(all, idle, active) && Listed(all, c)
    ensures Numbered(all, idle, active[c := c.ep])
  {
  }

  lemma NumberedBack(all: seq<BackendConn>, idle: map<Endpoint, seq<BackendConn>>, active: map<BackendConn, Endpoint>,
                     c: BackendConn, q: seq<BackendConn>)
    requires Numbered(all, idle, active) && c in active && (q == if c.ep in idle then idle[c.ep] else [])
    ensures Numbered(all, idle, active - {c}) && Numbered(all, idle[c.ep := q + [c]], active - {c})
  {
  }

  lemma ActiveIs(all: seq<BackendConn>, idle: map<Endpoint, seq<BackendConn>>, active: map<BackendConn, Endpoint>,
                 c: BackendConn)
    requires Numbered(all, idle, active) && Listed(all, c)
    ensures c in active <==> c.id in ActiveIds(active)
    ensures ActiveIds(active - {c}) == ActiveIds(active) - {c.id}
  {
    forall id ensures id in ActiveIds(active - {c}) <==> id in ActiveIds(active) - {c.id} {
      if id in ActiveIds(active) && id != c.id {
        var d :| d in active && d.id == id;
        assert d in active - {c};
      }
    }
  }

  class BackendConnPool {
    const maxIdle: nat                          // worker_max_idle_backends
    var idle: map<Endpoint, seq<BackendConn>>   // conn_map_
    var active: map<BackendConn, Endpoint>      // active_conns_

    var all: seq<BackendConn>                   // bookkeeping of the model: all connections, by number

    function Seen(lent: seq<nat>): Snapshot
      reads this, all
    {
      Snapshot(States(all), IdleIds(idle), ActiveIds(active), lent)
    }

    ghost predicate Valid(lent: seq<nat>)
      reads this, all
    {
      Numbered(all, idle, active) && Sound(maxIdle, Seen(lent))
    }

    constructor (maxIdle: nat)
      ensures Valid([]) && this.maxIdle == maxIdle && all == []
      ensures Seen([]) == Snapshot([], map[], {}, [])
    {
      this.maxIdle := maxIdle;
      idle, active, all := map[], map[], [];
    }

    // The connection that has been idle longest, or a new one. It is as new and
    // was not lent out.
    method Allocate(ep: Endpoint, ghost lent: seq<nat>) returns (c: BackendConn)
      requires Valid(lent)
      modifies this`idle, this`active, this`all
      ensures Valid(lent + [c.id]) && Seen(lent + [c.id]) == Lent(old(Seen(lent)), ep)
      ensures c !in old(active) && active == old(active)[c := ep] && Listed(all, c)
      ensures c.Seen() == NewConn(ep)
      ensures all == old(all) || (fresh(c) && all == old(all) + [c])
    {
      hide Sound, States, IdleIds, ActiveIds, Numbered, Listed;
      LentSound(maxIdle, Seen(lent), ep);
      NoneIdle(ep);
      if ep in idle && idle[ep] != [] {
        c := idle[ep][0];
        NumberedPop(all, idle, active, ep);
        IdlePop(idle, ep);
        EpOf(lent, ep);
        idle := idle[ep := idle[ep][1..]];
      } else {
        c := new BackendConn(|all|, ep);
        NumberedMade(all, idle, active, c);
        StatesSnoc(c);
        all := all + [c];
      }
      ActiveIs(all, idle, active, c);
      ActiveAdd(active, c, ep);
      NumberedLent(all, idle, active, c);
      assert c !in active;  // as the source asserts
      active := active[c := ep];
    }

    // An idle connection is as new.
    lemma EpOf(lent: seq<nat>, ep: Endpoint)
      requires Valid(lent) && ep in idle && idle[ep] != []
      ensures idle[ep][0].Seen() == NewConn(ep)
    {
      hide States;
      assert QueueOk(maxIdle, Seen(lent), ep, IdleIds(idle)[ep]);
      assert Listed(all, idle[ep][0]);
    }

    lemma NoneIdle(ep: Endpoint)
      ensures ep in IdleIds(idle) <==> ep in idle
      ensures ep in idle ==> IdleIds(idle)[ep] == Ids(idle[ep])
    {
    }

    lemma StatesSnoc(c: BackendConn)
      ensures States(all + [c]) == States(all) + [c.Seen()]
    {
      assert (all + [c])[..|all|] == all;
    }

    // Only c has changed.
    lemma StatesUpdate(before: seq<Conn>, c: BackendConn)
      requires Listed(all, c) && |before| == |all|
      requires forall i :: 0 <= i < |all| && i != c.id ==> all[i].Seen() == before[i]
      ensures States(all) == before[c.id := c.Seen()]
    {
      hide States;
    }

    // A connection that is fit for it is reset and queued if there is room, any
    // other is closed; releasing it again does nothing.
    method Release(c: BackendConn, ghost lent: seq<nat>)
      requires Valid(lent) && Listed(all, c)
      modifies this`idle, this`active, c
      ensures Valid(lent) && Seen(lent) == TakenBack(maxIdle, old(Seen(lent)), c.id)
      ensures c !in active && active == old(active) - {c}
    {
      hide Sound, States, IdleIds, ActiveIds, Numbered;
      TakenBackSound(maxIdle, Seen(lent), c.id);
      ActiveIs(all, idle, active, c);
      if c !in active {
        return;  // released more than once
      }
      LentState(lent, c);
      var ep := active[c];
      NumberedBack(all, idle, active, c, if ep in idle then idle[ep] else []);
      NoneIdle(ep);
      active := active - {c};
      if !c.Seen().Recyclable() {
        CloseReleased(c);
        return;
      }
      if ep !in idle {
        PushIdle(c, []);
      } else {
        if |idle[ep]| >= maxIdle {
          CloseReleased(c);
        } else {
          PushIdle(c, idle[ep]);
        }
      }
    }

    // A connection that is lent out is in a state fit for use.
    lemma LentState(lent: seq<nat>, c: BackendConn)
      requires Valid(lent) && c in active
      ensures Listed(all, c) && active[c] == c.ep && c.Seen().InUse()
    {
      hide States;
      ActiveIs(all, idle, active, c);
    }

    method CloseReleased(c: BackendConn)
      requires Numbered(all, idle, active) && Listed(all, c)
      modifies c`aborted
      ensures States(all) == old(States(all))[c.id := old(c.Seen()).(aborted := true)]
    {
      hide States;
      c.Close();
      StatesUpdate(old(States(all)), c);
    }

    // c joins the idle queue q of its endpoint.
    method PushIdle(c: BackendConn, q: seq<BackendConn>)
      requires Numbered(all, idle, active) && Listed(all, c) && c.Seen().Recyclable() && c.Seen().InUse()
      requires q == if c.ep in idle then idle[c.ep] else []
      modifies this`idle, c
      ensures States(all) == old(States(all))[c.id := NewConn(c.ep)] && idle == old(idle)[c.ep := q + [c]]
      ensures IdleIds(idle) == var ids := old(IdleIds(idle));
                ids[c.ep := (if c.ep in ids then ids[c.ep] else []) + [c.id]]
    {
      hide States, IdleIds;
      c.Reset();
      StatesUpdate(old(States(all)), c);
      IdlePush(idle, c.ep, q, c);
      idle := idle[c.ep := q + [c]];
    }

    // A command operates on a connection it was lent.
    method Operate(c: BackendConn, op: Op, ghost lent: seq<nat>)
      requires Valid(lent) && c in active
      modifies c
      ensures Valid(lent) && Seen(lent) == Used(old(Seen(lent)), c.id, op)
    {
      hide Sound, States, IdleIds, ActiveIds, Numbered, Done;
      UsedSound(maxIdle, Seen(lent), c.id, op);
      LentState(lent, c);
      ActiveIs(all, idle, active, c);
      OperateOn(c, op);
      assert forall i :: 0 <= i < |all| && i != c.id ==> all[i] != c by { Different(c); }
      StatesUpdate(old(States(all)), c);
    }

    lemma Different(c: BackendConn)
      requires Numbered(all, idle, active)
      ensures forall i :: 0 <= i < |all| && i != c.id ==> all[i] != c
    {
    }

    // One event of a schedule, by the connections that were lent so far.
    method Step(e: Event, lent: seq<BackendConn>) returns (lent': seq<BackendConn>)
      requires Valid(Ids(lent)) && forall k :: 0 <= k < |lent| ==> Listed(all, lent[k])
      modifies this, all
      ensures Valid(Ids(lent')) && Seen(Ids(lent')) == Next(maxIdle, old(Seen(Ids(lent))), e)
      ensures forall k :: 0 <= k < |lent'| ==> Listed(all, lent'[k])
      ensures fresh(set c | c in all && c !in old(all))
    {
      hide Sound, States, IdleIds, ActiveIds, Numbered, Lent, TakenBack, Used;
      lent' := lent;
      match e {
        case Lend(ep) =>
          var c := Allocate(ep, Ids(lent));
          lent' := lent + [c];
          assert Ids(lent') == Ids(lent) + [c.id];
        case TakeBack(k) =>
          if k < |lent| {
            Release(lent[k], Ids(lent));
          }
        case Use(k, op) =>
          if k < |lent| {
            ActiveIs(all, idle, active, lent[k]);
            if lent[k] in active {
              Operate(lent[k], op, Ids(lent));
            } else {
              NotUsed(Seen(Ids(lent)), lent[k].id, op);
            }
          }
      }
    }
  }

  lemma NotUsed(v: Snapshot, id: nat, op: Op)
    requires id !in v.active
    ensures Used(v, id, op) == v
  {
  }

  // ---------- whole runs ----------

  ghost predicate IsRun(maxIdle: nat, schedule: seq<Event>, run: seq<Snapshot>) {
    && |run| == |schedule| + 1 && run[0] == Snapshot([], map[], {}, [])
    && forall i :: 0 <= i < |schedule| ==> run[i + 1] == Next(maxIdle, run[i], schedule[i])
  }

  // An event that lends out connection id, or takes it back.
  predicate Lends(v: Snapshot, e: Event, id: nat) {
    e.Lend? && Given(v, e.ep) == id
  }

  predicate TakesBack(v: Snapshot, e: Event, id: nat) {
    e.TakeBack? && e.k < |v.lent| && v.lent[e.k] == id
  }

  // Connection id was lent by event k and has not been taken back by event i.
  ghost predicate OutSince(schedule: seq<Event>, run: seq<Snapshot>, k: nat, i: nat, id: nat)
    requires i <= |schedule| <= |run|
  {
    k < i && Lends(run[k], schedule[k], id) && forall j :: k < j < i ==> !TakesBack(run[j], schedule[j], id)
  }

  // A connection is lent out if and only if it was lent and not taken back since.
  lemma {:induction false} LentBecause(maxIdle: nat, schedule: seq<Event>, run: seq<Snapshot>, i: nat, id: nat)
    requires IsRun(maxIdle, schedule, run) && i < |run| && forall j :: 0 <= j < |run| ==> Sound(maxIdle, run[j])
    ensures id in run[i].active <==> exists k: nat :: OutSince(schedule, run, k, i, id)
  {
    hide Sound;
    if i > 0 {
      var v, e, w := run[i - 1], schedule[i - 1], run[i];
      LentBecause(maxIdle, schedule, run, i - 1, id);
      NowActive(maxIdle, v, e, id);
      assert w == Next(maxIdle, v, e);
      if id in w.active {
        if Lends(v, e, id) {
          assert OutSince(schedule, run, i - 1, i, id);
        } else {
          var k: nat :| OutSince(schedule, run, k, i - 1, id);
          assert OutSince(schedule, run, k, i, id);
        }
      }
      if k: nat :| OutSince(schedule, run, k, i, id) {
        if k < i - 1 {
          assert OutSince(schedule, run, k, i - 1, id);
        }
      }
    }
  }

  lemma NowActive(maxIdle: nat, v: Snapshot, e: Event, id: nat)
    requires Sound(maxIdle, v)
    ensures id in Next(maxIdle, v, e).active <==> Lends(v, e, id) || (id in v.active && !TakesBack(v, e, id))
  {
    hide NoneLost, Done;
  }

  // From v to w a connection was lent that was not out, and it is as new; if any
  // was waiting, the one at the head of the queue.
  predicate LentAsNew(v: Snapshot, ep: Endpoint, w: Snapshot) {
    && |w.lent| == |v.lent| + 1
    && var id := w.lent[|v.lent|];
    && w.lent == v.lent + [id] && id !in v.active && id in w.active
    && id < |w.conns| && w.conns[id] == NewConn(ep)
    && (if Queue(v, ep) != [] then [id] + Queue(w, ep) == Queue(v, ep) && |w.conns| == |v.conns|
        else id == |v.conns| && |w.conns| == |v.conns| + 1)
  }

  // A connection waits behind the others from then on, open and as new, if its reply
  // is complete and passed on, nothing speaks against reuse and there is room;
  // otherwise it is closed.
  predicate Requeued(maxIdle: nat, v: Snapshot, k: nat, w: Snapshot) {
    k < |v.lent| && v.lent[k] in v.active && v.lent[k] < |v.conns| ==>
      var id := v.lent[k];
      var c := v.conns[id];
      && id < |w.conns|
      && if c.recvComplete && c.unprocessed == 0 && !c.noRecycle && (c.ep !in v.idle || |v.idle[c.ep]| < maxIdle)
         then Queue(w, c.ep) == Queue(v, c.ep) + [id] && w.conns[id] == NewConn(c.ep)
         else w.idle == v.idle && w.conns[id].aborted
  }

  // Connection id has been waiting for ep since event k.
  ghost predicate IdleSince(run: seq<Snapshot>, k: nat, i: nat, id: nat, ep: Endpoint)
    requires i < |run|
  {
    k < i && id !in Queue(run[k], ep) && forall j :: k < j <= i ==> id in Queue(run[j], ep)
  }

  // Connection a has been waiting for ep longer than b.
  ghost predicate WaitsLonger(run: seq<Snapshot>, i: nat, a: nat, b: nat, ep: Endpoint)
    requires i < |run|
  {
    exists k: nat, l: nat :: k < l && IdleSince(run, k, i, a, ep) && IdleSince(run, l, i, b, ep)
  }

  // The connections of a queue, by the events that put them there.
  ghost predicate SinceOk(run: seq<Snapshot>, i: nat, ep: Endpoint, since: seq<nat>)
    requires i < |run|
  {
    && |since| == |Queue(run[i], ep)|
    && (forall a :: 0 <= a < |since| ==> IdleSince(run, since[a], i, Queue(run[i], ep)[a], ep))
    && (forall a, b :: 0 <= a < b < |since| ==> since[a] < since[b])
  }

  // A queue is in the order in which its connections were put there.
  lemma {:induction false} InOrderOfReturn(maxIdle: nat, schedule: seq<Event>, run: seq<Snapshot>, i: nat, ep: Endpoint)
    returns (since: seq<nat>)
    requires IsRun(maxIdle, schedule, run) && i < |run| && forall j :: 0 <= j < |run| ==> Sound(maxIdle, run[j])
    ensures SinceOk(run, i, ep, since)
    decreases i
  {
    hide Sound, IdleSince, Next, Queue;
    if i == 0 {
      NoQueue(run[0], ep);
      since := [];
    } else {
      var before := InOrderOfReturn(maxIdle, schedule, run, i - 1, ep);
      assert run[i] == Next(maxIdle, run[i - 1], schedule[i - 1]);
      QueueChanges(maxIdle, run[i - 1], schedule[i - 1], ep);
      var p, q := Queue(run[i - 1], ep), Queue(run[i], ep);
      if q == p {
        since := before;
        forall a | 0 <= a < |q| ensures IdleSince(run, since[a], i, q[a], ep) {
          StillIdle(run, since[a], i, q[a], ep);
        }
      } else if p != [] && q == p[1..] {
        since := before[1..];
        forall a | 0 <= a < |q| ensures IdleSince(run, since[a], i, q[a], ep) {
          assert q[a] == p[a + 1];
          StillIdle(run, since[a], i, q[a], ep);
        }
      } else {
        since := before + [i - 1];
        forall a | 0 <= a < |q| ensures IdleSince(run, since[a], i, q[a], ep) {
          if a < |p| {
            assert q[a] == p[a];
            StillIdle(run, since[a], i, q[a], ep);
          } else {
            NowIdle(run, i, q[a], ep);
          }
        }
        forall a | 0 <= a < |p| ensures since[a] < i - 1 {
          Earlier(run, before[a], i - 1, p[a], ep);
        }
      }
    }
  }

  lemma NoQueue(v: Snapshot, ep: Endpoint)
    requires v.idle == map[]
    ensures Queue(v, ep) == []
  {
  }

  lemma StillIdle(run: seq<Snapshot>, k: nat, i: nat, id: nat, ep: Endpoint)
    requires 0 < i < |run| && IdleSince(run, k, i - 1, id, ep) && id in Queue(run[i], ep)
    ensures IdleSince(run, k, i, id, ep)
  {
  }

  lemma NowIdle(run: seq<Snapshot>, i: nat, id: nat, ep: Endpoint)
    requires 0 < i < |run| && id !in Queue(run[i - 1], ep) && id in Queue(run[i], ep)
    ensures IdleSince(run, i - 1, i, id, ep)
  {
  }

  lemma Earlier(run: seq<Snapshot>, k: nat, i: nat, id: nat, ep: Endpoint)
    requires i < |run| && IdleSince(run, k, i, id, ep)
    ensures k < i
  {
  }

  // An event leaves a queue alone, takes its head, or adds one that was not in it.
  lemma QueueChanges(maxIdle: nat, v: Snapshot, e: Event, ep: Endpoint)
    requires Sound(maxIdle, v)
    ensures var p, q := Queue(v, ep), Queue(Next(maxIdle, v, e), ep);
            || q == p || (p != [] && q == p[1..])
            || (|q| == |p| + 1 && q[..|p|] == p && q[|p|] !in p)
  {
    hide NoneLost, Done;
    if ep in v.idle {
      assert QueueOk(maxIdle, v, ep, v.idle[ep]);
    }
  }

  method Run(maxIdle: nat, schedule: seq<Event>) returns (run: seq<Snapshot>)
    ensures IsRun(maxIdle, schedule, run)
    ensures forall i :: 0 <= i < |run| ==> Sound(maxIdle, run[i])
  {
    hide Sound, Next, Numbered, States, IdleIds, ActiveIds, Listed;
    var pool := new BackendConnPool(maxIdle);
    var lent: seq<BackendConn> := [];
    run := [pool.Seen(Ids(lent))];
    for i := 0 to |schedule|
      invariant fresh(pool) && fresh(pool.all) && pool.Valid(Ids(lent)) && pool.maxIdle == maxIdle
      invariant forall k :: 0 <= k < |lent| ==> Listed(pool.all, lent[k])
      invariant |run| == i + 1 && run[0] == Snapshot([], map[], {}, []) && run[i] == pool.Seen(Ids(lent))
      invariant forall j :: 0 <= j < i ==> run[j + 1] == Next(maxIdle, run[j], schedule[j])
      invariant forall j :: 0 <= j <= i ==> Sound(maxIdle, run[j])
    {
      lent := pool.Step(schedule[i], lent);
      run := run + [pool.Seen(Ids(lent))];
    }
  }

  // The pool over any run, in which connections may be released more than once:
  // in every state no connection is both idle and lent out; an idle one is as
  // new, belongs to the endpoint it waits for, waits there once, and in a queue
  // of bounded length; one that is neither has been closed. What is lent out is
  // what was lent and not taken back since. What is lent is as new, and of those
  // that wait for its endpoint it is the one that has waited longest; what is taken
  // back and fit for reuse waits, if there is room.
  method Serve(maxIdle: nat, schedule: seq<Event>) returns (run: seq<Snapshot>)
    ensures IsRun(maxIdle, schedule, run)
    ensures forall i :: 0 <= i < |run| ==> Sound(maxIdle, run[i])
    ensures forall i, id: nat :: 0 <= i < |run| ==>
              (id in run[i].active <==> exists k: nat :: OutSince(schedule, run, k, i, id))
    ensures forall i :: 0 <= i < |schedule| && schedule[i].Lend? ==>
              LentAsNew(run[i], schedule[i].ep, run[i + 1])
    ensures forall i :: 0 <= i < |schedule| && schedule[i].TakeBack? ==>
              Requeued(maxIdle, run[i], schedule[i].k, run[i + 1])
    ensures forall i, ep, a, b :: 0 <= i < |run| && 0 <= a < b < |Queue(run[i], ep)| ==>
              WaitsLonger(run, i, Queue(run[i], ep)[a], Queue(run[i], ep)[b], ep)
  {
    run := Run(maxIdle, schedule);
    WholeRun(maxIdle, schedule, run);
  }

  lemma Longer(run: seq<Snapshot>, i: nat, k: nat, l: nat, a: nat, b: nat, ep: Endpoint)
    requires i < |run| && k < l && IdleSince(run, k, i, a, ep) && IdleSince(run, l, i, b, ep)
    ensures WaitsLonger(run, i, a, b, ep)
  {
    hide IdleSince;
  }

  lemma WholeRun(maxIdle: nat, schedule: seq<Event>, run: seq<Snapshot>)
    requires IsRun(maxIdle, schedule, run) && forall i :: 0 <= i < |run| ==> Sound(maxIdle, run[i])
    ensures forall i, id: nat :: 0 <= i < |run| ==>
              (id in run[i].active <==> exists k: nat :: OutSince(schedule, run, k, i, id))
    ensures forall i :: 0 <= i < |schedule| && schedule[i].Lend? ==>
              LentAsNew(run[i], schedule[i].ep, run[i + 1])
    ensures forall i :: 0 <= i < |schedule| && schedule[i].TakeBack? ==>
              Requeued(maxIdle, run[i], schedule[i].k, run[i + 1])
    ensures forall i, ep, a, b :: 0 <= i < |run| && 0 <= a < b < |Queue(run[i], ep)| ==>
              WaitsLonger(run, i, Queue(run[i], ep)[a], Queue(run[i], ep)[b], ep)
  {
    hide Sound, OutSince, WaitsLonger, IdleSince;
    forall i, ep, a, b | 0 <= i < |run| && 0 <= a < b < |Queue(run[i], ep)|
      ensures WaitsLonger(run, i, Queue(run[i], ep)[a], Queue(run[i], ep)[b], ep)
    {
      var since := InOrderOfReturn(maxIdle, schedule, run, i, ep);
      Longer(run, i, since[a], since[b], Queue(run[i], ep)[a], Queue(run[i], ep)[b], ep);
    }
    forall i | 0 <= i < |schedule| && schedule[i].TakeBack?
      ensures Requeued(maxIdle, run[i], schedule[i].k, run[i + 1])
    {
      assert run[i + 1] == Next(maxIdle, run[i], schedule[i]);
    }
    forall i, id: nat | 0 <= i < |run|
      ensures id in run[i].active <==> exists k: nat :: OutSince(schedule, run, k, i, id)
    {
      LentBecause(maxIdle, schedule, run, i, id);
    }
    forall i | 0 <= i < |schedule| && schedule[i].Lend?
      ensures LentAsNew(run[i], schedule[i].ep, run[i + 1])
    {
      LentSound(maxIdle, run[i], schedule[i].ep);
      assert run[i + 1] == Next(maxIdle, run[i], schedule[i]);
    }
  }
}
