/**
 The DEL, EXISTS and TOUCH commands: keys are scattered in batches over
 subqueries, every backend answers a count, and the last pending subquery
 answers the client with the sum.
 */
module Del {
  import opened Decimal
  import opened Resp
  import opened Net
  import opened Scatter
  import opened Subqueries
  import opened MultiKey
  import opened DelKeys
  import F = Framing

  // `RedisDelPrefix`
  function DelPrefix(name: Bytes, count: nat): Bytes {
    ArrayPrefix(count + 1) + NameBulk(name)
  }

  function NameBulk(name: Bytes): Bytes {
    "$" + Digits(|name|) + "\r\n" + name + "\r\n"
  }

  // The prefixes the source has ready are the ones it would compute.
  lemma CachedPrefixes()
    ensures DelPrefix("del", 1) == "*2\r\n$3\r\ndel\r\n"
    ensures DelPrefix("del", 2) == "*3\r\n$3\r\ndel\r\n"
    ensures DelPrefix("del", 3) == "*4\r\n$3\r\ndel\r\n"
    ensures DelPrefix("del", 4) == "*5\r\n$3\r\ndel\r\n"
  {
    assert Digits(2) == "2" && Digits(3) == "3" && Digits(4) == "4" && Digits(5) == "5";
    var bulk := NameBulk("del");
    assert bulk == "$3\r\ndel\r\n";
  }

  function Query(name: Bytes, owner: seq<nat>, items: seq<Bytes>, id: nat): Bytes
    requires |owner| <= |items|
  {
    DelPrefix(name, multiset(owner)[id]) + Concat(Owned(owner, items, id))
  }

  // A subquery is one well-formed command over exactly its keys.
  lemma QueryIsDel(name: Bytes, owner: seq<nat>, keys: seq<Bytes>, id: nat)
    requires |owner| <= |keys|
    ensures Query(name, owner, keys, id) == EncodeArray([NameBulk(name)] + Owned(owner, keys, id))
  {
    hide ArrayPrefix, Select, NameBulk;
    var mine := Owned(owner, keys, id);
    SelectCount(owner, keys[..|owner|], id);
    assert ([NameBulk(name)] + mine)[1..] == mine;
    assert ArrayPrefix(|mine| + 1) + NameBulk(name) + Concat(mine) == ArrayPrefix(|mine| + 1) + (NameBulk(name) + Concat(mine));
  }

  // What a backend reads when it parses such a command: the name, and then the
  // keys one after another.
  lemma DelDecodes(name: Bytes, keys: seq<Bytes>, i: nat)
    requires AllWhole(keys) && i < |keys|
    ensures var s := EncodeArray([NameBulk(name)] + keys);
            var v := ParseArray(s);
            && v.Parsed? && v.bulks == |v.items| == 1 + |keys| && v.Completed(|s|)
            && v.Offset(0) + v.items[0] <= |s| && WholeBulk(v.Item(s, 0)) && Payload(v.Item(s, 0)) == name
            && v.Offset(1 + i) + v.items[1 + i] <= |s| && v.Item(s, 1 + i) == keys[i]
  {
    hide ParseArray, WholeBulk, Payload, EncodeArray;
    BulkRoundTrip(Str(name));
    var ws := [NameBulk(name)] + keys;
    ArrayShows(ws, 0);
    ArrayShows(ws, 1 + i);
  }

  // ---------- counts ----------

  function IntLine(n: nat): Bytes {
    ":" + Digits(n) + "\r\n"
  }

  // std::stoi gives an int
  const INT_LIMIT: nat := 0x8000_0000

  datatype Parse = NeedMore | Refused | Counted(count: nat)

  // `ParseReply`, on the unparsed bytes of a backend's buffer
  function ParseCount(s: Bytes): Parse {
    if s == [] || s[0] != ':' then Refused
    else if '\n' !in s then NeedMore
    else
      var e := DigitEnd(s, 1);
      if e == 1 || Value(s[1..e]) >= INT_LIMIT then Refused else Counted(Value(s[1..e]))
  }

  // However a count arrives, it is read once, when its line is complete; one
  // that is no int is refused.
  lemma CountOfPrefix(n: nat, k: nat)
    requires 0 < k <= |IntLine(n)|
    ensures ParseCount(IntLine(n)[..k]) == if k < |IntLine(n)| then NeedMore else if n <= 0x7fff_ffff then Counted(n) else Refused
  {
    var line := IntLine(n);
    var s := line[..k];
    var d := Digits(n);
    assert forall i :: 0 <= i < |d| ==> line[i + 1] == d[i];
    assert line[|line| - 1] == '\n' && line[|line| - 2] == '\r';
    if k < |line| {
      assert '\n' !in s;
    } else {
      assert s == line && s[|s| - 1] == '\n';
      assert s[1..|d| + 1] == d;
      DigitEndUnique(s, 1, |d| + 1);
      ValueOfDigits(n);
    }
  }

  // Sum of the counts of the subqueries that have answered.
  function Total(conns: seq<Conn>, answers: nat -> nat): nat {
    if conns == [] then 0
    else
      var n := |conns| - 1;
      Total(conns[..n], answers) + if conns[n].done && !conns[n].failed then answers(n) else 0
  }

  // Changing a connection that has not answered.
  lemma {:induction false} TotalUpdate(conns: seq<Conn>, answers: nat -> nat, id: nat, c: Conn)
    requires id < |conns| && (conns[id].failed || !conns[id].done)
    ensures Total(conns[id := c], answers) == Total(conns, answers) + if c.done && !c.failed then answers(id) else 0
  {
    var n := |conns| - 1;
    if id == n {
      assert conns[id := c][..n] == conns[..n];
    } else {
      TotalUpdate(conns[..n], answers, id, c);
      assert conns[id := c][..n] == conns[..n][id := c];
    }
  }

  lemma {:induction false} TotalNew(conns: seq<Conn>, conns': seq<Conn>, answers: nat -> nat)
    requires conns <= conns' && forall id :: |conns| <= id < |conns'| ==> !conns'[id].done
    ensures Total(conns', answers) == Total(conns, answers)
    decreases |conns'|
  {
    if |conns| == |conns'| {
      assert conns == conns';
    } else {
      TotalNew(conns, conns'[..|conns'| - 1], answers);
    }
  }

  // ---------- the state of the command ----------

  // Every key taken so far belongs to one subquery of its endpoint, and each
  // subquery is sending exactly the query of its keys.
  ghost predicate ScatterOk(text: Bytes, h: nat, name: Bytes, items: seq<Bytes>, eps: seq<Endpoint>, owner: seq<nat>,
                            shares: seq<Share>, conns: seq<Conn>, len: nat)
  {
    && LaidOut(text, h, items) && |eps| == |items|
    && |owner| <= |items| && OwnersOk(owner, shares, eps) && |conns| == |shares|
    && Start(h, items, |owner|) <= len
    && forall id :: 0 <= id < |conns| ==> ConnAt(text, name, items, owner, conns, id)
  }

  ghost predicate ConnAt(text: Bytes, name: Bytes, items: seq<Bytes>, owner: seq<nat>, conns: seq<Conn>, id: nat)
    requires |owner| <= |items| && id < |conns|
  {
    && ConnOk(text, Query(name, owner, items, id), conns[id], [])
    && conns[id].recvComplete && !conns[id].phase.ReadingMore?
    && (conns[id].failed ==> conns[id].done)
  }

  // What has been read of every backend's count. It is complete when the subquery is done.
  ghost predicate CountsOk(conns: seq<Conn>, answers: nat -> nat) {
    forall id :: 0 <= id < |conns| ==> CountOk(conns[id], IntLine(answers(id)))
  }

  ghost predicate CountOk(c: Conn, line: Bytes) {
    c.reply <= line && (!c.failed ==> (c.done <==> |c.reply| == |line|))
  }

  lemma CountUpdate(conns: seq<Conn>, answers: nat -> nat, id: nat, c: Conn)
    requires CountsOk(conns, answers) && id < |conns| && CountOk(c, IntLine(answers(id)))
    ensures CountsOk(conns[id := c], answers)
  {
    hide CountOk, IntLine;
  }

  lemma CountAt(conns: seq<Conn>, answers: nat -> nat, id: nat)
    requires CountsOk(conns, answers) && id < |conns|
    ensures CountOk(conns[id], IntLine(answers(id)))
  {
    hide CountOk, IntLine;
  }

  lemma CountsNew(conns: seq<Conn>, conns': seq<Conn>, answers: nat -> nat)
    requires CountsOk(conns, answers) && conns <= conns'
    requires forall id :: |conns| <= id < |conns'| ==> !conns'[id].done && conns'[id].reply == []
    ensures CountsOk(conns', answers)
  {
    forall id | 0 <= id < |conns'| ensures CountOk(conns'[id], IntLine(answers(id))) {
      if id < |conns| {
        assert conns'[id] == conns[id];
      }
    }
  }

  lemma AtConn(text: Bytes, h: nat, name: Bytes, items: seq<Bytes>, eps: seq<Endpoint>, owner: seq<nat>,
               shares: seq<Share>, conns: seq<Conn>, len: nat, id: nat)
    requires ScatterOk(text, h, name, items, eps, owner, shares, conns, len) && id < |conns|
    ensures |owner| <= |items| && ConnAt(text, name, items, owner, conns, id)
  {
    hide ConnAt, Start, LaidOut, OwnersOk;
  }

  lemma UpdateConn(text: Bytes, h: nat, name: Bytes, items: seq<Bytes>, eps: seq<Endpoint>, owner: seq<nat>,
                   shares: seq<Share>, conns: seq<Conn>, len: nat, id: nat, c: Conn)
    requires ScatterOk(text, h, name, items, eps, owner, shares, conns, len) && id < |conns|
    requires c.recvComplete && !c.phase.ReadingMore? && (c.failed ==> c.done)
    requires ConnOk(text, Query(name, owner, items, id), c, [])
    ensures ScatterOk(text, h, name, items, eps, owner, shares, conns[id := c], len)
  {
    hide ConnOk, Query, Start, LaidOut, OwnersOk;
    var conns' := conns[id := c];
    forall j | 0 <= j < |conns'| ensures ConnAt(text, name, items, owner, conns', j) {
      assert ConnAt(text, name, items, owner, conns, j);
    }
  }

  // A batch: the subqueries there are keep their queries, new ones start.
  lemma BatchScatter(text: Bytes, h: nat, name: Bytes, items: seq<Bytes>, eps: seq<Endpoint>, owner: seq<nat>,
                     shares: seq<Share>, conns: seq<Conn>, len: nat,
                     owner': seq<nat>, shares': seq<Share>, conns': seq<Conn>)
    requires ScatterOk(text, h, name, items, eps, owner, shares, conns, len)
    requires |owner| < |owner'| <= |items| && owner <= owner'
    requires shares <= shares' && |conns'| == |shares'| && conns <= conns'
    requires OwnersOk(owner', shares', eps) && Start(h, items, |owner'|) <= len
    requires NewSharesOk(text, h, items, owner', shares', |shares|, len)
    requires forall i :: |owner| <= i < |owner'| ==> owner'[i] >= |shares|
    requires forall id :: |shares| <= id < |shares'| ==>
               conns'[id] == Conn(Init, true, true, false, false, shares'[id].segments, DelPrefix(name, shares'[id].count), [])
    ensures ScatterOk(text, h, name, items, eps, owner', shares', conns', len)
  {
    hide ConnOk, ShareOk, Missing, Start, LaidOut, OwnersOk, DelPrefix, Owned, Concat;
    NothingMissing(h, items, |owner'| - 1, len);
    forall id | 0 <= id < |conns'| ensures ConnAt(text, name, items, owner', conns', id) {
      if id < |conns| {
        assert ConnAt(text, name, items, owner, conns, id);
        assert conns'[id] == conns[id];
        CountStays(owner, owner', items, id);
      } else {
        ShareCount(text, items, owner', id, shares'[id], []);
        NewConn(text, items, owner', id, shares'[id], DelPrefix(name, shares'[id].count), [], true);
      }
    }
  }

  lemma TakenSoFar(text: Bytes, h: nat, name: Bytes, items: seq<Bytes>, eps: seq<Endpoint>, owner: seq<nat>,
                   shares: seq<Share>, conns: seq<Conn>, len: nat)
    requires ScatterOk(text, h, name, items, eps, owner, shares, conns, len)
    ensures LaidOut(text, h, items) && |eps| == |items| && OwnersOk(owner, shares, eps) && |conns| == |shares|
    ensures |owner| <= |items| && Start(h, items, |owner|) <= len
  {
    hide ConnAt, Start, LaidOut, OwnersOk;
  }

  lemma MoreReceived(text: Bytes, h: nat, name: Bytes, items: seq<Bytes>, eps: seq<Endpoint>, owner: seq<nat>,
                     shares: seq<Share>, conns: seq<Conn>, len: nat, len': nat)
    requires ScatterOk(text, h, name, items, eps, owner, shares, conns, len) && len <= len'
    ensures ScatterOk(text, h, name, items, eps, owner, shares, conns, len')
  {
    hide ConnAt, Start, LaidOut, OwnersOk;
  }

  lemma NothingYet(text: Bytes, h: nat, name: Bytes, items: seq<Bytes>, eps: seq<Endpoint>, len: nat)
    requires LaidOut(text, h, items) && |eps| == |items| && h <= len
    ensures ScatterOk(text, h, name, items, eps, [], [], [], len)
    ensures PendingOk([], {}, |items|, None)
  {
    assert items[..0] == [];
  }

  lemma AdvancedAwaits(text: Bytes, c: Conn)
    requires c.writing && c.recvComplete
    ensures Advanced(text, c).writing || Advanced(text, c).phase.ReadingReply?
    ensures Advanced(text, c).recvComplete && (c.phase.ReadingMore? || !Advanced(text, c).phase.ReadingMore?)
  {
  }

  lemma NoNewIds(pending: set<nat>, n: nat)
    ensures pending + Ids(n, n) == pending
  {
  }

  lemma NoCounts(answers: nat -> nat)
    ensures CountsOk([], answers) && Total([], answers) == 0
  {
  }

  // A read is not outstanding while a subquery is written to.
  lemma NotReading(conns: seq<Conn>, id: nat)
    requires id < |conns| && conns[id].writing
    ensures !NoneWriting(conns)
  {
  }

  // A subquery that a write or a read is outstanding for is pending.
  lemma AwaitedPending(text: Bytes, name: Bytes, items: seq<Bytes>, owner: seq<nat>, conns: seq<Conn>,
                       pending: set<nat>, unparsed: nat, replier: Option<nat>, id: nat)
    requires PendingOk(conns, pending, unparsed, replier) && |owner| <= |items| && id < |conns|
    requires ConnAt(text, name, items, owner, conns, id)
    requires conns[id].writing || (conns[id].phase.ReadingReply? && !conns[id].done)
    ensures id in pending
  {
    hide Query;
  }

  lemma StillAwaited(text: Bytes, name: Bytes, items: seq<Bytes>, owner: seq<nat>, conns: seq<Conn>, id: nat)
    requires |owner| <= |items| && id < |conns| && ConnAt(text, name, items, owner, conns, id) && !conns[id].done
    ensures conns[id].writing || conns[id].phase.ReadingReply?
  {
    hide Query;
  }

  // A batch of keys, from pushing its subqueries to activating them.
  method NewBatch(ghost text: Bytes, h: nat, name: Bytes, items: seq<Bytes>, eps: seq<Endpoint>, shares: seq<Share>,
                  owner: seq<nat>, conns: seq<Conn>, upto: nat, len: nat)
    returns (shares': seq<Share>, owner': seq<nat>, conns': seq<Conn>)
    requires ScatterOk(text, h, name, items, eps, owner, shares, conns, len)
    requires |owner| < upto <= |items| && Start(h, items, upto) <= len
    ensures |owner'| == upto && owner <= owner' && shares <= shares' && conns <= conns' && |conns| < |conns'|
    ensures AllNew(conns', |conns|)
    ensures forall id :: |conns| <= id < |conns'| ==> !conns'[id].done && conns'[id].reply == []
    ensures ScatterOk(text, h, name, items, eps, owner', shares', conns', len)
  {
    hide ScatterOk, Query, Start, LaidOut, OwnersOk, DelPrefix, NewSharesOk;
    TakenSoFar(text, h, name, items, eps, owner, shares, conns, len);
    StartMonotone(h, items, upto - 1, upto);
    shares', owner' := PushBatch(text, h, items, eps, shares, owner, upto, len);
    conns' := Activate(conns, shares', (n: nat) => DelPrefix(name, n), 0, true);
    BatchScatter(text, h, name, items, eps, owner, shares, conns, len, owner', shares', conns');
  }

  // ---------- runs ----------

  // Completions of asynchronous operations, and bytes from the client. `room`
  // says whether a read started now would be allowed: there is room in the
  // client's buffer and no other command holds it.
  datatype Event =
    | ClientBytes(size: nat, room: bool)
    | QuerySent(id: nat, ec: ErrorCode, room: bool)
    | ReplyRead(id: nat, size: nat, ok: bool, room: bool)
    | Retry(room: bool)          // another command left the pipeline
    | BecomesFirst
    | ReplyWritten(ok: bool)

  datatype Snapshot = Snapshot(
    len: nat, owner: seq<nat>, shares: seq<Share>, conns: seq<Conn>, pending: set<nat>, total: nat,
    reading: bool, starved: bool, first: bool, isWriting: bool, sent: Bytes, aborted: bool, rotated: bool)

  // A subquery whose connect failed counts nothing.
  function Failed(c: Conn): Conn {
    c.(failed := true, writing := false, done := true)
  }

  ghost predicate Received(v: Snapshot, n: nat, w: Snapshot) {
    && w.len == v.len + n && v.owner <= w.owner && v.shares <= w.shares && v.conns <= w.conns
    && AllNew(w.conns, |v.conns|) && w.pending == v.pending + Ids(|v.conns|, |w.conns|)
    && w == v.(len := w.len, owner := w.owner, shares := w.shares, conns := w.conns, pending := w.pending,
               reading := w.reading, starved := w.starved)
  }

  // Subquery id of a command with `left` unparsed keys changes to c.
  ghost predicate Changed(left: int, answers: nat -> nat, v: Snapshot, id: nat, c: Conn, w: Snapshot)
    requires id < |v.conns|
  {
    var last := left == 0 && |v.pending| == 1;
    w == v.(conns := v.conns[id := c], pending := StillPending(v.pending, id, c, last),
            total := v.total + (if c.done && !c.failed then answers(id) else 0),
            isWriting := v.isWriting || (c.done && last && v.first), reading := w.reading, starved := w.starved)
  }

  // What every event does; one that cannot happen now does nothing.
  ghost predicate Next(text: Bytes, n: nat, answers: nat -> nat, v: Snapshot, e: Event, w: Snapshot) {
    if v.aborted || v.rotated then w == v
    else match e
      case ClientBytes(size, room) =>
        if v.reading && 0 < size && v.len + size <= |text| then Received(v, size, w) else w == v
      case QuerySent(id, ec, room) =>
        if id in v.pending && id < |v.conns| && v.conns[id].writing && (ec.ConnectError? ==> v.conns[id].phase.Init?)
        then AfterSent(text, n, answers, v, id, ec, room, w) else w == v
      case ReplyRead(id, size, ok, room) =>
        if && id in v.pending && id < |v.conns| && v.conns[id].phase.ReadingReply? && !v.conns[id].done
           && 0 < size && |v.conns[id].reply| + size <= |IntLine(answers(id))|
        then AfterReply(n, answers, v, id, size, ok, room, w) else w == v
      case Retry(room) => AfterRetry(n, v, room, w)
      case BecomesFirst => if v.first then w == v else w == v.(first := true, isWriting := Answering(v))
      case ReplyWritten(ok) => if v.isWriting then AfterWrite(v, ok, w) else w == v
  }

  ghost predicate AfterSent(text: Bytes, n: nat, answers: nat -> nat, v: Snapshot, id: nat, ec: ErrorCode, room: bool,
                            w: Snapshot)
    requires id < |v.conns|
  {
    if ec.OtherError? then w == v.(aborted := true)
    else
      && Changed(n - |v.owner|, answers, v, id, if ec.Success? then Advanced(text, v.conns[id]) else Failed(v.conns[id]), w)
      && Tried(ec.ConnectError? && |v.owner| < n && NoneWriting(w.conns), room, v.reading, v.starved, w.reading, w.starved)
  }

  ghost predicate AfterReply(n: nat, answers: nat -> nat, v: Snapshot, id: nat, size: nat, ok: bool, room: bool,
                             w: Snapshot)
    requires id < |v.conns|
  {
    if !ok then w == v.(aborted := true) else AfterTaken(n, answers, v, id, size, room, w)
  }

  ghost predicate AfterTaken(n: nat, answers: nat -> nat, v: Snapshot, id: nat, size: nat, room: bool, w: Snapshot)
    requires id < |v.conns|
  {
    var c := Replied(IntLine(answers(id)), v.conns[id], size);
    if c.done && answers(id) > 0x7fff_ffff then w == v.(aborted := true)
    else
      && Changed(n - |v.owner|, answers, v, id, c, w)
      && Tried(c.done && |v.owner| < n && NoneWriting(w.conns), room, v.reading, v.starved, w.reading, w.starved)
  }

  ghost predicate AfterRetry(n: nat, v: Snapshot, room: bool, w: Snapshot) {
    && w == v.(reading := w.reading, starved := w.starved)
    && Tried(|v.owner| < n && NoneWriting(v.conns), room, v.reading, v.starved, w.reading, w.starved)
  }

  ghost predicate AfterWrite(v: Snapshot, ok: bool, w: Snapshot) {
    if !ok then w == v.(aborted := true) else w == v.(isWriting := false, rotated := true, sent := w.sent)
  }

  // A subquery is pending although it is done: it is the one that answers.
  predicate Answering(v: Snapshot) {
    exists id :: id in v.pending && id < |v.conns| && v.conns[id].done
  }

  lemma AnsweringIs(v: Snapshot, unparsed: nat, replier: Option<nat>)
    requires PendingOk(v.conns, v.pending, unparsed, replier)
    ensures Answering(v) <==> replier.Some?
  {
    if replier.Some? {
      assert replier.value in v.pending;
    }
  }

  ghost predicate IsRun(text: Bytes, n: nat, answers: nat -> nat, schedule: seq<Event>, run: seq<Snapshot>) {
    |run| == |schedule| + 1
    && forall i :: 0 <= i < |schedule| ==> Next(text, n, answers, run[i], schedule[i], run[i + 1])
  }

  // The command has just been created: subqueries were started for the keys
  // taken, and nothing else happened.
  ghost predicate Starts(len: nat, isFirst: bool, v: Snapshot) {
    && AllNew(v.conns, 0)
    && v == Snapshot(len, v.owner, v.shares, v.conns, v.pending, 0, false, false, isFirst, false, [], false, false)
  }

  // Something that will happen is awaited: a client read, room in the client's
  // buffer, the completion of a write or a read of a subquery; or, once all n keys
  // are taken, the command's turn or the completion of the reply.
  predicate Attended(n: nat, v: Snapshot) {
    || v.aborted || v.rotated || v.reading || v.starved
    || (|v.owner| == n && (v.isWriting || !v.first))
    || exists id :: id in v.pending && id < |v.conns| &&
                    (v.conns[id].writing || (v.conns[id].phase.ReadingReply? && !v.conns[id].done))
  }

  // The scatter and the sum are exact: the keys taken are those that have
  // arrived, each belongs to one subquery of its endpoint, a subquery whose
  // connect did not fail has been sent a prefix of one well-formed command over
  // exactly its keys, the sum is that of the counts that are there; and once the
  // command is done every subquery has been sent completely or has failed, and
  // the client got one integer, the sum of the counts of the subqueries that did
  // not fail, each taken once.
  ghost predicate Summed(name: Bytes, keys: seq<Bytes>, h: nat, locate: Bytes -> Endpoint, answers: nat -> nat,
                         v: Snapshot)
    requires AllWhole(keys)
  {
    && h <= v.len && |v.owner| == KeysIn(keys, v.len - h) && |v.shares| == |v.conns|
    && (forall i :: 0 <= i < |v.owner| ==> v.owner[i] < |v.shares| && v.shares[v.owner[i]].ep == Located(keys, locate)[i])
    && (forall id: nat :: 0 <= id < |v.conns| && !v.conns[id].failed ==> SentFor(name, keys, v, id))
    && v.total == Total(v.conns, answers)
    && (v.rotated ==>
          && |v.owner| == |keys| && Together(v.owner, keys, |v.conns|) == multiset(keys)
          && v.sent == IntLine(v.total) && |v.pending| == 1
          && forall id :: 0 <= id < |v.conns| ==> v.conns[id].done)
    && (!v.rotated ==> v.sent == [])
  }

  ghost predicate SentFor(name: Bytes, keys: seq<Bytes>, v: Snapshot, id: nat)
    requires id < |v.conns|
  {
    && |v.owner| <= |keys|
    && var query := EncodeArray([NameBulk(name)] + Owned(v.owner, keys, id));
       v.conns[id].wire <= query && (v.conns[id].done ==> v.conns[id].wire == query)
  }

  ghost predicate AllRight(name: Bytes, keys: seq<Bytes>, h: nat, locate: Bytes -> Endpoint, answers: nat -> nat,
                           v: Snapshot)
    requires AllWhole(keys)
  {
    Attended(|keys|, v) && (v.aborted || Summed(name, keys, h, locate, answers, v))
  }

  // ---------- who is to blame ----------

  predicate Refuses(e: Event, id: nat) {
    e.QuerySent? && e.id == id && e.ec.ConnectError?
  }

  predicate Breaks(answers: nat -> nat, e: Event) {
    match e
    case QuerySent(_, ec, _) => ec.OtherError?
    case ReplyRead(id, _, ok, _) => !ok || answers(id) > 0x7fff_ffff
    case ReplyWritten(ok) => !ok
    case _ => false
  }

  lemma NewFailure(text: Bytes, n: nat, answers: nat -> nat, v: Snapshot, e: Event, w: Snapshot, id: nat)
    requires Next(text, n, answers, v, e, w) && id < |w.conns| && w.conns[id].failed && !Refuses(e, id)
    ensures id < |v.conns| && v.conns[id].failed
  {
    hide NoneWriting, StillPending, IntLine, Advanced, Failed, Replied, Tried;
    if e.QuerySent? && e.id < |v.conns| {
      AdvancedFailed(text, v.conns[e.id]);
    } else if e.ReplyRead? && e.id < |v.conns| {
      RepliedFailed(IntLine(answers(e.id)), v.conns[e.id], e.size);
    }
  }

  lemma NewAbort(text: Bytes, n: nat, answers: nat -> nat, v: Snapshot, e: Event, w: Snapshot)
    requires Next(text, n, answers, v, e, w) && w.aborted && !Breaks(answers, e)
    ensures v.aborted
  {
    hide Advanced, Piece, NoneWriting, StillPending, IntLine;
  }

  // A subquery fails only when its connect is refused, and the command is
  // aborted only by a broken connection or a count that is no int.
  lemma {:induction false} BlameFor(text: Bytes, n: nat, answers: nat -> nat, schedule: seq<Event>, run: seq<Snapshot>,
                                    i: nat)
    requires IsRun(text, n, answers, schedule, run) && i < |run| && Starts(run[0].len, run[0].first, run[0])
    ensures forall id :: 0 <= id < |run[i].conns| && run[i].conns[id].failed ==>
              exists k :: 0 <= k < i && Refuses(schedule[k], id)
    ensures run[i].aborted ==> exists k :: 0 <= k < i && Breaks(answers, schedule[k])
  {
    hide Next, Refuses, Breaks;
    if i > 0 {
      BlameFor(text, n, answers, schedule, run, i - 1);
      var v, e, w := run[i - 1], schedule[i - 1], run[i];
      assert Next(text, n, answers, v, e, w);
      forall id: nat | 0 <= id < |w.conns| && w.conns[id].failed
        ensures exists k :: 0 <= k < i && Refuses(schedule[k], id)
      {
        if !Refuses(e, id) {
          NewFailure(text, n, answers, v, e, w, id);
        }
      }
      if w.aborted && !Breaks(answers, e) {
        NewAbort(text, n, answers, v, e, w);
      }
    }
  }

  class DelCommand {
    const text: Bytes           // the command as the client sends it, and what follows
    const h: nat                // where its first key starts
    const name: Bytes           // cmd_name_, in lower case
    const items: seq<Bytes>     // its key bulks
    const eps: seq<Endpoint>    // the endpoint of each key
    const answers: nat -> nat   // what the backend of each subquery counts

    var len: nat                // bytes of the text received
    var owner: seq<nat>         // subquery of each key taken so far
    var shares: seq<Share>
    var conns: seq<Conn>        // connection of each subquery
    var pending: set<nat>       // pending_subqueries_
    var total: nat              // total_del_count_
    var replying: Option<nat>   // replying_backend_
    var answer: Bytes           // what SetBackendReplyCount puts into its buffer
    var first: bool
    var isWriting: bool         // the reply is being written
    var sent: Bytes
    var reading: bool           // a client read is outstanding
    var starved: bool           // the last attempt to read was refused
    var aborted: bool
    var rotated: bool

    ghost const nameBulk: Bytes // the name as the client sends it
    ghost const after: Bytes
    ghost var replier: Option<nat>  // the subquery that answers

    // unparsed_bulks_
    function Unparsed(): nat
      reads `owner
    {
      if |owner| <= |items| then |items| - |owner| else 0
    }

    predicate LastPending()
      reads `owner, `pending
    {
      Unparsed() == 0 && |pending| == 1
    }

    ghost predicate ReplyOk()
      reads `replier, `replying, `isWriting, `rotated, `first, `answer, `total, `sent
    {
      && (replier.None? ==> replying.None? && !isWriting && !rotated)
      && (isWriting ==> first && replier.Some? && !rotated)
      && (replier.Some? ==>
            && answer == IntLine(total)
            && (first ==> isWriting || rotated)
            && (!first ==> replying == replier))
      && sent == (if rotated then answer else [])
    }

    ghost predicate Sound()
      reads `aborted, `owner, `shares, `conns, `len, `pending, `total, `replier, `replying, `isWriting, `rotated,
            `first, `answer, `sent
    {
      !aborted ==>
        && ScatterOk(text, h, name, items, eps, owner, shares, conns, len)
        && PendingOk(conns, pending, Unparsed(), replier)
        && CountsOk(conns, answers) && total == Total(conns, answers)
        && ReplyOk()
    }

    function Seen(): Snapshot
      reads this
    {
      Snapshot(len, owner, shares, conns, pending, total, reading, starved, first, isWriting, sent, aborted, rotated)
    }

    // The command lies in the text as the client sends it.
    ghost predicate TextOk()
      reads `len
    {
      && AllWhole(items) && items != [] && text == CommandText(nameBulk, items, after) && h == Head(nameBulk, |items|)
      && h <= len <= |text|
    }

    // All complete keys have been taken.
    ghost predicate UpToDate()
      reads `len, `owner
      requires TextOk()
    {
      |owner| == KeysIn(items, len - h)
    }

    // A read is outstanding only while no subquery holds the buffer, and as
    // long as keys are missing a read, a subquery's write or the read of its
    // count is outstanding, or a read was refused.
    ghost predicate ReadOk()
      reads `owner, `conns, `reading, `starved
    {
      && (reading ==> |owner| < |items| && NoneWriting(conns))
      && (|owner| < |items| && !reading && !starved ==> !NoneWriting(conns) || SomeReading(conns))
    }

    ghost predicate Valid()
      reads this
    {
      TextOk() && Sound() && (!aborted ==> UpToDate() && ReadOk())
    }

    // Starts a client read unless one is outstanding.
    method TryReadMoreQuery(room: bool)
      modifies this`reading, this`starved
      ensures Tried(true, room, old(reading), old(starved), reading, starved)
    {
      if !reading {
        reading, starved := room, !room;
      }
    }

    // ---------- answering ----------

    // Subquery id has its count, or failed: it answers if it is the last one,
    // and leaves the pending set otherwise.
    method Finish(id: nat, c: Conn)
      requires PendingOk(conns, pending, Unparsed(), replier) && ReplyOk() && !aborted && !rotated
      requires id in pending && id < |conns| && !conns[id].done && c.done
      requires ScatterOk(text, h, name, items, eps, owner, shares, conns[id := c], len)
      requires CountsOk(conns[id := c], answers) && total == Total(conns[id := c], answers)
      modifies this`conns, this`pending, this`replying, this`isWriting, this`answer, this`replier
      ensures Sound()
      ensures Seen() == old(Seen()).(conns := old(conns)[id := c],
                                     pending := StillPending(old(pending), id, c, old(LastPending())),
                                     isWriting := old(LastPending()) && first)
      ensures !old(isWriting)
    {
      hide ScatterOk, PendingOk, CountsOk, Total;
      NoReplierYet(conns, pending, Unparsed(), replier, id);
      if LastPending() {
        PendingLast(conns, pending, replier, id, c);
        conns := conns[id := c];
        replier := Some(id);
        answer := IntLine(total);
        if first {
          isWriting := true;
        } else {
          replying := Some(id);
        }
      } else {
        PendingErase(conns, pending, Unparsed(), replier, id, c);
        conns := conns[id := c];
        pending := pending - {id};
      }
    }

    method OnBackendRecoverableError(id: nat)
      requires Sound() && !aborted && !rotated && id in pending && id < |conns| && conns[id].writing
      requires conns[id].phase.Init?
      modifies this`conns, this`pending, this`replying, this`isWriting, this`answer, this`replier
      ensures Sound()
      ensures Changed(Unparsed(), answers, old(Seen()), id, Failed(old(conns)[id]), Seen())
    {
      hide ScatterOk, PendingOk, CountsOk, Total, Query, SegmentText, IntLine, ReplyOk;
      AtConn(text, h, name, items, eps, owner, shares, conns, len, id);
      CountAt(conns, answers, id);
      var c := Failed(conns[id]);
      assert !conns[id].done;
      UpdateConn(text, h, name, items, eps, owner, shares, conns, len, id, c);
      CountUpdate(conns, answers, id, c);
      TotalUpdate(conns, answers, id, c);
      Finish(id, c);
    }

    // ---------- sending ----------

    method OnWriteQueryFinished(id: nat, ec: ErrorCode, room: bool)
      requires Valid() && !aborted && !rotated && id in pending && id < |conns| && conns[id].writing
      requires ec.ConnectError? ==> conns[id].phase.Init?
      modifies this`conns, this`pending, this`replying, this`isWriting, this`answer, this`replier, this`aborted,
               this`reading, this`starved
      ensures Valid() && AfterSent(text, |items|, answers, old(Seen()), id, ec, room, Seen())
    {
      hide Sound, TextOk, UpToDate, Failed, Advanced, SomeReading;
      Parsed();
      NotReading(conns, id);
      if !ec.Success? {
        if ec.ConnectError? {
          OnBackendRecoverableError(id);
          if NoneWriting(conns) && Unparsed() > 0 {
            TryReadMoreQuery(room);
          }
        } else {
          aborted := true;
          AbortedSound();
        }
        return;
      }
      SendMore(id);
    }

    lemma AbortedSound()
      requires aborted
      ensures Sound()
    {
    }

    lemma Parsed()
      requires Sound() && !aborted
      ensures |owner| <= |items|
    {
      hide CountsOk, Total, ReplyOk, ConnAt;
    }

    method SendMore(id: nat)
      requires Sound() && !aborted && !rotated && id in pending && id < |conns| && conns[id].writing
      modifies this`conns
      ensures Sound()
      ensures Changed(Unparsed(), answers, old(Seen()), id, Advanced(text, old(conns)[id]), Seen())
      ensures conns[id].writing || SomeReading(conns)
    {
      hide ScatterOk, PendingOk, CountsOk, Total, Query, ReplyOk, Advanced;
      AtConn(text, h, name, items, eps, owner, shares, conns, len, id);
      var c := Advance(text, Query(name, owner, items, id), conns[id], []);
      AdvancedAwaits(text, conns[id]);
      UpdateConn(text, h, name, items, eps, owner, shares, conns, len, id, c);
      SetConn(id, c);
      if !c.writing {
        StillReading(conns, id);
      }
    }

    // Replaces the connection of id by one that has read the same and is as done.
    method SetConn(id: nat, c: Conn)
      requires Sound() && !aborted && id < |conns|
      requires c.done == conns[id].done && c.reply == conns[id].reply && c.failed == conns[id].failed && !c.done
      requires ScatterOk(text, h, name, items, eps, owner, shares, conns[id := c], len)
      modifies this`conns
      ensures Sound() && conns == old(conns)[id := c]
    {
      hide ScatterOk, PendingOk, CountsOk, Total, IntLine;
      CountAt(conns, answers, id);
      CountUpdate(conns, answers, id, c);
      TotalUpdate(conns, answers, id, c);
      PendingUpdate(conns, pending, Unparsed(), replier, id, c);
      conns := conns[id := c];
    }

    // ---------- more of the query ----------

    // `ProcessUnparsedPart` and `ActivateWaitingSubquery`
    method TakeBatch(upto: nat)
      requires Sound() && !aborted && !rotated
      requires |owner| < upto <= |items| && Start(h, items, upto) <= len
      modifies this`owner, this`shares, this`conns, this`pending
      ensures Sound() && |owner| == upto && old(owner) <= owner && old(shares) <= shares
      ensures old(conns) <= conns && |old(conns)| < |conns| && AllNew(conns, |old(conns)|)
      ensures pending == old(pending) + Ids(|old(conns)|, |conns|)
    {
      hide ScatterOk, PendingOk, CountsOk, Total, Start;
      NotAllParsed(conns, pending, Unparsed(), replier);
      var shares', owner', conns' := NewBatch(text, h, name, items, eps, shares, owner, conns, upto, len);
      PendingBatch(conns, pending, Unparsed(), replier, conns', pending + Ids(|conns|, |conns'|), |items| - upto);
      CountsNew(conns, conns', answers);
      TotalNew(conns, conns', answers);
      pending := pending + Ids(|conns|, |conns'|);
      shares, owner, conns := shares', owner', conns';
    }

    // `ProcessUnparsedPart`: the keys that are complete now are found and sent.
    method ProcessUnparsedPart(room: bool)
      requires TextOk() && Sound() && !aborted && !rotated && !reading
      requires |owner| < |items| && |owner| <= KeysIn(items, len - h)
      modifies this`owner, this`shares, this`conns, this`pending, this`reading, this`starved
      ensures Valid() && old(owner) <= owner && old(shares) <= shares
      ensures old(conns) <= conns && AllNew(conns, |old(conns)|) && pending == old(pending) + Ids(|old(conns)|, |conns|)
    {
      hide ScatterOk, PendingOk, CountsOk, Total, KeysIn, AllWhole, CommandText, Head, NoneWriting, SomeReading,
           ReplyOk, Concat;
      TakenSoFar(text, h, name, items, eps, owner, shares, conns, len);
      var upto := NextKeys(nameBulk, items, after, len, text[Start(h, items, |owner|)..len], Unparsed(), |owner|);
      if upto == |owner| {
        if NoneWriting(conns) {
          TryReadMoreQuery(room);
        }
        NoNewIds(pending, |conns|);
        return;
      }
      KeysInBounds(items, len - h);
      TakeBatch(upto);
      SomeNew(conns, |old(conns)|);
    }

    // A client read for this command completed.
    method HandleRead(n: nat, room: bool)
      requires Valid() && !aborted && !rotated && reading && 0 < n && len + n <= |text|
      modifies this`len, this`conns, this`pending, this`owner, this`shares, this`reading, this`starved
      ensures Valid() && Received(old(Seen()), n, Seen())
    {
      hide ScatterOk, PendingOk, CountsOk, Total, KeysIn, AllWhole, CommandText, Head, NoneWriting, SomeReading,
           ReplyOk, AllNew;
      reading := false;
      MoreReceived(text, h, name, items, eps, owner, shares, conns, len, len + n);
      KeysInGrow(items, len - h, len + n - h);
      len := len + n;
      ProcessUnparsedPart(room);
    }

    // Construction and StartWriteQuery, with len bytes received.
    constructor (nameBulk: Bytes, keys: seq<Bytes>, after: Bytes, eps: seq<Endpoint>, answers: nat -> nat, len: nat,
                 isFirst: bool)
      requires AllWhole(keys) && AllWhole([nameBulk] + keys) && WholeBulk(nameBulk) && |eps| == |keys|
      requires len <= |CommandText(nameBulk, keys, after)| && F.Taken([nameBulk] + keys, F.Del, len) > 0
      ensures Valid() && Starts(len, isFirst, Seen())
      ensures F.Taken([nameBulk] + keys, F.Del, len) == 1 + |owner|
      ensures name == F.Lower(Payload(nameBulk)) && items == keys && this.eps == eps && this.answers == answers
      ensures text == CommandText(nameBulk, keys, after) && h == Head(nameBulk, |keys|)
    {
      hide ScatterOk, PendingOk, LaidOut, KeysIn, AllWhole, CommandText, Head, Concat, F.Taken, CountsOk, Total,
           NoneWriting, SomeReading, Payload;
      var text, h, name := CommandText(nameBulk, keys, after), Head(nameBulk, |keys|), F.Lower(Payload(nameBulk));
      TextLaidOut(nameBulk, keys, after);
      var upto := FirstKeys(nameBulk, keys, after, text[..len]);
      KeysInBounds(keys, len - h);
      NothingYet(text, h, name, keys, eps, len);
      var shares', owner', conns' := NewBatch(text, h, name, keys, eps, [], [], [], upto, len);
      FirstPending(conns', |keys| - upto);
      NoCounts(answers);
      CountsNew([], conns', answers);
      TotalNew([], conns', answers);
      SomeNew(conns', 0);
      this.text, this.h, this.name, this.items, this.eps, this.answers, this.len := text, h, name, keys, eps, answers, len;
      this.nameBulk, this.after := nameBulk, after;
      owner, shares, conns, pending, total := owner', shares', conns', Ids(0, |conns'|), 0;
      replying, answer, first, isWriting, reading, starved := None, [], isFirst, false, false, false;
      sent, aborted, rotated, replier := [], false, false, None;
    }

    // ---------- replies ----------

    // n more bytes of the count of subquery id have been read.
    method OnBackendReplyReceived(id: nat, n: nat, ok: bool, room: bool)
      requires Valid() && !aborted && !rotated && id in pending && id < |conns|
      requires conns[id].phase.ReadingReply? && !conns[id].done
      requires 0 < n && |conns[id].reply| + n <= |IntLine(answers(id))|
      modifies this`conns, this`pending, this`replying, this`isWriting, this`answer, this`replier, this`aborted,
               this`total, this`reading, this`starved
      ensures Valid() && AfterReply(|items|, answers, old(Seen()), id, n, ok, room, Seen())
    {
      hide Valid, AfterTaken;
      if !ok {
        GiveUp();
        return;
      }
      TakeReply(id, n, room);
    }

    method GiveUp()
      requires Valid()
      modifies this`aborted
      ensures Valid() && Seen() == old(Seen()).(aborted := true)
    {
      hide Sound, TextOk, UpToDate, ReadOk;
      aborted := true;
      AbortedSound();
    }

    method TakeReply(id: nat, n: nat, room: bool)
      requires Valid() && !aborted && !rotated && id in pending && id < |conns|
      requires conns[id].phase.ReadingReply? && !conns[id].done
      requires 0 < n && |conns[id].reply| + n <= |IntLine(answers(id))|
      modifies this`conns, this`pending, this`replying, this`isWriting, this`answer, this`replier, this`aborted,
               this`total, this`reading, this`starved
      ensures Valid() && AfterTaken(|items|, answers, old(Seen()), id, n, room, Seen())
    {
      hide Sound, IntLine, ParseCount, TextOk, UpToDate, SomeReading, NoneWriting, Total;
      Parsed();
      var c := Replied(IntLine(answers(id)), conns[id], n);
      CountOfPrefix(answers(id), |conns[id].reply| + n);
      SameWriting(conns, id, c);
      match ParseCount(c.reply) {
        case NeedMore =>
          ReadMore(id, c);
          StillReading(conns, id);
        case Counted(count) =>
          CountRead(id, c, count);
          if NoneWriting(conns) && Unparsed() > 0 {
            TryReadMoreQuery(room);
          }
        case Refused =>
          aborted := true;  // the count is no int
          AbortedSound();
      }
    }

    // The count of subquery id is there.
    method CountRead(id: nat, c: Conn, count: nat)
      requires Sound() && !aborted && !rotated && id in pending && id < |conns|
      requires conns[id].phase.ReadingReply? && !conns[id].done && count == answers(id)
      requires c == conns[id].(done := true, reply := IntLine(count))
      modifies this`conns, this`pending, this`replying, this`isWriting, this`answer, this`replier, this`total
      ensures Sound() && Changed(Unparsed(), answers, old(Seen()), id, c, Seen())
    {
      hide ScatterOk, PendingOk, CountsOk, Total, Query, SegmentText, ReplyOk, IntLine;
      AtConn(text, h, name, items, eps, owner, shares, conns, len, id);
      UpdateConn(text, h, name, items, eps, owner, shares, conns, len, id, c);
      CountUpdate(conns, answers, id, c);
      TotalUpdate(conns, answers, id, c);
      NoReplierYet(conns, pending, Unparsed(), replier, id);
      AddCount(count);
      Finish(id, c);
    }

    method AddCount(count: nat)
      requires ReplyOk() && replier.None?
      modifies this`total
      ensures total == old(total) + count && ReplyOk()
    {
      total := total + count;
    }

    method ReadMore(id: nat, c: Conn)
      requires Sound() && !aborted && id < |conns| && !conns[id].done
      requires conns[id].phase.ReadingReply? && c == conns[id].(reply := c.reply) && CountOk(c, IntLine(answers(id)))
      modifies this`conns
      ensures Sound() && conns == old(conns)[id := c]
    {
      hide ScatterOk, PendingOk, CountsOk, Total, IntLine, CountOk, Query, SegmentText;
      AtConn(text, h, name, items, eps, owner, shares, conns, len, id);
      UpdateConn(text, h, name, items, eps, owner, shares, conns, len, id, c);
      CountUpdate(conns, answers, id, c);
      TotalUpdate(conns, answers, id, c);
      PendingUpdate(conns, pending, Unparsed(), replier, id, c);
      conns := conns[id := c];
    }

    // The command reaches the front of the pipeline.
    method StartWriteReply()
      requires Valid() && !aborted && !rotated && !first
      modifies this`first, this`isWriting
      ensures Valid() && Seen() == old(Seen()).(first := true, isWriting := Answering(old(Seen())))
    {
      hide ScatterOk, CountsOk, Total, TextOk, UpToDate, ReadOk, Answering;
      AnsweringIs(Seen(), Unparsed(), replier);
      first := true;
      if Unparsed() == 0 && replying.Some? {
        isWriting := true;
      }
    }

    method OnWriteReplyFinished(ok: bool)
      requires Valid() && !aborted && !rotated && isWriting
      modifies this`isWriting, this`sent, this`rotated, this`aborted
      ensures Valid() && AfterWrite(old(Seen()), ok, Seen())
    {
      hide ScatterOk, PendingOk, CountsOk, Total, TextOk, UpToDate, ReadOk;
      if !ok {
        aborted := true;
        return;
      }
      isWriting := false;
      sent := sent + answer;
      assert [] + answer == answer;
      rotated := true;
    }

    // ---------- whole runs ----------

    // Reading may have been blocked by a lock of a command that left.
    method OnRetry(room: bool)
      requires Valid() && !aborted && !rotated
      modifies this`reading, this`starved
      ensures Valid() && AfterRetry(|items|, old(Seen()), room, Seen())
    {
      hide Sound, TextOk, UpToDate, SomeReading;
      Parsed();
      if Unparsed() > 0 && NoneWriting(conns) {
        TryReadMoreQuery(room);
      }
    }

    // The command never waits for nothing.
    lemma NeverStuck()
      requires Valid()
      ensures Attended(|items|, Seen())
    {
      hide PendingOk, CountsOk, Total, Query, SegmentText, IntLine, LaidOut, Start, ConnOk, OwnersOk, ConnAt, KeysIn,
           CommandText, Head, AllWhole;
      if !aborted && !rotated && !reading && !starved {
        if |owner| < |items| {
          var id: nat :| id < |conns| && (conns[id].writing || (conns[id].phase.ReadingReply? && !conns[id].done));
          AtConn(text, h, name, items, eps, owner, shares, conns, len, id);
          AwaitedPending(text, name, items, owner, conns, pending, Unparsed(), replier, id);
        } else {
          OwnedByOne(owner, shares, eps);
          var id := SomeoneIsPending(conns, pending, replier);
          if replier.None? {
            AtConn(text, h, name, items, eps, owner, shares, conns, len, id);
            StillAwaited(text, name, items, owner, conns, id);
          }
        }
      }
    }

    lemma SentSoFar(id: nat)
      requires Sound() && !aborted && id < |conns| && !conns[id].failed
      ensures |owner| <= |items| && conns[id].wire <= Query(name, owner, items, id)
      ensures conns[id].done ==> conns[id].wire == Query(name, owner, items, id)
    {
      hide ScatterOk, ConnOk, Query, PendingOk, CountsOk, Total, ReplyOk;
      AtConn(text, h, name, items, eps, owner, shares, conns, len, id);
      WirePrefix(text, Query(name, owner, items, id), conns[id], []);
      if conns[id].done {
        Delivered(text, Query(name, owner, items, id), conns[id]);
      }
    }

    lemma Outcome(locate: Bytes -> Endpoint)
      requires Valid() && !aborted
      requires AllWhole(items) && eps == Located(items, locate)
      ensures AllWhole(items) && Summed(name, items, h, locate, answers, Seen())
    {
      hide LaidOut, Start, Query, EncodeArray, Owned, Total, CountsOk, IntLine, ConnAt, NameBulk, KeysIn, CommandText,
           Head, AllWhole, Together, NoneWriting, SomeReading;
      forall id: nat | 0 <= id < |conns| && !conns[id].failed ensures SentFor(name, items, Seen(), id) {
        SentSoFar(id);
        QueryIsDel(name, owner, items, id);
      }
      if rotated {
        EachOnce(owner, items, |conns|);
      }
    }

    lemma Exact(locate: Bytes -> Endpoint)
      requires Valid() && AllWhole(items) && eps == Located(items, locate)
      ensures AllWhole(items) && AllRight(name, items, h, locate, answers, Seen())
    {
      hide Sound, UpToDate, ReadOk, Attended, Summed, CommandText, Head;
      NeverStuck();
      if !aborted {
        Outcome(locate);
      }
    }

    method Step(e: Event)
      requires Valid()
      modifies this
      ensures Valid() && Next(text, |items|, answers, old(Seen()), e, Seen())
    {
      hide Valid, Received, AfterSent, AfterReply, AfterRetry, AfterWrite, Answering, IntLine;
      if aborted || rotated {
        return;
      }
      match e {
        case ClientBytes(n, room) =>
          if reading && 0 < n && len + n <= |text| {
            HandleRead(n, room);
          }
        case QuerySent(id, ec, room) =>
          if id in pending && id < |conns| && conns[id].writing && (ec.ConnectError? ==> conns[id].phase.Init?) {
            OnWriteQueryFinished(id, ec, room);
          }
        case ReplyRead(id, n, ok, room) =>
          if id in pending && id < |conns| && conns[id].phase.ReadingReply? && !conns[id].done &&
             0 < n && |conns[id].reply| + n <= |IntLine(answers(id))| {
            OnBackendReplyReceived(id, n, ok, room);
          }
        case Retry(room) =>
          OnRetry(room);
        case BecomesFirst =>
          if !first {
            StartWriteReply();
          }
        case ReplyWritten(ok) =>
          if isWriting {
            OnWriteReplyFinished(ok);
          }
      }
    }
  }

  // Scatter, sum and one answer: for every way the client's bytes and the
  // backends' counts are cut and every schedule of completions, every state of
  // the run is exact, follows from the previous one by its event, and awaits
  // something that will happen. Subqueries fail only when their connect is
  // refused, and the command is aborted only by a broken connection or a count
  // that is no int.
  method Serve(nameBulk: Bytes, keys: seq<Bytes>, after: Bytes, locate: Bytes -> Endpoint, answers: nat -> nat,
               len: nat, isFirst: bool, schedule: seq<Event>)
    returns (run: seq<Snapshot>)
    requires AllWhole(keys) && AllWhole([nameBulk] + keys) && WholeBulk(nameBulk)
    requires F.KindOfCommand([nameBulk] + keys) == Some(F.Del)
    requires len <= |CommandText(nameBulk, keys, after)| && F.Taken([nameBulk] + keys, F.Del, len) > 0
    ensures IsRun(CommandText(nameBulk, keys, after), |keys|, answers, schedule, run)
    ensures Starts(len, isFirst, run[0]) && F.Taken([nameBulk] + keys, F.Del, len) == 1 + |run[0].owner|
    ensures forall i :: 0 <= i < |run| ==>
              && Attended(|keys|, run[i])
              && (run[i].aborted ||
                  Summed(F.Lower(Payload(nameBulk)), keys, Head(nameBulk, |keys|), locate, answers, run[i]))
    ensures forall i, id :: 0 <= i < |run| && 0 <= id < |run[i].conns| && run[i].conns[id].failed ==>
              exists k :: 0 <= k < i && Refuses(schedule[k], id)
    ensures forall i :: 0 <= i < |run| && run[i].aborted ==> exists k :: 0 <= k < i && Breaks(answers, schedule[k])
  {
    hide CommandText, Head, KeysIn, Summed, Attended, Located, Next, F.Taken, F.KindOfCommand, AllWhole, WholeBulk,
         Refuses, Breaks, Payload, F.Lower, DelCommand.Valid, AllNew;
    var eps := Located(keys, locate);
    var c := new DelCommand(nameBulk, keys, after, eps, answers, len, isFirst);
    run := [c.Seen()];
    ghost var start := c.Seen();
    c.Exact(locate);
    for i := 0 to |schedule|
      invariant fresh(c) && c.Valid() && |run| == i + 1 && run[i] == c.Seen() && run[0] == start
      invariant forall k :: 0 <= k < i ==> Next(c.text, |keys|, answers, run[k], schedule[k], run[k + 1])
      invariant forall k :: 0 <= k <= i ==> AllRight(c.name, keys, c.h, locate, answers, run[k])
    {
      c.Step(schedule[i]);
      c.Exact(locate);
      run := run + [c.Seen()];
    }
    forall i | 0 <= i < |run|
      ensures forall id :: 0 <= id < |run[i].conns| && run[i].conns[id].failed ==>
                exists k :: 0 <= k < i && Refuses(schedule[k], id)
      ensures run[i].aborted ==> exists k :: 0 <= k < i && Breaks(answers, schedule[k])
    {
      BlameFor(c.text, |keys|, answers, schedule, run, i);
    }
  }
}
