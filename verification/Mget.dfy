/**
 The MGET command: one connection per endpoint, a queue of (endpoint, count)
 runs in key order, and reply parsers that advance only when their run is at
 the front. Every asynchronous completion is one event.
 */
module Mget {
  import opened Resp
  import opened Net
  import opened Scatter
  import opened MgetSplit
  import opened MgetGather

  // The reply queue when the first d keys are answered: the runs of the other
  // keys, possibly behind an exhausted run whose bytes are still being written.
  ghost predicate QueueOk(queue: seq<Run>, eps: seq<Endpoint>, d: nat) {
    && d <= |eps|
    && (|| queue == Runs(eps[d..])
        || (d > 0 && queue == [Run(eps[d - 1], 0)] + Runs(eps[d..])))
  }

  lemma QueueFront(queue: seq<Run>, eps: seq<Endpoint>, d: nat)
    requires QueueOk(queue, eps, d) && queue != [] && queue[0].count > 0
    ensures d < |eps| && eps[d] == queue[0].ep
    ensures QueueOk([Run(queue[0].ep, queue[0].count - 1)] + queue[1..], eps, d + 1)
  {
    assert eps[d..][1..] == eps[d + 1..];
    var rest := Runs(eps[d + 1..]);
    if rest != [] && rest[0].ep == eps[d] {
      assert [Run(queue[0].ep, queue[0].count - 1)] + queue[1..] == rest;
    } else {
      assert queue[1..] == rest;
    }
  }

  lemma QueuePop(queue: seq<Run>, eps: seq<Endpoint>, d: nat)
    requires QueueOk(queue, eps, d) && queue != [] && queue[0].count == 0
    ensures QueueOk(queue[1..], eps, d)
    ensures queue[1..] == [] || queue[1].count > 0
  {
  }

  // Bulks an endpoint's parser still expects: none before its array header.
  function Expected(eps: seq<Endpoint>, d: nat, b: Endpoint): int
    requires d <= |eps|
  {
    var done: int := multiset(eps[..d])[b];
    if done == 0 then 0 else multiset(eps)[b] - done
  }

  ghost predicate AbsentOk(subs: map<Endpoint, Subquery>, eps: seq<Endpoint>, d: nat) {
    && d <= |eps|
    && forall b :: b in subs ==>
         subs[b].absent == Expected(eps, d, b) && subs[b].keyCount == multiset(eps)[b] > 0
  }

  lemma AbsentStep(subs: map<Endpoint, Subquery>, eps: seq<Endpoint>, d: nat)
    requires d < |eps| && AbsentOk(subs, eps, d) && eps[d] in subs
    ensures var b := eps[d];
            && (subs[b].absent == 0 <==> multiset(eps[..d])[b] == 0)
            && multiset(eps)[b] > 0
            && var left := if subs[b].absent == 0 then multiset(eps)[b] - 1 else subs[b].absent - 1;
               left == Expected(eps, d + 1, b) && AbsentOk(subs[b := subs[b].(absent := left)], eps, d + 1)
  {
    var b := eps[d];
    CountNext(eps, b, d);
    forall c | c in subs && c != b ensures Expected(eps, d + 1, c) == Expected(eps, d, c) {
      CountNext(eps, c, d);
    }
  }

  // Bulks an endpoint expects against its replies left in the queue.
  lemma RunsLeft(subs: map<Endpoint, Subquery>, queue: seq<Run>, eps: seq<Endpoint>, d: nat, b: Endpoint)
    requires AbsentOk(subs, eps, d) && QueueOk(queue, eps, d) && b in subs
    ensures multiset(eps[..d])[b] > 0 ==> subs[b].absent == InRuns(queue, b)
    ensures multiset(eps[..d])[b] == 0 ==> subs[b].absent == 0 && InRuns(queue, b) == multiset(eps)[b]
  {
    assert eps == eps[..d] + eps[d..];
    InRunsCount(eps[d..], b);
    if queue != Runs(eps[d..]) {
      assert queue[1..] == Runs(eps[d..]);
    }
  }

  // What must be written to the backend of b, and how far that is.
  ghost predicate SendOk(keys: seq<Bytes>, eps: seq<Endpoint>, b: Endpoint, segments: seq<Segment>, wire: Bytes,
                         holding: bool)
    requires |keys| == |eps|
  {
    var text := Concat(keys);
    var query := MgetQuery(Select(eps, keys, b));
    && SegmentsIn(segments, |text|)
    && (holding ==> segments != [])
    && (segments != [] ==> wire + SegmentText(text, segments[1..]) == query)
    && (segments == [] ==> wire == query)
  }

  lemma SendNext(keys: seq<Bytes>, eps: seq<Endpoint>, b: Endpoint, segs: seq<Segment>, wire: Bytes)
    requires |keys| == |eps| && SendOk(keys, eps, b, segs, wire, true)
    ensures var left := segs[1..];
            && (left == [] ==> SendOk(keys, eps, b, left, wire, false))
            && (left != [] ==>
                  && left[0].start + left[0].size <= |Concat(keys)|
                  && SendOk(keys, eps, b, left,
                            wire + Concat(keys)[left[0].start..left[0].start + left[0].size], true))
  {
    hide Concat, MgetQuery, Select;
    var text, left := Concat(keys), segs[1..];
    if left != [] {
      SegmentPop(text, left);
      var piece := text[left[0].start..left[0].start + left[0].size];
      assert wire + (piece + SegmentText(text, left[1..])) == wire + piece + SegmentText(text, left[1..]);
    } else {
      NoSegments(text);
      assert wire + [] == wire;
    }
  }

  lemma NoSegments(text: Bytes)
    ensures SegmentText(text, []) == []
  {
  }

  // StartWriteQuery: the array prefix goes first, before the first segment.
  lemma SendStart(keys: seq<Bytes>, eps: seq<Endpoint>, b: Endpoint, q: Subquery)
    requires |keys| == |eps| && ShareOk(keys, eps, |eps|, b, q)
    ensures SendOk(keys, eps, b, [Segment(0, 0)] + q.segments, ArrayPrefix(q.keyCount + 1) + MGET_BULK, true)
  {
    assert eps[..|eps|] == eps && keys[..|keys|] == keys;
    var mine := Select(eps, keys, b);
    SelectCount(eps, keys, b);
    var segs := [Segment(0, 0)] + q.segments;
    assert segs[1..] == q.segments;
    assert ([MGET_BULK] + mine)[1..] == mine;
    assert ArrayPrefix(q.keyCount + 1) + MGET_BULK + Concat(mine) == MgetQuery(mine);
  }

  // An answer per key: the stored value, or nil for a failed endpoint.
  ghost predicate AnswersOk(eps: seq<Endpoint>, want: seq<Bytes>, ans: seq<Bytes>, backends: map<Endpoint, Backend>) {
    && |eps| == |want| == |ans|
    && forall i :: 0 <= i < |eps| ==>
         eps[i] in backends && ans[i] == if backends[eps[i]].failed then NIL_BULK else want[i]
  }

  lemma AnswerGrows(ans: seq<Bytes>, d: nat, out: Bytes, owed: Bytes)
    requires d <= |ans| && out + owed == Answer(ans, d)
    ensures out <= Answer(ans, |ans|)
  {
    hide ArrayPrefix;
    ConcatSplit(ans, d);
    assert ans[..|ans|] == ans;
    var p := ArrayPrefix(|ans|);
    calc {
      Answer(ans, |ans|);
      p + (Concat(ans[..d]) + Concat(ans[d..]));
      (p + Concat(ans[..d])) + Concat(ans[d..]);
      (out + owed) + Concat(ans[d..]);
      out + (owed + Concat(ans[d..]));
    }
  }

  // Who reads, writes and sends, apart from the bytes. `fresh` is a backend
  // whose new data has not been looked at yet.
  ghost predicate FlagsOk(queue: seq<Run>, backends: map<Endpoint, Backend>, replying: Option<Endpoint>,
                          isWriting: bool, holding: set<Endpoint>, news: Option<Endpoint>)
  {
    && (replying.Some? ==> replying.value in backends)
    // a client write belongs to the front backend, which is not being read
    && (isWriting ==>
          && replying.Some? && queue != [] && queue[0].ep == replying.value
          && !backends[replying.value].reading)
    && (replying.Some? && (isWriting || replying != news) ==> backends[replying.value].Unprocessed() == 0)
    // other backends are read only for the first time
    && (forall b :: b in backends && backends[b].reading && replying != Some(b) ==> backends[b].stream == [])
    && (replying.Some? && backends[replying.value].reading ==> queue != [] && queue[0].ep == replying.value)
    // a backend that is not at the front owes nothing
    && (replying.Some? && (queue == [] || queue[0].ep != replying.value) ==>
          backends[replying.value].processed == backends[replying.value].parsed)
    // an exhausted run stays at the front only while some of its bytes are on the way
    && (queue != [] && queue[0].count == 0 ==>
          && replying == Some(queue[0].ep)
          && (isWriting || backends[queue[0].ep].ParsedUnreceived() > 0 || backends[queue[0].ep].Unprocessed() > 0))
    // nothing is read from a backend before its query is sent
    && (forall b :: b in holding ==>
          && b in backends && backends[b].stream == [] && backends[b].parsed == 0
          && !backends[b].reading && !backends[b].failed && replying != Some(b))
    && (forall b :: b in backends && backends[b].failed ==> !backends[b].reading)
  }

  // A backend whose reply was parsed to the end is marked complete.
  ghost predicate CompleteOk(subs: map<Endpoint, Subquery>, backends: map<Endpoint, Backend>, news: Option<Endpoint>) {
    forall b :: b in subs && b in backends && news != Some(b) ==>
      subs[b].absent == 0 && backends[b].parsed > 0 && backends[b].ParsedUnreceived() == 0 ==> backends[b].complete
  }

  ghost predicate SendsOk(keys: seq<Bytes>, eps: seq<Endpoint>, subs: map<Endpoint, Subquery>,
                          backends: map<Endpoint, Backend>, holding: set<Endpoint>)
    requires |keys| == |eps|
  {
    && (forall b :: b in subs <==> b in backends)
    && (forall b :: b in subs ==> SendOk(keys, eps, b, subs[b].segments, subs[b].wire, b in holding))
    && (forall b :: b in backends && !backends[b].failed && (backends[b].reading || backends[b].stream != []) ==>
          b in subs && subs[b].segments == [])
  }

  // The front parser takes one bulk: every part of the state moves from d to d + 1.
  lemma ParseStep(eps: seq<Endpoint>, ans: seq<Bytes>, d: nat, queue: seq<Run>, subs: map<Endpoint, Subquery>,
                  backends: map<Endpoint, Backend>, out: Bytes, k: Backend, left: nat)
    requires QueueOk(queue, eps, d) && queue != [] && queue[0].count > 0
    requires AbsentOk(subs, eps, d) && queue[0].ep in subs
    requires d < |eps| && eps[d] == queue[0].ep && eps[d] in backends
    requires GatherOk(eps, ans, d, backends, Some(eps[d]), out)
    requires TookOk(eps, ans, d, backends[eps[d]], subs[eps[d]].absent, k, left)
    ensures QueueOk([Run(queue[0].ep, queue[0].count - 1)] + queue[1..], eps, d + 1)
    ensures AbsentOk(subs[eps[d] := subs[eps[d]].(absent := left)], eps, d + 1)
    ensures GatherOk(eps, ans, d + 1, backends[eps[d] := k], Some(eps[d]), out)
  {
    hide Position, Full, Runs, QueueOk, GatherOk;
    GatherAt(eps, ans, d, backends, Some(eps[d]), out, eps[d]);
    QueueFront(queue, eps, d);
    AbsentStep(subs, eps, d);
    PositionNext(eps, ans, d);
    if left == 0 {
      PositionEnd(eps, ans, eps[d], d + 1);
    }
    ParsedOne(eps, ans, d, backends, out, k);
  }

  // With no bulk expected and no byte missing, the reply is complete.
  lemma FinishedReply(eps: seq<Endpoint>, ans: seq<Bytes>, d: nat, subs: map<Endpoint, Subquery>,
                      b: Endpoint, k: Backend)
    requires |eps| == |ans| && AbsentOk(subs, eps, d) && b in subs && subs[b].absent == 0
    requires BackendOk(eps, ans, d, b, k) && k.parsed > 0 && k.ParsedUnreceived() == 0
    ensures k.stream == Full(eps, ans, b)
  {
    hide Full, Position;
    PositionZero(eps, ans, b, d);
    assert eps == eps[..d] + eps[d..];
    PositionEnd(eps, ans, b, d);
  }

  lemma KeepAnswers(eps: seq<Endpoint>, want: seq<Bytes>, ans: seq<Bytes>, backends: map<Endpoint, Backend>,
                    b: Endpoint, k: Backend)
    requires AnswersOk(eps, want, ans, backends) && b in backends && k.failed == backends[b].failed
    ensures AnswersOk(eps, want, ans, backends[b := k])
  {
  }

  lemma SameLength(eps: seq<Endpoint>, want: seq<Bytes>, ans: seq<Bytes>, backends: map<Endpoint, Backend>)
    requires AnswersOk(eps, want, ans, backends)
    ensures |eps| == |want| == |ans|
  {
  }

  lemma ExpectedAt(subs: map<Endpoint, Subquery>, eps: seq<Endpoint>, d: nat, b: Endpoint)
    requires AbsentOk(subs, eps, d) && b in subs
    ensures d <= |eps| && subs[b].absent == Expected(eps, d, b)
  {
  }

  // Taking a bulk keeps the flags: the front backend now owes bytes.
  lemma TakeFlags(queue: seq<Run>, backends: map<Endpoint, Backend>, holding: set<Endpoint>, b: Endpoint, k: Backend)
    requires FlagsOk(queue, backends, Some(b), false, holding, Some(b))
    requires queue != [] && queue[0].ep == b && queue[0].count > 0 && b in backends
    requires k.stream == backends[b].stream && k.Unprocessed() > 0 && !k.reading
    ensures FlagsOk([Run(b, queue[0].count - 1)] + queue[1..], backends[b := k], Some(b), false, holding, Some(b))
  {
  }

  lemma SetFlags(queue: seq<Run>, backends: map<Endpoint, Backend>, holding: set<Endpoint>, b: Endpoint, k: Backend)
    requires FlagsOk(queue, backends, Some(b), false, holding, Some(b)) && b in backends
    requires k == backends[b].(complete := k.complete)
    ensures FlagsOk(queue, backends[b := k], Some(b), false, holding, Some(b))
  {
  }

  lemma TakeSends(keys: seq<Bytes>, eps: seq<Endpoint>, subs: map<Endpoint, Subquery>,
                  backends: map<Endpoint, Backend>, holding: set<Endpoint>, b: Endpoint, k: Backend, left: nat)
    requires |keys| == |eps| && b in subs && b in backends
    requires SendsOk(keys, eps, subs, backends, holding)
    requires k.stream == backends[b].stream && k.failed == backends[b].failed && k.reading == backends[b].reading
    ensures SendsOk(keys, eps, subs[b := subs[b].(absent := left)], backends[b := k], holding)
  {
    hide SendOk;
  }

  lemma ReadSends(keys: seq<Bytes>, eps: seq<Endpoint>, subs: map<Endpoint, Subquery>,
                  backends: map<Endpoint, Backend>, holding: set<Endpoint>, b: Endpoint, k: Backend)
    requires |keys| == |eps| && b in subs && b in backends
    requires SendsOk(keys, eps, subs, backends, holding)
    requires backends[b].stream != [] && k.failed == backends[b].failed
    ensures SendsOk(keys, eps, subs, backends[b := k], holding)
  {
    hide SendOk;
  }

  lemma KeepComplete(subs: map<Endpoint, Subquery>, backends: map<Endpoint, Backend>, b: Endpoint, k: Backend)
    requires CompleteOk(subs, backends, None) && b in backends
    requires k.stream == backends[b].stream && k.parsed == backends[b].parsed && k.complete == backends[b].complete
    ensures CompleteOk(subs, backends[b := k], None)
  {
  }

  lemma NotWriting(queue: seq<Run>, backends: map<Endpoint, Backend>, replying: Option<Endpoint>,
                   isWriting: bool, holding: set<Endpoint>, b: Endpoint)
    requires FlagsOk(queue, backends, replying, isWriting, holding, Some(b))
    requires queue != [] && queue[0].ep == b && (replying == Some(b) ==> !isWriting)
    ensures !isWriting
  {
  }

  lemma FrontKnown(eps: seq<Endpoint>, want: seq<Bytes>, ans: seq<Bytes>, backends: map<Endpoint, Backend>,
                   queue: seq<Run>, d: nat)
    requires AnswersOk(eps, want, ans, backends) && QueueOk(queue, eps, d) && queue != []
    ensures queue[0].ep in backends
  {
  }

  lemma Paired(keys: seq<Bytes>, eps: seq<Endpoint>, subs: map<Endpoint, Subquery>,
               backends: map<Endpoint, Backend>, holding: set<Endpoint>, b: Endpoint)
    requires |keys| == |eps| && SendsOk(keys, eps, subs, backends, holding)
    ensures b in subs <==> b in backends
  {
    hide SendOk;
  }

  lemma FrontIdle(queue: seq<Run>, backends: map<Endpoint, Backend>, replying: Option<Endpoint>,
                  isWriting: bool, holding: set<Endpoint>, b: Endpoint)
    requires FlagsOk(queue, backends, replying, isWriting, holding, None)
    requires b in backends && backends[b].Unparsed() > 0
    requires replying.Some? ==> !backends[replying.value].reading
    ensures !backends[b].reading
  {
  }

  lemma WhoReplies(queue: seq<Run>, backends: map<Endpoint, Backend>, replying: Option<Endpoint>,
                   isWriting: bool, holding: set<Endpoint>)
    requires FlagsOk(queue, backends, replying, isWriting, holding, None) && isWriting
    ensures replying.Some? && replying.value in backends
  {
  }

  lemma QueueNonEmpty(queue: seq<Run>, eps: seq<Endpoint>, d: nat)
    requires QueueOk(queue, eps, d) && d < |eps|
    ensures queue != []
  {
  }

  // An empty queue and nothing owed: the client has the whole answer.
  lemma AllAnswered(eps: seq<Endpoint>, ans: seq<Bytes>, d: nat, backends: map<Endpoint, Backend>, b: Endpoint,
                    queue: seq<Run>, out: Bytes)
    requires GatherOk(eps, ans, d, backends, Some(b), out) && QueueOk(queue, eps, d) && queue == []
    requires b in backends && backends[b].processed == backends[b].parsed
    ensures out == Answer(ans, |ans|)
  {
    hide Answer, Full, Position, AllWhole;
    GatherAt(eps, ans, d, backends, Some(b), out, b);
    PositionZero(eps, ans, b, d);
    assert d == |eps|;
    assert Owed(eps, ans, backends, Some(b)) == [];
    assert out + [] == out;
  }

  lemma ReceiveFlags(queue: seq<Run>, backends: map<Endpoint, Backend>, replying: Option<Endpoint>,
                     isWriting: bool, holding: set<Endpoint>, b: Endpoint, k: Backend)
    requires FlagsOk(queue, backends, replying, isWriting, holding, None)
    requires b in backends && backends[b].reading && !k.reading && |k.stream| > |backends[b].stream|
    requires k == backends[b].(reading := false, stream := k.stream)
    ensures FlagsOk(queue, backends[b := k], replying, isWriting, holding, Some(b))
    ensures replying == Some(b) ==> !isWriting && queue != [] && queue[0].ep == b
    ensures replying != Some(b) ==> backends[b].stream == []
  {
  }

  lemma ReceiveSends(keys: seq<Bytes>, eps: seq<Endpoint>, subs: map<Endpoint, Subquery>,
                     backends: map<Endpoint, Backend>, holding: set<Endpoint>, b: Endpoint, k: Backend)
    requires |keys| == |eps| && b in backends && (backends[b].reading || k.failed)
    requires SendsOk(keys, eps, subs, backends, holding) && (backends[b].failed ==> k.failed)
    ensures SendsOk(keys, eps, subs, backends[b := k], holding)
  {
    hide SendOk;
  }

  lemma ReceiveComplete(subs: map<Endpoint, Subquery>, backends: map<Endpoint, Backend>, b: Endpoint, k: Backend)
    requires CompleteOk(subs, backends, None)
    ensures CompleteOk(subs, backends[b := k], Some(b))
  {
  }

  lemma FailFlags(queue: seq<Run>, backends: map<Endpoint, Backend>, replying: Option<Endpoint>,
                  isWriting: bool, holding: set<Endpoint>, b: Endpoint, k: Backend)
    requires FlagsOk(queue, backends, replying, isWriting, holding, None)
    requires b in backends && replying != Some(b) && b !in holding && !k.reading
    ensures FlagsOk(queue, backends[b := k], replying, isWriting, holding, Some(b))
  {
  }

  lemma FailAnswers(eps: seq<Endpoint>, want: seq<Bytes>, ans: seq<Bytes>, backends: map<Endpoint, Backend>,
                    b: Endpoint, k: Backend)
    requires AnswersOk(eps, want, ans, backends) && k.failed
    ensures AnswersOk(eps, want, Without(eps, ans, b), backends[b := k])
  {
  }

  lemma UnreadIsFree(queue: seq<Run>, backends: map<Endpoint, Backend>, replying: Option<Endpoint>,
                     isWriting: bool, holding: set<Endpoint>, b: Endpoint)
    requires FlagsOk(queue, backends, replying, isWriting, holding, None)
    requires b in backends && backends[b].reading && replying != Some(b)
    ensures b !in holding && backends[b].stream == [] && !backends[b].failed
  {
  }

  lemma KeyCountAt(subs: map<Endpoint, Subquery>, eps: seq<Endpoint>, d: nat, b: Endpoint)
    requires AbsentOk(subs, eps, d) && b in subs
    ensures subs[b].keyCount == multiset(eps)[b] > 0
  {
  }

  // The reply made up for a failed backend.
  method ErrorReplyBody(keys: nat) returns (body: Bytes)
    ensures body == EncodeArray(Nils(keys)) && body != []
  {
    hide ArrayPrefix, Concat;
    body := ArrayPrefix(keys);
    assert Concat(Nils(0)) == [] by { ConcatNothing(Nils(0)); assert Nils(0)[..0] == Nils(0); }
    for i := 0 to keys
      invariant body == ArrayPrefix(keys) + Concat(Nils(i))
    {
      assert Nils(i + 1) == Nils(i) + [NIL_BULK];
      ConcatSnoc(Nils(i), NIL_BULK);
      assert ArrayPrefix(keys) + (Concat(Nils(i)) + NIL_BULK) == ArrayPrefix(keys) + Concat(Nils(i)) + NIL_BULK;
      body := body + NIL_BULK;
    }
  }

  // What a lookup of the keys one by one finds, as bulks.
  function Stored(keys: seq<Bytes>, locate: Bytes -> Endpoint, lookup: (Endpoint, Bytes) -> Reply): (ws: seq<Bytes>)
    requires AllWhole(keys)
    ensures |ws| == |keys|
    ensures forall i :: 0 <= i < |keys| ==>
              ws[i] == EncodeBulk(lookup(locate(Payload(keys[i])), Payload(keys[i])))
  {
    seq(|keys|, i requires 0 <= i < |keys| =>
      EncodeBulk(lookup(locate(Payload(keys[i])), Payload(keys[i]))))
  }

  lemma StoredWhole(keys: seq<Bytes>, locate: Bytes -> Endpoint, lookup: (Endpoint, Bytes) -> Reply)
    requires AllWhole(keys)
    ensures AllWhole(Stored(keys, locate, lookup))
  {
    hide WholeBulk, EncodeBulk;
    var ws := Stored(keys, locate, lookup);
    forall i | 0 <= i < |keys| ensures WholeBulk(ws[i]) {
      BulkRoundTrip(lookup(locate(Payload(keys[i])), Payload(keys[i])));
    }
  }

  // The state just after StartWriteQuery.
  lemma StartedSends(keys: seq<Bytes>, eps: seq<Endpoint>, subs: map<Endpoint, Subquery>,
                     started: map<Endpoint, Subquery>, conns: map<Endpoint, Backend>)
    requires |keys| == |eps| && SharesOk(keys, eps, |eps|, subs)
    requires started == map b | b in subs ::
               subs[b].(segments := [Segment(0, 0)] + subs[b].segments,
                        wire := ArrayPrefix(subs[b].keyCount + 1) + MGET_BULK)
    requires conns == map b | b in subs :: Backend([], 0, 0, false, false, false)
    ensures AbsentOk(started, eps, 0)
    ensures SendsOk(keys, eps, started, conns, subs.Keys)
    ensures CompleteOk(started, conns, None)
  {
    hide SendOk, ArrayPrefix, Concat, Select, SegmentText, SegmentsIn;
    assert eps[..|eps|] == eps;
    forall b | b in subs
      ensures SendOk(keys, eps, b, started[b].segments, started[b].wire, true)
    {
      SendStart(keys, eps, b, subs[b]);
    }
  }

  lemma Started(keys: seq<Bytes>, eps: seq<Endpoint>, want: seq<Bytes>, subs: map<Endpoint, Subquery>,
                conns: map<Endpoint, Backend>, queue: seq<Run>)
    requires |keys| == |eps| == |want| && SharesOk(keys, eps, |eps|, subs) && queue == Runs(eps)
    requires conns == map b | b in subs :: Backend([], 0, 0, false, false, false)
    ensures AnswersOk(eps, want, want, conns)
    ensures QueueOk(queue, eps, 0)
    ensures FlagsOk(queue, conns, None, false, subs.Keys, None)
  {
    hide ShareOk, Runs;
    assert eps[..|eps|] == eps && eps[0..] == eps;
    forall i | 0 <= i < |eps| ensures eps[i] in conns {
      assert eps[..|eps|][i] in subs;
    }
  }

  lemma StartGather(keys: seq<Bytes>, eps: seq<Endpoint>, want: seq<Bytes>, subs: map<Endpoint, Subquery>,
                    conns: map<Endpoint, Backend>)
    requires |keys| == |eps| == |want| && SharesOk(keys, eps, |eps|, subs) && AllWhole(want)
    requires conns == map b | b in subs :: Backend([], 0, 0, false, false, false)
    ensures GatherOk(eps, want, 0, conns, None, ArrayPrefix(|eps|))
  {
    hide Full, AllWhole, ShareOk, ArrayPrefix;
    assert eps[..|eps|] == eps;
    forall i | 0 <= i < |eps| ensures eps[i] in conns {
      assert eps[..|eps|][i] in subs;
    }
    forall b | b in conns ensures BackendOk(eps, want, 0, b, conns[b]) {
      assert want[..0] == [];
    }
    ConcatNothing(want);
    assert ArrayPrefix(|eps|) + [] == ArrayPrefix(|eps|);
  }

  lemma HasSegments(keys: seq<Bytes>, eps: seq<Endpoint>, b: Endpoint, segs: seq<Segment>, wire: Bytes)
    requires |keys| == |eps| && SendOk(keys, eps, b, segs, wire, true)
    ensures segs != []
  {
  }

  lemma SubComplete(subs: map<Endpoint, Subquery>, backends: map<Endpoint, Backend>, b: Endpoint, q: Subquery)
    requires CompleteOk(subs, backends, None) && b in subs && q.absent == subs[b].absent
    ensures CompleteOk(subs[b := q], backends, None)
  {
  }

  lemma HoldingKnown(queue: seq<Run>, backends: map<Endpoint, Backend>, replying: Option<Endpoint>,
                     isWriting: bool, holding: set<Endpoint>)
    requires FlagsOk(queue, backends, replying, isWriting, holding, None)
    ensures holding <= backends.Keys
  {
  }

  lemma QueueEmpty(queue: seq<Run>, eps: seq<Endpoint>, d: nat)
    requires QueueOk(queue, eps, d) && queue == []
    ensures d == |eps|
  {
  }

  lemma AnswerStarts(ans: seq<Bytes>)
    ensures Answer(ans, |ans|) != []
  {
  }

  // Until the last answer has been written, some of it is missing.
  lemma AnswerShorter(ans: seq<Bytes>, d: nat)
    requires AllWhole(ans) && d <= |ans|
    ensures |Answer(ans, d)| <= |Answer(ans, |ans|)| && (d < |ans| ==> |Answer(ans, d)| < |Answer(ans, |ans|)|)
  {
    hide ArrayPrefix, Concat;
    assert ans[..|ans|] == ans;
    ConcatSplit(ans, d);
    if d < |ans| {
      assert ans[d..][0] == ans[d];
      ConcatHeadNotEmpty(ans[d..]);
    }
  }

  lemma ConcatHeadNotEmpty(ws: seq<Bytes>)
    requires ws != [] && WholeBulk(ws[0])
    ensures |Concat(ws)| > 0
  {
  }

  lemma StillOwes(queue: seq<Run>, eps: seq<Endpoint>, ans: seq<Bytes>, d: nat, backends: map<Endpoint, Backend>,
                  replying: Option<Endpoint>, isWriting: bool, holding: set<Endpoint>, out: Bytes)
    requires QueueOk(queue, eps, d) && GatherOk(eps, ans, d, backends, replying, out) && queue != []
    requires FlagsOk(queue, backends, replying, isWriting, holding, None)
    ensures |out| <= |Answer(ans, |ans|)| && (!isWriting ==> |out| < |Answer(ans, |ans|)|)
  {
    hide Answer, AllWhole, Full, Position;
    AnswerShorter(ans, d);
    if d == |eps| && !isWriting {
      assert eps[d..] == [] && Runs(eps[d..]) == [] && queue[0].count == 0;
      var b := queue[0].ep;
      GatherAt(eps, ans, d, backends, replying, out, b);
      PositionZero(eps, ans, b, d);
      assert Owed(eps, ans, backends, replying) != [];
    }
  }

  // A backend that has not failed answers with what it stores.
  lemma TrueReply(eps: seq<Endpoint>, want: seq<Bytes>, ans: seq<Bytes>, backends: map<Endpoint, Backend>, b: Endpoint)
    requires AnswersOk(eps, want, ans, backends) && b in backends && !backends[b].failed
    ensures |eps| == |want| == |ans| && Full(eps, ans, b) == Full(eps, want, b)
  {
    SelectSame(eps, ans, want, b);
  }

  // Releasing the lock of a subquery.
  lemma ReleaseOk(keys: seq<Bytes>, eps: seq<Endpoint>, subs: map<Endpoint, Subquery>, backends: map<Endpoint, Backend>,
                  queue: seq<Run>, replying: Option<Endpoint>, isWriting: bool, holding: set<Endpoint>, b: Endpoint)
    requires |keys| == |eps| && SendsOk(keys, eps, subs, backends, holding)
    requires FlagsOk(queue, backends, replying, isWriting, holding, None)
    requires b in holding
    ensures SendsOk(keys, eps, subs, backends, holding - {b})
    ensures FlagsOk(queue, backends, replying, isWriting, holding - {b}, None)
    ensures b in backends && b in subs && replying != Some(b) && backends[b].stream == [] && backends[b].parsed == 0
    ensures !backends[b].reading && !backends[b].failed
    ensures SendOk(keys, eps, b, subs[b].segments, subs[b].wire, true)
  {
    assert b in subs;
    hide Concat, Select, MgetQuery, SegmentText, SegmentsIn;
  }

  // One more piece of the query handed to the socket of b.
  lemma SendsNext(keys: seq<Bytes>, eps: seq<Endpoint>, subs: map<Endpoint, Subquery>, backends: map<Endpoint, Backend>,
                  holding: set<Endpoint>, b: Endpoint, q: Subquery)
    requires |keys| == |eps| && SendsOk(keys, eps, subs, backends, holding) && b in subs
    requires SendOk(keys, eps, b, q.segments, q.wire, b in holding)
    requires backends[b].stream == [] && !backends[b].reading
    ensures SendsOk(keys, eps, subs[b := q], backends, holding)
  {
    hide SendOk;
  }

  lemma KeepAbsent(subs: map<Endpoint, Subquery>, eps: seq<Endpoint>, d: nat, b: Endpoint, q: Subquery)
    requires AbsentOk(subs, eps, d) && b in subs
    requires q.absent == subs[b].absent && q.keyCount == subs[b].keyCount
    ensures AbsentOk(subs[b := q], eps, d)
  {
  }

  lemma StartReading(keys: seq<Bytes>, eps: seq<Endpoint>, subs: map<Endpoint, Subquery>,
                     backends: map<Endpoint, Backend>,
                     queue: seq<Run>, replying: Option<Endpoint>, isWriting: bool, holding: set<Endpoint>, b: Endpoint)
    requires |keys| == |eps| && SendsOk(keys, eps, subs, backends, holding)
    requires FlagsOk(queue, backends, replying, isWriting, holding, None) && CompleteOk(subs, backends, None)
    requires b in backends && b in subs && b !in holding && replying != Some(b)
    requires backends[b].stream == [] && backends[b].parsed == 0 && !backends[b].failed && subs[b].segments == []
    ensures var backends' := backends[b := backends[b].(reading := true)];
            && SendsOk(keys, eps, subs, backends', holding)
            && FlagsOk(queue, backends', replying, isWriting, holding, None)
            && CompleteOk(subs, backends', None)
  {
    hide SendOk;
  }

  lemma TakeComplete(subs: map<Endpoint, Subquery>, backends: map<Endpoint, Backend>, b: Endpoint, k: Backend,
                     left: nat)
    requires b in subs && CompleteOk(subs, backends, Some(b))
    requires left == 0 && k.ParsedUnreceived() == 0 ==> k.complete
    ensures CompleteOk(subs[b := subs[b].(absent := left)], backends[b := k], None)
    ensures CompleteOk(subs[b := subs[b].(absent := left)], backends[b := k], Some(b))
  {
  }

  lemma IgnoreFlags(queue: seq<Run>, backends: map<Endpoint, Backend>, replying: Option<Endpoint>,
                    isWriting: bool, holding: set<Endpoint>, b: Endpoint)
    requires FlagsOk(queue, backends, replying, isWriting, holding, Some(b))
    requires replying != Some(b) || isWriting || (b in backends && backends[b].Unprocessed() == 0)
    ensures FlagsOk(queue, backends, replying, isWriting, holding, None)
  {
  }

  lemma NoticeFlags(queue: seq<Run>, backends: map<Endpoint, Backend>, replying: Option<Endpoint>,
                    isWriting: bool, holding: set<Endpoint>, subs: map<Endpoint, Subquery>, b: Endpoint)
    requires FlagsOk(queue, backends, replying, isWriting, holding, None) && CompleteOk(subs, backends, None)
    ensures FlagsOk(queue, backends, replying, isWriting, holding, Some(b)) && CompleteOk(subs, backends, Some(b))
  {
  }

  lemma SwitchFlags(queue: seq<Run>, backends: map<Endpoint, Backend>, replying: Option<Endpoint>,
                    isWriting: bool, holding: set<Endpoint>, b: Endpoint)
    requires FlagsOk(queue, backends, replying, isWriting, holding, Some(b))
    requires b in backends && queue != [] && queue[0].ep == b && !isWriting && backends[b].stream != []
    ensures FlagsOk(queue, backends, Some(b), isWriting, holding, Some(b))
    ensures replying.Some? && replying.value != b ==>
              && replying.value in backends
              && backends[replying.value].processed == backends[replying.value].parsed
  {
  }

  lemma ReadFlags(queue: seq<Run>, backends: map<Endpoint, Backend>, holding: set<Endpoint>, b: Endpoint, k: Backend)
    requires FlagsOk(queue, backends, Some(b), false, holding, Some(b))
    requires b in backends && queue != [] && queue[0].ep == b
    requires k == backends[b].(reading := true) && k.Unprocessed() == 0 && k.stream != [] && !k.failed
    ensures FlagsOk(queue, backends[b := k], Some(b), false, holding, None)
  {
  }

  lemma WriteFlags(queue: seq<Run>, backends: map<Endpoint, Backend>, holding: set<Endpoint>, b: Endpoint, k: Backend)
    requires FlagsOk(queue, backends, Some(b), false, holding, Some(b))
    requires b in backends && queue != [] && queue[0].ep == b && !backends[b].reading && backends[b].stream != []
    requires k == backends[b].(processed := backends[b].processed + backends[b].Unprocessed())
    requires k.processed <= k.parsed
    ensures FlagsOk(queue, backends[b := k], Some(b), true, holding, None)
  {
  }

  // A finished client write: the run stays at the front, is popped, or waits
  // for more bytes.
  lemma WrittenFlags(queue: seq<Run>, backends: map<Endpoint, Backend>, b: Endpoint, holding: set<Endpoint>)
    requires FlagsOk(queue, backends, Some(b), true, holding, None) && b in backends
    requires backends[b].processed <= backends[b].parsed
    ensures queue != [] && queue[0].ep == b && !backends[b].reading && backends[b].Unprocessed() == 0
    ensures backends[b].ParsedUnreceived() > 0 || queue[0].count > 0 ==>
              FlagsOk(queue, backends, Some(b), false, holding, None)
    ensures backends[b].ParsedUnreceived() == 0 && (queue[1..] == [] || queue[1].count > 0) ==>
              FlagsOk(queue[1..], backends, Some(b), false, holding, None)
  {
  }

  // A backend whose bytes are all handed over cannot have just finished.
  lemma NothingFinished(eps: seq<Endpoint>, d: nat, queue: seq<Run>, subs: map<Endpoint, Subquery>,
                        b: Endpoint)
    requires AbsentOk(subs, eps, d) && b in subs
    requires QueueOk(queue, eps, d) && queue != [] && queue[0].ep == b && queue[0].count > 0
    ensures subs[b].absent == 0 ==> multiset(eps[..d])[b] == 0
  {
    QueueFront(queue, eps, d);
    AbsentStep(subs, eps, d);
  }

  datatype Parse = Refused | NeedMore | Took(backend: Backend, left: nat)

  // What taking one bulk off the front reply means for its buffer and for the
  // number of bulks still expected.
  ghost predicate TookOk(eps: seq<Endpoint>, ans: seq<Bytes>, d: nat, was: Backend, absent: nat, k: Backend, left: nat)
  {
    && |eps| == |ans| && d < |eps| && !was.reading
    && k == was.(parsed := k.parsed, processed := k.processed, complete := k.complete)
    && k.parsed == BulkStart(eps, ans, d) + |ans[d]|
    && k.processed == (if was.parsed == 0 then BulkStart(eps, ans, d) else was.processed)
    && k.processed <= |k.stream| && HeaderIn(eps, ans, d, k.stream)
    && left == (if absent == 0 then multiset(eps)[eps[d]] else absent) - 1
    && k.complete == (was.complete || (left == 0 && k.ParsedUnreceived() == 0))
    && k.Unprocessed() > 0
  }

  // The loop body of ParseReply: the array header together with its first
  // bulk, or one more bulk.
  method ParseOne(ghost eps: seq<Endpoint>, ghost ans: seq<Bytes>, ghost d: nat, was: Backend, absent: nat)
    returns (r: Parse)
    requires |eps| == |ans| && d < |eps| && AllWhole(ans)
    requires BackendOk(eps, ans, d, eps[d], was) && was.Unparsed() > 0 && !was.reading
    requires absent == Expected(eps, d, eps[d])
    ensures !r.Refused?
    ensures r.NeedMore? ==> !was.failed
    ensures r.Took? <==> HeaderIn(eps, ans, d, was.stream)
    ensures r.Took? ==> TookOk(eps, ans, d, was, absent, r.backend, r.left)
  {
    hide Position, Full, ParseArray, ParseBulk, AllWhole;
    ghost var b := eps[d];
    WholeSize(ans, d);
    CountNext(eps, b, d);
    PositionZero(eps, ans, b, d);
    PositionNext(eps, ans, d);
    var text := was.stream[was.parsed..];
    if absent == 0 {
      assert text == was.stream;
      HeaderSeen(eps, ans, d, was.stream);
      var view := ScanArray(text);
      if view.ParsedSize() < 0 {
        return Refused;
      }
      if view.ParsedSize() == 0 || view.Items() == [] {
        return NeedMore;
      }
      var left := view.bulks - 1;
      if left == 0 {
        PositionEnd(eps, ans, b, d + 1);
        assert |text| == |Full(eps, ans, b)| ==> text == Full(eps, ans, b);
      }
      return Took(was.(parsed := was.parsed + view.header + view.items[0],
                       processed := was.processed + view.header,
                       complete := was.complete || (left == 0 && view.Completed(|text|))),
                  left);
    } else {
      BulkSeen(eps, ans, d, was.stream);
      var present, total := ScanBulk(text);
      if present < 0 {
        return Refused;
      }
      if present == 0 {
        return NeedMore;
      }
      var left := absent - 1;
      return Took(was.(parsed := was.parsed + total,
                       complete := was.complete || (left == 0 && present >= total)),
                  left);
    }
  }

  // With everything received parsed, the next header is not there.
  lemma NoneIn(eps: seq<Endpoint>, ans: seq<Bytes>, d: nat, b: Endpoint, k: Backend)
    requires |eps| == |ans| && d <= |eps| && BackendOk(eps, ans, d, b, k) && k.Unparsed() == 0
    ensures d < |eps| && eps[d] == b ==> !HeaderIn(eps, ans, d, k.stream)
  {
    hide Position, Full, WholeBulk;
  }

  // No backend is sent anything but its own query.
  ghost predicate WiresOk(keys: seq<Bytes>, eps: seq<Endpoint>, subs: map<Endpoint, Subquery>)
    requires |keys| == |eps|
  {
    forall b :: b in subs ==> subs[b].wire <= MgetQuery(Select(eps, keys, b))
  }

  lemma SendsAreOwn(keys: seq<Bytes>, eps: seq<Endpoint>, subs: map<Endpoint, Subquery>,
                    backends: map<Endpoint, Backend>, holding: set<Endpoint>)
    requires |keys| == |eps| && SendsOk(keys, eps, subs, backends, holding)
    ensures WiresOk(keys, eps, subs)
  {
    hide MgetQuery, Select, SegmentText, SegmentsIn;
    forall b | b in subs ensures subs[b].wire <= MgetQuery(Select(eps, keys, b)) {
      assert SendOk(keys, eps, b, subs[b].segments, subs[b].wire, b in holding);
    }
  }

  // What backends have received and whether they failed stays the same, except
  // for x, and so does what they have been sent.
  ghost predicate Quiet(x: Option<Endpoint>, bs: map<Endpoint, Backend>, subs: map<Endpoint, Subquery>,
                        bs': map<Endpoint, Backend>, subs': map<Endpoint, Subquery>)
  {
    && bs'.Keys == bs.Keys && subs'.Keys == subs.Keys
    && (forall c :: c in bs && x != Some(c) ==> bs'[c].stream == bs[c].stream && bs'[c].failed == bs[c].failed)
    && (forall c :: c in subs ==> subs'[c].segments == subs[c].segments && subs'[c].wire == subs[c].wire)
  }

  lemma QuietSelf(bs: map<Endpoint, Backend>, subs: map<Endpoint, Subquery>)
    ensures Quiet(None, bs, subs, bs, subs)
  {
  }

  lemma QuietThen(x: Option<Endpoint>, bs: map<Endpoint, Backend>, subs: map<Endpoint, Subquery>,
                  bs1: map<Endpoint, Backend>, subs1: map<Endpoint, Subquery>,
                  bs2: map<Endpoint, Backend>, subs2: map<Endpoint, Subquery>)
    requires Quiet(x, bs, subs, bs1, subs1) && Quiet(None, bs1, subs1, bs2, subs2)
    ensures Quiet(x, bs, subs, bs2, subs2)
  {
  }

  lemma QuietTake(bs: map<Endpoint, Backend>, subs: map<Endpoint, Subquery>, b: Endpoint, k: Backend, left: nat)
    requires b in bs && b in subs && k.stream == bs[b].stream && k.failed == bs[b].failed
    ensures Quiet(None, bs, subs, bs[b := k], subs[b := subs[b].(absent := left)])
  {
  }

  lemma QuietSet(x: Option<Endpoint>, bs: map<Endpoint, Backend>, subs: map<Endpoint, Subquery>, b: Endpoint,
                 k: Backend)
    requires b in bs && (x == Some(b) || (k.stream == bs[b].stream && k.failed == bs[b].failed))
    ensures Quiet(x, bs, subs, bs[b := k], subs)
  {
  }

  lemma QuietAt(x: Option<Endpoint>, bs: map<Endpoint, Backend>, subs: map<Endpoint, Subquery>,
                bs': map<Endpoint, Backend>, subs': map<Endpoint, Subquery>, b: Endpoint)
    requires Quiet(x, bs, subs, bs', subs') && b in bs
    ensures b in bs' && (x != Some(b) ==> bs'[b].stream == bs[b].stream && bs'[b].failed == bs[b].failed)
  {
  }

  // ---------- waiting ----------

  // The reply so far ends where one of its bulks does.
  predicate AtBulkEnd(k: Backend) {
    k.parsed > 0 && |k.stream| == k.parsed
  }

  // A backend that has not answered yet is still being written to or read from,
  // and none is read from at the end of a bulk.
  ghost predicate ReachOk(backends: map<Endpoint, Backend>, holding: set<Endpoint>) {
    forall b :: b in backends ==> InReach(backends[b], b in holding)
  }

  ghost predicate InReach(k: Backend, held: bool) {
    (k.stream == [] ==> held || k.reading) && (k.reading ==> !AtBulkEnd(k))
  }

  // The same, but for b.
  ghost predicate ReachBut(backends: map<Endpoint, Backend>, holding: set<Endpoint>, b: Endpoint) {
    forall c :: c in backends && c != b ==> InReach(backends[c], c in holding)
  }

  lemma ReachSet(backends: map<Endpoint, Backend>, holding: set<Endpoint>, b: Endpoint, k: Backend)
    requires ReachBut(backends, holding, b) && InReach(k, b in holding)
    ensures ReachOk(backends[b := k], holding)
  {
    hide InReach;
  }

  lemma ReachRelease(backends: map<Endpoint, Backend>, holding: set<Endpoint>, b: Endpoint)
    requires ReachOk(backends, holding)
    ensures ReachBut(backends, holding, b) && ReachBut(backends, holding - {b}, b)
  {
    hide InReach;
  }

  lemma FailedInReach(k: Backend)
    requires k.stream != [] && !k.reading
    ensures forall held :: InReach(k, held)
  {
  }

  lemma ReachSame(backends: map<Endpoint, Backend>, holding: set<Endpoint>, b: Endpoint, k: Backend)
    requires ReachBut(backends, holding, b)
    ensures ReachBut(backends[b := k], holding, b)
  {
    hide InReach;
  }

  lemma ReachAt(backends: map<Endpoint, Backend>, holding: set<Endpoint>, b: Endpoint)
    requires ReachOk(backends, holding) && b in backends
    ensures InReach(backends[b], b in holding)
  {
    hide InReach;
  }

  // The front backend is being written to or read from; or its reply so far ends at
  // the end of a bulk, or a read was refused for want of room.
  ghost predicate Watched(queue: seq<Run>, backends: map<Endpoint, Backend>, holding: set<Endpoint>, starved: bool) {
    queue != [] ==>
      && queue[0].ep in backends
      && (queue[0].ep in holding || backends[queue[0].ep].reading || AtBulkEnd(backends[queue[0].ep]) || starved)
  }

  lemma StillWatched(queue: seq<Run>, backends: map<Endpoint, Backend>, holding: set<Endpoint>, starved: bool,
                     b: Endpoint, k: Backend)
    requires Watched(queue, backends, holding, starved) && queue != [] && queue[0].ep != b
    ensures Watched(queue, backends[b := k], holding, starved) && Watched(queue, backends, holding - {b}, starved)
  {
  }

  // All of a reply shows its next bulk.
  lemma NotAllThere(eps: seq<Endpoint>, ans: seq<Bytes>, d: nat, b: Endpoint, k: Backend)
    requires |eps| == |ans| && d < |eps| && AllWhole(ans) && eps[d] == b && BackendOk(eps, ans, d, b, k)
    requires !HeaderIn(eps, ans, d, k.stream)
    ensures !k.complete
  {
    hide Full, Position, WholeBulk, BulkStart;
    PositionNext(eps, ans, d);
  }

  // Completions of asynchronous operations. `space` says whether the buffer
  // concerned has room for another read.
  datatype Event =
    | QuerySent(ep: Endpoint, ec: ErrorCode, space: bool)
    | ReplyRead(ep: Endpoint, size: nat, space: bool)
    | ReplyError(ep: Endpoint, space: bool)
    | ReplyWritten(ec: ErrorCode, space: bool)
    | BecomesFirst

  // What can be seen of a command between two completions.
  datatype Snapshot = Snapshot(
    subqueries: map<Endpoint, Subquery>, backends: map<Endpoint, Backend>, holding: set<Endpoint>, queue: seq<Run>,
    replying: Option<Endpoint>, first: bool, prefixed: bool, clientWriting: bool, inflight: Bytes, sent: Bytes,
    starved: bool, aborted: bool, rotated: bool)

  // The endpoints that have failed.
  function Broke(bs: map<Endpoint, Backend>): set<Endpoint> {
    set b | b in bs && bs[b].failed
  }

  // The next segment of b's query is being written, or its reply is being read.
  ghost predicate SentOne(v: Snapshot, w: Snapshot, b: Endpoint) {
    && b in v.subqueries && b in v.backends && v.subqueries[b].segments != [] && b in w.subqueries
    && w.subqueries == v.subqueries[b := w.subqueries[b]]
    && w.subqueries[b].segments == v.subqueries[b].segments[1..]
    && (if w.subqueries[b].segments == [] then
          w.holding == v.holding - {b} && w.backends == v.backends[b := v.backends[b].(reading := true)]
        else w.holding == v.holding && w.backends == v.backends)
    && w == v.(subqueries := w.subqueries, holding := w.holding, backends := w.backends)
  }

  // What the other completions leave alone: what backends have received and
  // been sent, but for x, who failed, and what the client has.
  ghost predicate Frame(v: Snapshot, w: Snapshot, x: Option<Endpoint>) {
    && Quiet(x, v.backends, v.subqueries, w.backends, w.subqueries)
    && w.first == v.first && !w.aborted
  }

  // News of b are acted upon: it is at the front of the command that is at the
  // front of the pipeline, and the count line has been written.
  predicate Heard(v: Snapshot, b: Endpoint) {
    v.first && v.prefixed && v.queue != [] && v.queue[0].ep == b
  }

  // b has failed, and answers nils; nothing else happens unless it is its turn, and
  // then they are being written.
  ghost predicate Fails(v: Snapshot, w: Snapshot, b: Endpoint) {
    && Frame(v, w, Some(b)) && w.sent == v.sent && !w.rotated && w.prefixed == v.prefixed
    && w.holding == v.holding - {b} && b in w.backends && w.backends[b].failed
    && if Heard(v, b) then w.clientWriting
       else w == v.(backends := v.backends[b := w.backends[b]], holding := w.holding)
  }

  // b has brought more of its reply; nothing else happens unless it is its turn,
  // and then a write is outstanding, or a read if there is room.
  ghost predicate Brings(v: Snapshot, w: Snapshot, b: Endpoint, stream: Bytes, space: bool)
    requires b in v.backends
  {
    && Frame(v, w, Some(b)) && w.sent == v.sent && w.holding == v.holding && !w.rotated && w.prefixed == v.prefixed
    && b in w.backends && w.backends[b].failed == v.backends[b].failed && w.backends[b].stream == stream
    && if Heard(v, b) then w.clientWriting || w.backends[b].reading == space
       else w == v.(backends := v.backends[b := v.backends[b].(stream := stream, reading := false)])
  }

  lemma ItBrings(v: Snapshot, w: Snapshot, b: Endpoint, k: Backend, space: bool)
    requires b in v.backends && k.failed == v.backends[b].failed && !k.reading && !v.aborted && !w.aborted
    requires k == v.backends[b].(stream := k.stream, reading := false)
    requires Quiet(None, v.backends[b := k], v.subqueries, w.backends, w.subqueries)
    requires w.sent == v.sent && w.holding == v.holding && !w.rotated && w.prefixed == v.prefixed && w.first == v.first
    requires if Heard(v, b) then w.clientWriting || (b in w.backends && w.backends[b].reading == space)
             else w == v.(backends := v.backends[b := k])
    ensures Brings(v, w, b, k.stream, space)
  {
  }

  lemma ItFails(v: Snapshot, w: Snapshot, b: Endpoint, k: Backend)
    requires b in v.backends && k.failed && !v.aborted && !w.aborted
    requires Quiet(None, v.backends[b := k], v.subqueries, w.backends, w.subqueries)
    requires w.sent == v.sent && w.holding == v.holding - {b} && !w.rotated
    requires w.prefixed == v.prefixed && w.first == v.first
    requires if Heard(v, b) then w.clientWriting else w == v.(backends := v.backends[b := k], holding := w.holding)
    ensures Fails(v, w, b)
  {
  }

  lemma FailsReleased(v: Snapshot, m: Snapshot, w: Snapshot, b: Endpoint)
    requires m == v.(holding := v.holding - {b}) && Fails(m, w, b)
    ensures Fails(v, w, b)
  {
    hide Frame;
    FrameReleased(v, m, w, b);
  }

  lemma FrameReleased(v: Snapshot, m: Snapshot, w: Snapshot, b: Endpoint)
    requires m == v.(holding := v.holding - {b}) && Frame(m, w, Some(b))
    ensures Frame(v, w, Some(b))
  {
    hide Quiet;
  }

  // The completion came when there was no room for another read.
  predicate Refuses(e: Event) {
    !e.BecomesFirst? && !e.space
  }

  // A read of b may complete with the next n bytes of its reply.
  ghost predicate CanRead(eps: seq<Endpoint>, want: seq<Bytes>, v: Snapshot, b: Endpoint, n: nat)
    requires |eps| == |want|
  {
    b in v.backends && v.backends[b].reading && 0 < n && |v.backends[b].stream| + n <= |Full(eps, want, b)|
  }

  // What every completion does; one that cannot happen now does nothing.
  ghost predicate Next(eps: seq<Endpoint>, want: seq<Bytes>, v: Snapshot, e: Event, w: Snapshot)
    requires |eps| == |want|
  {
    (v.starved ==> w.starved) && (w.starved ==> v.starved || Refuses(e)) &&
    if v.aborted || v.rotated then w == v
    else match e
      case QuerySent(b, ec, _) =>
        if b !in v.holding then w == v
        else if ec.Success? then SentOne(v, w, b)
        else if ec.ConnectError? then Fails(v, w, b)
        else w == v.(aborted := true)
      case ReplyRead(b, n, space) =>
        if !CanRead(eps, want, v, b, n) then w == v
        else Brings(v, w, b, Full(eps, want, b)[..|v.backends[b].stream| + n], space)
      case ReplyError(b, _) =>
        if !(b in v.backends && v.backends[b].reading) then w == v
        else if v.replying == Some(b) then w == v.(aborted := true)
        else Fails(v, w, b)
      case ReplyWritten(ec, _) =>
        if !v.clientWriting then w == v
        else if !ec.Success? then w == v.(aborted := true, clientWriting := false)
        else Frame(v, w, None) && w.holding == v.holding && w.sent == v.sent + v.inflight && w.prefixed
      case BecomesFirst =>
        if v.first then w == v
        else w == v.(first := true, clientWriting := true, inflight := ArrayPrefix(|eps|))
  }

  ghost predicate IsRun(eps: seq<Endpoint>, want: seq<Bytes>, schedule: seq<Event>, run: seq<Snapshot>)
    requires |eps| == |want|
  {
    |run| == |schedule| + 1 && forall i :: 0 <= i < |schedule| ==> Next(eps, want, run[i], schedule[i], run[i + 1])
  }

  // At the start every endpoint's query prefix is being written, and the array
  // prefix of the reply too if it is the command's turn.
  // One subquery and one connection for each endpoint, with no reply yet.
  ghost predicate OnePerEndpoint(eps: seq<Endpoint>, subqueries: map<Endpoint, Subquery>,
                                 backends: map<Endpoint, Backend>) {
    && subqueries.Keys == backends.Keys && (forall b :: b in backends <==> b in eps)
    && (forall b :: b in backends ==> backends[b] == Backend([], 0, 0, false, false, false))
  }

  ghost predicate Starts(keys: seq<Bytes>, eps: seq<Endpoint>, isFirst: bool, v: Snapshot) {
    && OnePerEndpoint(eps, v.subqueries, v.backends) && v.holding == v.subqueries.Keys
    && v.queue == Runs(eps) && v.replying.None? && v.first == isFirst && v.clientWriting == isFirst
    && v.inflight == (if isFirst then ArrayPrefix(|eps|) else []) && v.sent == [] && !v.prefixed
    && !v.starved && !v.aborted && !v.rotated
  }

  // A completion that makes endpoint b fail.
  predicate Breaks(e: Event, b: Endpoint) {
    match e
    case QuerySent(c, ec, _) => c == b && ec.ConnectError?
    case ReplyError(c, _) => c == b
    case _ => false
  }

  // One of the first i completions made b fail.
  ghost predicate Blamed(schedule: seq<Event>, i: nat, b: Endpoint) {
    exists k :: 0 <= k < i && k < |schedule| && Breaks(schedule[k], b)
  }

  // An endpoint that failed has an error completion to blame.
  lemma {:induction false} BlameFor(eps: seq<Endpoint>, want: seq<Bytes>, schedule: seq<Event>, run: seq<Snapshot>,
                                    i: nat, b: Endpoint)
    requires |eps| == |want| && IsRun(eps, want, schedule, run) && i < |run|
    requires b !in Broke(run[0].backends) && b in Broke(run[i].backends)
    ensures Blamed(schedule, i, b)
  {
    hide Next;
    assert i > 0;
    assert Next(eps, want, run[i - 1], schedule[i - 1], run[i]);
    NewFailure(eps, want, run[i - 1], schedule[i - 1], run[i], b);
    if b in Broke(run[i - 1].backends) {
      BlameFor(eps, want, schedule, run, i - 1, b);
    } else {
      assert Breaks(schedule[i - 1], b);
    }
  }

  lemma NewFailure(eps: seq<Endpoint>, want: seq<Bytes>, v: Snapshot, e: Event, w: Snapshot, b: Endpoint)
    requires |eps| == |want| && Next(eps, want, v, e, w) && b in Broke(w.backends)
    ensures b in Broke(v.backends) || Breaks(e, b)
  {
    hide Full, ArrayPrefix;
  }

  // The bulk each key is answered with: nil if its endpoint failed.
  function Answers(eps: seq<Endpoint>, want: seq<Bytes>, broke: set<Endpoint>): seq<Bytes>
    requires |eps| == |want|
  {
    seq(|eps|, i requires 0 <= i < |eps| => if eps[i] in broke then NIL_BULK else want[i])
  }

  // Whenever the header of the next answer is there, a client write is
  // outstanding, and a client write has bytes.
  ghost predicate WritesOn(eps: seq<Endpoint>, want: seq<Bytes>, v: Snapshot)
    requires |eps| == |want|
  {
    && (v.clientWriting && !v.aborted ==> v.first && v.inflight != [])
    && (v.first && !v.clientWriting && !v.aborted && v.queue != [] && v.queue[0].count > 0 ==>
          && Left(v.queue) <= |eps| && v.queue[0].ep in v.backends
          && var d := |eps| - Left(v.queue);
             d < |eps| ==> !HeaderIn(eps, Answers(eps, want, Broke(v.backends)), d, v.backends[v.queue[0].ep].stream))
  }

  // The front backend of a command whose turn it is: none of its bytes is on its way
  // to the client, nothing is being sent to it, and nothing is being read from it.
  predicate Stopped(v: Snapshot) {
    && !v.aborted && !v.rotated && v.first && v.prefixed && !v.clientWriting
    && v.queue != [] && v.queue[0].ep in v.backends
    && v.queue[0].ep !in v.holding && !v.backends[v.queue[0].ep].reading
  }

  // Nothing that completes makes it go on.
  lemma StoppedForever(eps: seq<Endpoint>, want: seq<Bytes>, v: Snapshot, e: Event, w: Snapshot)
    requires |eps| == |want| && Stopped(v) && Next(eps, want, v, e, w)
    ensures Stopped(w) || w.aborted
  {
    hide Full, ArrayPrefix, Frame;
  }

  // A command whose turn it is, and that is not writing, has stopped if and only if
  // the reply of its front backend ends, so far, at the end of a bulk, or a read was
  // refused for want of room. Such a backend has two keys or more.
  ghost predicate Waits(eps: seq<Endpoint>, v: Snapshot) {
    !v.aborted && !v.rotated && v.first && !v.clientWriting ==>
      && v.prefixed && v.queue != [] && v.queue[0].ep in v.backends
      && var k := v.backends[v.queue[0].ep];
         && (AtBulkEnd(k) ==> Stopped(v) && multiset(eps)[v.queue[0].ep] >= 2)
         && (Stopped(v) ==> AtBulkEnd(k) || v.starved)
  }

  // A read is refused only for want of room.
  lemma {:induction false} StarvedBecause(eps: seq<Endpoint>, want: seq<Bytes>, schedule: seq<Event>,
                                          run: seq<Snapshot>, i: nat)
    requires |eps| == |want| && IsRun(eps, want, schedule, run) && i < |run| && !run[0].starved && run[i].starved
    ensures exists k :: 0 <= k < i && Refuses(schedule[k])
  {
    hide Full, ArrayPrefix, Frame, Fails, Brings, SentOne, CanRead;
    assert Next(eps, want, run[i - 1], schedule[i - 1], run[i]);
    if run[i - 1].starved {
      StarvedBecause(eps, want, schedule, run, i - 1);
    }
  }

  lemma NotWhenAborted(eps: seq<Endpoint>, want: seq<Bytes>, v: Snapshot)
    requires |eps| == |want| && v.aborted
    ensures WritesOn(eps, want, v)
  {
  }

  lemma KeysLeft(queue: seq<Run>, eps: seq<Endpoint>, d: nat)
    requires QueueOk(queue, eps, d)
    ensures Left(queue) == |eps| - d
  {
    LeftOfRuns(eps[d..]);
    if queue != Runs(eps[d..]) {
      assert queue[1..] == Runs(eps[d..]);
    }
  }

  lemma SharedKeys(keys: seq<Bytes>, eps: seq<Endpoint>, subs: map<Endpoint, Subquery>)
    requires |keys| == |eps| && SharesOk(keys, eps, |eps|, subs)
    ensures forall b :: b in subs <==> b in eps
  {
    hide ShareOk;
    assert eps[..|eps|] == eps;
  }

  // The subqueries of the constructor's split, each with its prefix being written.
  method StartAll(keys: seq<Bytes>, eps: seq<Endpoint>, ghost want: seq<Bytes>)
    returns (started: map<Endpoint, Subquery>, conns: map<Endpoint, Backend>, queue: seq<Run>, locks: nat)
    requires keys != [] && |keys| == |eps| == |want| && AllWhole(want)
    ensures AnswersOk(eps, want, want, conns) && QueueOk(queue, eps, 0) && AbsentOk(started, eps, 0)
    ensures SendsOk(keys, eps, started, conns, started.Keys) && CompleteOk(started, conns, None)
    ensures GatherOk(eps, want, 0, conns, None, ArrayPrefix(|eps|))
    ensures FlagsOk(queue, conns, None, false, started.Keys, None)
    ensures locks == |started.Keys| && queue != [] && queue == Runs(eps)
    ensures OnePerEndpoint(eps, started, conns) && ReachOk(conns, started.Keys)
  {
    hide GatherOk, AnswersOk, SendsOk, AbsentOk, FlagsOk, CompleteOk, ArrayPrefix, SharesOk, AllWhole, QueueOk;
    var subs;
    subs, queue, locks := Split(keys, eps);
    started := map b | b in subs ::
      subs[b].(segments := [Segment(0, 0)] + subs[b].segments,
               wire := ArrayPrefix(subs[b].keyCount + 1) + MGET_BULK);
    conns := map b | b in subs :: Backend([], 0, 0, false, false, false);
    StartedSends(keys, eps, subs, started, conns);
    Started(keys, eps, want, subs, conns, queue);
    StartGather(keys, eps, want, subs, conns);
    QueueNonEmpty(queue, eps, 0);
    assert started.Keys == subs.Keys && |subs| == |subs.Keys|;
    SharedKeys(keys, eps, subs);
  }

  // The next bulk of the front run has its header in what b has sent.
  ghost predicate Announced(queue: seq<Run>, eps: seq<Endpoint>, ans: seq<Bytes>, d: nat,
                            backends: map<Endpoint, Backend>, b: Endpoint)
  {
    && queue != [] && queue[0].count > 0 && b in backends
    && |eps| == |ans| && d < |eps| && HeaderIn(eps, ans, d, backends[b].stream)
  }

  // The failure of another backend does not announce anything.
  lemma FailAnnounced(queue: seq<Run>, eps: seq<Endpoint>, ans: seq<Bytes>, d: nat, backends: map<Endpoint, Backend>,
                      b: Endpoint, k: Backend)
    requires QueueOk(queue, eps, d) && queue != [] && queue[0].ep != b && |eps| == |ans|
    requires !Announced(queue, eps, ans, d, backends, queue[0].ep)
    ensures |Without(eps, ans, b)| == |eps|
    ensures !Announced(queue, eps, Without(eps, ans, b), d, backends[b := k], queue[0].ep)
  {
    hide HeaderIn, QueueOk;
    if queue[0].count > 0 {
      QueueFront(queue, eps, d);
      if eps[d] in backends {
        WithoutHeader(eps, ans, b, d, backends[eps[d]].stream);
      }
    }
  }

  class MgetCommand {
    const keys: seq<Bytes>            // key bulks of the query, as received
    const eps: seq<Endpoint>          // their endpoints
    const want: seq<Bytes>            // bulks the backends store for them

    var subqueries: map<Endpoint, Subquery>
    var queue: seq<Run>               // waiting_reply_queue_
    var replyPrefix: Bytes
    var replying: Option<Endpoint>    // replying_backend_
    var isWriting: bool               // is_writing_reply_ of the command
    var holding: set<Endpoint>        // subqueries holding a lock on the client buffer
    var locks: nat                    // how many locks that is
    var backends: map<Endpoint, Backend>

    var first: bool                   // the command is the front of the pipeline
    var clientWriting: bool           // is_writing_reply_ of the client connection
    var inflight: Bytes               // the client write that is outstanding
    var sent: Bytes                   // bytes the client has been sent
    var starved: bool                 // a read was refused for want of room
    var aborted: bool
    var rotated: bool

    ghost var ans: seq<Bytes>         // the answer bulk of each key
    ghost var d: nat                  // keys whose answer has been parsed

    ghost function Out(): Bytes
      reads this
    {
      if replyPrefix != [] then ArrayPrefix(|eps|) else sent + inflight
    }

    ghost predicate ClientOk()
      reads this
    {
      && (!isWriting && replyPrefix == [] ==> inflight == [])
      && (isWriting ==> inflight != [])
      && (replyPrefix != [] ==>
            && replyPrefix == ArrayPrefix(|eps|) && replying.None? && !isWriting && sent == []
            && inflight == (if first then replyPrefix else []))
      && (replyPrefix == [] ==> first)
      && clientWriting == (isWriting || (first && replyPrefix != []))
    }

    ghost predicate Base(news: Option<Endpoint>)
      reads this
    {
      && |keys| == |eps| == |want| && eps != []
      && AnswersOk(eps, want, ans, backends)
      && QueueOk(queue, eps, d)
      && AbsentOk(subqueries, eps, d)
      && SendsOk(keys, eps, subqueries, backends, holding)
      && GatherOk(eps, ans, d, backends, replying, Out())
      && FlagsOk(queue, backends, replying, isWriting, holding, news)
      && CompleteOk(subqueries, backends, news)
      && ClientOk()
    }

    // What the client has seen is a prefix of the in-order answer.
    ghost predicate Sound()
      reads this
    {
      && |keys| == |eps|
      && WiresOk(keys, eps, subqueries)
      && AnswersOk(eps, want, ans, backends)
      && sent + inflight <= Answer(ans, |ans|)
    }

    // The next bulk of the front backend can be parsed.
    ghost predicate MoreIn(b: Endpoint)
      reads this
    {
      Announced(queue, eps, ans, d, backends, b)
    }

    // When no client write is outstanding, the next bulk of the front backend cannot
    // be parsed yet, and the backend is being waited for.
    ghost predicate Attentive()
      reads this
    {
      first && replyPrefix == [] && !isWriting && queue != [] ==>
        !MoreIn(queue[0].ep) && Watched(queue, backends, holding, starved)
    }

    // It is the turn of b, or the one whose turn it is is being waited for.
    ghost predicate Turn(b: Endpoint)
      reads this
    {
      queue != [] && (queue[0].ep == b || Attentive())
    }

    ghost predicate Valid()
      reads this
    {
      && (aborted ==> Sound())
      && (!aborted ==>
            && Base(None) && locks == |holding| && (rotated <==> queue == [])
            && Attentive() && ReachOk(backends, holding))
    }

    function Seen(): Snapshot
      reads this
    {
      Snapshot(subqueries, backends, holding, queue, replying, first, replyPrefix == [], clientWriting, inflight, sent,
               starved, aborted, rotated)
    }

    lemma BaseIsSound(news: Option<Endpoint>)
      requires Base(news)
      ensures Sound()
    {
      hide AnswersOk, SendsOk, WiresOk, QueueOk, AbsentOk, FlagsOk, CompleteOk, ArrayPrefix, Answer, BackendOk,
           AllWhole;
      SendsAreOwn(keys, eps, subqueries, backends, holding);
      AnswerGrows(ans, d, Out(), Owed(eps, ans, backends, replying));
      if replyPrefix != [] {
        SameLength(eps, want, ans, backends);
        if !first {
          assert sent + inflight == [];
        } else {
          assert sent + inflight == Out();
        }
      }
    }

    // ---------- parsing ----------

    // The state in which the reply of b may be parsed.
    ghost predicate AtFront(b: Endpoint)
      reads this
    {
      && !aborted && replyPrefix == [] && replying == Some(b) && !isWriting
      && queue != [] && queue[0].ep == b
      && b in backends && b in subqueries && !backends[b].reading
    }

    // Only the parse and process positions of b moved.
    ghost predicate SameReply(b: Endpoint, bs: map<Endpoint, Backend>)
      reads this
    {
      && b in bs && b in backends
      && backends[b] == bs[b].(parsed := backends[b].parsed, processed := backends[b].processed,
                               complete := backends[b].complete)
    }

    ghost predicate Broken(b: Endpoint)
      reads this
    {
      b in backends && backends[b].failed
    }

    ghost predicate Owing(b: Endpoint)
      reads this
    {
      b in backends && backends[b].Unprocessed() > 0
    }

    ghost predicate MayParse(b: Endpoint)
      reads this
    {
      && Base(Some(b)) && AtFront(b) && CompleteOk(subqueries, backends, None)
      && (queue[0].count > 0 || backends[b].Unparsed() == 0)
    }

    method TakeOne(b: Endpoint, k: Backend, left: nat)
      requires Base(Some(b)) && AtFront(b) && queue[0].count > 0
      requires d < |eps| && eps[d] == b
      requires TookOk(eps, ans, d, backends[b], subqueries[b].absent, k, left)
      modifies this`backends, this`subqueries, this`queue, this`d
      ensures d == old(d) + 1 <= |eps|
      ensures backends == old(backends)[b := k]
      ensures subqueries == old(subqueries)[b := old(subqueries)[b].(absent := left)]
      ensures SameReply(b, old(backends))
      ensures Base(Some(b)) && AtFront(b) && Owing(b) && CompleteOk(subqueries, backends, None)
    {
      hide GatherOk, AnswersOk, SendsOk, QueueOk, AbsentOk, FlagsOk, CompleteOk, ArrayPrefix, BulkStart;
      TakeFlags(queue, backends, holding, b, k);
      TakeSends(keys, eps, subqueries, backends, holding, b, k, left);
      TakeComplete(subqueries, backends, b, k, left);
      ParseStep(eps, ans, d, queue, subqueries, backends, Out(), k, left);
      KeepAnswers(eps, want, ans, backends, b, k);
      backends := backends[b := k];
      subqueries := subqueries[b := subqueries[b].(absent := left)];
      queue := [Run(b, queue[0].count - 1)] + queue[1..];
      d := d + 1;
    }

    method MarkComplete(b: Endpoint)
      requires Base(Some(b)) && AtFront(b)
      requires backends[b].Unprocessed() > 0 && backends[b].ParsedUnreceived() == 0 && subqueries[b].absent == 0
      modifies this`backends
      ensures backends == old(backends)[b := old(backends)[b].(complete := true)]
      ensures Base(Some(b)) && AtFront(b) && CompleteOk(subqueries, backends, None)
    {
      hide GatherOk, AnswersOk, SendsOk, QueueOk, AbsentOk, FlagsOk, CompleteOk, ArrayPrefix, Position, Full, AllWhole;
      var k := backends[b].(complete := true);
      GatherAt(eps, ans, d, backends, replying, Out(), b);
      FinishedReply(eps, ans, d, subqueries, b, backends[b]);
      Received(eps, ans, d, backends, replying, Out(), b, k);
      KeepAnswers(eps, want, ans, backends, b, k);
      SetFlags(queue, backends, holding, b, k);
      TakeSends(keys, eps, subqueries, backends, holding, b, k, subqueries[b].absent);
      TakeComplete(subqueries, backends, b, k, subqueries[b].absent);
      assert subqueries[b := subqueries[b].(absent := subqueries[b].absent)] == subqueries;
      backends := backends[b := k];
    }

    // Nothing owed yet: the state in which parsing starts.
    lemma ReadyToParse(b: Endpoint)
      requires Base(Some(b)) && AtFront(b) && backends[b].Unprocessed() <= 0
      ensures MayParse(b)
    {
      hide GatherOk, AnswersOk, SendsOk, QueueOk, AbsentOk, ArrayPrefix, Position, Full, AllWhole;
      if queue[0].count > 0 {
        NothingFinished(eps, d, queue, subqueries, b);
        GatherAt(eps, ans, d, backends, replying, Out(), b);
        PositionZero(eps, ans, b, d);
      }
    }

    method ParseReply(b: Endpoint) returns (ok: bool)
      requires Base(Some(b)) && AtFront(b)
      requires backends[b].Unparsed() > 0 || backends[b].Unprocessed() > 0
      modifies this`backends, this`subqueries, this`queue, this`d
      ensures ok
      ensures Base(Some(b)) && AtFront(b) && CompleteOk(subqueries, backends, None)
      ensures SameReply(b, old(backends)) && backends == old(backends)[b := backends[b]]
      ensures Owing(b) || !Broken(b)
      ensures Owing(b) || (!MoreIn(b) && queue[0].count > 0 && backends[b].Unparsed() > 0)
      ensures Quiet(None, old(backends), old(subqueries), backends, subqueries)
    {
      hide Quiet, GatherOk, AnswersOk, SendsOk, QueueOk, AbsentOk, FlagsOk, CompleteOk, ArrayPrefix, BulkStart, TookOk,
           Position, Full, AllWhole;
      var k := backends[b];
      if k.Unprocessed() > 0 {
        if k.ParsedUnreceived() == 0 && subqueries[b].absent == 0 {
          QuietSet(None, backends, subqueries, b, backends[b].(complete := true));
          MarkComplete(b);
        } else {
          QuietSelf(backends, subqueries);
          TakeComplete(subqueries, backends, b, k, subqueries[b].absent);
          assert subqueries[b := subqueries[b].(absent := subqueries[b].absent)] == subqueries;
          assert backends[b := k] == backends;
        }
        return true;
      }
      ReadyToParse(b);
      QuietSelf(backends, subqueries);
      while backends[b].Unparsed() > 0
        invariant Quiet(None, old(backends), old(subqueries), backends, subqueries)
        invariant MayParse(b) && SameReply(b, old(backends)) && backends == old(backends)[b := backends[b]]
        invariant backends == old(backends) || Owing(b)
        decreases |eps| - d
      {
        QueueFront(queue, eps, d);
        GatherAt(eps, ans, d, backends, replying, Out(), b);
        ExpectedAt(subqueries, eps, d, b);
        var r := ParseOne(eps, ans, d, backends[b], subqueries[b].absent);
        if r.Refused? {
          return false;
        }
        if r.NeedMore? {
          return true;
        }
        ghost var bs, subs := backends, subqueries;
        TakeOne(b, r.backend, r.left);
        QuietTake(bs, subs, b, r.backend, r.left);
        QuietThen(None, old(backends), old(subqueries), bs, subs, backends, subqueries);
        if queue[0].count == 0 {
          break;
        }
      }
      if queue[0].count > 0 {
        QueueFront(queue, eps, d);
        GatherAt(eps, ans, d, backends, replying, Out(), b);
        NoneIn(eps, ans, d, b, backends[b]);
      }
      return true;
    }

    // ---------- replying ----------

    // b has data that has not been looked at.
    ghost predicate HasNews(b: Endpoint)
      reads this
    {
      && !aborted && !rotated && queue != []
      && b in backends && b in subqueries && !backends[b].reading && backends[b].stream != []
      && (backends[b].Unparsed() > 0 || backends[b].Unprocessed() > 0)
      && (replying == Some(b) ==> !isWriting)
      && (replying == Some(b) || backends[b].parsed > 0 ==> replyPrefix == [] && queue[0].ep == b)
    }

    method TryReadMoreReply(b: Endpoint, space: bool)
      requires Base(Some(b)) && AtFront(b) && CompleteOk(subqueries, backends, None)
      requires backends[b].Unprocessed() == 0 && backends[b].stream != [] && !backends[b].failed
      modifies this`backends, this`starved
      ensures Base(None)
      ensures backends == old(backends)[b := old(backends)[b].(reading := !backends[b].complete && space)]
      ensures starved == (old(starved) || (!backends[b].complete && !space))
    {
      hide GatherOk, AnswersOk, SendsOk, QueueOk, AbsentOk, FlagsOk, CompleteOk, ArrayPrefix, Position, Full, AllWhole;
      IgnoreFlags(queue, backends, replying, isWriting, holding, b);
      if backends[b].complete || backends[b].reading || !space {
        starved := starved || (!backends[b].complete && !space);
        return;
      }
      var k := backends[b].(reading := true);
      GatherAt(eps, ans, d, backends, replying, Out(), b);
      Received(eps, ans, d, backends, replying, Out(), b, k);
      KeepAnswers(eps, want, ans, backends, b, k);
      ReadFlags(queue, backends, holding, b, k);
      ReadSends(keys, eps, subqueries, backends, holding, b, k);
      KeepComplete(subqueries, backends, b, k);
      backends := backends[b := k];
    }

    method TryWriteReply(b: Endpoint)
      requires Base(Some(b)) && AtFront(b) && CompleteOk(subqueries, backends, None)
      requires backends[b].Unprocessed() > 0
      modifies this`backends, this`isWriting, this`clientWriting, this`inflight
      ensures Base(None) && isWriting
      ensures var k := old(backends)[b];
              var n := k.Unprocessed();
              && k.processed + n <= |k.stream| && inflight == k.stream[k.processed..k.processed + n]
              && backends == old(backends)[b := k.(processed := k.processed + n)]
    {
      hide GatherOk, AnswersOk, SendsOk, QueueOk, AbsentOk, FlagsOk, CompleteOk, ArrayPrefix, Position, Full, AllWhole;
      var n := backends[b].Unprocessed();
      if !isWriting && n > 0 {
        var k := backends[b];
        var k' := k.(processed := k.processed + n);
        GatherAt(eps, ans, d, backends, replying, Out(), b);
        Handed(eps, ans, d, backends, Out(), b);
        KeepAnswers(eps, want, ans, backends, b, k');
        WriteFlags(queue, backends, holding, b, k');
        ReadSends(keys, eps, subqueries, backends, holding, b, k');
        KeepComplete(subqueries, backends, b, k');
        isWriting := true;
        assert !clientWriting;  // the assertion in WriteReply
        clientWriting := true;
        assert sent + inflight == sent;
        inflight := k.stream[k.processed..k.processed + n];
        backends := backends[b := k'];
      }
    }

    method BackendReadyToReply(b: Endpoint, space: bool)
      requires Base(Some(b)) && HasNews(b) && Turn(b) && ReachOk(backends, holding)
      modifies this`backends, this`subqueries, this`queue, this`d, this`replying,
               this`isWriting, this`clientWriting, this`inflight, this`starved
      ensures Base(None) && queue != [] && Attentive() && ReachOk(backends, holding)
      ensures if old(first && replyPrefix == [] && queue[0].ep == b)
              then replying == Some(b) && (clientWriting || Reads(b, space))
              else Seen() == old(Seen())
      ensures (old(starved) ==> starved) && (starved ==> old(starved) || !space)
      ensures Quiet(None, old(backends), old(subqueries), backends, subqueries)
    {
      hide Quiet, GatherOk, AnswersOk, SendsOk, QueueOk, AbsentOk, FlagsOk, CompleteOk, ArrayPrefix, Position, Full,
           AllWhole, ReachOk, Watched;
      QuietSelf(backends, subqueries);
      if !first {
        Ignore(b);
        return;
      }
      if queue == [] {
        // aborts the client; never reached while the command is active
        assert false;
      }
      if replyPrefix != [] {
        Ignore(b);
        return;
      }
      if b != queue[0].ep {
        Ignore(b);
        return;
      }
      TakeUp(b, space);
    }

    // More of the reply of b is being read, if there is room.
    ghost predicate Reads(b: Endpoint, space: bool)
      reads this
    {
      b in backends && !backends[b].failed && backends[b].reading == space
    }

    // It is the turn of b.
    method TakeUp(b: Endpoint, space: bool)
      requires Base(Some(b)) && HasNews(b) && ReachOk(backends, holding)
      requires first && replyPrefix == [] && queue[0].ep == b
      modifies this`backends, this`subqueries, this`queue, this`d, this`replying,
               this`isWriting, this`clientWriting, this`inflight, this`starved
      ensures Base(None) && queue != [] && Attentive() && ReachOk(backends, holding)
      ensures replying == Some(b) && (clientWriting || Reads(b, space))
      ensures (old(starved) ==> starved) && (starved ==> old(starved) || !space)
      ensures Quiet(None, old(backends), old(subqueries), backends, subqueries)
    {
      hide Quiet, GatherOk, AnswersOk, SendsOk, QueueOk, AbsentOk, FlagsOk, CompleteOk, ArrayPrefix, Position, Full,
           AllWhole, ReachOk, ReachBut, Announced, Watched;
      NotWriting(queue, backends, replying, isWriting, holding, b);
      SwitchFlags(queue, backends, replying, isWriting, holding, b);
      Switch(eps, ans, d, backends, replying, Out(), b);
      replying := Some(b);
      ReachRelease(backends, holding, b);
      var ok := ParseReply(b);
      if !ok {
        // aborts the client; never reached with well-formed backends
        assert false;
      }
      ReachSame(old(backends), holding, b, backends[b]);
      ghost var bs, subs := backends, subqueries;
      PassOn(b, space);
      QuietThen(None, old(backends), old(subqueries), bs, subs, backends, subqueries);
    }

    // What has been parsed is written, or more is read.
    method PassOn(b: Endpoint, space: bool)
      requires Base(Some(b)) && AtFront(b) && CompleteOk(subqueries, backends, None) && first
      requires Owing(b) || (!Broken(b) && !MoreIn(b) && queue[0].count > 0 && backends[b].Unparsed() > 0)
      requires ReachBut(backends, holding, b) && backends[b].stream != []
      modifies this`backends, this`isWriting, this`clientWriting, this`inflight, this`starved
      ensures Base(None) && Attentive() && ReachOk(backends, holding)
      ensures clientWriting || Reads(b, space)
      ensures (old(starved) ==> starved) && (starved ==> old(starved) || !space)
      ensures Quiet(None, old(backends), old(subqueries), backends, subqueries)
    {
      hide Quiet, GatherOk, AnswersOk, SendsOk, QueueOk, AbsentOk, FlagsOk, CompleteOk, ArrayPrefix, Position, Full,
           AllWhole, ReachOk, ReachBut;
      GatherAt(eps, ans, d, backends, replying, Out(), b);
      if backends[b].Unprocessed() <= 0 {
        QueueFront(queue, eps, d);
        NotAllThere(eps, ans, d, b, backends[b]);
        TryReadMoreReply(b, space);
      } else {
        TryWriteReply(b);
      }
      ReachSet(old(backends), holding, b, backends[b]);
      QuietSet(None, old(backends), subqueries, b, backends[b]);
    }

    // Data of a backend whose turn has not come is left in its buffer.
    lemma Ignore(b: Endpoint)
      requires Base(Some(b)) && HasNews(b)
      requires replyPrefix != [] || queue[0].ep != b
      ensures Base(None)
    {
      hide GatherOk, AnswersOk, SendsOk, QueueOk, AbsentOk, FlagsOk, ArrayPrefix, Position, Full, AllWhole;
      IgnoreFlags(queue, backends, replying, isWriting, holding, b);
    }


    method NextBackendStartReply(space: bool)
      requires !aborted && !rotated && Base(None) && queue != [] && !isWriting && replyPrefix == []
      requires replying.Some? ==>
                 && replying.value in backends && !backends[replying.value].reading
                 && backends[replying.value].processed == backends[replying.value].parsed
      requires ReachOk(backends, holding)
      modifies this`backends, this`subqueries, this`queue, this`d, this`replying,
               this`isWriting, this`clientWriting, this`inflight, this`starved
      ensures Base(None) && queue != [] && Attentive() && ReachOk(backends, holding)
      ensures (old(starved) ==> starved) && (starved ==> old(starved) || !space)
      ensures Quiet(None, old(backends), old(subqueries), backends, subqueries)
    {
      hide Quiet, GatherOk, AnswersOk, SendsOk, AbsentOk, FlagsOk, CompleteOk, ArrayPrefix, Position, Full, AllWhole,
           Runs;
      var b := queue[0].ep;
      FrontKnown(eps, want, ans, backends, queue, d);
      Paired(keys, eps, subqueries, backends, holding, b);
      if backends[b].Unparsed() > 0 {
        NoticeFlags(queue, backends, replying, isWriting, holding, subqueries, b);
        FrontIdle(queue, backends, replying, isWriting, holding, b);
        BackendReadyToReply(b, space);
      } else {
        QuietSelf(backends, subqueries);
        GatherAt(eps, ans, d, backends, replying, Out(), b);
        ReachAt(backends, holding, b);
        if queue[0].count > 0 {
          QueueFront(queue, eps, d);
          NoneIn(eps, ans, d, b, backends[b]);
        }
      }
    }

    // Completion of a client write: first of the count line, then of reply bytes.
    method OnWriteReplyFinished(ec: ErrorCode, space: bool)
      requires Valid() && !aborted && !rotated && clientWriting
      modifies this
      ensures Valid()
      ensures ans == old(ans)
      ensures |eps| == |want| && Next(eps, want, old(Seen()), ReplyWritten(ec, space), Seen())
      ensures rotated ==> ec.Success? && !aborted && sent == Answer(ans, |ans|)
    {
      hide Quiet, GatherOk, AnswersOk, SendsOk, QueueOk, AbsentOk, FlagsOk, CompleteOk, ArrayPrefix, Position, Full,
           AllWhole, Answer;
      if !ec.Success? {
        BaseIsSound(None);
        clientWriting := false;
        aborted := true;
        return;
      }
      if replyPrefix != [] {
        PrefixWritten(space);
      } else {
        BackendWritten(space);
      }
    }

    method PrefixWritten(space: bool)
      requires Base(None) && !aborted && !rotated && clientWriting && replyPrefix != [] && queue != []
      requires ReachOk(backends, holding)
      modifies this`backends, this`subqueries, this`queue, this`d, this`replying,
               this`isWriting, this`clientWriting, this`inflight, this`sent, this`replyPrefix, this`starved
      ensures Base(None) && queue != [] && sent == old(sent) + old(inflight)
      ensures Attentive() && ReachOk(backends, holding) && replyPrefix == []
      ensures (old(starved) ==> starved) && (starved ==> old(starved) || !space)
      ensures Quiet(None, old(backends), old(subqueries), backends, subqueries)
    {
      hide Quiet, GatherOk, AnswersOk, SendsOk, QueueOk, AbsentOk, FlagsOk, CompleteOk, ArrayPrefix, Position, Full,
           AllWhole, Answer;
      assert sent + inflight == ArrayPrefix(|eps|);
      clientWriting := false;
      sent, inflight := sent + inflight, [];
      assert sent + inflight == sent;
      replyPrefix := [];
      NextBackendStartReply(space);
    }

    method BackendWritten(space: bool)
      requires Base(None) && !aborted && !rotated && clientWriting && replyPrefix == [] && locks == |holding|
      requires ReachOk(backends, holding)
      modifies this`backends, this`subqueries, this`queue, this`d, this`replying,
               this`isWriting, this`clientWriting, this`inflight, this`sent, this`rotated, this`starved
      ensures Valid() && sent == old(sent) + old(inflight)
      ensures (old(starved) ==> starved) && (starved ==> old(starved) || !space)
      ensures rotated ==> sent == Answer(ans, |ans|)
      ensures Quiet(None, old(backends), old(subqueries), backends, subqueries)
    {
      hide Quiet, GatherOk, AnswersOk, SendsOk, QueueOk, AbsentOk, FlagsOk, CompleteOk, ArrayPrefix, Position, Full,
           AllWhole, Answer,
           ReachOk, Watched;
      WhoReplies(queue, backends, replying, isWriting, holding);
      var b := replying.value;
      GatherAt(eps, ans, d, backends, replying, Out(), b);
      WrittenFlags(queue, backends, b, holding);
      clientWriting := false;
      sent, inflight := sent + inflight, [];
      assert sent + inflight == sent;
      isWriting := false;
      if backends[b].ParsedUnreceived() == 0 {
        if queue[0].count == 0 {
          QueuePop(queue, eps, d);
          queue := queue[1..];
        }
        RotateReplyingBackend(b, space);
      } else {
        ReadRest(b, space);
      }
    }

    // The bulk being answered has not been received entirely.
    method ReadRest(b: Endpoint, space: bool)
      requires Base(None) && !aborted && !isWriting && !clientWriting && replyPrefix == []
      requires replying == Some(b) && b in backends && !backends[b].reading && queue != [] && queue[0].ep == b
      requires backends[b].Unprocessed() == 0 && backends[b].ParsedUnreceived() > 0 && ReachOk(backends, holding)
      modifies this`backends, this`starved
      ensures Base(None) && Attentive() && ReachOk(backends, holding)
      ensures (old(starved) ==> starved) && (starved ==> old(starved) || !space)
      ensures Quiet(None, old(backends), old(subqueries), backends, subqueries)
    {
      hide Quiet, GatherOk, AnswersOk, SendsOk, QueueOk, AbsentOk, FlagsOk, CompleteOk, ArrayPrefix, Position, Full,
           AllWhole, Answer;
      GatherAt(eps, ans, d, backends, replying, Out(), b);
      PositionZero(eps, ans, b, d);
      NoticeFlags(queue, backends, replying, isWriting, holding, subqueries, b);
      Paired(keys, eps, subqueries, backends, holding, b);
      if queue[0].count > 0 {
        QueueFront(queue, eps, d);
      }
      NoneIn(eps, ans, d, b, backends[b]);
      QuietSet(None, backends, subqueries, b, backends[b].(reading := !backends[b].complete && space));
      ReachRelease(backends, holding, b);
      ReachSet(backends, holding, b, backends[b].(reading := !backends[b].complete && space));
      TryReadMoreReply(b, space);
    }

    method RotateReplyingBackend(ghost b: Endpoint, space: bool)
      requires !aborted && !rotated && Base(None) && !isWriting && replyPrefix == []
      requires replying == Some(b) && b in backends && !backends[b].reading
      requires backends[b].processed == backends[b].parsed
      requires locks == |holding| && ReachOk(backends, holding)
      modifies this`backends, this`subqueries, this`queue, this`d, this`replying,
               this`isWriting, this`clientWriting, this`inflight, this`rotated, this`starved
      ensures Valid()
      ensures (old(starved) ==> starved) && (starved ==> old(starved) || !space)
      ensures rotated ==> sent == Answer(ans, |ans|)
      ensures Quiet(None, old(backends), old(subqueries), backends, subqueries)
    {
      hide Quiet, GatherOk, AnswersOk, SendsOk, QueueOk, AbsentOk, FlagsOk, CompleteOk, ArrayPrefix, Position, Full,
           AllWhole, Answer;
      QuietSelf(backends, subqueries);
      if queue == [] {
        AllAnswered(eps, ans, d, backends, b, queue, sent + inflight);
        SameLength(eps, want, ans, backends);
        assert sent + inflight == sent;
        rotated := true;
      } else {
        NextBackendStartReply(space);
      }
    }

    // ---------- backend events ----------

    // A read of backend b completed with a piece of its reply.
    method OnBackendReplyReceived(b: Endpoint, chunk: Bytes, space: bool)
      requires Valid() && !aborted && !rotated && b in backends && backends[b].reading
      requires chunk != [] && |eps| == |ans| && backends[b].stream + chunk <= Full(eps, ans, b)
      modifies this`backends, this`subqueries, this`queue, this`d, this`replying,
               this`isWriting, this`clientWriting, this`inflight, this`starved
      ensures Valid() && queue != []
      ensures Brings(old(Seen()), Seen(), b, old(backends)[b].stream + chunk, space)
      ensures (old(starved) ==> starved) && (starved ==> old(starved) || !space)
    {
      hide Quiet, GatherOk, AnswersOk, SendsOk, QueueOk, AbsentOk, FlagsOk, CompleteOk, ArrayPrefix, Position, Full,
           AllWhole, ReachOk, ReachBut, Brings, Watched;
      var k := backends[b].(reading := false, stream := backends[b].stream + chunk);
      GatherAt(eps, ans, d, backends, replying, Out(), b);
      Received(eps, ans, d, backends, replying, Out(), b, k);
      KeepAnswers(eps, want, ans, backends, b, k);
      ReceiveFlags(queue, backends, replying, isWriting, holding, b, k);
      ReceiveSends(keys, eps, subqueries, backends, holding, b, k);
      ReceiveComplete(subqueries, backends, b, k);
      Paired(keys, eps, subqueries, backends, holding, b);
      ReachRelease(backends, holding, b);
      ReachSet(backends, holding, b, k);
      if queue[0].ep != b && first && replyPrefix == [] && !isWriting {
        StillWatched(queue, backends, holding, starved, b, k);
      }
      backends := backends[b := k];
      BackendReadyToReply(b, space);
      ItBrings(old(Seen()), Seen(), b, k, space);
    }

    // A read of backend b failed: fatal for the replying backend, nils otherwise.
    method OnBackendReadError(b: Endpoint, space: bool)
      requires Valid() && !aborted && !rotated && b in backends && backends[b].reading
      modifies this`backends, this`subqueries, this`queue, this`d, this`replying,
               this`isWriting, this`clientWriting, this`inflight, this`aborted, this`ans, this`starved
      ensures Valid()
      ensures |eps| == |want| && Next(eps, want, old(Seen()), ReplyError(b, space), Seen())
    {
      hide Quiet, GatherOk, AnswersOk, SendsOk, QueueOk, AbsentOk, FlagsOk, CompleteOk, ArrayPrefix, Position, Full,
           AllWhole;
      BaseIsSound(None);
      if replying == Some(b) {
        aborted := true;
        return;
      }
      Paired(keys, eps, subqueries, backends, holding, b);
      UnreadIsFree(queue, backends, replying, isWriting, holding, b);
      OnBackendRecoverableError(b, space);
    }

    method OnBackendRecoverableError(b: Endpoint, space: bool)
      requires Base(None) && !aborted && !rotated && Turn(b)
      requires b in backends && b in subqueries && b !in holding && replying != Some(b)
      requires backends[b].stream == [] && !backends[b].failed && ReachBut(backends, holding, b)
      modifies this`backends, this`subqueries, this`queue, this`d, this`replying,
               this`isWriting, this`clientWriting, this`inflight, this`ans, this`starved
      ensures Base(None) && queue != [] && Broken(b) && Attentive() && ReachOk(backends, holding)
      ensures Fails(old(Seen()), Seen(), b)
      ensures (old(starved) ==> starved) && (starved ==> old(starved) || !space)
      ensures Quiet(Some(b), old(backends), old(subqueries), backends, subqueries)
      ensures |eps| == |old(ans)| && ans == Without(eps, old(ans), b)
    {
      hide Quiet, Base, Attentive, Without, HasNews, ReachOk, ReachBut, Fails;
      MarkFailed(b);
      ghost var bs, subs := backends, subqueries;
      BackendReadyToReply(b, space);
      QuietAt(None, bs, subs, backends, subqueries, b);
      ItFails(old(Seen()), Seen(), b, bs[b]);
      QuietThen(Some(b), old(backends), old(subqueries), bs, subs, backends, subqueries);
    }

    // The reply of b becomes the nils of its keys.
    method MarkFailed(b: Endpoint)
      requires Base(None) && !aborted && !rotated && Turn(b)
      requires b in backends && b in subqueries && b !in holding && replying != Some(b)
      requires backends[b].stream == [] && !backends[b].failed && ReachBut(backends, holding, b)
      modifies this`backends, this`ans
      ensures Base(Some(b)) && HasNews(b) && Broken(b) && Turn(b) && ReachOk(backends, holding)
      ensures b in backends && backends == old(backends)[b := backends[b]]
      ensures Quiet(Some(b), old(backends), old(subqueries), backends, subqueries)
      ensures |eps| == |old(ans)| && ans == Without(eps, old(ans), b)
    {
      hide Quiet, GatherOk, AnswersOk, SendsOk, QueueOk, AbsentOk, FlagsOk, CompleteOk, ArrayPrefix, Position, Full,
           AllWhole, Announced, ReachOk, ReachBut, Watched, InReach;
      ExpectedAt(subqueries, eps, d, b);
      KeyCountAt(subqueries, eps, d, b);
      var body := ErrorReplyBody(subqueries[b].keyCount);
      var k := Backend(body, 0, 0, false, true, backends[b].complete);
      GatherAt(eps, ans, d, backends, replying, Out(), b);
      PositionZero(eps, ans, b, d);
      Failed(eps, ans, d, backends, replying, Out(), b, k);
      FailAnswers(eps, want, ans, backends, b, k);
      FailFlags(queue, backends, replying, isWriting, holding, b, k);
      ReceiveSends(keys, eps, subqueries, backends, holding, b, k);
      ReceiveComplete(subqueries, backends, b, k);
      if queue[0].ep != b && first && replyPrefix == [] && !isWriting {
        FailAnnounced(queue, eps, ans, d, backends, b, k);
        StillWatched(queue, backends, holding, starved, b, k);
      }
      FailedInReach(k);
      QuietSet(Some(b), backends, subqueries, b, k);
      ReachSet(backends, holding, b, k);
      ans := Without(eps, ans, b);
      backends := backends[b := k];
    }

    // ---------- sending the subqueries ----------

    // A write to backend b completed.
    method OnWriteQueryFinished(b: Endpoint, ec: ErrorCode, space: bool)
      requires Valid() && !aborted && !rotated && b in holding
      modifies this`backends, this`subqueries, this`queue, this`d, this`replying, this`holding, this`locks,
               this`isWriting, this`clientWriting, this`inflight, this`aborted, this`ans, this`starved
      ensures Valid()
      ensures b !in holding ==> holding == old(holding) - {b} && locks == old(locks) - 1
      ensures b in holding ==> holding == old(holding) && locks == old(locks)
      ensures aborted <==> ec.OtherError?
      ensures |eps| == |want| && Next(eps, want, old(Seen()), QuerySent(b, ec, space), Seen())
    {
      hide Quiet, GatherOk, AnswersOk, SendsOk, QueueOk, AbsentOk, FlagsOk, CompleteOk, ArrayPrefix, Position, Full,
           AllWhole, SendOk;
      if !ec.Success? {
        if ec.ConnectError? {
          ConnectFailed(b, space);
        } else {
          BaseIsSound(None);
          aborted := true;
        }
        return;
      }
      SendMore(b);
    }

    method ConnectFailed(b: Endpoint, space: bool)
      requires Base(None) && !aborted && !rotated && queue != [] && Attentive() && b in holding && locks == |holding|
      requires ReachOk(backends, holding)
      modifies this`backends, this`subqueries, this`queue, this`d, this`replying, this`holding, this`locks,
               this`isWriting, this`clientWriting, this`inflight, this`ans, this`starved
      ensures Base(None) && queue != [] && Attentive() && locks == |holding| && Broken(b) && ReachOk(backends, holding)
      ensures Fails(old(Seen()), Seen(), b)
      ensures (old(starved) ==> starved) && (starved ==> old(starved) || !space)
      ensures Quiet(Some(b), old(backends), old(subqueries), backends, subqueries)
      ensures holding == old(holding) - {b} && locks == old(locks) - 1
    {
      hide Base, Attentive, Turn, ReachOk, ReachBut, Fails, Quiet;
      Unhold(b);
      ghost var released := Seen();
      OnBackendRecoverableError(b, space);
      FailsReleased(old(Seen()), released, Seen(), b);
      DecRecycleLock();
    }

    // The write to b has ended.
    method Unhold(b: Endpoint)
      requires Base(None) && queue != [] && Attentive() && b in holding && ReachOk(backends, holding)
      modifies this`holding
      ensures Base(None) && Turn(b) && ReachBut(backends, holding, b) && holding == old(holding) - {b}
      ensures |old(holding)| == |holding| + 1
      ensures b in backends && b in subqueries && replying != Some(b) && backends[b].stream == [] && !backends[b].failed
    {
      hide GatherOk, AnswersOk, SendsOk, QueueOk, AbsentOk, FlagsOk, CompleteOk, ArrayPrefix, Position, Full, AllWhole,
           SendOk, ReachOk, ReachBut, Watched, Announced;
      ReleaseOk(keys, eps, subqueries, backends, queue, replying, isWriting, holding, b);
      ReachRelease(backends, holding, b);
      if queue[0].ep != b && first && replyPrefix == [] && !isWriting {
        StillWatched(queue, backends, holding, starved, b, backends[b]);
      }
      holding := holding - {b};
    }

    method DecRecycleLock()
      requires Base(None) && Attentive() && locks > 0  // the source asserts it
      modifies this`locks
      ensures Base(None) && Attentive() && locks == old(locks) - 1
    {
      hide GatherOk, AnswersOk, SendsOk, QueueOk, AbsentOk, FlagsOk, CompleteOk, ArrayPrefix, Position, Full, AllWhole,
           SendOk;
      locks := locks - 1;
    }

    method SendMore(b: Endpoint)
      requires Base(None) && Attentive() && locks == |holding| && b in holding && ReachOk(backends, holding)
      modifies this`subqueries, this`holding, this`locks, this`backends
      ensures Base(None) && Attentive() && locks == |holding| && ReachOk(backends, holding)
      ensures SentOne(old(Seen()), Seen(), b)
      ensures b !in holding ==> holding == old(holding) - {b} && locks == old(locks) - 1
      ensures b in holding ==> holding == old(holding) && locks == old(locks)
    {
      hide GatherOk, AnswersOk, SendsOk, QueueOk, AbsentOk, FlagsOk, CompleteOk, ArrayPrefix, Position, Full, AllWhole,
           SendOk;
      ReleaseOk(keys, eps, subqueries, backends, queue, replying, isWriting, holding, b);
      HasSegments(keys, eps, b, subqueries[b].segments, subqueries[b].wire);
      if |subqueries[b].segments| > 1 {
        SendSegment(b);
      } else {
        QueryDone(b);
      }
    }

    method SendSegment(b: Endpoint)
      requires Base(None) && Attentive() && b in holding && b in subqueries && |subqueries[b].segments| > 1
      modifies this`subqueries
      ensures Base(None) && Attentive() && b in subqueries
      ensures subqueries == old(subqueries)[b := subqueries[b]]
      ensures subqueries[b].segments == old(subqueries)[b].segments[1..]
    {
      hide GatherOk, AnswersOk, SendsOk, QueueOk, AbsentOk, FlagsOk, CompleteOk, ArrayPrefix, Position, Full, AllWhole,
           SendOk;
      ReleaseOk(keys, eps, subqueries, backends, queue, replying, isWriting, holding, b);
      var q := subqueries[b];
      SendNext(keys, eps, b, q.segments, q.wire);
      var left := q.segments[1..];
      var q' := q.(segments := left, wire := q.wire + Concat(keys)[left[0].start..left[0].start + left[0].size]);
      SendsNext(keys, eps, subqueries, backends, holding, b, q');
      KeepAbsent(subqueries, eps, d, b, q');
      SubComplete(subqueries, backends, b, q');
      subqueries := subqueries[b := q'];
    }

    // The last segment is written: the lock is released and the reply is read.
    method QueryDone(b: Endpoint)
      requires Base(None) && Attentive() && locks == |holding| && b in holding && b in subqueries
      requires |subqueries[b].segments| == 1 && ReachOk(backends, holding)
      modifies this`subqueries, this`holding, this`locks, this`backends
      ensures ReachOk(backends, holding)
      ensures Base(None) && Attentive() && locks == |holding| == old(locks) - 1 && holding == old(holding) - {b}
      ensures b in old(backends) && backends == old(backends)[b := old(backends)[b].(reading := true)]
      ensures subqueries == old(subqueries)[b := old(subqueries)[b].(segments := [])]
    {
      hide GatherOk, AnswersOk, SendsOk, QueueOk, AbsentOk, FlagsOk, CompleteOk, ArrayPrefix, Position, Full, AllWhole,
           SendOk;
      ReleaseOk(keys, eps, subqueries, backends, queue, replying, isWriting, holding, b);
      var q := subqueries[b];
      SendNext(keys, eps, b, q.segments, q.wire);
      assert q.segments[1..] == [];
      var q' := q.(segments := []);
      SendsNext(keys, eps, subqueries, backends, holding - {b}, b, q');
      KeepAbsent(subqueries, eps, d, b, q');
      SubComplete(subqueries, backends, b, q');
      ReachRelease(backends, holding, b);
      subqueries := subqueries[b := q'];
      holding := holding - {b};
      locks := locks - 1;
      ReadReply(b);
    }

    method ReadReply(b: Endpoint)
      requires Base(None) && b in backends && b in subqueries && b !in holding && replying != Some(b)
      requires backends[b].stream == [] && backends[b].parsed == 0 && !backends[b].failed
      requires subqueries[b].segments == [] && ReachBut(backends, holding, b)
      requires first && replyPrefix == [] && !isWriting && queue != [] ==>
                 !MoreIn(queue[0].ep) && (queue[0].ep == b || Watched(queue, backends, holding, starved))
      modifies this`backends
      ensures Base(None) && Attentive() && ReachOk(backends, holding)
      ensures backends == old(backends)[b := old(backends)[b].(reading := true)]
    {
      hide GatherOk, AnswersOk, SendsOk, QueueOk, AbsentOk, FlagsOk, CompleteOk, ArrayPrefix, Position, Full, AllWhole,
           SendOk;
      var k := backends[b].(reading := true);
      StartReading(keys, eps, subqueries, backends, queue, replying, isWriting, holding, b);
      GatherAt(eps, ans, d, backends, replying, Out(), b);
      Received(eps, ans, d, backends, replying, Out(), b, k);
      KeepAnswers(eps, want, ans, backends, b, k);
      ReachSet(backends, holding, b, k);
      backends := backends[b := k];
    }

    // The command reaches the front of the pipeline.
    method StartWriteReply()
      requires Valid() && !aborted && !rotated && !first
      modifies this`first, this`clientWriting, this`inflight
      ensures Valid() && first && clientWriting
      ensures |eps| == |want| && Next(eps, want, old(Seen()), BecomesFirst, Seen())
    {
      hide GatherOk, AnswersOk, SendsOk, QueueOk, AbsentOk, FlagsOk, CompleteOk, ArrayPrefix;
      first := true;
      assert !clientWriting;  // the assertion in WriteReply
      clientWriting := true;
      inflight := replyPrefix;
    }

    // Construction and StartWriteQuery: every subquery's prefix is being written.
    constructor (keys: seq<Bytes>, locate: Bytes -> Endpoint, lookup: (Endpoint, Bytes) -> Reply, isFirst: bool)
      requires keys != [] && AllWhole(keys)
      ensures Valid() && !aborted && !rotated && first == isFirst && sent == []
      ensures Starts(keys, eps, isFirst, Seen())
      ensures this.keys == keys && eps == Located(keys, locate) && want == Stored(keys, locate, lookup)
    {
      hide GatherOk, AnswersOk, SendsOk, QueueOk, AbsentOk, FlagsOk, CompleteOk, ArrayPrefix, SharesOk, AllWhole,
           OnePerEndpoint, ReachOk, Watched;
      StoredWhole(keys, locate, lookup);
      this.keys := keys;
      var eps := Located(keys, locate);
      var want := Stored(keys, locate, lookup);
      var started, conns, queue, locks := StartAll(keys, eps, want);
      this.eps, this.want := eps, want;
      this.queue, this.locks := queue, locks;
      subqueries, backends := started, conns;
      holding := started.Keys;
      replyPrefix := ArrayPrefix(|keys|);
      replying, isWriting := None, false;
      first, clientWriting := isFirst, isFirst;
      inflight := if isFirst then ArrayPrefix(|keys|) else [];
      sent, starved, aborted, rotated := [], false, false, false;
      ans, d := want, 0;
    }

    // ---------- whole runs ----------

    // The next bytes of b's reply arrive.
    method ReadMore(b: Endpoint, size: nat, space: bool)
      requires Valid() && !aborted && !rotated && |eps| == |want| && CanRead(eps, want, Seen(), b, size)
      modifies this`backends, this`subqueries, this`queue, this`d, this`replying,
               this`isWriting, this`clientWriting, this`inflight, this`starved
      ensures Valid() && !rotated
      ensures Next(eps, want, old(Seen()), ReplyRead(b, size, space), Seen())
    {
      hide Quiet, GatherOk, AnswersOk, SendsOk, QueueOk, AbsentOk, FlagsOk, CompleteOk, ArrayPrefix, Position, Full,
           AllWhole, Answer;
      SameLength(eps, want, ans, backends);
      var have := backends[b].stream;
      var all := Full(eps, want, b);
      GatherAt(eps, ans, d, backends, replying, Out(), b);
      TrueReply(eps, want, ans, backends, b);
      assert have + all[|have|..|have| + size] == all[..|have| + size];
      OnBackendReplyReceived(b, all[|have|..|have| + size], space);
    }

    // One completion, if it is one that can happen now.
    method Step(e: Event)
      requires Valid() && |eps| == |want| && (rotated ==> !aborted && sent == Answer(ans, |ans|))
      modifies this
      ensures Valid()
      ensures rotated ==> !aborted && sent == Answer(ans, |ans|)
      ensures |eps| == |want| && Next(eps, want, old(Seen()), e, Seen())
    {
      hide Quiet, Fails, GatherOk, AnswersOk, SendsOk, QueueOk, AbsentOk, FlagsOk, CompleteOk, ArrayPrefix, Position,
           Full, AllWhole, Answer;
      if aborted || rotated {
        return;
      }
      match e {
        case QuerySent(b, ec, space) =>
          if b in holding {
            OnWriteQueryFinished(b, ec, space);
          }
        case ReplyRead(b, size, space) =>
          if b in backends && backends[b].reading && 0 < size && |backends[b].stream| + size <= |Full(eps, want, b)| {
            ReadMore(b, size, space);
          }
        case ReplyError(b, space) =>
          if b in backends && backends[b].reading {
            OnBackendReadError(b, space);
          }
        case ReplyWritten(ec, space) =>
          if clientWriting {
            OnWriteReplyFinished(ec, space);
          }
        case BecomesFirst =>
          if !first {
            StartWriteReply();
          }
      }
    }

    // The bookkeeping the parser relies on: once an endpoint has started, the
    // bulks it still expects are exactly its replies left in the queue, so its
    // array header is not parsed again before they are all there.
    lemma ParserBookkeeping(b: Endpoint)
      requires Valid() && !aborted && b in subqueries
      ensures b in backends
      ensures backends[b].parsed > 0 ==> subqueries[b].absent == InRuns(queue, b)
      ensures backends[b].parsed == 0 ==> subqueries[b].absent == 0 && InRuns(queue, b) == multiset(eps)[b]
    {
      hide GatherOk, AnswersOk, SendsOk, QueueOk, AbsentOk, FlagsOk, CompleteOk, ArrayPrefix, Full, AllWhole, Position;
      Paired(keys, eps, subqueries, backends, holding, b);
      GatherAt(eps, ans, d, backends, replying, Out(), b);
      PositionZero(eps, ans, b, d);
      RunsLeft(subqueries, queue, eps, d, b);
    }

    // When the command hands over to the next one, every lock it took on the
    // client buffer is released and every backend that answered was sent its
    // whole query and has sent its whole reply.
    lemma NothingLeft(b: Endpoint)
      requires Valid() && !aborted && rotated && b in backends
      ensures locks == 0
      ensures b in subqueries
      ensures !backends[b].failed ==>
                && backends[b].complete && !backends[b].reading
                && subqueries[b].wire == MgetQuery(Select(eps, keys, b))
    {
      hide GatherOk, AnswersOk, QueueOk, AbsentOk, FlagsOk, ArrayPrefix, Full, AllWhole, Position, Concat, SegmentText,
           MgetQuery;
      forall c | c in backends
        ensures c !in holding && (!backends[c].failed ==> backends[c].stream != [] && backends[c].complete)
      {
        EndOf(c);
      }
      HoldingKnown(queue, backends, replying, isWriting, holding);
      assert holding == {};
      GatherAt(eps, ans, d, backends, replying, Out(), b);
    }

    // The command is done as soon as the client has the whole answer.
    lemma NotDoneYet()
      requires Valid() && !aborted && !rotated
      ensures sent != Answer(ans, |ans|)
    {
      hide GatherOk, AnswersOk, SendsOk, QueueOk, AbsentOk, FlagsOk, CompleteOk, Answer, ArrayPrefix, Position, Full,
           AllWhole;
      if replyPrefix != [] {
        AnswerStarts(ans);
      } else {
        StillOwes(queue, eps, ans, d, backends, replying, isWriting, holding, sent + inflight);
      }
    }

    // What the invariant says about what can be seen.
    lemma SoundNow(locate: Bytes -> Endpoint, lookup: (Endpoint, Bytes) -> Reply)
      requires Valid() && AllWhole(keys) && eps == Located(keys, locate) && want == Stored(keys, locate, lookup)
      requires rotated ==> !aborted && sent == Answer(ans, |ans|)
      ensures Gathers(keys, locate, lookup, Seen()) && Booked(eps, Seen()) && WritesOn(eps, want, Seen())
      ensures Waits(eps, Seen())
    {
      hide Waits, Attentive, ReachOk, Base, Booked, AnswersOk, AllWhole, Answer, InOrder, MgetQuery, Select,
           WholeBulk, ArrayPrefix, WritesOn;
      if !aborted {
        BaseIsSound(None);
        WritesOnNow();
        BookedNow();
      } else {
        assert WritesOn(eps, want, Seen()) by { NotWhenAborted(eps, want, Seen()); }
        BookedNow();
      }
      InOrderIsAnswer(keys, locate, lookup, backends, ans, Broke(backends));
      WaitsNow();
      if !aborted && !rotated {
        NotDoneYet();
      }
      forall b | b in subqueries ensures OwnQuery(keys, eps, b, subqueries[b].wire, rotated && b !in Broke(backends)) {
        if rotated && b !in Broke(backends) {
          SubHasBackend(b);
          NothingLeft(b);
        }
      }
    }

    lemma BookedNow()
      requires Valid()
      ensures Booked(eps, Seen())
    {
      hide Base, Sound, Attentive;
      if !aborted {
        forall b | b in subqueries
          ensures && b in backends && subqueries[b].absent == (if backends[b].parsed > 0 then InRuns(queue, b) else 0)
                  && (backends[b].parsed == 0 ==> InRuns(queue, b) == multiset(eps)[b])
        {
          ParserBookkeeping(b);
        }
      }
    }

    lemma WaitsNow()
      requires Valid() && |eps| == |want|
      ensures Waits(eps, Seen())
    {
      hide GatherOk, AnswersOk, SendsOk, QueueOk, AbsentOk, CompleteOk, ArrayPrefix, Position, Full, AllWhole, ReachOk,
           Announced;
      if !aborted && !rotated && first && !clientWriting {
        var f := queue[0].ep;
        ReachAt(backends, holding, f);
        if AtBulkEnd(backends[f]) {
          TwoKeys();
        }
      }
    }

    // A reply of which some has been parsed, and more is to be.
    lemma TwoKeys()
      requires Base(None) && queue != [] && !isWriting && queue[0].ep in backends && AtBulkEnd(backends[queue[0].ep])
      ensures multiset(eps)[queue[0].ep] >= 2
    {
      hide AnswersOk, SendsOk, AbsentOk, CompleteOk, ArrayPrefix, Position, Full, AllWhole, GatherOk, QueueOk;
      var f := queue[0].ep;
      GatherAt(eps, ans, d, backends, replying, Out(), f);
      PositionZero(eps, ans, f, d);
      QueueFront(queue, eps, d);
      assert eps == eps[..d] + eps[d..];
      assert eps[d..][0] == f;
    }

    lemma WritesOnNow()
      requires Base(None) && Attentive() && |eps| == |want|
      ensures WritesOn(eps, want, Seen())
    {
      hide GatherOk, SendsOk, QueueOk, AbsentOk, FlagsOk, CompleteOk, ArrayPrefix, HeaderIn;
      KeysLeft(queue, eps, d);
      if queue != [] {
        FrontKnown(eps, want, ans, backends, queue, d);
      }
      assert ans == Answers(eps, want, Broke(backends));
    }

    lemma SubHasBackend(b: Endpoint)
      requires Base(None) && b in subqueries
      ensures b in backends
    {
      hide GatherOk, AnswersOk, QueueOk, AbsentOk, FlagsOk, CompleteOk, SendsOk;
      Paired(keys, eps, subqueries, backends, holding, b);
    }

    lemma EndOf(b: Endpoint)
      requires Valid() && !aborted && rotated && b in backends
      ensures b !in holding && backends[b].stream != [] && backends[b].complete
    {
      hide GatherOk, AnswersOk, QueueOk, ArrayPrefix, Full, AllWhole, Position, Concat, SendOk;
      GatherAt(eps, ans, d, backends, replying, Out(), b);
      Paired(keys, eps, subqueries, backends, holding, b);
      QueueEmpty(queue, eps, d);
      KeyCountAt(subqueries, eps, d, b);
      assert eps[..d] == eps;
      PositionZero(eps, ans, b, d);
    }
  }

  // The answer to a lookup of the keys one by one, in query order, where a
  // failed endpoint finds nothing.
  function InOrder(keys: seq<Bytes>, locate: Bytes -> Endpoint, lookup: (Endpoint, Bytes) -> Reply,
                   failed: set<Endpoint>): Bytes
    requires AllWhole(keys)
  {
    EncodeArray(seq(|keys|, i requires 0 <= i < |keys| =>
      var ep := locate(Payload(keys[i]));
      EncodeBulk(if ep in failed then Nil else lookup(ep, Payload(keys[i])))))
  }

  lemma InOrderIsAnswer(keys: seq<Bytes>, locate: Bytes -> Endpoint, lookup: (Endpoint, Bytes) -> Reply,
                        backends: map<Endpoint, Backend>, ans: seq<Bytes>, failed: set<Endpoint>)
    requires AllWhole(keys)
    requires AnswersOk(Located(keys, locate), Stored(keys, locate, lookup), ans, backends)
    requires failed == set b | b in backends && backends[b].failed
    ensures Answer(ans, |ans|) == InOrder(keys, locate, lookup, failed)
  {
    hide ArrayPrefix, Concat, Payload;
    assert EncodeBulk(Nil) == NIL_BULK;
    var all := seq(|keys|, i requires 0 <= i < |keys| =>
      var ep := locate(Payload(keys[i]));
      EncodeBulk(if ep in failed then Nil else lookup(ep, Payload(keys[i]))));
    forall i | 0 <= i < |keys| ensures ans[i] == all[i] {
      var ep := locate(Payload(keys[i]));
      assert Located(keys, locate)[i] == ep;
    }
    assert ans == all;
    assert ans[..|ans|] == ans;
  }

  // The client has a prefix of the in-order answer, all of it if and only if the
  // command is done, and every backend has been sent a prefix of one mget over exactly
  // its keys, all of it when the command is done and the backend has not failed.
  ghost predicate Gathers(keys: seq<Bytes>, locate: Bytes -> Endpoint, lookup: (Endpoint, Bytes) -> Reply, v: Snapshot)
    requires AllWhole(keys)
  {
    var broke := Broke(v.backends);
    && v.sent <= InOrder(keys, locate, lookup, broke)
    && (v.rotated ==> v.sent == InOrder(keys, locate, lookup, broke))
    && (v.sent == InOrder(keys, locate, lookup, broke) ==> v.rotated || v.aborted)
    && (forall b :: b in v.subqueries ==>
          OwnQuery(keys, Located(keys, locate), b, v.subqueries[b].wire, v.rotated && b !in broke))
  }

  predicate OwnQuery(keys: seq<Bytes>, eps: seq<Endpoint>, b: Endpoint, wire: Bytes, all: bool)
    requires |keys| == |eps|
  {
    var query := MgetQuery(Select(eps, keys, b));
    wire <= query && (all ==> wire == query)
  }

  // The bookkeeping the parser relies on: once an endpoint has started, the bulks
  // it still expects are exactly its replies left in the queue, so its array
  // header is not parsed again before they are all there.
  ghost predicate Booked(eps: seq<Endpoint>, v: Snapshot) {
    forall b :: b in v.subqueries && !v.aborted ==>
      && b in v.backends
      && v.subqueries[b].absent == (if v.backends[b].parsed > 0 then InRuns(v.queue, b) else 0)
      && (v.backends[b].parsed == 0 ==> InRuns(v.queue, b) == multiset(eps)[b])
  }

  // The above, with one subquery for each endpoint, and writing on whenever the
  // next answer is there.
  ghost predicate KeepsOrder(keys: seq<Bytes>, locate: Bytes -> Endpoint, lookup: (Endpoint, Bytes) -> Reply,
                             v: Snapshot)
    requires AllWhole(keys)
  {
    var eps := Located(keys, locate);
    && v.backends.Keys == v.subqueries.Keys && (forall b :: b in v.backends.Keys <==> b in eps)
    && Gathers(keys, locate, lookup, v) && Booked(eps, v) && WritesOn(eps, Stored(keys, locate, lookup), v)
    && Waits(eps, v)
  }

  // MGET refines in-order lookup: for any schedule of completions, with any
  // chunking of the replies and any failures, every state of the run has sent
  // the client a prefix of the in-order answer, in which an endpoint answers
  // nil only after one of its operations failed; all of it once the command is
  // done; no backend was sent anything but its own query; and whenever the
  // next answer can be written a client write is outstanding.
  method Serve(keys: seq<Bytes>, locate: Bytes -> Endpoint, lookup: (Endpoint, Bytes) -> Reply,
               isFirst: bool, schedule: seq<Event>)
    returns (run: seq<Snapshot>)
    requires keys != [] && AllWhole(keys)
    ensures IsRun(Located(keys, locate), Stored(keys, locate, lookup), schedule, run)
    ensures Starts(keys, Located(keys, locate), isFirst, run[0])
    ensures forall i :: 0 <= i < |run| ==> KeepsOrder(keys, locate, lookup, run[i])
    ensures forall i, b :: 0 <= i < |run| && b in Broke(run[i].backends) ==> Blamed(schedule, i, b)
    ensures forall i :: 0 <= i < |run| && Stopped(run[i]) ==>
              || (exists k :: 0 <= k < i && Refuses(schedule[k]))
              || StopsWhere(Located(keys, locate), run[i])
  {
    hide StopsWhere, Blamed, Broke, MgetCommand.Valid, AllWhole, Next, Starts, Gathers, Booked, WritesOn, KeepsOrder,
         Located, Stored, Answer, Waits, Stopped;
    var c := new MgetCommand(keys, locate, lookup, isFirst);
    run := [c.Seen()];
    c.SoundNow(locate, lookup);
    FirstSound(keys, locate, lookup, isFirst, run[0]);
    for i := 0 to |schedule|
      invariant fresh(c) && c.Valid()
      invariant c.keys == keys && c.eps == Located(keys, locate) && c.want == Stored(keys, locate, lookup)
      invariant c.rotated ==> !c.aborted && c.sent == Answer(c.ans, |c.ans|)
      invariant |run| == i + 1 && run[i] == c.Seen()
      invariant SoundSoFar(keys, locate, lookup, isFirst, schedule, run)
    {
      c.Step(schedule[i]);
      c.SoundNow(locate, lookup);
      SoundOn(keys, locate, lookup, isFirst, schedule, run, c.Seen());
      run := run + [c.Seen()];
    }
    AllBlamed(keys, c.eps, c.want, isFirst, schedule, run);
    AllStops(keys, locate, lookup, isFirst, schedule, run);
  }

  // Two keys of one endpoint, and a reply that was cut between their answers.
  ghost predicate StopsWhere(eps: seq<Endpoint>, v: Snapshot)
    requires Stopped(v)
  {
    AtBulkEnd(v.backends[v.queue[0].ep]) && multiset(eps)[v.queue[0].ep] >= 2
  }

  lemma AllStops(keys: seq<Bytes>, locate: Bytes -> Endpoint, lookup: (Endpoint, Bytes) -> Reply, isFirst: bool,
                 schedule: seq<Event>, run: seq<Snapshot>)
    requires AllWhole(keys) && IsRun(Located(keys, locate), Stored(keys, locate, lookup), schedule, run)
    requires Starts(keys, Located(keys, locate), isFirst, run[0])
    requires forall i :: 0 <= i < |run| ==> KeepsOrder(keys, locate, lookup, run[i])
    ensures forall i :: 0 <= i < |run| && Stopped(run[i]) ==>
              || (exists k :: 0 <= k < i && Refuses(schedule[k]))
              || StopsWhere(Located(keys, locate), run[i])
  {
    hide AllWhole, Gathers, Booked, WritesOn, Located, Stored, Next, AtBulkEnd;
    forall i | 0 <= i < |run| && Stopped(run[i])
      ensures (exists k :: 0 <= k < i && Refuses(schedule[k])) || StopsWhere(Located(keys, locate), run[i])
    {
      if run[i].starved {
        StarvedBecause(Located(keys, locate), Stored(keys, locate, lookup), schedule, run, i);
      }
    }
  }

  // The run up to some point of the schedule.
  ghost predicate SoundSoFar(keys: seq<Bytes>, locate: Bytes -> Endpoint, lookup: (Endpoint, Bytes) -> Reply,
                             isFirst: bool, schedule: seq<Event>, run: seq<Snapshot>)
    requires AllWhole(keys)
  {
    && 0 < |run| <= |schedule| + 1 && Starts(keys, Located(keys, locate), isFirst, run[0])
    && (forall j :: 0 <= j < |run| - 1 ==>
          Next(Located(keys, locate), Stored(keys, locate, lookup), run[j], schedule[j], run[j + 1]))
    && (forall j :: 0 <= j < |run| ==> KeepsOrder(keys, locate, lookup, run[j]))
  }

  lemma SoundOn(keys: seq<Bytes>, locate: Bytes -> Endpoint, lookup: (Endpoint, Bytes) -> Reply, isFirst: bool,
                schedule: seq<Event>, run: seq<Snapshot>, w: Snapshot)
    requires AllWhole(keys) && |run| <= |schedule| && SoundSoFar(keys, locate, lookup, isFirst, schedule, run)
    requires Next(Located(keys, locate), Stored(keys, locate, lookup), run[|run| - 1], schedule[|run| - 1], w)
    requires Gathers(keys, locate, lookup, w) && WritesOn(Located(keys, locate), Stored(keys, locate, lookup), w)
    requires Booked(Located(keys, locate), w) && Waits(Located(keys, locate), w)
    ensures SoundSoFar(keys, locate, lookup, isFirst, schedule, run + [w])
  {
    hide AllWhole, Gathers, Booked, Waits, WritesOn, Located, Stored, Next, KeepsOrder, Starts;
    AllSound(keys, locate, lookup, run[|run| - 1], schedule[|run| - 1], w);
  }

  lemma FirstSound(keys: seq<Bytes>, locate: Bytes -> Endpoint, lookup: (Endpoint, Bytes) -> Reply, isFirst: bool,
                   v: Snapshot)
    requires AllWhole(keys) && Starts(keys, Located(keys, locate), isFirst, v) && Gathers(keys, locate, lookup, v)
    requires WritesOn(Located(keys, locate), Stored(keys, locate, lookup), v) && Booked(Located(keys, locate), v)
    requires Waits(Located(keys, locate), v)
    ensures KeepsOrder(keys, locate, lookup, v)
  {
    hide AllWhole, Gathers, Booked, Waits, WritesOn, Located, Stored;
  }

  lemma AllSound(keys: seq<Bytes>, locate: Bytes -> Endpoint, lookup: (Endpoint, Bytes) -> Reply, v: Snapshot, e: Event,
                 w: Snapshot)
    requires AllWhole(keys) && KeepsOrder(keys, locate, lookup, v) && Gathers(keys, locate, lookup, w)
    requires Next(Located(keys, locate), Stored(keys, locate, lookup), v, e, w)
    requires WritesOn(Located(keys, locate), Stored(keys, locate, lookup), w) && Booked(Located(keys, locate), w)
    requires Waits(Located(keys, locate), w)
    ensures KeepsOrder(keys, locate, lookup, w)
  {
    hide AllWhole, Gathers, Booked, Waits, WritesOn, Located, Stored, Next;
    SameKeys(Located(keys, locate), Stored(keys, locate, lookup), v, e, w);
  }

  lemma AllBlamed(keys: seq<Bytes>, eps: seq<Endpoint>, want: seq<Bytes>, isFirst: bool, schedule: seq<Event>,
                  run: seq<Snapshot>)
    requires |eps| == |want| && IsRun(eps, want, schedule, run) && Starts(keys, eps, isFirst, run[0])
    ensures forall i, b :: 0 <= i < |run| && b in Broke(run[i].backends) ==> Blamed(schedule, i, b)
  {
    hide Next;
    forall i, b | 0 <= i < |run| && b in Broke(run[i].backends) ensures Blamed(schedule, i, b) {
      assert b !in Broke(run[0].backends);
      BlameFor(eps, want, schedule, run, i, b);
    }
  }

  lemma SameKeys(eps: seq<Endpoint>, want: seq<Bytes>, v: Snapshot, e: Event, w: Snapshot)
    requires |eps| == |want| && Next(eps, want, v, e, w) && v.backends.Keys == v.subqueries.Keys
    ensures w.backends.Keys == w.subqueries.Keys == v.backends.Keys
  {
    hide Full, ArrayPrefix;
  }
}
