/**
 The gather side of MGET on values: where each backend's parser stands when the
 first d keys of the query have been answered, and how the bytes sent to the
 client relate to the in-order answer.
 */
module MgetGather {
  import opened Resp
  import opened Net
  import opened Scatter

  // The reply buffer of one backend connection, in stream positions: bytes
  // received, parsed (possibly ahead of received) and handed to the client.
  datatype Backend = Backend(
    stream: Bytes,
    parsed: nat,
    processed: nat,
    reading: bool,   // is_reading_reply_
    failed: bool,    // no_recycle_: the reply is a synthesised one
    complete: bool)  // reply_recv_complete_
  {
    function Unparsed(): nat {
      if |stream| > parsed then |stream| - parsed else 0
    }

    function ParsedUnreceived(): nat {
      if parsed > |stream| then parsed - |stream| else 0
    }

    function Unprocessed(): int {
      Min(|stream|, parsed) - processed
    }
  }

  // The reply of endpoint b: the array of the answers to its own keys.
  function Full(eps: seq<Endpoint>, ans: seq<Bytes>, b: Endpoint): (s: Bytes)
    requires |eps| == |ans|
    ensures s != []
  {
    EncodeArray(Select(eps, ans, b))
  }

  function CountLine(eps: seq<Endpoint>, ans: seq<Bytes>, b: Endpoint): (n: nat)
    requires |eps| == |ans|
    ensures n >= 4
  {
    |ArrayPrefix(|Select(eps, ans, b)|)|
  }

  // Parse position of b once the first d keys are answered.
  function Position(eps: seq<Endpoint>, ans: seq<Bytes>, b: Endpoint, d: nat): nat
    requires |eps| == |ans| && d <= |eps|
  {
    var mine := Select(eps[..d], ans[..d], b);
    if mine == [] then 0 else CountLine(eps, ans, b) + |Concat(mine)|
  }

  // Where the bulk of key d starts in the reply of its endpoint.
  function BulkStart(eps: seq<Endpoint>, ans: seq<Bytes>, d: nat): nat
    requires |eps| == |ans| && d < |eps|
  {
    var q := Position(eps, ans, eps[d], d);
    if q == 0 then CountLine(eps, ans, eps[d]) else q
  }

  // The client's answer up to key d.
  function Answer(ans: seq<Bytes>, d: nat): Bytes
    requires d <= |ans|
  {
    ArrayPrefix(|ans|) + Concat(ans[..d])
  }

  lemma AnswerNext(ans: seq<Bytes>, d: nat)
    requires d < |ans|
    ensures Answer(ans, d + 1) == Answer(ans, d) + ans[d]
  {
    hide ArrayPrefix;
    ConcatTake(ans, d);
  }

  lemma PositionZero(eps: seq<Endpoint>, ans: seq<Bytes>, b: Endpoint, d: nat)
    requires |eps| == |ans| && d <= |eps|
    ensures Position(eps, ans, b, d) == 0 <==> multiset(eps[..d])[b] == 0
    ensures Position(eps, ans, b, d) <= |Full(eps, ans, b)|
  {
    SelectCount(eps[..d], ans[..d], b);
    SelectTake(eps, ans, b, d);
    var mine, all := Select(eps[..d], ans[..d], b), Select(eps, ans, b);
    ConcatSplit(all, |mine|);
    assert all[..|mine|] == mine;
  }

  lemma PositionNext(eps: seq<Endpoint>, ans: seq<Bytes>, d: nat)
    requires |eps| == |ans| && d < |eps|
    ensures var b := eps[d];
            var from := BulkStart(eps, ans, d);
            && Position(eps, ans, b, d + 1) == from + |ans[d]|
            && from + |ans[d]| <= |Full(eps, ans, b)|
            && Full(eps, ans, b)[from..from + |ans[d]|] == ans[d]
  {
    var b := eps[d];
    var mine, all := Select(eps[..d], ans[..d], b), Select(eps, ans, b);
    SelectNext(eps, ans, b, d);
    SelectTake(eps, ans, b, d);
    SelectAt(eps, ans, d);
    ConcatSnoc(mine, ans[d]);
    ItemAt(all, |mine|);
    assert all[..|mine|] == mine;
    var h, o := CountLine(eps, ans, b), |Concat(mine)|;
    assert Full(eps, ans, b)[h + o..h + o + |ans[d]|] == Concat(all)[o..o + |ans[d]|];
  }

  // All keys of b answered: its reply is parsed to the end.
  lemma PositionEnd(eps: seq<Endpoint>, ans: seq<Bytes>, b: Endpoint, d: nat)
    requires |eps| == |ans| && d <= |eps|
    requires multiset(eps[..d])[b] == multiset(eps)[b] > 0
    ensures Position(eps, ans, b, d) == |Full(eps, ans, b)|
  {
    SelectTake(eps, ans, b, d);
    SelectCount(eps[..d], ans[..d], b);
    SelectCount(eps, ans, b);
    assert Select(eps[..d], ans[..d], b) == Select(eps, ans, b);
  }

  lemma PositionOther(eps: seq<Endpoint>, ans: seq<Bytes>, d: nat, b: Endpoint)
    requires |eps| == |ans| && d < |eps| && eps[d] != b
    ensures Position(eps, ans, b, d + 1) == Position(eps, ans, b, d)
  {
    SelectNext(eps, ans, b, d);
    assert Select(eps[..d + 1], ans[..d + 1], b) == Select(eps[..d], ans[..d], b);
  }

  // The header of the d-th answer is there.
  ghost predicate HeaderIn(eps: seq<Endpoint>, ans: seq<Bytes>, d: nat, stream: Bytes)
    requires |eps| == |ans| && d < |eps|
  {
    WholeBulk(ans[d]) && |stream| >= BulkStart(eps, ans, d) + HeaderSize(ans[d])
  }

  // What the array parser sees when the reply of eps[d] has not been touched.
  lemma HeaderSeen(eps: seq<Endpoint>, ans: seq<Bytes>, d: nat, stream: Bytes)
    requires |eps| == |ans| && d < |eps| && AllWhole(ans)
    requires Position(eps, ans, eps[d], d) == 0
    requires stream <= Full(eps, ans, eps[d])
    ensures var v := ParseArray(stream);
            var h := CountLine(eps, ans, eps[d]);
            && !v.Broken?
            && (v.Items() != [] ==>
                  && v.header == h && v.bulks == multiset(eps)[eps[d]]
                  && v.items[0] == |ans[d]| && h < |stream|)
            && (v.Completed(|stream|) ==> stream == Full(eps, ans, eps[d]))
            && (stream == Full(eps, ans, eps[d]) ==> v.Items() != [] && v.Completed(|stream|))
            && (v.Items() != [] <==> HeaderIn(eps, ans, d, stream))
  {
    var b := eps[d];
    var all := Select(eps, ans, b);
    SelectCount(eps, ans, b);
    SelectAt(eps, ans, d);
    SelectAll(eps, ans, b, w => WholeBulk(w));
    assert AllWhole(all);
    var k := |stream|;
    assert (EncodeArray(all) + [])[..k] == stream;
    ArrayOfPrefix(all, [], k);
    CutCompleted(all, k);
    if k >= CountLine(eps, ans, b) {
      CutOffsets(all, k);
    }
  }

  // What the bulk parser sees at the parse position of eps[d].
  lemma BulkSeen(eps: seq<Endpoint>, ans: seq<Bytes>, d: nat, stream: Bytes)
    requires |eps| == |ans| && d < |eps| && AllWhole(ans)
    requires stream <= Full(eps, ans, eps[d])
    requires 0 < Position(eps, ans, eps[d], d) < |stream|
    ensures var q := Position(eps, ans, eps[d], d);
            && ParseBulk(stream[q..]) in {Pending, Known(|ans[d]|)}
            && (stream == Full(eps, ans, eps[d]) ==> ParseBulk(stream[q..]).Known?)
            && (ParseBulk(stream[q..]).Known? <==> HeaderIn(eps, ans, d, stream))
  {
    var b := eps[d];
    var q := Position(eps, ans, b, d);
    var w := ans[d];
    PositionNext(eps, ans, d);
    var rest := Full(eps, ans, b)[q + |w|..];
    assert Full(eps, ans, b)[q..] == w + rest;
    assert stream[q..] == (w + rest)[..|stream| - q];
    WholeThenMore(w, rest, |stream| - q);
  }

  ghost predicate BackendOk(eps: seq<Endpoint>, ans: seq<Bytes>, d: nat, b: Endpoint, k: Backend)
    requires |eps| == |ans| && d <= |eps|
  {
    && k.stream <= Full(eps, ans, b)
    && k.parsed == Position(eps, ans, b, d)
    && k.processed <= k.parsed && k.processed <= |k.stream|
    && (k.parsed > 0 ==> k.stream != [])
    && (k.failed ==> k.stream == Full(eps, ans, b) && !k.reading)
    && (k.complete ==> k.stream == Full(eps, ans, b) && !k.reading)
  }

  // Bytes parsed for the client but not yet handed to its socket.
  function Owed(eps: seq<Endpoint>, ans: seq<Bytes>, backends: map<Endpoint, Backend>,
                replying: Option<Endpoint>): Bytes
    requires |eps| == |ans|
  {
    if replying.None? || replying.value !in backends then []
    else
      var k := backends[replying.value];
      var f := Full(eps, ans, replying.value);
      if k.processed <= k.parsed <= |f| then f[k.processed..k.parsed] else []
  }

  // The gather invariant: every parser stands where the first d answers put
  // it, only the replying backend owes bytes, and what was sent, what is being
  // written and what is owed make up the in-order answer to the first d keys.
  ghost predicate GatherOk(eps: seq<Endpoint>, ans: seq<Bytes>, d: nat, backends: map<Endpoint, Backend>,
                           replying: Option<Endpoint>, out: Bytes)
  {
    && |eps| == |ans| && d <= |eps|
    && AllWhole(ans)
    && (forall i :: 0 <= i < |eps| ==> eps[i] in backends)
    && (forall b :: b in backends ==> BackendOk(eps, ans, d, b, backends[b]))
    && (forall b :: b in backends && replying != Some(b) ==> backends[b].processed == backends[b].parsed)
    && (replying.None? ==> d == 0)
    && (replying.Some? ==> replying.value in backends)
    && out + Owed(eps, ans, backends, replying) == Answer(ans, d)
    && HeadersSeen(eps, ans, d, backends)
  }

  // What has been parsed has its header in what its backend has sent.
  ghost predicate HeadersSeen(eps: seq<Endpoint>, ans: seq<Bytes>, d: nat, backends: map<Endpoint, Backend>) {
    && |eps| == |ans| && d <= |eps|
    && forall j :: 0 <= j < d ==> eps[j] in backends && HeaderIn(eps, ans, j, backends[eps[j]].stream)
  }

  lemma HeadersStay(eps: seq<Endpoint>, ans: seq<Bytes>, d: nat, backends: map<Endpoint, Backend>, b: Endpoint, k: Backend)
    requires HeadersSeen(eps, ans, d, backends) && b in backends && |backends[b].stream| <= |k.stream|
    ensures HeadersSeen(eps, ans, d, backends[b := k])
  {
    hide BulkStart, WholeBulk;
  }

  lemma HeadersNext(eps: seq<Endpoint>, ans: seq<Bytes>, d: nat, backends: map<Endpoint, Backend>)
    requires HeadersSeen(eps, ans, d, backends) && d < |eps| && eps[d] in backends
    requires HeaderIn(eps, ans, d, backends[eps[d]].stream)
    ensures HeadersSeen(eps, ans, d + 1, backends)
  {
    hide HeaderIn;
  }

  lemma HeadersWithout(eps: seq<Endpoint>, ans: seq<Bytes>, d: nat, backends: map<Endpoint, Backend>, b: Endpoint,
                       k: Backend)
    requires HeadersSeen(eps, ans, d, backends) && multiset(eps[..d])[b] == 0
    ensures HeadersSeen(eps, Without(eps, ans, b), d, backends[b := k])
  {
    hide HeaderIn;
    forall j | 0 <= j < d
      ensures eps[j] in backends[b := k] && HeaderIn(eps, Without(eps, ans, b), j, backends[b := k][eps[j]].stream)
    {
      Untouched(eps, d, b, j);
      WithoutHeader(eps, ans, b, j, backends[eps[j]].stream);
    }
  }

  lemma GatherAt(eps: seq<Endpoint>, ans: seq<Bytes>, d: nat, backends: map<Endpoint, Backend>,
                 replying: Option<Endpoint>, out: Bytes, b: Endpoint)
    requires GatherOk(eps, ans, d, backends, replying, out) && b in backends
    ensures |eps| == |ans| && d <= |eps| && AllWhole(ans)
    ensures BackendOk(eps, ans, d, b, backends[b])
    ensures replying != Some(b) ==> backends[b].processed == backends[b].parsed
  {
  }

  lemma Received(eps: seq<Endpoint>, ans: seq<Bytes>, d: nat, backends: map<Endpoint, Backend>,
                 replying: Option<Endpoint>, out: Bytes, b: Endpoint, k: Backend)
    requires GatherOk(eps, ans, d, backends, replying, out)
    requires b in backends && BackendOk(eps, ans, d, b, k)
    requires k.parsed == backends[b].parsed && k.processed == backends[b].processed
    requires |backends[b].stream| <= |k.stream|
    ensures GatherOk(eps, ans, d, backends[b := k], replying, out)
  {
    hide Full, Position, WholeBulk, HeadersSeen;
    HeadersStay(eps, ans, d, backends, b, k);
  }

  lemma Switch(eps: seq<Endpoint>, ans: seq<Bytes>, d: nat, backends: map<Endpoint, Backend>,
               replying: Option<Endpoint>, out: Bytes, b: Endpoint)
    requires GatherOk(eps, ans, d, backends, replying, out)
    requires b in backends
    requires replying.Some? && replying.value != b ==>
               backends[replying.value].processed == backends[replying.value].parsed
    ensures GatherOk(eps, ans, d, backends, Some(b), out)
  {
    hide Full, Position, WholeBulk, HeadersSeen;
    if replying != Some(b) {
      assert Owed(eps, ans, backends, replying) == [];
      assert Owed(eps, ans, backends, Some(b)) == [];
    }
  }

  // Handing the received part of what is owed to the client socket.
  lemma Handed(eps: seq<Endpoint>, ans: seq<Bytes>, d: nat, backends: map<Endpoint, Backend>,
               out: Bytes, b: Endpoint)
    requires GatherOk(eps, ans, d, backends, Some(b), out)
    requires backends[b].Unprocessed() >= 0
    ensures var k := backends[b];
            var n := k.Unprocessed();
            && k.processed + n <= |k.stream|
            && GatherOk(eps, ans, d, backends[b := k.(processed := k.processed + n)], Some(b),
                        out + k.stream[k.processed..k.processed + n])
  {
    hide Full, Position, WholeBulk, Answer, Owed, HeadersSeen;
    var k := backends[b];
    var n := k.Unprocessed();
    HeadersStay(eps, ans, d, backends, b, k.(processed := k.processed + n));
    PositionZero(eps, ans, b, d);
    HandedOwed(eps, ans, backends, b, Full(eps, ans, b), n);
    var part := k.stream[k.processed..k.processed + n];
    var backends' := backends[b := k.(processed := k.processed + n)];
    assert out + part + Owed(eps, ans, backends', Some(b)) == out + (part + Owed(eps, ans, backends', Some(b)));
  }

  lemma HandedOwed(eps: seq<Endpoint>, ans: seq<Bytes>, backends: map<Endpoint, Backend>, b: Endpoint, f: Bytes, n: nat)
    requires |eps| == |ans| && b in backends && f == Full(eps, ans, b)
    requires var k := backends[b]; k.processed + n <= Min(|k.stream|, k.parsed) && k.parsed <= |f| && k.stream <= f
    ensures var k := backends[b];
            var k' := k.(processed := k.processed + n);
            Owed(eps, ans, backends, Some(b)) == k.stream[k.processed..k'.processed] + Owed(eps, ans, backends[b := k'], Some(b))
  {
    hide Full;
    var k := backends[b];
    CutText(f, k.stream, k.processed, k.processed + n, k.parsed);
  }

  lemma CutText(f: Bytes, stream: Bytes, a: nat, b: nat, c: nat)
    requires a <= b <= c <= |f| && b <= |stream| && stream <= f
    ensures f[a..c] == stream[a..b] + f[b..c]
  {
    assert stream[a..b] == f[a..b];
  }

  lemma OwedGrows(eps: seq<Endpoint>, ans: seq<Bytes>, d: nat, backends: map<Endpoint, Backend>, k: Backend)
    requires |eps| == |ans| && d < |eps| && eps[d] in backends
    requires BackendOk(eps, ans, d, eps[d], backends[eps[d]])
    requires var was := backends[eps[d]];
             && k.parsed == BulkStart(eps, ans, d) + |ans[d]|
             && k.processed == (if was.parsed == 0 then BulkStart(eps, ans, d) else was.processed)
    ensures Owed(eps, ans, backends[eps[d] := k], Some(eps[d]))
         == Owed(eps, ans, backends, Some(eps[d])) + ans[d]
  {
    hide Full, Position, Select, Concat;
    var was := backends[eps[d]];
    var f := Full(eps, ans, eps[d]);
    var from := BulkStart(eps, ans, d);
    PositionNext(eps, ans, d);
    if was.parsed > 0 {
      assert f[k.processed..k.parsed] == f[k.processed..from] + f[from..k.parsed];
    }
  }

  // The parser of eps[d] takes one more bulk: d becomes d + 1.
  lemma ParsedOne(eps: seq<Endpoint>, ans: seq<Bytes>, d: nat, backends: map<Endpoint, Backend>,
                  out: Bytes, k: Backend)
    requires d < |eps|
    requires GatherOk(eps, ans, d, backends, Some(eps[d]), out)
    requires var was := backends[eps[d]];
             && k.stream == was.stream && k.reading == was.reading && k.failed == was.failed
             && (k.complete ==> was.complete || (k.stream == Full(eps, ans, eps[d]) && !k.reading))
             && k.parsed == BulkStart(eps, ans, d) + |ans[d]|
             && k.processed == (if was.parsed == 0 then BulkStart(eps, ans, d) else was.processed)
             && k.processed <= |k.stream| && HeaderIn(eps, ans, d, k.stream)
    ensures GatherOk(eps, ans, d + 1, backends[eps[d] := k], Some(eps[d]), out)
  {
    hide Full, Position, WholeBulk, Select, Answer, Owed, CountLine, HeadersSeen, HeaderIn;
    HeadersStay(eps, ans, d, backends, eps[d], k);
    HeadersNext(eps, ans, d, backends[eps[d] := k]);
    var b := eps[d];
    var was := backends[b];
    var backends' := backends[b := k];
    PositionNext(eps, ans, d);
    forall c | c in backends' ensures BackendOk(eps, ans, d + 1, c, backends'[c]) {
      if c != b {
        PositionOther(eps, ans, d, c);
      }
    }
    OwedGrows(eps, ans, d, backends, k);
    AnswerNext(ans, d);
    var owed := Owed(eps, ans, backends, Some(b));
    assert out + (owed + ans[d]) == (out + owed) + ans[d];
  }

  const NIL_BULK: Bytes := "$-1\r\n"

  // The answers once endpoint b has failed: nil for each of its keys.
  function Without(eps: seq<Endpoint>, ans: seq<Bytes>, b: Endpoint): (r: seq<Bytes>)
    requires |eps| == |ans|
    ensures |r| == |ans|
    ensures forall i :: 0 <= i < |ans| ==> r[i] == if eps[i] == b then NIL_BULK else ans[i]
  {
    seq(|ans|, i requires 0 <= i < |ans| => if eps[i] == b then NIL_BULK else ans[i])
  }

  function Nils(n: nat): (r: seq<Bytes>)
    ensures |r| == n && forall i :: 0 <= i < n ==> r[i] == NIL_BULK
  {
    seq(n, i => NIL_BULK)
  }

  lemma NilWhole()
    ensures WholeBulk(NIL_BULK)
  {
  }

  // No key of b lies among the first d.
  lemma Untouched(eps: seq<Endpoint>, d: nat, b: Endpoint, i: nat)
    requires d <= |eps| && multiset(eps[..d])[b] == 0 && i < d
    ensures eps[i] != b
  {
    assert eps[..d][i] in multiset(eps[..d]);
  }

  lemma WithoutOwn(eps: seq<Endpoint>, ans: seq<Bytes>, b: Endpoint)
    requires |eps| == |ans|
    ensures Full(eps, Without(eps, ans, b), b) == EncodeArray(Nils(multiset(eps)[b]))
  {
    SelectCount(eps, Without(eps, ans, b), b);
    SelectAll(eps, Without(eps, ans, b), b, w => w == NIL_BULK);
    assert Select(eps, Without(eps, ans, b), b) == Nils(multiset(eps)[b]);
  }

  lemma WithoutOthers(eps: seq<Endpoint>, ans: seq<Bytes>, b: Endpoint, d: nat, c: Endpoint)
    requires |eps| == |ans| && d <= |eps| && c != b
    ensures Full(eps, Without(eps, ans, b), c) == Full(eps, ans, c)
    ensures Position(eps, Without(eps, ans, b), c, d) == Position(eps, ans, c, d)
  {
    SelectSame(eps, Without(eps, ans, b), ans, c);
    SelectSame(eps[..d], Without(eps, ans, b)[..d], ans[..d], c);
  }

  lemma WithoutHeader(eps: seq<Endpoint>, ans: seq<Bytes>, b: Endpoint, d: nat, stream: Bytes)
    requires |eps| == |ans| && d < |eps| && eps[d] != b
    ensures HeaderIn(eps, Without(eps, ans, b), d, stream) <==> HeaderIn(eps, ans, d, stream)
  {
    hide Select, Concat;
    WithoutOthers(eps, ans, b, d, eps[d]);
    SelectSame(eps, Without(eps, ans, b), ans, eps[d]);
  }

  // A backend that has contributed nothing yet can still be answered by nils.
  lemma Failed(eps: seq<Endpoint>, ans: seq<Bytes>, d: nat, backends: map<Endpoint, Backend>,
               replying: Option<Endpoint>, out: Bytes, b: Endpoint, k: Backend)
    requires GatherOk(eps, ans, d, backends, replying, out)
    requires b in backends && replying != Some(b) && multiset(eps[..d])[b] == 0
    requires k.stream == EncodeArray(Nils(multiset(eps)[b]))
    requires k.parsed == 0 && k.processed == 0 && !k.reading && !k.complete
    ensures GatherOk(eps, Without(eps, ans, b), d, backends[b := k], replying, out)
  {
    hide Full, Position, WholeBulk, Concat, Select, EncodeArray, HeadersSeen;
    HeadersWithout(eps, ans, d, backends, b, k);
    var ans' := Without(eps, ans, b);
    var backends' := backends[b := k];
    NilWhole();
    WithoutOwn(eps, ans, b);
    PositionZero(eps, ans', b, d);
    forall c | c in backends' ensures BackendOk(eps, ans', d, c, backends'[c]) {
      if c != b {
        WithoutOthers(eps, ans, b, d, c);
      }
    }
    forall i | 0 <= i < d ensures ans'[..d][i] == ans[..d][i] {
      Untouched(eps, d, b, i);
    }
    assert ans'[..d] == ans[..d];
    if replying.Some? {
      WithoutOthers(eps, ans, b, d, replying.value);
    }
  }
}
