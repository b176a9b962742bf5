/**
 The reply that MGET makes up for a failed backend is copied into that
 backend's buffer without a check. It fits, because the query fitted.
 */
module NilReply {
  import opened Decimal
  import opened Resp
  import opened Net
  import opened MgetGather
  import B = ReadBuffer
  import Mget

  // Every bulk is at least five bytes long.
  lemma {:induction false} BulksTakeRoom(s: Bytes, max: nat, totals: seq<nat>)
    requires ParseItems(s, max) == Sizes(totals)
    ensures Sum(totals) >= 5 * |totals|
    decreases |s|
  {
    hide ParseBulk;
    if totals != [] {
      var t := ParseBulk(s).total;
      assert t >= 5 by { BulkSize(s); }
      BulksTakeRoom(Drop(s, t), max - 1, totals[1..]);
    }
  }

  lemma BulkSize(s: Bytes)
    requires ParseBulk(s).Known?
    ensures ParseBulk(s).total >= 5
  {
  }

  lemma {:induction false} NilsSize(n: nat)
    ensures |Concat(Nils(n))| == 5 * n
  {
    if n > 0 {
      NilsSize(n - 1);
      assert Nils(n)[1..] == Nils(n - 1);
    }
  }

  // For every text s that the parser takes for a complete array of a command
  // name and one key per endpoint in eps, and for every endpoint: the nils for
  // its keys are shorter than the query.
  lemma NilReplyFits(s: Bytes, eps: seq<Endpoint>, b: Endpoint, capacity: nat)
    requires var view := ParseArray(s);
             view.Parsed? && view.bulks == |eps| + 1 && view.Completed(|s|) && view.TotalSize() <= capacity
    ensures |EncodeArray(Nils(multiset(eps)[b]))| < ParseArray(s).TotalSize() <= capacity
  {
    hide Digits, Value, ParseItems, Nils, Concat;
    var view := ParseArray(s);
    var keys := multiset(eps)[b];
    assert keys <= |eps| by { assert |multiset(eps)| == |eps|; CountBound(eps, b); }
    var e := DigitEnd(s, 1);
    DigitsShortest(s[1..e]);
    DigitsMonotone(keys, view.bulks);
    BulksTakeRoom(s[e + 2..], view.bulks, view.items);
    NilsSize(keys);
  }

  lemma {:induction false} CountBound(eps: seq<Endpoint>, b: Endpoint)
    ensures multiset(eps)[b] <= |eps|
  {
    if eps != [] {
      var n := |eps| - 1;
      CountBound(eps[..n], b);
      assert eps == eps[..n] + [eps[n]];
    }
  }

  // `SetReplyData` with the nils of endpoint b, in a buffer as large as the
  // client's: the copy stays inside it.
  method SetNilReply(s: Bytes, eps: seq<Endpoint>, b: Endpoint, buffer: B.ReadBuffer)
    requires buffer.Valid()
    requires var view := ParseArray(s);
             view.Parsed? && view.bulks == |eps| + 1 && view.Completed(|s|) && view.TotalSize() <= buffer.data.Length
    modifies buffer, buffer.data
    ensures buffer.Valid() && buffer.stream == EncodeArray(Nils(multiset(eps)[b])) && buffer.P() == 0 && buffer.Q() == 0
  {
    hide EncodeArray, Nils, ParseArray;
    var body := Mget.ErrorReplyBody(multiset(eps)[b]);
    NilReplyFits(s, eps, b, buffer.data.Length);
    buffer.Reset();
    buffer.PushReplyData(body, false);
  }
}
