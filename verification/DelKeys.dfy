/**
 The keys of a DEL, EXISTS or TOUCH in the client's text: which of them are
 complete when the text has arrived up to some point, and how the command finds
 them by parsing what has arrived.
 */
module DelKeys {
  import opened Resp
  import opened Subqueries
  import F = Framing

  // Keys that are complete within the first k bytes: the parser shows every bulk
  // whose header has arrived, and the last one counts only if all of it has.
  function KeysIn(keys: seq<Bytes>, k: nat): (n: nat)
    requires AllWhole(keys)
    ensures n <= |keys|
  {
    var seen := HeadersIn(keys, k);
    if seen > 0 && |Concat(keys[..seen])| > k then seen - 1 else seen
  }

  lemma KeysInExact(keys: seq<Bytes>, k: nat, i: nat)
    requires AllWhole(keys) && i < |keys|
    ensures i < KeysIn(keys, k) <==> Start(0, keys, i + 1) <= k
  {
    hide Concat, HeadersIn, HeaderSize;
    var seen := HeadersIn(keys, k);
    HeadersInExact(keys, k, i);
    ConcatTake(keys, i);
    HeaderFits(keys[i]);
    if i + 1 < |keys| {
      HeadersInExact(keys, k, i + 1);
    }
  }

  lemma HeaderFits(w: Bytes)
    requires WholeBulk(w)
    ensures HeaderSize(w) <= |w|
  {
  }

  // The number of complete keys is known from where they end.
  lemma KeysInAre(keys: seq<Bytes>, k: nat, n: nat)
    requires AllWhole(keys) && n <= |keys| && Start(0, keys, n) <= k
    requires n < |keys| ==> k < Start(0, keys, n + 1)
    ensures KeysIn(keys, k) == n
  {
    hide KeysIn, Start, AllWhole;
    if n > 0 {
      KeysInExact(keys, k, n - 1);
    }
    if n < |keys| {
      KeysInExact(keys, k, n);
    }
  }

  lemma KeysInBounds(keys: seq<Bytes>, k: nat)
    requires AllWhole(keys)
    ensures var n := KeysIn(keys, k);
            Start(0, keys, n) <= k && (n < |keys| ==> k < Start(0, keys, n + 1))
  {
    hide KeysIn, AllWhole;
    var n := KeysIn(keys, k);
    if n > 0 {
      KeysInExact(keys, k, n - 1);
    } else {
      assert keys[..0] == [];
    }
    if n < |keys| {
      KeysInExact(keys, k, n);
    }
  }

  lemma KeysInGrow(keys: seq<Bytes>, k: nat, k': nat)
    requires AllWhole(keys) && k <= k'
    ensures KeysIn(keys, k) <= KeysIn(keys, k')
  {
    hide KeysIn, Start, AllWhole;
    var n := KeysIn(keys, k);
    if n > 0 {
      KeysInExact(keys, k, n - 1);
      KeysInExact(keys, k', n - 1);
    }
  }

  // Keys found from key `from` on are the keys of the whole.
  lemma KeysInRest(keys: seq<Bytes>, from: nat, k: nat)
    requires AllWhole(keys) && from <= KeysIn(keys, k) && Start(0, keys, from) <= k
    ensures AllWhole(keys[from..])
    ensures KeysIn(keys, k) == from + KeysIn(keys[from..], k - Start(0, keys, from))
  {
    hide KeysIn, Start, WholeBulk;
    var n := KeysIn(keys, k) - from;
    KeysInBounds(keys, k);
    StartRest(keys, from, n);
    if from + n < |keys| {
      StartRest(keys, from, n + 1);
    }
    KeysInAre(keys[from..], k - Start(0, keys, from), n);
  }

  lemma StartRest(keys: seq<Bytes>, from: nat, i: nat)
    requires from + i <= |keys|
    ensures Start(0, keys, from + i) == Start(0, keys, from) + Start(0, keys[from..], i)
  {
    hide Concat;
    assert keys[..from + i] == keys[..from] + keys[from..][..i];
    ConcatAppend(keys[..from], keys[from..][..i]);
  }

  // ---------- the command finds them ----------

  // A command of which `len` bytes have arrived, with the first `from` keys taken.
  ghost predicate Arrived(name: Bytes, keys: seq<Bytes>, after: Bytes, from: nat, len: nat) {
    && AllWhole(keys) && Head(name, |keys|) <= len <= |CommandText(name, keys, after)|
    && from <= KeysIn(keys, len - Head(name, |keys|)) && Start(Head(name, |keys|), keys, from) <= len
  }

  // The complete ones among the bulks found in what has arrived.
  method Completed(totals: seq<nat>, received: nat) returns (n: nat)
    ensures n == if totals != [] && Sum(totals) > received then |totals| - 1 else |totals|
  {
    hide Sum;
    n := |totals|;
    if totals != [] && Sum(totals) > received {
      n := n - 1;
    }
  }

  // `ProcessUnparsedPart`: the bulks in what has arrived, less an incomplete last one.
  method NextKeys(ghost name: Bytes, ghost keys: seq<Bytes>, ghost after: Bytes, ghost len: nat, unparsed: Bytes,
                  left: nat, from: nat)
    returns (upto: nat)
    requires Arrived(name, keys, after, from, len) && left == |keys| - from
    requires unparsed == CommandText(name, keys, after)[Start(Head(name, |keys|), keys, from)..len]
    ensures upto == KeysIn(keys, len - Head(name, |keys|))
  {
    hide Concat, ArrayPrefix, CommandText, ParseItems, Head, AllWhole, Sum, HeadersIn, Lengths;
    ghost var h := Head(name, |keys|);
    KeysInRest(keys, from, len - h);
    ItemsFrom(name, keys, after, from, len);
    var size, totals := ParseBulkItems(unparsed, left);
    if size < 0 {
      // aborts the client; never reached with well-formed keys
      assert false;
    }
    ghost var seen := HeadersIn(keys[from..], |unparsed|);
    ConcatLength(keys[from..][..seen]);
    var n := Completed(totals, |unparsed|);
    upto := from + n;
  }

  // The constructor takes the complete keys among the bulks of the array as far
  // as it has arrived: those that `CreateCommand` takes.
  method FirstKeys(ghost name: Bytes, ghost keys: seq<Bytes>, ghost after: Bytes, received: Bytes)
    returns (upto: nat)
    requires AllWhole([name] + keys) && AllWhole(keys) && received <= CommandText(name, keys, after)
    requires F.Taken([name] + keys, F.Del, |received|) > 0
    ensures Head(name, |keys|) <= |received|
    ensures 0 < upto == KeysIn(keys, |received| - Head(name, |keys|))
    ensures F.Taken([name] + keys, F.Del, |received|) == 1 + upto
  {
    hide Concat, ArrayPrefix, ParseItems, HeadersIn, AllWhole, ParseArray, F.Taken, Sum, Lengths;
    FirstHeaders(name, keys, |received|);
    ArrayOfPrefix([name] + keys, after, |received|);
    assert received == CommandText(name, keys, after)[..|received|];
    var view := ScanArray(received);
    ghost var seen := HeadersIn([name] + keys, |received| - |ArrayPrefix(|keys| + 1)|);
    ConcatLength(([name] + keys)[..seen]);
    var n := Completed(view.items, |received| - view.header);
    upto := n - 1;
  }

  lemma FirstHeaders(name: Bytes, keys: seq<Bytes>, k: nat)
    requires AllWhole([name] + keys) && AllWhole(keys) && F.Taken([name] + keys, F.Del, k) > 0
    ensures Head(name, |keys|) < k
    ensures var ws := [name] + keys;
            var n := HeadersIn(ws, k - |ArrayPrefix(|ws|)|);
            && n >= 2 && F.Taken(ws, F.Del, k) == 1 + KeysIn(keys, k - Head(name, |keys|)) > 1
            && F.Taken(ws, F.Del, k) == if |Concat(ws[..n])| > k - |ArrayPrefix(|ws|)| then n - 1 else n
  {
    hide Concat, ArrayPrefix;
    var ws := [name] + keys;
    var h := |ArrayPrefix(|ws|)|;
    var n := HeadersIn(ws, k - h);
    assert ws[1..] == keys;
    FirstSizes(name, keys, n);
  }

  lemma FirstSizes(name: Bytes, keys: seq<Bytes>, n: nat)
    requires AllWhole([name] + keys) && n <= |keys| + 1
    ensures F.Size([name] + keys, 1) == Head(name, |keys|)
    ensures n >= 1 ==> |Concat(([name] + keys)[..n])| == |name| + |Concat(keys[..n - 1])|
    ensures keys != [] ==> F.Size([name] + keys, 2) == Head(name, |keys|) + |keys[0]| && |keys[0]| > 0
  {
    hide ArrayPrefix;
    var ws := [name] + keys;
    assert ws[..1] == [name] + [];
    ConcatCons(name, []);
    if n >= 1 {
      assert ws[..n] == [name] + keys[..n - 1];
      ConcatCons(name, keys[..n - 1]);
    }
    if keys != [] {
      assert ws[..2] == [name] + [keys[0]];
      ConcatCons(name, [keys[0]]);
      assert Concat([keys[0]]) == keys[0] + Concat([]);
      assert WholeBulk(ws[1]);
    }
  }

  lemma ConcatCons(w: Bytes, ws: seq<Bytes>)
    ensures Concat([w] + ws) == w + Concat(ws)
  {
    assert ([w] + ws)[1..] == ws;
  }
}
