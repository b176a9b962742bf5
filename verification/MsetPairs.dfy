/**
 The pairs of an MSET in the client's text: which of them can be taken when the
 text has arrived up to some point, and how the command finds them by parsing
 what has arrived.
 */
module MsetPairs {
  import opened Resp
  import opened Net
  import opened Scatter
  import opened Subqueries
  import F = Framing

  type Pair = (Bytes, Bytes)  // a key bulk and a value bulk

  predicate PairsOk(pairs: seq<Pair>) {
    forall i :: 0 <= i < |pairs| ==> WholeBulk(pairs[i].0) && WholeBulk(pairs[i].1)
  }

  // The endpoints of the pairs, by the payloads of their keys.
  function LocatedPairs(pairs: seq<Pair>, locate: Bytes -> Endpoint): (eps: seq<Endpoint>)
    requires PairsOk(pairs)
    ensures |eps| == |pairs| && forall i :: 0 <= i < |pairs| ==> eps[i] == locate(Payload(pairs[i].0))
  {
    seq(|pairs|, i requires 0 <= i < |pairs| => locate(Payload(pairs[i].0)))
  }

  // The end of the value's header within a pair.
  function ReadyAt(p: Pair): nat
    requires WholeBulk(p.1)
  {
    |p.0| + HeaderSize(p.1)
  }

  function Joined(pairs: seq<Pair>): (ts: seq<Bytes>)
    ensures |ts| == |pairs| && forall i :: 0 <= i < |pairs| ==> ts[i] == pairs[i].0 + pairs[i].1
  {
    seq(|pairs|, i requires 0 <= i < |pairs| => pairs[i].0 + pairs[i].1)
  }

  function Flat(pairs: seq<Pair>): (ws: seq<Bytes>)
    ensures |ws| == 2 * |pairs|
  {
    if pairs == [] then [] else [pairs[0].0, pairs[0].1] + Flat(pairs[1..])
  }

  lemma {:induction false} FlatText(pairs: seq<Pair>)
    ensures Concat(Flat(pairs)) == Concat(Joined(pairs))
  {
    if pairs != [] {
      FlatText(pairs[1..]);
      var a, b := pairs[0].0, pairs[0].1;
      ConcatAppend([a, b], Flat(pairs[1..]));
      assert [a, b][1..] == [b] && [b][1..] == [];
      assert Concat([a, b]) == a + b;
      assert Joined(pairs)[1..] == Joined(pairs[1..]);
    }
  }

  lemma {:induction false} FlatAt(pairs: seq<Pair>, i: nat)
    requires i < |pairs|
    ensures Flat(pairs)[2 * i] == pairs[i].0 && Flat(pairs)[2 * i + 1] == pairs[i].1
  {
    if i > 0 {
      FlatAt(pairs[1..], i - 1);
    }
  }

  lemma {:induction false} FlatAppend(a: seq<Pair>, b: seq<Pair>)
    ensures Flat(a + b) == Flat(a) + Flat(b)
  {
    if a == [] {
      assert a + b == b;
    } else {
      assert (a + b)[1..] == a[1..] + b;
      FlatAppend(a[1..], b);
    }
  }

  lemma FlatSlice(pairs: seq<Pair>, i: nat)
    requires i <= |pairs|
    ensures Flat(pairs)[..2 * i] == Flat(pairs[..i]) && Flat(pairs)[2 * i..] == Flat(pairs[i..])
  {
    hide Flat;
    assert pairs == pairs[..i] + pairs[i..];
    FlatAppend(pairs[..i], pairs[i..]);
  }

  lemma FlatWhole(pairs: seq<Pair>)
    requires PairsOk(pairs)
    ensures AllWhole(Flat(pairs))
  {
    hide Flat, WholeBulk;
    forall j | 0 <= j < |Flat(pairs)| ensures WholeBulk(Flat(pairs)[j]) {
      FlatAt(pairs, j / 2);
      assert j == 2 * (j / 2) || j == 2 * (j / 2) + 1;
    }
  }

  lemma {:induction false} SelectJoined(owner: seq<nat>, pairs: seq<Pair>, id: nat)
    requires |owner| == |pairs|
    ensures Select(owner, Joined(pairs), id) == Joined(Select(owner, pairs, id))
  {
    if pairs != [] {
      var n := |pairs| - 1;
      SelectJoined(owner[..n], pairs[..n], id);
      assert Joined(pairs)[..n] == Joined(pairs[..n]);
      var init := Select(owner[..n], pairs[..n], id);
      assert Joined(init + [pairs[n]]) == Joined(init) + [pairs[n].0 + pairs[n].1];
      assert Joined(init + []) == Joined(init) + [];
    }
  }

  // ---------- the pairs that can be taken ----------

  // Pairs that can be taken from the first k bytes: those whose value's header
  // has arrived.
  function PairsIn(pairs: seq<Pair>, k: nat): (n: nat)
    requires PairsOk(pairs)
    ensures n <= |pairs|
  {
    FlatWhole(pairs);
    HeadersIn(Flat(pairs), k) / 2
  }

  // The text before the value of pair i.
  lemma BeforeValue(pairs: seq<Pair>, i: nat)
    requires i < |pairs|
    ensures |Concat(Flat(pairs)[..2 * i + 1])| == |Concat(Joined(pairs)[..i])| + |pairs[i].0|
  {
    hide Flat, Concat;
    FlatAt(pairs, i);
    ConcatTake(Flat(pairs), 2 * i);
    FlatSlice(pairs, i);
    FlatText(pairs[..i]);
    assert Joined(pairs)[..i] == Joined(pairs[..i]);
  }

  lemma PairsInExact(pairs: seq<Pair>, k: nat, i: nat)
    requires PairsOk(pairs) && i < |pairs|
    ensures i < PairsIn(pairs, k) <==> Start(0, Joined(pairs), i) + ReadyAt(pairs[i]) <= k
  {
    hide Flat, Concat, HeadersIn, HeaderSize, WholeBulk;
    FlatWhole(pairs);
    FlatAt(pairs, i);
    BeforeValue(pairs, i);
    HeadersInExact(Flat(pairs), k, 2 * i + 1);
  }

  // The number of pairs that can be taken is known from one pair on each side.
  lemma PairsInAre(pairs: seq<Pair>, k: nat, n: nat)
    requires PairsOk(pairs) && n <= |pairs|
    requires n > 0 ==> Start(0, Joined(pairs), n - 1) + ReadyAt(pairs[n - 1]) <= k
    requires n < |pairs| ==> k < Start(0, Joined(pairs), n) + ReadyAt(pairs[n])
    ensures PairsIn(pairs, k) == n
  {
    hide PairsIn, Start, ReadyAt;
    if n > 0 {
      PairsInExact(pairs, k, n - 1);
    }
    if n < |pairs| {
      PairsInExact(pairs, k, n);
    }
  }

  lemma PairsInBounds(pairs: seq<Pair>, k: nat)
    requires PairsOk(pairs)
    ensures var n := PairsIn(pairs, k);
            && (n > 0 ==> Start(0, Joined(pairs), n - 1) + ReadyAt(pairs[n - 1]) <= k)
            && (n < |pairs| ==> k < Start(0, Joined(pairs), n) + ReadyAt(pairs[n]))
  {
    hide PairsIn, Start, ReadyAt;
    var n := PairsIn(pairs, k);
    if n > 0 {
      PairsInExact(pairs, k, n - 1);
    }
    if n < |pairs| {
      PairsInExact(pairs, k, n);
    }
  }

  // As long as the last pair taken is incomplete, no other pair can be taken.
  lemma PairsInStay(pairs: seq<Pair>, k: nat, k': nat)
    requires PairsOk(pairs) && k <= k' <= Start(0, Joined(pairs), PairsIn(pairs, k))
    ensures PairsIn(pairs, k') == PairsIn(pairs, k)
  {
    hide PairsIn, Start, HeaderSize, WholeBulk;
    PairsInBounds(pairs, k);
    var n := PairsIn(pairs, k);
    if n < |pairs| {
      HeaderPositive(pairs[n].1);
    }
    PairsInAre(pairs, k', n);
  }

  lemma PairsInGrow(pairs: seq<Pair>, k: nat, k': nat)
    requires PairsOk(pairs) && k <= k'
    ensures PairsIn(pairs, k) <= PairsIn(pairs, k')
  {
    hide PairsIn, Start, ReadyAt;
    var n := PairsIn(pairs, k);
    if n > 0 {
      PairsInExact(pairs, k, n - 1);
      PairsInExact(pairs, k', n - 1);
    }
  }

  lemma HeaderPositive(w: Bytes)
    requires WholeBulk(w)
    ensures HeaderSize(w) > 0
  {
  }

  // Pairs found from pair `from` on are the pairs of the whole.
  lemma PairsInRest(pairs: seq<Pair>, from: nat, k: nat)
    requires PairsOk(pairs) && from <= PairsIn(pairs, k) && Start(0, Joined(pairs), from) <= k
    ensures PairsOk(pairs[from..])
    ensures PairsIn(pairs, k) == from + PairsIn(pairs[from..], k - Start(0, Joined(pairs), from))
  {
    hide PairsIn, Start, ReadyAt, WholeBulk;
    var rest := pairs[from..];
    var n := PairsIn(pairs, k) - from;
    PairsInBounds(pairs, k);
    if n > 0 {
      StartRest(pairs, from, n - 1);
    }
    if n < |rest| {
      StartRest(pairs, from, n);
    }
    PairsInAre(rest, k - Start(0, Joined(pairs), from), n);
  }

  lemma StartRest(pairs: seq<Pair>, from: nat, i: nat)
    requires from + i <= |pairs|
    ensures Start(0, Joined(pairs), from + i) == Start(0, Joined(pairs), from) + Start(0, Joined(pairs[from..]), i)
  {
    hide Concat;
    var items := Joined(pairs);
    assert items[..from + i] == items[..from] + Joined(pairs[from..])[..i];
    ConcatAppend(items[..from], Joined(pairs[from..])[..i]);
  }

  // ---------- the command finds them ----------

  lemma LaidOutAs(text: Bytes, h: nat, items: seq<Bytes>, items': seq<Bytes>)
    requires LaidOut(text, h, items) && Concat(items') == Concat(items)
    ensures LaidOut(text, h, items')
  {
    hide Concat;
  }

  // The pairs lie in the text one after another.
  lemma PairsLaidOut(name: Bytes, pairs: seq<Pair>, after: Bytes)
    ensures LaidOut(CommandText(name, Flat(pairs), after), Head(name, 2 * |pairs|), Joined(pairs))
  {
    hide Concat, CommandText, Head, Flat, Joined, LaidOut;
    TextLaidOut(name, Flat(pairs), after);
    FlatText(pairs);
    LaidOutAs(CommandText(name, Flat(pairs), after), Head(name, 2 * |pairs|), Flat(pairs), Joined(pairs));
  }

  lemma FlatStart(h: nat, pairs: seq<Pair>, i: nat)
    requires i <= |pairs|
    ensures Start(h, Flat(pairs), 2 * i) == Start(h, Joined(pairs), i)
  {
    hide Concat, Flat;
    FlatSlice(pairs, i);
    FlatText(pairs[..i]);
    assert Joined(pairs)[..i] == Joined(pairs[..i]);
  }

  // A command of which `len` bytes have arrived, with the first `from` pairs taken.
  ghost predicate Arrived(name: Bytes, pairs: seq<Pair>, after: Bytes, from: nat, len: nat) {
    && PairsOk(pairs) && Head(name, 2 * |pairs|) <= len <= |CommandText(name, Flat(pairs), after)|
    && from <= PairsIn(pairs, len - Head(name, 2 * |pairs|))
    && Start(Head(name, 2 * |pairs|), Joined(pairs), from) <= len
  }

  // Parsing what has arrived from pair `from` on finds the bulks of exactly the
  // pairs that can be taken, and perhaps one more key.
  lemma NextItems(name: Bytes, pairs: seq<Pair>, after: Bytes, from: nat, len: nat)
    requires Arrived(name, pairs, after, from, len)
    ensures var h := Head(name, 2 * |pairs|);
            var found := ParseItems(CommandText(name, Flat(pairs), after)[Start(h, Joined(pairs), from)..len],
                                    2 * (|pairs| - from));
            found.Sizes? && from + |found.totals| / 2 == PairsIn(pairs, len - h)
  {
    hide Concat, ArrayPrefix, Flat, CommandText, ParseItems, HeadersIn, WholeBulk, Head;
    var h := Head(name, 2 * |pairs|);
    FlatStart(h, pairs, from);
    FlatSlice(pairs, from);
    PairsInRest(pairs, from, len - h);
    FlatWhole(pairs[from..]);
    ItemsFrom(name, Flat(pairs), after, 2 * from, len);
  }

  // `ProcessUnparsedPart`: the bulks in what has arrived, less a key whose
  // value's header has not.
  method NextPairs(ghost name: Bytes, ghost pairs: seq<Pair>, ghost after: Bytes, ghost len: nat, unparsed: Bytes,
                   left: nat, from: nat)
    returns (upto: nat)
    requires Arrived(name, pairs, after, from, len) && left == 2 * (|pairs| - from)
    requires unparsed == CommandText(name, Flat(pairs), after)[Start(Head(name, 2 * |pairs|), Joined(pairs), from)..len]
    ensures upto == PairsIn(pairs, len - Head(name, 2 * |pairs|))
  {
    hide Concat, ArrayPrefix, Flat, CommandText, ParseItems, PairsIn, Start, Head;
    NextItems(name, pairs, after, from, len);
    var size, totals := ParseBulkItems(unparsed, left);
    if size < 0 {
      // aborts the client; never reached with well-formed pairs
      assert false;
    }
    if |totals| % 2 == 1 {
      totals := totals[..|totals| - 1];
    }
    upto := from + |totals| / 2;
  }

  // The constructor takes the pairs among the bulks of the array as far as it
  // has arrived: those that `CreateCommand` takes.
  method FirstPairs(ghost name: Bytes, ghost pairs: seq<Pair>, ghost after: Bytes, received: Bytes)
    returns (upto: nat)
    requires PairsOk(pairs) && AllWhole([name] + Flat(pairs)) && received <= CommandText(name, Flat(pairs), after)
    requires F.Taken([name] + Flat(pairs), F.Mset, |received|) > 0
    ensures Head(name, 2 * |pairs|) <= |received|
    ensures 0 < upto == PairsIn(pairs, |received| - Head(name, 2 * |pairs|))
    ensures F.Taken([name] + Flat(pairs), F.Mset, |received|) == 1 + 2 * upto
  {
    hide Concat, ArrayPrefix, Flat, ParseItems, HeadersIn, WholeBulk, ParseArray, F.Size, F.Taken;
    FirstHeaders(name, pairs, |received|);
    ArrayOfPrefix([name] + Flat(pairs), after, |received|);
    assert received == CommandText(name, Flat(pairs), after)[..|received|];
    var view := ScanArray(received);
    upto := (|view.items| - 1) / 2;
  }

  lemma FirstHeaders(name: Bytes, pairs: seq<Pair>, k: nat)
    requires PairsOk(pairs) && AllWhole([name] + Flat(pairs)) && F.Taken([name] + Flat(pairs), F.Mset, k) > 0
    ensures Head(name, 2 * |pairs|) < k
    ensures var ws := [name] + Flat(pairs);
            var n := HeadersIn(ws, k - |ArrayPrefix(|ws|)|);
            && n >= 3 && (n - 1) / 2 == PairsIn(pairs, k - Head(name, 2 * |pairs|))
            && F.Taken(ws, F.Mset, k) == 1 + 2 * PairsIn(pairs, k - Head(name, 2 * |pairs|))
  {
    hide Concat, ArrayPrefix, Flat, WholeBulk;
    var ws := [name] + Flat(pairs);
    assert ws[1..] == Flat(pairs);
    FirstSize(name, Flat(pairs));
  }

  lemma FirstSize(name: Bytes, ws: seq<Bytes>)
    ensures F.Size([name] + ws, 1) == |ArrayPrefix(|ws| + 1)| + |name|
  {
    assert ([name] + ws)[..1] == [name] && [name][1..] == [];
    assert Concat([name]) == name + Concat([]) == name;
  }
}
