/**
 The RESP wire format as yarmproxy reads it: bulk strings, arrays of bulk
 strings, and the incremental parsers that accept a partly received text.
 A `char` stands for one byte on the wire.
 */
module Resp {
  import opened Decimal

  type Bytes = string

  const SIZE_PARSE_ERROR: int := -10001

  function Min(a: int, b: int): int {
    if a <= b then a else b
  }

  function Max(a: int, b: int): int {
    if a <= b then b else a
  }

  // ---------- concatenation ----------

  function Concat(ws: seq<Bytes>): Bytes {
    if ws == [] then [] else ws[0] + Concat(ws[1..])
  }

  function Sum(ns: seq<nat>): nat {
    if ns == [] then 0 else ns[0] + Sum(ns[1..])
  }

  function Lengths(ws: seq<Bytes>): (ns: seq<nat>)
    ensures |ns| == |ws| && forall i :: 0 <= i < |ws| ==> ns[i] == |ws[i]|
  {
    seq(|ws|, i requires 0 <= i < |ws| => |ws[i]|)
  }

  lemma {:induction false} ConcatAppend(a: seq<Bytes>, b: seq<Bytes>)
    ensures Concat(a + b) == Concat(a) + Concat(b)
  {
    if a == [] {
      assert a + b == b;
    } else {
      ConcatAppend(a[1..], b);
      assert (a + b)[0] == a[0];
      assert (a + b)[1..] == a[1..] + b;
      calc {
        Concat(a + b);
        a[0] + (Concat(a[1..]) + Concat(b));
        Concat(a) + Concat(b);
      }
    }
  }

  lemma ConcatSnoc(ws: seq<Bytes>, w: Bytes)
    ensures Concat(ws + [w]) == Concat(ws) + w
  {
    ConcatAppend(ws, [w]);
    assert Concat([w]) == w;
  }

  lemma ConcatTake(ws: seq<Bytes>, i: nat)
    requires i < |ws|
    ensures Concat(ws[..i + 1]) == Concat(ws[..i]) + ws[i]
  {
    assert ws[..i + 1] == ws[..i] + [ws[i]];
    ConcatSnoc(ws[..i], ws[i]);
  }

  lemma SubSlice(s: Bytes, a: nat, b: nat, i: nat, j: nat)
    requires a <= b <= |s| && i <= j <= b - a
    ensures s[a..b][i..j] == s[a + i..a + j]
  {
    var l, r := s[a..b][i..j], s[a + i..a + j];
    assert forall k :: 0 <= k < |l| ==> l[k] == s[a..b][i + k] == s[a + (i + k)] == r[k];
    assert l == r;
  }

  // What has been received of a text, from o on.
  lemma PrefixFrom(stream: Bytes, text: Bytes, o: nat)
    requires stream <= text && o <= |stream|
    ensures stream[o..] == text[o..][..|stream| - o]
  {
    var l, r := stream[o..], text[o..][..|stream| - o];
    assert forall k :: 0 <= k < |l| ==> l[k] == stream[o + k] == text[o + k] == text[o..][k] == r[k];
    assert l == r;
  }

  lemma ConcatSplit(ws: seq<Bytes>, i: nat)
    requires i <= |ws|
    ensures Concat(ws) == Concat(ws[..i]) + Concat(ws[i..])
  {
    assert ws == ws[..i] + ws[i..];
    ConcatAppend(ws[..i], ws[i..]);
  }

  lemma {:induction false} ConcatLength(ws: seq<Bytes>)
    ensures |Concat(ws)| == Sum(Lengths(ws))
  {
    if ws != [] {
      ConcatLength(ws[1..]);
      assert Lengths(ws)[1..] == Lengths(ws[1..]);
    }
  }

  // ---------- one bulk string ----------

  // What the text received so far says about the bulk that starts it.
  datatype Header = Pending | Malformed | Known(total: nat)

  // First '\r' at or after i, or the end of the text.
  function LineEnd(s: Bytes, i: nat): (e: nat)
    requires i <= |s|
    ensures i <= e <= |s|
    ensures forall k :: i <= k < e ==> s[k] != '\r'
    ensures e < |s| ==> s[e] == '\r'
    decreases |s| - i
  {
    if i == |s| || s[i] == '\r' then i else LineEnd(s, i + 1)
  }

  // The bulk parser. The length text is scanned up to '\r'; a length line
  // that is not complete yet is `Pending`.
  function ParseBulk(s: Bytes): (h: Header)
    ensures h.Known? ==> h.total >= 5
  {
    if |s| < 4 then Pending
    else if s[0] != '$' then Malformed
    else if s[1] == '-' then
      if s[2] != '1' then Malformed
      else if |s| < 5 then Pending
      else if s[3] != '\r' || s[4] != '\n' then Malformed
      else Known(5)
    else
      var e := LineEnd(s, 1);
      if e + 1 < |s| && s[e + 1] == '\n' then
        if AllDigits(s[1..e]) then Known(e + Value(s[1..e]) + 4) else Malformed
      else Pending
  }

  function PresentSize(s: Bytes): int {
    match ParseBulk(s)
    case Pending => 0
    case Malformed => SIZE_PARSE_ERROR
    case Known(total) => Min(|s|, total)
  }

  lemma LineEndUnique(s: Bytes, i: nat, e: nat)
    requires i <= e <= |s|
    requires forall k :: i <= k < e ==> s[k] != '\r'
    requires e < |s| ==> s[e] == '\r'
    ensures LineEnd(s, i) == e
    decreases e - i
  {
    if i < e {
      LineEndUnique(s, i + 1, e);
    }
  }

  // A verdict about a text is never revised when more bytes arrive.
  lemma ParseBulkExtends(s: Bytes, t: Bytes)
    requires !ParseBulk(s).Pending?
    ensures ParseBulk(s + t) == ParseBulk(s)
  {
    if s[0] == '$' && s[1] != '-' {
      var e := LineEnd(s, 1);
      LineEndUnique(s + t, 1, e);
      assert (s + t)[1..e] == s[1..e];
    }
  }

  // A byte string that is exactly one bulk, however its length is spelled.
  predicate WholeBulk(w: Bytes) {
    ParseBulk(w) == Known(|w|)
  }

  // Bytes of a whole bulk that must be present before the parser knows its size.
  function HeaderSize(w: Bytes): (n: nat)
    requires WholeBulk(w)
    ensures 4 <= n <= |w|
  {
    if w[1] == '-' then 5 else Max(4, LineEnd(w, 1) + 2)
  }

  lemma PrefixOfWhole(w: Bytes, k: nat)
    requires WholeBulk(w) && k <= |w|
    ensures ParseBulk(w[..k]) == if k < HeaderSize(w) then Pending else Known(|w|)
  {
    var p := w[..k];
    assert w == p + w[k..];
    if !ParseBulk(p).Pending? {
      ParseBulkExtends(p, w[k..]);
    }
    if k >= 4 && w[1] != '-' {
      var e := LineEnd(w, 1);
      LineEndUnique(p, 1, Min(e, k));
      if k >= HeaderSize(w) {
        assert p[1..e] == w[1..e];
      }
    }
  }

  // The same text followed by anything else.
  lemma WholeThenMore(w: Bytes, t: Bytes, k: nat)
    requires WholeBulk(w) && k <= |w + t|
    ensures ParseBulk((w + t)[..k]) == if k < HeaderSize(w) then Pending else Known(|w|)
  {
    if k <= |w| {
      assert (w + t)[..k] == w[..k];
      PrefixOfWhole(w, k);
    } else {
      assert (w + t)[..k] == w + (w + t)[|w|..k];
      ParseBulkExtends(w, (w + t)[|w|..k]);
    }
  }

  // The payload of a bulk: `payload_data()` and `payload_size()`. A nil bulk
  // has an empty payload.
  function Payload(w: Bytes): Bytes
    requires WholeBulk(w)
  {
    if w[1] == '-' then [] else w[LineEnd(w, 1) + 2..|w| - 2]
  }

  // The scanning loop of the bulk constructor and of `total_size()`.
  method ScanBulk(s: Bytes) returns (present: int, total: nat)
    ensures present == PresentSize(s)
    ensures ParseBulk(s).Known? ==> total == ParseBulk(s).total
  {
    total := 0;
    if |s| < 4 {
      return 0, 0;
    }
    if s[0] != '$' {
      return SIZE_PARSE_ERROR, 0;
    }
    if s[1] == '-' {
      if s[2] != '1' {
        return SIZE_PARSE_ERROR, 0;
      }
      if |s| < 5 {
        return 0, 0;
      }
      if s[3] != '\r' || s[4] != '\n' {
        return SIZE_PARSE_ERROR, 0;
      }
      return 5, 5;
    }
    var p := 1;
    var numeric := true;
    while p < |s| && s[p] != '\r'
      invariant 1 <= p <= |s|
      invariant forall k :: 1 <= k < p ==> s[k] != '\r'
      invariant numeric == AllDigits(s[1..p])
      invariant numeric ==> total == Value(s[1..p])
    {
      assert s[1..p + 1] == s[1..p] + [s[p]];
      ValueSnoc(s[1..p], s[p]);
      if numeric && IsDigit(s[p]) {
        total := total * 10 + DigitValue(s[p]);
      } else {
        numeric := false;
      }
      p := p + 1;
    }
    LineEndUnique(s, 1, p);
    if p + 1 < |s| && s[p + 1] == '\n' {
      if !numeric {
        return SIZE_PARSE_ERROR, 0;
      }
      total := p + total + 4;
      present := Min(|s|, total);
    } else {
      present := 0;
    }
  }

  // ---------- runs of bulks ----------

  datatype Items = Bad | Sizes(totals: seq<nat>)

  function Prepend(ts: seq<nat>, r: Items): Items {
    if r.Bad? then Bad else Sizes(ts + r.totals)
  }

  // The text after the first t bytes, empty if there are fewer.
  function Drop(s: Bytes, t: nat): Bytes {
    if t < |s| then s[t..] else []
  }

  // Bulks read off the front of a text: at most `max`, the last one possibly
  // only partly present.
  function ParseItems(s: Bytes, max: nat): (r: Items)
    ensures r.Sizes? ==> |r.totals| <= max
    decreases |s|
  {
    if s == [] || max == 0 then Sizes([]) else
    match ParseBulk(s)
    case Malformed => Bad
    case Pending => Sizes([])
    case Known(t) => Prepend([t], ParseItems(Drop(s, t), max - 1))
  }

  lemma ItemsStep(s: Bytes, max: nat, t: nat)
    requires s != [] && max > 0 && ParseBulk(s) == Known(t)
    ensures ParseItems(s, max) == Prepend([t], ParseItems(Drop(s, t), max - 1))
  {
  }

  lemma ItemsPending(s: Bytes, max: nat)
    requires s == [] || max == 0 || ParseBulk(s).Pending?
    ensures ParseItems(s, max) == Sizes([])
  {
  }

  lemma {:induction false} SumSnoc(ns: seq<nat>, n: nat)
    ensures Sum(ns + [n]) == Sum(ns) + n
  {
    if ns != [] {
      SumSnoc(ns[1..], n);
      assert (ns + [n])[1..] == ns[1..] + [n];
    }
  }

  lemma SumLast(ns: seq<nat>)
    requires ns != []
    ensures Sum(ns) == Sum(ns[..|ns| - 1]) + ns[|ns| - 1]
  {
    assert ns == ns[..|ns| - 1] + [ns[|ns| - 1]];
    SumSnoc(ns[..|ns| - 1], ns[|ns| - 1]);
  }

  lemma PrependTwice(ts: seq<nat>, t: nat, r: Items)
    ensures Prepend(ts, Prepend([t], r)) == Prepend(ts + [t], r)
  {
    if r.Sizes? {
      assert ts + ([t] + r.totals) == ts + [t] + r.totals;
    }
  }

  // The cursor stands at p with `totals` read: the rest of the text decides.
  ghost predicate ReadSoFar(s: Bytes, max: nat, p: nat, totals: seq<nat>) {
    && |totals| <= max
    && p == Sum(totals)
    && ParseItems(s, max) == Prepend(totals, ParseItems(Drop(s, p), max - |totals|))
  }

  lemma DropTwice(s: Bytes, p: nat, t: nat)
    requires p < |s|
    ensures Drop(s, p) == s[p..] && Drop(s[p..], t) == Drop(s, p + t)
  {
  }

  lemma ReadOneMore(s: Bytes, max: nat, p: nat, totals: seq<nat>, t: nat)
    requires ReadSoFar(s, max, p, totals) && |totals| < max && p < |s|
    requires ParseBulk(s[p..]) == Known(t)
    ensures ReadSoFar(s, max, p + t, totals + [t])
  {
    hide ParseItems, ParseBulk, Sum, Prepend;
    SumSnoc(totals, t);
    ItemsStep(s[p..], max - |totals|, t);
    DropTwice(s, p, t);
    PrependTwice(totals, t, ParseItems(Drop(s, p + t), max - |totals| - 1));
  }

  lemma ReadNothing(s: Bytes, max: nat)
    ensures ReadSoFar(s, max, 0, [])
  {
    assert Drop(s, 0) == s;
  }

  lemma ReadNoMore(s: Bytes, max: nat, p: nat, totals: seq<nat>)
    requires ReadSoFar(s, max, p, totals)
    requires p >= |s| || |totals| == max || ParseBulk(s[p..]).Pending?
    ensures ParseItems(s, max) == Sizes(totals) && p == Sum(totals)
  {
    ItemsPending(Drop(s, p), max - |totals|);
    assert totals + [] == totals;
  }

  lemma ReadBad(s: Bytes, max: nat, p: nat, totals: seq<nat>)
    requires ReadSoFar(s, max, p, totals) && |totals| < max && p < |s|
    requires ParseBulk(s[p..]).Malformed?
    ensures ParseItems(s, max).Bad?
  {
  }

  // `ParseBulkItems`: the loop that walks a cursor over the text.
  method ParseBulkItems(s: Bytes, max: nat) returns (parsed: int, totals: seq<nat>)
    ensures ParseItems(s, max).Bad? <==> parsed < 0
    ensures parsed >= 0 ==> ParseItems(s, max) == Sizes(totals) && parsed == Sum(totals)
  {
    var p: nat := 0;
    parsed := 0;
    totals := [];
    hide ReadSoFar, ParseItems, Sum, Drop;
    ReadNothing(s, max);
    while p < |s| && |totals| < max
      invariant parsed == p
      invariant ReadSoFar(s, max, p, totals)
      decreases |s| - p
    {
      var present, total := ScanBulk(s[p..]);
      if present < 0 {
        ReadBad(s, max, p, totals);
        return -1, totals;
      }
      if present == 0 {
        break;
      }
      ReadOneMore(s, max, p, totals, total);
      totals := totals + [total];
      p := p + total;
      parsed := parsed + total;
    }
    ReadNoMore(s, max, p, totals);
  }

  predicate AllWhole(ws: seq<Bytes>) {
    forall i :: 0 <= i < |ws| ==> WholeBulk(ws[i])
  }

  lemma WholeSize(ws: seq<Bytes>, i: nat)
    requires AllWhole(ws) && i < |ws|
    ensures |ws[i]| >= 5
  {
    assert WholeBulk(ws[i]);
  }

  // How many of the bulks `ws` have their header within the first k bytes.
  function HeadersIn(ws: seq<Bytes>, k: nat): (n: nat)
    requires AllWhole(ws)
    ensures n <= |ws|
  {
    if ws == [] || k < HeaderSize(ws[0]) then 0
    else if k <= |ws[0]| then 1
    else 1 + HeadersIn(ws[1..], k - |ws[0]|)
  }

  lemma {:induction false} HeadersInExact(ws: seq<Bytes>, k: nat, i: nat)
    requires AllWhole(ws) && i < |ws|
    ensures i < HeadersIn(ws, k) <==> |Concat(ws[..i])| + HeaderSize(ws[i]) <= k
  {
    if i > 0 {
      assert ws[..i][0] == ws[0] && ws[..i][1..] == ws[1..][..i - 1];
      if k > |ws[0]| {
        HeadersInExact(ws[1..], k - |ws[0]|, i - 1);
      }
    }
  }

  lemma LengthsTake(ws: seq<Bytes>, n: nat)
    requires n < |ws|
    ensures Lengths(ws[..n + 1]) == [|ws[0]|] + Lengths(ws[1..][..n])
  {
    assert ws[..n + 1] == [ws[0]] + ws[1..][..n];
  }

  // Cutting a sequence of bulks anywhere, with anything after it, reveals
  // exactly the bulks whose headers were received.
  lemma {:induction false} ItemsOfPrefix(ws: seq<Bytes>, rest: Bytes, k: nat)
    requires AllWhole(ws) && k <= |Concat(ws) + rest|
    ensures ParseItems((Concat(ws) + rest)[..k], |ws|) == Sizes(Lengths(ws[..HeadersIn(ws, k)]))
  {
    hide ParseBulk, ParseItems, HeaderSize, Lengths;
    var s := (Concat(ws) + rest)[..k];
    if ws == [] {
      ItemsPending(s, 0);
    } else {
      var w, tail := ws[0], Concat(ws[1..]) + rest;
      assert Concat(ws) + rest == w + tail;
      WholeThenMore(w, tail, k);
      if k < HeaderSize(w) {
        ItemsPending(s, |ws|);
      } else {
        var m := if k > |w| then k - |w| else 0;
        assert Drop(s, |w|) == tail[..m];
        ItemsStep(s, |ws|, |w|);
        ItemsOfPrefix(ws[1..], rest, m);
        LengthsTake(ws, HeadersIn(ws[1..], m));
      }
    }
  }

  // The same for bulks that lie at position o of a text of which `stream` has arrived.
  lemma ItemsCut(ws: seq<Bytes>, count: nat, rest: Bytes, text: Bytes, stream: Bytes, o: nat)
    requires AllWhole(ws) && count == |ws| && stream <= text && o <= |stream| && text[o..] == Concat(ws) + rest
    ensures ParseItems(stream[o..], count) == Sizes(Lengths(ws[..HeadersIn(ws, |stream| - o)]))
  {
    hide *;
    PrefixFrom(stream, text, o);
    ItemsOfPrefix(ws, rest, |stream| - o);
  }

  // ---------- arrays ----------

  datatype ArrayView =
    | Short
    | Broken
    | Parsed(header: nat, bulks: nat, items: seq<nat>)
  {
    function ParsedSize(): int {
      match this
      case Short => 0
      case Broken => SIZE_PARSE_ERROR
      case Parsed(h, _, items) => h + Sum(items)
    }

    function Items(): seq<nat> {
      if Parsed? then items else []
    }

    // Start of the i-th bulk.
    function Offset(i: nat): nat
      requires Parsed? && i <= |items|
    {
      header + Sum(items[..i])
    }

    // The text of the i-th bulk within s.
    function Item(s: Bytes, i: nat): Bytes
      requires Parsed? && i < |items| && Offset(i) + items[i] <= |s|
    {
      s[Offset(i)..Offset(i) + items[i]]
    }

    // `completed()`, for a text of the given length.
    predicate Completed(size: nat) {
      Parsed? && |items| == bulks && (items != [] ==> header + Sum(items) <= size)
    }

    function TotalSize(): nat {
      if !Parsed? || |items| < bulks then 0
      else if bulks == 0 then 4
      else header + Sum(items)
    }
  }

  function DigitEnd(s: Bytes, i: nat): (e: nat)
    requires i <= |s|
    ensures i <= e <= |s| && AllDigits(s[i..e])
    ensures e < |s| ==> !IsDigit(s[e])
    decreases |s| - i
  {
    if i == |s| || !IsDigit(s[i]) then i
    else
      var e := DigitEnd(s, i + 1);
      assert forall k :: 0 <= k < e - i ==> s[i..e][k] == if k == 0 then s[i] else s[i + 1..e][k - 1];
      e
  }

  function ParseArray(s: Bytes): ArrayView {
    if |s| < 4 then Short
    else if s[0] != '*' then Broken
    else
      var e := DigitEnd(s, 1);
      if e + 2 > |s| then Short
      else if e == 1 || s[e] != '\r' || s[e + 1] != '\n' then Broken
      else
        var n := Value(s[1..e]);
        match ParseItems(s[e + 2..], n)
        case Bad => Broken
        case Sizes(ts) => Parsed(e + 2, n, ts)
  }

  // `total_bulks()`: the count in the header, whatever follows it.
  function TotalBulks(s: Bytes): nat
    requires s != []
  {
    Value(s[1..DigitEnd(s, 1)])
  }

  method ScanArray(s: Bytes) returns (view: ArrayView)
    ensures view == ParseArray(s)
  {
    if |s| < 4 {
      return Short;
    }
    if s[0] != '*' {
      return Broken;
    }
    var bulks: nat := 0;
    var p := 1;
    while p < |s| && IsDigit(s[p])
      invariant 1 <= p <= |s|
      invariant DigitEnd(s, 1) == DigitEnd(s, p)
      invariant AllDigits(s[1..p]) && bulks == Value(s[1..p])
    {
      assert s[1..p + 1] == s[1..p] + [s[p]];
      ValueSnoc(s[1..p], s[p]);
      bulks := bulks * 10 + DigitValue(s[p]);
      p := p + 1;
    }
    if p + 2 > |s| {
      return Short;
    }
    if p == 1 || s[p] != '\r' || s[p + 1] != '\n' {
      return Broken;
    }
    var parsed, totals := ParseBulkItems(s[p + 2..], bulks);
    if parsed < 0 {
      return Broken;
    }
    return Parsed(p + 2, bulks, totals);
  }

  // `SerializePrefix`
  function ArrayPrefix(n: nat): (s: Bytes)
    ensures |s| >= 4
  {
    "*" + Digits(n) + "\r\n"
  }

  function EncodeArray(ws: seq<Bytes>): Bytes {
    ArrayPrefix(|ws|) + Concat(ws)
  }

  lemma DigitEndUnique(s: Bytes, i: nat, e: nat)
    requires i <= e <= |s|
    requires AllDigits(s[i..e])
    requires e < |s| ==> !IsDigit(s[e])
    ensures DigitEnd(s, i) == e
    decreases e - i
  {
    if i < e {
      assert s[i..e][0] == s[i];
      assert s[i..e][1..] == s[i + 1..e];
      DigitEndUnique(s, i + 1, e);
    }
  }

  lemma PrefixDigits(n: nat, t: Bytes, k: nat)
    requires 1 <= k <= |ArrayPrefix(n) + t|
    ensures DigitEnd((ArrayPrefix(n) + t)[..k], 1) == Min(k, |ArrayPrefix(n)| - 2)
    ensures k >= |ArrayPrefix(n)| - 2 ==> (ArrayPrefix(n) + t)[..k][1..|ArrayPrefix(n)| - 2] == Digits(n)
  {
    var p := ArrayPrefix(n);
    var s := (p + t)[..k];
    var e := Min(k, |p| - 2);
    forall i | 0 <= i < e - 1 ensures s[1..e][i] == Digits(n)[i] && IsDigit(s[1..e][i]) {
      assert s[1..e][i] == s[i + 1] == p[i + 1] == Digits(n)[i];
    }
    if e < k {
      assert s[e] == p[e] == '\r';
    }
    DigitEndUnique(s, 1, e);
  }

  // The first k bytes of an encoded array (and whatever follows it) as the
  // parser should see them.
  function CutView(ws: seq<Bytes>, k: nat): ArrayView
    requires AllWhole(ws)
  {
    var h := |ArrayPrefix(|ws|)|;
    if k < h then Short else Parsed(h, |ws|, Lengths(ws[..HeadersIn(ws, k - h)]))
  }

  // The prefix theorem: an array of bulks followed by anything, cut anywhere,
  // is `Short` until its count line is in, and from then on shows exactly the
  // bulks whose headers were received.
  lemma ArrayOfPrefix(ws: seq<Bytes>, rest: Bytes, k: nat)
    requires AllWhole(ws) && k <= |EncodeArray(ws) + rest|
    ensures ParseArray((EncodeArray(ws) + rest)[..k]) == CutView(ws, k)
  {
    hide ParseItems, Value, Digits, Concat, AllWhole, HeadersIn, Lengths, DigitEnd;
    var n := |ws|;
    var p := ArrayPrefix(n);
    var t := Concat(ws) + rest;
    var s := (EncodeArray(ws) + rest)[..k];
    assert EncodeArray(ws) + rest == p + t;
    if k >= 4 {
      PrefixDigits(n, t, k);
      assert s[0] == p[0] == '*';
      if k >= |p| {
        ValueOfDigits(n);
        assert s[|p|..] == t[..k - |p|];
        assert s[|p| - 2] == p[|p| - 2] && s[|p| - 1] == p[|p| - 1];
        ItemsOfPrefix(ws, rest, k - |p|);
      }
    }
  }

  lemma {:induction false} AllHeadersIn(ws: seq<Bytes>, k: nat)
    requires AllWhole(ws) && |Concat(ws)| <= k
    ensures HeadersIn(ws, k) == |ws|
  {
    if ws != [] {
      AllHeadersIn(ws[1..], k - |ws[0]|);
      assert ws[1..] != [] ==> |Concat(ws[1..])| >= |ws[1]| >= 5;
    }
  }

  lemma SizesOfTake(ws: seq<Bytes>, n: nat, i: nat)
    requires i <= n <= |ws|
    ensures Sum(Lengths(ws[..n])[..i]) == |Concat(ws[..i])|
  {
    assert Lengths(ws[..n])[..i] == Lengths(ws[..i]);
    ConcatLength(ws[..i]);
  }

  // Which bulks a cut shows, and where they start.
  lemma CutOffsets(ws: seq<Bytes>, k: nat)
    requires AllWhole(ws) && |ArrayPrefix(|ws|)| <= k
    ensures var v := CutView(ws, k);
            var n := |v.items|;
            && n <= |ws|
            && v.ParsedSize() == v.header + |Concat(ws[..n])|
            && (forall i :: 0 <= i <= n ==> v.Offset(i) == v.header + |Concat(ws[..i])|)
            && (n > 0 ==> v.Offset(n - 1) + HeaderSize(ws[n - 1]) <= k)
            && (n < |ws| ==> k < v.ParsedSize() + HeaderSize(ws[n]))
  {
    var v := CutView(ws, k);
    var n := |v.items|;
    forall i | 0 <= i <= n
      ensures Sum(v.items[..i]) == |Concat(ws[..i])|
    {
      SizesOfTake(ws, n, i);
    }
    assert v.items[..n] == v.items;
    if n > 0 {
      HeadersInExact(ws, k - v.header, n - 1);
    }
    if n < |ws| {
      HeadersInExact(ws, k - v.header, n);
    }
  }

  // A cut is complete exactly when the whole array was received.
  lemma CutCompleted(ws: seq<Bytes>, k: nat)
    requires AllWhole(ws)
    ensures var v := CutView(ws, k);
            && (v.Completed(k) <==> |EncodeArray(ws)| <= k)
            && (v.Completed(k) ==> v.TotalSize() == v.ParsedSize() == |EncodeArray(ws)|)
  {
    var v := CutView(ws, k);
    if v.Parsed? {
      CutOffsets(ws, k);
      if |EncodeArray(ws)| <= k {
        AllHeadersIn(ws, k - v.header);
      }
      if |v.items| == |ws| {
        assert ws[..|ws|] == ws;
        if ws == [] {
          assert Digits(0) == "0";
        }
      }
    }
  }

  // ---------- values ----------

  datatype Reply = Nil | Str(payload: Bytes)

  function EncodeBulk(v: Reply): Bytes {
    match v
    case Nil => "$-1\r\n"
    case Str(p) => "$" + Digits(|p|) + "\r\n" + p + "\r\n"
  }

  function DecodeBulk(w: Bytes): Reply
    requires WholeBulk(w)
  {
    if w[1] == '-' then Nil else Str(Payload(w))
  }

  function EncodeBulks(vs: seq<Reply>): (ws: seq<Bytes>)
    ensures |ws| == |vs| && forall i :: 0 <= i < |vs| ==> ws[i] == EncodeBulk(vs[i])
  {
    seq(|vs|, i requires 0 <= i < |vs| => EncodeBulk(vs[i]))
  }

  lemma BulkRoundTrip(v: Reply)
    ensures WholeBulk(EncodeBulk(v)) && DecodeBulk(EncodeBulk(v)) == v
  {
    var w := EncodeBulk(v);
    if v.Str? {
      var ds := Digits(|v.payload|);
      var e := 1 + |ds|;
      assert w[1..e] == ds;
      forall k | 1 <= k < e ensures w[k] != '\r' {
        assert w[k] == ds[k - 1];
        assert IsDigit(ds[k - 1]);
      }
      assert w[1] == ds[0] && IsDigit(ds[0]);
      LineEndUnique(w, 1, e);
      ValueOfDigits(|v.payload|);
      assert w[e + 2..|w| - 2] == v.payload;
    }
  }

  // Some texts of the protocol, spelled out.
  lemma KnownTexts()
    ensures ArrayPrefix(16) == "*16\r\n" && ArrayPrefix(7) == "*7\r\n"
    ensures EncodeBulk(Str("foobar")) == "$6\r\nfoobar\r\n" && EncodeBulk(Nil) == "$-1\r\n"
    ensures ParseBulk("$6\r\nfoobar\r\n") == Known(12) && Payload("$6\r\nfoobar\r\n") == "foobar"
    ensures ParseBulk("$6\r") == Pending && ParseBulk("$6\r\n") == Known(12) && ParseBulk("*6\r\n") == Malformed
    ensures PresentSize("*6\r\n") == -10001 && PresentSize("$6\r\nfoo") == 7
    ensures ParseBulk("$-1\r\n") == Known(5) && Payload("$-1\r\n") == ""
  {
    DigitsAreDecimal(6);
    DigitsAreDecimal(7);
    DigitsAreDecimal(1);
    Positional(1, 6, []);
    var w := EncodeBulk(Str("foobar"));
    assert w == "$6\r\nfoobar\r\n";
    BulkRoundTrip(Str("foobar"));
    PrefixOfWhole(w, 4);
    PrefixOfWhole(w, 3);
    assert w[..4] == "$6\r\n" && w[..3] == "$6\r";
    BulkRoundTrip(Nil);
  }

  lemma EncodedWhole(vs: seq<Reply>)
    ensures AllWhole(EncodeBulks(vs))
  {
    forall i | 0 <= i < |vs| ensures WholeBulk(EncodeBulks(vs)[i]) {
      BulkRoundTrip(vs[i]);
    }
  }

  lemma ItemAt(ws: seq<Bytes>, i: nat)
    requires i < |ws|
    ensures var o := |Concat(ws[..i])|;
            o + |ws[i]| <= |Concat(ws)| && Concat(ws)[o..o + |ws[i]|] == ws[i]
  {
    ConcatSplit(ws, i + 1);
    ConcatTake(ws, i);
  }

  // A whole array parses into exactly its bulks.
  lemma ArrayExact(ws: seq<Bytes>)
    requires AllWhole(ws)
    ensures ParseArray(EncodeArray(ws)) == Parsed(|ArrayPrefix(|ws|)|, |ws|, Lengths(ws))
  {
    var s := EncodeArray(ws);
    ArrayOfPrefix(ws, [], |s|);
    assert (s + [])[..|s|] == s;
    AllHeadersIn(ws, |s| - |ArrayPrefix(|ws|)|);
    assert ws[..|ws|] == ws;
  }

  lemma ArrayItem(ws: seq<Bytes>, i: nat)
    requires i < |ws|
    ensures var v := Parsed(|ArrayPrefix(|ws|)|, |ws|, Lengths(ws));
            v.Offset(i) + v.items[i] <= |EncodeArray(ws)| && v.Item(EncodeArray(ws), i) == ws[i]
  {
    var h := |ArrayPrefix(|ws|)|;
    var o := |Concat(ws[..i])|;
    assert ws[..|ws|] == ws;
    SizesOfTake(ws, |ws|, i);
    ItemAt(ws, i);
    assert EncodeArray(ws)[h + o..h + o + |ws[i]|] == Concat(ws)[o..o + |ws[i]|];
  }

  lemma ArrayComplete(ws: seq<Bytes>)
    ensures var v := Parsed(|ArrayPrefix(|ws|)|, |ws|, Lengths(ws));
            v.Completed(|EncodeArray(ws)|) && v.TotalSize() == v.ParsedSize() == |EncodeArray(ws)|
  {
    ConcatLength(ws);
    if ws == [] {
      assert Digits(0) == "0";
    }
  }

  // A whole array shows each of its bulks.
  lemma ArrayShows(ws: seq<Bytes>, i: nat)
    requires AllWhole(ws) && i < |ws|
    ensures var s := EncodeArray(ws);
            var v := ParseArray(s);
            && v.Parsed? && v.bulks == |v.items| == |ws| && v.Completed(|s|)
            && v.Offset(i) + v.items[i] <= |s| && v.Item(s, i) == ws[i]
  {
    hide WholeBulk, ArrayPrefix, Concat, ParseArray;
    ArrayExact(ws);
    ArrayComplete(ws);
    ArrayItem(ws, i);
  }

  // Parsing an encoded list of values gives the list back, complete, with
  // nothing left over.
  lemma ArrayRoundTrip(vs: seq<Reply>)
    ensures var s := EncodeArray(EncodeBulks(vs));
            var v := ParseArray(s);
            && v.Parsed? && v.bulks == |v.items| == |vs|
            && v.Completed(|s|) && v.TotalSize() == v.ParsedSize() == |s|
            && forall i :: 0 <= i < |vs| ==>
                 && v.Offset(i) + v.items[i] <= |s|
                 && WholeBulk(v.Item(s, i)) && DecodeBulk(v.Item(s, i)) == vs[i]
  {
    var ws := EncodeBulks(vs);
    EncodedWhole(vs);
    ArrayExact(ws);
    ArrayComplete(ws);
    forall i | 0 <= i < |vs|
      ensures var v := Parsed(|ArrayPrefix(|ws|)|, |ws|, Lengths(ws));
              && v.Offset(i) + v.items[i] <= |EncodeArray(ws)|
              && WholeBulk(v.Item(EncodeArray(ws), i))
              && DecodeBulk(v.Item(EncodeArray(ws), i)) == vs[i]
    {
      ArrayItem(ws, i);
      BulkRoundTrip(vs[i]);
    }
  }
}
