/**
 Cutting the client's byte stream into commands: the command table, what
 `CreateCommand` makes of the bytes at hand, and where each command and each of
 its bulks lies in a pipelined stream.
 */
module Framing {
  import opened Decimal
  import opened Resp
  import opened Net

  datatype Kind = Basic | Set | Mset | Mget | Del | Stats

  function ToLower(c: char): char {
    if 'A' <= c <= 'Z' then (c as int + 32) as char else c
  }

  function Lower(s: Bytes): (r: Bytes)
    ensures |r| == |s|
  {
    seq(|s|, i requires 0 <= i < |s| => ToLower(s[i]))
  }

  // `GetRedisCommandType`
  function KindOf(name: Bytes): Option<Kind> {
    var n := Lower(name);
    if n in {"get", "getset", "getrange", "ttl", "incr", "incrby", "incrbyfloat", "decr", "decrby", "strlen"}
    then Some(Basic)
    else if n in {"set", "append", "setrange", "setnx", "psetex", "setex"} then Some(Set)
    else if n == "mset" then Some(Mset)
    else if n == "mget" then Some(Mget)
    else if n in {"del", "exists", "touch"} then Some(Del)
    else if n == "yarmstats" then Some(Stats)
    else None
  }

  // The kind of a command given as the list of its bulks.
  function KindOfCommand(ws: seq<Bytes>): Option<Kind> {
    if ws != [] && WholeBulk(ws[0]) then KindOf(Payload(ws[0])) else None
  }

  // A command the proxy supports.
  predicate Supported(ws: seq<Bytes>, capacity: nat) {
    && AllWhole(ws) && ws != []
    && |ArrayPrefix(|ws|)| <= capacity / 2
    && KindOfCommand(ws).Some?
    && match KindOfCommand(ws).value
       case Stats => true
       case Mset => |ws| >= 3 && |ws| % 2 == 1
       case _ => |ws| >= 2
  }

  // Outcome of `CreateCommand`: wait, answer with an error, leave to the
  // memcached commands, or a new command that takes the first `taken` bulks of
  // its array, `size` bytes in all, and leaves `unparsed` bulks for later.
  datatype Create = NeedMore | Error | Memcached | New(kind: Kind, taken: nat, size: nat, unparsed: nat)

  predicate HasNewLine(s: Bytes) {
    exists i :: 0 <= i < |s| && s[i] == '\n'
  }

  // The command is built from the array as far as it is present.
  function FromArray(view: ArrayView, kind: Kind, size: nat): Create
    requires view.Parsed? && view.items != []
  {
    var n := |view.items|;
    var absent := if view.bulks >= n then view.bulks - n else 0;
    match kind
    case Set =>
      if n < 2 || view.Offset(2) > size then NeedMore
      else New(Set, n, view.header + Sum(view.items), absent)
    case Mset =>
      if n < 3 then NeedMore
      else if n % 2 == 0 then New(Mset, n - 1, view.Offset(n - 1), absent + absent % 2)
      else New(Mset, n, view.header + Sum(view.items), absent + absent % 2)
    case Del =>
      if n < 2 || view.Offset(2) > size then NeedMore
      else if view.header + Sum(view.items) <= size then New(Del, n, view.header + Sum(view.items), absent)
      else New(Del, n - 1, view.Offset(n - 1), absent + 1)
    case _ =>
      if !view.Completed(size) then NeedMore else New(kind, n, view.TotalSize(), 0)
  }

  // `CreateCommand`, for a buffer of the given capacity.
  function CreateCommand(buf: Bytes, capacity: nat): Create
    requires buf != []
  {
    if !HasNewLine(buf) then
      if |buf| > capacity / 2 then Error else NeedMore
    else if buf[0] != '*' then Memcached
    else
      var view := ParseArray(buf);
      if TotalBulks(buf) == 0 then Error
      else if view.Items() == [] || view.Offset(1) > |buf| then NeedMore
      else if !WholeBulk(view.Item(buf, 0)) then Error
      else match KindOf(Payload(view.Item(buf, 0)))
           case None => Error
           case Some(kind) => FromArray(view, kind, |buf|)
  }

  // Bytes of a command up to and including its first m bulks.
  function Size(ws: seq<Bytes>, m: nat): nat
    requires m <= |ws|
  {
    |ArrayPrefix(|ws|)| + |Concat(ws[..m])|
  }

  // How many bulks of a command are taken when it is created from its first k
  // bytes; 0 while more bytes are needed.
  function Taken(ws: seq<Bytes>, kind: Kind, k: nat): (m: nat)
    requires AllWhole(ws) && ws != []
    ensures m <= |ws|
  {
    var h := |ArrayPrefix(|ws|)|;
    if k < Size(ws, 1) then 0
    else
      var n := HeadersIn(ws, k - h);
      match kind
      case Set => if |ws| >= 2 && k >= Size(ws, 2) then n else 0
      case Mset => if n < 3 then 0 else if n % 2 == 1 then n else n - 1
      case Del =>
        if |ws| >= 2 && k >= Size(ws, 2) then (if n == 0 || Size(ws, n) <= k then n else n - 1) else 0
      case _ => if k >= |EncodeArray(ws)| then |ws| else 0
  }

  lemma PrefixHasNewLine(ws: seq<Bytes>, rest: Bytes, k: nat)
    requires 0 < k <= |EncodeArray(ws) + rest|
    ensures HasNewLine((EncodeArray(ws) + rest)[..k]) <==> k >= |ArrayPrefix(|ws|)|
    ensures (EncodeArray(ws) + rest)[..k][0] == '*'
  {
    var p := ArrayPrefix(|ws|);
    var s := (EncodeArray(ws) + rest)[..k];
    if k >= |p| {
      assert s[|p| - 1] == p[|p| - 1] == '\n';
    } else {
      forall i | 0 <= i < k ensures s[i] != '\n' {
        assert s[i] == p[i];
        if 0 < i < |p| - 2 {
          assert p[i] == Digits(|ws|)[i - 1];
        }
      }
    }
  }

  lemma CountPresent(ws: seq<Bytes>, rest: Bytes, k: nat)
    requires |ArrayPrefix(|ws|)| <= k <= |EncodeArray(ws) + rest|
    ensures TotalBulks((EncodeArray(ws) + rest)[..k]) == |ws|
  {
    hide Concat;
    assert EncodeArray(ws) + rest == ArrayPrefix(|ws|) + (Concat(ws) + rest);
    PrefixDigits(|ws|, Concat(ws) + rest, k);
    ValueOfDigits(|ws|);
  }

  lemma FirstItem(ws: seq<Bytes>, rest: Bytes, k: nat)
    requires AllWhole(ws) && ws != [] && Size(ws, 1) <= k <= |EncodeArray(ws) + rest|
    ensures var v := CutView(ws, k);
            v.Parsed? && v.items != [] && v.Offset(1) == Size(ws, 1) && v.Offset(0) + v.items[0] <= k
            && v.Item((EncodeArray(ws) + rest)[..k], 0) == ws[0]
  {
    hide WholeBulk, ArrayPrefix;
    var h := |ArrayPrefix(|ws|)|;
    var v := CutView(ws, k);
    var s := (EncodeArray(ws) + rest)[..k];
    assert Concat(ws[..1]) == ws[0] by {
      ConcatTake(ws, 0);
      assert Concat(ws[..0]) == [];
    }
    HeadersInExact(ws, k - h, 0);
    CutOffsets(ws, k);
    ItemAt(ws, 0);
    assert s[h..h + |ws[0]|] == Concat(ws)[0..|ws[0]|];
  }

  lemma SizeAll(ws: seq<Bytes>)
    ensures Size(ws, |ws|) == |EncodeArray(ws)|
  {
    assert ws[..|ws|] == ws;
  }

  lemma SizeNext(ws: seq<Bytes>, m: nat)
    requires m < |ws|
    ensures Size(ws, m + 1) == Size(ws, m) + |ws[m]|
  {
    ConcatTake(ws, m);
  }

  // A bulk that is there has its header there.
  lemma WholeIsSeen(ws: seq<Bytes>, m: nat, k: nat)
    requires AllWhole(ws) && m < |ws| && Size(ws, m + 1) <= k
    ensures m < HeadersIn(ws, k - |ArrayPrefix(|ws|)|)
  {
    hide WholeBulk, ArrayPrefix, HeadersIn, Concat;
    SizeNext(ws, m);
    HeadersInExact(ws, k - |ArrayPrefix(|ws|)|, m);
  }

  lemma CutSizes(ws: seq<Bytes>, k: nat)
    requires AllWhole(ws) && |ArrayPrefix(|ws|)| <= k
    ensures var v := CutView(ws, k);
            && v.Parsed? && v.bulks == |ws| && |v.items| == HeadersIn(ws, k - |ArrayPrefix(|ws|)|)
            && v.header + Sum(v.items) == Size(ws, |v.items|)
            && forall i :: 0 <= i <= |v.items| ==> v.Offset(i) == Size(ws, i)
  {
    hide WholeBulk, ArrayPrefix, HeadersIn, Concat;
    CutOffsets(ws, k);
  }

  // A command built from a cut takes exactly the bulks the cut allows.
  lemma FromCut(ws: seq<Bytes>, kind: Kind, k: nat)
    requires AllWhole(ws) && |ws| >= 1 && Size(ws, 1) <= k
    requires kind.Mset? ==> |ws| % 2 == 1
    ensures var v := CutView(ws, k);
            var m := Taken(ws, kind, k);
            && v.Parsed? && v.items != []
            && FromArray(v, kind, k) == if m == 0 then NeedMore else New(kind, m, Size(ws, m), |ws| - m)
  {
    hide WholeBulk, ArrayPrefix, HeadersIn, CutView, EncodeArray, Size;
    SizeAtLeast(ws);
    CutSizes(ws, k);
    WholeIsSeen(ws, 0, k);
    match kind {
      case Set =>
        if |ws| >= 2 && k >= Size(ws, 2) {
          WholeIsSeen(ws, 1, k);
        }
      case Mset =>
      case Del =>
        if |ws| >= 2 && k >= Size(ws, 2) {
          WholeIsSeen(ws, 1, k);
        }
      case _ =>
        CutCompleted(ws, k);
        SizeAll(ws);
    }
  }

  lemma SizeAtLeast(ws: seq<Bytes>)
    requires ws != []
    ensures |ArrayPrefix(|ws|)| <= Size(ws, 1)
  {
  }

  // What `CreateCommand` makes of any received prefix of a supported command
  // and whatever follows it.
  lemma CreateOnPrefix(ws: seq<Bytes>, rest: Bytes, k: nat, capacity: nat)
    requires Supported(ws, capacity) && 0 < k <= |EncodeArray(ws) + rest|
    ensures var kind := KindOfCommand(ws).value;
            var m := Taken(ws, kind, k);
            CreateCommand((EncodeArray(ws) + rest)[..k], capacity) ==
            if m == 0 then NeedMore else New(kind, m, Size(ws, m), |ws| - m)
  {
    hide WholeBulk, ArrayPrefix, HeadersIn, CutView, EncodeArray, Size, ParseArray, HasNewLine, FromArray, TotalBulks,
         KindOf, Payload, Taken, KindOfCommand;
    FirstKind(ws, capacity);
    SizeAtLeast(ws);
    PrefixHasNewLine(ws, rest, k);
    if k < |ArrayPrefix(|ws|)| {
      TakenNothing(ws, KindOfCommand(ws).value, k);
    } else {
      ArrayOfPrefix(ws, rest, k);
      CountPresent(ws, rest, k);
      if k < Size(ws, 1) {
        TakenNothing(ws, KindOfCommand(ws).value, k);
        NoFirstItem(ws, k);
      } else {
        FirstItem(ws, rest, k);
        FromCut(ws, KindOfCommand(ws).value, k);
      }
    }
  }

  lemma FirstKind(ws: seq<Bytes>, capacity: nat)
    requires Supported(ws, capacity)
    ensures WholeBulk(ws[0]) && KindOf(Payload(ws[0])) == KindOfCommand(ws)
  {
  }

  lemma TakenNothing(ws: seq<Bytes>, kind: Kind, k: nat)
    requires AllWhole(ws) && ws != [] && k < Size(ws, 1)
    ensures Taken(ws, kind, k) == 0
  {
  }

  lemma NoFirstItem(ws: seq<Bytes>, k: nat)
    requires AllWhole(ws) && ws != [] && |ArrayPrefix(|ws|)| <= k < Size(ws, 1)
    ensures var v := CutView(ws, k);
            v.Parsed? && (v.items == [] || v.Offset(1) > k)
  {
    hide WholeBulk, ArrayPrefix, HeadersIn, Size;
    CutSizes(ws, k);
  }

  // ---------- the command table, name by name ----------

  lemma {:induction false} LowerSame(name: Bytes)
    requires forall i :: 0 <= i < |name| ==> !('A' <= name[i] <= 'Z')
    ensures Lower(name) == name
  {
    assert forall i :: 0 <= i < |name| ==> Lower(name)[i] == name[i];
  }

  lemma BasicNames()
    ensures KindOf("get") == Some(Basic)
    ensures KindOf("getset") == Some(Basic)
    ensures KindOf("getrange") == Some(Basic)
    ensures KindOf("ttl") == Some(Basic)
    ensures KindOf("incr") == Some(Basic)
    ensures KindOf("incrby") == Some(Basic)
    ensures KindOf("incrbyfloat") == Some(Basic)
    ensures KindOf("decr") == Some(Basic)
    ensures KindOf("decrby") == Some(Basic)
    ensures KindOf("strlen") == Some(Basic)
  {
    LowerSame("get");
    LowerSame("getset");
    LowerSame("getrange");
    LowerSame("ttl");
    LowerSame("incr");
    LowerSame("incrby");
    LowerSame("incrbyfloat");
    LowerSame("decr");
    LowerSame("decrby");
    LowerSame("strlen");
  }

  lemma SetNames()
    ensures KindOf("set") == Some(Set)
    ensures KindOf("append") == Some(Set)
    ensures KindOf("setrange") == Some(Set)
    ensures KindOf("setnx") == Some(Set)
    ensures KindOf("psetex") == Some(Set)
    ensures KindOf("setex") == Some(Set)
  {
    LowerSame("set");
    LowerSame("append");
    LowerSame("setrange");
    LowerSame("setnx");
    LowerSame("psetex");
    LowerSame("setex");
  }

  lemma OtherNames()
    ensures KindOf("mset") == Some(Mset)
    ensures KindOf("mget") == Some(Mget)
    ensures KindOf("del") == Some(Del)
    ensures KindOf("exists") == Some(Del)
    ensures KindOf("touch") == Some(Del)
    ensures KindOf("yarmstats") == Some(Stats)
  {
    LowerSame("mset");
    LowerSame("mget");
    LowerSame("del");
    LowerSame("exists");
    LowerSame("touch");
    LowerSame("yarmstats");
  }

  // Any other name in lower case has no kind.
  lemma NoOtherNames(name: Bytes)
    requires forall i :: 0 <= i < |name| ==> !('A' <= name[i] <= 'Z')
    requires name !in {"get", "getset", "getrange", "ttl", "incr", "incrby", "incrbyfloat", "decr", "decrby", "strlen"}
    requires name !in {"set", "append", "setrange", "setnx", "psetex", "setex"}
    requires name !in {"mset", "mget", "del", "exists", "touch", "yarmstats"}
    ensures KindOf(name) == None
  {
    LowerSame(name);
  }

  // Two names that differ only in the case of letters have the same kind.
  lemma AnyCase(name: Bytes, lower: Bytes)
    requires |name| == |lower|
    requires forall i :: 0 <= i < |name| ==> SameLetter(name[i], lower[i])
    ensures KindOf(name) == KindOf(lower)
  {
    hide KindOf, SameLetter, ToLower;
    forall i | 0 <= i < |name| ensures ToLower(name[i]) == ToLower(lower[i]) {
      LetterLower(name[i], lower[i]);
    }
    assert Lower(name) == Lower(lower);
    KindFolds(name);
    KindFolds(lower);
  }

  lemma LetterLower(c: char, l: char)
    requires SameLetter(c, l)
    ensures ToLower(c) == ToLower(l)
  {
  }

  lemma KindFolds(name: Bytes)
    ensures KindOf(name) == KindOf(Lower(name))
  {
    assert Lower(Lower(name)) == Lower(name);
  }

  predicate SameLetter(c: char, l: char) {
    || c == l
    || exists k :: 0 <= k < 26 && c == "ABCDEFGHIJKLMNOPQRSTUVWXYZ"[k] && l == "abcdefghijklmnopqrstuvwxyz"[k]
  }

  // A SET by its name: as soon as its key is there it is created, with the bulks
  // whose headers are there, however much of the value is.
  lemma CreateSet(ws: seq<Bytes>, rest: Bytes, k: nat, capacity: nat)
    requires |ws| >= 2 && ws[0] == "$3\r\nset\r\n" && AllWhole(ws) && |ArrayPrefix(|ws|)| <= capacity / 2
    requires Size(ws, 2) <= k <= |EncodeArray(ws) + rest|
    ensures |ArrayPrefix(|ws|)| <= k
    ensures var n := HeadersIn(ws, k - |ArrayPrefix(|ws|)|);
            && n >= 2
            && CreateCommand((EncodeArray(ws) + rest)[..k], capacity) == New(Set, n, Size(ws, n), |ws| - n)
  {
    hide ArrayPrefix, HeadersIn, EncodeArray, Size, CreateCommand, KindOf, Payload, WholeBulk;
    NameOfSet();
    SizeAtLeast(ws);
    SizeNext(ws, 1);
    WholeIsSeen(ws, 1, k);
    CreateOnPrefix(ws, rest, k, capacity);
  }

  lemma NameOfSet()
    ensures WholeBulk("$3\r\nset\r\n") && Payload("$3\r\nset\r\n") == "set" && KindOf("set") == Some(Set)
  {
    SetNames();
    NamedBulk("set", "$3\r\nset\r\n", 3);
  }

  // The bulk of a short name.
  lemma NamedBulk(name: Bytes, bulk: Bytes, n: nat)
    requires |name| == n < 10 && bulk == "$" + ["0123456789"[n]] + "\r\n" + name + "\r\n"
    ensures WholeBulk(bulk) && Payload(bulk) == name
  {
    hide WholeBulk, Payload, Digits;
    DigitsAreDecimal(n);
    BulkRoundTrip(Str(name));
  }

  // ---------- a pipeline of commands ----------

  function Encoded(cmds: seq<seq<Bytes>>): (ts: seq<Bytes>)
    ensures |ts| == |cmds| && forall i :: 0 <= i < |cmds| ==> ts[i] == EncodeArray(cmds[i])
  {
    seq(|cmds|, i requires 0 <= i < |cmds| => EncodeArray(cmds[i]))
  }

  // The client's bytes.
  function Text(cmds: seq<seq<Bytes>>): Bytes {
    Concat(Encoded(cmds))
  }

  // Where command i starts.
  function Off(cmds: seq<seq<Bytes>>, i: nat): nat
    requires i <= |cmds|
  {
    |Concat(Encoded(cmds)[..i])|
  }

  // The position after the first m bulks of command i.
  function Mark(cmds: seq<seq<Bytes>>, i: nat, m: nat): nat
    requires i < |cmds| && m <= |cmds[i]|
  {
    Off(cmds, i) + Size(cmds[i], m)
  }

  lemma AtCommand(cmds: seq<seq<Bytes>>, i: nat)
    requires i < |cmds|
    ensures Off(cmds, i + 1) == Off(cmds, i) + |EncodeArray(cmds[i])| <= |Text(cmds)|
    ensures Text(cmds)[Off(cmds, i)..] == EncodeArray(cmds[i]) + Text(cmds)[Off(cmds, i + 1)..]
  {
    hide EncodeArray;
    ConcatTake(Encoded(cmds), i);
    ConcatSplit(Encoded(cmds), i + 1);
  }

  lemma AtEnd(cmds: seq<seq<Bytes>>)
    ensures Off(cmds, |cmds|) == |Text(cmds)|
  {
    assert Encoded(cmds)[..|cmds|] == Encoded(cmds);
  }

  lemma AtMark(cmds: seq<seq<Bytes>>, i: nat, m: nat)
    requires i < |cmds| && m <= |cmds[i]|
    ensures Mark(cmds, i, m) <= Off(cmds, i + 1) <= |Text(cmds)|
    ensures Mark(cmds, i, |cmds[i]|) == Off(cmds, i + 1)
    ensures Text(cmds)[Mark(cmds, i, m)..] == Concat(cmds[i][m..]) + Text(cmds)[Off(cmds, i + 1)..]
  {
    hide Off, Text, ArrayPrefix;
    AtCommand(cmds, i);
    var ws := cmds[i];
    ConcatSplit(ws, m);
    SizeAll(ws);
    var o, z := Off(cmds, i), Size(ws, m);
    var t := Text(cmds);
    TailOf(t, o, EncodeArray(ws), t[Off(cmds, i + 1)..], z);
    assert EncodeArray(ws)[z..] == Concat(ws[m..]);
  }

  lemma TailOf(t: Bytes, o: nat, head: Bytes, rest: Bytes, z: nat)
    requires o <= |t| && t[o..] == head + rest && z <= |head|
    ensures o + z <= |t| && t[o + z..] == head[z..] + rest
  {
    SubSlice(t, o, |t|, z, |t| - o);
    assert (head + rest)[z..] == head[z..] + rest;
  }

  lemma {:induction false} OffMonotone(cmds: seq<seq<Bytes>>, i: nat, j: nat)
    requires i <= j <= |cmds|
    ensures Off(cmds, i) <= Off(cmds, j)
    decreases j
  {
    hide Off, Text;
    if i < j {
      AtCommand(cmds, j - 1);
      OffMonotone(cmds, i, j - 1);
    }
  }

  // The next command to be created, seen through what has been received.
  lemma CreateAt(cmds: seq<seq<Bytes>>, i: nat, stream: Bytes, capacity: nat)
    requires i < |cmds| && Supported(cmds[i], capacity)
    requires stream <= Text(cmds) && Off(cmds, i) < |stream|
    ensures var ws := cmds[i];
            var kind := KindOfCommand(ws).value;
            var m := Taken(ws, kind, |stream| - Off(cmds, i));
            CreateCommand(stream[Off(cmds, i)..], capacity) ==
            if m == 0 then NeedMore else New(kind, m, Size(ws, m), |ws| - m)
  {
    hide Off, Text, EncodeArray, Supported, CreateCommand, Size, Taken;
    AtCommand(cmds, i);
    var o := Off(cmds, i);
    var rest := Text(cmds)[Off(cmds, i + 1)..];
    assert stream[o..] == Text(cmds)[o..][..|stream| - o];
    CreateOnPrefix(cmds[i], rest, |stream| - o, capacity);
  }

  // Shape of a freshly created command.
  lemma TakenShape(ws: seq<Bytes>, kind: Kind, k: nat)
    requires AllWhole(ws) && ws != [] && Taken(ws, kind, k) > 0
    requires kind.Mset? ==> |ws| % 2 == 1
    ensures var m := Taken(ws, kind, k);
            && (kind in {Basic, Mget, Stats} ==> m == |ws| && Size(ws, m) <= k)
            && (kind.Set? ==> m >= 2)
            && (kind.Mset? ==> m >= 3 && m % 2 == 1)
            && (kind.Del? ==> m >= 2 && Size(ws, m) <= k)
            && 0 < k && 0 < Size(ws, m)
  {
    hide WholeBulk, ArrayPrefix, EncodeArray;
    SizeAll(ws);
    if kind.Set? || kind.Del? {
      WholeIsSeen(ws, 1, k);
    }
    if kind.Del? && Size(ws, HeadersIn(ws, k - |ArrayPrefix(|ws|)|)) > k {
      var n := HeadersIn(ws, k - |ArrayPrefix(|ws|)|);
      HeadersInExact(ws, k - |ArrayPrefix(|ws|)|, n - 1);
    }
    SizeAtLeast(ws);
  }

  // Bulks of a command still to come, seen through what has been received.
  lemma ItemsAt(cmds: seq<seq<Bytes>>, i: nat, m: nat, stream: Bytes)
    requires i < |cmds| && m <= |cmds[i]| && AllWhole(cmds[i])
    requires stream <= Text(cmds) && Mark(cmds, i, m) <= |stream|
    ensures AllWhole(cmds[i][m..])
    ensures var n := HeadersIn(cmds[i][m..], |stream| - Mark(cmds, i, m));
            ParseItems(stream[Mark(cmds, i, m)..], |cmds[i]| - m) == Sizes(Lengths(cmds[i][m..][..n]))
  {
    hide *;
    var rest := AfterCommand(cmds, i, m);
    WholeFrom(cmds[i], m);
    RestCount(cmds[i], m);
    ItemsCut(cmds[i][m..], |cmds[i]| - m, rest, Text(cmds), stream, Mark(cmds, i, m));
  }

  // The bulks from m on, and something after the command.
  lemma AfterCommand(cmds: seq<seq<Bytes>>, i: nat, m: nat) returns (rest: Bytes)
    requires i < |cmds| && m <= |cmds[i]|
    ensures Mark(cmds, i, m) <= |Text(cmds)| && Text(cmds)[Mark(cmds, i, m)..] == Concat(cmds[i][m..]) + rest
  {
    hide *;
    AtMark(cmds, i, m);
    rest := Text(cmds)[Off(cmds, i + 1)..];
  }

  lemma RestCount(ws: seq<Bytes>, m: nat)
    requires m <= |ws|
    ensures |ws[m..]| == |ws| - m
  {
  }

  lemma WholeFrom(ws: seq<Bytes>, m: nat)
    requires AllWhole(ws) && m <= |ws|
    ensures AllWhole(ws[m..])
  {
    hide WholeBulk;
  }

  lemma BulkAt(cmds: seq<seq<Bytes>>, i: nat, m: nat, stream: Bytes)
    requires i < |cmds| && m < |cmds[i]| && AllWhole(cmds[i])
    requires stream <= Text(cmds) && Mark(cmds, i, m) <= |stream|
    ensures WholeBulk(cmds[i][m])
    ensures ParseBulk(stream[Mark(cmds, i, m)..])
         == if |stream| - Mark(cmds, i, m) < HeaderSize(cmds[i][m]) then Pending else Known(|cmds[i][m]|)
    ensures Mark(cmds, i, m + 1) == Mark(cmds, i, m) + |cmds[i][m]|
  {
    hide Off, Text, Size, ParseBulk, HeaderSize;
    AtMark(cmds, i, m);
    SizeNext(cmds[i], m);
    var o, w := Mark(cmds, i, m), cmds[i][m];
    var rest := Concat(cmds[i][m + 1..]) + Text(cmds)[Off(cmds, i + 1)..];
    assert cmds[i][m..][1..] == cmds[i][m + 1..];
    assert Text(cmds)[o..] == w + rest;
    assert stream[o..] == Text(cmds)[o..][..|stream| - o];
    WholeThenMore(w, rest, |stream| - o);
  }
}
