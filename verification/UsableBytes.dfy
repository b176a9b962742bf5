/**
 How many of the bytes at hand a connection can use, whatever the reads that
 brought them: the positions where its buffer can be emptied, and what is left
 over in between.
 */
module UsableBytes {
  import opened Resp
  import opened Net
  import opened Framing
  import opened ClientQuery
  import opened QueryProgress

  // Where the bytes that can be used end, of the first len bytes, the last of
  // which belong to command i.
  ghost function Usable(cmds: seq<seq<Bytes>>, i: nat, len: nat): nat
    requires i < |cmds| && SupportedCommand(cmds[i]) && Off(cmds, i) <= len
  {
    var m := Taken(cmds[i], KindOfCommand(cmds[i]).value, len - Off(cmds, i));
    if m == 0 then Off(cmds, i) else Min(Mark(cmds, i, m), len)
  }

  // All of the first b bytes can be used.
  ghost predicate FullAt(cmds: seq<seq<Bytes>>, i: nat, b: nat) {
    i < |cmds| && SupportedCommand(cmds[i]) && Off(cmds, i) <= b && Usable(cmds, i, b) == b
  }

  // The buffer starts only where all bytes before have been used.
  ghost predicate BaseOk(cmds: seq<seq<Bytes>>, base: nat) {
    cmds == [] || exists i: nat :: FullAt(cmds, i, base)
  }

  // ---------- what is taken ----------

  // Bulks whose headers are there are taken, pairs by MSET, and by DEL if they
  // are there entirely.
  lemma TakenAtLeast(ws: seq<Bytes>, kind: Kind, m: nat, k: nat)
    requires AllWhole(ws) && ws != [] && Taken(ws, kind, k) > 0 && |ArrayPrefix(|ws|)| <= k && m <= |ws|
    requires m <= HeadersIn(ws, k - |ArrayPrefix(|ws|)|)
    requires (kind.Mset? ==> m % 2 == 1) && (kind.Del? ==> Size(ws, m) <= k)
    ensures m <= Taken(ws, kind, k)
  {
    hide HeadersIn, ArrayPrefix, EncodeArray, AllWhole, Size;
  }

  // From its first m bulks a command is created, and takes them.
  lemma TakenFromWhole(ws: seq<Bytes>, m: nat)
    requires SupportedCommand(ws) && m <= |ws|
    requires var kind := KindOfCommand(ws).value;
             && (m >= 2 || (m == 1 && kind.Stats?)) && (kind.Mset? ==> m % 2 == 1)
             && (kind in {Basic, Mget, Stats} ==> m == |ws|)
    ensures m <= Taken(ws, KindOfCommand(ws).value, Size(ws, m))
  {
    hide HeadersIn, ArrayPrefix, AllWhole, Size, KindOfCommand, EncodeArray;
    var k := Size(ws, m);
    var kind := KindOfCommand(ws).value;
    SizeAll(ws);
    SizeAtLeast(ws);
    SizeMonotone(ws, 1, m);
    WholeIsSeen(ws, m - 1, k);
    if m >= 2 {
      SizeMonotone(ws, 2, m);
    }
    TakenAtLeast(ws, kind, m, k);
  }

  lemma {:induction false} SizeMonotone(ws: seq<Bytes>, m: nat, n: nat)
    requires m <= n <= |ws|
    ensures Size(ws, m) <= Size(ws, n)
    decreases n
  {
    hide Size;
    if m < n {
      SizeMonotone(ws, m, n - 1);
      SizeNext(ws, n - 1);
    }
  }

  // ---------- where the buffer starts ----------

  lemma NothingTaken(ws: seq<Bytes>, kind: Kind)
    requires AllWhole(ws) && ws != []
    ensures Taken(ws, kind, 0) == 0
  {
    SizeAtLeast(ws);
  }

  lemma BoundaryIsFull(cmds: seq<seq<Bytes>>, capacity: nat, i: nat)
    requires AllSupported(cmds, capacity) && i <= |cmds|
    ensures BaseOk(cmds, Off(cmds, i))
  {
    hide AllSupported, Off, Taken, AllWhole, KindOfCommand, Size;
    if i < |cmds| {
      SupportedAt(cmds, capacity, i);
      NothingTaken(cmds[i], KindOfCommand(cmds[i]).value);
      assert FullAt(cmds, i, Off(cmds, i));
    } else if i > 0 {
      SupportedAt(cmds, capacity, i - 1);
      AtMark(cmds, i - 1, |cmds[i - 1]|);
      WholeOdd(cmds, capacity, i - 1);
      TakenFromWhole(cmds[i - 1], |cmds[i - 1]|);
      FullFrom(cmds, i - 1, |cmds[i - 1]|, Off(cmds, i));
    }
  }

  lemma WholeOdd(cmds: seq<seq<Bytes>>, capacity: nat, i: nat)
    requires AllSupported(cmds, capacity) && i < |cmds|
    ensures var kind := KindOfCommand(cmds[i]);
            kind.Some? && (kind.value.Mset? ==> |cmds[i]| % 2 == 1) && (|cmds[i]| >= 2 || (|cmds[i]| == 1 && kind.value.Stats?))
  {
    hide KindOfCommand, AllWhole;
    assert Supported(cmds[i], capacity);
  }

  // The first m bulks are taken from p bytes, which do not reach beyond them.
  lemma FullFrom(cmds: seq<seq<Bytes>>, i: nat, m: nat, p: nat)
    requires i < |cmds| && SupportedCommand(cmds[i]) && Off(cmds, i) <= p && m <= |cmds[i]| && p <= Mark(cmds, i, m)
    requires 0 < m <= Taken(cmds[i], KindOfCommand(cmds[i]).value, p - Off(cmds, i))
    ensures FullAt(cmds, i, p)
  {
    hide Off, Taken, AllWhole, KindOfCommand, Size;
    SizeMonotone(cmds[i], m, Taken(cmds[i], KindOfCommand(cmds[i]).value, p - Off(cmds, i)));
  }

  // All bytes up to the process position can be used on their own.
  lemma UsedIsFull(cmds: seq<seq<Bytes>>, capacity: nat, queue: seq<Cmd>, created: nat, len: nat, q: nat)
    requires AllSupported(cmds, capacity) && PositionOk(cmds, queue, created, len, q)
    requires NeededOk(cmds, created, len) && SeenOk(cmds, queue, created, len)
    ensures BaseOk(cmds, Min(q, len))
  {
    hide AllSupported, Off, Taken, AllWhole, KindOfCommand, Size, BaseOk, HeadersIn, ArrayPrefix;
    if queue == [] {
      BoundaryIsFull(cmds, capacity, created);
    } else {
      LastCommand(cmds, queue, created, len, q);
      LastIsFull(cmds, queue, created, len, q);
      assert FullAt(cmds, created - 1, Min(q, len));
      BaseIs(cmds, created - 1, Min(q, len));
    }
  }

  lemma BaseIs(cmds: seq<seq<Bytes>>, i: nat, b: nat)
    requires FullAt(cmds, i, b)
    ensures BaseOk(cmds, b)
  {
    hide FullAt;
  }

  lemma LastIsFull(cmds: seq<seq<Bytes>>, queue: seq<Cmd>, created: nat, len: nat, q: nat)
    requires queue != [] && 1 <= created <= |cmds| && BackOk(cmds, created - 1, queue[|queue| - 1], len, q)
    requires KindOfCommand(cmds[created - 1]) == Some(queue[|queue| - 1].kind) && Off(cmds, created - 1) <= Min(q, len)
    requires NeededOk(cmds, created, len) && SeenOk(cmds, queue, created, len)
    ensures FullAt(cmds, created - 1, Min(q, len))
  {
    hide Off, Taken, AllWhole, KindOfCommand, Size, HeadersIn, ArrayPrefix, FullAt;
    var i, c := created - 1, queue[|queue| - 1];
    var m := |cmds[i]| - c.unparsed;
    if q <= len {
      TakenFromWhole(cmds[i], m);
    } else {
      TakenAtLeast(cmds[i], c.kind, m, len - Off(cmds, i));
    }
    FullFrom(cmds, i, m, Min(q, len));
  }
}
