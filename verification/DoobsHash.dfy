/**
 The hash of keys and ring points: three 32-bit words absorb the key in blocks
 of twelve bytes and are mixed after each block.
 */
module DoobsHash {

  type Word = bv32
  type Byte = bv8

  datatype State = State(a: Word, b: Word, c: Word)

  // ---------- words ----------

  // Unsigned arithmetic wraps around.
  function Plus(x: Word, y: Word): Word {
    x + y
  }

  function Minus(x: Word, y: Word): Word {
    x - y
  }

  function Xor(x: Word, y: Word): Word {
    x ^ y
  }

  lemma PlusIs(x: Word, y: Word)
    ensures Plus(x, y) == x + y && Plus(y, x) == x + y
  {
  }

  lemma MinusIs(x: Word, y: Word)
    ensures Minus(x, y) == x - y
  {
  }

  lemma OfSum(x: Word, y: Word)
    ensures Minus(x + y, y) == x && Minus(x + y, x) == y
  {
  }

  lemma OfDifference(x: Word, y: Word)
    ensures Plus(x - y, y) == x
  {
  }

  lemma OfSums(x: Word, y: Word, z: Word)
    ensures Plus(x + y, z) == Plus(x, y + z)
  {
  }

  lemma PlusMinus(x: Word, y: Word)
    ensures Minus(Plus(x, y), y) == x && Plus(Minus(x, y), y) == x && Minus(Plus(x, y), x) == y
  {
    hide Plus, Minus;
    PlusIs(x, y);
    OfSum(x, y);
    MinusIs(x, y);
    OfDifference(x, y);
  }

  lemma PlusCommutes(x: Word, y: Word, z: Word)
    ensures Plus(x, y) == Plus(y, x) && Plus(Plus(x, y), z) == Plus(x, Plus(y, z))
  {
    hide Plus;
    PlusIs(x, y);
    PlusIs(y, z);
    OfSums(x, y, z);
  }

  lemma XorTwice(x: Word, w: Word)
    ensures Xor(Xor(x, w), w) == x
  {
  }

  // ---------- mixing ----------

  // One line of the mix: x loses y and z and is combined with w.
  function Fold(x: Word, y: Word, z: Word, w: Word): Word {
    Xor(Minus(Minus(x, y), z), w)
  }

  function Unfold(x: Word, y: Word, z: Word, w: Word): Word {
    Plus(Plus(Xor(x, w), z), y)
  }

  lemma FoldUnfold(x: Word, y: Word, z: Word, w: Word)
    ensures Unfold(Fold(x, y, z, w), y, z, w) == x
    ensures Fold(Unfold(x, y, z, w), y, z, w) == x
  {
    hide Plus, Minus, Xor;
    XorTwice(Minus(Minus(x, y), z), w);
    PlusMinus(Minus(x, y), z);
    PlusMinus(x, y);
    PlusMinus(Plus(Xor(x, w), z), y);
    PlusMinus(Xor(x, w), z);
    XorTwice(x, w);
  }

  // The shifts of the three lines of round i.
  function ShiftA(i: nat, c: Word): Word {
    if i == 0 then c >> 13 else if i == 1 then c >> 12 else c >> 3
  }

  function ShiftB(i: nat, a: Word): Word {
    if i == 0 then a << 8 else if i == 1 then a << 16 else a << 10
  }

  function ShiftC(i: nat, b: Word): Word {
    if i == 0 then b >> 13 else if i == 1 then b >> 5 else b >> 15
  }

  lemma Shifts(x: Word)
    ensures ShiftA(0, x) == x >> 13 && ShiftB(0, x) == x << 8 && ShiftC(0, x) == x >> 13
    ensures ShiftA(1, x) == x >> 12 && ShiftB(1, x) == x << 16 && ShiftC(1, x) == x >> 5
    ensures ShiftA(2, x) == x >> 3 && ShiftB(2, x) == x << 10 && ShiftC(2, x) == x >> 15
  {
  }

  function Round(s: State, i: nat): State {
    var a := Fold(s.a, s.b, s.c, ShiftA(i, s.c));
    var b := Fold(s.b, s.c, a, ShiftB(i, a));
    State(a, b, Fold(s.c, a, b, ShiftC(i, b)))
  }

  function Unround(s: State, i: nat): State {
    var c := Unfold(s.c, s.a, s.b, ShiftC(i, s.b));
    var b := Unfold(s.b, c, s.a, ShiftB(i, s.a));
    State(Unfold(s.a, b, c, ShiftA(i, c)), b, c)
  }

  lemma RoundUnround(s: State, i: nat)
    ensures Unround(Round(s, i), i) == s
    ensures Round(Unround(s, i), i) == s
  {
    hide Fold, Unfold, ShiftA, ShiftB, ShiftC;
    var r := Round(s, i);
    FoldUnfold(s.c, r.a, r.b, ShiftC(i, r.b));
    FoldUnfold(s.b, s.c, r.a, ShiftB(i, r.a));
    FoldUnfold(s.a, s.b, s.c, ShiftA(i, s.c));
    var u := Unround(s, i);
    FoldUnfold(s.c, s.a, s.b, ShiftC(i, s.b));
    FoldUnfold(s.b, u.c, s.a, ShiftB(i, s.a));
    FoldUnfold(s.a, u.b, u.c, ShiftA(i, u.c));
  }

  function Mix(s: State): State {
    Round(Round(Round(s, 0), 1), 2)
  }

  function Unmix(s: State): State {
    Unround(Unround(Unround(s, 2), 1), 0)
  }

  // The nine lines of the macro, one after another on the three words.
  method MixInPlace(s: State) returns (t: State)
    ensures t == Mix(s)
  {
    hide Round;
    t := FirstLines(s);
    t := MiddleLines(t);
    t := LastLines(t);
  }

  method FirstLines(s: State) returns (t: State)
    ensures t == Round(s, 0)
  {
    hide Minus, Xor, ShiftA, ShiftB, ShiftC;
    Shifts(s.c);
    var a, b, c := s.a, s.b, s.c;
    a := Minus(a, b); a := Minus(a, c); a := Xor(a, c >> 13);
    Shifts(a);
    b := Minus(b, c); b := Minus(b, a); b := Xor(b, a << 8);
    Shifts(b);
    c := Minus(c, a); c := Minus(c, b); c := Xor(c, b >> 13);
    t := State(a, b, c);
  }

  method MiddleLines(s: State) returns (t: State)
    ensures t == Round(s, 1)
  {
    hide Minus, Xor, ShiftA, ShiftB, ShiftC;
    Shifts(s.c);
    var a, b, c := s.a, s.b, s.c;
    a := Minus(a, b); a := Minus(a, c); a := Xor(a, c >> 12);
    Shifts(a);
    b := Minus(b, c); b := Minus(b, a); b := Xor(b, a << 16);
    Shifts(b);
    c := Minus(c, a); c := Minus(c, b); c := Xor(c, b >> 5);
    t := State(a, b, c);
  }

  method LastLines(s: State) returns (t: State)
    ensures t == Round(s, 2)
  {
    hide Minus, Xor, ShiftA, ShiftB, ShiftC;
    Shifts(s.c);
    var a, b, c := s.a, s.b, s.c;
    a := Minus(a, b); a := Minus(a, c); a := Xor(a, c >> 3);
    Shifts(a);
    b := Minus(b, c); b := Minus(b, a); b := Xor(b, a << 10);
    Shifts(b);
    c := Minus(c, a); c := Minus(c, b); c := Xor(c, b >> 15);
    t := State(a, b, c);
  }

  // The mix is a bijection on three words: it has an inverse on both sides.
  lemma MixReversible(s: State)
    ensures Unmix(Mix(s)) == s
    ensures Mix(Unmix(s)) == s
  {
    hide Round, Unround;
    RoundUnround(s, 0);
    RoundUnround(Round(s, 0), 1);
    RoundUnround(Round(Round(s, 0), 1), 2);
    RoundUnround(s, 2);
    RoundUnround(Unround(s, 2), 1);
    RoundUnround(Unround(Unround(s, 2), 1), 0);
  }

  // ---------- words of a key ----------

  // `char` is signed.
  function Signed(k: Byte): Word {
    if k < 0x80 then k as Word else k as Word | 0xffff_ff00
  }

  // Byte i of a word.
  function At(k: Byte, i: nat): Word
    requires i < 4
  {
    match i
    case 0 => Signed(k)
    case 1 => Signed(k) << 8
    case 2 => Signed(k) << 16
    case _ => Signed(k) << 24
  }

  function Pack(k0: Byte, k1: Byte, k2: Byte, k3: Byte): Word {
    Plus(Plus(Plus(At(k0, 0), At(k1, 1)), At(k2, 2)), At(k3, 3))
  }

  lemma PackFromTop(k0: Byte, k1: Byte, k2: Byte, k3: Byte)
    ensures Pack(k0, k1, k2, k3) == Plus(At(k0, 0), Plus(At(k1, 1), Plus(At(k2, 2), At(k3, 3))))
  {
    hide At, Plus;
    PlusCommutes(Plus(At(k0, 0), At(k1, 1)), At(k2, 2), At(k3, 3));
    PlusCommutes(At(k0, 0), At(k1, 1), Plus(At(k2, 2), At(k3, 3)));
  }

  // The lowest byte of what is left determines the byte that was added there.
  lemma LowBytes(k0: Byte, k1: Byte, k2: Byte, k3: Byte)
    ensures Plus(At(k0, 0), Plus(At(k1, 1), Plus(At(k2, 2), At(k3, 3)))) & 0xff == k0 as Word
    ensures Plus(At(k1, 1), Plus(At(k2, 2), At(k3, 3))) & 0xffff == k1 as Word << 8
    ensures Plus(At(k2, 2), At(k3, 3)) & 0xff_ffff == k2 as Word << 16
    ensures At(k3, 3) == k3 as Word << 24
  {
  }

  lemma SameByte(k: Byte, l: Byte)
    ensures k as Word == l as Word ==> k == l
    ensures k as Word << 8 == l as Word << 8 ==> k == l
    ensures k as Word << 16 == l as Word << 16 ==> k == l
    ensures k as Word << 24 == l as Word << 24 ==> k == l
  {
  }

  // Four signed bytes are determined by their word.
  lemma PackInjective(k0: Byte, k1: Byte, k2: Byte, k3: Byte, l0: Byte, l1: Byte, l2: Byte, l3: Byte)
    requires Pack(k0, k1, k2, k3) == Pack(l0, l1, l2, l3)
    ensures k0 == l0 && k1 == l1 && k2 == l2 && k3 == l3
  {
    hide Pack, Plus, Minus, At;
    PackFromTop(k0, k1, k2, k3);
    PackFromTop(l0, l1, l2, l3);
    LowBytes(k0, k1, k2, k3);
    LowBytes(l0, l1, l2, l3);
    SameByte(k0, l0);
    SameByte(k1, l1);
    SameByte(k2, l2);
    SameByte(k3, l3);
    var k, l := Plus(At(k2, 2), At(k3, 3)), Plus(At(l2, 2), At(l3, 3));
    SumInjective(At(k0, 0), Plus(At(k1, 1), k), At(l0, 0), Plus(At(l1, 1), l));
    SumInjective(At(k1, 1), k, At(l1, 1), l);
    SumInjective(At(k2, 2), At(k3, 3), At(l2, 2), At(l3, 3));
  }

  // ---------- absorbing a key ----------

  // A block of twelve bytes is added to the state.
  function Feed(s: State, k: seq<Byte>): State
    requires |k| == 12
  {
    State(Plus(s.a, Pack(k[0], k[1], k[2], k[3])),
          Plus(s.b, Pack(k[4], k[5], k[6], k[7])),
          Plus(s.c, Pack(k[8], k[9], k[10], k[11])))
  }

  lemma FeedInjective(s: State, t: State, k: seq<Byte>, l: seq<Byte>)
    requires |k| == |l| == 12 && Feed(s, k) == Feed(t, l)
    ensures k == l ==> s == t
    ensures s == t ==> k == l
  {
    hide Pack, Plus;
    SumInjective(s.a, Pack(k[0], k[1], k[2], k[3]), t.a, Pack(l[0], l[1], l[2], l[3]));
    SumInjective(s.b, Pack(k[4], k[5], k[6], k[7]), t.b, Pack(l[4], l[5], l[6], l[7]));
    SumInjective(s.c, Pack(k[8], k[9], k[10], k[11]), t.c, Pack(l[8], l[9], l[10], l[11]));
    if s == t {
      PackInjective(k[0], k[1], k[2], k[3], l[0], l[1], l[2], l[3]);
      PackInjective(k[4], k[5], k[6], k[7], l[4], l[5], l[6], l[7]);
      PackInjective(k[8], k[9], k[10], k[11], l[8], l[9], l[10], l[11]);
    }
  }

  lemma SumInjective(x: Word, m: Word, y: Word, n: Word)
    requires Plus(x, m) == Plus(y, n)
    ensures m == n ==> x == y
    ensures x == y ==> m == n
  {
    hide Plus, Minus;
    PlusMinus(x, m);
    PlusMinus(y, n);
  }

  // The loop over the whole blocks of a key.
  function Absorb(s: State, key: seq<Byte>): State
    decreases |key|
  {
    hide Mix, Feed;
    if |key| < 12 then s else Absorb(Mix(Feed(s, key[..12])), key[12..])
  }

  // The rest of a key, of fewer than twelve bytes, filled up with zeros.
  function Padded(rest: seq<Byte>): (k: seq<Byte>)
    requires |rest| < 12
    ensures |k| == 11 && rest <= k
  {
    rest + seq(11 - |rest|, i => 0)
  }

  // The last block: the rest of the key, the lowest byte of c being reserved
  // for the length of the whole key.
  function Finish(s: State, rest: seq<Byte>, length: Word): State
    requires |rest| < 12
  {
    var k := Padded(rest);
    State(Plus(s.a, Pack(k[0], k[1], k[2], k[3])),
          Plus(s.b, Pack(k[4], k[5], k[6], k[7])),
          Plus(Plus(s.c, length), Pack(0, k[8], k[9], k[10])))
  }

  function Rest(key: seq<Byte>): (rest: seq<Byte>)
    ensures |rest| < 12 && |rest| <= |key| && rest == key[|key| - |rest|..]
  {
    if |key| < 12 then key else Rest(key[12..])
  }

  // The golden ratio, an arbitrary value.
  const GOLDEN: Word := 0x9e3779b9

  function Length(n: nat): Word
    requires n < 0x1_0000_0000
  {
    n as Word
  }

  // The three words after the whole key.
  function FinalState(key: seq<Byte>, initval: Word): State
    requires |key| < 0x1_0000_0000
  {
    Mix(Finish(Absorb(State(GOLDEN, GOLDEN, initval), key), Rest(key), Length(|key|)))
  }

  method Hash(key: seq<Byte>, initval: Word) returns (hash: Word)
    requires |key| < 0x1_0000_0000
    ensures hash == FinalState(key, initval).c
  {
    hide Mix, Length;
    var s := State(GOLDEN, GOLDEN, initval);
    var k := key;
    while |k| >= 12
      invariant Absorb(s, k) == Absorb(State(GOLDEN, GOLDEN, initval), key)
      invariant Rest(k) == Rest(key)
    {
      s := MixInPlace(Feed(s, k[..12]));
      k := k[12..];
    }
    var f := AddRest(s, k, Length(|key|));
    f := MixInPlace(f);
    hash := f.c;
  }

  // The switch over the last bytes, whose cases fall through: those from 11 to
  // 9 are added to c, those from 8 to 5 to b, and those from 4 to 1 to a.
  method AddRest(s: State, k: seq<Byte>, length: Word) returns (t: State)
    requires |k| < 12
    ensures t == Finish(s, k, length)
  {
    hide Pack, Plus, Padded;
    var c := AddLast(Plus(s.c, length), k);
    var b := AddWord(s.b, k, 4);
    var a := AddWord(s.a, k, 0);
    t := State(a, b, c);
  }

  method AddLast(c: Word, k: seq<Byte>) returns (r: Word)
    requires |k| < 12
    ensures r == Plus(c, Pack(0, Padded(k)[8], Padded(k)[9], Padded(k)[10]))
  {
    hide Pack, Plus, At;
    var n := |k|;
    r := c;
    if n >= 11 { r := Plus(r, At(k[10], 3)); } else { NoByte(r, 3); }
    if n >= 10 { r := Plus(r, At(k[9], 2)); } else { NoByte(r, 2); }
    if n >= 9 { r := Plus(r, At(k[8], 1)); } else { NoByte(r, 1); }
    NoByte(r, 0);
    Sums(c, 0, Padded(k)[8], Padded(k)[9], Padded(k)[10]);
  }

  method AddWord(x: Word, k: seq<Byte>, i: nat) returns (r: Word)
    requires |k| < 12 && i <= 4
    ensures r == Plus(x, Pack(Padded(k)[i], Padded(k)[i + 1], Padded(k)[i + 2], Padded(k)[i + 3]))
  {
    hide Pack, Plus, At;
    var n := |k|;
    r := x;
    if n >= i + 4 { r := Plus(r, At(k[i + 3], 3)); } else { NoByte(r, 3); }
    if n >= i + 3 { r := Plus(r, At(k[i + 2], 2)); } else { NoByte(r, 2); }
    if n >= i + 2 { r := Plus(r, At(k[i + 1], 1)); } else { NoByte(r, 1); }
    if n >= i + 1 { r := Plus(r, At(k[i], 0)); } else { NoByte(r, 0); }
    Sums(x, Padded(k)[i], Padded(k)[i + 1], Padded(k)[i + 2], Padded(k)[i + 3]);
  }

  lemma NoByte(r: Word, i: nat)
    requires i < 4
    ensures Plus(r, At(0, i)) == r
  {
  }

  // Adding bytes one by one is adding their word.
  lemma Sums(x: Word, k0: Byte, k1: Byte, k2: Byte, k3: Byte)
    ensures Plus(Plus(Plus(Plus(x, At(k3, 3)), At(k2, 2)), At(k1, 1)), At(k0, 0)) == Plus(x, Pack(k0, k1, k2, k3))
  {
    hide At, Plus;
    var p0, p1, p2, p3 := At(k0, 0), At(k1, 1), At(k2, 2), At(k3, 3);
    PlusCommutes(x, p3, p2);
    PlusCommutes(x, Plus(p3, p2), p1);
    PlusCommutes(x, Plus(Plus(p3, p2), p1), p0);
    PlusCommutes(p3, p2, p1);
    PlusCommutes(Plus(p2, p3), p1, p0);
    PlusCommutes(p2, p3, 0);
    PlusCommutes(p1, p0, 0);
    PlusCommutes(p0, p1, Plus(p2, p3));
    PlusCommutes(Plus(p0, p1), p2, p3);
    PlusCommutes(Plus(p2, p3), Plus(p0, p1), 0);
  }

  // ---------- nothing is lost before the last word is picked ----------

  lemma MixInjective(s: State, t: State)
    requires Mix(s) == Mix(t)
    ensures s == t
  {
    hide Mix, Unmix;
    MixReversible(s);
    MixReversible(t);
  }

  // The loop is injective in the state it starts from.
  lemma {:induction false} AbsorbStart(s: State, t: State, key: seq<Byte>)
    requires Absorb(s, key) == Absorb(t, key)
    ensures s == t
    decreases |key|
  {
    hide Mix, Feed;
    if |key| >= 12 {
      var k := key[..12];
      AbsorbStart(Mix(Feed(s, k)), Mix(Feed(t, k)), key[12..]);
      MixInjective(Feed(s, k), Feed(t, k));
      FeedInjective(s, t, k, k);
    }
  }

  // The keys are equal but for block j.
  ghost predicate SameButBlock(key: seq<Byte>, other: seq<Byte>, j: nat) {
    |key| == |other| && forall i :: 0 <= i < |key| && !(12 * j <= i < 12 * j + 12) ==> key[i] == other[i]
  }

  // The loop is injective in any single block, the others being fixed.
  lemma {:induction false} AbsorbBlock(s: State, key: seq<Byte>, other: seq<Byte>, j: nat)
    requires SameButBlock(key, other, j) && 12 * j + 12 <= |key|
    requires Absorb(s, key) == Absorb(s, other)
    ensures key == other
    decreases j
  {
    hide Mix, Feed;
    var k, l := key[..12], other[..12];
    assert key == k + key[12..] && other == l + other[12..];
    if j == 0 {
      assert key[12..] == other[12..];
      AbsorbStart(Mix(Feed(s, k)), Mix(Feed(s, l)), key[12..]);
      MixInjective(Feed(s, k), Feed(s, l));
      FeedInjective(s, s, k, l);
    } else {
      assert k == l;
      AbsorbBlock(Mix(Feed(s, k)), key[12..], other[12..], j - 1);
    }
  }

  lemma FinishInjective(s: State, t: State, k: seq<Byte>, l: seq<Byte>, length: Word)
    requires |k| == |l| < 12 && Finish(s, k, length) == Finish(t, l, length)
    ensures k == l ==> s == t
    ensures s == t ==> k == l
  {
    hide Pack, Plus;
    var p, q := Padded(k), Padded(l);
    SumInjective(s.a, Pack(p[0], p[1], p[2], p[3]), t.a, Pack(q[0], q[1], q[2], q[3]));
    SumInjective(s.b, Pack(p[4], p[5], p[6], p[7]), t.b, Pack(q[4], q[5], q[6], q[7]));
    SumInjective(Plus(s.c, length), Pack(0, p[8], p[9], p[10]), Plus(t.c, length), Pack(0, q[8], q[9], q[10]));
    if s == t {
      PackInjective(p[0], p[1], p[2], p[3], q[0], q[1], q[2], q[3]);
      PackInjective(p[4], p[5], p[6], p[7], q[4], q[5], q[6], q[7]);
      PackInjective(0, p[8], p[9], p[10], 0, q[8], q[9], q[10]);
      assert p == q && k == p[..|k|] && l == q[..|l|];
    } else if k == l {
      SumInjective(s.c, length, t.c, length);
    }
  }

  // Whole blocks are absorbed alike when the keys differ in the rest only.
  lemma {:induction false} SameBlocks(s: State, key: seq<Byte>, other: seq<Byte>)
    requires |key| == |other| && forall i :: 0 <= i < |key| - |key| % 12 ==> key[i] == other[i]
    ensures Absorb(s, key) == Absorb(s, other)
    decreases |key|
  {
    hide Mix, Feed;
    if |key| >= 12 {
      assert key[..12] == other[..12];
      Blocks(|key|);
      SameBlocks(Mix(Feed(s, key[..12])), key[12..], other[12..]);
    }
  }

  lemma {:induction false} SameRest(key: seq<Byte>, other: seq<Byte>)
    requires |key| == |other| && forall i :: |key| - |key| % 12 <= i < |key| ==> key[i] == other[i]
    ensures Rest(key) == Rest(other)
    decreases |key|
  {
    if |key| >= 12 {
      Blocks(|key|);
      SameRest(key[12..], other[12..]);
    } else {
      assert key == other;
    }
  }

  lemma Blocks(n: nat)
    requires n >= 12
    ensures n % 12 == (n - 12) % 12
  {
    assert n - 12 == 12 * (n / 12 - 1) + n % 12;
  }

  lemma {:induction false} RestLength(key: seq<Byte>)
    ensures |Rest(key)| == |key| % 12
  {
    if |key| >= 12 {
      RestLength(key[12..]);
      Blocks(|key|);
    }
  }

  // The state at the end is injective in the initial value.
  lemma FinalStart(key: seq<Byte>, v: Word, w: Word)
    requires |key| < 0x1_0000_0000 && FinalState(key, v) == FinalState(key, w)
    ensures v == w
  {
    hide Mix, Finish, Rest, Absorb, Length;
    var s, t := State(GOLDEN, GOLDEN, v), State(GOLDEN, GOLDEN, w);
    MixInjective(Finish(Absorb(s, key), Rest(key), Length(|key|)), Finish(Absorb(t, key), Rest(key), Length(|key|)));
    FinishInjective(Absorb(s, key), Absorb(t, key), Rest(key), Rest(key), Length(|key|));
    AbsorbStart(s, t, key);
  }

  // It is injective in any single block of the key, be it the last and incomplete one.
  lemma FinalBlock(key: seq<Byte>, other: seq<Byte>, j: nat, initval: Word)
    requires SameButBlock(key, other, j) && |key| < 0x1_0000_0000 && FinalState(key, initval) == FinalState(other, initval)
    ensures key == other
  {
    hide Mix, Finish, Rest, Absorb, Length;
    var s := State(GOLDEN, GOLDEN, initval);
    RestLength(key);
    RestLength(other);
    MixInjective(Finish(Absorb(s, key), Rest(key), Length(|key|)), Finish(Absorb(s, other), Rest(other), Length(|key|)));
    FinishInjective(Absorb(s, key), Absorb(s, other), Rest(key), Rest(other), Length(|key|));
    if 12 * j + 12 <= |key| {
      SameRest(key, other);
      AbsorbBlock(s, key, other, j);
    } else {
      SameBlocks(s, key, other);
      SameSplit(key, other, |key| - |key| % 12);
    }
  }

  lemma SameSplit(key: seq<Byte>, other: seq<Byte>, n: nat)
    requires |key| == |other| && n <= |key| && key[n..] == other[n..]
    requires forall i :: 0 <= i < n ==> key[i] == other[i]
    ensures key == other
  {
    assert key == key[..n] + key[n..] && other == other[..n] + other[n..];
  }

  // ---------- known hashes ----------

  lemma RoundIs(s: State, i: nat, t: State)
    requires t.a == Fold(s.a, s.b, s.c, ShiftA(i, s.c))
    requires t.b == Fold(s.b, s.c, t.a, ShiftB(i, t.a))
    requires t.c == Fold(s.c, t.a, t.b, ShiftC(i, t.b))
    ensures Round(s, i) == t
  {
    hide Fold, ShiftA, ShiftB, ShiftC;
  }

  // Of "foo".
  lemma HashOfFoo()
    ensures FinalState([0x66, 0x6f, 0x6f], 0).c == 0x7fc1f406
  {
    hide Mix, Finish;
    FooAdded();
    FooMixed();
  }

  lemma FooWords()
    ensures Pack(0x66, 0x6f, 0x6f, 0x00) == 0x006f6f66
    ensures Pack(0x00, 0x00, 0x00, 0x00) == 0x00000000
  {
  }

  lemma FooAdded()
    ensures Finish(State(GOLDEN, GOLDEN, 0), [0x66, 0x6f, 0x6f], Length(3)) == State(0x9ea6e91f, 0x9e3779b9, 0x00000003)
  {
    hide Pack;
    FooWords();
  }

  lemma FooMixed()
    ensures Mix(State(0x9ea6e91f, 0x9e3779b9, 0x00000003)) == State(0xe74a89d9, 0x2a9f6041, 0x7fc1f406)
  {
    hide Round;
    RoundIs(State(0x9ea6e91f, 0x9e3779b9, 0x00000003), 0, State(0x006f6f63, 0xf2a76953, 0x0ceeb276));
    RoundIs(State(0x006f6f63, 0xf2a76953, 0x0ceeb276), 1, State(0x00d99d71, 0x79ae196c, 0x91ab8b52));
    RoundIs(State(0x00d99d71, 0x79ae196c, 0x91ab8b52), 2, State(0xe74a89d9, 0x2a9f6041, 0x7fc1f406));
  }

  const LETTERS_A_TO_L: seq<Byte> := [0x61, 0x62, 0x63, 0x64, 0x65, 0x66, 0x67, 0x68, 0x69, 0x6a, 0x6b, 0x6c]
  const LETTERS_M_TO_W: seq<Byte> := [0x6d, 0x6e, 0x6f, 0x70, 0x71, 0x72, 0x73, 0x74, 0x75, 0x76, 0x77]

  // Of the letters a to w, with initial value 7: a whole block, and a rest of eleven bytes.
  lemma HashOfLetters()
    ensures FinalState(LETTERS_A_TO_L + LETTERS_M_TO_W, 7).c == 0xbfe3a7e9
  {
    hide Mix, Feed, Finish;
    var key := LETTERS_A_TO_L + LETTERS_M_TO_W;
    assert key[..12] == LETTERS_A_TO_L && key[12..] == LETTERS_M_TO_W;
    BlockAdded();
    BlockMixed();
    LettersAdded();
    LettersMixed();
    assert Absorb(State(GOLDEN, GOLDEN, 7), key) == State(0x2c0536fa, 0x86adff35, 0xb6cf6f40);
    assert Rest(key) == key[12..];
  }

  lemma BlockWords()
    ensures Pack(0x61, 0x62, 0x63, 0x64) == 0x64636261
    ensures Pack(0x65, 0x66, 0x67, 0x68) == 0x68676665
    ensures Pack(0x69, 0x6a, 0x6b, 0x6c) == 0x6c6b6a69
  {
  }

  lemma BlockAdded()
    ensures Feed(State(GOLDEN, GOLDEN, 7), LETTERS_A_TO_L) == State(0x029adc1a, 0x069ee01e, 0x6c6b6a70)
  {
    hide Pack;
    BlockWords();
  }

  lemma BlockMixed()
    ensures Mix(State(0x029adc1a, 0x069ee01e, 0x6c6b6a70)) == State(0x2c0536fa, 0x86adff35, 0xb6cf6f40)
  {
    hide Round;
    RoundIs(State(0x029adc1a, 0x069ee01e, 0x6c6b6a70), 0, State(0x8f93f2d7, 0x996d55d7, 0x436eeaa8));
    RoundIs(State(0x8f93f2d7, 0x996d55d7, 0x436eeaa8), 1, State(0xb2b384b6, 0x27fce679, 0x6981984a));
    RoundIs(State(0xb2b384b6, 0x27fce679, 0x6981984a), 2, State(0x2c0536fa, 0x86adff35, 0xb6cf6f40));
  }

  lemma LettersWords()
    ensures Pack(0x6d, 0x6e, 0x6f, 0x70) == 0x706f6e6d
    ensures Pack(0x71, 0x72, 0x73, 0x74) == 0x74737271
    ensures Pack(0x00, 0x75, 0x76, 0x77) == 0x77767500
  {
  }

  lemma LettersAdded()
    ensures Finish(State(0x2c0536fa, 0x86adff35, 0xb6cf6f40), LETTERS_M_TO_W, Length(23)) == State(0x9c74a567, 0xfb2171a6, 0x2e45e457)
  {
    hide Pack;
    LettersWords();
  }

  lemma LettersMixed()
    ensures Mix(State(0x9c74a567, 0xfb2171a6, 0x2e45e457)) == State(0x0a404950, 0x5955d850, 0xbfe3a7e9)
  {
    hide Round;
    RoundIs(State(0x9c74a567, 0xfb2171a6, 0x2e45e457), 0, State(0x730c3d45, 0x55f2150a, 0x65453d98));
    RoundIs(State(0x730c3d45, 0x55f2150a, 0x65453d98), 1, State(0xb7d2bef0, 0x862a1882, 0x237936e2));
    RoundIs(State(0xb7d2bef0, 0x862a1882, 0x237936e2), 2, State(0x0a404950, 0x5955d850, 0xbfe3a7e9));
  }

  // Of bytes above 127, which count as negative.
  lemma HashOfAccented()
    ensures FinalState([0xc3, 0xa9, 0xff, 0x80, 0x01], 0).c == 0x7693dee5
  {
    hide Mix, Finish;
    AccentedAdded();
    AccentedMixed();
  }

  lemma AccentedWords()
    ensures Pack(0xc3, 0xa9, 0xff, 0x80) == 0x7ffea8c3
    ensures Pack(0x01, 0x00, 0x00, 0x00) == 0x00000001
    ensures Pack(0x00, 0x00, 0x00, 0x00) == 0x00000000
  {
  }

  lemma AccentedAdded()
    ensures Finish(State(GOLDEN, GOLDEN, 0), [0xc3, 0xa9, 0xff, 0x80, 0x01], Length(5)) == State(0x1e36227c, 0x9e3779ba, 0x00000005)
  {
    hide Pack;
    AccentedWords();
  }

  lemma AccentedMixed()
    ensures Mix(State(0x1e36227c, 0x9e3779ba, 0x00000005)) == State(0x7655d218, 0xb64f46f7, 0x7693dee5)
  {
    hide Round;
    RoundIs(State(0x1e36227c, 0x9e3779ba, 0x00000005), 0, State(0x7ffea8bd, 0xe0906df8, 0x9f77edd3));
    RoundIs(State(0x7ffea8bd, 0xe0906df8, 0x9f77edd3), 1, State(0xffffbb8c, 0xfa94c499, 0xa337cb8a));
    RoundIs(State(0xffffbb8c, 0xfa94c499, 0xa337cb8a), 2, State(0x7655d218, 0xb64f46f7, 0x7693dee5));
  }
}
