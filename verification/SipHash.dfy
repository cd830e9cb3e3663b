/** `siphash` against SipHash-2-4 as section 2 of "SipHash: a fast short-input PRF"
    (Aumasson and Bernstein, 2012) defines it.

    The structure of the function is stated over any type of words with addition, xor
    and rotation; `Words64` is the instance the code computes with. */
module SipHash {

  type Byte = bv8

  /** Operations on words, and how eight bytes make one. */
  datatype Arx<!W> = Arx(
    plus: (W, W) -> W,
    minus: (W, W) -> W,
    xor: (W, W) -> W,
    rotl: (W, nat) -> W,
    rotr: (W, nat) -> W,
    load: seq<Byte> -> W)

  datatype State<W> = State(v0: W, v1: W, v2: W, v3: W)

  const C_ROUNDS: nat := 2
  const D_ROUNDS: nat := 4

  // ----- the definition -----

  /** One SipRound, in the order of the paper's figure. */
  function SipRound<W>(o: Arx<W>, s: State<W>): State<W> {
    var a0, c0 := o.plus(s.v0, s.v1), o.plus(s.v2, s.v3);
    var b0, d0 := o.rotl(s.v1, 13), o.rotl(s.v3, 16);
    var b1, d1 := o.xor(b0, a0), o.xor(d0, c0);
    var a1 := o.rotl(a0, 32);
    var c1, a2 := o.plus(c0, b1), o.plus(a1, d1);
    var b2, d2 := o.rotl(b1, 17), o.rotl(d1, 21);
    State(a2, o.xor(b2, c1), o.rotl(c1, 32), o.xor(d2, a2))
  }

  function Rounds<W>(o: Arx<W>, s: State<W>, n: nat): State<W> {
    if n == 0 then s else SipRound(o, Rounds(o, s, n - 1))
  }

  function Zeros(n: nat): seq<Byte> {
    seq(n, i => 0)
  }

  /** The message, null bytes, and its length mod 256 in the last byte of the last
      word. */
  function Padded(msg: seq<Byte>): (p: seq<Byte>)
    ensures |p| == 8 * (|msg| / 8 + 1)
  {
    msg + Zeros(7 - |msg| % 8) + [(|msg| % 256) as Byte]
  }

  /** Section 2.2 of the paper: whole words, the first bytes of which are the message, the
      last one its length mod 256, and those between null. */
  lemma PaddedShape(msg: seq<Byte>)
    ensures var p := Padded(msg);
            && |p| % 8 == 0 && |msg| < |p| <= |msg| + 8 && p[..|msg|] == msg
            && (forall i :: |msg| <= i < |p| - 1 ==> p[i] == 0)
            && p[|p| - 1] == (|msg| % 256) as Byte
  {
  }

  function BlockOf<W>(o: Arx<W>, bytes: seq<Byte>, i: nat): W
    requires 8 * (i + 1) <= |bytes|
  {
    o.load(bytes[8 * i..8 * i + 8])
  }

  function Compress<W>(o: Arx<W>, s: State<W>, m: W): State<W> {
    var r := Rounds(o, s.(v3 := o.xor(s.v3, m)), C_ROUNDS);
    r.(v0 := o.xor(r.v0, m))
  }

  /** The state after the first `n` words. */
  function Absorb<W>(o: Arx<W>, s: State<W>, bytes: seq<Byte>, n: nat): State<W>
    requires 8 * n <= |bytes|
  {
    if n == 0 then s else Compress(o, Absorb(o, s, bytes, n - 1), BlockOf(o, bytes, n - 1))
  }

  /** The state that is folded to the output, once all words are absorbed; `ff` is the
      finalisation constant. */
  function FinalState<W>(o: Arx<W>, s: State<W>, ff: W): State<W> {
    Rounds(o, s.(v2 := o.xor(s.v2, ff)), D_ROUNDS)
  }

  function Finish<W>(o: Arx<W>, s: State<W>, ff: W): W {
    var r := FinalState(o, s, ff);
    o.xor(o.xor(o.xor(r.v0, r.v1), r.v2), r.v3)
  }

  /** The state before the first word: the constants `c` with the key words mixed in. */
  function Initial<W>(o: Arx<W>, c: State<W>, k0: W, k1: W): State<W> {
    State(o.xor(c.v0, k0), o.xor(c.v1, k1), o.xor(c.v2, k0), o.xor(c.v3, k1))
  }

  function Hash<W>(o: Arx<W>, c: State<W>, ff: W, k0: W, k1: W, msg: seq<Byte>): W {
    Finish(o, Absorb(o, Initial(o, c, k0, k1), Padded(msg), |msg| / 8 + 1), ff)
  }

  // ----- the round is a bijection -----

  ghost predicate PlusLaw<W(!new)>(o: Arx<W>) {
    forall x, y :: o.minus(o.plus(x, y), y) == x && o.plus(o.minus(x, y), y) == x
  }

  ghost predicate XorLaw<W(!new)>(o: Arx<W>) {
    forall x, y :: o.xor(o.xor(x, y), y) == x && o.xor(x, o.xor(x, y)) == y
  }

  ghost predicate RotationLaw<W(!new)>(o: Arx<W>) {
    forall x, k :: o.rotr(o.rotl(x, k), k) == x && o.rotl(o.rotr(x, k), k) == x
  }

  ghost predicate Lawful<W(!new)>(o: Arx<W>) {
    PlusLaw(o) && XorLaw(o) && RotationLaw(o)
  }

  /** Undoes SipRound from its end. */
  function SipRoundInverse<W>(o: Arx<W>, s: State<W>): State<W> {
    var c1 := o.rotr(s.v2, 32);
    var b1 := o.rotr(o.xor(s.v1, c1), 17);
    var d1 := o.rotr(o.xor(s.v3, s.v0), 21);
    var a0 := o.rotr(o.minus(s.v0, d1), 32);
    var c0 := o.minus(c1, b1);
    var b := o.rotr(o.xor(b1, a0), 13);
    var d := o.rotr(o.xor(d1, c0), 16);
    State(o.minus(a0, b), b, o.minus(c0, d), d)
  }

  lemma RoundIsBijection<W(!new)>(o: Arx<W>, s: State<W>)
    requires Lawful(o)
    ensures SipRoundInverse(o, SipRound(o, s)) == s && SipRound(o, SipRoundInverse(o, s)) == s
  {
  }

  lemma {:induction false} RoundsInjective<W(!new)>(o: Arx<W>, s: State<W>, t: State<W>, n: nat)
    requires Lawful(o) && Rounds(o, s, n) == Rounds(o, t, n)
    ensures s == t
  {
    if n > 0 {
      RoundIsBijection(o, Rounds(o, s, n - 1));
      RoundIsBijection(o, Rounds(o, t, n - 1));
      RoundsInjective(o, s, t, n - 1);
    }
  }

  lemma CompressInjective<W(!new)>(o: Arx<W>, s: State<W>, t: State<W>, m: W)
    requires Lawful(o) && Compress(o, s, m) == Compress(o, t, m)
    ensures s == t
  {
    var a, b := s.(v3 := o.xor(s.v3, m)), t.(v3 := o.xor(t.v3, m));
    var r, q := Rounds(o, a, C_ROUNDS), Rounds(o, b, C_ROUNDS);
    assert o.xor(o.xor(r.v0, m), m) == o.xor(o.xor(q.v0, m), m);
    RoundsInjective(o, a, b, C_ROUNDS);
    assert o.xor(o.xor(s.v3, m), m) == o.xor(o.xor(t.v3, m), m);
  }

  ghost predicate CompressionIsInjective<W(!new)>(o: Arx<W>) {
    forall s, t, m :: Compress(o, s, m) == Compress(o, t, m) ==> s == t
  }

  lemma LawfulCompressionIsInjective<W(!new)>(o: Arx<W>)
    requires Lawful(o)
    ensures CompressionIsInjective(o)
  {
    forall s, t, m | Compress(o, s, m) == Compress(o, t, m)
      ensures s == t
    {
      CompressInjective(o, s, t, m);
    }
  }

  /** For a fixed message, states that differ before it differ after it. */
  lemma {:induction false} AbsorbInjective<W(!new)>(o: Arx<W>, s: State<W>, t: State<W>, bytes: seq<Byte>, n: nat)
    requires CompressionIsInjective(o) && 8 * n <= |bytes| && Absorb(o, s, bytes, n) == Absorb(o, t, bytes, n)
    ensures s == t
  {
    if n > 0 {
      assert Absorb(o, s, bytes, n - 1) == Absorb(o, t, bytes, n - 1);
      AbsorbInjective(o, s, t, bytes, n - 1);
    }
  }

  lemma InitialInjective<W(!new)>(o: Arx<W>, c: State<W>, j0: W, j1: W, k0: W, k1: W)
    requires XorLaw(o) && Initial(o, c, j0, j1) == Initial(o, c, k0, k1)
    ensures j0 == k0 && j1 == k1
  {
    assert o.xor(c.v0, o.xor(c.v0, j0)) == o.xor(c.v0, o.xor(c.v0, k0));
    assert o.xor(c.v1, o.xor(c.v1, j1)) == o.xor(c.v1, o.xor(c.v1, k1));
  }

  lemma FinalStateInjective<W(!new)>(o: Arx<W>, s: State<W>, t: State<W>, ff: W)
    requires Lawful(o) && FinalState(o, s, ff) == FinalState(o, t, ff)
    ensures s == t
  {
    RoundsInjective(o, s.(v2 := o.xor(s.v2, ff)), t.(v2 := o.xor(t.v2, ff)), D_ROUNDS);
    assert o.xor(o.xor(s.v2, ff), ff) == o.xor(o.xor(t.v2, ff), ff);
  }

  /** From the initial state to the state that is folded to one word, nothing is lost: for a
      fixed message the map is injective. */
  lemma HashingIsInjective<W(!new)>(o: Arx<W>, s: State<W>, t: State<W>, ff: W, bytes: seq<Byte>, n: nat)
    requires Lawful(o) && 8 * n <= |bytes|
    requires FinalState(o, Absorb(o, s, bytes, n), ff) == FinalState(o, Absorb(o, t, bytes, n), ff)
    ensures s == t
  {
    FinalStateInjective(o, Absorb(o, s, bytes, n), Absorb(o, t, bytes, n), ff);
    LawfulCompressionIsInjective(o);
    AbsorbInjective(o, s, t, bytes, n);
  }

  /** So for a fixed message the state that is folded to one word tells the key. */
  lemma StateTellsKey<W(!new)>(o: Arx<W>, c: State<W>, ff: W, j0: W, j1: W, k0: W, k1: W, bytes: seq<Byte>, n: nat)
    requires Lawful(o) && 8 * n <= |bytes|
    requires FinalState(o, Absorb(o, Initial(o, c, j0, j1), bytes, n), ff) ==
             FinalState(o, Absorb(o, Initial(o, c, k0, k1), bytes, n), ff)
    ensures j0 == k0 && j1 == k1
  {
    HashingIsInjective(o, Initial(o, c, j0, j1), Initial(o, c, k0, k1), ff, bytes, n);
    InitialInjective(o, c, j0, j1, k0, k1);
  }

  // ----- the code, on any words -----

  /** SIPROUND, in the order of the macro. */
  method SipRoundMacro<W>(o: Arx<W>, s: State<W>) returns (r: State<W>)
    ensures r == SipRound(o, s)
  {
    var v0, v1, v2, v3 := s.v0, s.v1, s.v2, s.v3;
    v0 := o.plus(v0, v1);
    v1 := o.rotl(v1, 13);
    v1 := o.xor(v1, v0);
    v0 := o.rotl(v0, 32);
    v2 := o.plus(v2, v3);
    v3 := o.rotl(v3, 16);
    v3 := o.xor(v3, v2);
    v0 := o.plus(v0, v3);
    v3 := o.rotl(v3, 21);
    v3 := o.xor(v3, v0);
    v2 := o.plus(v2, v1);
    v1 := o.rotl(v1, 17);
    v1 := o.xor(v1, v2);
    v2 := o.rotl(v2, 32);
    r := State(v0, v1, v2, v3);
  }

  method RunRounds<W>(o: Arx<W>, s: State<W>, n: nat) returns (r: State<W>)
    ensures r == Rounds(o, s, n)
  {
    r := s;
    for i := 0 to n
      invariant r == Rounds(o, s, i)
    {
      r := SipRoundMacro(o, r);
    }
  }

  method CompressBlock<W>(o: Arx<W>, s: State<W>, m: W) returns (r: State<W>)
    ensures r == Compress(o, s, m)
  {
    r := s.(v3 := o.xor(s.v3, m));
    r := RunRounds(o, r, C_ROUNDS);
    r := r.(v0 := o.xor(r.v0, m));
  }

  /** A full block of the message is the same block of the padded message. */
  lemma BlockOfPadded<W>(o: Arx<W>, input: array<Byte>, i: nat)
    requires i < input.Length / 8
    ensures BlockOf(o, Padded(input[..]), i) == o.load(input[8 * i..8 * i + 8])
  {
    assert Padded(input[..])[8 * i..8 * i + 8] == input[8 * i..8 * i + 8];
  }

  /** The loop over full blocks. */
  method AbsorbBlocks<W>(o: Arx<W>, start: State<W>, input: array<Byte>) returns (s: State<W>)
    ensures s == Absorb(o, start, Padded(input[..]), input.Length / 8)
  {
    s := start;
    ghost var p, i, blocks := Padded(input[..]), 0, input.Length / 8;
    var end := input.Length - input.Length % 8;
    assert end == 8 * blocks;
    var pos := 0;
    while pos != end
      invariant pos == 8 * i && i <= blocks
      invariant s == Absorb(o, start, p, i)
      decreases end - pos
    {
      var m := o.load(input[pos..pos + 8]);
      BlockOfPadded(o, input, i);
      s := CompressBlock(o, s, m);
      pos, i := pos + 8, i + 1;
    }
  }

  /** The bytes after the full blocks, and null bytes up to seven. */
  function LeftBytes(msg: seq<Byte>): (r: seq<Byte>)
    ensures |r| == 7
  {
    msg[8 * (|msg| / 8)..] + Zeros(7 - |msg| % 8)
  }

  /** The last word of the padded message: the bytes left over, null bytes, the length. */
  lemma LastBlock<W>(o: Arx<W>, msg: seq<Byte>)
    ensures BlockOf(o, Padded(msg), |msg| / 8) == o.load(LeftBytes(msg) + [(|msg| % 256) as Byte])
  {
    var pos := 8 * (|msg| / 8);
    assert Padded(msg)[pos..pos + 8] == LeftBytes(msg) + [(|msg| % 256) as Byte];
  }

  /** Puts the first `n` bytes at their places in a word, last one first. */
  function PutAll<W>(put: (W, Byte, nat) -> W, b: W, bytes: seq<Byte>, n: nat): W
    requires n <= |bytes|
  {
    if n == 0 then b else PutAll(put, put(b, bytes[n - 1], n - 1), bytes, n - 1)
  }

  /** The switch over `left`, with its fall-through from case to case: the bytes that
      are there are put in place, which is as good as all seven. */
  method Tail<W(!new)>(put: (W, Byte, nat) -> W, top: W, input: array<Byte>, pos: nat, left: nat) returns (b: W)
    requires left == input.Length % 8 && pos + left == input.Length
    requires forall x, i :: put(x, 0, i) == x
    ensures b == PutAll(put, top, LeftBytes(input[..]), 7)
  {
    ghost var bytes := LeftBytes(input[..]);
    assert forall i :: 0 <= i < 7 ==> bytes[i] == if i < left then input[pos + i] else 0;
    b := top;
    if left >= 7 { b := put(b, input[pos + 6], 6); }
    assert PutAll(put, top, bytes, 7) == PutAll(put, b, bytes, 6);
    if left >= 6 { b := put(b, input[pos + 5], 5); }
    assert PutAll(put, top, bytes, 7) == PutAll(put, b, bytes, 5);
    if left >= 5 { b := put(b, input[pos + 4], 4); }
    assert PutAll(put, top, bytes, 7) == PutAll(put, b, bytes, 4);
    if left >= 4 { b := put(b, input[pos + 3], 3); }
    assert PutAll(put, top, bytes, 7) == PutAll(put, b, bytes, 3);
    if left >= 3 { b := put(b, input[pos + 2], 2); }
    assert PutAll(put, top, bytes, 7) == PutAll(put, b, bytes, 2);
    if left >= 2 { b := put(b, input[pos + 1], 1); }
    assert PutAll(put, top, bytes, 7) == PutAll(put, b, bytes, 1);
    if left >= 1 { b := put(b, input[pos], 0); }
    assert PutAll(put, top, bytes, 7) == PutAll(put, b, bytes, 0);
  }

  lemma PutAllUnrolled<W>(put: (W, Byte, nat) -> W, top: W, b: seq<Byte>)
    requires |b| == 7
    ensures PutAll(put, top, b, 7) ==
            put(put(put(put(put(put(put(top, b[6], 6), b[5], 5), b[4], 4), b[3], 3), b[2], 2), b[1], 1), b[0], 0)
  {
    var t6 := put(top, b[6], 6);
    assert PutAll(put, top, b, 7) == PutAll(put, t6, b, 6);
    var t5 := put(t6, b[5], 5);
    assert PutAll(put, t6, b, 6) == PutAll(put, t5, b, 5);
    var t4 := put(t5, b[4], 4);
    assert PutAll(put, t5, b, 5) == PutAll(put, t4, b, 4);
    var t3 := put(t4, b[3], 3);
    assert PutAll(put, t4, b, 4) == PutAll(put, t3, b, 3);
    var t2 := put(t3, b[2], 2);
    assert PutAll(put, t3, b, 3) == PutAll(put, t2, b, 2);
    var t1 := put(t2, b[1], 1);
    assert PutAll(put, t2, b, 2) == PutAll(put, t1, b, 1);
    assert PutAll(put, t1, b, 1) == PutAll(put, put(t1, b[0], 0), b, 0);
  }

  /** Initialisation, blocks, the last word `b` and the finalisation. */
  method HashBlocks<W>(o: Arx<W>, c: State<W>, ff: W, k0: W, k1: W, input: array<Byte>, b: W) returns (h: W)
    requires b == BlockOf(o, Padded(input[..]), input.Length / 8)
    ensures h == Hash(o, c, ff, k0, k1, input[..])
  {
    var s := c;
    s := s.(v3 := o.xor(s.v3, k1));
    s := s.(v2 := o.xor(s.v2, k0));
    s := s.(v1 := o.xor(s.v1, k1));
    s := s.(v0 := o.xor(s.v0, k0));
    s := AbsorbBlocks(o, s, input);
    s := CompressBlock(o, s, b);
    s := s.(v2 := o.xor(s.v2, ff));
    s := RunRounds(o, s, D_ROUNDS);
    h := o.xor(o.xor(o.xor(s.v0, s.v1), s.v2), s.v3);
  }
}
