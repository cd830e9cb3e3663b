/** SipHash on 64-bit words: the loads, stores and tail of the code, and SipHash-2-4
    itself. */
module SipHash64 {
  import opened SipHash

  type Word = bv64

  // ----- words -----

  /** The little-endian value of eight bytes, least significant byte outermost. */
  function FromLE(b: seq<Byte>): Word
    requires |b| == 8
  {
    (b[0] as Word) | (((b[1] as Word) | (((b[2] as Word) | (((b[3] as Word) | (((b[4] as Word) | (((b[5] as Word) |
    (((b[6] as Word) | ((b[7] as Word) << 8)) << 8)) << 8)) << 8)) << 8)) << 8)) << 8)
  }

  /** U8TO64_LE; only ever applied to eight bytes. */
  function Load64(b: seq<Byte>): Word {
    if |b| != 8 then 0 else
    (b[0] as Word) | ((b[1] as Word) << 8) | ((b[2] as Word) << 16) | ((b[3] as Word) << 24) |
    ((b[4] as Word) << 32) | ((b[5] as Word) << 40) | ((b[6] as Word) << 48) | ((b[7] as Word) << 56)
  }

  function Low8(v: bv32): Byte {
    (v & 0xff) as Byte
  }

  function Low32(v: Word): bv32 {
    (v & 0xffff_ffff) as bv32
  }

  /** U32TO8_LE. */
  function Store32(v: bv32): (b: seq<Byte>)
    ensures |b| == 4
  {
    [Low8(v), Low8(v >> 8), Low8(v >> 16), Low8(v >> 24)]
  }

  /** U64TO8_LE, by halves. */
  function Store64(v: Word): (b: seq<Byte>)
    ensures |b| == 8
  {
    Store32(Low32(v)) + Store32(Low32(v >> 32))
  }

  /** ROTL for the five amounts the round uses. */
  function Rotl(x: Word, k: nat): Word {
    if k == 13 then (x << 13) | (x >> 51)
    else if k == 16 then (x << 16) | (x >> 48)
    else if k == 17 then (x << 17) | (x >> 47)
    else if k == 21 then (x << 21) | (x >> 43)
    else if k == 32 then (x << 32) | (x >> 32)
    else x
  }

  function Rotr(x: Word, k: nat): Word {
    if k == 13 then (x >> 13) | (x << 51)
    else if k == 16 then (x >> 16) | (x << 48)
    else if k == 17 then (x >> 17) | (x << 47)
    else if k == 21 then (x >> 21) | (x << 43)
    else if k == 32 then (x >> 32) | (x << 32)
    else x
  }

  function Plus(x: Word, y: Word): Word { x + y }
  function Minus(x: Word, y: Word): Word { x - y }
  function Xor(x: Word, y: Word): Word { x ^ y }

  function Words64(): Arx<Word> {
    Arx(Plus, Minus, Xor, Rotl, Rotr, Load64)
  }

  lemma RotationsAreRotations(x: Word)
    ensures Rotl(x, 13) == x.RotateLeft(13) && Rotl(x, 16) == x.RotateLeft(16) && Rotl(x, 17) == x.RotateLeft(17)
    ensures Rotl(x, 21) == x.RotateLeft(21) && Rotl(x, 32) == x.RotateLeft(32)
  {
  }

  lemma Rotation13(x: Word)
    ensures Rotr(Rotl(x, 13), 13) == x && Rotl(Rotr(x, 13), 13) == x
  {
  }

  lemma Rotation16(x: Word)
    ensures Rotr(Rotl(x, 16), 16) == x && Rotl(Rotr(x, 16), 16) == x
  {
  }

  lemma Rotation17(x: Word)
    ensures Rotr(Rotl(x, 17), 17) == x && Rotl(Rotr(x, 17), 17) == x
  {
  }

  lemma Rotation21(x: Word)
    ensures Rotr(Rotl(x, 21), 21) == x && Rotl(Rotr(x, 21), 21) == x
  {
  }

  lemma Rotation32(x: Word)
    ensures Rotr(Rotl(x, 32), 32) == x && Rotl(Rotr(x, 32), 32) == x
  {
  }

  lemma MinusOfSum(x: Word, y: Word)
    ensures Minus(x + y, y) == x
  {
  }

  lemma PlusOfDifference(x: Word, y: Word)
    ensures Plus(x - y, y) == x
  {
  }

  lemma PlusMinus(x: Word, y: Word)
    ensures Minus(Plus(x, y), y) == x && Plus(Minus(x, y), y) == x
  {
    MinusOfSum(x, y);
    PlusOfDifference(x, y);
  }

  lemma XorRight(x: Word, y: Word)
    ensures Xor(x ^ y, y) == x
  {
  }

  lemma XorLeft(x: Word, y: Word)
    ensures Xor(x, x ^ y) == y
  {
  }

  lemma XorTwice(x: Word, y: Word)
    ensures Xor(Xor(x, y), y) == x && Xor(x, Xor(x, y)) == y
  {
    XorRight(x, y);
    XorLeft(x, y);
  }

  lemma PlusIsLawful()
    ensures PlusLaw(Words64())
  {
    forall x: Word, y: Word
      ensures Minus(Plus(x, y), y) == x && Plus(Minus(x, y), y) == x
    {
      PlusMinus(x, y);
    }
  }

  lemma XorIsLawful()
    ensures XorLaw(Words64())
  {
    forall x: Word, y: Word
      ensures Xor(Xor(x, y), y) == x && Xor(x, Xor(x, y)) == y
    {
      XorTwice(x, y);
    }
  }

  lemma RotationsAreLawful()
    ensures RotationLaw(Words64())
  {
    forall x: Word, k: nat
      ensures Rotr(Rotl(x, k), k) == x && Rotl(Rotr(x, k), k) == x
    {
      if k == 13 {
        Rotation13(x);
      } else if k == 16 {
        Rotation16(x);
      } else if k == 17 {
        Rotation17(x);
      } else if k == 21 {
        Rotation21(x);
      } else if k == 32 {
        Rotation32(x);
      }
    }
  }

  lemma LoadIsFromLE(b: seq<Byte>)
    requires |b| == 8
    ensures Load64(b) == FromLE(b)
  {
  }

  lemma LoadUndoesStore(v: Word)
    ensures Load64(Store64(v)) == v
  {
  }

  lemma StoreUndoesLoad(b: seq<Byte>)
    requires |b| == 8
    ensures Store64(Load64(b)) == b
  {
  }

  // ----- SipHash-2-4 -----

  function Constants(): State<Word> {
    State(0x736f6d6570736575, 0x646f72616e646f6d, 0x6c7967656e657261, 0x7465646279746573)
  }

  /** SipHash-2-4 of a message under a 16-byte key. */
  function SipHash24(key: seq<Byte>, msg: seq<Byte>): Word
    requires |key| == 16
  {
    Hash(Words64(), Constants(), 0xff, FromLE(key[..8]), FromLE(key[8..]), msg)
  }

  // ----- the tail -----

  /** b |= (uint64_t)x << 8 * i. */
  function Put(b: Word, x: Byte, i: nat): Word {
    if i == 0 then b | (x as Word)
    else if i == 1 then b | ((x as Word) << 8)
    else if i == 2 then b | ((x as Word) << 16)
    else if i == 3 then b | ((x as Word) << 24)
    else if i == 4 then b | ((x as Word) << 32)
    else if i == 5 then b | ((x as Word) << 40)
    else if i == 6 then b | ((x as Word) << 48)
    else b
  }

  /** Shifting a length to the top byte keeps its low byte only. */
  lemma ShiftKeepsLowByte(inlen: Word)
    ensures inlen << 56 == ((inlen & 0xff) as Byte as Word) << 56
  {
  }

  lemma PutZero0(b: Word)
    ensures Put(b, 0, 0) == b
  {
  }

  lemma PutZero1(b: Word)
    ensures Put(b, 0, 1) == b
  {
  }

  lemma PutZero2(b: Word)
    ensures Put(b, 0, 2) == b
  {
  }

  lemma PutZero3(b: Word)
    ensures Put(b, 0, 3) == b
  {
  }

  lemma PutZero4(b: Word)
    ensures Put(b, 0, 4) == b
  {
  }

  lemma PutZero5(b: Word)
    ensures Put(b, 0, 5) == b
  {
  }

  lemma PutZero6(b: Word)
    ensures Put(b, 0, 6) == b
  {
  }

  lemma PutZero(b: Word, i: nat)
    ensures Put(b, 0, i) == b
  {
    if i == 0 {
      PutZero0(b);
    } else if i == 1 {
      PutZero1(b);
    } else if i == 2 {
      PutZero2(b);
    } else if i == 3 {
      PutZero3(b);
    } else if i == 4 {
      PutZero4(b);
    } else if i == 5 {
      PutZero5(b);
    } else if i == 6 {
      PutZero6(b);
    }
  }

  lemma LoadByPuts(b: seq<Byte>)
    requires |b| == 8
    ensures Load64(b) ==
            Put(Put(Put(Put(Put(Put(Put((b[7] as Word) << 56,
                b[6], 6), b[5], 5), b[4], 4), b[3], 3), b[2], 2), b[1], 1), b[0], 0)
  {
  }

  lemma TailIsLoad(left: seq<Byte>, length: Byte)
    requires |left| == 7
    ensures PutAll(Put, (length as Word) << 56, left, 7) == Load64(left + [length])
  {
    LoadByPuts(left + [length]);
    PutAllUnrolled(Put, (length as Word) << 56, left);
  }

  /** The tail word with the length in its top byte is the last word of the padded
      message. */
  lemma TailIsLastWord(o: Arx<Word>, msg: seq<Byte>)
    requires o.load == Load64
    ensures PutAll(Put, ((|msg| % 256) as Byte as Word) << 56, LeftBytes(msg), 7) == BlockOf(o, Padded(msg), |msg| / 8)
  {
    LastBlock(o, msg);
    TailIsLoad(LeftBytes(msg), (|msg| % 256) as Byte);
  }

  // ----- the whole function -----

  /** `siphash` for eight bytes of output, on words with the given operations. */
  method SipHashBytes(o: Arx<Word>, input: array<Byte>, k: array<Byte>, out: array<Byte>)
    requires k.Length == 16 && out.Length == 8 && o.load == Load64
    requires out != input && out != k
    modifies out
    ensures out[..] == Store64(Hash(o, Constants(), 0xff, FromLE(k[..8]), FromLE(k[8..]), input[..]))
  {
    var k0 := Load64(k[..8]);
    var k1 := Load64(k[8..]);
    LoadIsFromLE(k[..8]);
    LoadIsFromLE(k[8..]);
    var left := input.Length % 8;
    forall x: Word, i: nat
      ensures Put(x, 0, i) == x
    {
      PutZero(x, i);
    }
    var b := Tail(Put, ((input.Length % 256) as Byte as Word) << 56, input, input.Length - left, left);
    TailIsLastWord(o, input[..]);
    var h := HashBlocks(o, Constants(), 0xff, k0, k1, input, b);
    StoreInto(h, out);
  }

  method StoreInto(h: Word, out: array<Byte>)
    requires out.Length == 8
    modifies out
    ensures out[..] == Store64(h)
  {
    var bytes := Store64(h);
    forall i | 0 <= i < 8 {
      out[i] := bytes[i];
    }
    assert out[..] == bytes;
  }

  const USR_KEY: seq<Byte> := [0xd0, 0xe5, 0x4d, 0x61, 0x74, 0x63, 0x68, 0x52,
                               0x61, 0x79, 0xea, 0x70, 0xca, 0x70, 0xf0, 0x0d]

  /** `hash_usr`: SipHash-2-4 of a symbol's USR under a fixed key. */
  method HashUsr(usr: array<Byte>) returns (out: array<Byte>)
    ensures fresh(out) && out[..] == Store64(SipHash24(USR_KEY, usr[..]))
    ensures out.Length == 8 && FromLE(out[..]) == SipHash24(USR_KEY, usr[..])
    ensures USR_KEY == [0xd0, 0xe5, 0x4d, 0x61, 0x74, 0x63, 0x68, 0x52,
                        0x61, 0x79, 0xea, 0x70, 0xca, 0x70, 0xf0, 0x0d]
  {
    var k := new Byte[16](i requires 0 <= i < 16 => USR_KEY[i]);
    assert k[..] == USR_KEY;
    out := new Byte[8];
    SipHashBytes(Words64(), usr, k, out);
    BytesReadBack(SipHash24(USR_KEY, usr[..]));
  }

  /** So the bijection of the round, and the injectivity of absorbing, hold of 64-bit words. */
  lemma Words64AreLawful()
    ensures Lawful(Words64())
  {
    PlusIsLawful();
    XorIsLawful();
    RotationsAreLawful();
  }

  /** Read as a little-endian number, the eight bytes of `hash_usr` are the hash. */
  lemma BytesReadBack(v: Word)
    ensures FromLE(Store64(v)) == v
  {
    LoadIsFromLE(Store64(v));
    LoadUndoesStore(v);
  }

  /** The two words that the hash takes from a key tell its sixteen bytes. */
  lemma KeyWordsTellKey(j: seq<Byte>, k: seq<Byte>)
    requires |j| == |k| == 16
    requires FromLE(j[..8]) == FromLE(k[..8]) && FromLE(j[8..]) == FromLE(k[8..])
    ensures j == k
  {
  }
}
