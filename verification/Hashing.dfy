/** SHA-256 as a streaming hash and HMAC on top of it (phase12/src/dealer.cpp), over an
    uninterpreted block function. */
module Hashing {

  type Byte = b: nat | b < 256
  type Word = w: nat | w < 0x1_0000_0000

  const INITIAL: seq<Word> :=
    [0x6a09e667, 0xbb67ae85, 0x3c6ef372, 0xa54ff53a, 0x510e527f, 0x9b05688c, 0x1f83d9ab, 0x5be0cd19]

  /** The eight chaining words. */
  type Chain = h: seq<Word> | |h| == 8 witness INITIAL

  /** One block of 64 bytes folded into the chain: section 6.2.2 of FIPS 180-4. */
  type Compress = (Chain, seq<Byte>) -> Chain

  function Pow256(k: nat): (p: nat)
    ensures p > 0
  {
    if k == 0 then 1 else 256 * Pow256(k - 1)
  }

  /** Big-endian bytes of v, most significant first: byte i is v shifted right and truncated. */
  function BigEndian(v: nat, size: nat): (bytes: seq<Byte>)
    ensures |bytes| == size
  {
    seq(size, i requires 0 <= i < size => (v / Pow256(size - 1 - i)) % 256)
  }

  function WordBytes(words: seq<Word>): (bytes: seq<Byte>)
    ensures |bytes| == 4 * |words|
  {
    if words == [] then [] else BigEndian(words[0], 4) + WordBytes(words[1..])
  }

  function Repeat(b: Byte, n: nat): (bytes: seq<Byte>)
    ensures |bytes| == n && forall i :: 0 <= i < n ==> bytes[i] == b
  {
    seq(n, _ => b)
  }

  // ---------- the standard's definition ----------

  /** The zero bytes between the 0x80 and the length: the fewest that complete a block. */
  function ZeroCount(length: nat): (k: nat)
    ensures k < 64 && (length + 1 + k + 8) % 64 == 0
  {
    (119 - length % 64) % 64
  }

  /** Section 5.1.1 of FIPS 180-4: a one bit, zeros, and the 64-bit length in bits. */
  function Padded(message: seq<Byte>): (p: seq<Byte>)
    ensures |p| % 64 == 0
  {
    message + [0x80] + Repeat(0, ZeroCount(|message|)) + BigEndian(8 * |message|, 8)
  }

  lemma {:induction false} ZerosDone(length: nat, zeros: nat)
    requires zeros <= ZeroCount(length)
    ensures (length + 1 + zeros) % 64 == 56 <==> zeros == ZeroCount(length)
  {
  }

  function BlockAt(bytes: seq<Byte>, i: nat): (block: seq<Byte>)
    requires 64 * (i + 1) <= |bytes|
    ensures |block| == 64
  {
    bytes[64 * i..64 * i + 64]
  }

  /** H(i): the chain after i blocks. */
  function ChainAfter(f: Compress, bytes: seq<Byte>, i: nat): Chain
    requires 64 * i <= |bytes|
  {
    if i == 0 then INITIAL else f(ChainAfter(f, bytes, i - 1), BlockAt(bytes, i - 1))
  }

  function Sha256(f: Compress, message: seq<Byte>): (digest: seq<Byte>)
    ensures |digest| == 32
  {
    WordBytes(ChainAfter(f, Padded(message), |Padded(message)| / 64))
  }

  lemma {:induction false} ChainPrefix(f: Compress, a: seq<Byte>, b: seq<Byte>, i: nat)
    requires 64 * i <= |a| && a <= b
    ensures ChainAfter(f, a, i) == ChainAfter(f, b, i)
  {
    if i > 0 {
      ChainPrefix(f, a, b, i - 1);
      assert BlockAt(a, i - 1) == BlockAt(b, i - 1);
    }
  }

  // ---------- the streaming class ----------

  class Sha256Stream {
    const compress: Compress
    var h: Chain
    var len: nat
    const buf: array<Byte>
    var bufLen: nat
    /** Everything passed to Update so far. */
    ghost var absorbed: seq<Byte>

    ghost predicate Valid()
      reads this, buf
    {
      && buf.Length == 64 && bufLen < 64
      && |absorbed| == 64 * (|absorbed| / 64) + bufLen && len == |absorbed|
      && h == ChainAfter(compress, absorbed, |absorbed| / 64)
      && buf[..bufLen] == absorbed[64 * (|absorbed| / 64)..]
    }

    constructor (compress: Compress)
      ensures Valid() && fresh(buf) && this.compress == compress && absorbed == []
    {
      this.compress := compress;
      h, len, bufLen, absorbed := INITIAL, 0, 0, [];
      buf := new Byte[64](_ => 0);
    }

    method Reset()
      requires buf.Length == 64
      modifies this
      ensures Valid() && absorbed == []
    {
      h, len, bufLen, absorbed := INITIAL, 0, 0, [];
    }

    method Update(data: seq<Byte>)
      requires Valid()
      modifies this, buf
      ensures Valid() && absorbed == old(absorbed) + data
    {
      var i := 0;
      while i < |data|
        invariant 0 <= i <= |data| && Valid() && absorbed == old(absorbed) + data[..i]
      {
        UpdateByte(data[i]);
        i := i + 1;
      }
      assert data[..i] == data;
    }

    method UpdateByte(b: Byte)
      requires Valid()
      modifies this, buf
      ensures Valid() && absorbed == old(absorbed) + [b]
    {
      ghost var before, full := absorbed, |absorbed| / 64;
      len := len + 1;
      buf[bufLen] := b;
      bufLen := bufLen + 1;
      absorbed := absorbed + [b];
      ChainPrefix(compress, before, absorbed, full);
      assert buf[..bufLen] == absorbed[64 * full..];
      if bufLen == 64 {
        assert buf[..] == BlockAt(absorbed, full);
        h := compress(h, buf[..]);
        bufLen := 0;
        assert |absorbed| / 64 == full + 1;
      }
    }

    /** The digest of everything absorbed, whatever pieces it came in. */
    method Finalize() returns (out: seq<Byte>)
      requires Valid()
      modifies this, buf
      ensures Valid() && out == Sha256(compress, old(absorbed))
    {
      ghost var message := absorbed;
      var bitLen := len * 8;
      Update([0x80]);
      FillZeros(message);
      Update(BigEndian(bitLen, 8));
      assert absorbed == Padded(message);
      out := WordBytes(h);
    }

    /** The zero-fill loop: it stops, with exactly the standard's zeros added. */
    method FillZeros(ghost message: seq<Byte>)
      requires Valid() && absorbed == message + [0x80]
      modifies this, buf
      ensures Valid() && absorbed == message + [0x80] + Repeat(0, ZeroCount(|message|))
    {
      ghost var zeros := 0;
      assert Repeat(0, 0) == [];
      ZerosDone(|message|, 0);
      while bufLen != 56
        invariant 0 <= zeros <= ZeroCount(|message|)
        invariant bufLen == 56 <==> zeros == ZeroCount(|message|)
        invariant Valid() && absorbed == message + [0x80] + Repeat(0, zeros)
        decreases ZeroCount(|message|) - zeros
      {
        UpdateByte(0);
        zeros := zeros + 1;
        assert Repeat(0, zeros) == Repeat(0, zeros - 1) + [0];
        ZerosDone(|message|, zeros);
        LengthMod(absorbed, bufLen);
      }
    }
  }

  lemma {:induction false} LengthMod(bytes: seq<Byte>, rest: nat)
    requires rest < 64 && |bytes| == 64 * (|bytes| / 64) + rest
    ensures |bytes| % 64 == rest
  {
  }

  /** Any split of a message into Update calls gives the digest of the whole. */
  method HashPieces(compress: Compress, pieces: seq<seq<Byte>>) returns (out: seq<Byte>)
    ensures out == Sha256(compress, Flatten(pieces))
  {
    var stream := new Sha256Stream(compress);
    var i := 0;
    while i < |pieces|
      invariant 0 <= i <= |pieces| && stream.Valid() && fresh(stream) && fresh(stream.buf)
      invariant stream.compress == compress && stream.absorbed == Flatten(pieces[..i])
    {
      stream.Update(pieces[i]);
      assert pieces[..i + 1][..i] == pieces[..i];
      i := i + 1;
    }
    assert pieces[..i] == pieces;
    out := stream.Finalize();
  }

  function Flatten(pieces: seq<seq<Byte>>): seq<Byte> {
    if pieces == [] then [] else Flatten(pieces[..|pieces| - 1]) + pieces[|pieces| - 1]
  }

  // ---------- HMAC ----------

  function XorByte(a: Byte, b: Byte): Byte {
    ((a as bv8) ^ (b as bv8)) as Byte
  }

  function XorWith(bytes: seq<Byte>, b: Byte): (r: seq<Byte>)
    ensures |r| == |bytes|
  {
    seq(|bytes|, i requires 0 <= i < |bytes| => XorByte(bytes[i], b))
  }

  /** The key as a block: hashed first if it is longer than one, then zero-padded. */
  function KeyBlock(f: Compress, key: seq<Byte>): (k: seq<Byte>)
    ensures |k| == 64
  {
    var short := if |key| > 64 then Sha256(f, key) else key;
    short + Repeat(0, 64 - |short|)
  }

  /** Section 2 of RFC 2104: H(K xor opad, H(K xor ipad, text)). */
  function Hmac(f: Compress, key: seq<Byte>, text: seq<Byte>): (digest: seq<Byte>)
    ensures |digest| == 32
  {
    Sha256(f, XorWith(KeyBlock(f, key), 0x5c) + Sha256(f, XorWith(KeyBlock(f, key), 0x36) + text))
  }

  /** Padded with zeros to a block, the key is combined with 0x36 for the inner hash and with 0x5c for
      the outer one. */
  lemma {:induction false} HmacIs(f: Compress, key: seq<Byte>, text: seq<Byte>, i: seq<Byte>, o: seq<Byte>)
    requires |key| <= 64 && |i| == 64 == |o|
    requires forall n :: 0 <= n < 64 ==> i[n] == XorByte(if n < |key| then key[n] else 0, 0x36)
    requires forall n :: 0 <= n < 64 ==> o[n] == XorByte(if n < |key| then key[n] else 0, 0x5c)
    ensures Hmac(f, key, text) == Sha256(f, o + Sha256(f, i + text))
  {
    assert i == XorWith(KeyBlock(f, key), 0x36);
    assert o == XorWith(KeyBlock(f, key), 0x5c);
  }

  method PaddedKey(compress: Compress, key: seq<Byte>) returns (k: seq<Byte>)
    ensures k == KeyBlock(compress, key)
  {
    k := key;
    if |key| > 64 {
      var hash := new Sha256Stream(compress);
      hash.Update(key);
      assert hash.absorbed == key;
      k := hash.Finalize();
    }
    assert k == if |key| > 64 then Sha256(compress, key) else key;
    k := k + Repeat(0, 64 - |k|);
  }

  class HmacStream {
    const compress: Compress
    const inner: Sha256Stream
    const opad: seq<Byte>
    ghost const key: seq<Byte>
    ghost var text: seq<Byte>

    ghost predicate Valid()
      reads this, inner, inner.buf
    {
      && inner.Valid() && inner.compress == compress
      && opad == XorWith(KeyBlock(compress, key), 0x5c)
      && inner.absorbed == XorWith(KeyBlock(compress, key), 0x36) + text
    }

    constructor (compress: Compress, key: seq<Byte>)
      ensures Valid() && fresh(inner) && fresh(inner.buf)
      ensures this.compress == compress && this.key == key && text == []
    {
      var k := PaddedKey(compress, key);
      this.compress, this.key := compress, key;
      opad := XorWith(k, 0x5c);
      var first := new Sha256Stream(compress);
      first.Update(XorWith(k, 0x36));
      inner := first;
      text := [];
    }

    method Update(data: seq<Byte>)
      requires Valid()
      modifies this, inner, inner.buf
      ensures Valid() && text == old(text) + data
    {
      inner.Update(data);
      text := text + data;
    }

    method Finalize() returns (out: seq<Byte>)
      requires Valid()
      modifies this, inner, inner.buf
      ensures out == Hmac(compress, key, old(text))
    {
      var innerHash := inner.Finalize();
      var outer := new Sha256Stream(compress);
      outer.Update(opad);
      outer.Update(innerHash);
      assert outer.absorbed == opad + innerHash;
      out := outer.Finalize();
    }
  }
}
