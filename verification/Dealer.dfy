/** The dealer (phase12/src/dealer.cpp): a keyed byte stream, rejection sampling, the Fisher-Yates
    shuffle and its audit replay. Strings are sequences of ASCII bytes. */
module Dealer {
  import opened Arithmetic
  import opened Cards
  import opened Hashing

  // ---------- the byte stream ----------

  /** An endless stream of bytes. */
  type Tape = nat -> Byte

  const LABEL: seq<Byte> := [0x66, 0x79]

  function StreamBlock(f: Compress, seed: seq<Byte>, nonce: seq<Byte>, index: nat): (bytes: seq<Byte>)
    ensures |bytes| == 32
  {
    Hmac(f, seed, LABEL + nonce + BigEndian(index, 8))
  }

  /** HMAC-SHA256(seed, "fy" || nonce || block index), block after block. */
  function TapeOf(f: Compress, seed: seq<Byte>, nonce: seq<Byte>): Tape {
    (i: nat) => StreamBlock(f, seed, nonce, i / 32)[i % 32]
  }

  /** The tape is that stream. The trigger keeps the hash out of sight until a block is computed. */
  ghost predicate IsStream(tape: Tape, f: Compress, seed: seq<Byte>, nonce: seq<Byte>) {
    forall index: nat {:trigger StreamBlock(f, seed, nonce, index)} ::
      forall r: nat :: r < 32 ==> tape(32 * index + r) == StreamBlock(f, seed, nonce, index)[r]
  }

  lemma {:induction false} TapeIsStream(f: Compress, seed: seq<Byte>, nonce: seq<Byte>)
    ensures IsStream(TapeOf(f, seed, nonce), f, seed, nonce)
  {
    forall index: nat, r: nat | r < 32
      ensures TapeOf(f, seed, nonce)(32 * index + r) == StreamBlock(f, seed, nonce, index)[r]
    {
      ModUnique(32 * index + r, 32, index, r);
    }
  }

  /** Four bytes, most significant first. */
  /** Byte r of block i: HMAC under the seed of the letters "fy", the nonce and the number of the block. */
  lemma {:induction false} TapeByte(f: Compress, seed: seq<Byte>, nonce: seq<Byte>, i: nat, r: nat)
    requires r < 32
    ensures TapeOf(f, seed, nonce)(32 * i + r) == Hmac(f, seed, ['f' as int, 'y' as int] + nonce + BigEndian(i, 8))[r]
  {
    ModUnique(32 * i + r, 32, i, r);
    assert LABEL == ['f' as int, 'y' as int];
  }

  function WordAt(tape: Tape, pos: nat): (w: Word) {
    0x100_0000 * tape(pos) + 0x1_0000 * tape(pos + 1) + 0x100 * tape(pos + 2) + tape(pos + 3)
  }

  /** The last byte is the number modulo 256, and what comes before it the rest. */
  lemma {:induction false} BigEndianGrows(v: nat, size: nat)
    ensures BigEndian(v, size + 1) == BigEndian(v / 256, size) + [v % 256]
  {
    var a, b := BigEndian(v, size + 1), BigEndian(v / 256, size) + [v % 256];
    assert a[size] == v / Pow256(0) % 256 == v % 256;
    forall i | 0 <= i < size ensures a[i] == b[i] {
      HigherByte(v, size - 1 - i);
      assert a[i] == v / Pow256(size - 1 - i + 1) % 256;
    }
  }

  lemma {:induction false} HigherByte(v: nat, k: nat)
    ensures v / Pow256(k + 1) % 256 == v / 256 / Pow256(k) % 256
  {
    DivTwice(v, Pow256(k));
  }

  lemma {:induction false} DivTwice(v: nat, p: nat)
    requires p > 0
    ensures v / (256 * p) == v / 256 / p
  {
    var q, r := v / 256 / p, v / 256 % p;
    assert v / 256 == p * q + r;
    assert v == 256 * (p * q + r) + v % 256;
    assert 256 * (p * q + r) == 256 * p * q + 256 * r;
    ModUnique(v, 256 * p, q, 256 * r + v % 256);
  }

  lemma {:induction false} ByteAppended(high: nat, low: Byte, size: nat)
    ensures BigEndian(256 * high + low, size + 1) == BigEndian(high, size) + [low]
  {
    ModUnique(256 * high + low, 256, high, low);
    BigEndianGrows(256 * high + low, size);
  }

  /** Four bytes of the tape, the highest first. */
  lemma {:induction false} WordOnTape(tape: Tape, pos: nat)
    ensures BigEndian(WordAt(tape, pos), 4) == [tape(pos), tape(pos + 1), tape(pos + 2), tape(pos + 3)]
  {
    FourBytes(WordAt(tape, pos), tape(pos), tape(pos + 1), tape(pos + 2), tape(pos + 3));
  }

  lemma {:induction false} FourBytes(w: nat, a: Byte, b: Byte, c: Byte, d: Byte)
    requires w == 256 * (256 * (256 * (256 * 0 + (a as int)) + b) + c) + d
    ensures BigEndian(w, 4) == [a, b, c, d]
  {
    ByteAppended(0, a, 0);
    ByteAppended(a, b, 1);
    ByteAppended(256 * (a as int) + b, c, 2);
    ByteAppended(256 * (256 * (a as int) + b) + c, d, 3);
  }

  const WORD_MAX: nat := 0xFFFF_FFFF

  /** The largest word the sampler keeps: the last multiple of n that fits. */
  function Limit(n: nat): nat
    requires n > 0
  {
    WORD_MAX - WORD_MAX % n
  }

  /** The k-th word from pos on is kept when drawing below n. */
  ghost predicate Keeps(tape: Tape, pos: nat, n: nat, k: nat)
    requires n > 0
  {
    WordAt(tape, pos + 4 * k) <= Limit(n)
  }

  /** Words small enough for every draw of the shuffle keep coming: without this the rejection
      loop need not end. */
  ghost predicate Productive(tape: Tape) {
    forall pos: nat :: SomeSmall(tape, pos)
  }

  ghost predicate SomeSmall(tape: Tape, pos: nat) {
    exists k: nat :: Small(tape, pos, k)
  }

  ghost predicate Small(tape: Tape, pos: nat, k: nat) {
    WordAt(tape, pos + 4 * k) <= WORD_MAX - 51
  }

  /** Some word from pos on is kept when drawing below n. */
  ghost predicate WillKeep(tape: Tape, pos: nat, n: nat)
    requires n > 0
  {
    exists k: nat :: Keeps(tape, pos, n, k)
  }

  lemma {:induction false} ProductiveKeeps(tape: Tape, pos: nat, n: nat)
    requires Productive(tape) && 0 < n <= 52
    ensures WillKeep(tape, pos, n)
  {
    assert SomeSmall(tape, pos);
    var k: nat :| Small(tape, pos, k);
    assert Keeps(tape, pos, n, k);
  }

  lemma {:induction false} LeastKept(tape: Tape, pos: nat, n: nat)
    requires n > 0 && WillKeep(tape, pos, n)
    ensures exists k: nat :: Keeps(tape, pos, n, k) && forall j: nat :: j < k ==> !Keeps(tape, pos, n, j)
  {
    var k: nat :| Keeps(tape, pos, n, k);
    LeastBelow(tape, pos, n, k);
  }

  lemma {:induction false} LeastBelow(tape: Tape, pos: nat, n: nat, k: nat)
    requires n > 0 && Keeps(tape, pos, n, k)
    ensures exists k: nat :: Keeps(tape, pos, n, k) && forall j: nat :: j < k ==> !Keeps(tape, pos, n, j)
    decreases k
  {
    if j: nat :| j < k && Keeps(tape, pos, n, j) { LeastBelow(tape, pos, n, j); }
  }

  /** How many words are rejected before one is kept. */
  ghost function Rejected(tape: Tape, pos: nat, n: nat): (k: nat)
    requires n > 0 && WillKeep(tape, pos, n)
    ensures Keeps(tape, pos, n, k) && forall j: nat :: j < k ==> !Keeps(tape, pos, n, j)
  {
    LeastKept(tape, pos, n);
    var k: nat :| Keeps(tape, pos, n, k) && forall j: nat :: j < k ==> !Keeps(tape, pos, n, j);
    k
  }

  ghost predicate Within(tape: Tape, pos: nat, limit: nat, k: nat) {
    WordAt(tape, pos + 4 * k) <= limit
  }

  /** The k-th word from pos on is the first within the limit. */
  ghost predicate FirstIs(tape: Tape, pos: nat, limit: nat, k: nat) {
    forall j: nat {:trigger Within(tape, pos, limit, j)} :: j <= k ==> (Within(tape, pos, limit, j) <==> j == k)
  }

  lemma {:induction false} WithinIff(tape: Tape, pos: nat, limit: nat, k: nat, j: nat, w: Word)
    requires FirstIs(tape, pos, limit, k) && j <= k && w == WordAt(tape, pos + 4 * j)
    ensures w <= limit <==> j == k
  {
    assert Within(tape, pos, limit, j) <==> w <= limit;
  }

  lemma {:induction false} FirstKept(tape: Tape, pos: nat, n: nat, k: nat)
    requires n > 0 && WillKeep(tape, pos, n) && k == Rejected(tape, pos, n)
    ensures FirstIs(tape, pos, Limit(n), k)
  {
    forall j: nat | j <= k ensures Within(tape, pos, Limit(n), j) <==> j == k {
      assert Within(tape, pos, Limit(n), j) <==> Keeps(tape, pos, n, j);
    }
  }

  /** One draw: a value, and where in the stream the next draw starts. */
  datatype Sample = Sample(value: nat, next: nat)

  /** Draws by position and number of choices. */
  type Sampler = (nat, nat) -> Sample

  /** The first kept word, reduced modulo n. */
  ghost function SampleAt(tape: Tape, pos: nat, n: nat): (s: Sample)
    requires n > 0 && WillKeep(tape, pos, n)
    ensures s.value < n
  {
    var k := Rejected(tape, pos, n);
    Sample(WordAt(tape, pos + 4 * k) % n, pos + 4 * k + 4)
  }

  ghost function SamplerOf(tape: Tape): (sampler: Sampler)
    ensures InRange(sampler)
  {
    (pos: nat, n: nat) => if n > 1 && WillKeep(tape, pos, n) then SampleAt(tape, pos, n) else Sample(0, pos)
  }

  ghost predicate InRange(sampler: Sampler) {
    forall pos: nat, n: nat :: n > 0 ==> sampler(pos, n).value < n
  }

  /** The draws of a whole shuffle of n cards from pos on: entry i is below i + 1. */
  ghost function Draws(sampler: Sampler, pos: nat, n: nat): (draws: seq<nat>)
    requires InRange(sampler)
    ensures |draws| == n && Choices(draws)
    decreases n, pos
  {
    if n == 0 then [] else if n == 1 then [0]
    else Draws(sampler, sampler(pos, n).next, n - 1) + [sampler(pos, n).value]
  }

  lemma {:induction false} BlockOnTape(tape: Tape, f: Compress, seed: seq<Byte>, nonce: seq<Byte>, index: nat, bytes: seq<Byte>, used: nat)
    requires IsStream(tape, f, seed, nonce) && bytes == StreamBlock(f, seed, nonce, index) && used == 32 * index
    ensures |bytes| == 32 && forall r: nat :: r < 32 ==> bytes[r] == tape(used + r)
  {
    forall r: nat | r < 32 ensures bytes[r] == tape(used + r) {
      assert tape(32 * index + r) == StreamBlock(f, seed, nonce, index)[r];
    }
  }

  ghost predicate SamplesFrom(sampler: Sampler, tape: Tape) {
    InRange(sampler) && forall pos: nat, n: nat {:trigger SampleAt(tape, pos, n)} ::
      n > 1 && WillKeep(tape, pos, n) ==> sampler(pos, n) == SampleAt(tape, pos, n)
  }

  method NextBlock(compress: Compress, seed: seq<Byte>, nonce: seq<Byte>, index: nat) returns (bytes: seq<Byte>)
    ensures bytes == StreamBlock(compress, seed, nonce, index)
  {
    var hmac := new HmacStream(compress, seed);
    hmac.Update(LABEL);
    hmac.Update(nonce);
    hmac.Update(BigEndian(index, 8));
    assert hmac.text == LABEL + nonce + BigEndian(index, 8);
    bytes := hmac.Finalize();
  }

  class PrfStream {
    const compress: Compress
    const seed: seq<Byte>
    const nonce: seq<Byte>
    var block: nat
    var buf: seq<Byte>
    var pos: nat
    /** Every byte this stream will ever hand out. */
    ghost const tape: Tape

    /** Bytes handed out so far. */
    ghost var used: nat
    /** What Uniform returns. */
    ghost const sampler: Sampler

    ghost predicate Valid()
      reads this
    {
      && IsStream(tape, compress, seed, nonce) && SamplesFrom(sampler, tape)
      && pos <= 32 && (block == 0 ==> pos == 32) && used == 32 * block + pos - 32
      && (block > 0 ==> |buf| == 32 && forall r: nat :: r < 32 ==> buf[r] == tape(used - pos + r))
    }

    constructor (compress: Compress, seed: seq<Byte>, nonce: seq<Byte>)
      ensures Valid() && used == 0 && tape == TapeOf(compress, seed, nonce) && sampler == SamplerOf(tape)
    {
      this.compress, this.seed, this.nonce := compress, seed, nonce;
      block, buf, pos, used := 0, [], 32, 0;
      tape := TapeOf(compress, seed, nonce);
      sampler := SamplerOf(TapeOf(compress, seed, nonce));
      TapeIsStream(compress, seed, nonce);
    }

    method NextByte() returns (b: Byte)
      requires Valid()
      modifies this
      ensures Valid() && used == old(used) + 1 && b == tape(old(used))
    {
      if pos == 32 { Refill(); }
      b := buf[pos];
      assert b == tape(used - pos + pos);
      pos := pos + 1;
      used := used + 1;
    }

    method Refill()
      requires Valid() && pos == 32
      modifies this
      ensures Valid() && pos == 0 && block > 0 && used == old(used)
    {
      var bytes := FetchBlock();
      buf, block, pos := bytes, block + 1, 0;
    }

    method FetchBlock() returns (bytes: seq<Byte>)
      requires Valid() && pos == 32
      ensures |bytes| == 32 && forall r: nat :: r < 32 ==> bytes[r] == tape(used + r)
    {
      bytes := NextBlock(compress, seed, nonce, block);
      BlockOnTape(tape, compress, seed, nonce, block, bytes, used);
    }

    /** A word of the stream, first byte most significant. */
    method NextWord() returns (w: Word)
      requires Valid()
      modifies this
      ensures Valid() && used == old(used) + 4 && w == WordAt(tape, old(used))
    {
      var b0: int := NextByte();
      var b1: int := NextByte();
      var b2: int := NextByte();
      var b3: int := NextByte();
      w := 0x100_0000 * b0 + 0x1_0000 * b1 + 0x100 * b2 + b3;
    }

    /** Rejection sampling: the first kept word, reduced modulo n; below 2 there is nothing to draw. */
    method Uniform(n: int) returns (r: nat)
      requires Valid() && (n > 1 ==> WillKeep(tape, used, n))
      modifies this
      ensures Valid() && (n <= 1 ==> r == 0 && used == old(used))
      ensures n > 1 ==> r < n && Sample(r, used) == sampler(old(used), n)
    {
      if n <= 1 { return 0; }
      ghost var start := used;
      var w := KeptWord(n);
      r := w % n;
      assert Sample(r, used) == SampleAt(tape, start, n);
    }

    method KeptWord(n: nat) returns (w: Word)
      requires Valid() && n > 1 && WillKeep(tape, used, n)
      modifies this
      ensures Valid()
      ensures var k := Rejected(tape, old(used), n); w == WordAt(tape, old(used) + 4 * k) && used == old(used) + 4 * k + 4
    {
      ghost var k := Rejected(tape, used, n);
      FirstKept(tape, used, n, k);
      w := FirstWithin(WORD_MAX - WORD_MAX % n, k);
    }

    /** The first word within the limit, the k-th one from here. */
    method FirstWithin(limit: nat, ghost k: nat) returns (w: Word)
      requires Valid() && FirstIs(tape, used, limit, k)
      modifies this
      ensures Valid() && w == WordAt(tape, old(used) + 4 * k) && used == old(used) + 4 * k + 4
    {
      ghost var start, tried := used, 0;
      w := NextWord();
      WithinIff(tape, start, limit, k, tried, w);
      while w > limit
        invariant 0 <= tried <= k && Valid() && used == start + 4 * tried + 4
        invariant w == WordAt(tape, start + 4 * tried) && (w <= limit <==> tried == k)
        decreases k - tried
      {
        w := NextWord();
        tried := tried + 1;
        WithinIff(tape, start, limit, k, tried, w);
      }
    }
  }

  // ---------- how even the sampling is ----------

  ghost function WordsWith(n: nat, r: nat, below: nat): set<nat>
    requires n > 0
  {
    set w: nat | w < below && w % n == r
  }

  lemma {:induction false} ResidueCount(n: nat, r: nat, q: nat)
    requires r < n
    ensures |WordsWith(n, r, n * q)| == q
  {
    if q == 0 {
      assert WordsWith(n, r, 0) == {};
    } else {
      ResidueCount(n, r, q - 1);
      var low := WordsWith(n, r, n * (q - 1));
      assert n * q == n * (q - 1) + n;
      forall w: nat | n * (q - 1) <= w < n * q ensures w % n == r <==> w == n * (q - 1) + r {
        OffsetMod(n, q - 1, w - n * (q - 1));
      }
      assert WordsWith(n, r, n * q) == low + {n * (q - 1) + r};
    }
  }

  lemma {:induction false} OffsetMod(n: nat, q: nat, d: nat)
    requires d < n
    ensures (n * q + d) % n == d
  {
    ModUnique(n * q + d, n, q, d);
  }

  /** The sampler keeps n * q + 1 words: q for every result but 0, and one more for 0. It is called
      bias-free; it is so only up to that one word. */
  lemma {:induction false} SamplerBias(n: nat, r: nat)
    requires 2 <= n <= 52 && r < n
    ensures var q := WORD_MAX / n;
      |WordsWith(n, r, Limit(n) + 1)| == if r == 0 then q + 1 else q
  {
    var q := WORD_MAX / n;
    assert Limit(n) == n * q;
    ResidueCount(n, r, q);
    OffsetMod(n, q, 0);
    if r == 0 {
      assert WordsWith(n, r, n * q + 1) == WordsWith(n, r, n * q) + {n * q};
    } else {
      assert WordsWith(n, r, n * q + 1) == WordsWith(n, r, n * q);
    }
  }

  // ---------- Fisher-Yates ----------

  /** One choice per position, none beyond it. */
  ghost predicate Choices(draws: seq<nat>) {
    forall i :: 0 <= i < |draws| ==> draws[i] <= i
  }

  function Swapped<T>(d: seq<T>, i: nat, j: nat): (e: seq<T>)
    requires i < |d| && j < |d|
    ensures |e| == |d|
  {
    d[i := d[j]][j := d[i]]
  }

  /** The shuffle: from the last position down, swap in the chosen card. */
  ghost function FisherYates(d: seq<Card>, draws: seq<nat>): (r: seq<Card>)
    requires |draws| == |d| && Choices(draws)
    ensures |r| == |d|
    decreases |d|
  {
    if |d| <= 1 then d
    else
      var n := |d| - 1;
      var e := Swapped(d, n, draws[n]);
      FisherYates(e[..n], draws[..n]) + [e[n]]
  }

  lemma {:induction false} SwapPermutes<T>(d: seq<T>, i: nat, j: nat)
    requires i < |d| && j < |d|
    ensures multiset(Swapped(d, i, j)) == multiset(d)
  {
  }

  lemma {:induction false} LastSplits<T>(d: seq<T>)
    requires d != []
    ensures d == d[..|d| - 1] + [d[|d| - 1]]
    ensures multiset(d) == multiset(d[..|d| - 1]) + multiset{d[|d| - 1]}
  {
    assert d == d[..|d| - 1] + [d[|d| - 1]];
  }

  lemma {:induction false} SwapSplits<T>(d: seq<T>, j: nat)
    requires d != [] && j < |d|
    ensures var n := |d| - 1; var e := Swapped(d, n, j); multiset(d) == multiset(e[..n]) + multiset{e[n]}
  {
    SwapPermutes(d, |d| - 1, j);
    LastSplits(Swapped(d, |d| - 1, j));
  }

  lemma {:induction false} AppendPermutes<T>(a: seq<T>, b: seq<T>, x: T)
    requires multiset(a) == multiset(b)
    ensures multiset(a + [x]) == multiset(b) + multiset{x}
  {
  }

  /** A shuffle never loses, invents or repeats a card. */
  lemma {:induction false} ShufflePermutes(d: seq<Card>, draws: seq<nat>)
    requires |draws| == |d| && Choices(draws)
    ensures multiset(FisherYates(d, draws)) == multiset(d)
    decreases |d|
  {
    if |d| > 1 {
      var n := |d| - 1;
      var e := Swapped(d, n, draws[n]);
      ShufflePermutes(e[..n], draws[..n]);
      SwapSplits(d, draws[n]);
      AppendPermutes(FisherYates(e[..n], draws[..n]), e[..n], e[n]);
    }
  }

  lemma {:induction false} SwapTwice<T>(d: seq<T>, i: nat, j: nat)
    requires i < |d| && j < |d|
    ensures Swapped(Swapped(d, i, j), i, j) == d
  {
  }

  /** Putting the right card last leaves the right cards before it. */
  lemma {:induction false} RestPermutes(d: seq<Card>, target: seq<Card>, j: nat)
    requires d != [] && |d| == |target| && multiset(d) == multiset(target) && j < |d| && d[j] == target[|d| - 1]
    ensures multiset(Swapped(d, |d| - 1, j)[..|d| - 1]) == multiset(target[..|d| - 1])
  {
    var e := Swapped(d, |d| - 1, j);
    SwapSplits(d, j);
    LastSplits(target);
    Cancels(multiset(e[..|d| - 1]), multiset(target[..|d| - 1]), d[j]);
  }

  lemma {:induction false} Cancels<T>(a: multiset<T>, b: multiset<T>, x: T)
    requires a + multiset{x} == b + multiset{x}
    ensures a == b
  {
    assert a == (a + multiset{x}) - multiset{x};
  }

  lemma {:induction false} SwapUnique<T>(d: seq<T>, a: nat, b: nat)
    requires Distinct(d) && d != [] && a < |d| && b < |d|
    ensures Swapped(d, |d| - 1, a)[|d| - 1] == d[a]
    ensures d[a] == d[b] ==> a == b
  {
  }

  lemma {:induction false} SwapDistinct<T>(d: seq<T>, i: nat, j: nat)
    requires Distinct(d) && i < |d| && j < |d|
    ensures Distinct(Swapped(d, i, j)) && Distinct(Swapped(d, i, j)[..|d| - 1])
  {
  }

  /** Different choices give different orders. */
  lemma {:induction false} ShuffleInjective(d: seq<Card>, a: seq<nat>, b: seq<nat>)
    requires Distinct(d) && |a| == |b| == |d| && Choices(a) && Choices(b)
    requires FisherYates(d, a) == FisherYates(d, b)
    ensures a == b
    decreases |d|
  {
    if |d| > 1 {
      var n := |d| - 1;
      var ra, rb := FisherYates(d, a), FisherYates(d, b);
      assert ra[n] == Swapped(d, n, a[n])[n] && rb[n] == Swapped(d, n, b[n])[n];
      SwapUnique(d, a[n], b[n]);
      SwapUnique(d, b[n], a[n]);
      SwapDistinct(d, n, a[n]);
      var e := Swapped(d, n, a[n]);
      assert ra[..n] == FisherYates(e[..n], a[..n]) && rb[..n] == FisherYates(e[..n], b[..n]);
      ShuffleInjective(e[..n], a[..n], b[..n]);
      assert a == a[..n] + [a[n]] && b == b[..n] + [b[n]];
    }
  }

  lemma {:induction false} ShuffleUnfolds(d: seq<Card>, rest: seq<nat>, j: nat)
    requires |d| > 1 && |rest| == |d| - 1 && Choices(rest) && j < |d|
    ensures var e := Swapped(d, |d| - 1, j);
      Choices(rest + [j]) && FisherYates(d, rest + [j]) == FisherYates(e[..|d| - 1], rest) + [d[j]]
  {
    assert (rest + [j])[..|d| - 1] == rest;
  }

  /** And every order of the cards is given by some choices: with ShuffleInjective, the shuffles of
      n cards and the n! vectors of choices correspond one to one. */
  lemma {:induction false} ShuffleReaches(d: seq<Card>, target: seq<Card>) returns (draws: seq<nat>)
    requires multiset(d) == multiset(target) && |d| == |target|
    ensures |draws| == |d| && Choices(draws) && FisherYates(d, draws) == target
    decreases |d|
  {
    if |d| == 0 {
      draws := [];
    } else if |d| == 1 {
      draws := [0];
      assert target[0] in multiset(d);
    } else {
      var n := |d| - 1;
      assert target[n] in multiset(d);
      var j :| 0 <= j < |d| && d[j] == target[n];
      var e := Swapped(d, n, j);
      RestPermutes(d, target, j);
      var rest := ShuffleReaches(e[..n], target[..n]);
      draws := rest + [j];
      ShuffleUnfolds(d, rest, j);
      LastSplits(target);
    }
  }

  /** The same choices applied to different decks give different orders. */
  lemma {:induction false} ShuffleKeepsApart(d1: seq<Card>, d2: seq<Card>, draws: seq<nat>)
    requires |d1| == |d2| == |draws| && Choices(draws)
    requires FisherYates(d1, draws) == FisherYates(d2, draws)
    ensures d1 == d2
    decreases |d1|
  {
    if |d1| > 1 {
      var n := |d1| - 1;
      var e1, e2 := Swapped(d1, n, draws[n]), Swapped(d2, n, draws[n]);
      var r1, r2 := FisherYates(d1, draws), FisherYates(d2, draws);
      assert r1[..n] == FisherYates(e1[..n], draws[..n]) && r2[..n] == FisherYates(e2[..n], draws[..n]);
      ShuffleKeepsApart(e1[..n], e2[..n], draws[..n]);
      assert r1[n] == e1[n] && r2[n] == e2[n];
      LastSplits(e1);
      LastSplits(e2);
      SwapTwice(d1, n, draws[n]);
      SwapTwice(d2, n, draws[n]);
    }
  }

  // ---------- hexadecimal ----------

  function HexDigit(v: nat): Byte
    requires v < 16
  {
    if v < 10 then 48 + v else 87 + v
  }

  const HEX: seq<Byte> := [48, 49, 50, 51, 52, 53, 54, 55, 56, 57, 97, 98, 99, 100, 101, 102]

  /** The digits 0 to 9 and the letters a to f; capital letters are read as well. */
  lemma {:induction false} HexDigits(v: nat)
    requires v < 16
    ensures HexDigit(v) == HEX[v] && IsHexDigit(HEX[v]) && DigitValue(HEX[v]) == v
    ensures v >= 10 ==> IsHexDigit(HEX[v] - 32) && DigitValue(HEX[v] - 32) == v
  {
  }

  predicate IsHexDigit(c: Byte) {
    48 <= c <= 57 || 97 <= c <= 102 || 65 <= c <= 70
  }

  function DigitValue(c: Byte): (v: nat)
    requires IsHexDigit(c)
    ensures v < 16
  {
    if c <= 57 then c - 48 else if c >= 97 then c - 87 else c - 55
  }

  function ToHex(raw: seq<Byte>): (hex: seq<Byte>)
    ensures |hex| == 2 * |raw| && forall i :: 0 <= i < |hex| ==> IsHexDigit(hex[i])
  {
    if raw == [] then []
    else ToHex(raw[..|raw| - 1]) + [HexDigit(raw[|raw| - 1] / 16), HexDigit(raw[|raw| - 1] % 16)]
  }

  datatype Parsed = Value(v: Byte) | NoNumber

  predicate IsSpace(c: Byte) { c == 32 || 9 <= c <= 13 }

  /** std::stoul of two characters in base 16, cut to a byte: white space and a sign may come before a
      digit, anything may come after one; with no digit there it throws. */
  function ParsePair(a: Byte, b: Byte): Parsed {
    if IsHexDigit(a) then Value(if IsHexDigit(b) then 16 * DigitValue(a) + DigitValue(b) else DigitValue(a))
    else if IsHexDigit(b) && (IsSpace(a) || a == 43) then Value(DigitValue(b))
    else if IsHexDigit(b) && a == 45 then Value(if DigitValue(b) == 0 then 0 else 256 - DigitValue(b))
    else NoNumber
  }

  /** What the two characters read as: two digits, one digit before or after something else, or a digit
      with its sign, negative ones modulo 256; and nothing else. */
  lemma {:induction false} PairReads(c: nat, d: nat, other: Byte)
    requires c < 16 && d < 16 && !IsHexDigit(other)
    ensures ParsePair(HEX[c], HEX[d]) == Value(16 * c + d) && ParsePair(HEX[c], other) == Value(c)
    ensures ParsePair('-' as int, HEX[d]) == Value((256 - d) % 256)
    ensures other == '+' as int || other in {9, 10, 11, 12, 13, 32} ==> ParsePair(other, HEX[d]) == Value(d)
    ensures other !in {'+' as int, '-' as int, 9, 10, 11, 12, 13, 32} ==> ParsePair(other, HEX[d]).NoNumber?
    ensures forall b: Byte :: !IsHexDigit(b) ==> ParsePair(other, b).NoNumber?
  {
    HexDigits(c);
    HexDigits(d);
  }

  /** Pair i is there and is a number. */
  predicate Readable(hex: seq<Byte>, i: nat) {
    2 * i + 1 < |hex| && ParsePair(hex[2 * i], hex[2 * i + 1]).Value?
  }

  /** Every pair of the 32 that is there is a number. */
  predicate AllReadable(hex: seq<Byte>) {
    forall i: nat :: i < 32 && 2 * i + 1 < |hex| ==> Readable(hex, i)
  }

  /** Reseed's parsing: byte i is read from pair i, for the first n pairs; the rest of the old seed stays. */
  function SeedRead(old_: seq<Byte>, hex: seq<Byte>, n: nat): (seed: seq<Byte>)
    ensures |seed| == |old_|
  {
    seq(|old_|, i requires 0 <= i < |old_| =>
      if i < n && Readable(hex, i) then ParsePair(hex[2 * i], hex[2 * i + 1]).v else old_[i])
  }

  function SeedFromHex(old_: seq<Byte>, hex: seq<Byte>): (seed: seq<Byte>)
    ensures |seed| == |old_|
  {
    SeedRead(old_, hex, |old_|)
  }

  /** Pair n is the first that is there and not a number. */
  ghost predicate StopsAt(hex: seq<Byte>, n: nat) {
    n < 32 && 2 * n + 1 < |hex| && !Readable(hex, n) && forall k: nat :: k < n ==> Readable(hex, k)
  }

  lemma {:induction false} HexAt(raw: seq<Byte>, i: nat)
    requires i < |raw|
    ensures ToHex(raw)[2 * i] == HexDigit(raw[i] / 16) && ToHex(raw)[2 * i + 1] == HexDigit(raw[i] % 16)
  {
    var n := |raw| - 1;
    if i < n { HexAt(raw[..n], i); }
  }

  /** Parsing the published hex gives the seed back, whatever seed was there before. */
  lemma {:induction false} HexRoundTrip(raw: seq<Byte>, old_: seq<Byte>)
    requires |old_| == |raw|
    ensures SeedFromHex(old_, ToHex(raw)) == raw
  {
    forall i | 0 <= i < |raw| ensures SeedFromHex(old_, ToHex(raw))[i] == raw[i] {
      HexAt(raw, i);
    }
  }

  // ---------- the dealer ----------

  /** All 52 cards, each once. */
  ghost predicate FullDeck(deck: seq<Card>) {
    |deck| == 52 && Unrepeated(deck)
  }

  lemma {:induction false} PermutedIsFull(a: seq<Card>, b: seq<Card>)
    requires FullDeck(a) && multiset(b) == multiset(a)
    ensures FullDeck(b)
  {
    assert |b| == |multiset(b)| == |multiset(a)| == |a|;
    UnrepeatedIff(a);
    forall i, j | 0 <= i < j < |b| ensures Differ(b[i], b[j]) {
      if b[i] == b[j] {
        assert b == b[..i] + [b[i]] + b[i + 1..j] + [b[j]] + b[j + 1..];
        assert multiset(b)[b[i]] >= 2;
        OnceEach(a, b[i]);
      }
    }
  }

  lemma {:induction false} OnceEach<T>(a: seq<T>, x: T)
    requires Distinct(a)
    ensures multiset(a)[x] <= 1
  {
    if a != [] {
      var n := |a| - 1;
      LastSplits(a);
      OnceEach(a[..n], x);
      assert x == a[n] ==> x !in a[..n];
    }
  }

  lemma {:induction false} StaysFull(d: seq<Card>, draws: seq<nat>)
    requires FullDeck(d) && |draws| == 52 && Choices(draws)
    ensures FullDeck(FisherYates(d, draws))
  {
    ShufflePermutes(d, draws);
    PermutedIsFull(d, FisherYates(d, draws));
  }

  /** The order a shuffle of `deck` under (seed, nonce) produces. */
  ghost function ShuffledDeck(f: Compress, deck: seq<Card>, seed: seq<Byte>, nonce: seq<Byte>): seq<Card>
    requires |deck| == 52 && Productive(TapeOf(f, seed, nonce))
  {
    FisherYates(deck, Draws(SamplerOf(TapeOf(f, seed, nonce)), 0, 52))
  }

  /** The last position gets the card that was drawn, and the card that was there takes its place. */
  lemma {:induction false} TopCard(d: seq<Card>, draws: seq<nat>)
    requires |draws| == |d| >= 2 && Choices(draws)
    ensures var n := |d| - 1; var j := draws[n];
      FisherYates(d, draws)[n] == d[j] && FisherYates(d, draws)[..n] == FisherYates(d[j := d[n]][..n], draws[..n])
  {
    var n := |d| - 1;
    assert Swapped(d, n, draws[n])[..n] == d[draws[n] := d[n]][..n];
  }

  /** The first word of the stream that is small enough chooses, by its residue, the card that ends up
      last. */
  lemma {:induction false} FirstDraw(f: Compress, deck: seq<Card>, seed: seq<Byte>, nonce: seq<Byte>) returns (k: nat)
    requires |deck| == 52 && Productive(TapeOf(f, seed, nonce))
    ensures var tape := TapeOf(f, seed, nonce);
      && WordAt(tape, 4 * k) <= WORD_MAX - WORD_MAX % 52
      && (forall j: nat :: j < k ==> WordAt(tape, 4 * j) > WORD_MAX - WORD_MAX % 52)
      && ShuffledDeck(f, deck, seed, nonce)[51] == deck[WordAt(tape, 4 * k) % 52]
  {
    k := FirstDrawOn(TapeOf(f, seed, nonce), deck);
  }

  lemma {:induction false} FirstDrawOn(tape: Tape, deck: seq<Card>) returns (k: nat)
    requires |deck| == 52 && Productive(tape)
    ensures WordAt(tape, 4 * k) <= WORD_MAX - WORD_MAX % 52
    ensures forall j: nat :: j < k ==> WordAt(tape, 4 * j) > WORD_MAX - WORD_MAX % 52
    ensures FisherYates(deck, Draws(SamplerOf(tape), 0, 52))[51] == deck[WordAt(tape, 4 * k) % 52]
  {
    ProductiveKeeps(tape, 0, 52);
    k := Rejected(tape, 0, 52);
    forall j: nat | j < k ensures WordAt(tape, 4 * j) > WORD_MAX - WORD_MAX % 52 {
      assert !Keeps(tape, 0, 52, j);
    }
    TopCard(deck, Draws(SamplerOf(tape), 0, 52));
  }

  /** Reseeding from a published (seed, nonce) and shuffling again gives the dealt order exactly
      when the shuffle starts from the same order of the deck: Shuffle does not sort it first. */
  lemma {:induction false} ReplayIff(f: Compress, dealt: seq<Card>, audit: seq<Card>, seed: seq<Byte>, nonce: seq<Byte>, spare: seq<Byte>)
    requires |dealt| == |audit| == 52 && |seed| == |spare| && Productive(TapeOf(f, seed, nonce))
    ensures SeedFromHex(spare, ToHex(seed)) == seed
    ensures ShuffledDeck(f, audit, SeedFromHex(spare, ToHex(seed)), nonce) == ShuffledDeck(f, dealt, seed, nonce)
      <==> audit == dealt
  {
    HexRoundTrip(seed, spare);
    if ShuffledDeck(f, audit, seed, nonce) == ShuffledDeck(f, dealt, seed, nonce) {
      ShuffleKeepsApart(audit, dealt, Draws(SamplerOf(TapeOf(f, seed, nonce)), 0, 52));
    }
  }

  /** Shuffling positions 0 to i with the draws from pos on completes the deck to target. */
  ghost predicate Leads(deck: seq<Card>, i: nat, sampler: Sampler, pos: nat, target: seq<Card>) {
    i < |deck| == 52 && InRange(sampler) &&
    FisherYates(deck[..i + 1], Draws(sampler, pos, i + 1)) + deck[i + 1..] == target
  }

  lemma {:induction false} LeadsOn(deck: seq<Card>, i: nat, sampler: Sampler, pos: nat, s: Sample, target: seq<Card>)
    requires i > 0 && Leads(deck, i, sampler, pos, target) && s == sampler(pos, i + 1) && s.value <= i
    ensures Leads(Swapped(deck, i, s.value), i - 1, sampler, s.next, target)
  {
    var prefix, rest, j := deck[..i + 1], deck[i + 1..], s.value;
    var draws := Draws(sampler, pos, i + 1);
    assert draws[..i] == Draws(sampler, s.next, i) && draws[i] == j;
    var e, swapped := Swapped(prefix, i, j), Swapped(deck, i, j);
    assert FisherYates(prefix, draws) == FisherYates(e[..i], draws[..i]) + [e[i]];
    assert swapped[..i] == e[..i];
    assert swapped[i..] == [e[i]] + rest;
  }

  lemma {:induction false} LeadsHome(deck: seq<Card>, sampler: Sampler, pos: nat, target: seq<Card>)
    requires Leads(deck, 0, sampler, pos, target)
    ensures deck == target
  {
    assert deck == deck[..1] + deck[1..];
  }

  const SORTED_DECK: seq<Card> := seq(52, i requires 0 <= i < 52 => i)

  /** What DealOne returns once the deck has run out. */
  datatype Drawn = NoCard | Drawn(card: Card)

  class Dealer {
    const compress: Compress
    const deck: array<Card>
    var deckIndex: nat
    var seed: seq<Byte>
    var nonce: seq<Byte>
    var commitment: seq<Byte>
    var deckHash: seq<Byte>

    /** Kept by every method: the deck is a permutation of the 52 cards. */
    ghost predicate Valid()
      reads this, deck
    {
      deck.Length == 52 && FullDeck(deck[..]) && deckIndex <= 52 && |seed| == 32
    }

    constructor (compress: Compress, entropy: seq<Byte>)
      requires |entropy| == 32
      ensures Valid() && fresh(deck) && deckIndex == 0 && this.compress == compress && seed == entropy
      ensures deck[..] == SORTED_DECK
    {
      this.compress, seed, nonce, commitment, deckHash := compress, entropy, [], [], [];
      deck := new Card[52](i requires 0 <= i < 52 => i);
      deckIndex := 0;
    }

    /** A fresh seed and nonce, the commitment to them, and the shuffle they key. */
    method Shuffle(freshSeed: seq<Byte>, nonceBytes: seq<Byte>)
      requires Valid() && |freshSeed| == 32 && Productive(TapeOf(compress, freshSeed, ToHex(nonceBytes)))
      modifies this, deck
      ensures Valid() && seed == freshSeed && nonce == ToHex(nonceBytes) && deckIndex == 0
      ensures commitment == ToHex(Sha256(compress, seed + nonce))
      ensures deck[..] == ShuffledDeck(compress, old(deck[..]), seed, nonce)
      ensures deckHash == ToHex(Sha256(compress, deck[..]))
    {
      seed := freshSeed;
      nonce := ToHex(nonceBytes);
      Commit();
      ShuffleWithSeed();
    }

    method Commit()
      requires Valid()
      modifies this`commitment
      ensures Valid() && commitment == ToHex(Sha256(compress, seed + nonce))
    {
      var hash := new Sha256Stream(compress);
      hash.Update(seed);
      hash.Update(nonce);
      assert hash.absorbed == seed + nonce;
      var digest := hash.Finalize();
      commitment := ToHex(digest);
    }

    /** A pair that is not a number throws: the bytes before it have been read by then, and nothing
        else has changed. */
    method Reseed(seedHex: seq<Byte>, nonceHex: seq<Byte>) returns (ok: bool)
      requires Valid()
      modifies this
      ensures Valid() && deckIndex == old(deckIndex) && deckHash == old(deckHash) && (ok <==> AllReadable(seedHex))
      ensures ok ==> seed == SeedFromHex(old(seed), seedHex) && nonce == nonceHex && commitment == ToHex(Sha256(compress, seed + nonce))
      ensures !ok ==> nonce == old(nonce) && commitment == old(commitment)
      ensures !ok ==> exists n: nat :: StopsAt(seedHex, n) && seed == SeedRead(old(seed), seedHex, n)
    {
      ok := ReadSeed(seedHex);
      if !ok { return; }
      nonce := nonceHex;
      Commit();
    }

    method ReadSeed(hex: seq<Byte>) returns (ok: bool)
      requires Valid()
      modifies this`seed
      ensures Valid() && (ok <==> AllReadable(hex))
      ensures ok ==> seed == SeedFromHex(old(seed), hex)
      ensures !ok ==> exists n: nat :: StopsAt(hex, n) && seed == SeedRead(old(seed), hex, n)
    {
      ghost var before := seed;
      var i := 0;
      while i < 32 && 2 * i + 1 < |hex|
        invariant 0 <= i <= 32 && Valid() && seed == SeedRead(before, hex, i)
        invariant forall k: nat :: k < i ==> Readable(hex, k)
      {
        if ParsePair(hex[2 * i], hex[2 * i + 1]).NoNumber? {
          assert StopsAt(hex, i) && !Readable(hex, i);
          return false;
        }
        seed := seed[i := ParsePair(hex[2 * i], hex[2 * i + 1]).v];
        i := i + 1;
      }
      assert seed == SeedRead(before, hex, 32);
      ok := true;
    }

    method ShuffleWithSeed()
      requires Valid() && Productive(TapeOf(compress, seed, nonce))
      modifies this, deck
      ensures Valid() && deckIndex == 0 && seed == old(seed) && nonce == old(nonce) && commitment == old(commitment)
      ensures deck[..] == ShuffledDeck(compress, old(deck[..]), seed, nonce) && deckHash == ToHex(Sha256(compress, deck[..]))
    {
      var stream := new PrfStream(compress, seed, nonce);
      ShuffleFrom(stream);
    }

    method ShuffleFrom(stream: PrfStream)
      requires Valid() && stream.Valid() && stream.used == 0 && Productive(stream.tape)
      modifies this, deck, stream
      ensures Valid() && deckIndex == 0 && seed == old(seed) && nonce == old(nonce) && commitment == old(commitment)
      ensures deck[..] == FisherYates(old(deck[..]), Draws(stream.sampler, 0, 52)) && deckHash == ToHex(Sha256(compress, deck[..]))
    {
      FisherYatesInPlace(stream);
      StaysFull(old(deck[..]), Draws(stream.sampler, 0, 52));
      deckIndex := 0;
      ComputeProof();
    }

    method FisherYatesInPlace(stream: PrfStream)
      requires deck.Length == 52 && stream.Valid() && stream.used == 0 && Productive(stream.tape)
      modifies deck, stream
      ensures deck[..] == FisherYates(old(deck[..]), Draws(stream.sampler, 0, 52))
    {
      ghost var target := FisherYates(deck[..], Draws(stream.sampler, 0, 52));
      var i := 51;
      assert deck[..][..52] == deck[..];
      while i > 0
        invariant 0 <= i <= 51 && stream.Valid() && Leads(deck[..], i, stream.sampler, stream.used, target)
      {
        ghost var pos := stream.used;
        ProductiveKeeps(stream.tape, pos, i + 1);
        var j := stream.Uniform(i + 1);
        LeadsOn(deck[..], i, stream.sampler, pos, Sample(j, stream.used), target);
        Swap(i, j);
        i := i - 1;
      }
      LeadsHome(deck[..], stream.sampler, stream.used, target);
    }

    method Swap(i: nat, j: nat)
      requires i < deck.Length && j < deck.Length
      modifies deck
      ensures deck[..] == Swapped(old(deck[..]), i, j)
    {
      deck[i], deck[j] := deck[j], deck[i];
    }

    method ComputeProof()
      requires Valid()
      modifies this`deckHash
      ensures Valid() && deckHash == ToHex(Sha256(compress, deck[..]))
    {
      var hash := new Sha256Stream(compress);
      var i := 0;
      while i < 52
        invariant 0 <= i <= 52 && hash.Valid() && fresh(hash) && fresh(hash.buf) && hash.compress == compress
        invariant hash.absorbed == deck[..i]
      {
        hash.Update([deck[i]]);
        i := i + 1;
      }
      assert deck[..52] == deck[..];
      var digest := hash.Finalize();
      deckHash := ToHex(digest);
    }

    method DealOne() returns (c: Drawn)
      requires Valid()
      modifies this`deckIndex
      ensures Valid()
      ensures c == if old(deckIndex) < 52 then Drawn(deck[old(deckIndex)]) else NoCard
      ensures deckIndex == if old(deckIndex) < 52 then old(deckIndex) + 1 else 52
    {
      if deckIndex >= 52 { return NoCard; }
      c := Drawn(deck[deckIndex]);
      deckIndex := deckIndex + 1;
    }

    method Burn()
      requires Valid()
      modifies this`deckIndex
      ensures Valid() && deckIndex == if old(deckIndex) < 52 then old(deckIndex) + 1 else 52
    {
      if deckIndex < 52 { deckIndex := deckIndex + 1; }
    }
  }

}
