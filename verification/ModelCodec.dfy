/** The compact format of trained nodes (phase15/src/cfr_model.cpp): unsigned LEB128 integers
    (section 7.6 of DWARF 5), zigzag for signed values, and keys as differences modulo 2^64. Values
    are the quantised integers; their scaling from and to floating point is not part of this model. */
module ModelCodec {
  import opened Arithmetic
  import opened Hashing

  const TWO64: int := 0x1_0000_0000_0000_0000
  const TWO63: int := 0x8000_0000_0000_0000
  const MAX_ACTIONS: nat := 5

  type U64 = v: nat | v < 0x1_0000_0000_0000_0000
  type I64 = v: int | -0x8000_0000_0000_0000 <= v < 0x8000_0000_0000_0000

  /** A node's key and quantised sums; times_visited is not stored. */
  datatype Node = Node(key: U64, regrets: seq<I64>, strategies: seq<I64>)

  /** As many sums of each kind as there are actions. */
  predicate Complete(n: Node) {
    |n.regrets| == MAX_ACTIONS == |n.strategies|
  }

  // ---------- variable-length integers ----------

  function VarInt(v: nat): (bytes: seq<Byte>)
    ensures bytes != []
  {
    if v <= 0x7F then [v] else [v % 128 + 128] + VarInt(v / 128)
  }

  datatype Read = Read(value: nat, next: nat)

  /** Seven bits a byte, lowest first, until a byte without the continuation bit or the end. */
  function ReadAt(data: seq<Byte>, pos: nat): (r: Read)
    ensures r.next >= pos && (pos < |data| ==> pos < r.next <= |data|)
    decreases |data| - pos
  {
    if pos >= |data| then Read(0, pos)
    else if data[pos] < 128 then Read(data[pos], pos + 1)
    else
      var rest := ReadAt(data, pos + 1);
      Read(data[pos] % 128 + 128 * rest.value, rest.next)
  }

  method WriteVarInt(out: seq<Byte>, value: U64) returns (buffer: seq<Byte>)
    ensures buffer == out + VarInt(value)
  {
    buffer := out;
    var v: nat := value;
    while v > 0x7F
      invariant buffer + VarInt(v) == out + VarInt(value)
    {
      assert buffer + ([v % 128 + 128] + VarInt(v / 128)) == (buffer + [v % 128 + 128]) + VarInt(v / 128);
      buffer := buffer + [v % 128 + 128];
      v := v / 128;
    }
    buffer := buffer + [v];
  }

  function Pow128(k: nat): (p: nat)
    ensures p > 0
  {
    if k == 0 then 1 else 128 * Pow128(k - 1)
  }

  /** The low 64 bits of what is read, and the advanced pointer. */
  method ReadVarInt(data: seq<Byte>, start: nat) returns (value: U64, ptr: nat)
    requires start <= |data|
    ensures value == ReadAt(data, start).value % TWO64 && ptr == ReadAt(data, start).next
  {
    var result: nat, shift: nat := 0, 0;
    ptr := start;
    var more := true;
    while more && ptr < |data|
      invariant start <= ptr <= |data|
      invariant if more then Partial(result, shift, ReadAt(data, ptr)) == ReadAt(data, start)
                else Read(result, ptr) == ReadAt(data, start)
      decreases |data| - ptr
    {
      var b := data[ptr];
      ReadStep(data, ptr, result, shift);
      ptr := ptr + 1;
      result := result + b % 128 * Pow128(shift);
      if b < 128 { more := false; } else { shift := shift + 1; }
    }
    value := result % TWO64;
  }

  /** What has been read so far, below what is still to come. */
  function Partial(result: nat, septets: nat, rest: Read): Read {
    Read(result + Pow128(septets) * rest.value, rest.next)
  }

  lemma {:induction false} NextSeptet(result: nat, septets: nat, b: nat, rest: Read)
    ensures Partial(result, septets, Read(b + 128 * rest.value, rest.next))
         == Partial(result + b * Pow128(septets), septets + 1, rest)
  {
    var p := Pow128(septets);
    assert p * (b + 128 * rest.value) == b * p + (128 * p) * rest.value;
  }

  /** What one more byte tells. */
  lemma {:induction false} ReadStep(data: seq<Byte>, ptr: nat, result: nat, septets: nat)
    requires ptr < |data|
    ensures var b := data[ptr]; var more := result + b % 128 * Pow128(septets);
      Partial(result, septets, ReadAt(data, ptr)) ==
        if b < 128 then Read(more, ptr + 1) else Partial(more, septets + 1, ReadAt(data, ptr + 1))
  {
    NextSeptet(result, septets, data[ptr] % 128, if data[ptr] < 128 then Read(0, ptr + 1) else ReadAt(data, ptr + 1));
  }

  /** The code stands in the data at a position. */
  ghost predicate At(data: seq<Byte>, pos: nat, code: seq<Byte>) {
    pos + |code| <= |data| && forall k :: 0 <= k < |code| ==> data[pos + k] == code[k]
  }

  lemma {:induction false} AtSplit(data: seq<Byte>, pos: nat, a: seq<Byte>, b: seq<Byte>)
    requires At(data, pos, a + b)
    ensures At(data, pos, a) && At(data, pos + |a|, b)
  {
    forall k | 0 <= k < |b| ensures data[pos + |a| + k] == b[k] {
      assert (a + b)[|a| + k] == b[k] && data[pos + (|a| + k)] == (a + b)[|a| + k];
    }
    forall k | 0 <= k < |a| ensures data[pos + k] == a[k] {
      assert (a + b)[k] == a[k];
    }
  }

  // ---------- the code itself ----------

  /** The first n septets of the code, each at its place value. */
  function Septets(code: seq<Byte>, n: nat): nat
    requires n <= |code|
  {
    if n == 0 then 0 else Septets(code, n - 1) + code[n - 1] % 128 * Pow128(n - 1)
  }

  lemma {:induction false} SeptetsShift(code: seq<Byte>, first: Byte, rest: seq<Byte>, n: nat)
    requires code == [first] + rest && n <= |rest|
    ensures Septets(code, n + 1) == first % 128 + 128 * Septets(rest, n)
  {
    if n > 0 {
      SeptetsShift(code, first, rest, n - 1);
      ScaledOnce(code[n] % 128, Pow128(n - 1));
      assert rest[n - 1] == code[n];
    }
  }

  lemma {:induction false} ScaledOnce(c: nat, p: nat)
    ensures 128 * (c * p) == c * (128 * p)
  {
  }

  /** LEB128: seven bits to a byte, the lowest first, with the top bit set on all bytes but the last,
      and no byte more than the number needs. */
  lemma {:induction false} Leb128(v: nat)
    ensures var code := VarInt(v); var last := |code| - 1;
      && Septets(code, |code|) == v
      && (forall i :: 0 <= i < last ==> code[i] >= 128) && code[last] < 128 && (last > 0 ==> code[last] > 0)
    decreases v
  {
    var code := VarInt(v);
    if v > 0x7F {
      Leb128(v / 128);
      var rest := VarInt(v / 128);
      SeptetsShift(code, code[0], rest, |rest|);
    }
  }


  /** Reading consumes exactly what writing wrote, wherever it stands. */
  lemma {:induction false} ReadsBack(data: seq<Byte>, pos: nat, v: nat)
    requires At(data, pos, VarInt(v))
    ensures ReadAt(data, pos) == Read(v, pos + |VarInt(v)|)
    decreases v
  {
    assert data[pos + 0] == VarInt(v)[0];
    if v > 0x7F {
      AtSplit(data, pos, [v % 128 + 128], VarInt(v / 128));
      ReadsBack(data, pos + 1, v / 128);
    }
  }

  // ---------- zigzag and differences ----------

  /** (v << 1) ^ (v >> 63): the doubled value, complemented for negative v. */
  function Zigzag(v: I64): U64 {
    var doubled := 2 * v % TWO64;
    if v < 0 then TWO64 - 1 - doubled else doubled
  }

  /** (e >> 1) ^ -(e & 1), read as a signed value. */
  function Unzigzag(e: U64): I64 {
    var half := e / 2;
    var bits := if e % 2 == 1 then TWO64 - 1 - half else half;
    if bits >= TWO63 then bits - TWO64 else bits
  }

  /** Small values of either sign get small codes, and every signed value comes back. */
  lemma {:induction false} ZigzagRoundTrip(v: I64)
    ensures Zigzag(v) == if v >= 0 then 2 * v else -2 * v - 1
    ensures Unzigzag(Zigzag(v)) == v
  {
    if v < 0 {
      ModUnique(2 * v, TWO64, -1, 2 * v + TWO64);
    } else {
      ModUnique(2 * v, TWO64, 0, 2 * v);
    }
  }

  /** Every code is somebody's. */
  lemma {:induction false} ZigzagOnto(e: U64)
    ensures Zigzag(Unzigzag(e)) == e
  {
    ZigzagRoundTrip(Unzigzag(e));
  }

  /** Unsigned subtraction and addition modulo 2^64. */
  function Delta(key: U64, prev: U64): U64 { if key >= prev then key - prev else key - prev + TWO64 }
  function Undelta(d: U64, prev: U64): U64 { if prev + d < TWO64 then prev + d else prev + d - TWO64 }

  lemma {:induction false} DeltaIsModular(key: U64, prev: U64)
    ensures Delta(key, prev) == (key - prev) % TWO64 && Undelta(key, prev) == (prev + key) % TWO64
  {
    ModUnique(key - prev, TWO64, if key >= prev then 0 else -1, Delta(key, prev));
    ModUnique(prev + key, TWO64, if prev + key < TWO64 then 0 else 1, Undelta(key, prev));
  }

  lemma {:induction false} DeltaRoundTrip(key: U64, prev: U64)
    ensures Undelta(Delta(key, prev), prev) == key
  {
  }

  // ---------- the whole format ----------

  function Values(vs: seq<I64>): seq<Byte> {
    if vs == [] then [] else VarInt(Zigzag(vs[0])) + Values(vs[1..])
  }

  function Record(n: Node, prev: U64): seq<Byte> {
    VarInt(Delta(n.key, prev)) + Values(n.regrets) + Values(n.strategies)
  }

  function Records(nodes: seq<Node>, prev: U64): seq<Byte> {
    if nodes == [] then [] else Record(nodes[0], prev) + Records(nodes[1..], nodes[0].key)
  }

  function Encode(nodes: seq<Node>): seq<Byte>
    requires |nodes| < TWO64
  {
    VarInt(|nodes|) + Records(nodes, 0)
  }

  // ---------- what the file says, number by number ----------

  /** A signed number: even codes for the non-negative ones, odd for the others. */
  function SignedCode(v: I64): seq<Byte> {
    VarInt(if v >= 0 then 2 * v else -2 * v - 1)
  }

  lemma {:induction false} ValuesUnfold(vs: seq<I64>, first: I64, rest: seq<I64>)
    requires vs == [first] + rest
    ensures Values(vs) == SignedCode(first) + Values(rest)
  {
    ZigzagRoundTrip(first);
    assert vs[1..] == rest;
  }

  lemma {:induction false} FiveValues(vs: seq<I64>)
    requires |vs| == 5
    ensures Values(vs) ==
      SignedCode(vs[0]) + (SignedCode(vs[1]) + (SignedCode(vs[2]) + (SignedCode(vs[3]) + (SignedCode(vs[4]) + []))))
  {
    ValuesUnfold(vs, vs[0], vs[1..]);
    ValuesUnfold(vs[1..], vs[1], vs[2..]);
    ValuesUnfold(vs[2..], vs[2], vs[3..]);
    ValuesUnfold(vs[3..], vs[3], vs[4..]);
    ValuesUnfold(vs[4..], vs[4], []);
  }

  /** A node's record: its key, as the step modulo 2^64 from the key before it, its five regrets and its
      five strategy sums, in that order. */
  lemma {:induction false} RecordIs(n: Node, prev: U64)
    requires Complete(n)
    ensures var r, s := n.regrets, n.strategies;
      Record(n, prev) == VarInt((n.key - prev) % TWO64)
        + (SignedCode(r[0]) + (SignedCode(r[1]) + (SignedCode(r[2]) + (SignedCode(r[3]) + (SignedCode(r[4]) + [])))))
        + (SignedCode(s[0]) + (SignedCode(s[1]) + (SignedCode(s[2]) + (SignedCode(s[3]) + (SignedCode(s[4]) + [])))))
  {
    DeltaIsModular(n.key, prev);
    FiveValues(n.regrets);
    FiveValues(n.strategies);
  }

  /** One more node at the end adds its record, told from the key of the node before it. */
  lemma {:induction false} RecordsGrow(nodes: seq<Node>, prev: U64, n: Node)
    ensures Records(nodes + [n], prev) == Records(nodes, prev) + Record(n, if nodes == [] then prev else nodes[|nodes| - 1].key)
  {
    var all := nodes + [n];
    if nodes == [] {
      assert all[1..] == [] && Records(all[1..], n.key) == [];
    } else {
      RecordsGrow(nodes[1..], nodes[0].key, n);
      assert all[1..] == nodes[1..] + [n];
    }
  }


  datatype ValuesRead = ValuesRead(values: seq<I64>, next: nat)

  /** Up to n values, while there is data. */
  function ReadValues(data: seq<Byte>, pos: nat, n: nat): (r: ValuesRead)
    ensures r.next >= pos && |r.values| <= n
    decreases n
  {
    if n == 0 || pos >= |data| then ValuesRead([], pos)
    else
      var first := ReadAt(data, pos);
      var rest := ReadValues(data, first.next, n - 1);
      ValuesRead([Unzigzag(first.value % TWO64)] + rest.values, rest.next)
  }

  datatype NodeRead = NodeRead(node: Node, next: nat)

  function ReadNode(data: seq<Byte>, pos: nat, prev: U64): (r: NodeRead)
    requires pos < |data|
    ensures r.next > pos
  {
    var key := ReadAt(data, pos);
    var regrets := ReadValues(data, key.next, MAX_ACTIONS);
    var strategies := ReadValues(data, regrets.next, MAX_ACTIONS);
    NodeRead(Node(Undelta(key.value % TWO64, prev), regrets.values, strategies.values), strategies.next)
  }

  function ReadNodes(data: seq<Byte>, pos: nat, prev: U64, count: nat): seq<Node>
    decreases count
  {
    if count == 0 || pos >= |data| then []
    else
      var r := ReadNode(data, pos, prev);
      [r.node] + ReadNodes(data, r.next, r.node.key, count - 1)
  }

  function Decode(data: seq<Byte>): seq<Node> {
    var count := ReadAt(data, 0);
    ReadNodes(data, count.next, 0, count.value % TWO64)
  }

  // ---------- the codec loops ----------

  method WriteValues(out: seq<Byte>, vs: seq<I64>) returns (buffer: seq<Byte>)
    ensures buffer == out + Values(vs)
  {
    buffer := out;
    var i := 0;
    while i < |vs|
      invariant 0 <= i <= |vs| && buffer + Values(vs[i..]) == out + Values(vs)
    {
      assert vs[i..][1..] == vs[i + 1..];
      var code := VarInt(Zigzag(vs[i]));
      assert buffer + (code + Values(vs[i + 1..])) == (buffer + code) + Values(vs[i + 1..]);
      buffer := WriteVarInt(buffer, Zigzag(vs[i]));
      i := i + 1;
    }
  }

  method WriteRecord(out: seq<Byte>, node: Node, prevKey: U64) returns (buffer: seq<Byte>)
    ensures buffer == out + Record(node, prevKey)
  {
    var key, regrets := VarInt(Delta(node.key, prevKey)), Values(node.regrets);
    buffer := WriteVarInt(out, Delta(node.key, prevKey));
    buffer := WriteValues(buffer, node.regrets);
    buffer := WriteValues(buffer, node.strategies);
    Regroup(out, key, regrets, Values(node.strategies));
  }

  lemma {:induction false} Regroup(a: seq<Byte>, b: seq<Byte>, c: seq<Byte>, d: seq<Byte>)
    ensures ((a + b) + c) + d == a + (b + c + d)
  {
  }

  lemma {:induction false} NextRecord(nodes: seq<Node>, i: nat, prevKey: U64, before: seq<Byte>)
    requires i < |nodes|
    ensures before + Records(nodes[i..], prevKey)
         == (before + Record(nodes[i], prevKey)) + Records(nodes[i + 1..], nodes[i].key)
  {
    assert nodes[i..][1..] == nodes[i + 1..];
    var first, rest := Record(nodes[i], prevKey), Records(nodes[i + 1..], nodes[i].key);
    assert before + (first + rest) == (before + first) + rest;
  }

  method CompressNodes(nodes: seq<Node>) returns (buffer: seq<Byte>)
    requires |nodes| < TWO64
    ensures buffer == Encode(nodes)
  {
    buffer := WriteVarInt([], |nodes|);
    var prevKey: U64 := 0;
    var i := 0;
    while i < |nodes|
      invariant 0 <= i <= |nodes| && buffer + Records(nodes[i..], prevKey) == Encode(nodes)
    {
      NextRecord(nodes, i, prevKey, buffer);
      buffer := WriteRecord(buffer, nodes[i], prevKey);
      prevKey := nodes[i].key;
      i := i + 1;
    }
  }

  method DecompressValues(data: seq<Byte>, start: nat) returns (values: seq<I64>, ptr: nat)
    requires start <= |data|
    ensures ValuesRead(values, ptr) == ReadValues(data, start, MAX_ACTIONS) && start <= ptr <= |data|
  {
    values, ptr := [], start;
    var j := 0;
    while j < MAX_ACTIONS && ptr < |data|
      invariant 0 <= j <= MAX_ACTIONS && start <= ptr <= |data|
      invariant var rest := ReadValues(data, ptr, MAX_ACTIONS - j);
        ValuesRead(values + rest.values, rest.next) == ReadValues(data, start, MAX_ACTIONS)
    {
      ghost var rest := ReadValues(data, ReadAt(data, ptr).next, MAX_ACTIONS - j - 1);
      var encoded: U64;
      encoded, ptr := ReadVarInt(data, ptr);
      assert values + ([Unzigzag(encoded)] + rest.values) == (values + [Unzigzag(encoded)]) + rest.values;
      values := values + [Unzigzag(encoded)];
      j := j + 1;
    }
  }

  method DecompressNode(data: seq<Byte>, start: nat, prevKey: U64) returns (node: Node, ptr: nat)
    requires start < |data|
    ensures NodeRead(node, ptr) == ReadNode(data, start, prevKey) && start < ptr <= |data|
  {
    var delta: U64;
    delta, ptr := ReadVarInt(data, start);
    var regrets: seq<I64>;
    regrets, ptr := DecompressValues(data, ptr);
    var strategies: seq<I64>;
    strategies, ptr := DecompressValues(data, ptr);
    node := Node(Undelta(delta, prevKey), regrets, strategies);
  }

  lemma {:induction false} Prepend(before: seq<Node>, n: Node, rest: seq<Node>)
    ensures before + ([n] + rest) == (before + [n]) + rest
  {
  }

  lemma {:induction false} NextNode(data: seq<Byte>, pos: nat, prev: U64, count: nat, before: seq<Node>)
    requires pos < |data| && count > 0
    ensures var r := ReadNode(data, pos, prev);
      before + ReadNodes(data, pos, prev, count) == (before + [r.node]) + ReadNodes(data, r.next, r.node.key, count - 1)
  {
    var r := ReadNode(data, pos, prev);
    Prepend(before, r.node, ReadNodes(data, r.next, r.node.key, count - 1));
  }

  method DecompressNodes(data: seq<Byte>) returns (nodes: seq<Node>)
    ensures nodes == Decode(data)
  {
    var count: U64;
    var ptr: nat;
    count, ptr := ReadVarInt(data, 0);
    nodes := [];
    var prevKey: U64 := 0;
    var i: nat := 0;
    while i < count && ptr < |data|
      invariant i <= count && ptr <= |data|
      invariant nodes + ReadNodes(data, ptr, prevKey, count - i) == Decode(data)
    {
      NextNode(data, ptr, prevKey, count - i, nodes);
      var node: Node;
      node, ptr := DecompressNode(data, ptr, prevKey);
      nodes := nodes + [node];
      prevKey := node.key;
      i := i + 1;
    }
  }

  // ---------- round trip ----------

  lemma {:induction false} ValuesReadBack(data: seq<Byte>, pos: nat, vs: seq<I64>)
    requires At(data, pos, Values(vs))
    ensures ReadValues(data, pos, |vs|) == ValuesRead(vs, pos + |Values(vs)|)
    decreases |vs|
  {
    if vs != [] {
      var code := VarInt(Zigzag(vs[0]));
      AtSplit(data, pos, code, Values(vs[1..]));
      ReadsBack(data, pos, Zigzag(vs[0]));
      ValuesReadBack(data, pos + |code|, vs[1..]);
      OneMoreValue(data, pos, vs[0], pos + |code|, vs[1..], pos + |Values(vs)|);
      assert vs == [vs[0]] + vs[1..];
    }
  }

  lemma {:induction false} OneMoreValue(data: seq<Byte>, pos: nat, v: I64, next: nat, rest: seq<I64>, end: nat)
    requires pos < |data| && ReadAt(data, pos) == Read(Zigzag(v), next)
    requires ReadValues(data, next, |rest|) == ValuesRead(rest, end)
    ensures ReadValues(data, pos, |rest| + 1) == ValuesRead([v] + rest, end)
  {
    ZigzagRoundTrip(v);
    ModUnique(Zigzag(v), TWO64, 0, Zigzag(v));
  }

  lemma {:induction false} RecordParts(data: seq<Byte>, pos: nat, n: Node, prev: U64)
    requires At(data, pos, Record(n, prev))
    ensures var key, regrets, strategies := VarInt(Delta(n.key, prev)), Values(n.regrets), Values(n.strategies);
      At(data, pos, key) && At(data, pos + |key|, regrets) && At(data, pos + |key| + |regrets|, strategies)
      && |Record(n, prev)| == |key| + |regrets| + |strategies|
  {
    var key, regrets, strategies := VarInt(Delta(n.key, prev)), Values(n.regrets), Values(n.strategies);
    AtSplit(data, pos, key + regrets, strategies);
    AtSplit(data, pos, key, regrets);
  }

  lemma {:induction false} KeyReadBack(data: seq<Byte>, pos: nat, key: U64, prev: U64)
    requires At(data, pos, VarInt(Delta(key, prev)))
    ensures pos < |data| && ReadAt(data, pos).next == pos + |VarInt(Delta(key, prev))|
    ensures Undelta(ReadAt(data, pos).value % TWO64, prev) == key
  {
    ReadsBack(data, pos, Delta(key, prev));
    ModUnique(Delta(key, prev), TWO64, 0, Delta(key, prev));
    DeltaRoundTrip(key, prev);
  }

  lemma {:induction false} NodeReadBack(data: seq<Byte>, pos: nat, n: Node, prev: U64)
    requires Complete(n) && At(data, pos, Record(n, prev))
    ensures pos < |data| && ReadNode(data, pos, prev) == NodeRead(n, pos + |Record(n, prev)|)
  {
    RecordParts(data, pos, n, prev);
    KeyReadBack(data, pos, n.key, prev);
    var a := pos + |VarInt(Delta(n.key, prev))|;
    var b := a + |Values(n.regrets)|;
    ValuesReadBack(data, a, n.regrets);
    ValuesReadBack(data, b, n.strategies);
    NodeFromParts(data, pos, n, prev, a, b, b + |Values(n.strategies)|);
  }

  lemma {:induction false} NodeFromParts(data: seq<Byte>, pos: nat, n: Node, prev: U64, a: nat, b: nat, c: nat)
    requires Complete(n) && pos < |data| && ReadAt(data, pos).next == a && Undelta(ReadAt(data, pos).value % TWO64, prev) == n.key
    requires ReadValues(data, a, MAX_ACTIONS) == ValuesRead(n.regrets, b)
    requires ReadValues(data, b, MAX_ACTIONS) == ValuesRead(n.strategies, c)
    ensures ReadNode(data, pos, prev) == NodeRead(n, c)
  {
  }

  lemma {:induction false} NodesReadBack(data: seq<Byte>, pos: nat, nodes: seq<Node>, prev: U64)
    requires (forall i :: 0 <= i < |nodes| ==> Complete(nodes[i])) && At(data, pos, Records(nodes, prev))
    ensures ReadNodes(data, pos, prev, |nodes|) == nodes
    decreases |nodes|
  {
    if nodes != [] {
      var next := FirstReadBack(data, pos, nodes, prev);
      NodesReadBack(data, next, nodes[1..], nodes[0].key);
      OneMoreNode(data, pos, prev, nodes[0], next, nodes[1..]);
      assert nodes == [nodes[0]] + nodes[1..];
    }
  }

  lemma {:induction false} FirstReadBack(data: seq<Byte>, pos: nat, nodes: seq<Node>, prev: U64) returns (next: nat)
    requires nodes != [] && Complete(nodes[0]) && At(data, pos, Records(nodes, prev))
    ensures pos < |data| && ReadNode(data, pos, prev) == NodeRead(nodes[0], next)
    ensures At(data, next, Records(nodes[1..], nodes[0].key))
  {
    AtSplit(data, pos, Record(nodes[0], prev), Records(nodes[1..], nodes[0].key));
    NodeReadBack(data, pos, nodes[0], prev);
    next := pos + |Record(nodes[0], prev)|;
  }

  lemma {:induction false} OneMoreNode(data: seq<Byte>, pos: nat, prev: U64, first: Node, next: nat, rest: seq<Node>)
    requires pos < |data| && ReadNode(data, pos, prev) == NodeRead(first, next)
    requires ReadNodes(data, next, first.key, |rest|) == rest
    ensures ReadNodes(data, pos, prev, |rest| + 1) == [first] + rest
  {
  }

  /** Decompressing what was compressed gives the same keys, in the same order, and the same
      quantised values. */
  lemma {:induction false} RoundTrip(nodes: seq<Node>)
    requires |nodes| < TWO64 && forall i :: 0 <= i < |nodes| ==> Complete(nodes[i])
    ensures Decode(Encode(nodes)) == nodes
  {
    var data := Encode(nodes);
    assert At(data, 0, data);
    AtSplit(data, 0, VarInt(|nodes|), Records(nodes, 0));
    ReadsBack(data, 0, |nodes|);
    NodesReadBack(data, |VarInt(|nodes|)|, nodes, 0);
    ModUnique(|nodes|, TWO64, 0, |nodes|);
  }
}
