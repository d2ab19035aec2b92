/**
  The IVF centroid set: the byte string under its content hash, the checks at its entry points, and
  the assignment of a vector to a cluster.

  A float32 is its bit pattern. SHA-256 is the parameter `sha`, any function from bytes to bytes. The
  float64 accumulation `dot += float64(c) * float64(v)` is the parameter `mulAdd`, any function, so that
  nothing here depends on how the machine rounds; comparison is that of IEEE 754.
*/
module Route {
  import opened Wrappers

  const TWO_32 := 0x1_0000_0000

  type Byte = x: nat | x < 256
  type Bytes = seq<Byte>
  type Word = x: nat | x < TWO_32

  /** `dim` is a Go int: hashing truncates it, and the vector count, to 32 bits. */
  datatype CentroidSet = CentroidSet(version: string, dim: int, preset: Bytes, vectors: seq<seq<Word>>)

  // ----- Validate -----

  datatype Invalid = EmptySet | WrongDim(dim: int) | WrongRow(row: nat)

  predicate Rectangular(vectors: seq<seq<Word>>, d: int) {
    forall i :: 0 <= i < |vectors| ==> |vectors[i]| == d
  }

  predicate Valid(cs: CentroidSet, wantDim: int) {
    cs.version != "" && cs.vectors != [] && cs.dim == wantDim && Rectangular(cs.vectors, cs.dim)
  }

  method Validate(given: Option<CentroidSet>, wantDim: int) returns (err: Option<Invalid>)
    ensures err == None <==> given.Some? && Valid(given.value, wantDim)
    ensures err == Some(EmptySet) <==> given == None || given.value.version == "" || given.value.vectors == []
    ensures err.Some? && err.value.WrongDim? ==> err.value.dim == given.value.dim != wantDim
    ensures err.Some? && err.value.WrongRow? ==>
              && given.value.dim == wantDim && err.value.row < |given.value.vectors|
              && |given.value.vectors[err.value.row]| != wantDim
              && Rectangular(given.value.vectors[..err.value.row], wantDim)
  {
    if given == None || given.value.version == "" || |given.value.vectors| == 0 {
      return Some(EmptySet);
    }
    var s := given.value;
    if s.dim != wantDim {
      return Some(WrongDim(s.dim));
    }
    for i := 0 to |s.vectors|
      invariant Rectangular(s.vectors[..i], s.dim)
    {
      if |s.vectors[i]| != s.dim {
        return Some(WrongRow(i));
      }
      assert s.vectors[..i + 1] == s.vectors[..i] + [s.vectors[i]];
    }
    assert s.vectors[..|s.vectors|] == s.vectors;
    return None;
  }

  // ----- the hash input -----

  function Truncate(n: int): Word {
    n % TWO_32
  }

  function LittleEndian(w: Word): (b: Bytes)
    ensures |b| == 4
  {
    [w % 256, w / 256 % 256, w / 65536 % 256, w / 16777216]
  }

  function FromLittleEndian(b: Bytes): Word
    requires |b| == 4
  {
    var b0: int, b1: int, b2: int, b3: int := b[0], b[1], b[2], b[3];
    b0 + 256 * b1 + 65536 * b2 + 16777216 * b3
  }

  lemma WordRoundTrip(w: Word)
    ensures FromLittleEndian(LittleEndian(w)) == w
  {
    var q1, q2, q3 := w / 256, w / 65536, w / 16777216;
    assert w == 256 * q1 + w % 256;
    assert q1 == 256 * q2 + q1 % 256;
    assert q2 == 256 * q3 + q2 % 256;
  }

  lemma BytesRoundTrip(b: Bytes)
    requires |b| == 4
    ensures LittleEndian(FromLittleEndian(b)) == b
  {
    var b0: int, b1: int, b2: int, b3: int := b[0], b[1], b[2], b[3];
    var w := FromLittleEndian(b);
    assert w / 256 == b1 + 256 * b2 + 65536 * b3;
    assert w / 65536 == b2 + 256 * b3;
  }

  function Row(v: seq<Word>): Bytes {
    if v == [] then [] else Row(v[..|v| - 1]) + LittleEndian(v[|v| - 1])
  }

  function Rows(vs: seq<seq<Word>>): Bytes {
    if vs == [] then [] else Rows(vs[..|vs| - 1]) + Row(vs[|vs| - 1])
  }

  function Header(cs: CentroidSet): Bytes {
    LittleEndian(Truncate(cs.dim)) + LittleEndian(Truncate(|cs.vectors|))
  }

  /** The bytes fed to the hash: dim, count, preset, NUL, then every float in id order. */
  function Encode(cs: CentroidSet): Bytes {
    Header(cs) + cs.preset + [0] + Rows(cs.vectors)
  }

  // ----- ComputeVersion -----

  /** A running hash: it is what has been written to it. */
  class Hash {
    var written: Bytes

    constructor ()
      ensures written == []
    {
      written := [];
    }

    method Write(b: Bytes)
      modifies this
      ensures written == old(written) + b
    {
      written := written + b;
    }
  }

  const VERSION_PREFIX := "sha256:"

  const HEX_DIGITS := "0123456789abcdef"

  function Hex(b: Bytes): (s: string)
    ensures |s| == 2 * |b|
  {
    if b == [] then "" else Hex(b[..|b| - 1]) + [HEX_DIGITS[b[|b| - 1] / 16], HEX_DIGITS[b[|b| - 1] % 16]]
  }

  function Version(sha: Bytes -> Bytes, cs: CentroidSet): string {
    VERSION_PREFIX + Hex(sha(Encode(cs)))
  }

  method ComputeVersion(sha: Bytes -> Bytes, cs: CentroidSet) returns (v: string)
    ensures v == Version(sha, cs)
  {
    var h := new Hash();
    h.Write(LittleEndian(Truncate(cs.dim)));
    h.Write(LittleEndian(Truncate(|cs.vectors|)));
    h.Write(cs.preset);
    h.Write([0]);
    ghost var head := h.written;
    assert head == Header(cs) + cs.preset + [0];
    for i := 0 to |cs.vectors|
      invariant h.written == head + Rows(cs.vectors[..i])
    {
      var vec := cs.vectors[i];
      ghost var before := h.written;
      for j := 0 to |vec|
        invariant h.written == before + Row(vec[..j])
      {
        h.Write(LittleEndian(vec[j]));
        assert vec[..j + 1][..j] == vec[..j];
      }
      assert vec[..|vec|] == vec;
      assert cs.vectors[..i + 1][..i] == cs.vectors[..i];
    }
    assert cs.vectors[..|cs.vectors|] == cs.vectors;
    v := VERSION_PREFIX + Hex(sha(h.written));
  }

  /** A set without a preset comes from a sender that predates it and is taken on trust. */
  method VerifyVersion(sha: Bytes -> Bytes, cs: CentroidSet) returns (ok: bool)
    ensures ok <==> Verified(sha, cs)
  {
    if cs.preset == [] {
      return true;
    }
    var got := ComputeVersion(sha, cs);
    return got == cs.version;
  }

  predicate Verified(sha: Bytes -> Bytes, cs: CentroidSet) {
    cs.preset == [] || cs.version == Version(sha, cs)
  }

  // ----- the hash input can be read back -----

  datatype Content = Content(dim: Word, preset: Bytes, vectors: seq<seq<Word>>)

  /** The bytes taken by `n` rows of `d` floats. */
  function RowsSize(d: nat, n: nat): nat {
    if n == 0 then 0 else RowsSize(d, n - 1) + 4 * d
  }

  function ReadRow(b: Bytes, d: nat): (v: seq<Word>)
    requires |b| == 4 * d
    ensures |v| == d
  {
    if d == 0 then [] else ReadRow(b[..4 * (d - 1)], d - 1) + [FromLittleEndian(b[4 * (d - 1)..])]
  }

  function ReadRows(b: Bytes, d: nat, n: nat): (vs: seq<seq<Word>>)
    requires |b| == RowsSize(d, n)
    ensures |vs| == n && Rectangular(vs, d)
    decreases n
  {
    if n == 0 then []
    else
      var front := RowsSize(d, n - 1);
      ReadRows(b[..front], d, n - 1) + [ReadRow(b[front..], d)]
  }

  /** Nothing marks the end of the preset: the total length does, so a preset may contain NUL. */
  function Decode(b: Bytes): Option<Content> {
    if |b| < 9 then None
    else
      var d, n := FromLittleEndian(b[..4]), FromLittleEndian(b[4..8]);
      var body := RowsSize(d, n);
      if |b| < 9 + body || b[|b| - body - 1] != 0 then None
      else Some(Content(d, b[8..|b| - body - 1], ReadRows(b[|b| - body..], d, n)))
  }

  lemma {:induction false} RowRoundTrip(v: seq<Word>)
    ensures |Row(v)| == 4 * |v| && ReadRow(Row(v), |v|) == v
  {
    hide LittleEndian, FromLittleEndian;
    if v != [] {
      var front, last := v[..|v| - 1], v[|v| - 1];
      RowRoundTrip(front);
      WordRoundTrip(last);
      assert Row(v)[..4 * |front|] == Row(front) && Row(v)[4 * |front|..] == LittleEndian(last);
    }
  }

  lemma RowsOfAppend(front: seq<seq<Word>>, last: seq<Word>)
    ensures Rows(front + [last]) == Rows(front) + Row(last)
  {
    assert (front + [last])[..|front|] == front;
  }

  lemma ReadRowsOfAppend(front: Bytes, last: Bytes, d: nat, n: nat)
    requires |front| == RowsSize(d, n) && |last| == 4 * d
    ensures ReadRows(front + last, d, n + 1) == ReadRows(front, d, n) + [ReadRow(last, d)]
  {
    var cut := RowsSize(d, n);
    assert (front + last)[..cut] == front && (front + last)[cut..] == last;
  }

  lemma {:induction false} RowsRoundTrip(vs: seq<seq<Word>>, d: nat)
    requires Rectangular(vs, d)
    ensures |Rows(vs)| == RowsSize(d, |vs|) && ReadRows(Rows(vs), d, |vs|) == vs
  {
    hide Row, ReadRow;
    if vs != [] {
      var front, last := vs[..|vs| - 1], vs[|vs| - 1];
      assert vs == front + [last];
      RowsRoundTrip(front, d);
      RowRoundTrip(last);
      RowsOfAppend(front, last);
      hide Rows, ReadRows;
      ReadRowsOfAppend(Rows(front), Row(last), d, |front|);
    }
  }

  lemma HeaderRoundTrip(d: Word, n: Word, rest: Bytes)
    ensures var b := LittleEndian(d) + LittleEndian(n) + rest;
            FromLittleEndian(b[..4]) == d && FromLittleEndian(b[4..8]) == n && b[8..] == rest
  {
    hide LittleEndian, FromLittleEndian;
    WordRoundTrip(d);
    WordRoundTrip(n);
    var b := LittleEndian(d) + LittleEndian(n) + rest;
    assert b[..4] == LittleEndian(d) && b[4..8] == LittleEndian(n);
  }

  /** What Validate accepts can be read back from its hash input, whatever bytes the preset holds. */
  lemma DecodeEncode(cs: CentroidSet, wantDim: int)
    requires Valid(cs, wantDim) && cs.dim < TWO_32 && |cs.vectors| < TWO_32
    ensures Decode(Encode(cs)) == Some(Content(cs.dim, cs.preset, cs.vectors))
  {
    hide LittleEndian, FromLittleEndian, Rows, ReadRows, RowsSize;
    assert cs.dim == |cs.vectors[0]|;
    var d: Word, n: Word, b := cs.dim, |cs.vectors|, Encode(cs);
    var rest := cs.preset + [0] + Rows(cs.vectors);
    RowsRoundTrip(cs.vectors, d);
    assert b == LittleEndian(d) + LittleEndian(n) + rest;
    HeaderRoundTrip(d, n, rest);
    var body := RowsSize(d, n);
    assert b[|b| - body..] == Rows(cs.vectors);
    assert b[8..|b| - body - 1] == cs.preset;
  }

  lemma {:induction false} ReadRowBack(b: Bytes, d: nat)
    requires |b| == 4 * d
    ensures Row(ReadRow(b, d)) == b
  {
    hide LittleEndian, FromLittleEndian;
    if d > 0 {
      var front, last := b[..4 * (d - 1)], b[4 * (d - 1)..];
      ReadRowBack(front, d - 1);
      BytesRoundTrip(last);
      assert ReadRow(b, d)[..d - 1] == ReadRow(front, d - 1);
      assert b == front + last;
    }
  }

  lemma {:induction false} ReadRowsBack(b: Bytes, d: nat, n: nat)
    requires |b| == RowsSize(d, n)
    ensures Rows(ReadRows(b, d, n)) == b
    decreases n
  {
    hide Row, ReadRow, Rectangular;
    if n > 0 {
      var cut := RowsSize(d, n - 1);
      ReadRowsBack(b[..cut], d, n - 1);
      ReadRowBack(b[cut..], d);
      assert ReadRows(b, d, n)[..n - 1] == ReadRows(b[..cut], d, n - 1);
      assert b == b[..cut] + b[cut..];
    }
  }

  /** Conversely, whatever decodes is the hash input of the set it decodes to. */
  lemma EncodeDecode(b: Bytes, version: string)
    requires Decode(b).Some?
    ensures var c := Decode(b).value; Encode(CentroidSet(version, c.dim, c.preset, c.vectors)) == b
  {
    hide LittleEndian, FromLittleEndian, Rows, ReadRows, RowsSize, Rectangular;
    var c := Decode(b).value;
    var n := FromLittleEndian(b[4..8]);
    var body := RowsSize(c.dim, n);
    ReadRowsBack(b[|b| - body..], c.dim, n);
    BytesRoundTrip(b[..4]);
    BytesRoundTrip(b[4..8]);
    assert b == b[..4] + b[4..8] + c.preset + [0] + b[|b| - body..];
  }

  /** The `k`-th byte of a word, the lowest first. */
  function ByteOf(w: int, k: nat): int
    decreases k
  {
    if k == 0 then w % 256 else ByteOf(w / 256, k - 1)
  }

  lemma LittleEndianAt(w: Word, k: nat)
    requires k < 4
    ensures LittleEndian(w)[k] == ByteOf(w, k)
  {
    var q1, q2 := w / 256, w / 65536;
    assert q1 / 256 == q2 && q2 / 256 == w / 16777216 < 256;
    assert ByteOf(w, 1) == ByteOf(q1, 0) && ByteOf(w, 2) == ByteOf(q1, 1) == ByteOf(q2, 0);
    assert ByteOf(w, 3) == ByteOf(q1, 2) == ByteOf(q2, 1) == ByteOf(q2 / 256, 0);
  }

  lemma {:induction false} RowAt(v: seq<Word>, j: nat, k: nat)
    requires j < |v| && k < 4
    ensures |Row(v)| == 4 * |v| && Row(v)[4 * j + k] == ByteOf(v[j], k)
  {
    hide LittleEndian, ByteOf;
    var front := v[..|v| - 1];
    if front != [] {
      RowAt(front, if j < |front| then j else 0, k);
    }
    LittleEndianAt(v[j], k);
  }

  lemma {:induction false} RowsAt(vs: seq<seq<Word>>, d: nat, i: nat, j: nat, k: nat)
    requires Rectangular(vs, d) && i < |vs| && j < d && k < 4
    ensures |Rows(vs)| == RowsSize(d, |vs|) && RowsSize(d, i) + 4 * j + k < |Rows(vs)|
    ensures Rows(vs)[RowsSize(d, i) + 4 * j + k] == ByteOf(vs[i][j], k)
  {
    hide Row, ByteOf;
    var front, last := vs[..|vs| - 1], vs[|vs| - 1];
    RowsLength(front, d);
    RowAt(vs[i], j, k);
    RowRoundTrip(last);
    if i < |front| {
      RowsAt(front, d, i, j, k);
    }
  }

  lemma {:induction false} RowsLength(vs: seq<seq<Word>>, d: nat)
    requires Rectangular(vs, d)
    ensures |Rows(vs)| == RowsSize(d, |vs|)
  {
    hide Row;
    if vs != [] {
      RowsLength(vs[..|vs| - 1], d);
      RowRoundTrip(vs[|vs| - 1]);
    }
  }

  /**
    Where every byte of a valid set's hash input stands: dim and count, lowest byte first, the preset, one NUL,
    and then row after row, coordinate after coordinate, lowest byte first.
  */
  lemma EncodeLayout(cs: CentroidSet, wantDim: int, i: nat, j: nat, k: nat)
    requires Valid(cs, wantDim) && cs.dim < TWO_32 && |cs.vectors| < TWO_32
    requires i < |cs.vectors| && j < cs.dim && k < 4
    ensures var b, body := Encode(cs), 9 + |cs.preset|;
            && |b| == body + RowsSize(cs.dim, |cs.vectors|)
            && b[k] == ByteOf(cs.dim, k) && b[4 + k] == ByteOf(|cs.vectors|, k)
            && b[8..body - 1] == cs.preset && b[body - 1] == 0
            && body + RowsSize(cs.dim, i) + 4 * j + k < |b|
            && b[body + RowsSize(cs.dim, i) + 4 * j + k] == ByteOf(cs.vectors[i][j], k)
  {
    hide Rows, RowsSize, ByteOf, LittleEndian;
    RowsAt(cs.vectors, cs.dim, i, j, k);
    LittleEndianAt(cs.dim, k);
    LittleEndianAt(|cs.vectors|, k);
    var head := Header(cs) + cs.preset + [0];
    assert Encode(cs) == head + Rows(cs.vectors);
    assert head[8..8 + |cs.preset|] == cs.preset && head[8 + |cs.preset|] == 0;
  }

  /** Two valid sets of fewer than 2^32 vectors with the same hash input are the same set. */
  lemma EncodeInjective(a: CentroidSet, b: CentroidSet, dimA: int, dimB: int)
    requires Valid(a, dimA) && a.dim < TWO_32 && |a.vectors| < TWO_32
    requires Valid(b, dimB) && b.dim < TWO_32 && |b.vectors| < TWO_32
    ensures Encode(a) == Encode(b) <==> a.(version := "") == b.(version := "")
  {
    hide Decode, Rows;
    DecodeEncode(a, dimA);
    DecodeEncode(b, dimB);
  }

  lemma RowsOfTwo(v: seq<Word>, w: seq<Word>)
    ensures Rows([v, w]) == Row(v) + Row(w)
  {
    RowsOfAppend([], v);
    RowsOfAppend([v], w);
    assert [] + [v] == [v] && [v] + [w] == [v, w];
  }

  /** Without Validate the claim is false: ragged rows run into each other. */
  lemma RaggedSetsCollide()
    ensures exists a: CentroidSet, b: CentroidSet ::
              a.dim == b.dim == 1 && a.preset == b.preset && |a.vectors| == |b.vectors| && a.vectors != b.vectors
                  && Encode(a) == Encode(b)
  {
    var one: seq<Word>, none: seq<Word> := [7], [];
    var a := CentroidSet("", 1, [], [one, none]);
    var b := CentroidSet("", 1, [], [none, one]);
    assert a.vectors[0] != b.vectors[0];
    RowsOfTwo(one, none);
    RowsOfTwo(none, one);
    assert Encode(a) == Encode(b);
  }

  // ----- the version pins the content -----

  lemma {:induction false} HexInjective(a: Bytes, b: Bytes)
    ensures Hex(a) == Hex(b) <==> a == b
  {
    if Hex(a) == Hex(b) && a != [] {
      var s := Hex(a);
      assert s[..|s| - 2] == Hex(a[..|a| - 1]) && s[..|s| - 2] == Hex(b[..|b| - 1]);
      HexInjective(a[..|a| - 1], b[..|b| - 1]);
      HexDigitInjective(a[|a| - 1], b[|b| - 1]);
      assert a == a[..|a| - 1] + [a[|a| - 1]] && b == b[..|b| - 1] + [b[|b| - 1]];
    }
  }

  /** The value of a lower-case hex digit. */
  function DigitValue(c: char): Option<nat> {
    if '0' <= c <= '9' then Some(c as int - '0' as int)
    else if 'a' <= c <= 'f' then Some(10 + c as int - 'a' as int)
    else None
  }

  /** Two digits a byte, the greater one first. */
  function FromHex(s: string): Option<Bytes> {
    if s == "" then Some([])
    else if |s| == 1 then None
    else
      var hi, lo, rest := DigitValue(s[0]), DigitValue(s[1]), FromHex(s[2..]);
      if hi == None || lo == None || rest == None then None else Some([16 * hi.value + lo.value] + rest.value)
  }

  lemma {:induction false} HexOfFirst(b: Byte, rest: Bytes)
    ensures Hex([b] + rest) == Hex([b]) + Hex(rest)
  {
    if rest == [] {
      assert [b] + rest == [b];
    } else {
      var front := rest[..|rest| - 1];
      HexOfFirst(b, front);
      assert ([b] + rest)[..|rest|] == [b] + front;
    }
  }

  /** Reading the digits back gives the bytes. */
  lemma {:induction false} HexRoundTrip(b: Bytes)
    ensures FromHex(Hex(b)) == Some(b)
  {
    if b != [] {
      HexOfFirst(b[0], b[1..]);
      HexRoundTrip(b[1..]);
      assert b == [b[0]] + b[1..];
      HexOfByte(b[0]);
      assert Hex(b)[2..] == Hex(b[1..]);
    }
  }

  lemma DigitOf(i: nat)
    requires i < 16
    ensures DigitValue(HEX_DIGITS[i]) == Some(i)
  {
    assert i < 10 ==> HEX_DIGITS[i] as int == '0' as int + i;
    assert 10 <= i ==> HEX_DIGITS[i] as int == 'a' as int + i - 10;
  }

  lemma HexOfByte(b: Byte)
    ensures var s := Hex([b]); |s| == 2 && DigitValue(s[0]) == Some(b / 16) && DigitValue(s[1]) == Some(b % 16)
  {
    assert [b][..0] == [];
    assert Hex([b]) == [HEX_DIGITS[b / 16], HEX_DIGITS[b % 16]];
    DigitOf(b / 16);
    DigitOf(b % 16);
  }

  /** A version says which hash it is, and then the hash of the set's content. */
  lemma VersionSays(sha: Bytes -> Bytes, cs: CentroidSet)
    ensures var v := Version(sha, cs);
            |v| == 7 + 2 * |sha(Encode(cs))| && v[..7] == "sha256:" && FromHex(v[7..]) == Some(sha(Encode(cs)))
  {
    hide Encode, FromHex, Hex;
    HexRoundTrip(sha(Encode(cs)));
    assert Version(sha, cs)[7..] == Hex(sha(Encode(cs)));
  }

  lemma HexDigitInjective(a: Byte, b: Byte)
    requires HEX_DIGITS[a / 16] == HEX_DIGITS[b / 16] && HEX_DIGITS[a % 16] == HEX_DIGITS[b % 16]
    ensures a == b
  {
    assert forall i, j :: 0 <= i < j < 16 ==> HEX_DIGITS[i] != HEX_DIGITS[j];
  }

  /** Two different hash inputs with one hash. */
  predicate Collision(sha: Bytes -> Bytes, a: CentroidSet, b: CentroidSet) {
    Encode(a) != Encode(b) && sha(Encode(a)) == sha(Encode(b))
  }

  /**
    A set carrying a preset passes both checks under the version minted for `engine` only if it has the
    engine set's very dim, preset and vectors; the only way out is a collision of the hash.
  */
  lemma VersionPinsContent(sha: Bytes -> Bytes, engine: CentroidSet, pushed: CentroidSet, wantDim: int)
    requires Valid(engine, wantDim) && |engine.vectors| < TWO_32 && engine.version == Version(sha, engine)
    requires Valid(pushed, wantDim) && |pushed.vectors| < TWO_32 && pushed.version == engine.version
    requires wantDim < TWO_32 && pushed.preset != [] && !Collision(sha, engine, pushed)
    ensures Verified(sha, pushed) <==> pushed == engine
  {
    if Verified(sha, pushed) {
      var x, y := Version(sha, pushed), Version(sha, engine);
      assert x[|VERSION_PREFIX|..] == Hex(sha(Encode(pushed))) && y[|VERSION_PREFIX|..] == Hex(sha(Encode(engine)));
      HexInjective(sha(Encode(pushed)), sha(Encode(engine)));
      EncodeInjective(pushed, engine, wantDim, wantDim);
    }
  }

  // ----- Assign -----

  /** A float64, as far as comparison can tell: both zeros are `Finite(0.0)`. */
  datatype Float = NaN | NegInf | Finite(value: real) | PosInf

  /** IEEE 754-2019, section 5.11: a comparison with NaN is false. */
  predicate Greater(a: Float, b: Float) {
    match (a, b)
    case (NaN, _) => false
    case (_, NaN) => false
    case (Finite(x), Finite(y)) => x > y
    case (PosInf, _) => b != PosInf
    case (Finite(_), _) => b == NegInf
    case (NegInf, _) => false
  }

  type MulAdd = (Float, Word, Word) -> Float

  /** The accumulation over the first `j` coordinates. */
  function DotUpTo(mulAdd: MulAdd, c: seq<Word>, v: seq<Word>, j: nat): Float
    requires j <= |c| && j <= |v|
  {
    if j == 0 then Finite(0.0) else mulAdd(DotUpTo(mulAdd, c, v, j - 1), c[j - 1], v[j - 1])
  }

  function Dot(mulAdd: MulAdd, c: seq<Word>, v: seq<Word>): Float {
    DotUpTo(mulAdd, c, v, if |c| < |v| then |c| else |v|)
  }

  /** Coordinate by coordinate from zero, as many as both have. */
  lemma {:induction false} DotGoesOn(mulAdd: MulAdd, c: seq<Word>, v: seq<Word>, x: Word, y: Word)
    ensures Dot(mulAdd, [], v) == Dot(mulAdd, c, []) == Finite(0.0)
    ensures |c| == |v| ==> Dot(mulAdd, c + [x], v + [y]) == mulAdd(Dot(mulAdd, c, v), x, y)
    ensures |c| == |v| ==> Dot(mulAdd, c + [x], v) == Dot(mulAdd, c, v + [y]) == Dot(mulAdd, c, v)
  {
    if |c| == |v| {
      DotOfPrefix(mulAdd, c + [x], v + [y], c, v, |c|);
      DotOfPrefix(mulAdd, c + [x], v, c, v, |c|);
      DotOfPrefix(mulAdd, c, v + [y], c, v, |c|);
    }
  }

  lemma {:induction false} DotOfPrefix(mulAdd: MulAdd, c: seq<Word>, v: seq<Word>, c0: seq<Word>, v0: seq<Word>, j: nat)
    requires c0 <= c && v0 <= v && j <= |c0| && j <= |v0|
    ensures DotUpTo(mulAdd, c, v, j) == DotUpTo(mulAdd, c0, v0, j)
  {
    if j > 0 {
      DotOfPrefix(mulAdd, c, v, c0, v0, j - 1);
    }
  }

  function Dots(mulAdd: MulAdd, vectors: seq<seq<Word>>, v: seq<Word>): (dots: seq<Float>)
    ensures |dots| == |vectors| && forall i :: 0 <= i < |dots| ==> dots[i] == Dot(mulAdd, vectors[i], v)
  {
    seq(|vectors|, i requires 0 <= i < |vectors| => Dot(mulAdd, vectors[i], v))
  }

  /**
    Where a vector with these inner products belongs: to a greatest one that is not NaN, the lowest id
    among equals; to cluster 0 if no product exceeds negative infinity.
  */
  predicate Routes(dots: seq<Float>, k: nat) {
    if exists i :: 0 <= i < |dots| && Greater(dots[i], NegInf) then
      && k < |dots| && Greater(dots[k], NegInf)
      && (forall i :: 0 <= i < |dots| ==> !Greater(dots[i], dots[k]))
      && (forall i :: 0 <= i < k ==> dots[i] == NaN || Greater(dots[k], dots[i]))
    else k == 0
  }

  /** A product that can win: a number, or positive infinity. */
  predicate Counts(d: Float) {
    d.Finite? || d.PosInf?
  }

  /**
    The same in terms of the numbers: no finite product is above the winner's, an infinite one is matched only
    by another, equal products go to the lowest id, and with nothing that counts the id is 0.
  */
  lemma RoutesInReals(dots: seq<Float>, k: nat)
    requires Routes(dots, k)
    ensures forall i :: 0 <= i < |dots| && dots[i].Finite? ==>
              k < |dots| && (dots[k].PosInf? || (dots[k].Finite? && dots[i].value <= dots[k].value))
    ensures forall i :: 0 <= i < |dots| && dots[i].PosInf? ==> k < |dots| && dots[k].PosInf?
    ensures forall i :: 0 <= i < |dots| && Counts(dots[i]) && dots[i] == dots[k] ==> k <= i
    ensures (forall i :: 0 <= i < |dots| ==> !Counts(dots[i])) ==> k == 0
  {
    if i :| 0 <= i < |dots| && Counts(dots[i]) {
      assert Greater(dots[i], NegInf);
    }
  }

  /** There is at most one such cluster. */
  lemma RoutesUnique(dots: seq<Float>, j: nat, k: nat)
    requires Routes(dots, j) && Routes(dots, k)
    ensures j == k
  {
  }

  /** The id is a uint32, so it is the cluster's only modulo 2^32. */
  ghost predicate AssignedTo(mulAdd: MulAdd, cs: CentroidSet, vec: seq<Word>, id: Word) {
    exists k: nat :: Routes(Dots(mulAdd, cs.vectors, vec), k) && id == Truncate(k)
  }

  /** The set and the vector decide the id. */
  lemma AssignedUnique(mulAdd: MulAdd, cs: CentroidSet, vec: seq<Word>, a: Word, b: Word)
    requires AssignedTo(mulAdd, cs, vec, a) && AssignedTo(mulAdd, cs, vec, b)
    ensures a == b
  {
    hide Routes;
    var dots := Dots(mulAdd, cs.vectors, vec);
    var j: nat :| Routes(dots, j) && a == Truncate(j);
    var k: nat :| Routes(dots, k) && b == Truncate(k);
    RoutesUnique(dots, j, k);
  }

  /** The state of the search after the first dots: the best value so far and its id. */
  predicate BestSoFar(dots: seq<Float>, best: Float, id: nat) {
    && Routes(dots, id)
    && (best == NegInf || (id < |dots| && dots[id] == best && Greater(best, NegInf)))
    && (best == NegInf ==> forall i :: 0 <= i < |dots| ==> !Greater(dots[i], NegInf))
  }

  lemma BestStarts()
    ensures BestSoFar([], NegInf, 0)
  {
  }

  lemma BestExtends(dots: seq<Float>, best: Float, id: nat, next: Float)
    requires BestSoFar(dots, best, id)
    ensures if Greater(next, best) then BestSoFar(dots + [next], next, |dots|) else BestSoFar(dots + [next], best, id)
  {
    var all := dots + [next];
    assert forall i :: 0 <= i < |dots| ==> all[i] == dots[i];
    assert all[|dots|] == next;
  }

  /** The search as a fold over the inner products: the best value and its cluster. */
  function BestOf(dots: seq<Float>): (Float, nat) {
    if dots == [] then (NegInf, 0)
    else
      var b := BestOf(dots[..|dots| - 1]);
      if Greater(dots[|dots| - 1], b.0) then (dots[|dots| - 1], |dots| - 1) else b
  }

  lemma {:induction false} BestOfIsBest(dots: seq<Float>)
    ensures BestSoFar(dots, BestOf(dots).0, BestOf(dots).1)
  {
    hide BestSoFar, Greater;
    if dots == [] {
      BestStarts();
    } else {
      var front, last := dots[..|dots| - 1], dots[|dots| - 1];
      BestOfIsBest(front);
      BestExtends(front, BestOf(front).0, BestOf(front).1, last);
      assert dots == front + [last];
    }
  }

  /** The id a set gives a vector. */
  function AssignedId(mulAdd: MulAdd, cs: CentroidSet, vec: seq<Word>): Word {
    Truncate(BestOf(Dots(mulAdd, cs.vectors, vec)).1)
  }

  lemma AssignedIdIsAssigned(mulAdd: MulAdd, cs: CentroidSet, vec: seq<Word>)
    ensures AssignedTo(mulAdd, cs, vec, AssignedId(mulAdd, cs, vec))
  {
    hide Routes, Greater, BestOf;
    BestOfIsBest(Dots(mulAdd, cs.vectors, vec));
  }

  method Assign(mulAdd: MulAdd, cs: CentroidSet, vec: seq<Word>) returns (id: Word)
    ensures AssignedTo(mulAdd, cs, vec, id)
    ensures |cs.vectors| <= TWO_32 ==> Routes(Dots(mulAdd, cs.vectors, vec), id)
    ensures 0 < |cs.vectors| <= TWO_32 ==> id < |cs.vectors|
    ensures |cs.vectors| <= TWO_32 ==>
              forall i :: 0 <= i < |cs.vectors| && Dot(mulAdd, cs.vectors[i], vec).Finite? ==>
                var best := Dot(mulAdd, cs.vectors[id], vec);
                best.PosInf? || (best.Finite? && Dot(mulAdd, cs.vectors[i], vec).value <= best.value)
  {
    hide Routes, Greater;
    BestStarts();
    var bestId: Word := 0;
    var best := NegInf;
    ghost var at: nat := 0;
    ghost var dots := Dots(mulAdd, cs.vectors, vec);
    for i := 0 to |cs.vectors|
      invariant BestSoFar(dots[..i], best, at) && bestId == Truncate(at) && (at == 0 || at < i)
    {
      var c := cs.vectors[i];
      var dot := Finite(0.0);
      var j := 0;
      while j < |c| && j < |vec|
        invariant j <= |c| && j <= |vec| && dot == DotUpTo(mulAdd, c, vec, j)
      {
        dot := mulAdd(dot, c[j], vec[j]);
        j := j + 1;
      }
      BestExtends(dots[..i], best, at, dot);
      assert dots[..i + 1] == dots[..i] + [dot];
      if Greater(dot, best) {
        best, bestId, at := dot, Truncate(i), i;
      }
    }
    assert dots[..|cs.vectors|] == dots;
    id := bestId;
    RoutesInReals(dots, at);
  }
}
