/**
 * The `DCT` node: for every 8x8 block of each plane, the forward transform
 * followed by quantization (`doDCT`) or dequantization followed by the
 * inverse transform (`doIDCT`), written back in place.
 *
 * The arithmetic of the transforms is carried out on `real`s, and the three
 * floating-point operations the program uses (the cosine basis, 1/sqrt(2)
 * and the `(byte)` conversion) are parameters: nothing here depends on
 * their values except where a lemma says so.
 */
module Dct {
  import opened Common
  import opened Chunking
  import opened Blobs
  import opened Nodes
  import Container

  // ---------------------------------------------------------------------
  // Quantization tables

  /** An 8x8 table whose every entry is at least 10, so a usable divisor. */
  predicate IsTable(q: seq<seq<byte>>)
  {
    |q| == ChunkSize &&
    forall r :: 0 <= r < ChunkSize ==> |q[r]| == ChunkSize && forall c :: 0 <= c < ChunkSize ==> q[r][c] >= 10
  }

  type Table = q: seq<seq<byte>> | IsTable(q) witness seq(8, _ => seq(8, _ => 10))

  /** The luminance table: Table K.1 of ITU-T T.81 (JPEG), Annex K. */
  const QuantizationY: seq<seq<byte>> := [
    [16, 11, 10, 16, 24, 40, 51, 61],
    [12, 12, 14, 19, 26, 58, 60, 55],
    [14, 13, 16, 24, 40, 57, 69, 56],
    [14, 17, 22, 29, 51, 87, 80, 62],
    [18, 22, 37, 56, 68, 109, 103, 77],
    [24, 35, 55, 64, 81, 104, 113, 92],
    [49, 64, 78, 87, 103, 121, 120, 101],
    [72, 92, 95, 98, 112, 100, 103, 99]]

  /** The chrominance table: Table K.2 of ITU-T T.81 (JPEG), Annex K. */
  const QuantizationC: seq<seq<byte>> := [
    [17, 18, 24, 47, 99, 99, 99, 99],
    [18, 21, 26, 66, 99, 99, 99, 99],
    [24, 26, 56, 99, 99, 99, 99, 99],
    [47, 66, 99, 99, 99, 99, 99, 99],
    [99, 99, 99, 99, 99, 99, 99, 99],
    [99, 99, 99, 99, 99, 99, 99, 99],
    [99, 99, 99, 99, 99, 99, 99, 99],
    [99, 99, 99, 99, 99, 99, 99, 99]]

  /** Both tables are 8x8 with no entry below 10: the division in `doDCT` never divides by zero. */
  lemma TablesAreTables()
    ensures IsTable(QuantizationY) && IsTable(QuantizationC)
  {
    forall r | 0 <= r < ChunkSize
      ensures |QuantizationY[r]| == ChunkSize && forall c :: 0 <= c < ChunkSize ==> QuantizationY[r][c] >= 10
      ensures |QuantizationC[r]| == ChunkSize && forall c :: 0 <= c < ChunkSize ==> QuantizationC[r][c] >= 10
    {
    }
  }

  // ---------------------------------------------------------------------
  // The transforms

  /**
   * `basis(x, k)` : `Math.Cos(((2 * x + 1) * k * Math.PI) / 16)`;
   * `invSqrt2`    : `1 / Math.Sqrt(2)`;
   * `toByte(d)`   : the conversion `(byte)d`.
   */
  datatype Float = Float(basis: (int, int) -> real, invSqrt2: real, toByte: real -> byte)

  /** The normalisation factor of frequency `k`. */
  function Scale(f: Float, k: int): real
  {
    if k == 0 then f.invSqrt2 else 1.0
  }

  /**
   * The last two steps of `doDCT` for output `(v, u)`: the sum times the
   * two scales over `8 / 2`, then divided by the table entry.
   */
  function Normalised(f: Float, sum: real, q: Table, u: int, v: int): real
    requires 0 <= u < ChunkSize && 0 <= v < ChunkSize
  {
    var bin := sum * (Scale(f, u) * Scale(f, v) / 4.0);
    bin / (q[v][u] as real)
  }

  /**
   * The term that sample `(j, i)` of block `b` adds to output `(v, u)`:
   * for `doDCT` the plain product, for `doIDCT` the dequantized and
   * normalised one.
   */
  function Term(inverse: bool, f: Float, b: seq<byte>, q: Table, u: int, v: int, j: int, i: int): real
    requires 0 <= j < ChunkSize && 0 <= i < ChunkSize && |b| >= BlockLength
  {
    var t := f.basis(i, u) * f.basis(j, v) * (b[j * ChunkSize + i] as real);
    if inverse then t * (q[j][i] as real) * Scale(f, i) * Scale(f, j) / 4.0 else t
  }

  /** The terms of row `j`, columns `0` to `n - 1`, added in the order of the innermost loop. */
  function RowSum(inverse: bool, f: Float, b: seq<byte>, q: Table, u: int, v: int, j: int, n: nat): real
    requires 0 <= j < ChunkSize && n <= ChunkSize && |b| >= BlockLength
  {
    if n == 0 then 0.0 else RowSum(inverse, f, b, q, u, v, j, n - 1) + Term(inverse, f, b, q, u, v, j, n - 1)
  }

  /** The terms of rows `0` to `m - 1`. */
  function GridSum(inverse: bool, f: Float, b: seq<byte>, q: Table, u: int, v: int, m: nat): real
    requires m <= ChunkSize && |b| >= BlockLength
  {
    if m == 0 then 0.0 else GridSum(inverse, f, b, q, u, v, m - 1) + RowSum(inverse, f, b, q, u, v, m - 1, ChunkSize)
  }

  /** Output `(v, u)` of `doDCT`: the sum, normalised, then divided by the table entry. */
  function DctValue(f: Float, b: seq<byte>, q: Table, u: int, v: int): byte
    requires 0 <= u < ChunkSize && 0 <= v < ChunkSize && |b| >= BlockLength
  {
    f.toByte(Normalised(f, GridSum(false, f, b, q, u, v, ChunkSize), q, u, v))
  }

  /** Output `(v, u)` of `doIDCT`. */
  function IdctValue(f: Float, b: seq<byte>, q: Table, u: int, v: int): byte
    requires |b| >= BlockLength
  {
    f.toByte(GridSum(true, f, b, q, u, v, ChunkSize))
  }

  /** Output `(v, u)` of the transform chosen by `inverse`. */
  function Value(inverse: bool, f: Float, b: seq<byte>, q: Table, u: int, v: int): byte
    requires 0 <= u < ChunkSize && 0 <= v < ChunkSize && |b| >= BlockLength
  {
    if inverse then IdctValue(f, b, q, u, v) else DctValue(f, b, q, u, v)
  }

  /** Output number `k` of a block, in the layout of `result`: row `k / 8`, column `k % 8`. */
  function At(inverse: bool, f: Float, b: seq<byte>, q: Table, k: int): byte
    requires 0 <= k < BlockLength && |b| >= BlockLength
  {
    Value(inverse, f, b, q, k % ChunkSize, k / ChunkSize)
  }

  /** The block a transform produces: output `(v, u)` at index `v * 8 + u`. */
  function Transformed(inverse: bool, f: Float, b: Block, q: Table): (r: Block)
    ensures forall v, u :: 0 <= v < ChunkSize && 0 <= u < ChunkSize ==> r[v * ChunkSize + u] == Value(inverse, f, b, q, u, v)
  {
    seq(BlockLength, k requires 0 <= k < BlockLength => Value(inverse, f, b, q, k % ChunkSize, k / ChunkSize))
  }

  /**
   * The two inner loops of `doDCT` and `doIDCT`: accumulate `bin` over the
   * samples of the block, row by row.
   */
  method Accumulate(inverse: bool, f: Float, data: seq<byte>, q: Table, u: int, v: int) returns (bin: real)
    requires |data| >= BlockLength
    ensures bin == GridSum(inverse, f, data, q, u, v, ChunkSize)
  {
    bin := 0.0;
    var j := 0;
    while j < ChunkSize
      invariant 0 <= j <= ChunkSize
      invariant bin == GridSum(inverse, f, data, q, u, v, j)
    {
      var i := 0;
      while i < ChunkSize
        invariant 0 <= i <= ChunkSize
        invariant bin == GridSum(inverse, f, data, q, u, v, j) + RowSum(inverse, f, data, q, u, v, j, i)
      {
        bin := bin + Term(inverse, f, data, q, u, v, j, i);
        i := i + 1;
      }
      j := j + 1;
    }
  }

  /**
   * `doDCT`: a new array of the input's length whose index `v * 8 + u` holds
   * output `(v, u)`; each of the 64 indices is written once, the rest stay 0.
   */
  method DoDct(data: seq<byte>, q: Table, f: Float) returns (result: array<byte>)
    requires |data| >= BlockLength
    ensures fresh(result) && result.Length == |data|
    ensures forall k :: 0 <= k < BlockLength ==> result[k] == DctValue(f, data, q, k % ChunkSize, k / ChunkSize)
    ensures forall k :: BlockLength <= k < result.Length ==> result[k] == 0
  {
    result := new byte[|data|](_ => 0);
    var v := 0;
    while v < ChunkSize
      invariant 0 <= v <= ChunkSize
      invariant Filled(result, false, f, data, q, v * ChunkSize)
    {
      var u := 0;
      while u < ChunkSize
        invariant 0 <= u <= ChunkSize
        invariant Filled(result, false, f, data, q, v * ChunkSize + u)
      {
        var bin := Accumulate(false, f, data, q, u, v);
        bin := Normalised(f, bin, q, u, v);
        Put(result, false, f, data, q, v, u, f.toByte(bin));
        u := u + 1;
      }
      v := v + 1;
    }
  }

  /** `doIDCT`, with the same index layout as `doDCT`. */
  method DoIdct(data: seq<byte>, q: Table, f: Float) returns (result: array<byte>)
    requires |data| >= BlockLength
    ensures fresh(result) && result.Length == |data|
    ensures forall k :: 0 <= k < BlockLength ==> result[k] == IdctValue(f, data, q, k % ChunkSize, k / ChunkSize)
    ensures forall k :: BlockLength <= k < result.Length ==> result[k] == 0
  {
    result := new byte[|data|](_ => 0);
    var v := 0;
    while v < ChunkSize
      invariant 0 <= v <= ChunkSize
      invariant Filled(result, true, f, data, q, v * ChunkSize)
    {
      var u := 0;
      while u < ChunkSize
        invariant 0 <= u <= ChunkSize
        invariant Filled(result, true, f, data, q, v * ChunkSize + u)
      {
        var bin := Accumulate(true, f, data, q, u, v);
        Put(result, true, f, data, q, v, u, f.toByte(bin));
        u := u + 1;
      }
      v := v + 1;
    }
  }

  /** The first `n` outputs are in place and the rest of `result` is still 0. */
  ghost predicate Filled(result: array<byte>, inverse: bool, f: Float, data: seq<byte>, q: Table, n: int)
    reads result
  {
    |data| >= BlockLength && result.Length == |data| && 0 <= n <= BlockLength &&
    (forall k :: 0 <= k < n ==> result[k] == At(inverse, f, data, q, k)) &&
    (forall k :: n <= k < result.Length ==> result[k] == 0)
  }

  /** The assignment `result[v * 8 + u] = (byte)bin`, made in index order. */
  method Put(result: array<byte>, inverse: bool, f: Float, data: seq<byte>, q: Table, v: int, u: int, x: byte)
    requires 0 <= v < ChunkSize && 0 <= u < ChunkSize
    requires Filled(result, inverse, f, data, q, v * ChunkSize + u)
    requires x == Value(inverse, f, data, q, u, v)
    modifies result
    ensures Filled(result, inverse, f, data, q, v * ChunkSize + u + 1)
  {
    Layout(v, u);
    result[v * ChunkSize + u] := x;
  }

  /** Index `v * 8 + u` is inside the block and holds row `v`, column `u`. */
  lemma Layout(v: int, u: int)
    requires 0 <= v < ChunkSize && 0 <= u < ChunkSize
    ensures 0 <= v * ChunkSize + u < BlockLength
    ensures (v * ChunkSize + u) % ChunkSize == u && (v * ChunkSize + u) / ChunkSize == v
  {
  }

  // ---------------------------------------------------------------------
  // Blocks of zeros

  lemma {:induction false} RowSumOfZeros(inverse: bool, f: Float, b: seq<byte>, q: Table, u: int, v: int, j: int, n: nat)
    requires 0 <= j < ChunkSize && n <= ChunkSize && |b| >= BlockLength
    requires forall k :: 0 <= k < BlockLength ==> b[k] == 0
    ensures RowSum(inverse, f, b, q, u, v, j, n) == 0.0
  {
    if n > 0 {
      RowSumOfZeros(inverse, f, b, q, u, v, j, n - 1);
      assert b[j * ChunkSize + n - 1] == 0;
    }
  }

  lemma {:induction false} GridSumOfZeros(inverse: bool, f: Float, b: seq<byte>, q: Table, u: int, v: int, m: nat)
    requires m <= ChunkSize && |b| >= BlockLength
    requires forall k :: 0 <= k < BlockLength ==> b[k] == 0
    ensures GridSum(inverse, f, b, q, u, v, m) == 0.0
  {
    if m > 0 {
      GridSumOfZeros(inverse, f, b, q, u, v, m - 1);
      RowSumOfZeros(inverse, f, b, q, u, v, m - 1, ChunkSize);
    }
  }

  /**
   * Every term carries a sample as a factor, so a block of zeros transforms,
   * either way, into `(byte)0.0` everywhere, which is 0 when the conversion
   * maps 0 to 0.
   */
  lemma ZeroBlock(inverse: bool, f: Float, q: Table)
    ensures Transformed(inverse, f, Repeat(0, BlockLength), q) == Repeat(f.toByte(0.0), BlockLength)
    ensures f.toByte(0.0) == 0 ==> Transformed(inverse, f, Repeat(0, BlockLength), q) == Repeat(0, BlockLength)
  {
    var z := Repeat(0, BlockLength);
    forall k | 0 <= k < BlockLength
      ensures Transformed(inverse, f, z, q)[k] == f.toByte(0.0)
    {
      ZeroValue(inverse, f, q, k % ChunkSize, k / ChunkSize);
    }
  }

  /** One output of the transform of a block of zeros. */
  lemma ZeroValue(inverse: bool, f: Float, q: Table, u: int, v: int)
    requires 0 <= u < ChunkSize && 0 <= v < ChunkSize
    ensures Value(inverse, f, Repeat(0, BlockLength), q, u, v) == f.toByte(0.0)
  {
    GridSumOfZeros(inverse, f, Repeat(0, BlockLength), q, u, v, ChunkSize);
    assert Normalised(f, 0.0, q, u, v) == 0.0;
  }

  // ---------------------------------------------------------------------
  // The plane driver

  /**
   * Plane contents after transforming blocks `0` to `n - 1` in index order:
   * each block is read, transformed and written back at the index it was
   * read from.
   */
  function TransformPlane(c: Chunker, p: seq<byte>, w: int, h: int, inverse: bool, q: Table, f: Float, n: nat): (r: seq<byte>)
    requires KeepsLength(c)
    ensures |r| == |p|
  {
    if n == 0 then p
    else
      var p' := TransformPlane(c, p, w, h, inverse, q, f, n - 1);
      c.setBlock(p', w, h, n - 1, Transformed(inverse, f, c.getBlock(p', w, h, n - 1), q))
  }

  /** One round of a loop of `clean`: read block `i`, transform it, write it back. */
  method TransformBlock(c: Chunker, a: array<byte>, w: int, h: int, i: nat, inverse: bool, q: Table, f: Float)
    requires KeepsLength(c)
    modifies a
    ensures a[..] == c.setBlock(old(a[..]), w, h, i, Transformed(inverse, f, c.getBlock(old(a[..]), w, h, i), q))
  {
    var data := c.getBlock(a[..], w, h, i);
    var result;
    if inverse {
      result := DoIdct(data, q, f);
      assert result[..] == Transformed(true, f, data, q);
    } else {
      result := DoDct(data, q, f);
      assert result[..] == Transformed(false, f, data, q);
    }
    Store(a, c.setBlock(a[..], w, h, i, result[..]));
  }

  /** Overwrite the contents of `a` with `s`, as `setBlock` does in place. */
  method Store(a: array<byte>, s: seq<byte>)
    requires |s| == a.Length
    modifies a
    ensures a[..] == s
  {
    forall k | 0 <= k < a.Length {
      a[k] := s[k];
    }
  }

  /** The luma loop of `clean`: every block of a `w` x `h` plane, in index order. */
  method TransformPlaneInPlace(c: Chunker, a: array<byte>, w: int, h: int, inverse: bool, q: Table, f: Float)
    requires KeepsLength(c)
    modifies a
    ensures a[..] == TransformPlane(c, old(a[..]), w, h, inverse, q, f, c.numChunks(w, h))
  {
    var i := 0;
    while i < c.numChunks(w, h)
      invariant 0 <= i <= c.numChunks(w, h)
      invariant a[..] == TransformPlane(c, old(a[..]), w, h, inverse, q, f, i)
    {
      TransformBlock(c, a, w, h, i, inverse, q, f);
      i := i + 1;
    }
  }

  /** The chroma loop of `clean`: two planes of the same size, sharing the block index. */
  method TransformPlanesInPlace(c: Chunker, a1: array<byte>, a2: array<byte>, w: int, h: int, inverse: bool, q: Table, f: Float)
    requires KeepsLength(c) && a1 != a2
    modifies a1, a2
    ensures a1[..] == TransformPlane(c, old(a1[..]), w, h, inverse, q, f, c.numChunks(w, h))
    ensures a2[..] == TransformPlane(c, old(a2[..]), w, h, inverse, q, f, c.numChunks(w, h))
  {
    var i := 0;
    while i < c.numChunks(w, h)
      invariant 0 <= i <= c.numChunks(w, h)
      invariant a1[..] == TransformPlane(c, old(a1[..]), w, h, inverse, q, f, i)
      invariant a2[..] == TransformPlane(c, old(a2[..]), w, h, inverse, q, f, i)
    {
      TransformBlock(c, a1, w, h, i, inverse, q, f);
      TransformBlock(c, a2, w, h, i, inverse, q, f);
      i := i + 1;
    }
  }

  /**
   * The loops of `clean` find every channel they read among `n` channels:
   * channel 0 when the full plane has a block, channels 1 and 2 when the
   * half-size planes have one.
   */
  predicate ChannelsSuffice(n: int, c: Chunker, w: int, h: int)
  {
    (c.numChunks(w, h) > 0 ==> n >= 1) &&
    (c.numChunks(Container.HalfUp(w), Container.HalfUp(h)) > 0 ==> n >= 3)
  }

  /**
   * The channels `clean` leaves for channels `src` of a `w` x `h` image:
   * channel 0 transformed with the luminance table over the full plane,
   * channels 1 and 2 with the chrominance table over planes of half the
   * size, rounded up; further channels as they were.  A loop with no block
   * to visit leaves its channels as they were, present or not.
   */
  function CleanedPlanes(src: seq<seq<byte>>, c: Chunker, f: Float, inverse: bool, w: int, h: int): (r: seq<seq<byte>>)
    requires KeepsLength(c) && ChannelsSuffice(|src|, c, w, h)
  {
    var cw, ch := Container.HalfUp(w), Container.HalfUp(h);
    var luma := if |src| >= 1 then src[0 := TransformPlane(c, src[0], w, h, inverse, QuantizationY, f, c.numChunks(w, h))] else src;
    if |src| >= 3 then
      luma[1 := TransformPlane(c, src[1], cw, ch, inverse, QuantizationC, f, c.numChunks(cw, ch))]
          [2 := TransformPlane(c, src[2], cw, ch, inverse, QuantizationC, f, c.numChunks(cw, ch))]
    else luma
  }

  /** The two loops of `clean`, on the node's own copies of the channels. */
  method TransformChannels(planes: seq<array<byte>>, c: Chunker, w: int, h: int, inverse: bool, f: Float)
    requires KeepsLength(c) && ChannelsSuffice(|planes|, c, w, h)
    requires forall k, l :: 0 <= k < l < |planes| ==> planes[k] != planes[l]
    modifies planes
    ensures Contents(planes) == CleanedPlanes(old(Contents(planes)), c, f, inverse, w, h)
  {
    if |planes| >= 3 {
      TransformThree(planes, c, w, h, inverse, f);
    } else if |planes| >= 1 {
      TransformLumaOnly(planes, c, w, h, inverse, f);
    }
  }

  /** Both loops of `clean`, when channels 0, 1 and 2 exist. */
  method TransformThree(planes: seq<array<byte>>, c: Chunker, w: int, h: int, inverse: bool, f: Float)
    requires KeepsLength(c) && |planes| >= 3
    requires forall k, l :: 0 <= k < l < |planes| ==> planes[k] != planes[l]
    modifies planes[0], planes[1], planes[2]
    ensures Contents(planes) == CleanedPlanes(old(Contents(planes)), c, f, inverse, w, h)
  {
    ghost var before := Contents(planes);
    TransformPlaneInPlace(c, planes[0], w, h, inverse, QuantizationY, f);
    TransformPlanesInPlace(c, planes[1], planes[2], Container.HalfUp(w), Container.HalfUp(h), inverse, QuantizationC, f);
    assert forall k :: 3 <= k < |planes| ==> planes[k][..] == before[k];
  }

  /** The luma loop of `clean`, when the chroma loop has no block and fewer than three channels exist. */
  method TransformLumaOnly(planes: seq<array<byte>>, c: Chunker, w: int, h: int, inverse: bool, f: Float)
    requires KeepsLength(c) && 1 <= |planes| < 3 && ChannelsSuffice(|planes|, c, w, h)
    requires forall k, l :: 0 <= k < l < |planes| ==> planes[k] != planes[l]
    modifies planes[0]
    ensures Contents(planes) == CleanedPlanes(old(Contents(planes)), c, f, inverse, w, h)
  {
    ghost var before := Contents(planes);
    TransformPlaneInPlace(c, planes[0], w, h, inverse, QuantizationY, f);
    assert forall k :: 1 <= k < |planes| ==> planes[k][..] == before[k];
  }

  /** `clean` found nothing to transform. */
  predicate NoSource(upstream: Option<Address>, kind: Option<BlobType>, hasChannels: bool)
  {
    upstream.None? || kind.None? || kind.value != Channels || !hasChannels
  }

  /** The ports a new `DCT` node has, read off what the `Node` constructor promises. */
  lemma DctPorts(ports: seq<string>, isOutput: map<string, bool>,
                 input: map<string, Option<Address>>, output: map<string, set<Address>>)
    requires WellFormed(ports, isOutput, input, output)
    requires ports == ["name"] + ["isInverse", "inChannels", "outChannels"]
    requires forall p :: p in ports ==> isOutput[p] == (p in {"outChannels"} && p != "name")
    requires forall p :: p in ports ==> input[p] == None && output[p] == {}
    ensures ports == ["name", "isInverse", "inChannels", "outChannels"]
    ensures ports[1] == "isInverse" && ports[2] == "inChannels" && ports[3] == "outChannels"
    ensures "inChannels" in input && input["inChannels"] == None
    ensures !isOutput["isInverse"] && !isOutput["inChannels"] && isOutput["outChannels"]
  {
    assert ports[1] == "isInverse" && ports[2] == "inChannels" && ports[3] == "outChannels";
  }

  class DctNode {
    /** The `Node` part of the object. */
    const base: Node
    var channels: Option<seq<array<byte>>>
    var width: int
    var height: int
    var samples: int
    var isInverse: bool

    /**
     * `new DCT()`: a fresh `Node` part with the "isInverse" checkbox of
     * `createProperties` after "name", then the "inChannels" input of
     * `createInputs` and the "outChannels" output of `createOutputs`.
     */
    constructor ()
      ensures fresh(base) && base.Valid() && !base.isDirty
      ensures base.ports == ["name", "isInverse", "inChannels", "outChannels"]
      ensures "inChannels" in base.input && base.input["inChannels"] == None
      ensures !base.isOutput["isInverse"] && !base.isOutput["inChannels"] && base.isOutput["outChannels"]
      ensures channels == None && !isInverse
      ensures width == 0 && height == 0 && samples == 0
    {
      var b := new Node(["isInverse", "inChannels", "outChannels"], {"outChannels"});
      DctPorts(b.ports, b.isOutput, b.input, b.output);
      base := b;
      channels := None;
      width, height, samples := 0, 0, 0;
      isInverse := false;
    }

    /**
     * `setInverse`: record the direction, show it in the caption and soil
     * the node (the checkbox update is user interface).
     */
    method SetInverse(b: bool, ghost g: Graph)
      requires GraphOk(g) && Current(g) && base in g
      modifies this`isInverse, base`extra, g.Keys`isDirty
      ensures isInverse == b
      ensures base.extra == (if b then "(Inverse)" else "")
      ensures Current(g)
      ensures DirtySet(g) == old(DirtySet(g)) + Soiled(g, base)
    {
      ghost var d := DirtySet(g);
      isInverse := b;
      base.SetExtra(if isInverse then "(Inverse)" else "");
      assert DirtySet(g) == d;
      var _ := base.Soil(g);
    }

    /**
     * `clean`.  `dataIn` is what `getData` of the upstream node returns.
     * Without an upstream connection, without data, with data that is not
     * `Channels`, or with null channels, nothing but the dirty flag changes.
     * Otherwise the node keeps fresh copies of the upstream channels and
     * transforms them: channel 0 with the luminance table over the full
     * plane, channels 1 and 2 with the chrominance table over planes of
     * half the size, rounded up; further channels stay as copied.
     */
    method Clean(dataIn: DataBlob?, c: Chunker, f: Float)
      requires "inChannels" in base.input && KeepsLength(c)
      requires dataIn != null && dataIn.kind == Channels && dataIn.channels.Some? ==>
        ChannelsSuffice(|dataIn.channels.value|, c, dataIn.width, dataIn.height)
      modifies base`isDirty, this`channels, this`width, this`height, this`samples
      ensures !base.isDirty
      ensures NoSource(base.input["inChannels"], if dataIn == null then None else Some(dataIn.kind),
                       dataIn != null && dataIn.channels.Some?) ==>
        channels == old(channels) && width == old(width) && height == old(height) && samples == old(samples)
      ensures !NoSource(base.input["inChannels"], if dataIn == null then None else Some(dataIn.kind),
                        dataIn != null && dataIn.channels.Some?) ==>
        dataIn != null && dataIn.channels.Some? && Adopted(Contents(dataIn.channels.value), c, f, dataIn.width, dataIn.height) &&
        samples == dataIn.samplingMode &&
        (forall k :: 0 <= k < |channels.value| ==> fresh(channels.value[k]))
      ensures dataIn != null && dataIn.channels.Some? ==> Contents(dataIn.channels.value) == old(Contents(dataIn.channels.value))
    {
      base.Clean();
      var upstream := base.input["inChannels"];
      if upstream.None? {
        return;
      }
      if dataIn == null {
        return;
      }
      if dataIn.kind == Channels {
        if dataIn.channels.None? {
          return;
        }
        samples := dataIn.samplingMode;
        Adopt(dataIn.channels.value, dataIn.width, dataIn.height, c, f);
      } else {
        return;
      }
    }

    /** Upstream channels with contents `src` have been copied and the copies transformed. */
    ghost predicate Adopted(src: seq<seq<byte>>, c: Chunker, f: Float, w: int, h: int)
      requires KeepsLength(c) && ChannelsSuffice(|src|, c, w, h)
      reads this, if channels.Some? then channels.value else []
    {
      channels.Some? && width == w && height == h &&
      Contents(channels.value) == CleanedPlanes(src, c, f, isInverse, w, h) &&
      (forall k, l :: 0 <= k < l < |channels.value| ==> channels.value[k] != channels.value[l])
    }

    /** The copy and the two loops of `clean`, once the upstream channels are known. */
    method Adopt(src: seq<array<byte>>, w: int, h: int, c: Chunker, f: Float)
      requires KeepsLength(c) && ChannelsSuffice(|src|, c, w, h)
      modifies this`channels, this`width, this`height
      ensures Adopted(old(Contents(src)), c, f, w, h)
      ensures forall k :: 0 <= k < |channels.value| ==> fresh(channels.value[k])
      ensures Contents(src) == old(Contents(src))
    {
      CopyIn(src, w, h);
      TransformChannels(channels.value, c, w, h, isInverse, f);
    }

    /** The copy of `clean`: the node's own arrays with the upstream contents, and the image size. */
    method CopyIn(src: seq<array<byte>>, w: int, h: int)
      modifies this`channels, this`width, this`height
      ensures channels.Some? && width == w && height == h
      ensures Contents(channels.value) == Contents(src)
      ensures forall k :: 0 <= k < |channels.value| ==> fresh(channels.value[k])
      ensures forall k, l :: 0 <= k < l < |channels.value| ==> channels.value[k] != channels.value[l]
    {
      var copies := CopyChannels(src);
      channels := Some(copies);
      width := w;
      height := h;
    }
  }
}
