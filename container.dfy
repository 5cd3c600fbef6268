/**
 * The file written by `WriteChannels.save`: a six-byte header, then the
 * run-length bytes of every block of channel 0 at full size, then of every
 * block of each further channel at half size rounded up.  The file stream is
 * modelled as the sequence of bytes written to it, in order.
 */
module Container {
  import opened Common
  import opened Chunking
  import opened RunLength

  /** The constant written in the quality slot of the header. */
  const QualityByte: byte := 130

  /** `(short)x` written by a little-endian `BinaryWriter`: the low 16 bits of `x`. */
  function Int16Bytes(x: int): (b: seq<byte>)
    ensures |b| == 2 && b[0] as int + 256 * (b[1] as int) == x % 65536
  {
    var m := x % 65536;
    [m % 256, m / 256]
  }

  /** The six header bytes: width, height, the quality constant, `(byte)samples`. */
  function Header(width: int, height: int, samples: int): (b: seq<byte>)
    ensures |b| == 6
  {
    Int16Bytes(width) + Int16Bytes(height) + [QualityByte, samples % 256]
  }

  /** What `check` reads back. */
  datatype HeaderInfo = HeaderInfo(width: int, height: int, quality: int, samples: int)

  /**
   * `check`: two `ReadUInt16` and two `ReadByte` calls; a file shorter than
   * six bytes makes the reader fail (None).
   */
  function ReadHeader(file: seq<byte>): (r: Option<HeaderInfo>)
    ensures r.Some? <==> |file| >= 6
    ensures r.Some? ==> 0 <= r.value.width < 65536 && 0 <= r.value.height < 65536
    ensures r.Some? ==> 0 <= r.value.quality < 256 && 0 <= r.value.samples < 256
  {
    if |file| < 6 then None
    else Some(HeaderInfo(file[0] as int + 256 * (file[1] as int), file[2] as int + 256 * (file[3] as int), file[4], file[5]))
  }

  /** Reading back a written header gives the fields modulo their widths. */
  lemma HeaderRoundTrip(width: int, height: int, samples: int, rest: seq<byte>)
    ensures ReadHeader(Header(width, height, samples) + rest)
         == Some(HeaderInfo(width % 65536, height % 65536, QualityByte, samples % 256))
  {
    var f := Header(width, height, samples) + rest;
    assert f[..2] == Int16Bytes(width);
    assert f[2..4] == Int16Bytes(height);
  }

  /**
   * C#'s `/` on `int`, which truncates toward zero: `q * b` is the multiple
   * of `b` nearest to `a` on the side of zero, and the quotient has the
   * sign of `a`.
   */
  function DivTrunc(a: int, b: int): (q: int)
    requires b > 0
    ensures a >= 0 ==> 0 <= q && q * b <= a < q * b + b
    ensures a < 0 ==> q <= 0 && q * b - b < a <= q * b
  {
    if a >= 0 then DivBounds(a, b); a / b else DivBounds(-a, b); -((-a) / b)
  }

  /** Euclidean division of a non-negative number: the quotient brackets it. */
  lemma DivBounds(n: int, b: int)
    requires n >= 0 && b > 0
    ensures 0 <= n / b && (n / b) * b <= n < (n / b) * b + b
  {
    assert n == (n / b) * b + n % b;
  }

  /** `(x + 1) / 2`: the chroma plane dimension for a luma dimension `x`. */
  function HalfUp(x: int): (r: int)
    ensures x >= 0 ==> r == (x + 1) / 2 && x <= 2 * r <= x + 1
  {
    DivTrunc(x + 1, 2)
  }

  /** The bytes of the first `n` blocks of one plane, in block-index order. */
  function PlaneBytes(c: Chunker, order: seq<int>, plane: seq<byte>, w: int, h: int, n: nat): seq<byte>
    requires IsScanOrder(order)
  {
    if n == 0 then []
    else PlaneBytes(c, order, plane, w, h, n - 1)
         + EncodedChunk(ScanValues(c.getBlock(plane, w, h, n - 1), order))
  }

  /** The values those bytes stand for: each block's samples in scan order. */
  function PlaneValues(c: Chunker, order: seq<int>, plane: seq<byte>, w: int, h: int, n: nat): seq<byte>
    requires IsScanOrder(order)
  {
    if n == 0 then []
    else PlaneValues(c, order, plane, w, h, n - 1) + ScanValues(c.getBlock(plane, w, h, n - 1), order)
  }

  /** The bytes of all blocks of each plane in `planes`, plane after plane. */
  function PlanesBytes(c: Chunker, order: seq<int>, planes: seq<seq<byte>>, w: int, h: int): seq<byte>
    requires IsScanOrder(order)
  {
    if planes == [] then []
    else PlanesBytes(c, order, planes[..|planes| - 1], w, h)
         + PlaneBytes(c, order, planes[|planes| - 1], w, h, c.numChunks(w, h))
  }

  function PlanesValues(c: Chunker, order: seq<int>, planes: seq<seq<byte>>, w: int, h: int): seq<byte>
    requires IsScanOrder(order)
  {
    if planes == [] then []
    else PlanesValues(c, order, planes[..|planes| - 1], w, h)
         + PlaneValues(c, order, planes[|planes| - 1], w, h, c.numChunks(w, h))
  }

  /** Channel 0, or nothing when there is none (then no block of it is ever read). */
  function Luma(channels: seq<seq<byte>>): seq<byte>
  {
    if |channels| > 0 then channels[0] else []
  }

  function Chroma(channels: seq<seq<byte>>): seq<seq<byte>>
  {
    if |channels| > 1 then channels[1..] else []
  }

  /** The whole file `save` writes when it completes. */
  function SaveBytes(c: Chunker, order: seq<int>, width: int, height: int, samples: int,
                     channels: seq<seq<byte>>): seq<byte>
    requires IsScanOrder(order)
  {
    Header(width, height, samples)
    + PlaneBytes(c, order, Luma(channels), width, height, c.numChunks(width, height))
    + PlanesBytes(c, order, Chroma(channels), HalfUp(width), HalfUp(height))
  }

  /** All sample values of the file, in the order they are written. */
  function SaveValues(c: Chunker, order: seq<int>, width: int, height: int, channels: seq<seq<byte>>): seq<byte>
    requires IsScanOrder(order)
  {
    PlaneValues(c, order, Luma(channels), width, height, c.numChunks(width, height))
    + PlanesValues(c, order, Chroma(channels), HalfUp(width), HalfUp(height))
  }

  // ---------------------------------------------------------------------
  // What the file holds

  /** The bytes of a plane's blocks decode to the values of its blocks, in order. */
  lemma {:induction false} DecodePlane(c: Chunker, order: seq<int>, plane: seq<byte>, w: int, h: int, n: nat, t: seq<byte>)
    requires IsScanOrder(order)
    ensures Decode(PlaneBytes(c, order, plane, w, h, n) + t) == Prepend(PlaneValues(c, order, plane, w, h, n), Decode(t))
  {
    if n == 0 {
      GlueNothing(t);
    } else {
      var vals := ScanValues(c.getBlock(plane, w, h, n - 1), order);
      var chunk := EncodedChunk(vals);
      assert PlaneBytes(c, order, plane, w, h, n) == PlaneBytes(c, order, plane, w, h, n - 1) + chunk;
      assert PlaneValues(c, order, plane, w, h, n) == PlaneValues(c, order, plane, w, h, n - 1) + vals;
      DecodePlane(c, order, plane, w, h, n - 1, chunk + t);
      DecodeChunk(vals, t);
      Glue(PlaneBytes(c, order, plane, w, h, n - 1), chunk, t, PlaneValues(c, order, plane, w, h, n - 1), vals);
    }
  }

  lemma {:induction false} DecodePlanes(c: Chunker, order: seq<int>, planes: seq<seq<byte>>, w: int, h: int, t: seq<byte>)
    requires IsScanOrder(order)
    ensures Decode(PlanesBytes(c, order, planes, w, h) + t) == Prepend(PlanesValues(c, order, planes, w, h), Decode(t))
  {
    if planes == [] {
      GlueNothing(t);
    } else {
      var init, last := planes[..|planes| - 1], planes[|planes| - 1];
      var n := c.numChunks(w, h);
      var tail := PlaneBytes(c, order, last, w, h, n);
      DecodePlanes(c, order, init, w, h, tail + t);
      DecodePlane(c, order, last, w, h, n, t);
      Glue(PlanesBytes(c, order, init, w, h), tail, t, PlanesValues(c, order, init, w, h), PlaneValues(c, order, last, w, h, n));
    }
  }

  lemma {:induction false} PlaneValuesLength(c: Chunker, order: seq<int>, plane: seq<byte>, w: int, h: int, n: nat)
    requires IsScanOrder(order)
    ensures |PlaneValues(c, order, plane, w, h, n)| == BlockLength * n
  {
    if n > 0 { PlaneValuesLength(c, order, plane, w, h, n - 1); }
  }

  lemma {:induction false} PlanesValuesLength(c: Chunker, order: seq<int>, planes: seq<seq<byte>>, w: int, h: int)
    requires IsScanOrder(order)
    ensures |PlanesValues(c, order, planes, w, h)| == BlockLength * c.numChunks(w, h) * |planes|
  {
    if planes != [] {
      var init := planes[..|planes| - 1];
      var n := c.numChunks(w, h);
      PlanesValuesLength(c, order, init, w, h);
      PlaneValuesLength(c, order, planes[|planes| - 1], w, h, n);
      assert BlockLength * n * |init| + BlockLength * n == BlockLength * n * (|init| + 1);
    }
  }

  /**
   * A completed file starts with the header `check` expects, and the rest of
   * it decodes, with no delimiters, into every block's values: the blocks of
   * channel 0 first, then those of each further channel, 64 values per block.
   */
  lemma SaveDecodes(c: Chunker, order: seq<int>, width: int, height: int, samples: int, channels: seq<seq<byte>>)
    requires IsScanOrder(order)
    ensures ReadHeader(SaveBytes(c, order, width, height, samples, channels))
         == Some(HeaderInfo(width % 65536, height % 65536, QualityByte, samples % 256))
    ensures Decode(SaveBytes(c, order, width, height, samples, channels)[6..])
         == Some(SaveValues(c, order, width, height, channels))
    ensures |SaveValues(c, order, width, height, channels)|
         == BlockLength * c.numChunks(width, height)
            + BlockLength * c.numChunks(HalfUp(width), HalfUp(height)) * |Chroma(channels)|
  {
    var luma := PlaneBytes(c, order, Luma(channels), width, height, c.numChunks(width, height));
    var chroma := PlanesBytes(c, order, Chroma(channels), HalfUp(width), HalfUp(height));
    var f := SaveBytes(c, order, width, height, samples, channels);
    assert f == Header(width, height, samples) + (luma + chroma);
    HeaderRoundTrip(width, height, samples, luma + chroma);
    assert f[6..] == luma + chroma;
    DecodeBody(c, order, width, height, channels);
    PlaneValuesLength(c, order, Luma(channels), width, height, c.numChunks(width, height));
    PlanesValuesLength(c, order, Chroma(channels), HalfUp(width), HalfUp(height));
  }

  lemma DecodeBody(c: Chunker, order: seq<int>, width: int, height: int, channels: seq<seq<byte>>)
    requires IsScanOrder(order)
    ensures Decode(PlaneBytes(c, order, Luma(channels), width, height, c.numChunks(width, height))
                   + PlanesBytes(c, order, Chroma(channels), HalfUp(width), HalfUp(height)))
         == Some(SaveValues(c, order, width, height, channels))
  {
    var chroma := PlanesBytes(c, order, Chroma(channels), HalfUp(width), HalfUp(height));
    var cv := PlanesValues(c, order, Chroma(channels), HalfUp(width), HalfUp(height));
    DecodePlanes(c, order, Chroma(channels), HalfUp(width), HalfUp(height), []);
    assert chroma + [] == chroma;
    assert Decode([]) == Some([]);
    assert cv + [] == cv;
    DecodePlane(c, order, Luma(channels), width, height, c.numChunks(width, height), chroma);
  }

  /** Only the header depends on the sampling mode; the block data never does. */
  lemma SamplingModeOnlyInHeader(c: Chunker, order: seq<int>, width: int, height: int, s1: int, s2: int,
                                 channels: seq<seq<byte>>)
    requires IsScanOrder(order)
    ensures SaveBytes(c, order, width, height, s1, channels)[6..] == SaveBytes(c, order, width, height, s2, channels)[6..]
  {
  }

  // ---------------------------------------------------------------------
  // The encoder

  lemma PlanesBytesSnoc(c: Chunker, order: seq<int>, planes: seq<seq<byte>>, p: seq<byte>, w: int, h: int)
    requires IsScanOrder(order)
    ensures PlanesBytes(c, order, planes + [p], w, h)
         == PlanesBytes(c, order, planes, w, h) + PlaneBytes(c, order, p, w, h, c.numChunks(w, h))
  {
    assert (planes + [p])[..|planes|] == planes;
  }

  /** The block loop of `save` for one plane: every block, in index order. */
  method WritePlane(c: Chunker, order: seq<int>, plane: seq<byte>, w: int, h: int) returns (bytes: seq<byte>)
    requires IsScanOrder(order)
    ensures bytes == PlaneBytes(c, order, plane, w, h, c.numChunks(w, h))
  {
    bytes := [];
    for i := 0 to c.numChunks(w, h)
      invariant bytes == PlaneBytes(c, order, plane, w, h, i)
    {
      var data := c.getBlock(plane, w, h, i);
      var chunk := WriteChunk(data, order);
      bytes := bytes + chunk;
    }
  }

  /** The channel loop of `save`: every plane of `planes`, each at `w` x `h`. */
  method WritePlanes(c: Chunker, order: seq<int>, planes: seq<seq<byte>>, w: int, h: int) returns (bytes: seq<byte>)
    requires IsScanOrder(order)
    ensures bytes == PlanesBytes(c, order, planes, w, h)
  {
    bytes := [];
    for k := 0 to |planes|
      invariant bytes == PlanesBytes(c, order, planes[..k], w, h)
    {
      var plane := WritePlane(c, order, planes[k], w, h);
      assert planes[..k + 1] == planes[..k] + [planes[k]];
      PlanesBytesSnoc(c, order, planes[..k], planes[k], w, h);
      bytes := bytes + plane;
    }
    assert planes[..|planes|] == planes;
  }

  /**
   * `save`, from the header on.  The block reader is `c`, the scan order is
   * `zigZag8Index()`.  With no channel at all, the first read of channel 0
   * fails once the header is written (`completed` is false); a file that is
   * written to completion is `SaveBytes`.
   */
  method Save(c: Chunker, order: seq<int>, width: int, height: int, samples: int,
              channels: seq<seq<byte>>) returns (file: seq<byte>, completed: bool)
    requires IsScanOrder(order)
    ensures completed <==> |channels| > 0 || c.numChunks(width, height) == 0
    ensures completed ==> file == SaveBytes(c, order, width, height, samples, channels)
    ensures !completed ==> file == Header(width, height, samples)
  {
    file := Header(width, height, samples);
    if |channels| == 0 && c.numChunks(width, height) > 0 {
      // reading block 0 of channels[0] is out of range: only the header was written
      completed := false;
      return;
    }
    var luma := WritePlane(c, order, Luma(channels), width, height);
    file := file + luma;

    var chroma := WritePlanes(c, order, Chroma(channels), HalfUp(width), HalfUp(height));
    file := file + chroma;
    completed := true;
  }

  // ---------------------------------------------------------------------
  // The output path

  /** `s.LastIndexOf(c)`: the last position of `c` in `s`, or -1. */
  function LastIndexOf(s: string, c: char): (r: int)
    ensures -1 <= r < |s|
    ensures r >= 0 ==> s[r] == c
    ensures forall k :: r < k < |s| ==> s[k] != c
  {
    if s == [] then -1
    else if s[|s| - 1] == c then |s| - 1
    else LastIndexOf(s[..|s| - 1], c)
  }

  /**
   * The text `setPath` shows beside the node: what follows the last
   * backslash, or the whole path when it has none.  `LastIndexOf(...) + 1`
   * is never -1, so the fallback to 0 in the source is never taken: the
   * caption always starts just after the last backslash.
   */
  function FileName(path: string): (r: string)
    ensures |r| <= |path| && r == path[|path| - |r|..]
    ensures forall k :: 0 <= k < |r| ==> r[k] != '\\'
    ensures |r| < |path| ==> path[|path| - |r| - 1] == '\\'
    ensures LastIndexOf(path, '\\') + 1 >= 0 && r == path[LastIndexOf(path, '\\') + 1..]
  {
    var lastSlash := LastIndexOf(path, '\\') + 1;
    var start := if lastSlash == -1 then 0 else lastSlash;
    path[start..]
  }

  /** The path-related state of a `WriteChannels` node. */
  class WriteChannels {
    var outPath: string
    /** The string held by the node's "path" property. */
    var pathText: string
    /** The node's extra caption (`setExtra`). */
    var extra: string

    constructor ()
      ensures outPath == pathText == "C:\\temp\\testfile.dct"
      ensures extra == "testfile.dct"
    {
      new;
      SetPath("C:\\temp\\testfile.dct");
      FileNameOfDefault();
    }

    method SetPath(path: string)
      modifies this
      ensures outPath == path && pathText == path
      ensures extra == FileName(path)
    {
      outPath := path;
      pathText := path;
      extra := FileName(path);
    }
  }

  lemma FileNameOfDefault()
    ensures FileName("C:\\temp\\testfile.dct") == "testfile.dct"
  {
    var p := "C:\\temp\\testfile.dct";
    assert p[7] == '\\';
    assert LastIndexOf(p, '\\') == 7;
  }
}
