/**
 * The value passed between nodes (`DataBlob`).  Only the fields the core
 * reads or writes are modelled; a null `channels` array is `None`.
 */
module Blobs {
  import opened Common

  /** `DataBlob.Type`: only the `Channels` case is told apart by the core. */
  datatype BlobType = Channels | OtherType

  /** A preview bitmap; its contents are outside the model. */
  class Bitmap {
  }

  class DataBlob {
    var kind: BlobType
    var channels: Option<seq<array<byte>>>
    var width: int
    var height: int
    var samplingMode: int
    var bmp: Bitmap?

    /** `new DataBlob()`. */
    constructor ()
      ensures kind == OtherType && channels == None && bmp == null
    {
      kind := OtherType;
      channels := None;
      bmp := null;
    }

    /** `clone()`, taken to copy every field into a fresh blob (a shallow copy). */
    method Clone() returns (d: DataBlob)
      ensures fresh(d)
      ensures d.kind == kind && d.channels == channels && d.width == width
      ensures d.height == height && d.samplingMode == samplingMode && d.bmp == bmp
    {
      d := new DataBlob();
      d.kind, d.channels, d.width, d.height := kind, channels, width, height;
      d.samplingMode, d.bmp := samplingMode, bmp;
    }
  }

  /** A fresh array with the same contents as `a` (`(byte[])a.Clone()`). */
  method CloneArray(a: array<byte>) returns (b: array<byte>)
    ensures fresh(b) && b[..] == a[..]
  {
    b := new byte[a.Length](k reads a requires 0 <= k < a.Length => a[k]);
  }

  /** Fresh copies of the channel arrays: one new array per channel, none shared. */
  method CopyChannels(src: seq<array<byte>>) returns (dst: seq<array<byte>>)
    ensures |dst| == |src|
    ensures forall k :: 0 <= k < |dst| ==> fresh(dst[k]) && dst[k][..] == src[k][..]
    ensures forall k, l :: 0 <= k < l < |dst| ==> dst[k] != dst[l]
  {
    dst := [];
    while |dst| < |src|
      invariant |dst| <= |src|
      invariant forall k :: 0 <= k < |dst| ==> fresh(dst[k]) && dst[k][..] == src[k][..]
      invariant forall k, l :: 0 <= k < l < |dst| ==> dst[k] != dst[l]
    {
      var b := CloneArray(src[|dst|]);
      dst := dst + [b];
    }
  }

  /** The contents of each array of `a`. */
  ghost function Contents(a: seq<array<byte>>): (r: seq<seq<byte>>)
    reads a
    ensures |r| == |a| && forall k :: 0 <= k < |a| ==> r[k] == a[k][..]
  {
    seq(|a|, k requires 0 <= k < |a| reads a => a[k][..])
  }
}
