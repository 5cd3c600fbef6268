/**
 * The block partitioner.  Its implementation is not part of this model: a
 * chunker is represented by the three operations the codec calls on it, and
 * the instance `new Chunker(8, w, h, w, 1)` is identified by the plane
 * dimensions `w`, `h` that are passed to each operation.
 */
module Chunking {
  import opened Common

  /** The side of a block and the number of samples in one. */
  const ChunkSize: nat := 8
  const BlockLength: nat := 64

  /** The 64 samples of one 8x8 block, row-major. */
  type Block = b: seq<byte> | |b| == 64 witness seq(64, _ => 0)

  /**
   * `numChunks(w, h)`     : `getNumChunks()` of the chunker for a w x h plane;
   * `getBlock(p, w, h, i)`: the samples of block `i` of plane contents `p`;
   * `setBlock(p, w, h, i, b)`: plane contents after writing block `b` at index `i`.
   */
  datatype Chunker = Chunker(
    numChunks: (int, int) -> nat,
    getBlock: (seq<byte>, int, int, nat) -> Block,
    setBlock: (seq<byte>, int, int, nat, Block) -> seq<byte>)

  /** Writing a block back never changes the size of a plane. */
  ghost predicate KeepsLength(c: Chunker)
  {
    forall p, w, h, i, b :: |c.setBlock(p, w, h, i, b)| == |p|
  }

  /**
   * What the encoder relies on about `zigZag8Index()`: 64 in-block offsets,
   * the first of which is offset 0.
   */
  predicate IsScanOrder(order: seq<int>)
  {
    |order| == BlockLength && order[0] == 0 &&
    forall k :: 0 <= k < |order| ==> 0 <= order[k] < BlockLength
  }

  /** The samples of a block visited in scan order. */
  function ScanValues(b: Block, order: seq<int>): (r: seq<byte>)
    requires IsScanOrder(order)
    ensures |r| == BlockLength && r[0] == b[0]
    ensures forall k :: 0 <= k < |r| ==> r[k] == b[order[k]]
  {
    seq(BlockLength, k requires 0 <= k < BlockLength => b[order[k]])
  }
}
