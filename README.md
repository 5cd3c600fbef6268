# NodeShop codec core in Dafny

NodeShop is a node-based image editor. Nodes are joined port to port into a
dataflow graph. A node recomputes its cached `state` lazily when it is dirty,
and `soil` marks the node dirty and then, port by port, soils the ends of
its leading output ports, stopping at the first port that is not an output.
Because every node's first port is "name", which is not an output, in
practice `soil` marks only the node itself (`Nodes.SoilsOnlyItself`). Its
MpegCompressor part builds a small lossy image codec out of such nodes:

- a `DCT` node transforms every 8x8 block of the three planes of an image,
  quantizing with the example tables of ITU-T T.81 (JPEG), Annex K;
- a `WriteChannels` node writes the planes to a file: a six-byte header,
  then every block in zig-zag order, run-length encoded with the escape byte
  128.

This project models four parts of it and proves what each promises:

- `rle.dfy` and `container.dfy` model `WriteChannels`:
  - how `save` encodes one block (`RunLength.WriteChunk`);
  - the whole file `save` writes (`Container.Save`);
  - the header as `check` reads it back;
  - the file name `setPath` shows.

  These files prove that:
  - every run is written in the right one of its three forms;
  - a literal byte is never 128;
  - the file decodes back, with no delimiters, into every block's values in
    the order they were written;
  - the header reads back as width and height modulo 65536, the constant
    130 and the sampling mode.

  They use a reference decoder, `RunLength.Decode`, which exists only to state
  these facts. The program has no decoder.
  The run counter is a `byte` in the program and an unbounded count in the
  model. `RunLength.RunBytes` writes it as `count % 256`, the byte it is
  held in. A block's runs never reach 256 (`RunLength.RunsValid`), so that
  byte is the count itself.
- `dct.dfy` models the `DCT` node:
  - the quantization tables;
  - the index layout of `doDCT` and `doIDCT`, whose four nested loops fill
    each of the 64 outputs once;
  - `clean`, which copies the upstream channels and transforms them block by
    block, in place:
    - channel 0 with the luminance table over the full plane;
    - channels 1 and 2 with the chrominance table over planes of half the
      size, rounded up.

  The cosine basis, `1/sqrt(2)` and the `(byte)` conversion are parameters
  (`Dct.Float`). The sums are built on `real`s in the loops' own order.
- `nodes.dfy` models the `Node` class:
  - its ports are `properties` in enumeration order, with each port's
    `isOutput` flag, its single `input` and its set of `output` ends;
  - `connect` with rollback, `disconnect`, `addInput`, `addOutput`,
    `removeInput`, `removeOutput`, `getData` and the base `clean`;
  - `soil`, proved against `Nodes.Soiled`, the set of nodes it marks. Its
    outer loop stops at the first port that is not an output. A ghost `Graph`
    gives every node a rank that decreases along output connections, and that
    rank proves the recursion terminates.
- `channelnode.dfy` models `ChannelNode.clean`:
  - it validates the upstream blob;
  - it deep-copies the blob's channel arrays.

`blobs.dfy` holds `DataBlob`, the value passed between nodes.
`chunking.dfy` holds the interface of the block partitioner `Chunker`;
`Chunker` itself is not part of this model. `common.dfy` holds `byte`,
`Option` and `Repeat`.

Two points of the code fix details that the sampling mode and the class
layout might suggest otherwise:

- The program chunks both chroma planes at `(width+1)/2 x (height+1)/2`,
  whatever the sampling mode. The sampling mode reaches only the header
  byte (`Container.SamplingModeOnlyInHeader`).
- `DCT.cs` reads `inputs["inChannels"]` and adds to `inputs` and `outputs`
  dictionaries, which `Node.cs` does not have. `Node.cs` keeps each port's
  source in `properties[port].input`. The model reads
  `base.input["inChannels"]` and makes "inChannels" and "outChannels" ports
  of the `DCT` node, after "name" and "isInverse".

Because `Node`'s constructor puts the `name` property first, and `name` is
not an output, `soil` on any node built by it never gets past the first port.
It marks only the node itself (`Nodes.SoilsOnlyItself`).

## Model

| member | source | states |
|---|---|---|
| Chunking.ScanValues | MpegCompressor/WriteChannels.cs:102-108 | the 64 samples of a block visited in scan order, the first being sample 0 |
| RunLength.RunBytes | MpegCompressor/WriteChannels.cs:112-121 | the bytes of one flushed run, as both flush sites write them (112-121 and 127-136): one to three bytes, the count written as its byte; their shape is stated by `RunBytesShape` |
| RunLength.RunBytesShape | MpegCompressor/WriteChannels.cs:112-121 | a finished run is the triple `[128, count, value]` exactly when the value is 128 or the count is at least 3; otherwise it is the value once or twice, and none of those literal bytes is 128 |
| RunLength.DecodeRun | MpegCompressor/WriteChannels.cs:127-136 | the bytes of any flushed run, followed by any stream, decode to the run's values followed by that stream's decoding |
| RunLength.RunsShape | MpegCompressor/WriteChannels.cs:105-125 | the runs the `prev`/`count` pair builds expand back to exactly the scanned values; each count is between 1 and the number of values; neighbouring runs hold different values; the last run holds the last value |
| RunLength.RunsValid | MpegCompressor/WriteChannels.cs:105-110 | for a block (fewer than 256 values) every run count fits the count byte, so the byte written is the count itself |
| RunLength.RunsNewValue | MpegCompressor/WriteChannels.cs:111-124 | a value that differs from `prev` closes the open run and opens one of count 1 |
| RunLength.RunsSameValue | MpegCompressor/WriteChannels.cs:109-110 | a value equal to `prev` lengthens the open run by one |
| RunLength.RunsUnique | MpegCompressor/WriteChannels.cs:109-124 | the encoder's runs are the only decomposition into non-empty, maximal runs |
| RunLength.DecodeEncodeRuns | MpegCompressor/WriteChannels.cs:112-136 | a sequence of flushed runs followed by any stream decodes to the runs' values followed by the rest |
| RunLength.EncodedChunk | MpegCompressor/WriteChannels.cs:105-136 | defines the bytes of one block as its runs flushed in order; `WriteChunk` is proved to write them and `ChunkRoundTrip` to decode them back |
| RunLength.ChunkRoundTrip | MpegCompressor/WriteChannels.cs:105-136 | the bytes written for one block decode back to exactly its scanned values |
| RunLength.EncodedChunkInjective | MpegCompressor/WriteChannels.cs:105-136 | two blocks with different scanned values are written differently |
| RunLength.WriteChunk | MpegCompressor/WriteChannels.cs:104-136 | the per-block loop, both flush sites included, writes exactly `EncodedChunk` of the block's scanned values |
| Container.Int16Bytes | MpegCompressor/WriteChannels.cs:96-97 | `(short)x` goes out as two bytes, low byte first, whose value is `x` modulo 65536 |
| Container.Header | MpegCompressor/WriteChannels.cs:96-99 | the header is exactly six bytes |
| Container.ReadHeader | MpegCompressor/WriteChannels.cs:51-54 | the read-back succeeds exactly when the file has at least six bytes; width and height are below 65536, quality and samples below 256 |
| Container.HeaderRoundTrip | MpegCompressor/WriteChannels.cs:96-99 | reading back a written header, whatever follows it, gives width and height modulo 65536, the constant 130 and the sampling mode modulo 256 |
| Container.DivTrunc | MpegCompressor/WriteChannels.cs:139 | C# integer division, which truncates toward zero |
| Container.HalfUp | MpegCompressor/WriteChannels.cs:139 | the chroma dimension `(x + 1) / 2`, which is at least half of `x` and at most half of `x + 1` |
| RunLength.DecodeChunk | MpegCompressor/WriteChannels.cs:104-136 | one block's bytes, followed by any stream, decode to its values followed by the rest |
| Container.DecodePlane | MpegCompressor/WriteChannels.cs:103-137 | the blocks of one plane, written in index order, decode to their values in that order |
| Container.DecodePlanes | MpegCompressor/WriteChannels.cs:141-177 | channels written one after another decode to their values, channel after channel |
| Container.PlaneValuesLength | MpegCompressor/WriteChannels.cs:103-107 | a plane of `n` blocks stands for exactly 64 `n` values |
| Container.PlanesValuesLength | MpegCompressor/WriteChannels.cs:141-146 | the chroma channels stand for 64 values per block per channel |
| Container.SaveDecodes | MpegCompressor/WriteChannels.cs:93-179 | a completed file starts with the header `check` expects, and the rest decodes, with no delimiters, into the values of every block: channel 0 at full size first, then each further channel at half size rounded up, 64 values per block |
| Container.SamplingModeOnlyInHeader | MpegCompressor/WriteChannels.cs:139-142 | the bytes after the header do not depend on the sampling mode |
| Container.WritePlane | MpegCompressor/WriteChannels.cs:101-137 | the block loop writes the encoded blocks of a plane in index order |
| Container.WritePlanes | MpegCompressor/WriteChannels.cs:139-177 | the channel loop writes channel 1, channel 2 and any further channel, in order, each at half size rounded up |
| Container.Save | MpegCompressor/WriteChannels.cs:93-179 | `save` completes unless there is no channel 0 to read a block from; then only the header was written; a completed file is the header followed by every block's bytes in the fixed order |
| Container.LastIndexOf | MpegCompressor/WriteChannels.cs:186 | the position of the last backslash, or -1 when there is none |
| Container.FileName | MpegCompressor/WriteChannels.cs:186-189 | the caption is a suffix of the path with no backslash in it, preceded in the path by a backslash unless it is the whole path |
| Container.WriteChannels.SetPath | MpegCompressor/WriteChannels.cs:182-190 | the output path and the "path" property become `path`, and the caption its file name |
| Container.WriteChannels.constructor | MpegCompressor/WriteChannels.cs:14-16 | a new node writes to `C:\temp\testfile.dct` and shows `testfile.dct` |
| Container.FileNameOfDefault | MpegCompressor/WriteChannels.cs:15 | the file name of the default path is `testfile.dct` |
| Dct.TablesAreTables | MpegCompressor/DCT.cs:18-43 | both quantization tables are 8x8 with no entry below 10, so the division in `doDCT` never divides by zero |
| Dct.Term | MpegCompressor/DCT.cs:149-152 | defines the summand of sample `(j, i)`: the two basis values times the sample, and for `doIDCT` also the table entry and the two scales over `8 / 2` (also 169-171) |
| Dct.Normalised | MpegCompressor/DCT.cs:174-175 | defines the last two steps of `doDCT`: the sum times the two scales over `8 / 2`, divided by the table entry |
| Dct.DctValue | MpegCompressor/DCT.cs:164-176 | defines output `(v, u)` of `doDCT` as `(byte)` of the normalised sum; `DoDct` is proved to write it |
| Dct.IdctValue | MpegCompressor/DCT.cs:144-155 | defines output `(v, u)` of `doIDCT` as `(byte)` of the sum; `DoIdct` is proved to write it |
| Dct.Transformed | MpegCompressor/DCT.cs:164-177 | a transformed block holds output `(v, u)` at index `v * 8 + u` |
| Dct.Accumulate | MpegCompressor/DCT.cs:147-154 | the two inner loops add up every sample's term, row by row, in loop order |
| Dct.DoDct | MpegCompressor/DCT.cs:161-180 | a new array of the input's length; index `v * 8 + u` holds the normalised, quantized sum for `(v, u)`, and the rest stay 0 |
| Dct.DoIdct | MpegCompressor/DCT.cs:141-159 | a new array of the input's length; index `v * 8 + u` holds the dequantized sum for `(v, u)`, and the rest stay 0 |
| Dct.Put | MpegCompressor/DCT.cs:176 | writing output `(v, u)` at `v * 8 + u`, in index order, keeps every earlier output in place and the rest of the array 0 |
| Dct.Layout | MpegCompressor/DCT.cs:155 | `v * 8 + u` is inside the block and names row `v`, column `u`, so each of the 64 indices is written once |
| Dct.RowSumOfZeros | MpegCompressor/DCT.cs:168-172 | a row of zero samples adds nothing |
| Dct.GridSumOfZeros | MpegCompressor/DCT.cs:167-173 | a block of zero samples sums to zero, in either direction |
| Dct.ZeroBlock | MpegCompressor/DCT.cs:149-155 | a block of zeros transforms, either way, into `(byte)0.0` everywhere, so into zeros when the conversion maps 0 to 0 |
| Dct.TransformPlane | MpegCompressor/DCT.cs:121-127 | defines a plane after blocks `0` to `n - 1` were each read, transformed and written back in index order, and keeps the plane's length; the in-place loops are proved to compute it |
| Dct.Store | MpegCompressor/DCT.cs:126 | the write-back of `setBlock`: the array afterwards holds exactly the new plane contents |
| Dct.CleanedPlanes | MpegCompressor/DCT.cs:121-138 | defines the channels `clean` leaves: channel 0 through the luma plane loop, channels 1 and 2 through the chroma loop over half-size planes, the rest as copied; a loop with no block leaves its channels, present or not, as they were |
| Dct.TransformBlock | MpegCompressor/DCT.cs:124-126 | block `i` is read, transformed in the direction `isInverse` chooses, and written back at index `i` |
| Dct.TransformPlaneInPlace | MpegCompressor/DCT.cs:121-127 | the luma loop transforms every block of the plane in index order, in place |
| Dct.TransformPlanesInPlace | MpegCompressor/DCT.cs:130-138 | the chroma loop transforms block `i` of channel 1 and then block `i` of channel 2, for every `i`, in place |
| Dct.TransformChannels | MpegCompressor/DCT.cs:121-138 | channel 0 is transformed with the luminance table over `width x height`; channels 1 and 2 with the chrominance table over the half-size planes; other channels are untouched; with fewer than three channels, which `ChannelsSuffice` allows only when the half-size planes have no block, only the luma loop runs |
| Dct.DctNode.constructor | MpegCompressor/DCT.cs:45-62 | a new node has a fresh, clean `Node` part with the ports "name", "isInverse", the unconnected input "inChannels" and the output "outChannels"; it holds no channels and is forward |
| Dct.DctNode.SetInverse | MpegCompressor/DCT.cs:64-69 | the direction becomes `b`, the caption `(Inverse)` or empty, and the node is soiled with everything `soil` reaches |
| Dct.DctNode.Clean | MpegCompressor/DCT.cs:91-139 | the node is clean afterwards; it keeps its old channels without an upstream connection, without data, with data that is not `Channels`, or with null channels; otherwise it holds fresh, distinct copies of the upstream channels, transformed plane by plane, with the upstream size and sampling mode; the upstream arrays never change |
| Dct.DctNode.Adopt | MpegCompressor/DCT.cs:109-138 | the upstream channels are cloned into fresh, distinct arrays, and only the clones are transformed |
| Dct.DctNode.CopyIn | MpegCompressor/DCT.cs:108-115 | the node's channels become fresh, distinct arrays with the upstream contents, and its size the upstream size |
| ChannelNodes.ChannelNode.constructor | NodeShop/Nodes/ChannelNode.cs:11-20 | a new node has a fresh, clean `Node` part with the ports "name", the unconnected input "inChannels" and the output "outChannels" |
| ChannelNodes.ChannelNode.Clean | NodeShop/Nodes/ChannelNode.cs:22-49 | the node is clean afterwards; without an upstream connection the state is kept; a null result, a blob of another type or a blob without channels leaves the state null; otherwise the state is a fresh clone of the upstream blob, with fresh, distinct channel arrays of the same contents, none shared with upstream, and no bitmap |
| Blobs.DataBlob.constructor | MpegCompressor/nodes/Node.cs:35 | a new blob holds no channels and no bitmap, and its type is not `Channels` (`OtherType`, a choice of the model) |
| Blobs.DataBlob.Clone | NodeShop/Nodes/ChannelNode.cs:40 | a fresh blob with the same fields |
| Blobs.CloneArray | NodeShop/Nodes/ChannelNode.cs:45 | a fresh array with the same contents |
| Blobs.CopyChannels | NodeShop/Nodes/ChannelNode.cs:43-46 | one fresh array per channel, with the same contents, no two the same |
| Nodes.Added | MpegCompressor/nodes/Node.cs:97-99 | adding an end keeps every other port and every connection of the port, and an unknown port changes nothing |
| Nodes.Removed | MpegCompressor/nodes/Node.cs:116-118 | removing an end takes it out of that port only, and an unknown port changes nothing |
| Nodes.RemoveAdded | MpegCompressor/nodes/Node.cs:63-66 | removing an end just added restores the table exactly when the end was not there before |
| Nodes.OutputPrefix | MpegCompressor/nodes/Node.cs:135-138 | the ports before it are all outputs, and the port at it, if any, is not |
| Nodes.OutputPrefixAt | MpegCompressor/nodes/Node.cs:135-138 | the walk of `soil` stops exactly at the first port that is not an output |
| Nodes.Node.constructor | MpegCompressor/nodes/Node.cs:33-42 | the "name" property comes first, is not an output, and every port starts unconnected; the node is clean and holds a new blob |
| Nodes.Node.SetExtra | MpegCompressor/nodes/Node.cs:48-50 | the caption becomes the given text |
| Nodes.Node.Clean | MpegCompressor/nodes/Node.cs:146-148 | the node is no longer dirty |
| Nodes.Node.GetData | MpegCompressor/nodes/Node.cs:122-127 | the cached state is returned and the node is clean afterwards |
| Nodes.Node.AddOutput | MpegCompressor/nodes/Node.cs:94-103 | succeeds exactly for a known port, adding the end and keeping the existing ones |
| Nodes.Node.RemoveOutput | MpegCompressor/nodes/Node.cs:113-120 | removes the end, compared by value, at a known port, and changes nothing for an unknown one |
| Nodes.Node.RemoveInput | MpegCompressor/nodes/Node.cs:105-111 | a known port loses its input, the upstream end stays, and the node is soiled with everything `soil` reaches, whether or not the port exists |
| Nodes.Node.AddInput | MpegCompressor/nodes/Node.cs:77-92 | succeeds exactly for a known port; then the old source, unless it is the new source itself, forgets this end, the new source is installed, and the node is soiled; an unknown port changes nothing |
| Nodes.Node.Connect | MpegCompressor/nodes/Node.cs:62-70 | succeeds exactly when both ports exist; on success both ends are in place, also when the same connection is made again (`Nodes.ConnectMakesBothEnds`), and `to` is soiled; on failure the output end is removed again, which restores the graph whenever that end was not there before |
| Nodes.Node.CompleteConnect | MpegCompressor/nodes/Node.cs:65-68 | once the output end is in place, the input end is made and `to` soiled exactly when `to` has the port; otherwise the output end is removed again and nothing is soiled |
| Nodes.ConnectMakesBothEnds | MpegCompressor/nodes/Node.cs:61-92 | after a successful `connect` the output end is at `from` and `to`'s port is fed by `from`'s port, whatever `to`'s port was fed by before, the same connection included |
| Nodes.Node.ConnectUndone | MpegCompressor/nodes/Node.cs:63-67 | the rollback of a failed `connect` restores `from`'s outputs when the end was new |
| Nodes.Node.Disconnect | MpegCompressor/nodes/Node.cs:72-75 | the output end at `from` goes, then the input of `to`'s port is cleared, and `to` is soiled |
| Nodes.Node.SetInput | MpegCompressor/nodes/Node.cs:86 | an assignment to a port's input, after which the ghost graph with the new input table matches the heap again |
| Nodes.Node.MarkDirty | MpegCompressor/nodes/Node.cs:134 | the first statement of `soil`: the node is dirty, and the dirty set grows by exactly this node |
| Nodes.Node.Soil | MpegCompressor/nodes/Node.cs:133-144 | the nodes marked dirty are exactly `Soiled`: the node itself and, recursively, the ends of its leading output ports; the view event fires exactly when every port is an output |
| Nodes.Walk | MpegCompressor/nodes/Node.cs:135-142 | the port loop stops at the first port that is not an output, having soiled the ends of every port before it |
| Nodes.SoilPort | MpegCompressor/nodes/Node.cs:139-141 | one output port's ends are all soiled |
| Nodes.SoilAll | MpegCompressor/nodes/Node.cs:139-141 | soiling each end of a set of connections marks what each of them reaches |
| Nodes.Cleared | MpegCompressor/nodes/Node.cs:107-109 | a known port's input becomes null, and every other port keeps its own |
| Nodes.ClearOk | MpegCompressor/nodes/Node.cs:105-111 | clearing an input keeps the graph well formed and does not change what `soil` follows |
| Nodes.AttachOk | MpegCompressor/nodes/Node.cs:86 | installing an input from a node of the graph keeps the graph well formed |
| Nodes.DetachOk | MpegCompressor/nodes/Node.cs:81-84 | detaching the old source keeps the graph well formed and changes no input |
| Nodes.LinkOk | MpegCompressor/nodes/Node.cs:99 | a new output end towards a lower-ranked node keeps the graph well formed |
| Nodes.UnlinkOk | MpegCompressor/nodes/Node.cs:118 | removing an output end keeps the graph well formed |
| Nodes.SoiledSameWiring | MpegCompressor/nodes/Node.cs:133-143 | what `soil` marks depends on ports and output ends only, never on inputs |
| Nodes.SoilsOnlyItself | MpegCompressor/nodes/Node.cs:133-138 | a node whose first port is not an output, as every node the constructor builds, soils only itself |
| AddressIdentity.AddRef | MpegCompressor/nodes/Node.cs:99 | `addOutput` adds a newly allocated `Address` object |
| AddressIdentity.RemoveRefIsNoOp | MpegCompressor/nodes/Node.cs:115-118 | removing a freshly built `Address` from a reference-compared set never removes anything |
| AddressIdentity.RollbackLeavesStaleEnd | MpegCompressor/nodes/Node.cs:63-67 | after a failed `connect`, the output set as written still leads to `to` |
| AddressIdentity.RollbackByValue | MpegCompressor/nodes/Node.cs:63-67 | with ends compared by value, the rollback removes the end again |

## Left out

- The values of the cosine basis, of `1/sqrt(2)` and of the `(byte)` conversion of a `double`. These are floating-point functions and are parameters here, and the sums are on `real`s. No error bound is claimed, and double rounding is not modelled.
- `Chunker` (`getNumChunks`, `getBlock`, `setBlock`, `zigZag8Index`) is not part of this model. It is represented by its three operations and the plane dimensions. The zig-zag order is assumed to be 64 offsets in 0..63 starting at 0, and `setBlock` is assumed to keep a plane's size. `save` fills a reused buffer with `getBlock(channel, data, i)`; the model reads a block as a function of the plane alone, assuming the block does not depend on what the buffer held before.
- File I/O, buttons, property widgets, `MessageBox`, bitmaps, `view` and `drawExtra`. The file stream is the sequence of bytes written to it. The values `check` shows are its `ReadHeader` result.
- `DCT.getData`, which wraps the node's channels into a new blob, and `setChecked` on the Inverse checkbox: both are user interface or packaging.
- The call to `clean()` at the start of `save` and `clean`'s `getData` call to the upstream node. What upstream `getData` returned is a parameter (`dataIn`, `fetched`). `save` takes the channels it writes as a parameter.
- `Nodes.Node.GetData` runs only the base `clean`. Virtual dispatch to a subclass's `clean` is not modelled; the subclasses' `clean` are modelled as separate methods.
- The NodeShop `Node` base of `ChannelNode` is not part of this model. Its role is played by `Nodes.Node`: the base `clean` clears the dirty flag and `state` is the cached blob.
- The `DataBlob` class is not part of this model. Its `Type` enumeration is reduced to `Channels` and `OtherType`, and a new blob is given `OtherType`. The program's default type is whatever the enumeration lists first; only "is it `Channels`" matters to the core.
- `DataBlob.clone` is not part of this model. It is taken to copy every field into a new blob (a shallow copy).
- The `properties` dictionary is taken to enumerate in insertion order, "name" first. `Property` objects are reduced to their `isOutput`, `input` and `output` fields.
- The `eViewChanged` event: `Nodes.Node.Soil` returns whether the event would fire.
- Nodes.Node.Connect: requires the new connection to go from a higher-ranked node to a lower-ranked one, so connections that close a cycle, self-loops included, are excluded. This is for the proof, not because the program fails on them: the ranks are what prove `Soil` terminates for any port order. On nodes the constructor builds, `soil` stops at "name" (`Nodes.SoilsOnlyItself`), and the program completes such a `connect`. The ghost `Graph` that carries the ranks is a proof device. Connect also removes the rolled-back output end by value; see below. A repeated `connect` adds a second `Address` object, equal in node and port, to the program's output set; the model's set of values holds it once, which changes nothing `soil` marks.
- Nodes.Node.RemoveOutput: compares connection ends by value. The program compares them by reference; see `AddressIdentity` and the finding below.
- Nodes.Node.AddInput: assigns the new input directly, where the program first sets it to null, which nothing observes. It also removes the old source's output end by value, unless the old source is the one being connected; in the program that end stays, because `removeOutput` removes nothing (the finding below).
- Nodes.Node.CompleteConnect: on failure it removes the output end by value; in the program the rolled-back end stays (the finding below).
- Nodes.Node.Disconnect: removes the output end at `from` by value; in the program that end stays, and only the input of `to` is cleared (the finding below).
- Dct.DctNode.Clean: requires the "inChannels" port, which every node its constructor builds has, as in the program. It also requires, for a `Channels` blob with channels, that the loops find every channel they read (`Dct.ChannelsSuffice`): channel 0 when the full plane has a block, channels 1 and 2 when the half-size planes have one. The program throws an exception at the first block of a missing channel, after transforming the blocks before it; the model leaves those inputs out. With fewer channels and no block to read, the model completes as the program does.
- Dct.DoDct: requires at least 64 input bytes, where the program throws an exception. The same holds for Dct.DoIdct.
- ChannelNodes.ChannelNode.Clean: requires the "inChannels" port, which every node its constructor builds has, as in the program.
- Container.Save: with no channel at all and at least one block in the full plane, the program throws after writing the header; the model returns the header with `completed` false. With no channel and no block, both complete.
- Container.HalfUp: computes `(x + 1) / 2` on unbounded integers. The program adds in 32-bit `int`, so at `x == int.MaxValue` its sum wraps and the chroma dimension is -2^30. The model assumes image sizes below 2^31 - 1.
- Channel arrays are never null: the model keeps channels as a sequence of arrays (or of their contents), so a null `channels` array, or a null channel inside it, cannot be expressed. In the program `save` then throws at `channels.Length` (`MpegCompressor/WriteChannels.cs:141`) even with no block to write, and the copies of `DCT.clean` and `ChannelNode.clean` (`MpegCompressor/DCT.cs:114`, `NodeShop/Nodes/ChannelNode.cs:45`) throw at a null channel.

## Findings

| source | as written | input that shows it | evidently intended | confidence | as-written member | corrected member |
|---|---|---|---|---|---|---|
| MpegCompressor/nodes/Node.cs:113-120 | `removeOutput` builds a new `Address` and removes it from a `HashSet<Address>`. `Address` defines only `Equals(Address)`, not `Equals(object)` or `GetHashCode`, so the set compares by reference and nothing is ever removed | `connect(a, p, b, "missing")` where `p` is a port of `a` and "missing" is not a port of `b`: `addOutput` adds the end, `addInput` fails, and the rollback leaves `a`'s output set leading to `b` | remove the end with the same node and port name, and in `addInput` only when the old source is not the one being connected, so that a failed `connect` leaves the graph as it was, a repeated `connect` keeps its output end (`Nodes.ConnectMakesBothEnds`) and `disconnect` breaks the output end | high, not executed | AddressIdentity.RollbackLeavesStaleEnd | Nodes.Node.Connect |
