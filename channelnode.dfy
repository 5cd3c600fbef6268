/**
 * `ChannelNode`, the base of the editor's channel-processing nodes: its
 * `clean` takes the channels from upstream and keeps its own copy of them.
 */
module ChannelNodes {
  import opened Common
  import opened Blobs
  import opened Nodes

  /** The blob holds channels: the type is `Channels` and the array is not null. */
  predicate HasChannels(kind: BlobType, channels: bool)
  {
    kind == Channels && channels
  }

  /** The ports a new `ChannelNode` has, read off what the `Node` constructor promises. */
  lemma ChannelPorts(ports: seq<string>, isOutput: map<string, bool>,
                     input: map<string, Option<Address>>, output: map<string, set<Address>>)
    requires WellFormed(ports, isOutput, input, output)
    requires ports == ["name"] + ["inChannels", "outChannels"]
    requires forall p :: p in ports ==> isOutput[p] == (p in {"outChannels"} && p != "name")
    requires forall p :: p in ports ==> input[p] == None && output[p] == {}
    ensures ports == ["name", "inChannels", "outChannels"]
    ensures ports[1] == "inChannels" && ports[2] == "outChannels"
    ensures "inChannels" in input && input["inChannels"] == None
    ensures !isOutput["inChannels"] && isOutput["outChannels"]
  {
    assert ports[1] == "inChannels" && ports[2] == "outChannels";
  }

  class ChannelNode {
    /** The `Node` part of the object. */
    const base: Node

    /**
     * `new ChannelNode()`: a fresh `Node` part whose `createProperties` adds
     * the input port "inChannels" and the output port "outChannels" after
     * "name".
     */
    constructor ()
      ensures fresh(base) && base.Valid() && !base.isDirty
      ensures base.ports == ["name", "inChannels", "outChannels"]
      ensures "inChannels" in base.input && base.input["inChannels"] == None
      ensures !base.isOutput["inChannels"] && base.isOutput["outChannels"]
    {
      var b := new Node(["inChannels", "outChannels"], {"outChannels"});
      ChannelPorts(b.ports, b.isOutput, b.input, b.output);
      base := b;
    }

    /**
     * `clean`.  `fetched` is what `getData` of the upstream node returns.
     * Without an upstream connection the state is kept; a null result, a
     * blob of another type or one without channels leaves the state null;
     * otherwise the state is a fresh clone of the upstream blob holding
     * fresh, distinct copies of its channel arrays and no bitmap.
     */
    method Clean(fetched: DataBlob?)
      requires "inChannels" in base.input
      modifies base`isDirty, base`state
      ensures !base.isDirty
      ensures base.input["inChannels"].None? ==> base.state == old(base.state)
      ensures base.input["inChannels"].Some? && (fetched == null || !HasChannels(fetched.kind, fetched.channels.Some?)) ==>
        base.state == null
      ensures base.input["inChannels"].Some? && fetched != null && HasChannels(fetched.kind, fetched.channels.Some?) ==>
        Copied(base.state, fetched) && fresh(base.state) &&
        forall k :: 0 <= k < |base.state.channels.value| ==> fresh(base.state.channels.value[k])
    {
      base.Clean();
      var upstream := base.input["inChannels"];
      if upstream.None? {
        return;
      }
      base.state := fetched;
      if base.state == null {
        return;
      }
      if base.state.kind != Channels || base.state.channels.None? {
        base.state := null;
        return;
      }
      var copy := base.state.Clone();
      base.state := copy;
      var newChannels := CopyChannels(copy.channels.value);
      copy.channels := Some(newChannels);
      copy.bmp := null;
    }
  }

  /**
   * `d` is a deep copy of blob `src` without its bitmap: the same fields,
   * and channel arrays with the same contents, none shared with `src` or
   * with each other.
   */
  ghost predicate Copied(d: DataBlob?, src: DataBlob)
    requires src.channels.Some?
    reads d, src, src.channels.value
    reads if d != null && d.channels.Some? then d.channels.value else []
  {
    d != null && d != src && d.kind == src.kind && d.width == src.width && d.height == src.height &&
    d.samplingMode == src.samplingMode && d.bmp == null &&
    d.channels.Some? && Contents(d.channels.value) == Contents(src.channels.value) &&
    (forall k, l :: 0 <= k < l < |d.channels.value| ==> d.channels.value[k] != d.channels.value[l]) &&
    (forall k, l :: 0 <= k < |d.channels.value| && 0 <= l < |src.channels.value| ==> d.channels.value[k] != src.channels.value[l])
  }
}
