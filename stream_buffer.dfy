/** The GPU-visible streaming buffer, seen only through Map and Unmap. Where Map
    places a region (its fence waits and wrap-around) is decided by code that is
    not part of this model, so the placement arrives as a parameter. */
module Streaming {

  import opened Wrappers

  /** What Map hands back: a CPU pointer to write through and the region's byte
      offset inside the GL buffer. */
  datatype Placement = Placement(pointer: nat, offset: nat)

  class StreamBuffer {
    /** Total size of the GL buffer in bytes. */
    const capacity: nat
    /** Size of the region mapped and not yet committed, if any. */
    var outstanding: Option<nat>
    /** Byte counts committed by Unmap, oldest first. */
    var commits: seq<nat>

    constructor (capacity: nat)
      ensures this.capacity == capacity
      ensures outstanding == None && commits == []
    {
      this.capacity := capacity;
      outstanding := None;
      commits := [];
    }

    /** Reserve `size` bytes for writing; a region mapped earlier and never
        committed is abandoned. `stride` is the element size the offset is
        aligned for. */
    method Map(size: nat, stride: nat, placement: Placement) returns (pointer: nat, offset: nat)
      requires size <= capacity
      requires placement.offset + size <= capacity
      modifies this
      ensures pointer == placement.pointer && offset == placement.offset
      ensures outstanding == Some(size)
      ensures commits == old(commits)
    {
      pointer, offset := placement.pointer, placement.offset;
      outstanding := Some(size);
    }

    /** Commit the first `used` bytes of the mapped region. */
    method Unmap(used: nat)
      requires outstanding.Some? && used <= outstanding.value
      modifies this
      ensures outstanding == None
      ensures commits == old(commits) + [used]
    {
      commits := commits + [used];
      outstanding := None;
    }
  }
}
