/** The command-buffer list of a command pool (src/CommandPool.cpp). Command
    buffer handles are opaque numbers; the handles Vulkan hands out on
    allocation are a parameter. */
module CommandPools {
  import opened MachineInts

  type CommandBuffer = nat

  class CommandPool {
    var buffers: seq<CommandBuffer>
    var destroyed: bool

    constructor()
      ensures buffers == [] && !destroyed
    {
      buffers := [];
      destroyed := false;
    }

    /** `AllocateBuffers`: the `bufferCount` new buffers are appended in the
        order Vulkan returned them; earlier buffers keep their positions. */
    method AllocateBuffers(bufferCount: nat, handles: seq<CommandBuffer>)
      requires |handles| == bufferCount
      modifies this
      ensures buffers == old(buffers) + handles
      ensures |buffers| == |old(buffers)| + bufferCount
      ensures forall i :: 0 <= i < |old(buffers)| ==> buffers[i] == old(buffers)[i]
      ensures destroyed == old(destroyed)
    {
      var newBuffers := handles;
      for k := 0 to |newBuffers|
        invariant buffers == old(buffers) + newBuffers[..k]
        invariant destroyed == old(destroyed)
      {
        buffers := buffers + [newBuffers[k]];
      }
      assert newBuffers[..|newBuffers|] == handles;
    }

    /** `FreeBuffers`: hands every buffer back (`freed`, empty when there was
        nothing to free) and empties the list. */
    method FreeBuffers() returns (freed: seq<CommandBuffer>)
      modifies this
      ensures freed == old(buffers)
      ensures buffers == [] && destroyed == old(destroyed)
    {
      freed := [];
      if |buffers| > 0 {
        freed := buffers;
        buffers := [];
      }
    }

    /** `Destroy`: frees all buffers first, then the pool. */
    method Destroy() returns (freed: seq<CommandBuffer>)
      modifies this
      ensures freed == old(buffers)
      ensures buffers == [] && destroyed
    {
      freed := FreeBuffers();
      destroyed := true;
    }

    /** `GetBufferCount`: the list length as a `uint32_t`. */
    function GetBufferCount(): (count: nat)
      reads this
      ensures count < TWO_TO_THE_32
      ensures |buffers| < TWO_TO_THE_32 ==> count == |buffers|
    {
      Wrap32(|buffers|)
    }

    /** `GetBuffer`: an unchecked index into the list. */
    function GetBuffer(index: nat): (b: CommandBuffer)
      reads this
      requires index < |buffers|
      ensures b in buffers && b == buffers[index]
    {
      buffers[index]
    }
  }

  /** Allocating on an empty pool and freeing leaves it empty again, and the
      freed buffers are exactly the ones allocated. */
  method AllocateThenFree(pool: CommandPool, handles: seq<CommandBuffer>) returns (freed: seq<CommandBuffer>)
    requires pool.buffers == []
    modifies pool
    ensures freed == handles && pool.buffers == []
    ensures |handles| < TWO_TO_THE_32 ==> pool.GetBufferCount() == 0
  {
    pool.AllocateBuffers(|handles|, handles);
    freed := pool.FreeBuffers();
  }
}
