/** A Vulkan buffer with host-visible memory (src/Buffer.cpp): the creation
    checks, the mapped/unmapped flag and byte-level reads and writes of the
    buffer's memory. The device memory is a byte sequence; the Vulkan handles,
    the memory-type search (see VulkanApi.FindMemoryType) and the Win32 export
    handle are not modelled. */
module Buffers {
  import opened Wrappers
  import opened MachineInts

  // `VkExternalMemoryHandleTypeFlagBits` values that the constructor accepts.
  const EXTERNAL_MEMORY_OPAQUE_FD: nat := 0x1
  const EXTERNAL_MEMORY_OPAQUE_WIN32: nat := 0x2
  const EXTERNAL_MEMORY_MAX_ENUM: nat := 0x7FFF_FFFF

  const UNSUPPORTED_EXTERNAL_MEMORY := "vk::Buffer external memory type not supported"
  const ALREADY_MAPPED := "Vulkan Device Memory is already mapped"

  datatype SharingMode = Exclusive | Concurrent

  /** The only external memory kinds a buffer may be created with: none
      (`MAX_ENUM`), an opaque Win32 handle, or an opaque file descriptor. */
  predicate ExternalMemoryTypeSupported(extMemType: nat)
  {
    extMemType == EXTERNAL_MEMORY_MAX_ENUM
    || extMemType == EXTERNAL_MEMORY_OPAQUE_WIN32
    || extMemType == EXTERNAL_MEMORY_OPAQUE_FD
  }

  /** The sharing mode and queue-family-index count of the create info: no
      queue families means exclusive ownership, otherwise the buffer is shared
      concurrently by exactly the listed families. */
  function SharingFor(qfis: seq<nat>): (r: (SharingMode, nat))
    ensures r.0 == Exclusive <==> |qfis| == 0
    ensures r.1 == |qfis|
  {
    if |qfis| == 0 then (Exclusive, 0) else (Concurrent, |qfis|)
  }

  /** `memory` with `size` bytes of `data` copied in at `offset`. */
  function Written(memory: seq<byte>, offset: nat, data: seq<byte>, size: nat): (r: seq<byte>)
    requires size <= |data| && offset + size <= |memory|
    ensures |r| == |memory|
    ensures forall i :: 0 <= i < |r| && !(offset <= i < offset + size) ==> r[i] == memory[i]
    ensures forall i :: 0 <= i < size ==> r[offset + i] == data[i]
  {
    memory[..offset] + data[..size] + memory[offset + size..]
  }

  /** Reading back what was just written yields the written bytes. */
  lemma ReadAfterWrite(memory: seq<byte>, offset: nat, data: seq<byte>, size: nat)
    requires size <= |data| && offset + size <= |memory|
    ensures Written(memory, offset, data, size)[offset..offset + size] == data[..size]
  {
    var r := Written(memory, offset, data, size);
    assert forall i :: 0 <= i < size ==> r[offset..offset + size][i] == data[..size][i];
  }

  /** Writing the bytes a buffer already holds changes nothing. */
  lemma WriteBackUnchanged(memory: seq<byte>, offset: nat, size: nat)
    requires offset + size <= |memory|
    ensures Written(memory, offset, memory[offset..offset + size], size) == memory
  {
    var r := Written(memory, offset, memory[offset..offset + size], size);
    assert forall i :: 0 <= i < |r| ==> r[i] == memory[i];
  }

  class Buffer {
    var mapped: bool
    var usedSize: nat
    var sharingMode: SharingMode
    var queueFamilyIndexCount: nat
    var memory: seq<byte>

    /** The field initialisation of the constructor once its checks passed;
        `contents` stands for the unspecified initial bytes of the memory. */
    constructor(size: nat, qfis: seq<nat>, contents: seq<byte>)
      requires |contents| == size
      ensures !mapped && usedSize == size && memory == contents
      ensures (sharingMode, queueFamilyIndexCount) == SharingFor(qfis)
    {
      mapped := false;
      usedSize := size;
      var sharing := SharingFor(qfis);
      sharingMode := sharing.0;
      queueFamilyIndexCount := sharing.1;
      memory := contents;
    }

    /** `MapMemory`: mapping twice is an error; otherwise the buffer becomes
        mapped. */
    method MapMemory() returns (r: Outcome<()>)
      modifies this
      ensures r.Err? <==> old(mapped)
      ensures r.Err? ==> r.msg == ALREADY_MAPPED && unchanged(this)
      ensures r.Ok? ==>
        mapped && memory == old(memory) && usedSize == old(usedSize)
        && sharingMode == old(sharingMode) && queueFamilyIndexCount == old(queueFamilyIndexCount)
    {
      if mapped {
        return Err(ALREADY_MAPPED);
      }
      mapped := true;
      return Ok(());
    }

    /** `UnmapMemory`: always leaves the buffer unmapped; `warned` tells
        whether the "was not mapped" warning was logged. */
    method UnmapMemory() returns (warned: bool)
      modifies this
      ensures warned <==> !old(mapped)
      ensures !mapped && memory == old(memory) && usedSize == old(usedSize)
      ensures sharingMode == old(sharingMode) && queueFamilyIndexCount == old(queueFamilyIndexCount)
    {
      warned := !mapped;
      mapped := false;
    }

    function GetUsedSize(): (size: nat)
      reads this
      ensures size == usedSize
    {
      usedSize
    }

    /** `GetData`: map, copy `size` bytes starting at `offset`, unmap. It fails
        when the buffer is already mapped; otherwise it ends unmapped. */
    method GetData(size: nat, offset: nat) returns (r: Outcome<seq<byte>>)
      requires offset + size <= |memory|
      modifies this
      ensures r.Err? <==> old(mapped)
      ensures r.Err? ==> r.msg == ALREADY_MAPPED && unchanged(this)
      ensures memory == old(memory) && usedSize == old(usedSize)
      ensures r.Ok? ==> r.value == memory[offset..offset + size] && !mapped
      ensures sharingMode == old(sharingMode) && queueFamilyIndexCount == old(queueFamilyIndexCount)
    {
      var mappedResult := MapMemory();
      if mappedResult.Err? {
        return Err(mappedResult.msg);
      }
      var dst := memory[offset..offset + size];
      var _ := UnmapMemory();
      return Ok(dst);
    }

    /** `SetData`: copies `size` bytes of `data` into the memory at `offset`,
        through a mapping of its own that never touches the mapped flag. */
    method SetData(size: nat, data: seq<byte>, offset: nat)
      requires size <= |data| && offset + size <= |memory|
      modifies this
      ensures memory == Written(old(memory), offset, data, size)
      ensures mapped == old(mapped) && usedSize == old(usedSize)
      ensures sharingMode == old(sharingMode) && queueFamilyIndexCount == old(queueFamilyIndexCount)
    {
      memory := Written(memory, offset, data, size);
    }
  }

  /** The constructor: an unsupported external memory type is an error;
      otherwise a fresh, unmapped buffer whose used size is the requested
      size. */
  method NewBuffer(size: nat, qfis: seq<nat>, extMemType: nat, contents: seq<byte>) returns (r: Outcome<Buffer>)
    requires |contents| == size
    ensures r.Err? <==> !ExternalMemoryTypeSupported(extMemType)
    ensures r.Err? ==> r.msg == UNSUPPORTED_EXTERNAL_MEMORY
    ensures r.Ok? ==>
      fresh(r.value) && !r.value.mapped && r.value.usedSize == size
      && r.value.memory == contents
      && (r.value.sharingMode, r.value.queueFamilyIndexCount) == SharingFor(qfis)
  {
    if !ExternalMemoryTypeSupported(extMemType) {
      return Err(UNSUPPORTED_EXTERNAL_MEMORY);
    }
    var b := new Buffer(size, qfis, contents);
    return Ok(b);
  }

  /** A write followed by a read of the same range on an unmapped buffer
      returns the bytes written, and leaves the buffer unmapped. */
  method WriteThenRead(b: Buffer, size: nat, data: seq<byte>, offset: nat) returns (read: seq<byte>)
    requires !b.mapped && size <= |data| && offset + size <= |b.memory|
    modifies b
    ensures read == data[..size] && !b.mapped
  {
    b.SetData(size, data, offset);
    ReadAfterWrite(old(b.memory), offset, data, size);
    var r := b.GetData(size, offset);
    read := r.value;
  }
}
