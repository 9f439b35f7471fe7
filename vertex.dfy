/** src/vulkan/vertex.rs: the vertex format the pipeline reads, and the upload of the
    vertex and index data into device-local buffers through a host-visible staging
    buffer. The vertex and index arrays themselves are not part of this model; only
    their element counts matter here. */
module Vertices {
  import opened Base
  import opened Vk
  import opened Gpu
  import opened ReprC
  import Buffers

  // ---------------------------------------------------------------- layout

  /** `Vertex` is `#[repr(C)]` with `pos: [f32; 2]` and `color: [f32; 3]`. */
  const VERTEX_FIELDS: seq<Field> := [Field(8, 4), Field(12, 4)]

  /** `size_of::<Vertex>()`. */
  function VertexSize(): nat {
    SizeOf(VERTEX_FIELDS)
  }

  /** The `repr(C)` rule puts `pos` at 0 and `color` at 8, with no padding, so a vertex
      takes 20 bytes. */
  lemma VertexLayout()
    ensures WellFormed(VERTEX_FIELDS)
    ensures Offsets(VERTEX_FIELDS) == [0, 8]
    ensures VertexSize() == 20
  {
    assert OffsetsFrom(VERTEX_FIELDS[1..], 8) == [8];
  }

  /** `Vertex::get_binding_descriptions`: one binding, number 0, advancing by a whole
      vertex per vertex. */
  function GetBindingDescriptions(): (r: seq<VertexInputBindingDescription>)
    ensures |r| == 1
    ensures r[0].binding == 0 && r[0].inputRate == VERTEX_INPUT_RATE_VERTEX
    ensures r[0].stride == 20
  {
    VertexLayout();
    [VertexInputBindingDescription(binding := 0, stride := AsU32(VertexSize()), inputRate := VERTEX_INPUT_RATE_VERTEX)]
  }

  /** `Vertex::get_attribute_descriptions`: location 0 reads the two position floats at
      the offset of `pos`, location 1 the three colour floats at the offset of `color`,
      both from binding 0. */
  function GetAttributeDescriptions(): (r: seq<VertexInputAttributeDescription>)
    ensures |r| == 2
    ensures r[0] == VertexInputAttributeDescription(0, 0, FORMAT_R32G32_SFLOAT, 0)
    ensures r[1] == VertexInputAttributeDescription(1, 0, FORMAT_R32G32B32_SFLOAT, 8)
  {
    VertexLayout();
    var offsets := Offsets(VERTEX_FIELDS);
    [VertexInputAttributeDescription(location := 0, binding := 0, format := FORMAT_R32G32_SFLOAT,
                                     offset := AsU32(offsets[0])),
     VertexInputAttributeDescription(location := 1, binding := 0, format := FORMAT_R32G32B32_SFLOAT,
                                     offset := AsU32(offsets[1]))]
  }

  // ---------------------------------------------------------------- staging upload

  /** The memory properties of the staging buffer. */
  const STAGING_MEMORY: bv32 := MEMORY_PROPERTY_HOST_VISIBLE | MEMORY_PROPERTY_HOST_COHERENT

  /** The memory types of the staging buffer (`base`) and of the destination buffer
      (`base + 2`), each the first suitable one for what the driver says that buffer
      needs; `NoMemoryType` when either has none. */
  function UploadTypes(driver: Driver, props: MemoryProperties, base: Handle): (r: Result<(u32, u32)>)
    requires |props.memoryTypes| == MAX_MEMORY_TYPES
    ensures r.Ok? ==> r.value.0 < MAX_MEMORY_TYPES && r.value.1 < MAX_MEMORY_TYPES
    ensures r.Ok? ==> Contains(props.memoryTypes[r.value.0].propertyFlags, STAGING_MEMORY) &&
                      Contains(props.memoryTypes[r.value.1].propertyFlags, MEMORY_PROPERTY_DEVICE_LOCAL)
  {
    var stagingType := Buffers.FindMemType(driver.memoryRequirements(base).memoryTypeBits, STAGING_MEMORY, props);
    var destinationType := Buffers.FindMemType(driver.memoryRequirements(base + 2).memoryTypeBits,
                                               MEMORY_PROPERTY_DEVICE_LOCAL, props);
    if stagingType.Panicked? then Panicked(stagingType.panic)
    else if destinationType.Panicked? then Panicked(destinationType.panic)
    else Ok((stagingType.value, destinationType.value))
  }

  /** The calls that create and fill the staging buffer `base` and its memory
      `base + 1`, of memory type `stagingType`. */
  function StagedCalls(driver: Driver, size: u64, base: Handle, stagingType: u32): seq<Call> {
    Buffers.BufferCalls(size, BUFFER_USAGE_TRANSFER_SRC, base, driver.memoryRequirements(base), stagingType, base + 1) +
    Buffers.MappedWriteCalls(base + 1, size)
  }

  /** The calls that copy the staging buffer into `destination` through command buffer
      `commandBuffer` and then release the staging pair. */
  function ReleaseCalls(queue: Handle, pool: Handle, staging: (Handle, Handle), destination: Handle, size: u64,
                        commandBuffer: Handle): seq<Call>
  {
    Buffers.CopyCalls(queue, pool, staging.0, destination, size, commandBuffer) +
    [Call(DestroyBuffer(staging.0), Done), Call(FreeMemory(staging.1), Done)]
  }

  /** The calls of one upload of `size` bytes when nothing fails and handles are handed
      out from `base` on: the staging buffer and its memory (`base`, `base + 1`), the
      map / write / unmap of the data, the destination buffer and its memory (`base + 2`,
      `base + 3`), the copy through command buffer `base + 4`, and the release of the
      staging pair. */
  function UploadTrace(driver: Driver, queue: Handle, pool: Handle, usage: bv32, size: u64, base: Handle,
                       types: (u32, u32)): (t: seq<Call>)
    ensures |t| == 20
  {
    StagedCalls(driver, size, base, types.0) +
    Buffers.BufferCalls(size, usage, base + 2, driver.memoryRequirements(base + 2), types.1, base + 3) +
    ReleaseCalls(queue, pool, (base, base + 1), base + 2, size, base + 4)
  }

  /** The calls of a whole upload, or `NoMemoryType`. */
  function UploadCalls(driver: Driver, props: MemoryProperties, queue: Handle, pool: Handle,
                       usage: bv32, size: u64, base: Handle): Result<seq<Call>>
    requires |props.memoryTypes| == MAX_MEMORY_TYPES
  {
    var types := UploadTypes(driver, props, base);
    if types.Panicked? then Panicked(types.panic)
    else Ok(UploadTrace(driver, queue, pool, usage, size, base, types.value))
  }

  /** The staging half: a `TRANSFER_SRC` buffer in host-visible, host-coherent memory,
      filled through a single mapping. */
  method CreateStagingBuffer(dev: Device, props: MemoryProperties, size: u64) returns (r: Result<(Handle, Handle)>)
    requires |props.memoryTypes| == MAX_MEMORY_TYPES
    modifies dev
    ensures r.Ok? ==>
              var needs := dev.driver.memoryRequirements(old(dev.next));
              var typeIndex := Buffers.FindMemType(needs.memoryTypeBits, STAGING_MEMORY, props);
              && typeIndex.Ok?
              && r.value == (old(dev.next), old(dev.next) + 1) && dev.next == old(dev.next) + 2
              && dev.calls == old(dev.calls) + StagedCalls(dev.driver, size, old(dev.next), typeIndex.value)
    ensures r.Panicked? ==> (r.panic == CallRefused && EndsRefused(dev.calls)) ||
                            (r.panic == NoMemoryType &&
                             Buffers.FindMemType(dev.driver.memoryRequirements(old(dev.next)).memoryTypeBits,
                                                 STAGING_MEMORY, props).Panicked?)
  {
    var staging := Buffers.CreateBufferWithMemory(dev, size, BUFFER_USAGE_TRANSFER_SRC, STAGING_MEMORY, props);
    if staging.Panicked? {
      return Panicked(staging.panic);
    }
    var written := Buffers.WriteThroughMapping(dev, staging.value.1, size);
    if written.Panicked? {
      return Panicked(CallRefused);
    }
    r := Ok(staging.value);
  }

  /** The end of the upload: copy the staging buffer into the destination, then destroy
      the staging buffer and free its memory. */
  method CopyAndRelease(dev: Device, queue: Handle, pool: Handle, staging: (Handle, Handle), destination: Handle,
                        size: u64) returns (r: Result<()>)
    modifies dev
    ensures r.Ok? ==> dev.calls == old(dev.calls) + ReleaseCalls(queue, pool, staging, destination, size, old(dev.next))
    ensures r.Panicked? ==> r.panic == CallRefused && EndsRefused(dev.calls)
  {
    r := Buffers.CopyBuffer(dev, queue, pool, staging.0, destination, size);
    if r.Panicked? {
      return;
    }
    var _ := dev.Perform(DestroyBuffer(staging.0));
    var _ := dev.Perform(FreeMemory(staging.1));
  }

  /** The first two steps of an upload: the filled staging pair, then the destination
      buffer with the caller's usage in device-local memory. */
  method StageAndCreate(dev: Device, props: MemoryProperties, usage: bv32, size: u64)
    returns (r: Result<((Handle, Handle), (Handle, Handle))>)
    requires |props.memoryTypes| == MAX_MEMORY_TYPES
    modifies dev
    ensures r.Ok? ==>
              var base := old(dev.next);
              var types := UploadTypes(dev.driver, props, base);
              && types.Ok?
              && r.value == ((base, base + 1), (base + 2, base + 3)) && dev.next == base + 4
              && dev.calls == old(dev.calls) + StagedCalls(dev.driver, size, base, types.value.0) +
                              Buffers.BufferCalls(size, usage, base + 2, dev.driver.memoryRequirements(base + 2),
                                                  types.value.1, base + 3)
    ensures r.Panicked? ==>
              (r.panic == CallRefused && EndsRefused(dev.calls)) ||
              (r.panic == NoMemoryType && UploadTypes(dev.driver, props, old(dev.next)).Panicked?)
  {
    ghost var base := dev.next;
    var staging := CreateStagingBuffer(dev, props, size);
    if staging.Panicked? {
      return Panicked(staging.panic);
    }
    ghost var types := UploadTypes(dev.driver, props, base);
    assert dev.next == base + 2;
    var destination := Buffers.CreateBufferWithMemory(dev, size, usage, MEMORY_PROPERTY_DEVICE_LOCAL, props);
    if destination.Panicked? {
      assert destination.panic == NoMemoryType ==> types.Panicked?;
      return Panicked(destination.panic);
    }
    assert staging.value == (base, base + 1) && destination.value == (base + 2, base + 3);
    r := Ok((staging.value, destination.value));
  }

  /** The protocol `create_vertex_buffer` and `create_index_buffer` share: stage `size`
      bytes, create the destination buffer with the caller's usage in device-local
      memory, copy, release the staging pair, and hand back the destination pair. */
  method UploadThroughStaging(dev: Device, props: MemoryProperties, queue: Handle, pool: Handle,
                              usage: bv32, size: u64) returns (r: Result<(Handle, Handle)>)
    requires |props.memoryTypes| == MAX_MEMORY_TYPES
    modifies dev
    ensures var expected := UploadCalls(dev.driver, props, queue, pool, usage, size, old(dev.next));
            r.Ok? ==> expected.Ok? && dev.calls == old(dev.calls) + expected.value &&
                      r.value == (old(dev.next) + 2, old(dev.next) + 3)
    ensures r.Panicked? ==>
              (r.panic == CallRefused && EndsRefused(dev.calls)) ||
              (r.panic == NoMemoryType && UploadCalls(dev.driver, props, queue, pool, usage, size, old(dev.next)).Panicked?)
  {
    var pairs := StageAndCreate(dev, props, usage, size);
    if pairs.Panicked? {
      return Panicked(pairs.panic);
    }
    var (staging, destination) := pairs.value;
    var copied := CopyAndRelease(dev, queue, pool, staging, destination.0, size);
    if copied.Panicked? {
      return Panicked(CallRefused);
    }
    r := Ok(destination);
  }

  /** `create_vertex_buffer`: uploads `vertexCount` vertices, `size_of_val` of the
      array being `vertexCount` whole vertices. It returns the device-local buffer and its
      memory. */
  method CreateVertexBuffer(dev: Device, props: MemoryProperties, queue: Handle, pool: Handle,
                            usage: bv32, vertexCount: nat) returns (r: Result<(Handle, Handle)>)
    requires |props.memoryTypes| == MAX_MEMORY_TYPES
    requires vertexCount * 20 < U64_LIMIT
    modifies dev
    ensures var expected := UploadCalls(dev.driver, props, queue, pool, usage, vertexCount * 20, old(dev.next));
            r.Ok? ==> expected.Ok? && dev.calls == old(dev.calls) + expected.value &&
                      r.value == (old(dev.next) + 2, old(dev.next) + 3)
    ensures r.Panicked? ==>
              (r.panic == CallRefused && EndsRefused(dev.calls)) ||
              (r.panic == NoMemoryType &&
               UploadCalls(dev.driver, props, queue, pool, usage, vertexCount * 20, old(dev.next)).Panicked?)
  {
    VertexLayout();
    r := UploadThroughStaging(dev, props, queue, pool, usage, vertexCount * VertexSize());
  }

  /** `create_index_buffer`: the same protocol for `indexCount` `u32` indices, returning
      the device-local buffer and its memory. */
  method CreateIndexBuffer(dev: Device, props: MemoryProperties, queue: Handle, pool: Handle,
                           usage: bv32, indexCount: nat) returns (r: Result<(Handle, Handle)>)
    requires |props.memoryTypes| == MAX_MEMORY_TYPES
    requires indexCount * 4 < U64_LIMIT
    modifies dev
    ensures var expected := UploadCalls(dev.driver, props, queue, pool, usage, indexCount * 4, old(dev.next));
            r.Ok? ==> expected.Ok? && dev.calls == old(dev.calls) + expected.value &&
                      r.value == (old(dev.next) + 2, old(dev.next) + 3)
    ensures r.Panicked? ==>
              (r.panic == CallRefused && EndsRefused(dev.calls)) ||
              (r.panic == NoMemoryType &&
               UploadCalls(dev.driver, props, queue, pool, usage, indexCount * 4, old(dev.next)).Panicked?)
  {
    r := UploadThroughStaging(dev, props, queue, pool, usage, indexCount * 4);
  }

  /** How an upload begins: the staging buffer is created exclusively owned as a
      transfer source of `size` bytes, gets memory of the size its requirements state
      and of the type chosen for it, and that memory is mapped, written and unmapped
      once. (`UploadTypes` says which memory types the two buffers get.) */
  lemma UploadStagesFirst(driver: Driver, queue: Handle, pool: Handle, usage: bv32, size: u64, base: Handle,
                          types: (u32, u32))
    ensures var t := UploadTrace(driver, queue, pool, usage, size, base, types);
            && t[0].request == CreateBuffer(BufferCreateInfo(size, BUFFER_USAGE_TRANSFER_SRC, SHARING_MODE_EXCLUSIVE, []))
            && t[2].request == AllocateMemory(driver.memoryRequirements(base).size, types.0)
            && t[4].request == MapMemory(base + 1, 0, size)
            && t[5].request == WriteMapped(base + 1, size) && t[6].request == UnmapMemory(base + 1)
  {
  }

  /** How an upload goes on and ends: the destination buffer is created with the same
      size and the caller's usage and gets its own memory; the staging buffer and its
      memory are released last, after the queue has gone idle. */
  lemma UploadReleasesStagingLast(driver: Driver, queue: Handle, pool: Handle, usage: bv32, size: u64, base: Handle,
                                  types: (u32, u32))
    ensures var t := UploadTrace(driver, queue, pool, usage, size, base, types);
            && t[7].request == CreateBuffer(BufferCreateInfo(size, usage, SHARING_MODE_EXCLUSIVE, []))
            && t[9].request == AllocateMemory(driver.memoryRequirements(base + 2).size, types.1)
            && t[16].request == QueueWaitIdle(queue)
            && t[18] == Call(DestroyBuffer(base), Done) && t[19] == Call(FreeMemory(base + 1), Done)
  {
  }

  /** The data is in the staging memory before anything is submitted, and every copy
      moves the whole `size` bytes from the start of the staging buffer to the start of
      the destination. */
  lemma UploadCopiesStagedData(driver: Driver, queue: Handle, pool: Handle, usage: bv32, size: u64, base: Handle,
                               types: (u32, u32))
    ensures var t := UploadTrace(driver, queue, pool, usage, size, base, types);
            && t[5].request == WriteMapped(base + 1, size)
            && (forall k :: 0 <= k < |t| && t[k].request.QueueSubmit? ==> 5 < k)
            && (forall k :: 0 <= k < |t| && t[k].request.CmdCopyBuffer? ==>
                  t[k].request.src == base && t[k].request.dst == base + 2 &&
                  t[k].request.regions == [BufferCopy(0, 0, size)])
  {
  }

  /** Only the destination pair survives an upload: no call destroys the destination
      buffer or frees its memory. */
  lemma UploadKeepsDestination(driver: Driver, queue: Handle, pool: Handle, usage: bv32, size: u64, base: Handle,
                               types: (u32, u32))
    ensures var t := UploadTrace(driver, queue, pool, usage, size, base, types);
            forall k :: 0 <= k < |t| ==> t[k].request != DestroyBuffer(base + 2) && t[k].request != FreeMemory(base + 3)
  {
  }
}
