/** src/vulkan/buffer.rs: choosing a memory type for a buffer, creating a buffer with
    its memory bound, and copying between buffers through a one-time command buffer.
    The memory-type rule follows the Device Memory section of the Memory Allocation
    chapter of the Vulkan specification: bit `i` of `memoryTypeBits` says whether
    memory type `i` may back the resource. */
module Buffers {
  import opened Base
  import opened Vk
  import opened Gpu

  // ---------------------------------------------------------------- find_mem_type

  /** Whether bit `i` of `flags` is set, that is `flags & (1 << i) > 0` on `u32`: the
      flags are shifted right one place at a time until bit `i` is bit 0. */
  predicate BitSet(flags: bv32, i: nat)
    requires i < 32
  {
    if i == 0 then flags & 1 != 0 else BitSet(flags >> 1, i - 1)
  }

  /** The test `find_mem_type` applies to memory type `i`: the resource allows it
      (`type_filter & (1 << i) > 0`) and it has every required property. */
  predicate Suitable(typeFilter: bv32, required: bv32, props: MemoryProperties, i: nat)
    requires |props.memoryTypes| == MAX_MEMORY_TYPES && i < MAX_MEMORY_TYPES
  {
    BitSet(typeFilter, i) && Contains(props.memoryTypes[i].propertyFlags, required)
  }

  /** The first suitable memory type at or after `from`. */
  function FirstSuitable(typeFilter: bv32, required: bv32, props: MemoryProperties, from: nat): (r: Option<nat>)
    requires |props.memoryTypes| == MAX_MEMORY_TYPES && from <= MAX_MEMORY_TYPES
    ensures r.Some? ==> from <= r.value < MAX_MEMORY_TYPES && Suitable(typeFilter, required, props, r.value)
    decreases MAX_MEMORY_TYPES - from
  {
    if from == MAX_MEMORY_TYPES then None
    else if Suitable(typeFilter, required, props, from) then Some(from)
    else FirstSuitable(typeFilter, required, props, from + 1)
  }

  /** No memory type between `from` and the one found is suitable, and nothing is found
      exactly when no type from `from` on is. */
  lemma {:induction false} FirstSuitableIsFirst(typeFilter: bv32, required: bv32, props: MemoryProperties, from: nat)
    requires |props.memoryTypes| == MAX_MEMORY_TYPES && from <= MAX_MEMORY_TYPES
    ensures var r := FirstSuitable(typeFilter, required, props, from);
            && (r.Some? ==> forall j :: from <= j < r.value ==> !Suitable(typeFilter, required, props, j))
            && (r.None? <==> forall j :: from <= j < MAX_MEMORY_TYPES ==> !Suitable(typeFilter, required, props, j))
    decreases MAX_MEMORY_TYPES - from
  {
    if from < MAX_MEMORY_TYPES && !Suitable(typeFilter, required, props, from) {
      FirstSuitableIsFirst(typeFilter, required, props, from + 1);
    }
  }

  /** `find_mem_type`: the index of the first suitable memory type among all
      `VK_MAX_MEMORY_TYPES` entries of the array (not only the first
      `memoryTypeCount`); `unwrap` panics when there is none. */
  function FindMemType(typeFilter: bv32, required: bv32, props: MemoryProperties): (r: Result<u32>)
    requires |props.memoryTypes| == MAX_MEMORY_TYPES
    ensures r.Ok? ==> r.value < MAX_MEMORY_TYPES && Suitable(typeFilter, required, props, r.value)
    ensures r.Panicked? ==> r.panic == NoMemoryType
  {
    match FirstSuitable(typeFilter, required, props, 0)
    case Some(i) => Ok(i)
    case None => Panicked(NoMemoryType)
  }

  /** `find_mem_type` returns the first suitable memory type, and panics exactly when
      no memory type is suitable. */
  lemma FindMemTypeIsFirst(typeFilter: bv32, required: bv32, props: MemoryProperties)
    requires |props.memoryTypes| == MAX_MEMORY_TYPES
    ensures var r := FindMemType(typeFilter, required, props);
            && (r.Ok? ==> forall j :: 0 <= j < r.value ==> !Suitable(typeFilter, required, props, j))
            && (r.Panicked? <==> forall j :: 0 <= j < MAX_MEMORY_TYPES ==> !Suitable(typeFilter, required, props, j))
  {
    FirstSuitableIsFirst(typeFilter, required, props, 0);
  }

  /** Entries past `memoryTypeCount` are zero-filled by the implementation. */
  predicate ZeroPadded(props: MemoryProperties)
    requires |props.memoryTypes| == MAX_MEMORY_TYPES
  {
    props.memoryTypeCount <= MAX_MEMORY_TYPES &&
    forall j :: props.memoryTypeCount <= j < MAX_MEMORY_TYPES ==> props.memoryTypes[j].propertyFlags == 0
  }

  /** Searching the whole array is harmless when some property is required: a
      zero-filled entry past the count never has it, so the index found is a real
      memory type. */
  lemma FoundTypeIsReal(typeFilter: bv32, required: bv32, props: MemoryProperties)
    requires |props.memoryTypes| == MAX_MEMORY_TYPES && ZeroPadded(props)
    requires required != 0
    requires FindMemType(typeFilter, required, props).Ok?
    ensures FindMemType(typeFilter, required, props).value < props.memoryTypeCount
  {
  }

  // ---------------------------------------------------------------- create_buffer

  /** The `BufferCreateInfo` of `create_buffer`: exclusive sharing, no queue family
      indices. */
  function BufferInfo(size: u64, usage: bv32): (info: BufferCreateInfo)
    ensures info.size == size && info.usage == usage
    ensures info.sharingMode == SHARING_MODE_EXCLUSIVE && info.queueFamilyIndices == []
  {
    BufferCreateInfo(size, usage, SHARING_MODE_EXCLUSIVE, [])
  }

  /** The calls `create_buffer` makes when nothing fails: create the buffer, ask what
      memory it needs, allocate that many bytes of memory type `typeIndex`, bind the
      memory to the buffer at offset 0. */
  function BufferCalls(size: u64, usage: bv32, buffer: Handle, requirements: MemoryRequirements,
                       typeIndex: u32, memory: Handle): seq<Call>
  {
    [Call(CreateBuffer(BufferInfo(size, usage)), Made(buffer)),
     Call(GetBufferMemoryRequirements(buffer), Requirements(requirements)),
     Call(AllocateMemory(requirements.size, typeIndex), Made(memory)),
     Call(BindBufferMemory(buffer, memory, 0), Done)]
  }

  /** The first suitable memory type for what `buffer` requires, as `create_buffer`
      asks the driver for the requirements and then calls `find_mem_type`. */
  method ChooseMemoryType(dev: Device, buffer: Handle, required: bv32, props: MemoryProperties)
    returns (r: Result<(MemoryRequirements, u32)>)
    requires |props.memoryTypes| == MAX_MEMORY_TYPES
    modifies dev
    ensures dev.next == old(dev.next)
    ensures dev.calls == old(dev.calls) +
                         [Call(GetBufferMemoryRequirements(buffer), Requirements(dev.driver.memoryRequirements(buffer)))]
    ensures r.Ok? <==> FindMemType(dev.driver.memoryRequirements(buffer).memoryTypeBits, required, props).Ok?
    ensures r.Ok? ==> r.value.0 == dev.driver.memoryRequirements(buffer) &&
                      r.value.1 == FindMemType(r.value.0.memoryTypeBits, required, props).value
    ensures r.Panicked? ==> r.panic == NoMemoryType
  {
    var requirements := dev.QueryRequirements(buffer);
    var memoryType :- FindMemType(requirements.memoryTypeBits, required, props);
    r := Ok((requirements, memoryType));
  }

  /** The end of `create_buffer`: allocate `allocationSize` bytes of memory type
      `typeIndex` and bind them to `buffer` at offset 0. */
  method AllocateAndBind(dev: Device, buffer: Handle, allocationSize: u64, typeIndex: u32) returns (r: Result<Handle>)
    modifies dev
    ensures r.Ok? ==> r.value == old(dev.next) && dev.next == r.value + 1 &&
                      dev.calls == old(dev.calls) +
                                   [Call(AllocateMemory(allocationSize, typeIndex), Made(r.value)),
                                    Call(BindBufferMemory(buffer, r.value, 0), Done)]
    ensures r.Panicked? ==> r.panic == CallRefused && EndsRefused(dev.calls) && old(dev.calls) <= dev.calls
  {
    var memory := dev.Create(AllocateMemory(allocationSize, typeIndex));
    if memory.None? {
      return Panicked(CallRefused);
    }
    var bound := dev.Perform(BindBufferMemory(buffer, memory.value, 0));
    if !bound {
      return Panicked(CallRefused);
    }
    r := Ok(memory.value);
  }

  /** `create_buffer`: the new buffer and the memory bound to it. The memory is of the
      first suitable type for the buffer's requirements and is exactly as large as
      the buffer requires. */
  method CreateBufferWithMemory(dev: Device, size: u64, usage: bv32, required: bv32, props: MemoryProperties)
    returns (r: Result<(Handle, Handle)>)
    requires |props.memoryTypes| == MAX_MEMORY_TYPES
    modifies dev
    ensures old(dev.calls) <= dev.calls
    ensures r.Ok? ==>
              var (buffer, memory) := r.value;
              var requirements := dev.driver.memoryRequirements(buffer);
              var typeIndex := FindMemType(requirements.memoryTypeBits, required, props);
              && typeIndex.Ok?
              && dev.calls == old(dev.calls) + BufferCalls(size, usage, buffer, requirements, typeIndex.value, memory)
              && buffer == old(dev.next) && memory == buffer + 1 && dev.next == memory + 1
    ensures r.Panicked? ==> (r.panic == CallRefused && EndsRefused(dev.calls)) ||
                            (r.panic == NoMemoryType &&
                             FindMemType(dev.driver.memoryRequirements(old(dev.next)).memoryTypeBits, required, props).Panicked?)
  {
    var buffer := dev.Create(CreateBuffer(BufferInfo(size, usage)));
    if buffer.None? {
      return Panicked(CallRefused);
    }
    var chosen := ChooseMemoryType(dev, buffer.value, required, props);
    if chosen.Panicked? {
      return Panicked(NoMemoryType);
    }
    var memory := AllocateAndBind(dev, buffer.value, chosen.value.0.size, chosen.value.1);
    if memory.Panicked? {
      return Panicked(CallRefused);
    }
    r := Ok((buffer.value, memory.value));
  }

  // ---------------------------------------------------------------- host writes

  /** The calls of the map / copy / unmap sequence by which the program fills host-visible
      memory: map `size` bytes from offset 0, write them, unmap the same memory. */
  function MappedWriteCalls(memory: Handle, size: u64): seq<Call> {
    [Call(MapMemory(memory, 0, size), Done),
     Call(WriteMapped(memory, size), Done),
     Call(UnmapMemory(memory), Done)]
  }

  /** `map_memory(memory, 0, size)`, `copy_from_nonoverlapping` of `size` bytes through
      the returned pointer, `unmap_memory(memory)`. */
  method WriteThroughMapping(dev: Device, memory: Handle, size: u64) returns (r: Result<()>)
    modifies dev
    ensures dev.next == old(dev.next)
    ensures r.Ok? ==> dev.calls == old(dev.calls) + MappedWriteCalls(memory, size)
    ensures r.Panicked? ==> r.panic == CallRefused && EndsRefused(dev.calls) &&
                            dev.calls == old(dev.calls) + [Call(MapMemory(memory, 0, size), Refused)]
  {
    var mapped := dev.Perform(MapMemory(memory, 0, size));
    if !mapped {
      return Panicked(CallRefused);
    }
    var _ := dev.Perform(WriteMapped(memory, size));
    var _ := dev.Perform(UnmapMemory(memory));
    r := Ok(());
  }

  // ---------------------------------------------------------------- copy_buffer

  /** The calls that record the copy into `commandBuffer`, the one buffer allocated. */
  function RecordCopyCalls(pool: Handle, src: Handle, dst: Handle, size: u64, commandBuffer: Handle): seq<Call> {
    [Call(AllocateCommandBuffers(pool, COMMAND_BUFFER_LEVEL_PRIMARY, 1), MadeAll([commandBuffer])),
     Call(BeginCommandBuffer(commandBuffer, COMMAND_BUFFER_USAGE_ONE_TIME_SUBMIT), Done),
     Call(CmdCopyBuffer(commandBuffer, src, dst, [BufferCopy(0, 0, size)]), Done),
     Call(EndCommandBuffer(commandBuffer), Done)]
  }

  /** The calls that run the recorded copy to completion and release its buffer. */
  function SubmitCalls(queue: Handle, pool: Handle, commandBuffer: Handle): seq<Call> {
    [Call(QueueSubmit(queue, [commandBuffer], NULL_HANDLE), Done),
     Call(QueueWaitIdle(queue), Done),
     Call(FreeCommandBuffers(pool, [commandBuffer]), Done)]
  }

  /** The calls `copy_buffer` makes when nothing fails. */
  function CopyCalls(queue: Handle, pool: Handle, src: Handle, dst: Handle, size: u64,
                     commandBuffer: Handle): seq<Call>
  {
    RecordCopyCalls(pool, src, dst, size, commandBuffer) + SubmitCalls(queue, pool, commandBuffer)
  }

  /** The first half of `copy_buffer`: allocate one primary command buffer and record
      the copy of `size` bytes from the start of `src` to the start of `dst`. */
  method RecordCopy(dev: Device, pool: Handle, src: Handle, dst: Handle, size: u64) returns (r: Result<Handle>)
    modifies dev
    ensures r.Ok? ==> r.value == old(dev.next) &&
                      dev.calls == old(dev.calls) + RecordCopyCalls(pool, src, dst, size, r.value)
    ensures r.Panicked? ==> r.panic == CallRefused && EndsRefused(dev.calls) && old(dev.calls) <= dev.calls
  {
    var granted := dev.CreateMany(AllocateCommandBuffers(pool, COMMAND_BUFFER_LEVEL_PRIMARY, 1));
    if granted.None? {
      return Panicked(CallRefused);
    }
    var commandBuffer := granted.value[0];
    assert granted.value == [commandBuffer];
    var begun := dev.Perform(BeginCommandBuffer(commandBuffer, COMMAND_BUFFER_USAGE_ONE_TIME_SUBMIT));
    if !begun {
      return Panicked(CallRefused);
    }
    var _ := dev.Perform(CmdCopyBuffer(commandBuffer, src, dst, [BufferCopy(0, 0, size)]));
    var ended := dev.Perform(EndCommandBuffer(commandBuffer));
    if !ended {
      return Panicked(CallRefused);
    }
    r := Ok(commandBuffer);
  }

  /** The second half of `copy_buffer`: submit the command buffer without a fence,
      wait until the queue is idle, then free the command buffer. */
  method SubmitAndWait(dev: Device, queue: Handle, pool: Handle, commandBuffer: Handle) returns (r: Result<()>)
    modifies dev
    ensures dev.next == old(dev.next)
    ensures r.Ok? ==> dev.calls == old(dev.calls) + SubmitCalls(queue, pool, commandBuffer)
    ensures r.Panicked? ==> r.panic == CallRefused && EndsRefused(dev.calls) && old(dev.calls) <= dev.calls
  {
    var submitted := dev.Perform(QueueSubmit(queue, [commandBuffer], NULL_HANDLE));
    if !submitted {
      return Panicked(CallRefused);
    }
    var idle := dev.Perform(QueueWaitIdle(queue));
    if !idle {
      return Panicked(CallRefused);
    }
    var _ := dev.Perform(FreeCommandBuffers(pool, [commandBuffer]));
    r := Ok(());
  }

  /** `copy_buffer`: record a single whole-range copy into a fresh one-time command
      buffer, submit it, wait for the queue to drain and free the command buffer. */
  method CopyBuffer(dev: Device, queue: Handle, pool: Handle, src: Handle, dst: Handle, size: u64)
    returns (r: Result<()>)
    modifies dev
    ensures r.Ok? ==> dev.calls == old(dev.calls) + CopyCalls(queue, pool, src, dst, size, old(dev.next))
    ensures r.Panicked? ==> r.panic == CallRefused && EndsRefused(dev.calls) && old(dev.calls) <= dev.calls
  {
    var recorded := RecordCopy(dev, pool, src, dst, size);
    if recorded.Panicked? {
      return Panicked(CallRefused);
    }
    r := SubmitAndWait(dev, queue, pool, recorded.value);
  }

  /** In trace `t`, the command buffer `commandBuffer` is submitted to `queue`, the
      queue is then waited on, and only after that is the command buffer freed, as the
      last call: the work it holds is complete when `t` ends. */
  predicate DrainedBeforeFree(t: seq<Call>, queue: Handle, commandBuffer: Handle) {
    && |t| > 0
    && t[|t| - 1].request.FreeCommandBuffers? && commandBuffer in t[|t| - 1].request.freed
    && exists s, w :: 0 <= s < w < |t| - 1 &&
         t[s].request.QueueSubmit? && t[s].request.queue == queue && commandBuffer in t[s].request.submitted &&
         t[w].request == QueueWaitIdle(queue)
  }

  /** Everything `copy_buffer` records: one primary command buffer, used once; a single
      copy region from offset 0 to offset 0 over `size` bytes; and the copy is complete
      before the command buffer is freed. */
  lemma CopyIsCompleteOnReturn(queue: Handle, pool: Handle, src: Handle, dst: Handle, size: u64, cb: Handle)
    ensures var t := CopyCalls(queue, pool, src, dst, size, cb);
            && DrainedBeforeFree(t, queue, cb)
            && (forall k :: 0 <= k < |t| && t[k].request.AllocateCommandBuffers? ==>
                  k == 0 && t[k].request.commandBufferCount == 1 &&
                  t[k].request.level == COMMAND_BUFFER_LEVEL_PRIMARY)
            && (forall k :: 0 <= k < |t| && t[k].request.CmdCopyBuffer? ==>
                  t[k].request.regions == [BufferCopy(0, 0, size)] && t[k].request.src == src &&
                  t[k].request.dst == dst)
  {
    var t := CopyCalls(queue, pool, src, dst, size, cb);
    assert t[4].request.QueueSubmit? && t[5].request == QueueWaitIdle(queue);
  }
}
