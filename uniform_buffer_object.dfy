/** src/vulkan/UniformBufferObject.rs: the uniform buffer object the vertex shader
    reads, one host-visible uniform buffer per swapchain image, the descriptor set
    layout, pool and sets that bind buffer `i` to set `i`, and the per-frame rewrite of
    one buffer. The three matrices are `f32` arithmetic and are not part of this model;
    only their layout and the bytes written matter here. */
module UniformBuffers {
  import opened Base
  import opened Vk
  import opened Gpu
  import opened ReprC
  import Buffers

  // ---------------------------------------------------------------- layout

  /** `UniformBufferObject` is `#[repr(C)]` with three `Matrix4<f32>` fields (model,
      view, proj), sixteen `f32`s each. */
  const UBO_FIELDS: seq<Field> := [Field(64, 4), Field(64, 4), Field(64, 4)]

  /** `size_of::<UniformBufferObject>()`. */
  function UboSize(): nat {
    SizeOf(UBO_FIELDS)
  }

  /** The size every uniform buffer is created with, mapped with and described with:
      `size_of::<UniformBufferObject>() as u64`, which `UboLayout` shows. */
  const UBO_SIZE: u64 := 192

  /** The matrices sit back to back at 0, 64 and 128, so the object takes `UBO_SIZE`
      bytes. */
  lemma UboLayout()
    ensures WellFormed(UBO_FIELDS)
    ensures Offsets(UBO_FIELDS) == [0, 64, 128]
    ensures UboSize() == UBO_SIZE as nat
  {
    PackedLayout(UBO_FIELDS, Field(64, 4));
  }

  /** The memory properties of a uniform buffer: written by the host, seen by the device
      without a flush. */
  const UNIFORM_MEMORY: bv32 := MEMORY_PROPERTY_HOST_VISIBLE | MEMORY_PROPERTY_HOST_COHERENT

  // ---------------------------------------------------------------- create_descriptor_set_layout

  /** The one binding of the layout: binding 0, a single uniform buffer, read by the
      vertex stage. */
  const UBO_LAYOUT_BINDING: DescriptorSetLayoutBinding :=
    DescriptorSetLayoutBinding(0, DESCRIPTOR_TYPE_UNIFORM_BUFFER, 1, SHADER_STAGE_VERTEX)

  /** `create_descriptor_set_layout`: one creation, `expect`ed. */
  method CreateDescriptorSetLayout(dev: Device) returns (r: Result<Handle>)
    modifies dev
    ensures r.Ok? ==> r.value == old(dev.next) && dev.next == old(dev.next) + 1 &&
                      dev.calls == old(dev.calls) + [Call(Request.CreateDescriptorSetLayout([UBO_LAYOUT_BINDING]), Made(r.value))]
    ensures r.Panicked? ==> r.panic == CallRefused && EndsRefused(dev.calls)
  {
    var layout := dev.Create(Request.CreateDescriptorSetLayout([UBO_LAYOUT_BINDING]));
    if layout.None? {
      return Panicked(CallRefused);
    }
    r := Ok(layout.value);
  }

  // ---------------------------------------------------------------- create_uniform_buffers

  /** The memory type `create_buffer` picks for uniform buffer `k` when the handles are
      handed out from `base` on (each buffer takes two: the buffer and its memory). */
  function UniformType(driver: Driver, props: MemoryProperties, base: Handle, k: nat): Result<u32>
    requires |props.memoryTypes| == MAX_MEMORY_TYPES
  {
    Buffers.FindMemType(driver.memoryRequirements(base + 2 * k).memoryTypeBits, UNIFORM_MEMORY, props)
  }

  /** Whether the first `n` uniform buffers each find a suitable memory type. */
  predicate UniformTypesFound(driver: Driver, props: MemoryProperties, base: Handle, n: nat)
    requires |props.memoryTypes| == MAX_MEMORY_TYPES
  {
    forall k :: 0 <= k < n ==> UniformType(driver, props, base, k).Ok?
  }

  /** The four calls that create uniform buffer `k` and its memory. */
  function UniformBlock(driver: Driver, props: MemoryProperties, base: Handle, k: nat): seq<Call>
    requires |props.memoryTypes| == MAX_MEMORY_TYPES
    requires UniformType(driver, props, base, k).Ok?
  {
    var buffer := base + 2 * k;
    Buffers.BufferCalls(UBO_SIZE, BUFFER_USAGE_UNIFORM_BUFFER, buffer, driver.memoryRequirements(buffer),
                        UniformType(driver, props, base, k).value, buffer + 1)
  }

  /** The calls of the first `n` iterations of the loop. */
  function UniformBufferCalls(driver: Driver, props: MemoryProperties, base: Handle, n: nat): seq<Call>
    requires |props.memoryTypes| == MAX_MEMORY_TYPES
    requires UniformTypesFound(driver, props, base, n)
    decreases n
  {
    if n == 0 then [] else UniformBufferCalls(driver, props, base, n - 1) + UniformBlock(driver, props, base, n - 1)
  }

  /** One more iteration that finds its memory type extends the trace by its block. */
  lemma UniformBufferCallsStep(driver: Driver, props: MemoryProperties, base: Handle, n: nat)
    requires |props.memoryTypes| == MAX_MEMORY_TYPES
    requires UniformTypesFound(driver, props, base, n) && UniformType(driver, props, base, n).Ok?
    ensures UniformTypesFound(driver, props, base, n + 1)
    ensures UniformBufferCalls(driver, props, base, n + 1) ==
            UniformBufferCalls(driver, props, base, n) + UniformBlock(driver, props, base, n)
  {
  }

  /** The loop's trace is one block of four calls per buffer, block `k` creating
      buffer `k`, in buffer order. */
  lemma {:induction false} UniformBufferCallsInOrder(driver: Driver, props: MemoryProperties, base: Handle, n: nat)
    requires |props.memoryTypes| == MAX_MEMORY_TYPES
    requires UniformTypesFound(driver, props, base, n)
    ensures var t := UniformBufferCalls(driver, props, base, n);
            && |t| == 4 * n
            && forall k :: 0 <= k < n ==> t[4 * k .. 4 * k + 4] == UniformBlock(driver, props, base, k)
    decreases n
  {
    if n > 0 {
      UniformBufferCallsInOrder(driver, props, base, n - 1);
      var prefix := UniformBufferCalls(driver, props, base, n - 1);
      var t := prefix + UniformBlock(driver, props, base, n - 1);
      assert |prefix| == 4 * (n - 1);
      forall k | 0 <= k < n
        ensures t[4 * k .. 4 * k + 4] == UniformBlock(driver, props, base, k)
      {
        if k < n - 1 {
          SliceOfPrefix(prefix, UniformBlock(driver, props, base, n - 1), 4 * k, 4 * k + 4);
        } else {
          assert t[4 * k .. 4 * k + 4] == t[|prefix|..];
        }
      }
    }
  }

  /** A slice that lies inside the first part of a concatenation. */
  lemma SliceOfPrefix(p: seq<Call>, q: seq<Call>, i: nat, j: nat)
    requires i <= j <= |p|
    ensures (p + q)[i..j] == p[i..j]
  {
    assert forall m :: 0 <= m < j - i ==> (p + q)[i..j][m] == p[i..j][m];
  }

  /** Every uniform buffer is a 192-byte uniform buffer whose memory is host visible and
      host coherent, as the per-frame update needs. */
  lemma UniformBlockIsHostCoherent(driver: Driver, props: MemoryProperties, base: Handle, k: nat)
    requires |props.memoryTypes| == MAX_MEMORY_TYPES
    requires UniformType(driver, props, base, k).Ok?
    ensures var block := UniformBlock(driver, props, base, k);
            var typeIndex := block[2].request.memoryTypeIndex;
            && block[0].request == CreateBuffer(Buffers.BufferInfo(192, BUFFER_USAGE_UNIFORM_BUFFER))
            && block[2].request.AllocateMemory?
            && typeIndex < MAX_MEMORY_TYPES
            && Contains(props.memoryTypes[typeIndex].propertyFlags, MEMORY_PROPERTY_HOST_VISIBLE)
            && Contains(props.memoryTypes[typeIndex].propertyFlags, MEMORY_PROPERTY_HOST_COHERENT)
  {
    UboLayout();
  }

  /** One iteration of the loop: uniform buffer `k` and its memory, by `create_buffer`. */
  method CreateUniformBuffer(dev: Device, props: MemoryProperties, ghost base: Handle, ghost k: nat)
    returns (r: Result<(Handle, Handle)>)
    requires |props.memoryTypes| == MAX_MEMORY_TYPES
    requires dev.next == base + 2 * k
    modifies dev
    ensures r.Ok? ==>
              && UniformType(dev.driver, props, base, k).Ok?
              && r.value == (base + 2 * k, base + 2 * k + 1)
              && dev.calls == old(dev.calls) + UniformBlock(dev.driver, props, base, k)
              && dev.next == base + 2 * k + 2
    ensures r.Panicked? ==> (r.panic == CallRefused && EndsRefused(dev.calls)) ||
                            (r.panic == NoMemoryType && UniformType(dev.driver, props, base, k).Panicked?)
  {
    r := Buffers.CreateBufferWithMemory(dev, UBO_SIZE, BUFFER_USAGE_UNIFORM_BUFFER, UNIFORM_MEMORY, props);
  }

  /** `create_uniform_buffers`: `count` buffers (the swapchain's image count), buffer
      `k` with handle `base + 2k` and its memory with `base + 2k + 1`; a refused call
      or a missing memory type panics. */
  method CreateUniformBuffers(dev: Device, props: MemoryProperties, count: nat)
    returns (r: Result<(seq<Handle>, seq<Handle>)>)
    requires |props.memoryTypes| == MAX_MEMORY_TYPES
    modifies dev
    ensures r.Ok? ==>
              var base := old(dev.next);
              var (buffers, memories) := r.value;
              && UniformTypesFound(dev.driver, props, base, count)
              && |buffers| == |memories| == count
              && (forall k :: 0 <= k < count ==> buffers[k] == base + 2 * k && memories[k] == base + 2 * k + 1)
              && dev.calls == old(dev.calls) + UniformBufferCalls(dev.driver, props, base, count)
              && dev.next == base + 2 * count
    ensures r.Panicked? ==> (r.panic == CallRefused && EndsRefused(dev.calls)) ||
                            (r.panic == NoMemoryType && !UniformTypesFound(dev.driver, props, old(dev.next), count))
  {
    ghost var base := dev.next;
    var buffers: seq<Handle> := [];
    var memories: seq<Handle> := [];
    var i := 0;
    while i < count
      invariant 0 <= i <= count
      invariant |buffers| == |memories| == i
      invariant forall k :: 0 <= k < i ==> buffers[k] == base + 2 * k && memories[k] == base + 2 * k + 1
      invariant UniformTypesFound(dev.driver, props, base, i)
      invariant dev.calls == old(dev.calls) + UniformBufferCalls(dev.driver, props, base, i)
      invariant dev.next == base + 2 * i
    {
      var created := CreateUniformBuffer(dev, props, base, i);
      if created.Panicked? {
        return Panicked(created.panic);
      }
      UniformBufferCallsStep(dev.driver, props, base, i);
      buffers := buffers + [created.value.0];
      memories := memories + [created.value.1];
      i := i + 1;
    }
    r := Ok((buffers, memories));
  }

  // ---------------------------------------------------------------- create_descriptor_pool

  /** The pool create info for `n` swapchain images: `n as u32` sets, and room for
      `n as u32` uniform-buffer descriptors. */
  function DescriptorPoolRequest(n: nat): Request {
    Request.CreateDescriptorPool(AsU32(n), [DescriptorPoolSize(DESCRIPTOR_TYPE_UNIFORM_BUFFER, AsU32(n))])
  }

  /** `create_descriptor_pool`: one creation, `expect`ed. */
  method CreateDescriptorPool(dev: Device, n: nat) returns (r: Result<Handle>)
    modifies dev
    ensures r.Ok? ==> r.value == old(dev.next) && dev.next == old(dev.next) + 1 &&
                      dev.calls == old(dev.calls) + [Call(DescriptorPoolRequest(n), Made(r.value))]
    ensures r.Panicked? ==> r.panic == CallRefused && EndsRefused(dev.calls)
  {
    var pool := dev.Create(DescriptorPoolRequest(n));
    if pool.None? {
      return Panicked(CallRefused);
    }
    r := Ok(pool.value);
  }

  // ---------------------------------------------------------------- create_descriptor_sets

  /** `n` copies of `layout`, one per set to allocate. */
  function SetLayouts(layout: Handle, n: nat): (layouts: seq<Handle>)
    ensures |layouts| == n
    ensures forall k :: 0 <= k < n ==> layouts[k] == layout
  {
    seq(n, _ => layout)
  }

  /** The loop that pushes `layout` `n` times. */
  method RepeatLayout(layout: Handle, n: nat) returns (layouts: seq<Handle>)
    ensures layouts == SetLayouts(layout, n)
  {
    layouts := [];
    var i := 0;
    while i < n
      invariant 0 <= i <= n
      invariant |layouts| == i
      invariant forall k :: 0 <= k < i ==> layouts[k] == layout
    {
      layouts := layouts + [layout];
      i := i + 1;
    }
  }

  /** The write that points binding 0 of `descriptorSet` at the whole of uniform buffer `buffer`. */
  function UniformWrite(descriptorSet: Handle, buffer: Handle): WriteDescriptorSet {
    WriteDescriptorSet(descriptorSet, 0, 0, 1, DESCRIPTOR_TYPE_UNIFORM_BUFFER,
                       [DescriptorBufferInfo(buffer, 0, UBO_SIZE)])
  }

  /** Each write fits the layout its set was allocated with: it targets the layout's one
      binding, with the binding's descriptor type, within its descriptor count, and
      describes the whole uniform buffer object. */
  lemma WriteMatchesLayout(descriptorSet: Handle, buffer: Handle)
    ensures var w := UniformWrite(descriptorSet, buffer);
            && w.dstSet == descriptorSet
            && w.dstBinding == UBO_LAYOUT_BINDING.binding
            && w.descriptorType == UBO_LAYOUT_BINDING.descriptorType
            && w.dstArrayElement + w.descriptorCount <= UBO_LAYOUT_BINDING.descriptorCount
            && |w.bufferInfo| == w.descriptorCount
            && w.bufferInfo[0].buffer == buffer
            && w.bufferInfo[0].offset == 0 && w.bufferInfo[0].range as nat == UboSize()
  {
    UboLayout();
  }

  /** The updates of the first `n` iterations of the `for_each`. */
  function WriteCalls(sets: seq<Handle>, buffers: seq<Handle>, n: nat): seq<Call>
    requires n <= |sets| && n <= |buffers|
    decreases n
  {
    if n == 0 then []
    else WriteCalls(sets, buffers, n - 1) + [Call(UpdateDescriptorSets([UniformWrite(sets[n - 1], buffers[n - 1])]), Done)]
  }

  /** Update `k` binds set `k` to uniform buffer `k`, and to nothing else. */
  lemma {:induction false} WriteCallsPairSets(sets: seq<Handle>, buffers: seq<Handle>, n: nat)
    requires n <= |sets| && n <= |buffers|
    ensures var t := WriteCalls(sets, buffers, n);
            && |t| == n
            && forall k :: 0 <= k < n ==> t[k] == Call(UpdateDescriptorSets([UniformWrite(sets[k], buffers[k])]), Done)
    decreases n
  {
    if n > 0 {
      WriteCallsPairSets(sets, buffers, n - 1);
    }
  }

  /** The uniform-buffer descriptors a list of writes uses. */
  function UniformDescriptors(writes: seq<WriteDescriptorSet>): nat
    decreases |writes|
  {
    if |writes| == 0 then 0
    else (if writes[0].descriptorType == DESCRIPTOR_TYPE_UNIFORM_BUFFER then writes[0].descriptorCount as nat else 0) +
         UniformDescriptors(writes[1..])
  }

  /** The uniform-buffer descriptors the updates of a trace use. */
  function TraceDescriptors(t: seq<Call>): nat
    decreases |t|
  {
    if |t| == 0 then 0
    else TraceDescriptors(t[..|t| - 1]) +
         (if t[|t| - 1].request.UpdateDescriptorSets? then UniformDescriptors(t[|t| - 1].request.writes) else 0)
  }

  /** The pool made for `n` images holds what `create_descriptor_sets` takes from it for
      `n` images: its set limit is the number of sets allocated, and its one pool size,
      of the uniform-buffer type, counts exactly the descriptors the updates write. */
  lemma {:induction false} PoolFitsDescriptorSets(n: nat, sets: seq<Handle>, buffers: seq<Handle>)
    requires |sets| == AsU32(n) <= |buffers|
    ensures var pool := DescriptorPoolRequest(n);
            && pool.maxSets as nat == |sets|
            && |pool.poolSizes| == 1
            && pool.poolSizes[0].descriptorType == DESCRIPTOR_TYPE_UNIFORM_BUFFER
            && pool.poolSizes[0].descriptorCount as nat == TraceDescriptors(WriteCalls(sets, buffers, |sets|))
  {
    WriteCallsDescriptors(sets, buffers, |sets|);
  }

  /** `n` updates use `n` uniform-buffer descriptors. */
  lemma {:induction false} WriteCallsDescriptors(sets: seq<Handle>, buffers: seq<Handle>, n: nat)
    requires n <= |sets| && n <= |buffers|
    ensures TraceDescriptors(WriteCalls(sets, buffers, n)) == n
    decreases n
  {
    if n > 0 {
      WriteCallsDescriptors(sets, buffers, n - 1);
      var t := WriteCalls(sets, buffers, n);
      assert t[..|t| - 1] == WriteCalls(sets, buffers, n - 1);
      var w := [UniformWrite(sets[n - 1], buffers[n - 1])];
      assert UniformDescriptors(w) == 1 + UniformDescriptors(w[1..]);
    }
  }

  /** The `for_each` of `create_descriptor_sets`: set `i` is updated to read uniform
      buffer `i`; `uniform_buffers[i]` panics when there are fewer buffers than sets,
      after the sets before it were updated. */
  method WriteDescriptorSets(dev: Device, sets: seq<Handle>, uniformBuffers: seq<Handle>) returns (r: Result<()>)
    modifies dev
    ensures dev.next == old(dev.next)
    ensures r.Ok? ==> |sets| <= |uniformBuffers| &&
                      dev.calls == old(dev.calls) + WriteCalls(sets, uniformBuffers, |sets|)
    ensures r.Panicked? ==> r.panic == IndexOutOfBounds && |uniformBuffers| < |sets| &&
                            dev.calls == old(dev.calls) + WriteCalls(sets, uniformBuffers, |uniformBuffers|)
  {
    var i := 0;
    while i < |sets|
      invariant 0 <= i <= |sets| && i <= |uniformBuffers|
      invariant dev.calls == old(dev.calls) + WriteCalls(sets, uniformBuffers, i)
      invariant dev.next == old(dev.next)
    {
      if i >= |uniformBuffers| {
        return Panicked(IndexOutOfBounds);
      }
      var write := Call(UpdateDescriptorSets([UniformWrite(sets[i], uniformBuffers[i])]), Done);
      var _ := dev.Perform(write.request);
      assert WriteCalls(sets, uniformBuffers, i + 1) == WriteCalls(sets, uniformBuffers, i) + [write];
      i := i + 1;
    }
    r := Ok(());
  }

  /** `create_descriptor_sets`: `n as u32` sets allocated from `pool`, all with `layout`,
      then set `i` updated to read uniform buffer `i`. */
  method CreateDescriptorSets(dev: Device, pool: Handle, layout: Handle, uniformBuffers: seq<Handle>, n: nat)
    returns (r: Result<seq<Handle>>)
    modifies dev
    ensures r.Ok? ==>
              var count := AsU32(n);
              && r.value == FreshHandles(old(dev.next), count)
              && count <= |uniformBuffers|
              && dev.next == old(dev.next) + count
              && dev.calls == old(dev.calls) +
                              [Call(AllocateDescriptorSets(pool, count, SetLayouts(layout, n)), MadeAll(r.value))] +
                              WriteCalls(r.value, uniformBuffers, count)
    ensures r.Panicked? ==> (r.panic == CallRefused && EndsRefused(dev.calls)) ||
                            (r.panic == IndexOutOfBounds && |uniformBuffers| < AsU32(n))
  {
    var layouts := RepeatLayout(layout, n);
    var handed := dev.CreateMany(AllocateDescriptorSets(pool, AsU32(n), layouts));
    if handed.None? {
      return Panicked(CallRefused);
    }
    var written := WriteDescriptorSets(dev, handed.value, uniformBuffers);
    if written.Panicked? {
      return Panicked(written.panic);
    }
    r := Ok(handed.value);
  }

  // ---------------------------------------------------------------- update_uniform_buffer

  /** `update_uniform_buffer`: the one object for `current_image` is written, all
      `size_of * 1` bytes of it, through a mapping of that image's uniform memory;
      indexing past the memories panics before any call. */
  method UpdateUniformBuffer(dev: Device, uniformBuffersMemory: seq<Handle>, currentImage: nat) returns (r: Result<()>)
    modifies dev
    ensures dev.next == old(dev.next)
    ensures r.Ok? ==> currentImage < |uniformBuffersMemory| &&
                      dev.calls == old(dev.calls) + Buffers.MappedWriteCalls(uniformBuffersMemory[currentImage], UBO_SIZE)
    ensures r.Panicked? ==> (r.panic == IndexOutOfBounds && currentImage >= |uniformBuffersMemory| && dev.calls == old(dev.calls)) ||
                            (r.panic == CallRefused && EndsRefused(dev.calls))
  {
    if currentImage >= |uniformBuffersMemory| {
      return Panicked(IndexOutOfBounds);
    }
    r := Buffers.WriteThroughMapping(dev, uniformBuffersMemory[currentImage], UBO_SIZE);
  }
}
