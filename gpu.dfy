/** The GPU as the modelled code sees it through `ash`: every device call is recorded,
    together with the driver's reply, in a trace. Handles are produced by an abstract
    allocator (a counter). Which calls the driver rejects, what memory a buffer needs
    and how many images a swapchain owns are decided by a `Driver` value that stands
    for the implementation behind the API; the model never looks inside it. */
module Gpu {
  import opened Base
  import opened Vk

  /** One call into the Vulkan API (or, for `WriteMapped`, a host write through a
      mapped pointer), with the arguments that the modelled code chooses. */
  datatype Request =
    | CreateSwapchain(swapchainInfo: SwapchainCreateInfo)
    | GetSwapchainImages(swapchain: Handle)
    | CreateImageView(viewInfo: ImageViewCreateInfo)
    | CreateFramebuffer(framebufferInfo: FramebufferCreateInfo)
    | CreateCommandPool(queueFamilyIndex: u32)
    | AllocateCommandBuffers(pool: Handle, level: int, commandBufferCount: u32)
    | BeginCommandBuffer(commandBuffer: Handle, usage: bv32)
    | CmdBeginRenderPass(commandBuffer: Handle, begin: RenderPassBeginInfo, contents: int)
    | CmdBindPipeline(commandBuffer: Handle, bindPoint: int, pipeline: Handle)
    | CmdBindVertexBuffers(commandBuffer: Handle, firstBinding: u32, buffers: seq<Handle>, offsets: seq<u64>)
    | CmdBindIndexBuffer(commandBuffer: Handle, indexBuffer: Handle, offset: u64, indexType: int)
    | CmdBindDescriptorSets(commandBuffer: Handle, bindPoint: int, layout: Handle, firstSet: u32,
                            sets: seq<Handle>, dynamicOffsets: seq<u32>)
    | CmdDrawIndexed(commandBuffer: Handle, indexCount: u32, instanceCount: u32, firstIndex: u32,
                     vertexOffset: int, firstInstance: u32)
    | CmdEndRenderPass(commandBuffer: Handle)
    | EndCommandBuffer(commandBuffer: Handle)
    | CmdCopyBuffer(commandBuffer: Handle, src: Handle, dst: Handle, regions: seq<BufferCopy>)
    | QueueSubmit(queue: Handle, submitted: seq<Handle>, fence: Handle)
    | QueueWaitIdle(queue: Handle)
    | FreeCommandBuffers(pool: Handle, freed: seq<Handle>)
    | CreateSemaphore
    | CreateFence(fenceFlags: bv32)
    | CreateBuffer(bufferInfo: BufferCreateInfo)
    | GetBufferMemoryRequirements(buffer: Handle)
    | AllocateMemory(allocationSize: u64, memoryTypeIndex: u32)
    | BindBufferMemory(buffer: Handle, memory: Handle, memoryOffset: u64)
    | MapMemory(mapped: Handle, mapOffset: u64, mapSize: u64)
    | WriteMapped(target: Handle, byteCount: nat)
    | UnmapMemory(unmapped: Handle)
    | DestroyBuffer(destroyed: Handle)
    | FreeMemory(freedMemory: Handle)
    | CreateDescriptorSetLayout(bindings: seq<DescriptorSetLayoutBinding>)
    | CreateDescriptorPool(maxSets: u32, poolSizes: seq<DescriptorPoolSize>)
    | AllocateDescriptorSets(descriptorPool: Handle, descriptorSetCount: u32, setLayouts: seq<Handle>)
    | UpdateDescriptorSets(writes: seq<WriteDescriptorSet>)

  /** The driver's answer to one request. */
  datatype Reply =
    | Done                                   // success, nothing returned
    | Made(handle: Handle)                   // success, one new handle
    | MadeAll(handles: seq<Handle>)          // success, several new handles
    | Requirements(requirements: MemoryRequirements)
    | Refused                                // the call returned an error code

  datatype Call = Call(request: Request, reply: Reply)

  /** The implementation behind the API, as far as the modelled code can observe it. */
  datatype Driver = Driver(
    refused: set<nat>,                            // trace positions at which a fallible call fails
    requirementsTable: seq<MemoryRequirements>,    // per buffer handle
    defaultRequirements: MemoryRequirements,       // for handles past the table
    imageCountTable: seq<nat>,                     // per swapchain handle
    defaultImageCount: nat)                        // for handles past the table
  {
    /** What `vkGetBufferMemoryRequirements` reports for `buffer`. */
    function memoryRequirements(buffer: Handle): MemoryRequirements {
      if buffer < |requirementsTable| then requirementsTable[buffer] else defaultRequirements
    }

    /** How many images the implementation made for `swapchain`. */
    function swapchainImageCount(swapchain: Handle): nat {
      if swapchain < |imageCountTable| then imageCountTable[swapchain] else defaultImageCount
    }
  }

  /** Requests that create exactly one handle. */
  predicate CreatesOne(req: Request) {
    req.CreateSwapchain? || req.CreateImageView? || req.CreateFramebuffer? ||
    req.CreateCommandPool? || req.CreateSemaphore? || req.CreateFence? ||
    req.CreateBuffer? || req.AllocateMemory? || req.CreateDescriptorSetLayout? ||
    req.CreateDescriptorPool?
  }

  /** Requests whose Vulkan command returns a `VkResult` (the others return `void`). */
  predicate Fallible(req: Request) {
    CreatesOne(req) || req.GetSwapchainImages? || req.AllocateCommandBuffers? ||
    req.AllocateDescriptorSets? || req.BeginCommandBuffer? || req.EndCommandBuffer? ||
    req.QueueSubmit? || req.QueueWaitIdle? || req.BindBufferMemory? || req.MapMemory?
  }

  /** `n` new handles, starting at `next`. */
  function FreshHandles(next: Handle, n: nat): (hs: seq<Handle>)
    ensures |hs| == n
    ensures forall k :: 0 <= k < n ==> hs[k] == next + k
  {
    seq(n, k => next + k)
  }

  /** The driver's reply to `req` when it is the call at trace position `position` and
      the allocator's next handle is `next`. */
  function Answer(driver: Driver, req: Request, position: nat, next: Handle): Reply {
    if Fallible(req) && position in driver.refused then Refused
    else if CreatesOne(req) then Made(next)
    else match req
      case GetSwapchainImages(sc) => MadeAll(FreshHandles(next, driver.swapchainImageCount(sc)))
      case AllocateCommandBuffers(_, _, n) => MadeAll(FreshHandles(next, n))
      case AllocateDescriptorSets(_, n, _) => MadeAll(FreshHandles(next, n))
      case GetBufferMemoryRequirements(b) => Requirements(driver.memoryRequirements(b))
      case _ => Done
  }

  /** Requests that hand out a list of handles. */
  predicate ReturnsHandles(req: Request) {
    req.GetSwapchainImages? || req.AllocateCommandBuffers? || req.AllocateDescriptorSets?
  }

  /** How many handles a successful `ReturnsHandles` request hands out: the images
      the implementation made, or as many as were asked for. */
  function HandleCount(driver: Driver, req: Request): nat
    requires ReturnsHandles(req)
  {
    match req
    case GetSwapchainImages(sc) => driver.swapchainImageCount(sc)
    case AllocateCommandBuffers(_, _, n) => n
    case AllocateDescriptorSets(_, n, _) => n
  }

  /** How many handles a reply hands out. */
  function Consumed(reply: Reply): nat {
    match reply
    case Made(_) => 1
    case MadeAll(hs) => |hs|
    case _ => 0
  }

  /** The trace of creating one handle per request, `hs[k]` from `reqs[k]`. */
  function MadeCalls(reqs: seq<Request>, hs: seq<Handle>): (t: seq<Call>)
    requires |hs| == |reqs|
    ensures |t| == |reqs|
    ensures forall k :: 0 <= k < |t| ==> t[k] == Call(reqs[k], Made(hs[k]))
  {
    seq(|reqs|, k requires 0 <= k < |reqs| => Call(reqs[k], Made(hs[k])))
  }

  /** A trace that ends with a refused call: the `expect` on that call aborted. */
  predicate EndsRefused(t: seq<Call>) {
    |t| > 0 && t[|t| - 1].reply == Refused
  }

  /** Handles that are all new since the allocator stood at `lo`, handed out in
      increasing order (hence pairwise distinct). */
  predicate Allocated(hs: seq<Handle>, lo: Handle, hi: Handle) {
    && (forall k :: 0 <= k < |hs| ==> lo <= hs[k] < hi)
    && (forall i, j :: 0 <= i < j < |hs| ==> hs[i] < hs[j])
  }

  class Device {
    const driver: Driver
    var calls: seq<Call>
    var next: Handle

    constructor (driver: Driver)
      ensures this.driver == driver && calls == [] && next == NULL_HANDLE + 1
    {
      this.driver := driver;
      calls := [];
      next := NULL_HANDLE + 1;
    }

    /** Make one call: the driver answers, the call is appended to the trace and the
        handles the reply hands out are taken from the allocator. */
    method Invoke(req: Request) returns (reply: Reply)
      modifies this
      ensures reply == Answer(driver, req, old(|calls|), old(next))
      ensures calls == old(calls) + [Call(req, reply)]
      ensures next == old(next) + Consumed(reply)
      ensures EndsRefused(calls) <==> reply == Refused
    {
      reply := Answer(driver, req, |calls|, next);
      calls := calls + [Call(req, reply)];
      next := next + Consumed(reply);
    }

    /** A call that hands out no handle and returns no data; `done` is whether it
        succeeded (a call returning `void` always does). */
    method Perform(req: Request) returns (done: bool)
      requires !CreatesOne(req) && !ReturnsHandles(req) && !req.GetBufferMemoryRequirements?
      modifies this
      ensures done <==> !(Fallible(req) && old(|calls|) in driver.refused)
      ensures calls == old(calls) + [Call(req, if done then Done else Refused)]
      ensures next == old(next)
      ensures EndsRefused(calls) <==> !done
    {
      var reply := Invoke(req);
      done := reply == Done;
    }

    /** A call that creates one handle: the allocator's next one, unless the call is
        refused. */
    method Create(req: Request) returns (h: Option<Handle>)
      requires CreatesOne(req)
      modifies this
      ensures h.None? <==> old(|calls|) in driver.refused
      ensures h.Some? ==> h.value == old(next) && calls == old(calls) + [Call(req, Made(h.value))]
      ensures h.Some? ==> next == old(next) + 1
      ensures h.None? ==> calls == old(calls) + [Call(req, Refused)]
      ensures EndsRefused(calls) <==> h.None?
    {
      var reply := Invoke(req);
      h := if reply == Refused then None else Some(reply.handle);
    }

    /** A call that hands out several handles: `HandleCount` new ones, in allocation
        order, unless the call is refused. */
    method CreateMany(req: Request) returns (hs: Option<seq<Handle>>)
      requires ReturnsHandles(req)
      modifies this
      ensures hs.None? <==> old(|calls|) in driver.refused
      ensures hs.Some? ==> hs.value == FreshHandles(old(next), HandleCount(driver, req)) &&
                           calls == old(calls) + [Call(req, MadeAll(hs.value))] &&
                           next == old(next) + |hs.value|
      ensures hs.None? ==> calls == old(calls) + [Call(req, Refused)]
      ensures EndsRefused(calls) <==> hs.None?
    {
      var reply := Invoke(req);
      hs := if reply == Refused then None else Some(reply.handles);
    }

    /** `vkGetBufferMemoryRequirements`, which cannot fail. */
    method QueryRequirements(buffer: Handle) returns (requirements: MemoryRequirements)
      modifies this
      ensures requirements == driver.memoryRequirements(buffer)
      ensures calls == old(calls) + [Call(GetBufferMemoryRequirements(buffer), Requirements(requirements))]
      ensures next == old(next)
      ensures !EndsRefused(calls)
    {
      var reply := Invoke(GetBufferMemoryRequirements(buffer));
      requirements := reply.requirements;
    }

    /** Rust's `reqs.iter().map(|r| create(r).expect(..)).collect()`: one handle per
        request, in request order, aborting at the first refused call. */
    method CreateAll(reqs: seq<Request>) returns (r: Result<seq<Handle>>)
      requires forall k :: 0 <= k < |reqs| ==> CreatesOne(reqs[k])
      modifies this
      ensures old(calls) <= calls
      ensures r.Ok? ==> |r.value| == |reqs| && calls == old(calls) + MadeCalls(reqs, r.value)
      ensures r.Ok? ==> Allocated(r.value, old(next), next)
      ensures r.Panicked? ==> r.panic == CallRefused && EndsRefused(calls)
    {
      var hs: seq<Handle> := [];
      var i := 0;
      while i < |reqs|
        invariant 0 <= i <= |reqs| && |hs| == i
        invariant calls == old(calls) + MadeCalls(reqs[..i], hs)
        invariant old(next) <= next && Allocated(hs, old(next), next)
      {
        var h := Create(reqs[i]);
        if h.None? {
          return Panicked(CallRefused);
        }
        assert MadeCalls(reqs[..i + 1], hs + [h.value]) == MadeCalls(reqs[..i], hs) + [Call(reqs[i], Made(h.value))];
        hs := hs + [h.value];
        i := i + 1;
      }
      assert reqs[..i] == reqs;
      r := Ok(hs);
    }
  }
}
