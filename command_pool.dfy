/** src/vulkan/command_pool.rs: the graphics command pool, and one pre-recorded primary
    command buffer per framebuffer that draws the indexed mesh. The number of indices
    (`INDICES_DATA.len()`) is a parameter here. */
module CommandPools {
  import opened Base
  import opened Vk
  import opened Gpu
  import opened QueueFamilies

  // ---------------------------------------------------------------- create_command_pool

  /** `create_command_pool`: a pool for the graphics family (`unwrap() as u32`, which
      panics on a missing family before any call is made). */
  method CreateCommandPool(dev: Device, queueFamilies: QueueFamily) returns (r: Result<Handle>)
    modifies dev
    ensures queueFamilies.graphicsFamily.None? ==>
              r == Panicked(NoGraphicsFamily) && dev.calls == old(dev.calls) && dev.next == old(dev.next)
    ensures r.Ok? ==>
              && queueFamilies.graphicsFamily.Some?
              && r.value == old(dev.next) && dev.next == old(dev.next) + 1
              && dev.calls == old(dev.calls) +
                              [Call(Request.CreateCommandPool(AsU32(queueFamilies.graphicsFamily.value)), Made(r.value))]
    ensures r.Panicked? ==> r.panic == NoGraphicsFamily || (r.panic == CallRefused && EndsRefused(dev.calls))
  {
    if queueFamilies.graphicsFamily.None? {
      return Panicked(NoGraphicsFamily);
    }
    var pool := dev.Create(Request.CreateCommandPool(AsU32(queueFamilies.graphicsFamily.value)));
    if pool.None? {
      return Panicked(CallRefused);
    }
    r := Ok(pool.value);
  }

  // ---------------------------------------------------------------- process_command_buffer

  /** What every command buffer draws with: the arguments of `create_command_buffers`,
      and the number of indices of the mesh. */
  datatype DrawSetup = DrawSetup(
    renderPass: Handle,
    framebuffers: seq<Handle>,
    surfaceExtent: Extent2D,
    graphicsPipeline: Handle,
    vertexBuffer: Handle,
    indexBuffer: Handle,
    pipelineLayout: Handle,
    descriptorSets: seq<Handle>,
    indexCount: nat)

  /** The single clear value: opaque black. */
  const CLEAR_VALUES: seq<ClearValue> := [ClearColorFloat32([0.0, 0.0, 0.0, 1.0])]

  /** The render pass begin info of command buffer `index`. */
  function RenderPassBegin(setup: DrawSetup, index: nat): RenderPassBeginInfo
    requires index < |setup.framebuffers|
  {
    RenderPassBeginInfo(setup.renderPass, setup.framebuffers[index],
                        Rect2D(Offset2D(0, 0), setup.surfaceExtent), CLEAR_VALUES)
  }

  /** The render pass of command buffer `index` draws into `framebuffers[index]`, over the
      whole surface from the origin, clearing to opaque black with one clear value. */
  lemma RenderPassCoversSurface(setup: DrawSetup, index: nat)
    requires index < |setup.framebuffers|
    ensures var info := RenderPassBegin(setup, index);
            && info.renderPass == setup.renderPass && info.framebuffer == setup.framebuffers[index]
            && info.renderArea.offset == Offset2D(0, 0) && info.renderArea.extent == setup.surfaceExtent
            && |info.clearValues| == 1 && info.clearValues[0].rgba == [0.0, 0.0, 0.0, 1.0]
  {
  }

  /** Recording `commandBuffer`'s render pass begin and pipeline bind. */
  function PassCalls(setup: DrawSetup, index: nat, commandBuffer: Handle): seq<Call>
    requires index < |setup.framebuffers|
  {
    [Call(CmdBeginRenderPass(commandBuffer, RenderPassBegin(setup, index), SUBPASS_CONTENTS_INLINE), Done),
     Call(CmdBindPipeline(commandBuffer, PIPELINE_BIND_POINT_GRAPHICS, setup.graphicsPipeline), Done)]
  }

  /** Recording the binds, the draw and the end of the render pass. */
  function DrawCalls(setup: DrawSetup, index: nat, commandBuffer: Handle): seq<Call>
    requires index < |setup.descriptorSets|
  {
    [Call(CmdBindVertexBuffers(commandBuffer, 0, [setup.vertexBuffer], [0]), Done),
     Call(CmdBindIndexBuffer(commandBuffer, setup.indexBuffer, 0, INDEX_TYPE_UINT32), Done),
     Call(CmdBindDescriptorSets(commandBuffer, PIPELINE_BIND_POINT_GRAPHICS, setup.pipelineLayout, 0,
                                [setup.descriptorSets[index]], []), Done),
     Call(CmdDrawIndexed(commandBuffer, AsU32(setup.indexCount), 1, 0, 0, 0), Done),
     Call(CmdEndRenderPass(commandBuffer), Done)]
  }

  /** The whole recording of command buffer `index` when nothing fails. */
  function RecordingCalls(setup: DrawSetup, index: nat, commandBuffer: Handle): (t: seq<Call>)
    requires index < |setup.framebuffers| && index < |setup.descriptorSets|
    ensures |t| == 9
  {
    [Call(BeginCommandBuffer(commandBuffer, COMMAND_BUFFER_USAGE_SIMULTANEOUS_USE), Done)] +
    PassCalls(setup, index, commandBuffer) + DrawCalls(setup, index, commandBuffer) +
    [Call(EndCommandBuffer(commandBuffer), Done)]
  }

  /** Requests that record a command into a command buffer. */
  predicate IsCommand(req: Request) {
    req.BeginCommandBuffer? || req.CmdBeginRenderPass? || req.CmdBindPipeline? || req.CmdBindVertexBuffers? ||
    req.CmdBindIndexBuffer? || req.CmdBindDescriptorSets? || req.CmdDrawIndexed? || req.CmdEndRenderPass? ||
    req.EndCommandBuffer?
  }

  /** Requests that bind state a draw reads. */
  predicate IsBind(req: Request) {
    req.CmdBindPipeline? || req.CmdBindVertexBuffers? || req.CmdBindIndexBuffer? || req.CmdBindDescriptorSets?
  }

  /** A recording that Vulkan accepts for one draw: every command goes into
      `commandBuffer`, which is begun first and ended last and nowhere else, every
      draw lies inside a render pass, and all state is bound before any draw. */
  predicate WellFormedRecording(t: seq<Call>, commandBuffer: Handle) {
    && |t| >= 2
    && (forall k :: 0 <= k < |t| ==> IsCommand(t[k].request) && t[k].request.commandBuffer == commandBuffer)
    && t[0].request.BeginCommandBuffer? && t[|t| - 1].request.EndCommandBuffer?
    && (forall k :: 0 < k < |t| - 1 ==> !t[k].request.BeginCommandBuffer? && !t[k].request.EndCommandBuffer?)
    && (forall d :: 0 <= d < |t| && t[d].request.CmdDrawIndexed? ==>
          (exists p :: 0 <= p < d && t[p].request.CmdBeginRenderPass?) &&
          (exists q :: d < q < |t| && t[q].request.CmdEndRenderPass?))
    && (forall b, d :: 0 <= b < |t| && 0 <= d < |t| && IsBind(t[b].request) && t[d].request.CmdDrawIndexed? ==> b < d)
  }

  /** Each command buffer's recording is well formed. */
  lemma RecordingWellFormed(setup: DrawSetup, index: nat, commandBuffer: Handle)
    requires index < |setup.framebuffers| && index < |setup.descriptorSets|
    ensures WellFormedRecording(RecordingCalls(setup, index, commandBuffer), commandBuffer)
  {
    var t := RecordingCalls(setup, index, commandBuffer);
    assert t[1].request.CmdBeginRenderPass? && t[7].request.CmdEndRenderPass?;
    assert forall d :: 0 <= d < |t| && t[d].request.CmdDrawIndexed? ==> d == 6;
  }

  /** Each command buffer is begun for simultaneous use and renders into framebuffer
      `index`; it draws `indexCount` indices (`as u32`) of one instance from the start,
      with the vertex buffer at binding 0 and offset 0, the `u32` index buffer at offset
      0 and descriptor set `index` as set 0 of the pipeline layout. */
  lemma RecordingArguments(setup: DrawSetup, index: nat, commandBuffer: Handle)
    requires index < |setup.framebuffers| && index < |setup.descriptorSets|
    ensures var t := RecordingCalls(setup, index, commandBuffer);
            && t[0].request.usage == COMMAND_BUFFER_USAGE_SIMULTANEOUS_USE
            && t[1].request.begin == RenderPassBegin(setup, index)
            && t[3].request == CmdBindVertexBuffers(commandBuffer, 0, [setup.vertexBuffer], [0])
            && t[4].request == CmdBindIndexBuffer(commandBuffer, setup.indexBuffer, 0, INDEX_TYPE_UINT32)
            && t[5].request.sets == [setup.descriptorSets[index]] && t[5].request.firstSet == 0
            && t[5].request.layout == setup.pipelineLayout
            && t[6].request == CmdDrawIndexed(commandBuffer, AsU32(setup.indexCount), 1, 0, 0, 0)
  {
  }

  /** `process_command_buffer` for command buffer `index`, step by step: begin, the
      render pass into `framebuffers[index]` (Rust's indexing panics when it is out of
      range), the binds with `descriptor_sets[index]` (likewise), the draw, and the end.
      The commands between begin and end return nothing and cannot fail. */
  method ProcessCommandBuffer(dev: Device, setup: DrawSetup, index: nat, commandBuffer: Handle)
    returns (r: Result<()>)
    modifies dev
    ensures dev.next == old(dev.next)
    ensures r.Ok? ==>
              index < |setup.framebuffers| && index < |setup.descriptorSets| &&
              dev.calls == old(dev.calls) + RecordingCalls(setup, index, commandBuffer)
    ensures r.Panicked? ==>
              (r.panic == CallRefused && EndsRefused(dev.calls)) ||
              (r.panic == IndexOutOfBounds &&
               (index >= |setup.framebuffers| || index >= |setup.descriptorSets|))
  {
    var begun := dev.Perform(BeginCommandBuffer(commandBuffer, COMMAND_BUFFER_USAGE_SIMULTANEOUS_USE));
    if !begun {
      return Panicked(CallRefused);
    }
    if index >= |setup.framebuffers| {
      return Panicked(IndexOutOfBounds);
    }
    RecordPass(dev, setup, index, commandBuffer);
    if index >= |setup.descriptorSets| {
      return Panicked(IndexOutOfBounds);
    }
    RecordDraw(dev, setup, index, commandBuffer);
    var ended := dev.Perform(EndCommandBuffer(commandBuffer));
    if !ended {
      return Panicked(CallRefused);
    }
    r := Ok(());
  }

  /** The render pass begin and the pipeline bind. */
  method RecordPass(dev: Device, setup: DrawSetup, index: nat, commandBuffer: Handle)
    requires index < |setup.framebuffers|
    modifies dev
    ensures dev.next == old(dev.next)
    ensures dev.calls == old(dev.calls) + PassCalls(setup, index, commandBuffer)
  {
    var _ := dev.Perform(CmdBeginRenderPass(commandBuffer, RenderPassBegin(setup, index), SUBPASS_CONTENTS_INLINE));
    var _ := dev.Perform(CmdBindPipeline(commandBuffer, PIPELINE_BIND_POINT_GRAPHICS, setup.graphicsPipeline));
  }

  /** The binds, the draw and the end of the render pass. */
  method RecordDraw(dev: Device, setup: DrawSetup, index: nat, commandBuffer: Handle)
    requires index < |setup.descriptorSets|
    modifies dev
    ensures dev.next == old(dev.next)
    ensures dev.calls == old(dev.calls) + DrawCalls(setup, index, commandBuffer)
  {
    var _ := dev.Perform(CmdBindVertexBuffers(commandBuffer, 0, [setup.vertexBuffer], [0]));
    var _ := dev.Perform(CmdBindIndexBuffer(commandBuffer, setup.indexBuffer, 0, INDEX_TYPE_UINT32));
    var _ := dev.Perform(CmdBindDescriptorSets(commandBuffer, PIPELINE_BIND_POINT_GRAPHICS, setup.pipelineLayout, 0,
                                               [setup.descriptorSets[index]], []));
    var _ := dev.Perform(CmdDrawIndexed(commandBuffer, AsU32(setup.indexCount), 1, 0, 0, 0));
    var _ := dev.Perform(CmdEndRenderPass(commandBuffer));
  }

  // ---------------------------------------------------------------- create_command_buffers

  /** The recordings of the first `n` command buffers, buffer `k` against
      framebuffer `k` and descriptor set `k`. */
  function RecordedCalls(setup: DrawSetup, commandBuffers: seq<Handle>, n: nat): seq<Call>
    requires n <= |commandBuffers| && n <= |setup.framebuffers| && n <= |setup.descriptorSets|
    decreases n
  {
    if n == 0 then []
    else RecordedCalls(setup, commandBuffers, n - 1) + RecordingCalls(setup, n - 1, commandBuffers[n - 1])
  }

  /** The recordings follow one another in command buffer order, nine calls each, and
      the `k`th block is the recording of buffer `k`. */
  lemma {:induction false} RecordedCallsInOrder(setup: DrawSetup, commandBuffers: seq<Handle>, n: nat)
    requires n <= |commandBuffers| && n <= |setup.framebuffers| && n <= |setup.descriptorSets|
    ensures var t := RecordedCalls(setup, commandBuffers, n);
            && |t| == 9 * n
            && forall k :: 0 <= k < n ==>
                 t[9 * k .. 9 * k + 9] == RecordingCalls(setup, k, commandBuffers[k])
    decreases n
  {
    if n > 0 {
      RecordedCallsInOrder(setup, commandBuffers, n - 1);
      var prefix := RecordedCalls(setup, commandBuffers, n - 1);
      var t := prefix + RecordingCalls(setup, n - 1, commandBuffers[n - 1]);
      forall k | 0 <= k < n
        ensures t[9 * k .. 9 * k + 9] == RecordingCalls(setup, k, commandBuffers[k])
      {
        if k < n - 1 {
          assert t[9 * k .. 9 * k + 9] == prefix[9 * k .. 9 * k + 9];
        } else {
          assert t[9 * k .. 9 * k + 9] == t[|prefix| ..];
        }
      }
    }
  }

  /** The `for` loop of `create_command_buffers`: command buffer `i` records the draw
      into framebuffer `i`, in order; the first failure panics. */
  method RecordCommandBuffers(dev: Device, setup: DrawSetup, commandBuffers: seq<Handle>) returns (r: Result<()>)
    modifies dev
    ensures dev.next == old(dev.next)
    ensures r.Ok? ==>
              |commandBuffers| <= |setup.framebuffers| && |commandBuffers| <= |setup.descriptorSets| &&
              dev.calls == old(dev.calls) + RecordedCalls(setup, commandBuffers, |commandBuffers|)
    ensures r.Panicked? ==>
              (r.panic == CallRefused && EndsRefused(dev.calls)) ||
              (r.panic == IndexOutOfBounds &&
               (|setup.framebuffers| < |commandBuffers| || |setup.descriptorSets| < |commandBuffers|))
  {
    var i := 0;
    while i < |commandBuffers|
      invariant 0 <= i <= |commandBuffers|
      invariant i <= |setup.framebuffers| && i <= |setup.descriptorSets|
      invariant dev.calls == old(dev.calls) + RecordedCalls(setup, commandBuffers, i)
      invariant dev.next == old(dev.next)
    {
      var recorded := ProcessCommandBuffer(dev, setup, i, commandBuffers[i]);
      if recorded.Panicked? {
        return Panicked(recorded.panic);
      }
      assert RecordedCalls(setup, commandBuffers, i + 1) ==
             RecordedCalls(setup, commandBuffers, i) + RecordingCalls(setup, i, commandBuffers[i]);
      i := i + 1;
    }
    r := Ok(());
  }

  /** `create_command_buffers`: allocates `framebuffers.len() as u32` primary command
      buffers from `pool` and records buffer `k` against framebuffer `k` and descriptor
      set `k`; there must be a descriptor set for each buffer, or the recording of the
      first buffer without one panics. */
  method CreateCommandBuffers(dev: Device, pool: Handle, setup: DrawSetup) returns (r: Result<seq<Handle>>)
    modifies dev
    ensures r.Ok? ==>
              var count := AsU32(|setup.framebuffers|);
              && r.value == FreshHandles(old(dev.next), count)
              && count <= |setup.descriptorSets|
              && dev.next == old(dev.next) + count
              && dev.calls == old(dev.calls) +
                              [Call(AllocateCommandBuffers(pool, COMMAND_BUFFER_LEVEL_PRIMARY, count), MadeAll(r.value))] +
                              RecordedCalls(setup, r.value, count)
    ensures r.Panicked? ==>
              (r.panic == CallRefused && EndsRefused(dev.calls)) ||
              (r.panic == IndexOutOfBounds && |setup.descriptorSets| < AsU32(|setup.framebuffers|))
  {
    var count := AsU32(|setup.framebuffers|);
    var handed := dev.CreateMany(AllocateCommandBuffers(pool, COMMAND_BUFFER_LEVEL_PRIMARY, count));
    if handed.None? {
      return Panicked(CallRefused);
    }
    var recorded := RecordCommandBuffers(dev, setup, handed.value);
    if recorded.Panicked? {
      return Panicked(recorded.panic);
    }
    r := Ok(handed.value);
  }
}
