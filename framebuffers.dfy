/** src/vulkan/framebuffers.rs: one framebuffer per swapchain image view. */
module Framebuffers {
  import opened Base
  import opened Vk
  import opened Gpu

  /** The create info for the framebuffer of `view`: the single attachment is that view,
      drawn by `renderPass`, as large as the swapchain, one layer deep. */
  predicate IsViewFramebuffer(info: FramebufferCreateInfo, renderPass: Handle, view: Handle, extent: Extent2D) {
    && info.renderPass == renderPass
    && info.attachments == [view]
    && info.width == extent.width && info.height == extent.height
    && info.layers == 1
  }

  /** The first `map` of `create_framebuffers`: one create info per image view, in view
      order. */
  function FramebufferRequests(renderPass: Handle, imageViews: seq<Handle>, extent: Extent2D): (reqs: seq<Request>)
    ensures |reqs| == |imageViews|
    ensures forall k :: 0 <= k < |reqs| ==>
              reqs[k].CreateFramebuffer? && IsViewFramebuffer(reqs[k].framebufferInfo, renderPass, imageViews[k], extent)
  {
    seq(|imageViews|, k requires 0 <= k < |imageViews| =>
      CreateFramebuffer(FramebufferCreateInfo(renderPass, [imageViews[k]], extent.width, extent.height, 1)))
  }

  /** Two framebuffers of one call share their render pass and their size, and differ
      exactly where their views differ. */
  lemma FramebuffersShareRenderPass(renderPass: Handle, imageViews: seq<Handle>, extent: Extent2D, i: nat, j: nat)
    requires i < |imageViews| && j < |imageViews|
    ensures var reqs := FramebufferRequests(renderPass, imageViews, extent);
            && reqs[i].framebufferInfo.renderPass == reqs[j].framebufferInfo.renderPass
            && reqs[i].framebufferInfo.width == reqs[j].framebufferInfo.width
            && reqs[i].framebufferInfo.height == reqs[j].framebufferInfo.height
            && (reqs[i] == reqs[j] <==> imageViews[i] == imageViews[j])
  {
    var reqs := FramebufferRequests(renderPass, imageViews, extent);
    if reqs[i] == reqs[j] {
      assert reqs[i].framebufferInfo.attachments[0] == imageViews[i];
      assert reqs[j].framebufferInfo.attachments[0] == imageViews[j];
    }
  }

  /** `create_framebuffers`: `framebuffers[k]` is made from `imageViews[k]`; the first
      refused creation panics. */
  method CreateFramebuffers(dev: Device, renderPass: Handle, imageViews: seq<Handle>, extent: Extent2D)
    returns (r: Result<seq<Handle>>)
    modifies dev
    ensures r.Ok? ==> |r.value| == |imageViews|
    ensures r.Ok? ==> dev.calls == old(dev.calls) + MadeCalls(FramebufferRequests(renderPass, imageViews, extent), r.value)
    ensures r.Ok? ==> Allocated(r.value, old(dev.next), dev.next)
    ensures r.Panicked? ==> r.panic == CallRefused && EndsRefused(dev.calls)
  {
    r := dev.CreateAll(FramebufferRequests(renderPass, imageViews, extent));
  }
}
