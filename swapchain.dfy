/** src/vulkan/swapchain.rs: negotiating a swapchain from what the surface reports
    (format, present mode, extent, image count) and building one image view per
    swapchain image. The rules follow the Surface Queries section of the Window System
    Integration chapter of the Vulkan specification: a current extent whose width is
    0xFFFFFFFF means "decided by the swapchain", and a maximum image count of 0 means
    "no limit". */
module Swapchains {
  import opened Base
  import opened Vk
  import opened Gpu
  import Iter

  /** `SwapChainSupportDetail`: what `determine_swapchain_support` queries. */
  datatype SwapchainSupport = SwapchainSupport(
    capabilities: SurfaceCapabilities, formats: seq<SurfaceFormat>, presentModes: seq<PresentMode>)

  /** `PotatoSwapChain` (the extension loader is not modelled). */
  datatype PotatoSwapchain = PotatoSwapchain(
    swapchain: Handle,
    swapchainImages: seq<Handle>,
    swapchainFormat: Format,
    swapchainExtent: Extent2D,
    swapchainImageViews: seq<Handle>)

  // ---------------------------------------------------------------- format

  const PREFERRED_FORMAT := SurfaceFormat(FORMAT_B8G8R8A8_SRGB, COLOR_SPACE_SRGB_NONLINEAR)

  predicate IsPreferredFormat(f: SurfaceFormat) {
    f.format == FORMAT_B8G8R8A8_SRGB && f.colorSpace == COLOR_SPACE_SRGB_NONLINEAR
  }

  /** `choose_swapchain_format`: the 8-bit BGRA sRGB format in the non-linear sRGB
      colour space when the surface offers it, else the first format offered. The
      fallback `first().unwrap()` panics on an empty list; device selection has
      already rejected devices without formats. */
  function ChooseSwapchainFormat(formats: seq<SurfaceFormat>): (r: SurfaceFormat)
    requires |formats| > 0
    ensures r in formats
    ensures (exists j :: 0 <= j < |formats| && formats[j] == PREFERRED_FORMAT) ==> r == PREFERRED_FORMAT
    ensures (forall j :: 0 <= j < |formats| ==> formats[j] != PREFERRED_FORMAT) ==> r == formats[0]
  {
    Iter.Find(formats, IsPreferredFormat).GetOr(formats[0])
  }

  // ---------------------------------------------------------------- present mode

  /** `choose_swapchain_present_mode`: mailbox when offered, else FIFO (which every
      implementation supports). */
  function ChooseSwapchainPresentMode(modes: seq<PresentMode>): (r: PresentMode)
    ensures r == PRESENT_MODE_MAILBOX <==> PRESENT_MODE_MAILBOX in modes
    ensures r == PRESENT_MODE_MAILBOX || r == PRESENT_MODE_FIFO
  {
    Iter.Find(modes, m => m == PRESENT_MODE_MAILBOX).GetOr(PRESENT_MODE_FIFO)
  }

  /** The chosen mode depends only on which modes are offered, not on their order or
      multiplicity. */
  lemma PresentModeIgnoresOrder(a: seq<PresentMode>, b: seq<PresentMode>)
    requires forall m :: m in a <==> m in b
    ensures ChooseSwapchainPresentMode(a) == ChooseSwapchainPresentMode(b)
  {
    assert forall x: int :: x in a <==> x in b;
    Iter.FindUniqueCandidate(a, b, m => m == PRESENT_MODE_MAILBOX, PRESENT_MODE_MAILBOX);
  }

  // ---------------------------------------------------------------- extent

  const DEFAULT_WIDTH: u32 := 800
  const DEFAULT_HEIGHT: u32 := 600

  /** `num::clamp(input, min, max)` as a release build runs it (its `min <= max`
      check is a debug assertion). */
  function Clamp(input: u32, min: u32, max: u32): (r: u32)
    ensures min <= max ==> min <= r <= max
    ensures min <= input <= max ==> r == input
    ensures r == input || r == min || r == max
  {
    if input < min then min else if input > max then max else input
  }

  /** `extent` lies within `[lo, hi]` on both axes. */
  predicate Within(extent: Extent2D, lo: Extent2D, hi: Extent2D) {
    lo.width <= extent.width <= hi.width && lo.height <= extent.height <= hi.height
  }

  /** `choose_swapchain_extent`: the surface's current extent when its width is
      defined, else the default window size 800x600 clamped into the allowed range on
      each axis. */
  function ChooseSwapchainExtent(caps: SurfaceCapabilities): (r: Extent2D)
    ensures caps.currentExtent.width != U32_MAX ==> r == caps.currentExtent
    ensures caps.currentExtent.width == U32_MAX ==>
              (caps.minImageExtent.width <= caps.maxImageExtent.width &&
               caps.minImageExtent.height <= caps.maxImageExtent.height ==>
                 Within(r, caps.minImageExtent, caps.maxImageExtent))
    ensures caps.currentExtent.width == U32_MAX &&
            Within(Extent2D(DEFAULT_WIDTH, DEFAULT_HEIGHT), caps.minImageExtent, caps.maxImageExtent) ==>
              r == Extent2D(DEFAULT_WIDTH, DEFAULT_HEIGHT)
  {
    if caps.currentExtent.width != U32_MAX then caps.currentExtent
    else Extent2D(
      Clamp(DEFAULT_WIDTH, caps.minImageExtent.width, caps.maxImageExtent.width),
      Clamp(DEFAULT_HEIGHT, caps.minImageExtent.height, caps.maxImageExtent.height))
  }

  // ---------------------------------------------------------------- image count

  /** The image count `create_swapchain` requests: the maximum when there is one, else
      one more than the minimum (`u32` addition, wrapping as a release build does). */
  function ImageCount(caps: SurfaceCapabilities): (r: u32)
    ensures caps.maxImageCount > 0 ==> r == caps.maxImageCount
    ensures caps.maxImageCount == 0 && caps.minImageCount < U32_MAX ==> r == caps.minImageCount + 1
    ensures caps.maxImageCount == 0 && caps.minImageCount == U32_MAX ==> r == 0
  {
    if caps.maxImageCount > 0 then caps.maxImageCount else AsU32(caps.minImageCount + 1)
  }

  /** Capabilities as the Vulkan specification guarantees them: at least one image,
      and a maximum that is either "no limit" or not below the minimum. */
  predicate ConsistentCounts(caps: SurfaceCapabilities) {
    caps.minImageCount >= 1 && (caps.maxImageCount == 0 || caps.maxImageCount >= caps.minImageCount)
  }

  /** The requested count is one the surface accepts: at least the minimum and at
      most the maximum, when there is a maximum. */
  lemma ImageCountAccepted(caps: SurfaceCapabilities)
    requires ConsistentCounts(caps) && caps.minImageCount < U32_MAX
    ensures caps.minImageCount <= ImageCount(caps)
    ensures caps.maxImageCount > 0 ==> ImageCount(caps) <= caps.maxImageCount
  {
  }

  // ---------------------------------------------------------------- create_swapchain

  /** The `SwapchainCreateInfoKHR` that `create_swapchain` fills in. */
  function SwapchainCreateInfoFor(surface: Handle, support: SwapchainSupport): (info: SwapchainCreateInfo)
    requires |support.formats| > 0
    ensures SurfaceFormat(info.imageFormat, info.imageColorSpace) in support.formats
    ensures info.presentMode == PRESENT_MODE_MAILBOX <==> PRESENT_MODE_MAILBOX in support.presentModes
    ensures support.capabilities.maxImageCount > 0 ==> info.minImageCount == support.capabilities.maxImageCount
  {
    var format := ChooseSwapchainFormat(support.formats);
    SwapchainCreateInfo(
      surface := surface,
      minImageCount := ImageCount(support.capabilities),
      imageFormat := format.format,
      imageColorSpace := format.colorSpace,
      imageExtent := ChooseSwapchainExtent(support.capabilities),
      imageArrayLayers := 1,
      imageUsage := IMAGE_USAGE_COLOR_ATTACHMENT,
      imageSharingMode := SHARING_MODE_EXCLUSIVE,
      queueFamilyIndices := [],
      preTransform := support.capabilities.currentTransform,
      compositeAlpha := COMPOSITE_ALPHA_OPAQUE,
      presentMode := ChooseSwapchainPresentMode(support.presentModes),
      clipped := true,
      oldSwapchain := NULL_HANDLE)
  }

  /** The view `create_image_view` describes for `image`. */
  function ImageViewInfo(format: Format, image: Handle): (info: ImageViewCreateInfo)
    ensures IsPlainColorView(info, format, image)
  {
    ImageViewCreateInfo(
      image := image,
      viewType := IMAGE_VIEW_TYPE_2D,
      format := format,
      components := ComponentMapping(COMPONENT_SWIZZLE_IDENTITY, COMPONENT_SWIZZLE_IDENTITY,
                                     COMPONENT_SWIZZLE_IDENTITY, COMPONENT_SWIZZLE_IDENTITY),
      subresourceRange := ImageSubresourceRange(IMAGE_ASPECT_COLOR, 0, 1, 0, 1))
  }

  /** A colour view of the whole of a single-level, single-layer 2D image, in the given
      format, with every component passed through unchanged. */
  predicate IsPlainColorView(info: ImageViewCreateInfo, format: Format, image: Handle) {
    && info.image == image
    && info.viewType == IMAGE_VIEW_TYPE_2D
    && info.format == format
    && info.components.r == COMPONENT_SWIZZLE_IDENTITY && info.components.g == COMPONENT_SWIZZLE_IDENTITY
    && info.components.b == COMPONENT_SWIZZLE_IDENTITY && info.components.a == COMPONENT_SWIZZLE_IDENTITY
    && info.subresourceRange.aspectMask == IMAGE_ASPECT_COLOR
    && info.subresourceRange.baseMipLevel == 0 && info.subresourceRange.levelCount == 1
    && info.subresourceRange.baseArrayLayer == 0 && info.subresourceRange.layerCount == 1
  }

  /** One view request per image, in image order. */
  function ViewRequests(format: Format, images: seq<Handle>): (reqs: seq<Request>)
    ensures |reqs| == |images|
    ensures forall k :: 0 <= k < |reqs| ==>
              reqs[k].CreateImageView? && IsPlainColorView(reqs[k].viewInfo, format, images[k])
  {
    seq(|images|, k requires 0 <= k < |images| => CreateImageView(ImageViewInfo(format, images[k])))
  }

  /** `create_image_views`: one view per swapchain image, `views[k]` of `images[k]`. */
  method CreateImageViews(dev: Device, format: Format, images: seq<Handle>) returns (r: Result<seq<Handle>>)
    modifies dev
    ensures r.Ok? ==> |r.value| == |images|
    ensures r.Ok? ==> dev.calls == old(dev.calls) + MadeCalls(ViewRequests(format, images), r.value)
    ensures r.Ok? ==> Allocated(r.value, old(dev.next), dev.next)
    ensures r.Panicked? ==> r.panic == CallRefused && EndsRefused(dev.calls)
  {
    r := dev.CreateAll(ViewRequests(format, images));
  }

  /** The calls `create_swapchain` makes when nothing fails. */
  function SwapchainCalls(surface: Handle, support: SwapchainSupport, sc: PotatoSwapchain): seq<Call>
    requires |support.formats| > 0
    requires |sc.swapchainImageViews| == |sc.swapchainImages|
  {
    [Call(CreateSwapchain(SwapchainCreateInfoFor(surface, support)), Made(sc.swapchain)),
     Call(GetSwapchainImages(sc.swapchain), MadeAll(sc.swapchainImages))] +
    MadeCalls(ViewRequests(sc.swapchainFormat, sc.swapchainImages), sc.swapchainImageViews)
  }

  /** The first half of `create_swapchain`: create the swapchain from `info` and fetch
      the images the implementation made for it. */
  method CreateSwapchainImages(dev: Device, info: SwapchainCreateInfo) returns (r: Result<(Handle, seq<Handle>)>)
    modifies dev
    ensures r.Ok? ==>
              var (swapchain, images) := r.value;
              && |images| == dev.driver.swapchainImageCount(swapchain)
              && dev.calls == old(dev.calls) + [Call(CreateSwapchain(info), Made(swapchain)),
                                                Call(GetSwapchainImages(swapchain), MadeAll(images))]
    ensures r.Panicked? ==> r.panic == CallRefused && EndsRefused(dev.calls)
  {
    var swapchain := dev.Create(CreateSwapchain(info));
    if swapchain.None? {
      return Panicked(CallRefused);
    }
    var images := dev.CreateMany(GetSwapchainImages(swapchain.value));
    if images.None? {
      return Panicked(CallRefused);
    }
    r := Ok((swapchain.value, images.value));
  }

  /** `create_swapchain`: create the swapchain with the negotiated parameters, fetch its
      images and make one view per image. The result records the chosen format and
      extent. */
  method CreateSwapchainFor(dev: Device, surface: Handle, support: SwapchainSupport)
    returns (r: Result<PotatoSwapchain>)
    requires |support.formats| > 0
    modifies dev
    ensures r.Ok? ==>
              var sc := r.value;
              && sc.swapchainFormat == ChooseSwapchainFormat(support.formats).format
              && sc.swapchainExtent == ChooseSwapchainExtent(support.capabilities)
              && |sc.swapchainImages| == dev.driver.swapchainImageCount(sc.swapchain)
              && |sc.swapchainImageViews| == |sc.swapchainImages|
              && dev.calls == old(dev.calls) + SwapchainCalls(surface, support, sc)
    ensures r.Panicked? ==> r.panic == CallRefused && EndsRefused(dev.calls)
  {
    var format := ChooseSwapchainFormat(support.formats);
    var extent := ChooseSwapchainExtent(support.capabilities);
    var created := CreateSwapchainImages(dev, SwapchainCreateInfoFor(surface, support));
    if created.Panicked? {
      return Panicked(CallRefused);
    }
    var (swapchain, images) := created.value;
    ghost var before := dev.calls;
    var views := CreateImageViews(dev, format.format, images);
    if views.Panicked? {
      return Panicked(CallRefused);
    }
    var sc := PotatoSwapchain(swapchain, images, format.format, extent, views.value);
    assert dev.calls == old(dev.calls) + SwapchainCalls(surface, support, sc) by {
      assert dev.calls == before + MadeCalls(ViewRequests(format.format, images), views.value);
    }
    r := Ok(sc);
  }

  /** What `create_swapchain` asks for: the negotiated format, colour space, extent,
      present mode and image count, exclusive sharing with no queue family indices, one
      layer of colour-attachment images, opaque composition, clipping on, and no
      previous swapchain. */
  lemma SwapchainRequest(surface: Handle, support: SwapchainSupport)
    requires |support.formats| > 0
    ensures var info := SwapchainCreateInfoFor(surface, support);
            var format := ChooseSwapchainFormat(support.formats);
            && info.surface == surface
            && info.imageFormat == format.format && info.imageColorSpace == format.colorSpace
            && info.imageExtent == ChooseSwapchainExtent(support.capabilities)
            && info.presentMode == ChooseSwapchainPresentMode(support.presentModes)
            && info.minImageCount == ImageCount(support.capabilities)
            && info.imageSharingMode == SHARING_MODE_EXCLUSIVE && info.queueFamilyIndices == []
            && info.imageArrayLayers == 1 && info.imageUsage == IMAGE_USAGE_COLOR_ATTACHMENT
            && info.preTransform == support.capabilities.currentTransform
            && info.compositeAlpha == COMPOSITE_ALPHA_OPAQUE && info.clipped
            && info.oldSwapchain == NULL_HANDLE
  {
  }

  /** A surface offering only RGBA UNORM, only FIFO, one to unlimited images and an
      undefined current extent within 64x64..4096x4096: the first format, FIFO, the
      default 800x600 and two images. */
  lemma NegotiationExample()
    ensures var caps := SurfaceCapabilities(1, 0, Extent2D(U32_MAX, U32_MAX), Extent2D(64, 64),
                                            Extent2D(4096, 4096), 1);
            var formats := [SurfaceFormat(FORMAT_R8G8B8A8_UNORM, COLOR_SPACE_SRGB_NONLINEAR)];
            && ChooseSwapchainFormat(formats) == formats[0]
            && ChooseSwapchainPresentMode([PRESENT_MODE_FIFO]) == PRESENT_MODE_FIFO
            && ChooseSwapchainExtent(caps) == Extent2D(800, 600)
            && ImageCount(caps) == 2
  {
  }
}
