/** The Vulkan structures and enumerants (as `ash::vk` exposes them) that the modelled
    code builds or reads. Enumerants and flag bits carry the numeric values the Vulkan
    specification assigns them; a value reported by a driver may be any number.
    Floating-point members (clear colours, priorities) are kept as exact reals and
    never computed with. Pointer-and-count pairs become sequences. */
module Vk {
  import opened Base

  /** A non-dispatchable Vulkan handle. `NULL_HANDLE` is never handed out. */
  type Handle = nat
  const NULL_HANDLE: Handle := 0

  // VkFormat
  type Format = int
  const FORMAT_R8G8B8A8_UNORM: Format := 37
  const FORMAT_B8G8R8A8_SRGB: Format := 50
  const FORMAT_R32G32_SFLOAT: Format := 103
  const FORMAT_R32G32B32_SFLOAT: Format := 106

  // VkColorSpaceKHR
  type ColorSpace = int
  const COLOR_SPACE_SRGB_NONLINEAR: ColorSpace := 0

  // VkPresentModeKHR
  type PresentMode = int
  const PRESENT_MODE_IMMEDIATE: PresentMode := 0
  const PRESENT_MODE_MAILBOX: PresentMode := 1
  const PRESENT_MODE_FIFO: PresentMode := 2
  const PRESENT_MODE_FIFO_RELAXED: PresentMode := 3

  // VkPhysicalDeviceType
  const PHYSICAL_DEVICE_TYPE_OTHER: int := 0
  const PHYSICAL_DEVICE_TYPE_INTEGRATED_GPU: int := 1
  const PHYSICAL_DEVICE_TYPE_DISCRETE_GPU: int := 2
  const PHYSICAL_DEVICE_TYPE_VIRTUAL_GPU: int := 3
  const PHYSICAL_DEVICE_TYPE_CPU: int := 4

  // Other enumerants
  const SHARING_MODE_EXCLUSIVE: int := 0
  const IMAGE_VIEW_TYPE_2D: int := 1
  const COMPONENT_SWIZZLE_IDENTITY: int := 0
  const COMMAND_BUFFER_LEVEL_PRIMARY: int := 0
  const SUBPASS_CONTENTS_INLINE: int := 0
  const PIPELINE_BIND_POINT_GRAPHICS: int := 0
  const INDEX_TYPE_UINT32: int := 1
  const DESCRIPTOR_TYPE_UNIFORM_BUFFER: int := 6
  const VERTEX_INPUT_RATE_VERTEX: int := 0

  // Flag bits
  const QUEUE_GRAPHICS: bv32 := 0x1
  const MEMORY_PROPERTY_DEVICE_LOCAL: bv32 := 0x1
  const MEMORY_PROPERTY_HOST_VISIBLE: bv32 := 0x2
  const MEMORY_PROPERTY_HOST_COHERENT: bv32 := 0x4
  const BUFFER_USAGE_TRANSFER_SRC: bv32 := 0x1
  const BUFFER_USAGE_TRANSFER_DST: bv32 := 0x2
  const BUFFER_USAGE_UNIFORM_BUFFER: bv32 := 0x10
  const BUFFER_USAGE_INDEX_BUFFER: bv32 := 0x40
  const BUFFER_USAGE_VERTEX_BUFFER: bv32 := 0x80
  const IMAGE_USAGE_COLOR_ATTACHMENT: bv32 := 0x10
  const IMAGE_ASPECT_COLOR: bv32 := 0x1
  const COMPOSITE_ALPHA_OPAQUE: bv32 := 0x1
  const SHADER_STAGE_VERTEX: bv32 := 0x1
  const COMMAND_BUFFER_USAGE_ONE_TIME_SUBMIT: bv32 := 0x1
  const COMMAND_BUFFER_USAGE_SIMULTANEOUS_USE: bv32 := 0x4
  const FENCE_CREATE_SIGNALED: bv32 := 0x1
  const NO_FLAGS: bv32 := 0

  /** `flags.contains(required)` of ash's flag types: every required bit is set. */
  predicate Contains(flags: bv32, required: bv32) {
    flags & required == required
  }

  /** The number of memory types a `VkPhysicalDeviceMemoryProperties` always holds
      (`VK_MAX_MEMORY_TYPES`). */
  const MAX_MEMORY_TYPES: nat := 32

  datatype Extent2D = Extent2D(width: u32, height: u32)
  datatype Offset2D = Offset2D(x: int, y: int)
  datatype Rect2D = Rect2D(offset: Offset2D, extent: Extent2D)

  datatype SurfaceFormat = SurfaceFormat(format: Format, colorSpace: ColorSpace)

  datatype SurfaceCapabilities = SurfaceCapabilities(
    minImageCount: u32,
    maxImageCount: u32,
    currentExtent: Extent2D,
    minImageExtent: Extent2D,
    maxImageExtent: Extent2D,
    currentTransform: bv32)

  datatype QueueFamilyProperties = QueueFamilyProperties(queueFlags: bv32, queueCount: u32)

  datatype MemoryType = MemoryType(propertyFlags: bv32, heapIndex: u32)

  /** `VkPhysicalDeviceMemoryProperties`; the memory heaps are not modelled. All
      `MAX_MEMORY_TYPES` entries are present, the ones past `memoryTypeCount` included. */
  datatype MemoryProperties = MemoryProperties(memoryTypeCount: u32, memoryTypes: seq<MemoryType>)

  datatype MemoryRequirements = MemoryRequirements(size: u64, alignment: u64, memoryTypeBits: bv32)

  datatype SwapchainCreateInfo = SwapchainCreateInfo(
    surface: Handle,
    minImageCount: u32,
    imageFormat: Format,
    imageColorSpace: ColorSpace,
    imageExtent: Extent2D,
    imageArrayLayers: u32,
    imageUsage: bv32,
    imageSharingMode: int,
    queueFamilyIndices: seq<u32>,
    preTransform: bv32,
    compositeAlpha: bv32,
    presentMode: PresentMode,
    clipped: bool,
    oldSwapchain: Handle)

  datatype ComponentMapping = ComponentMapping(r: int, g: int, b: int, a: int)

  datatype ImageSubresourceRange = ImageSubresourceRange(
    aspectMask: bv32, baseMipLevel: u32, levelCount: u32, baseArrayLayer: u32, layerCount: u32)

  datatype ImageViewCreateInfo = ImageViewCreateInfo(
    image: Handle,
    viewType: int,
    format: Format,
    components: ComponentMapping,
    subresourceRange: ImageSubresourceRange)

  datatype FramebufferCreateInfo = FramebufferCreateInfo(
    renderPass: Handle, attachments: seq<Handle>, width: u32, height: u32, layers: u32)

  /** A clear value given as four 32-bit float components. */
  datatype ClearValue = ClearColorFloat32(rgba: seq<real>)

  datatype RenderPassBeginInfo = RenderPassBeginInfo(
    renderPass: Handle, framebuffer: Handle, renderArea: Rect2D, clearValues: seq<ClearValue>)

  datatype BufferCreateInfo = BufferCreateInfo(
    size: u64, usage: bv32, sharingMode: int, queueFamilyIndices: seq<u32>)

  datatype BufferCopy = BufferCopy(srcOffset: u64, dstOffset: u64, size: u64)

  datatype DescriptorSetLayoutBinding = DescriptorSetLayoutBinding(
    binding: u32, descriptorType: int, descriptorCount: u32, stageFlags: bv32)

  datatype DescriptorPoolSize = DescriptorPoolSize(descriptorType: int, descriptorCount: u32)

  datatype DescriptorBufferInfo = DescriptorBufferInfo(buffer: Handle, offset: u64, range: u64)

  datatype WriteDescriptorSet = WriteDescriptorSet(
    dstSet: Handle,
    dstBinding: u32,
    dstArrayElement: u32,
    descriptorCount: u32,
    descriptorType: int,
    bufferInfo: seq<DescriptorBufferInfo>)

  datatype VertexInputBindingDescription = VertexInputBindingDescription(
    binding: u32, stride: u32, inputRate: int)

  datatype VertexInputAttributeDescription = VertexInputAttributeDescription(
    location: u32, binding: u32, format: Format, offset: u32)
}
