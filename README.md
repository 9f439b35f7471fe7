# potato-tutorial: a verified model of the Vulkan set-up rules

potato-tutorial is a Rust renderer built on `ash`. Before it can draw, it makes a
long series of Vulkan calls:

- it creates an instance, with validation layers when they are enabled;
- it picks the first compatible physical device;
- it finds a graphics queue family;
- it negotiates a swapchain and creates its image views;
- it builds framebuffers, the per-frame semaphores and fences, and vertex, index and
  uniform buffers, with device memory whose type it searches for;
- it copies staged data into device-local buffers;
- it allocates descriptor sets, then records one command buffer per framebuffer.

This project models the selection and bookkeeping rules in that code and proves what
they guarantee. The proved facts are:

- which device, queue family, memory type, format, present mode, extent and image
  count get chosen, and why those are the first or best candidates;
- how C strings move between Rust and the driver without loss;
- where every `repr(C)` field sits;
- the exact sequence of Vulkan calls each set-up function issues, with its arguments;
- where and why each function panics.

The Vulkan device is modelled as the class `Gpu.Device`:

- `calls`: the sequence of calls made so far, each request paired with its reply;
- `next`: a counter that hands out fresh handles.

The device's answers come from a `Driver` value. It fixes which call positions the
driver refuses, the memory requirements of each buffer, and the image count of each
swapchain. A Rust panic (`expect`, `unwrap`, `panic!`, an out-of-range index) becomes
`Result.Panicked(reason)`.

Functions that loop over device calls are methods. Each method's postcondition ties
`calls` to a recursive trace function, and separate lemmas state what those traces
contain. The pure choices (formats, extents, memory types, device selection, string
conversion, struct layout) are functions with lemmas.

Modules follow the source files:

| module | models |
|---|---|
| `Base` | shared option/result types |
| `Iter` | the iterator adaptors used |
| `Logging` | the `log` crate's level gating |
| `Vk` | the `ash::vk` structures and constants |
| `Gpu` | the device |
| `ReprC` | `#[repr(C)]` layout |
| `Utilities` | `utilities.rs` |
| `Instances` | `instance.rs` |
| `PhysicalDevices` | `physical_device.rs` |
| `QueueFamilies` | `queue_family.rs` |
| `Swapchains` | `swapchain.rs` |
| `Framebuffers` | `framebuffers.rs` |
| `Sync` | `sync_objects.rs` |
| `Buffers` | `buffer.rs` |
| `Vertices` | `vertex.rs` |
| `UniformBuffers` | `UniformBufferObject.rs` |
| `CommandPools` | `command_pool.rs` |

## Model

| member | source | states |
|---|---|---|
| Base.AsU32 | src/vulkan/command_pool.rs:43 | `usize as u32` keeps any value below 2^32 and never grows a value |
| Iter.Position | src/vulkan/queue_family.rs:15-17 | `position` returns the first index whose element satisfies the predicate, and None exactly when no element does |
| Iter.Find | src/vulkan/physical_device.rs:22-24 | `find` returns an element exactly when some element qualifies, and the one it returns is the first that qualifies |
| Iter.FindUniqueCandidate | src/vulkan/physical_device.rs:75-89 | when only one value can satisfy the predicate, `find` gives the same answer on any two sequences with the same elements, so the order of a HashSet does not matter |
| Iter.FoundInBoth | src/vulkan/physical_device.rs:75-89 | a value found in a sequence is also found in any sequence that contains all its elements |
| Iter.TryPosition | src/vulkan/physical_device.rs:22-30 | searching with a check that can panic returns the first index that passes. It returns None when every check returns false. It panics with the panic of the first check that panics, all earlier checks having returned false |
| Iter.TryPositionPrefix | src/vulkan/physical_device.rs:22-30 | once the search succeeds on a prefix, appending more elements does not change the result |
| QueueFamilies.FindGraphicalQueueFamily | src/vulkan/queue_family.rs:14-24 | the family found is the first with queues and the graphics flag. The result is complete exactly when such a family exists. The `info!` unwrap panics exactly when info logging is on and no family qualifies |
| QueueFamilies.QueueFamily.IsComplete | src/vulkan/queue_family.rs:9-11 | `is_complete` holds when a graphics family is recorded; by QueueFamilies.FindGraphicalQueueFamily a found family is complete exactly when some family qualifies |
| Utilities.SequenceLength | src/vulkan/utilities.rs:10-13 | the UTF-8 sequence length read from a lead byte is at most 4 and the bytes present, and is 1 for an ASCII byte |
| Utilities.EncodeChar | src/vulkan/utilities.rs:17-20 | a character's UTF-8 encoding is 1 to 4 bytes with continuation bytes after the first. It starts with a zero byte exactly for NUL |
| Utilities.EncodeCharLength | src/vulkan/utilities.rs:10-13 | the decoder reads back exactly the length of every encoded character |
| Utilities.EncodeValid | src/vulkan/utilities.rs:17-20 | a Rust string's bytes are valid UTF-8 |
| Utilities.EncodeNul | src/vulkan/utilities.rs:17-20 | a string's bytes contain a zero byte exactly when the string contains NUL, which is when `CString::new` fails |
| Utilities.Ascii | src/vulkan/constants.rs:6-17 | an ASCII literal's byte string is as long as the literal |
| Utilities.AsciiIsEncode | src/vulkan/constants.rs:6-17 | the bytes of an ASCII literal are its UTF-8 encoding |
| Utilities.NulIndex | src/vulkan/utilities.rs:5-8 | `CStr::from_ptr` stops at the first zero byte of the array |
| Utilities.CStrBytes | src/vulkan/utilities.rs:5-8 | the string read from a C char array contains no NUL and, followed by NUL, is a prefix of the array |
| Utilities.CStrBytesUnique | src/vulkan/utilities.rs:5-8 | this is the only NUL-free string that, followed by NUL, is a prefix of the array |
| Utilities.VkToString | src/vulkan/utilities.rs:4-14 | `vk_to_string` succeeds exactly when the bytes before the first NUL are valid UTF-8, and returns those bytes. Otherwise the `expect` panics |
| Utilities.OwnedCStrings | src/vulkan/utilities.rs:17-20 | converting each name to a `CString` panics exactly when some name contains NUL. Otherwise the k-th owned string holds the k-th name |
| Utilities.ConvertToCStrings | src/vulkan/utilities.rs:16-27 | the conversion panics exactly when some name has an interior NUL. On success there is one owned string and one pointer per name. Pointer k points at string k (which holds name k), and the pointers are distinct |
| Utilities.ConvertRoundTrip | src/vulkan/utilities.rs:4-27 | reading a converted name back through its pointer with `vk_to_string` returns the original name |
| Utilities.StringAtDistinct | src/vulkan/utilities.rs:21-24 | pointer `base + k` resolves to the k-th owned string |
| Utilities.AnyNameEquals | src/vulkan/physical_device.rs:81-89 | the inner `any` over driver names is true exactly when some name reads back equal to the required one. It panics only on a name that is not UTF-8 |
| Utilities.AnyRequiredAvailable | src/vulkan/instance.rs:80-88 | the nested `any` is true exactly when some required name is among the driver's names. It panics only on unreadable names |
| Utilities.SingleRequiredAnyIsAll | src/vulkan/constants.rs:15-17 | with a single required name, "any required name is present" means "every required name is present" |
| Instances.LayerNames | src/vulkan/instance.rs:80-88 | every reported layer name is a NUL-terminated array, in reported order |
| Instances.CheckValidationLayerSupport | src/vulkan/instance.rs:74-89 | a refused layer enumeration panics. Otherwise the result is true exactly when a required layer is reported. The only other panic is an unreadable layer name |
| Instances.GetEnabledLayersLen | src/vulkan/instance.rs:91-97 | the enabled layer count is the number of required layers when validation is on, and 0 when it is off |
| Instances.CreateExtensionNames | src/vulkan/instance.rs:99-115 | the surface extension comes first, and the debug-utils extension and the platform's surface extension are both present, three names in all |
| Instances.ExtensionNamesDistinct | src/vulkan/instance.rs:99-115 | no instance extension is requested twice, on either platform |
| Instances.ApiVersionRoundTrip | src/vulkan/instance.rs:27-35 | the packed API version decodes back to its variant, major, minor and patch whenever each fits its bit field |
| Instances.InstanceInfo | src/vulkan/instance.rs:21-62 | the create info is built only after the validation check passed (when validation is on), with one owned C string per required layer. Its panics are a refused or unreadable layer query, missing layers, or a layer name with NUL |
| Instances.CreateInstance | src/vulkan/instance.rs:20-72 | a refused `vkCreateInstance` panics. A created instance passed the validation check when validation is on, requests three extensions and API version 1.2.148. It panics only for the four listed reasons |
| Instances.ValidationGate | src/vulkan/instance.rs:20-23 | instance creation panics with "Validation layers requested but not supported" exactly when validation is on and no required layer is reported. A panicking layer check propagates. With validation off the layer query is never consulted |
| Instances.InstanceInfoShape | src/vulkan/instance.rs:45-62 | the create info chains the debug messenger and names layers exactly when validation is on. The layer count is 0 when validation is off. It lists three extensions with a matching count, and apiVersion is 1.2.148 |
| Instances.InstanceInfoLayers | src/vulkan/instance.rs:41-59 | when layers are named, the count equals the pointer list's length, and pointer k leads to an owned C string holding required layer k |
| Instances.ValidationLayersConvert | src/vulkan/constants.rs:6-9 | the configured validation layer name converts without panicking |
| PhysicalDevices.ExtensionNames | src/vulkan/physical_device.rs:75-79 | every reported extension name is a NUL-terminated array, in reported order |
| PhysicalDevices.IsQueueFamilySupported | src/vulkan/physical_device.rs:50-57 | true exactly when some queue family has queues and the graphics flag |
| PhysicalDevices.IsDeviceExtensionSupported | src/vulkan/physical_device.rs:59-90 | a refused enumeration panics. Otherwise the result is true exactly when a required extension is reported. An unreadable name panics in the `debug!` listing (only when debug logging is on) or in the comparison |
| PhysicalDevices.IsSwapchainSupported | src/vulkan/physical_device.rs:92-103 | without the extension the answer is false and no surface query is made. With it, the answer is true exactly when the surface reports a format and a present mode. A refused query panics |
| PhysicalDevices.CheckDeviceCompatibility | src/vulkan/physical_device.rs:33-48 | a device passes only with a graphics family, both queries answered, and some surface format and present mode. A refused extension query panics. The only panics are a refused query or an unreadable name |
| PhysicalDevices.CompatibilityMeaning | src/vulkan/physical_device.rs:33-57 | for a device whose queries answer, `check_device_compatability` is true exactly when the device has a graphics family, the swapchain extension, a surface format and a present mode, at every log level |
| PhysicalDevices.ExtensionSupportMeaning | src/vulkan/physical_device.rs:59-90 | the extension test is true exactly when `VK_KHR_swapchain` is among the reported names |
| PhysicalDevices.CompatibleCanNegotiate | src/vulkan/physical_device.rs:33-48 | a compatible device always lets the later steps succeed: its surface has a format for `choose_swapchain_format`, and a graphics family exists |
| PhysicalDevices.SelectPhysicalDevice | src/vulkan/physical_device.rs:14-31 | the chosen device is compatible and every earlier one was found incompatible. "No compatible device" is reported exactly when every device is incompatible. Any other panic comes from some device's check |
| PhysicalDevices.SelectFirstCompatible | src/vulkan/physical_device.rs:14-31 | when all devices answer their queries, selection succeeds exactly when some device is compatible, and it picks the first such device |
| PhysicalDevices.SelectIgnoresLater | src/vulkan/physical_device.rs:22-24 | devices listed after the chosen one never affect the choice |
| PhysicalDevices.FindDeviceType | src/vulkan/physical_device.rs:138-146 | the four known device types are labelled, with a discrete GPU labelled "Discrete GPU". Any other type panics |
| PhysicalDevices.DeviceTypeLabelsDistinct | src/vulkan/physical_device.rs:138-146 | distinct device types get distinct labels |
| Swapchains.ChooseSwapchainFormat | src/vulkan/swapchain.rs:123-130 | the chosen format is one of those offered. It is BGRA8 sRGB when that is offered, and otherwise the first offered |
| Swapchains.ChooseSwapchainPresentMode | src/vulkan/swapchain.rs:132-138 | the chosen mode is mailbox exactly when mailbox is offered, and FIFO otherwise |
| Swapchains.PresentModeIgnoresOrder | src/vulkan/swapchain.rs:132-138 | the present-mode choice depends only on which modes are offered, not on their order |
| Swapchains.Clamp | src/vulkan/swapchain.rs:145-154 | `num::clamp` stays within [min, max], leaves a value already inside unchanged, and otherwise returns a bound |
| Swapchains.ChooseSwapchainExtent | src/vulkan/swapchain.rs:140-157 | a fixed current extent is used as is. Under the `u32::MAX` sentinel the window size is clamped into the allowed range, and kept whole when it fits |
| Swapchains.ImageCount | src/vulkan/swapchain.rs:42-46 | the image count is the maximum when the surface has one, and one more than the minimum when it is unbounded. That `u32` addition wraps to 0 at `u32::MAX`, as in a release build |
| Swapchains.ImageCountAccepted | src/vulkan/swapchain.rs:42-46 | the requested image count is within the surface's [min, max] for every consistent surface |
| Swapchains.SwapchainCreateInfoFor | src/vulkan/swapchain.rs:51-70 | the requested format and colour space are a pair the surface offers. Mailbox is requested exactly when offered. A bounded surface gets its maximum image count. Swapchains.SwapchainRequest states every other field |
| Swapchains.ViewRequests | src/vulkan/swapchain.rs:159-194 | one plain 2D colour view is requested per swapchain image, in image order, in the swapchain's format |
| Swapchains.ImageViewInfo | src/vulkan/swapchain.rs:166-187 | the view of an image is a plain 2D colour view of its single mip level and layer, in the swapchain's format, with identity swizzles |
| Swapchains.CreateImageViews | src/vulkan/swapchain.rs:159-164 | one view is made per image, with exactly those requests. The first refusal panics |
| Swapchains.CreateSwapchainImages | src/vulkan/swapchain.rs:73-83 | the swapchain is created, then its images are fetched, with as many images as the driver reports. A refusal panics |
| Swapchains.CreateSwapchainFor | src/vulkan/swapchain.rs:29-96 | the returned swapchain has the chosen format and extent, the driver's images and one view per image, and the call trace is create, get images, then the views |
| Swapchains.SwapchainRequest | src/vulkan/swapchain.rs:38-70 | the create info carries the chosen format, colour space, extent, present mode and image count. It is exclusive with no queue families, has one layer, colour-attachment usage, the surface's current transform and opaque alpha, is clipped, and has no old swapchain |
| Swapchains.NegotiationExample | src/vulkan/swapchain.rs:123-157 | on a typical unbounded surface, the negotiation yields the offered format, FIFO, 800x600 and two images |
| Framebuffers.FramebufferRequests | src/vulkan/framebuffers.rs:13-28 | framebuffer k has image view k as its only attachment, the given render pass, the swapchain's size and one layer |
| Framebuffers.FramebuffersShareRenderPass | src/vulkan/framebuffers.rs:13-28 | all framebuffers share render pass and size, and two requests are equal exactly when their views are |
| Framebuffers.CreateFramebuffers | src/vulkan/framebuffers.rs:7-35 | one framebuffer is made per view, from exactly those requests, with fresh handles. A refusal panics |
| Sync.SyncObjects.constructor | src/vulkan/sync_objects.rs:15-19 | the three vectors start empty |
| Sync.SyncObjects.Push | src/vulkan/sync_objects.rs:45-51 | each push appends one handle to its vector and leaves the others' prefixes intact |
| Sync.SyncCallsShape | src/vulkan/sync_objects.rs:33-53 | frame creation performs three calls per frame: two semaphores, then a fence. Every fence is created signalled |
| Sync.CreateFrameSync | src/vulkan/sync_objects.rs:35-43 | one iteration creates two semaphores and a signalled fence, with consecutive fresh handles. A refusal panics |
| Sync.CreateSyncObjects | src/vulkan/sync_objects.rs:14-56 | the three vectors hold one entry per frame, and the entries of frame k were made by iteration k. The trace is exactly the per-frame calls. A refusal panics, and nothing partial is returned |
| ReprC.AlignUp | src/vulkan/vertex.rs:14-19 | rounding up to an alignment gives the smallest aligned value not below the input |
| ReprC.OffsetsFrom | src/vulkan/vertex.rs:14-19 | each `repr(C)` field sits at its predecessor's end rounded up to its own alignment |
| ReprC.StructAlign | src/vulkan/vertex.rs:14-19 | a struct's alignment is positive and at least each field's alignment |
| ReprC.Offsets | src/vulkan/vertex.rs:14-19 | `offset_of!` for a `#[repr(C)]` struct: one offset per field, each placed by the `repr(C)` rule of ReprC.OffsetsFrom from 0. ReprC.LayoutSound states that they are aligned, in order and non-overlapping |
| ReprC.SizeOf | src/vulkan/UniformBufferObject.rs:15-21 | `std::mem::size_of` for a `#[repr(C)]` struct: the end of the last field rounded up to the struct's alignment. ReprC.LayoutSound states that every field ends within it and that it is a multiple of the alignment |
| ReprC.LayoutSound | src/vulkan/vertex.rs:14-19 | fields are aligned, never overlap, leave less padding than the next field's alignment, and end within the struct. The struct's size is a multiple of its alignment |
| ReprC.EndsBeforeLast | src/vulkan/vertex.rs:14-19 | each field ends no later than any field declared after it |
| ReprC.PackedOffsets | src/vulkan/UniformBufferObject.rs:15-21 | fields of one size that is a multiple of their alignment are packed back to back |
| ReprC.PackedAlign | src/vulkan/UniformBufferObject.rs:15-21 | a struct of identical fields has their alignment |
| ReprC.PackedLayout | src/vulkan/UniformBufferObject.rs:15-21 | a struct of identical self-aligned fields puts field k at k times the field size, and its size is the field count times the field size |
| Vertices.VertexLayout | src/vulkan/vertex.rs:14-19 | `Vertex` (a `[f32; 2]` position and a `[f32; 3]` colour) puts the position at 0 and the colour at 8, with size 20 |
| Vertices.GetBindingDescriptions | src/vulkan/vertex.rs:22-28 | one per-vertex binding at slot 0 whose stride is the size of `Vertex` |
| Vertices.GetAttributeDescriptions | src/vulkan/vertex.rs:30-45 | location 0 reads two floats at the position's offset, and location 1 reads three floats at the colour's offset |
| Vertices.UploadTypes | src/vulkan/vertex.rs:56-88 | the staging buffer's memory is host-visible and coherent, and the destination's is device-local |
| Vertices.CreateStagingBuffer | src/vulkan/vertex.rs:60-80 | the staging buffer and its memory are made, then the data is written through a mapping. It panics when no host-visible type fits or a call is refused |
| Vertices.CopyAndRelease | src/vulkan/vertex.rs:90-102 | the staged data is copied into the destination, then the staging buffer is destroyed and its memory freed |
| Vertices.StageAndCreate | src/vulkan/vertex.rs:56-88 | the staging buffer is created and filled before the destination buffer is created, with consecutive handles |
| Vertices.UploadThroughStaging | src/vulkan/vertex.rs:48-105 | the whole upload issues exactly the modelled trace and returns the destination buffer and memory. It panics on a refusal or a missing memory type |
| Vertices.CreateVertexBuffer | src/vulkan/vertex.rs:48-105 | the vertex buffer upload issues exactly the staged-upload trace for 20 bytes per vertex and returns the destination buffer and its memory. It panics on a refusal, or when that upload finds no memory type |
| Vertices.CreateIndexBuffer | src/vulkan/vertex.rs:107-163 | the index buffer upload issues exactly the staged-upload trace for 4 bytes (one `u32`) per index and returns the destination buffer and its memory. It panics on a refusal, or when that upload finds no memory type |
| Vertices.UploadStagesFirst | src/vulkan/vertex.rs:60-80 | first a transfer-source buffer is created and given staging memory, and the data is written through a mapping, then unmapped |
| Vertices.UploadReleasesStagingLast | src/vulkan/vertex.rs:82-102 | the destination is created with the caller's usage and device-local memory. The queue is waited on before the staging buffer is destroyed and freed |
| Vertices.UploadCopiesStagedData | src/vulkan/vertex.rs:67-97 | the data is written before any submit, and the copy runs from staging to destination over the whole size |
| Vertices.UploadKeepsDestination | src/vulkan/vertex.rs:99-104 | the destination buffer and its memory are never destroyed or freed |
| Buffers.FirstSuitable | src/vulkan/buffer.rs:69-76 | a memory type found from index `from` on is in range and suitable: its filter bit is set and it has the required properties |
| Buffers.FirstSuitableIsFirst | src/vulkan/buffer.rs:69-76 | it is the first suitable type, and nothing is found exactly when no type is suitable |
| Buffers.FindMemType | src/vulkan/buffer.rs:64-77 | `find_mem_type` returns a suitable index below 32, or panics in `unwrap` |
| Buffers.FindMemTypeIsFirst | src/vulkan/buffer.rs:64-77 | the index is the first suitable one, and the panic happens exactly when no type is suitable |
| Buffers.FoundTypeIsReal | src/vulkan/buffer.rs:64-77 | with non-empty required properties, the found index lies within the driver's reported type count |
| Buffers.BufferInfo | src/vulkan/buffer.rs:17-26 | the buffer has the requested size and usage, exclusive sharing and no queue families |
| Buffers.ChooseMemoryType | src/vulkan/buffer.rs:34-40 | the memory requirements are queried once, and the type is searched among the bits they allow. Success happens exactly when a type is found |
| Buffers.AllocateAndBind | src/vulkan/buffer.rs:42-59 | memory of the required size and type is allocated, then bound at offset 0 |
| Buffers.CreateBufferWithMemory | src/vulkan/buffer.rs:10-62 | `create_buffer` issues exactly create, query, allocate, bind. The memory type is the first suitable one for the buffer's requirements. It panics on a refusal or a missing type |
| Buffers.WriteThroughMapping | src/vulkan/vertex.rs:67-80 | memory is mapped, written over the given size, then unmapped. A refused map panics before anything is written |
| Buffers.RecordCopy | src/vulkan/buffer.rs:87-120 | one primary command buffer is allocated and begun one-time-submit, and the whole-range copy is recorded in it |
| Buffers.SubmitAndWait | src/vulkan/buffer.rs:123-143 | the recording is submitted and the queue waited on, then the command buffer is freed |
| Buffers.CopyBuffer | src/vulkan/buffer.rs:79-145 | `copy_buffer` issues exactly the recording, submit, wait and free |
| Buffers.CopyIsCompleteOnReturn | src/vulkan/buffer.rs:79-145 | the command buffer is freed only after the queue drained. Exactly one primary command buffer is allocated, and every copy is the whole range from source to destination |
| UniformBuffers.UboLayout | src/vulkan/UniformBufferObject.rs:15-21 | the three 4x4 `f32` matrices sit at 0, 64 and 128, and the object is 192 bytes |
| UniformBuffers.CreateDescriptorSetLayout | src/vulkan/UniformBufferObject.rs:23-45 | one layout is made with a single uniform-buffer binding at 0 for the vertex stage. A refusal panics |
| UniformBuffers.UniformBufferCallsStep | src/vulkan/UniformBufferObject.rs:56-66 | each loop iteration appends one buffer's creation to the trace |
| UniformBuffers.UniformBufferCallsInOrder | src/vulkan/UniformBufferObject.rs:56-66 | the trace is four calls per uniform buffer, with block k creating buffer k |
| UniformBuffers.UniformBlockIsHostCoherent | src/vulkan/UniformBufferObject.rs:56-63 | each uniform buffer is 192 uniform bytes, backed by host-visible, host-coherent memory |
| UniformBuffers.CreateUniformBuffer | src/vulkan/UniformBufferObject.rs:57-63 | one iteration creates buffer k and its memory with the next two handles |
| UniformBuffers.CreateUniformBuffers | src/vulkan/UniformBufferObject.rs:47-69 | the two vectors have one entry per image, the k-th buffer paired with the k-th memory, and the trace is exactly those creations. It panics on a refusal or when some buffer has no suitable memory type |
| UniformBuffers.CreateDescriptorPool | src/vulkan/UniformBufferObject.rs:111-131 | one pool is made for one uniform descriptor per image, with one set per image. A refusal panics |
| UniformBuffers.SetLayouts | src/vulkan/UniformBufferObject.rs:140-143 | one copy of the layout per set |
| UniformBuffers.RepeatLayout | src/vulkan/UniformBufferObject.rs:140-143 | the pushing loop builds exactly that list |
| UniformBuffers.WriteMatchesLayout | src/vulkan/UniformBufferObject.rs:159-177 | each write targets its set's binding 0 with the layout's descriptor type, within the layout's count, and covers its buffer from 0 for the whole object |
| UniformBuffers.WriteCallsPairSets | src/vulkan/UniformBufferObject.rs:159-182 | update k writes set k with uniform buffer k, one update per set, in order |
| UniformBuffers.PoolFitsDescriptorSets | src/vulkan/UniformBufferObject.rs:111-182 | the pool has room for exactly the sets allocated and exactly the uniform descriptors the updates write |
| UniformBuffers.WriteCallsDescriptors | src/vulkan/UniformBufferObject.rs:159-182 | the updates write one uniform descriptor per set |
| UniformBuffers.WriteDescriptorSets | src/vulkan/UniformBufferObject.rs:159-182 | every set is updated with its buffer. Indexing `uniform_buffers[i]` past its end panics after the earlier sets were updated |
| UniformBuffers.CreateDescriptorSets | src/vulkan/UniformBufferObject.rs:133-185 | one set is allocated per image from the pool, each with the given layout, and set k is written with uniform buffer k. It panics on a refusal or when the uniform buffers run out |
| UniformBuffers.UpdateUniformBuffer | src/vulkan/UniformBufferObject.rs:71-109 | the memory of the current image is mapped, written with the 192-byte object, and unmapped. An out-of-range image index panics before any call |
| CommandPools.CreateCommandPool | src/vulkan/command_pool.rs:12-25 | the pool is created for the graphics family. A missing family panics in `unwrap` before any call, and a refusal panics |
| CommandPools.RenderPassCoversSurface | src/vulkan/command_pool.rs:100-117 | command buffer k's render pass draws into framebuffer k over the whole surface from the origin, with one clear value of opaque black |
| CommandPools.RecordingCalls | src/vulkan/command_pool.rs:87-148 | one command buffer's recording is nine commands |
| CommandPools.RecordingWellFormed | src/vulkan/command_pool.rs:87-148 | every command goes into that buffer, which is begun first and ended last. The draw lies inside the render pass, and every bind precedes it |
| CommandPools.RecordingArguments | src/vulkan/command_pool.rs:87-143 | the buffer is begun for simultaneous use. It binds the vertex buffer at 0, the `u32` index buffer at offset 0 and descriptor set k as set 0. It draws all indices of one instance |
| CommandPools.ProcessCommandBuffer | src/vulkan/command_pool.rs:74-149 | recording buffer k issues exactly those commands. An index out of range of the framebuffers or descriptor sets panics, as does a refused begin or end |
| CommandPools.RecordPass | src/vulkan/command_pool.rs:119-129 | the render pass begin and the pipeline bind are recorded |
| CommandPools.RecordDraw | src/vulkan/command_pool.rs:130-144 | the binds, the draw and the render pass end are recorded |
| CommandPools.RecordedCallsInOrder | src/vulkan/command_pool.rs:54-68 | the recordings follow one another, nine calls per buffer, with buffer k recorded k-th |
| CommandPools.RecordCommandBuffers | src/vulkan/command_pool.rs:54-68 | every allocated buffer is recorded in order. The loop panics when the framebuffers or descriptor sets are fewer than the buffers |
| CommandPools.CreateCommandBuffers | src/vulkan/command_pool.rs:28-71 | one primary buffer is allocated per framebuffer (counted `as u32`) and each is recorded. Fresh handles are returned |

## Left out

- The frame loop (`draw_frame`, presentation, resizing) and the rest of the repository are not part of this model. That covers `device.rs`, `surface.rs`, `render_pass.rs`, `graphics_pipeline.rs`, `window.rs`, `main.rs` and `file.rs`. The handles they produce (the logical device, surface, render pass, pipeline, layouts and queues) are parameters.
- The Vulkan driver is a value, not code. It refuses calls at given positions, answers memory requirements and swapchain image counts from finite tables with a default, and hands out fresh handles in order.
- Object lifetimes and destruction outside the staging upload are not modelled, because the source never destroys the other objects in these files.
- `MAX_FRAMES_IN_FLIGHT`, `INDICES_DATA` and `VERTICES_DATA` do not appear in `constants.rs`, so the frame count and the vertex and index counts are parameters.
- Swapchains.Clamp: `num::clamp` asserts `min <= max` in debug builds only. The model follows a release build, which never panics, and its bounds are proved only when `min <= max`.
- Framebuffers.CreateFramebuffers: in `framebuffers.rs:16-23` the `attachments` array is a local of the first `map` closure, and `p_attachments` points at it. The array is gone when the second `map` passes the create info to `create_framebuffer`, so the driver reads through a dangling pointer. The model hands the driver the intended `[view k]` instead; it does not capture pointer lifetimes.
- Swapchains.ImageCount: `min_image_count + 1` follows a release build and wraps to 0 at `u32::MAX`; a debug build panics there instead.
- PhysicalDevices.IsQueueFamilySupported: `physical_device.rs:55` calls a three-argument `find_graphical_queue_family`, but `queue_family.rs:14` defines only a one-slice version. The model uses that one-slice search without its `info!` unwrap.
- PhysicalDevices.IsDeviceExtensionSupported: the `HashSet` iteration order is unspecified, so the set's elements are taken in a given order. The result does not depend on that order, by Iter.FindUniqueCandidate.
- Buffers.FindMemType: the filter test `type_filter & (1 << i) > 0` is a bit-by-bit shift predicate. Its equivalence to the mask form is not proved.
- Floating point is opaque: the clear colour is four literal `f32`s, and the three matrices of `update_uniform_buffer` (model, view, projection, built from time and the extent) are not computed. Only their byte count (192) is written.
- Copied and mapped data is modelled by its byte count, not its contents.
- `describe_device` and the other log output are not modelled, beyond where a log level decides whether a panicking argument is evaluated. Time and the clock used with the matrices are left out.
- The surface queries of `determine_swapchain_support` are input data (`SwapchainSupport`). The swapchain and surface loaders are folded into the device.
- A refused `enumerate_physical_devices` is out of scope: the list of devices is the input.
- `populate_debug_messenger_create_info` lives in `vulk_validation_layers.rs`, which is not part of this model. Only whether it is chained into the instance create info is recorded.
- The instance extension names are literal byte strings. Only the layer names go through the modelled `CString` conversion.
- UniformBuffers.CreateDescriptorSets: the layout list has `n` entries and the count in the request is `n as u32`. Both are recorded as the source passes them; for `n` of 2^32 or more the model does not say what the driver does with the mismatch.
- The thread-safety and `unsafe` aspects of the `ash` calls (aliasing, external synchronisation) are not modelled.
