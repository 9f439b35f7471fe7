/** src/vulkan/physical_device.rs: choosing the physical device to render with. A
    device is compatible when it has a graphics queue family, offers every required
    device extension and, given the extensions, its surface reports at least one format
    and one present mode. The first compatible device in enumeration order wins.

    What the driver reports about a device (its queue families, its extensions, the
    surface support query) is input data here. */
module PhysicalDevices {
  import opened Base
  import opened Vk
  import opened Utilities
  import Iter
  import Logging
  import QueueFamilies
  import Swapchains

  /** `VkExtensionProperties`: the name is the driver's NUL-terminated `c_char` array. */
  datatype ExtensionProperties = ExtensionProperties(extensionName: CChars, specVersion: u32)

  /** One enumerated physical device, as far as the selection queries observe it. A
      query that returns an error code is `None` (its `expect` aborts). */
  datatype PhysicalDevice = PhysicalDevice(
    queueFamilies: seq<QueueFamilyProperties>,
    extensionQuery: Option<seq<ExtensionProperties>>,
    supportQuery: Option<Swapchains.SwapchainSupport>,
    deviceType: int)

  /** The extension names of `DEVICE_EXTENSTIONS` in src/vulkan/constants.rs. */
  const DEVICE_EXTENSIONS: seq<Str> := [Ascii("VK_KHR_swapchain")]

  function ExtensionNames(exts: seq<ExtensionProperties>): (raws: seq<seq<byte>>)
    ensures |raws| == |exts|
    ensures forall k :: 0 <= k < |exts| ==> raws[k] == exts[k].extensionName && Terminated(raws[k])
  {
    seq(|exts|, k requires 0 <= k < |exts| => exts[k].extensionName)
  }

  /** `is_queue_family_supported`: the device has a family with queues and the graphics
      bit, the test `find_graphical_queue_family` applies. */
  predicate IsQueueFamilySupported(d: PhysicalDevice)
    ensures IsQueueFamilySupported(d) <==>
              exists j :: 0 <= j < |d.queueFamilies| && QueueFamilies.IsGraphical(d.queueFamilies[j])
  {
    Iter.Position(d.queueFamilies, QueueFamilies.IsGraphical).Some?
  }

  /** `is_device_extension_supported(required)`, where `required` lists the set of
      required names in the set's iteration order. With debug logging each reported
      name is first converted for the log line; then, for the required names in turn,
      the reported names are compared until one matches. */
  function IsDeviceExtensionSupported(d: PhysicalDevice, required: seq<Str>, log: Logging.LevelFilter)
    : (r: Result<bool>)
    ensures d.extensionQuery.None? ==> r == Panicked(CallRefused)
    ensures d.extensionQuery.Some? && AllReadable(ExtensionNames(d.extensionQuery.value)) ==>
              var raws := ExtensionNames(d.extensionQuery.value);
              r == Ok(exists i, k :: 0 <= i < |required| && 0 <= k < |raws| && CStrBytes(raws[k]) == required[i])
    ensures r.Panicked? && d.extensionQuery.Some? ==>
              r.panic == InvalidUtf8 && !AllReadable(ExtensionNames(d.extensionQuery.value))
    ensures d.extensionQuery.Some? && !AllReadable(ExtensionNames(d.extensionQuery.value)) ==>
              (Logging.DebugEnabled(log) ==> r == Panicked(InvalidUtf8))
  {
    match d.extensionQuery
    case None => Panicked(CallRefused)
    case Some(exts) =>
      var raws := ExtensionNames(exts);
      if Logging.DebugEnabled(log) && !AllReadable(raws) then Panicked(InvalidUtf8)
      else AnyRequiredAvailable(required, raws)
  }

  /** `is_swapchain_supported`: without the extensions the surface is not queried;
      otherwise both the format list and the present-mode list must be non-empty. */
  function IsSwapchainSupported(extensionSupport: bool, d: PhysicalDevice): (r: Result<bool>)
    ensures !extensionSupport ==> r == Ok(false)
    ensures extensionSupport && d.supportQuery.None? ==> r == Panicked(CallRefused)
    ensures extensionSupport && d.supportQuery.Some? ==>
              r == Ok(|d.supportQuery.value.formats| > 0 && |d.supportQuery.value.presentModes| > 0)
  {
    if !extensionSupport then Ok(false)
    else match d.supportQuery
      case None => Panicked(CallRefused)
      case Some(support) => Ok(|support.formats| > 0 && |support.presentModes| > 0)
  }

  /** `check_device_compatability`: all three checks run, in order, and the device is
      compatible when all three pass. */
  function CheckDeviceCompatibility(d: PhysicalDevice, log: Logging.LevelFilter): (r: Result<bool>)
    ensures r == Ok(true) ==>
              && IsQueueFamilySupported(d)
              && d.extensionQuery.Some? && d.supportQuery.Some?
              && |d.supportQuery.value.formats| > 0 && |d.supportQuery.value.presentModes| > 0
    ensures r.Panicked? ==> r.panic == CallRefused || r.panic == InvalidUtf8
    ensures d.extensionQuery.None? ==> r == Panicked(CallRefused)
  {
    var queueFamilySupport := IsQueueFamilySupported(d);
    var extensionSupport :- IsDeviceExtensionSupported(d, DEVICE_EXTENSIONS, log);
    var swapchainSupport :- IsSwapchainSupported(extensionSupport, d);
    Ok(queueFamilySupport && extensionSupport && swapchainSupport)
  }

  /** A device whose queries all succeed and whose extension names are readable. */
  predicate Answers(d: PhysicalDevice) {
    && d.extensionQuery.Some? && AllReadable(ExtensionNames(d.extensionQuery.value))
    && d.supportQuery.Some?
  }

  /** Compatibility of a device whose queries answer: a graphics family, the swapchain
      extension among the reported ones, and a surface with some format and some
      present mode. */
  predicate Compatible(d: PhysicalDevice)
    requires Answers(d)
  {
    var raws := ExtensionNames(d.extensionQuery.value);
    && (exists j :: 0 <= j < |d.queueFamilies| && QueueFamilies.IsGraphical(d.queueFamilies[j]))
    && (exists k :: 0 <= k < |raws| && CStrBytes(raws[k]) == DEVICE_EXTENSIONS[0])
    && |d.supportQuery.value.formats| > 0 && |d.supportQuery.value.presentModes| > 0
  }

  /** The compatibility test agrees with `Compatible` on every device whose queries
      answer, whatever the log level: the "any required extension" test is an "every
      required extension" test for the single required name. */
  lemma CompatibilityMeaning(d: PhysicalDevice, log: Logging.LevelFilter)
    requires Answers(d)
    ensures CheckDeviceCompatibility(d, log) == Ok(Compatible(d))
  {
    ExtensionSupportMeaning(d, log);
  }

  /** For a device whose extension query answers with readable names, extension
      support means that the swapchain extension is among them. */
  lemma ExtensionSupportMeaning(d: PhysicalDevice, log: Logging.LevelFilter)
    requires Answers(d)
    ensures var raws := ExtensionNames(d.extensionQuery.value);
            IsDeviceExtensionSupported(d, DEVICE_EXTENSIONS, log) ==
            Ok(exists k :: 0 <= k < |raws| && CStrBytes(raws[k]) == DEVICE_EXTENSIONS[0])
  {
    SingleRequiredAnyIsAll(DEVICE_EXTENSIONS, ExtensionNames(d.extensionQuery.value));
  }

  /** A compatible device has a format and a present mode to choose from, so
      `create_swapchain` can negotiate with it. */
  lemma CompatibleCanNegotiate(d: PhysicalDevice, log: Logging.LevelFilter)
    requires CheckDeviceCompatibility(d, log) == Ok(true)
    ensures d.supportQuery.Some? && |d.supportQuery.value.formats| > 0
    ensures Iter.Position(d.queueFamilies, QueueFamilies.IsGraphical).Some?
  {
  }

  /** `physical_devices.iter().find(check_device_compatability)`, then the `match`:
      the index of the first compatible device; the panic of a check that panicked
      before one was found; `NoCompatibleDevice` when none is compatible. */
  function SelectPhysicalDevice(devices: seq<PhysicalDevice>, log: Logging.LevelFilter): (r: Result<nat>)
    ensures r.Ok? ==> r.value < |devices| && CheckDeviceCompatibility(devices[r.value], log) == Ok(true)
    ensures r.Ok? ==> forall j :: 0 <= j < r.value ==> CheckDeviceCompatibility(devices[j], log) == Ok(false)
    ensures r == Panicked(NoCompatibleDevice) <==>
              forall j :: 0 <= j < |devices| ==> CheckDeviceCompatibility(devices[j], log) == Ok(false)
    ensures r.Panicked? && r.panic != NoCompatibleDevice ==>
              exists i :: 0 <= i < |devices| && CheckDeviceCompatibility(devices[i], log) == Panicked(r.panic)
  {
    var selected :- Iter.TryPosition(devices, d => CheckDeviceCompatibility(d, log));
    match selected
    case Some(i) => Ok(i)
    case None => Panicked(NoCompatibleDevice)
  }

  /** When every device's queries answer, selection is exactly "the first compatible
      device", and it panics only when no device is compatible. */
  lemma SelectFirstCompatible(devices: seq<PhysicalDevice>, log: Logging.LevelFilter)
    requires forall k :: 0 <= k < |devices| ==> Answers(devices[k])
    ensures var r := SelectPhysicalDevice(devices, log);
            && (r.Ok? <==> exists j :: 0 <= j < |devices| && Compatible(devices[j]))
            && (r.Ok? ==> Compatible(devices[r.value]) &&
                          forall j :: 0 <= j < r.value ==> !Compatible(devices[j]))
            && (r.Panicked? ==> r.panic == NoCompatibleDevice)
  {
    forall j | 0 <= j < |devices|
      ensures CheckDeviceCompatibility(devices[j], log) == Ok(Compatible(devices[j]))
    {
      CompatibilityMeaning(devices[j], log);
    }
  }

  /** Devices enumerated after the selected one are never examined. */
  lemma SelectIgnoresLater(devices: seq<PhysicalDevice>, more: seq<PhysicalDevice>, log: Logging.LevelFilter)
    requires SelectPhysicalDevice(devices, log).Ok?
    ensures SelectPhysicalDevice(devices + more, log) == SelectPhysicalDevice(devices, log)
  {
    Iter.TryPositionPrefix(devices, more, d => CheckDeviceCompatibility(d, log));
  }

  /** `find_device_type`: the label of a physical device type, and a panic for a type
      outside the four it names (`OTHER` included). */
  function FindDeviceType(deviceType: int): (r: Result<string>)
    ensures r.Ok? <==> deviceType in {PHYSICAL_DEVICE_TYPE_CPU, PHYSICAL_DEVICE_TYPE_INTEGRATED_GPU,
                                       PHYSICAL_DEVICE_TYPE_DISCRETE_GPU, PHYSICAL_DEVICE_TYPE_VIRTUAL_GPU}
    ensures r.Panicked? ==> r.panic == UnknownDeviceType
    ensures deviceType == PHYSICAL_DEVICE_TYPE_DISCRETE_GPU ==> r == Ok("Discrete GPU")
  {
    if deviceType == PHYSICAL_DEVICE_TYPE_CPU then Ok("CPU")
    else if deviceType == PHYSICAL_DEVICE_TYPE_INTEGRATED_GPU then Ok("Integrated GPU")
    else if deviceType == PHYSICAL_DEVICE_TYPE_DISCRETE_GPU then Ok("Discrete GPU")
    else if deviceType == PHYSICAL_DEVICE_TYPE_VIRTUAL_GPU then Ok("Virtual GPU")
    else Panicked(UnknownDeviceType)
  }

  /** Different device types get different labels. */
  lemma DeviceTypeLabelsDistinct(a: int, b: int)
    requires FindDeviceType(a).Ok? && FindDeviceType(b).Ok? && a != b
    ensures FindDeviceType(a).value != FindDeviceType(b).value
  {
  }
}
