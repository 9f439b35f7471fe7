/** src/vulkan/instance.rs: the validation-layer gate and the `VkInstanceCreateInfo`
    that `create_instance` builds. Whether validation is on, and which layers it needs,
    come from `VALIDATION` in src/vulkan/constants.rs; the reported layers are input
    data, as is the outcome of the final `vkCreateInstance` call. */
module Instances {
  import opened Base
  import opened Utilities

  /** `ValidationInfo`. */
  datatype ValidationInfo = ValidationInfo(isEnable: bool, requiredValidationLayers: seq<Str>)

  /** `VALIDATION`: on, with the Khronos validation layer. */
  const VALIDATION := ValidationInfo(true, [Ascii("VK_LAYER_KHRONOS_validation")])

  /** `VkLayerProperties`, reduced to the layer's NUL-terminated name. */
  datatype LayerProperties = LayerProperties(layerName: CChars)

  function LayerNames(layers: seq<LayerProperties>): (raws: seq<seq<byte>>)
    ensures |raws| == |layers|
    ensures forall k :: 0 <= k < |layers| ==> raws[k] == layers[k].layerName && Terminated(raws[k])
  {
    seq(|layers|, k requires 0 <= k < |layers| => layers[k].layerName)
  }

  /** `check_validation_layer_support`: whether some required layer is among the
      instance layers (`None` when `vkEnumerateInstanceLayerProperties` fails, which
      its `expect` turns into a panic). */
  function CheckValidationLayerSupport(validation: ValidationInfo, layerQuery: Option<seq<LayerProperties>>)
    : (r: Result<bool>)
    ensures layerQuery.None? ==> r == Panicked(CallRefused)
    ensures layerQuery.Some? && AllReadable(LayerNames(layerQuery.value)) ==>
              var raws := LayerNames(layerQuery.value);
              r == Ok(exists i, k :: 0 <= i < |validation.requiredValidationLayers| && 0 <= k < |raws| &&
                                     CStrBytes(raws[k]) == validation.requiredValidationLayers[i])
    ensures layerQuery.Some? && r.Panicked? ==> r.panic == InvalidUtf8
  {
    match layerQuery
    case None => Panicked(CallRefused)
    case Some(layers) => AnyRequiredAvailable(validation.requiredValidationLayers, LayerNames(layers))
  }

  /** `get_enabled_layers_len`: the number of required layers when validation is on,
      else 0 (`as u32`). */
  function GetEnabledLayersLen(validation: ValidationInfo): (n: u32)
    ensures validation.isEnable && |validation.requiredValidationLayers| < U32_LIMIT ==>
              n == |validation.requiredValidationLayers|
    ensures !validation.isEnable ==> n == 0
  {
    if validation.isEnable then AsU32(|validation.requiredValidationLayers|) else 0
  }

  // ---------------------------------------------------------------- extensions

  /** The build's window-system feature (`wayland` or `xlib`). */
  datatype Platform = Wayland | Xlib

  const SURFACE_EXTENSION: Str := Ascii("VK_KHR_surface")
  const DEBUG_UTILS_EXTENSION: Str := Ascii("VK_EXT_debug_utils")
  const WAYLAND_SURFACE_EXTENSION: Str := Ascii("VK_KHR_wayland_surface")
  const XLIB_SURFACE_EXTENSION: Str := Ascii("VK_KHR_xlib_surface")

  function PlatformSurfaceExtension(platform: Platform): Str {
    match platform
    case Wayland => WAYLAND_SURFACE_EXTENSION
    case Xlib => XLIB_SURFACE_EXTENSION
  }

  /** `create_extention_names`: the surface extension, the debug-utils extension and
      the platform's surface extension, in the order each feature's `vec!` lists them. */
  function CreateExtensionNames(platform: Platform): (names: seq<Str>)
    ensures |names| == 3 && names[0] == SURFACE_EXTENSION
    ensures DEBUG_UTILS_EXTENSION in names && PlatformSurfaceExtension(platform) in names
  {
    match platform
    case Wayland => [SURFACE_EXTENSION, DEBUG_UTILS_EXTENSION, WAYLAND_SURFACE_EXTENSION]
    case Xlib => [SURFACE_EXTENSION, XLIB_SURFACE_EXTENSION, DEBUG_UTILS_EXTENSION]
  }

  /** The three extension names are different ones. */
  lemma ExtensionNamesDistinct(platform: Platform)
    ensures Distinct(CreateExtensionNames(platform))
  {
    // The four names have four different lengths.
    assert |SURFACE_EXTENSION| == 14 && |DEBUG_UTILS_EXTENSION| == 18;
    assert |WAYLAND_SURFACE_EXTENSION| == 22 && |XLIB_SURFACE_EXTENSION| == 19;
  }

  // ---------------------------------------------------------------- versions

  /** `make_api_version`: variant in bits 29-31, major in 22-28, minor in 12-21 and
      patch in 0-11 of a `u32`, each shifted as the `u32` shift does. */
  function MakeApiVersion(variant: bv32, major: bv32, minor: bv32, patch: bv32): bv32 {
    (variant << 29) | (major << 22) | (minor << 12) | patch
  }

  function ApiVersionVariant(v: bv32): bv32 { v >> 29 }
  function ApiVersionMajor(v: bv32): bv32 { (v >> 22) & 0x7F }
  function ApiVersionMinor(v: bv32): bv32 { (v >> 12) & 0x3FF }
  function ApiVersionPatch(v: bv32): bv32 { v & 0xFFF }

  /** Every component that fits its field is read back unchanged. */
  lemma ApiVersionRoundTrip(variant: bv32, major: bv32, minor: bv32, patch: bv32)
    requires variant < 8 && major < 0x80 && minor < 0x400 && patch < 0x1000
    ensures var v := MakeApiVersion(variant, major, minor, patch);
            && ApiVersionVariant(v) == variant && ApiVersionMajor(v) == major
            && ApiVersionMinor(v) == minor && ApiVersionPatch(v) == patch
  {
  }

  // ---------------------------------------------------------------- create_instance

  /** `ApplicationInfo` as filled in by `create_instance`. */
  datatype ApplicationInfo = ApplicationInfo(
    applicationName: Str, applicationVersion: bv32, engineName: Str, engineVersion: bv32, apiVersion: bv32)

  /** `InstanceCreateInfo`. `debugMessengerChained` says whether `p_next` points at the
      debug-messenger create info (whose contents belong to
      src/vulkan/vulk_validation_layers.rs, not part of this model); a null layer-name
      pointer is `None`. */
  datatype InstanceCreateInfo = InstanceCreateInfo(
    debugMessengerChained: bool,
    applicationInfo: ApplicationInfo,
    enabledLayerNames: Option<seq<nat>>,
    enabledLayerCount: u32,
    enabledExtensionNames: seq<Str>,
    enabledExtensionCount: u32)

  const APPLICATION_INFO := ApplicationInfo(
    Ascii("Potato"), MakeApiVersion(0, 0, 0, 1), Ascii("Vulkan API"), MakeApiVersion(0, 0, 0, 1),
    MakeApiVersion(0, 1, 2, 148))

  /** What `create_instance` passes to `vkCreateInstance`, with the owned layer-name
      strings that must outlive the call. The layer names are converted to C strings
      (at addresses from `base` on) whether or not validation is on. */
  function InstanceInfo(validation: ValidationInfo, layerQuery: Option<seq<LayerProperties>>,
                        platform: Platform, base: nat): (r: Result<(seq<CString>, InstanceCreateInfo)>)
    ensures r.Ok? ==> validation.isEnable ==> CheckValidationLayerSupport(validation, layerQuery) == Ok(true)
    ensures r.Ok? ==> |r.value.0| == |validation.requiredValidationLayers|
    ensures r.Panicked? ==> r.panic in {CallRefused, InvalidUtf8, ValidationUnsupported, InteriorNul}
  {
    var supported :- if validation.isEnable then CheckValidationLayerSupport(validation, layerQuery) else Ok(true);
    if !supported then Panicked(ValidationUnsupported)
    else
      var extensionNames := CreateExtensionNames(platform);
      var (owned, pointers) :- ConvertToCStrings(validation.requiredValidationLayers, base);
      Ok((owned, InstanceCreateInfo(
        debugMessengerChained := validation.isEnable,
        applicationInfo := APPLICATION_INFO,
        enabledLayerNames := if validation.isEnable then Some(pointers) else None,
        enabledLayerCount := GetEnabledLayersLen(validation),
        enabledExtensionNames := extensionNames,
        enabledExtensionCount := |extensionNames| as u32)))
  }

  /** `create_instance`; `refused` is whether `vkCreateInstance` itself returns an error
      code. */
  function CreateInstance(validation: ValidationInfo, layerQuery: Option<seq<LayerProperties>>,
                          platform: Platform, base: nat, refused: bool): (r: Result<InstanceCreateInfo>)
    ensures refused ==> r.Panicked?
    ensures r.Ok? ==> validation.isEnable ==> CheckValidationLayerSupport(validation, layerQuery) == Ok(true)
    ensures r.Ok? ==> r.value.enabledExtensionCount == 3 && r.value.applicationInfo.apiVersion == MakeApiVersion(0, 1, 2, 148)
    ensures r.Panicked? ==> r.panic in {CallRefused, InvalidUtf8, ValidationUnsupported, InteriorNul}
  {
    var (_, info) :- InstanceInfo(validation, layerQuery, platform, base);
    if refused then Panicked(CallRefused) else Ok(info)
  }

  /** The validation gate: with validation on, an unsupported layer set panics before
      anything else happens, and with validation off the layers are never queried. */
  lemma ValidationGate(validation: ValidationInfo, layerQuery: Option<seq<LayerProperties>>,
                       platform: Platform, base: nat, refused: bool)
    ensures validation.isEnable && CheckValidationLayerSupport(validation, layerQuery) == Ok(false) ==>
              CreateInstance(validation, layerQuery, platform, base, refused) == Panicked(ValidationUnsupported)
    ensures validation.isEnable && CheckValidationLayerSupport(validation, layerQuery).Panicked? ==>
              CreateInstance(validation, layerQuery, platform, base, refused) ==
              Panicked(CheckValidationLayerSupport(validation, layerQuery).panic)
    ensures !validation.isEnable ==>
              CreateInstance(validation, layerQuery, platform, base, refused) ==
              CreateInstance(validation, None, platform, base, refused)
    ensures CreateInstance(validation, layerQuery, platform, base, refused) == Panicked(ValidationUnsupported) <==>
              validation.isEnable && CheckValidationLayerSupport(validation, layerQuery) == Ok(false)
  {
  }

  /** A create info that was passed on: the debug messenger is chained and the layer
      names present exactly when validation is on, the layer count is 0 without
      validation, and the three extensions are counted. */
  lemma InstanceInfoShape(validation: ValidationInfo, layerQuery: Option<seq<LayerProperties>>,
                          platform: Platform, base: nat)
    requires |validation.requiredValidationLayers| < U32_LIMIT
    requires InstanceInfo(validation, layerQuery, platform, base).Ok?
    ensures var (owned, info) := InstanceInfo(validation, layerQuery, platform, base).value;
            && info.debugMessengerChained == validation.isEnable
            && info.enabledLayerNames.Some? == validation.isEnable
            && (!validation.isEnable ==> info.enabledLayerCount == 0)
            && info.enabledExtensionCount == |info.enabledExtensionNames| == 3
            && info.applicationInfo.apiVersion == MakeApiVersion(0, 1, 2, 148)
  {
  }

  /** With validation on, the layer pointers handed over are as many as the layer count
      says, and pointer `k` leads to an owned copy of required layer `k`. */
  lemma InstanceInfoLayers(validation: ValidationInfo, layerQuery: Option<seq<LayerProperties>>,
                           platform: Platform, base: nat)
    requires |validation.requiredValidationLayers| < U32_LIMIT
    requires InstanceInfo(validation, layerQuery, platform, base).Ok?
    ensures var (owned, info) := InstanceInfo(validation, layerQuery, platform, base).value;
            info.enabledLayerNames.Some? ==>
              && |info.enabledLayerNames.value| == info.enabledLayerCount
              && forall k :: 0 <= k < |owned| ==>
                   StringAt(owned, info.enabledLayerNames.value[k]) == Some(owned[k]) &&
                   owned[k].contents == validation.requiredValidationLayers[k]
  {
    var (owned, info) := InstanceInfo(validation, layerQuery, platform, base).value;
    var conv := ConvertToCStrings(validation.requiredValidationLayers, base);
    assert conv.Ok? && conv.value == (owned, info.enabledLayerNames.GetOr(conv.value.1));
    forall k | 0 <= k < |owned|
      ensures StringAt(owned, conv.value.1[k]) == Some(owned[k])
    {
      StringAtDistinct(owned, base, k);
    }
  }

  /** The layer names of `VALIDATION` hold no NUL, so converting them never panics. */
  lemma ValidationLayersConvert(base: nat)
    ensures ConvertToCStrings(VALIDATION.requiredValidationLayers, base).Ok?
  {
  }
}
