/** The selection rules of the Vulkan setup (src/VulkanAPI.cpp): the memory
    type search of section 11.2.1 of the Vulkan 1.3 specification, format
    support and first-supported-format search, the swapchain image count, and
    the physical-device, queue-family, surface-format and present-mode choice.
    Every Vulkan query becomes a plain input record. */
module VulkanApi {
  import opened Wrappers
  import opened MachineInts

  type Flags = bv32

  // Constants of the Vulkan 1.3 headers that the rules compare against.
  const FORMAT_UNDEFINED: nat := 0
  const FORMAT_B8G8R8A8_UNORM: nat := 44
  const COLOR_SPACE_SRGB_NONLINEAR: nat := 0
  const QUEUE_GRAPHICS_BIT: Flags := 0x1
  const QUEUE_COMPUTE_BIT: Flags := 0x2
  const MAX_MEMORY_TYPES: nat := 32

  datatype ImageTiling = Optimal | Linear | DrmFormatModifier
  datatype DeviceType = Other | IntegratedGpu | DiscreteGpu | VirtualGpu | Cpu
  datatype PresentMode = Immediate | Mailbox | Fifo | FifoRelaxed

  /** One entry of `VkPhysicalDeviceMemoryProperties::memoryTypes`. */
  datatype MemoryType = MemoryType(propertyFlags: Flags)

  /** `VkFormatProperties` as the format query returns it. */
  datatype FormatProperties = FormatProperties(linearTilingFeatures: Flags, optimalTilingFeatures: Flags)

  datatype SurfaceCapabilities = SurfaceCapabilities(minImageCount: nat, maxImageCount: nat)

  datatype SurfaceFormat = SurfaceFormat(format: nat, colorSpace: nat)

  /** One queue family with the answer of the surface-support query for it. */
  datatype QueueFamily = QueueFamily(queueFlags: Flags, presentSupport: bool)

  /** What the device queries report about one physical device. */
  datatype PhysicalDevice = PhysicalDevice(
    deviceType: DeviceType,
    geometryShader: bool,
    queueFamilies: seq<QueueFamily>,
    surfaceCapabilities: SurfaceCapabilities,
    surfaceFormats: seq<SurfaceFormat>,
    presentModes: seq<PresentMode>)

  // ---------------------------------------------------------------------------
  // Memory types
  // ---------------------------------------------------------------------------

  /** Memory type `i` is allowed by `typeFilter` (bit i set) and has every
      requested property bit. */
  predicate MemoryTypeMatches(memoryTypes: seq<MemoryType>, typeFilter: Flags, properties: Flags, i: nat)
    requires i < |memoryTypes| <= MAX_MEMORY_TYPES
  {
    HasBit(typeFilter, i) && HasAll(memoryTypes[i].propertyFlags, properties)
  }

  /** Bit `i` of `flags` is set. */
  predicate HasBit(flags: Flags, i: nat)
    requires i < 32
  {
    flags & ((1 as bv32) << i) != 0
  }

  /** Every bit of `wanted` is set in `flags`. */
  predicate HasAll(flags: Flags, wanted: Flags)
  {
    flags & wanted == wanted
  }

  /** `FindMemoryType`: the smallest matching memory type index. The source
      falls off its end without a return value when nothing matches, so a
      match is required. */
  method FindMemoryType(memoryTypes: seq<MemoryType>, typeFilter: Flags, properties: Flags) returns (index: nat)
    requires |memoryTypes| <= MAX_MEMORY_TYPES
    requires exists i :: 0 <= i < |memoryTypes| && MemoryTypeMatches(memoryTypes, typeFilter, properties, i)
    ensures index < |memoryTypes| && MemoryTypeMatches(memoryTypes, typeFilter, properties, index)
    ensures forall j :: 0 <= j < index ==> !MemoryTypeMatches(memoryTypes, typeFilter, properties, j)
  {
    var i := 0;
    while i < |memoryTypes|
      invariant i <= |memoryTypes|
      invariant forall j :: 0 <= j < i ==> !MemoryTypeMatches(memoryTypes, typeFilter, properties, j)
    {
      if MemoryTypeMatches(memoryTypes, typeFilter, properties, i) {
        return i;
      }
      i := i + 1;
    }
    assert false;
  }

  /** Asking for fewer properties never makes the answer larger: a type that
      matches a request also matches any sub-request. */
  lemma MemoryTypeSubRequest(memoryTypes: seq<MemoryType>, typeFilter: Flags, properties: Flags, fewer: Flags, i: nat)
    requires i < |memoryTypes| <= MAX_MEMORY_TYPES
    requires HasAll(properties, fewer)
    requires MemoryTypeMatches(memoryTypes, typeFilter, properties, i)
    ensures MemoryTypeMatches(memoryTypes, typeFilter, fewer, i)
  {
    FlagsSubset(memoryTypes[i].propertyFlags, properties, fewer);
  }

  /** Having every bit of a set means having every bit of its subsets. */
  lemma FlagsSubset(flags: Flags, wanted: Flags, fewer: Flags)
    requires HasAll(flags, wanted) && HasAll(wanted, fewer)
    ensures HasAll(flags, fewer)
  {
  }

  // ---------------------------------------------------------------------------
  // Formats
  // ---------------------------------------------------------------------------

  /** `IsFormatSupported`: the requested features are all linear-tiling
      features under linear tiling, or all optimal-tiling features under
      optimal tiling. */
  predicate IsFormatSupported(properties: FormatProperties, tiling: ImageTiling, featureFlags: Flags)
  {
    (tiling == Linear && HasAll(properties.linearTilingFeatures, featureFlags))
    || (tiling == Optimal && HasAll(properties.optimalTilingFeatures, featureFlags))
  }

  /** No tiling other than linear and optimal is ever supported; under either,
      support is closed under asking for fewer features, and the empty feature
      set is always supported. */
  lemma FormatSupportRules(properties: FormatProperties, tiling: ImageTiling, featureFlags: Flags, fewer: Flags)
    requires HasAll(featureFlags, fewer)
    ensures tiling == DrmFormatModifier ==> !IsFormatSupported(properties, tiling, featureFlags)
    ensures IsFormatSupported(properties, tiling, featureFlags) ==> IsFormatSupported(properties, tiling, fewer)
    ensures tiling != DrmFormatModifier ==> IsFormatSupported(properties, tiling, 0)
  {
    if IsFormatSupported(properties, tiling, featureFlags) {
      if tiling == Linear {
        FlagsSubset(properties.linearTilingFeatures, featureFlags, fewer);
      } else {
        FlagsSubset(properties.optimalTilingFeatures, featureFlags, fewer);
      }
    }
  }

  /** `FindSupportedFormat`: the first format of the list that is supported,
      or `VK_FORMAT_UNDEFINED` when none is. `query` stands for the
      physical-device format query. */
  method FindSupportedFormat(formats: seq<nat>, tiling: ImageTiling, featureFlags: Flags, query: nat -> FormatProperties)
    returns (format: nat)
    ensures (forall i :: 0 <= i < |formats| ==> !IsFormatSupported(query(formats[i]), tiling, featureFlags))
      ==> format == FORMAT_UNDEFINED
    ensures (exists i :: 0 <= i < |formats| && IsFormatSupported(query(formats[i]), tiling, featureFlags))
      ==> exists i :: 0 <= i < |formats| && format == formats[i]
            && IsFormatSupported(query(format), tiling, featureFlags)
            && forall j :: 0 <= j < i ==> !IsFormatSupported(query(formats[j]), tiling, featureFlags)
  {
    for i := 0 to |formats|
      invariant forall j :: 0 <= j < i ==> !IsFormatSupported(query(formats[j]), tiling, featureFlags)
    {
      if IsFormatSupported(query(formats[i]), tiling, featureFlags) {
        return formats[i];
      }
    }
    return FORMAT_UNDEFINED;
  }

  // ---------------------------------------------------------------------------
  // Swapchain image count
  // ---------------------------------------------------------------------------

  /** `GetSwapchainImageCount`: one more than the minimum, capped by the
      maximum, where a maximum of 0 means no limit; the `+ 1` is `uint32_t`
      arithmetic. */
  function SwapchainImageCount(caps: SurfaceCapabilities): (count: nat)
    requires caps.minImageCount <= UINT32_MAX && caps.maxImageCount <= UINT32_MAX
    ensures count <= UINT32_MAX
    ensures caps.maxImageCount != 0 ==> count <= caps.maxImageCount
    ensures caps.minImageCount < UINT32_MAX && (caps.maxImageCount == 0 || caps.minImageCount < caps.maxImageCount)
      ==> count == caps.minImageCount + 1
    ensures caps.minImageCount < UINT32_MAX && caps.maxImageCount != 0 && caps.minImageCount >= caps.maxImageCount
      ==> count == caps.maxImageCount
  {
    var wanted := Wrap32(caps.minImageCount + 1);
    var limit := if caps.maxImageCount == 0 then UINT32_MAX else caps.maxImageCount;
    if wanted < limit then wanted else limit
  }

  /** A surface whose minimum is already `UINT32_MAX` wraps to zero images. */
  lemma SwapchainImageCountWraps()
    ensures SwapchainImageCount(SurfaceCapabilities(UINT32_MAX, 0)) == 0
  {
  }

  // ---------------------------------------------------------------------------
  // Physical-device choice
  // ---------------------------------------------------------------------------

  predicate QueueFamilyQualifies(family: QueueFamily)
  {
    family.queueFlags & (QUEUE_GRAPHICS_BIT | QUEUE_COMPUTE_BIT) != 0 && family.presentSupport
  }

  /** The first queue family with graphics or compute capability and present
      support, or `UINT32_MAX` when there is none. */
  method FindQueueFamily(families: seq<QueueFamily>) returns (qfi: nat)
    requires |families| < UINT32_MAX
    ensures qfi == UINT32_MAX <==> forall i :: 0 <= i < |families| ==> !QueueFamilyQualifies(families[i])
    ensures qfi != UINT32_MAX ==>
      qfi < |families| && QueueFamilyQualifies(families[qfi])
      && forall j :: 0 <= j < qfi ==> !QueueFamilyQualifies(families[j])
  {
    qfi := UINT32_MAX;
    var i := 0;
    while i < |families|
      invariant i <= |families|
      invariant forall j :: 0 <= j < i ==> !QueueFamilyQualifies(families[j])
    {
      if QueueFamilyQualifies(families[i]) {
        qfi := i;
        break;
      }
      i := i + 1;
    }
  }

  predicate IsBestFormat(f: SurfaceFormat)
  {
    f.colorSpace == COLOR_SPACE_SRGB_NONLINEAR && f.format == FORMAT_B8G8R8A8_UNORM
  }

  /** The 8-bit BGRA sRGB surface format, if the surface offers it. */
  method FindSurfaceFormat(formats: seq<SurfaceFormat>) returns (best: Option<SurfaceFormat>)
    ensures best.None? <==> forall i :: 0 <= i < |formats| ==> !IsBestFormat(formats[i])
    ensures best.Some? ==> best.value in formats && IsBestFormat(best.value)
  {
    best := None;
    for i := 0 to |formats|
      invariant forall j :: 0 <= j < i ==> !IsBestFormat(formats[j])
    {
      if IsBestFormat(formats[i]) {
        best := Some(formats[i]);
        break;
      }
    }
  }

  /** Mailbox when the surface offers it, FIFO (always available) otherwise. */
  method ChoosePresentMode(modes: seq<PresentMode>) returns (mode: PresentMode)
    ensures Mailbox in modes ==> mode == Mailbox
    ensures Mailbox !in modes ==> mode == Fifo
  {
    mode := Fifo;
    for i := 0 to |modes|
      invariant Mailbox !in modes[..i]
    {
      if modes[i] == Mailbox {
        mode := modes[i];
        break;
      }
    }
  }

  /** The first queue family a device offers for all three queues. */
  function QueueFamilyOf(families: seq<QueueFamily>): (r: Option<nat>)
    ensures r.Some? ==> r.value < |families| && QueueFamilyQualifies(families[r.value])
    ensures r.None? ==> forall i :: 0 <= i < |families| ==> !QueueFamilyQualifies(families[i])
  {
    if |families| == 0 then None
    else if QueueFamilyQualifies(families[0]) then Some(0)
    else match QueueFamilyOf(families[1..]) {
      case None => None
      case Some(i) => Some(i + 1)
    }
  }

  /** The four conditions of the final check. */
  predicate DeviceQualifies(d: PhysicalDevice)
  {
    d.deviceType == DiscreteGpu && d.geometryShader
    && QueueFamilyOf(d.queueFamilies).Some?
    && exists i :: 0 <= i < |d.surfaceFormats| && IsBestFormat(d.surfaceFormats[i])
  }

  /** The index of the first qualifying device, if any. */
  function FirstQualifying(devices: seq<PhysicalDevice>): (r: Option<nat>)
    ensures r.Some? ==>
      r.value < |devices| && DeviceQualifies(devices[r.value])
      && forall j :: 0 <= j < r.value ==> !DeviceQualifies(devices[j])
    ensures r.None? ==> forall i :: 0 <= i < |devices| ==> !DeviceQualifies(devices[i])
  {
    if |devices| == 0 then None
    else if DeviceQualifies(devices[0]) then Some(0)
    else match FirstQualifying(devices[1..]) {
      case None => None
      case Some(i) =>
        assert forall j :: 1 <= j <= i ==> devices[j] == devices[1..][j - 1];
        Some(i + 1)
    }
  }

  lemma {:induction false} QueueFamilyOfFirst(families: seq<QueueFamily>, qfi: nat)
    requires qfi < |families| && QueueFamilyQualifies(families[qfi])
    requires forall j :: 0 <= j < qfi ==> !QueueFamilyQualifies(families[j])
    ensures QueueFamilyOf(families) == Some(qfi)
  {
    if qfi > 0 {
      QueueFamilyOfFirst(families[1..], qfi - 1);
    }
  }

  /** The device-wide state `PickPhysicalDevice` writes. */
  class VulkanApi {
    var physicalDevice: Option<PhysicalDevice>
    var graphicsQfi: nat
    var presentQfi: nat
    var computeQfi: nat
    var surfaceCapabilities: SurfaceCapabilities
    var surfaceFormat: SurfaceFormat
    var presentMode: PresentMode

    constructor()
      ensures physicalDevice.None?
    {
      physicalDevice := None;
      graphicsQfi, presentQfi, computeQfi := 0, 0, 0;
      surfaceCapabilities := SurfaceCapabilities(0, 0);
      surfaceFormat := SurfaceFormat(FORMAT_UNDEFINED, COLOR_SPACE_SRGB_NONLINEAR);
      presentMode := Fifo;
    }


    /** `PickPhysicalDevice`: walks the devices in order and keeps the first
        one that is a discrete GPU with geometry shaders, a queue family for
        graphics/compute and presentation, and the BGRA sRGB surface format;
        all three queue family indices become that family. No such device is
        an error. */
    method PickPhysicalDevice(devices: seq<PhysicalDevice>) returns (r: Outcome<()>)
      requires forall d :: d in devices ==> |d.queueFamilies| < UINT32_MAX
      modifies this
      ensures r.Err? <==> FirstQualifying(devices).None?
      ensures r.Err? ==> r.msg == "Failed to pick physical device" && physicalDevice.None?
      ensures r.Ok? ==> var d := devices[FirstQualifying(devices).value];
        physicalDevice == Some(d)
        && Some(graphicsQfi) == QueueFamilyOf(d.queueFamilies)
        && presentQfi == graphicsQfi && computeQfi == graphicsQfi
        && surfaceCapabilities == d.surfaceCapabilities
        && IsBestFormat(surfaceFormat)
        && presentMode == (if Mailbox in d.presentModes then Mailbox else Fifo)
    {
      physicalDevice := None;
      var k := 0;
      while k < |devices|
        invariant k <= |devices|
        invariant forall j :: 0 <= j < k ==> !DeviceQualifies(devices[j])
        invariant physicalDevice.None?
      {
        var d := devices[k];
        var isDiscreteGpu := d.deviceType == DiscreteGpu;
        var hasGeometryShader := d.geometryShader;
        var qfi := FindQueueFamily(d.queueFamilies);
        var bestFormat := FindSurfaceFormat(d.surfaceFormats);
        var bestPresentMode := ChoosePresentMode(d.presentModes);
        if qfi != UINT32_MAX {
          QueueFamilyOfFirst(d.queueFamilies, qfi);
        }
        if isDiscreteGpu && hasGeometryShader && qfi != UINT32_MAX && bestFormat.Some? {
          physicalDevice := Some(d);
          graphicsQfi := qfi;
          presentQfi := qfi;
          computeQfi := qfi;
          surfaceCapabilities := d.surfaceCapabilities;
          surfaceFormat := bestFormat.value;
          presentMode := bestPresentMode;
          assert DeviceQualifies(d);
          FirstQualifyingIs(devices, k);
          return Ok(());
        }
        k := k + 1;
      }
      return Err("Failed to pick physical device");
    }

    /** `GetComputeQFI` answers with the graphics queue family index, which is
        the compute index too once a device is picked. */
    function GetComputeQfi(): (qfi: nat)
      reads this
      ensures qfi == graphicsQfi
    {
      graphicsQfi
    }
  }

  lemma {:induction false} FirstQualifyingIs(devices: seq<PhysicalDevice>, k: nat)
    requires k < |devices| && DeviceQualifies(devices[k])
    requires forall j :: 0 <= j < k ==> !DeviceQualifies(devices[j])
    ensures FirstQualifying(devices) == Some(k)
  {
    if k > 0 {
      FirstQualifyingIs(devices[1..], k - 1);
    }
  }
}
