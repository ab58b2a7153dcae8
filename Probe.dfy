/** Capability probing: which names a device or instance provides, which
    queue family the application settles on, whether a physical device is
    suitable, which one is picked, and the queues requested from the
    logical device. */
module Probe {
  import opened VkTypes
  import SwapchainConfig

  /** The validation layers the application asks for when DEBUG_MODE is set. */
  const ValidationLayers: seq<string> := ["VK_LAYER_LUNARG_standard_validation"]

  /** Every required name occurs among the available ones. */
  predicate AllNamesAvailable(required: seq<string>, available: seq<string>) {
    forall name :: name in required ==> name in available
  }

  /** Whether every name is available depends only on which names are
      listed, not on their order or repetitions. */
  lemma AllNamesAvailableIgnoresOrder(required: seq<string>, a: seq<string>, b: seq<string>)
    requires forall name :: name in a <==> name in b
    ensures AllNamesAvailable(required, a) == AllNamesAvailable(required, b)
  {
  }

  /** checkDeviceExtensionSupport: starts from the set of required extension
      names and erases every name the device lists. */
  method CheckDeviceExtensionSupport(device: PhysicalDevice, deviceExtensions: seq<string>)
    returns (supported: bool)
    ensures supported == AllNamesAvailable(deviceExtensions, device.extensions)
  {
    var availableExtensions := device.extensions;
    var requiredExtensions := set name | name in deviceExtensions;
    var i := 0;
    while i < |availableExtensions|
      invariant 0 <= i <= |availableExtensions|
      invariant requiredExtensions == set name | name in deviceExtensions && name !in availableExtensions[..i]
    {
      requiredExtensions := requiredExtensions - {availableExtensions[i]};
      assert availableExtensions[..i + 1] == availableExtensions[..i] + [availableExtensions[i]];
      i := i + 1;
    }
    assert availableExtensions[..i] == availableExtensions;
    supported := requiredExtensions == {};
    if !AllNamesAvailable(deviceExtensions, availableExtensions) {
      var missing :| missing in deviceExtensions && missing !in availableExtensions;
      assert missing in requiredExtensions;
    }
  }

  /** checkValidationLayerSupport: for each requested layer, searches the
      instance's layers and gives up at the first one that is missing. */
  method CheckValidationLayerSupport(properties: seq<string>, validationLayers: seq<string>)
    returns (supported: bool)
    ensures supported == AllNamesAvailable(validationLayers, properties)
  {
    var j := 0;
    while j < |validationLayers|
      invariant 0 <= j <= |validationLayers|
      invariant forall k :: 0 <= k < j ==> validationLayers[k] in properties
    {
      var layerName := validationLayers[j];
      var layerFound := false;
      var k := 0;
      while k < |properties|
        invariant 0 <= k <= |properties|
        invariant layerName !in properties[..k]
      {
        if layerName == properties[k] {
          layerFound := true;
          break;
        }
        assert properties[..k + 1] == properties[..k] + [properties[k]];
        k := k + 1;
      }
      if !layerFound {
        assert properties[..k] == properties;
        return false;
      }
      j := j + 1;
    }
    return true;
  }

  // ---------------------------------------------------------- queue families

  /** The family has queues and can run graphics work. */
  predicate SupportsGraphics(f: QueueFamily) {
    f.queueCount > 0 && HasGraphicsBit(f.queueFlags)
  }

  /** The family has queues and can present to the surface. */
  predicate SupportsPresent(f: QueueFamily) {
    f.queueCount > 0 && f.presentSupport
  }

  /** The family ends the search of findQueueFamilies. */
  predicate Qualifies(f: QueueFamily) {
    SupportsGraphics(f) || SupportsPresent(f)
  }

  /** The index of the first family that qualifies, if any does. */
  function FirstQualifying(families: seq<QueueFamily>): (r: Option<nat>)
    ensures r.Some? ==> r.value < |families| && Qualifies(families[r.value])
    ensures r.Some? ==> forall j :: 0 <= j < r.value ==> !Qualifies(families[j])
    ensures r.None? <==> forall j :: 0 <= j < |families| ==> !Qualifies(families[j])
  {
    if families == [] then None
    else if Qualifies(families[0]) then Some(0)
    else match FirstQualifying(families[1..])
      case None => None
      case Some(k) => Some(k + 1)
  }

  /** QueueFamilyIndices: a family index is meaningful only when its flag is set;
      an unset index keeps its zero initialisation. */
  datatype QueueFamilyIndices = QueueFamilyIndices(
    graphicsFamily: nat, presentFamily: nat, hasGraphics: bool, hasPresent: bool)

  const NoQueueFamilies := QueueFamilyIndices(0, 0, false, false)

  /** What findQueueFamilies reports: the flags of the first qualifying family,
      both naming that family. */
  function QueueFamiliesOf(families: seq<QueueFamily>): QueueFamilyIndices {
    match FirstQualifying(families)
    case None => NoQueueFamilies
    case Some(i) =>
      var f := families[i];
      QueueFamilyIndices(
        if SupportsGraphics(f) then i else 0,
        if SupportsPresent(f) then i else 0,
        SupportsGraphics(f),
        SupportsPresent(f))
  }

  /** A flag is set only for a family that can do that job and that no
      earlier family qualifies before; two set flags name the same family;
      an unset flag leaves its index 0; and no flag is set exactly when no
      family qualifies. */
  lemma QueueFamiliesOfFirstQualifying(families: seq<QueueFamily>)
    ensures var r := QueueFamiliesOf(families);
      && (r.hasGraphics ==> r.graphicsFamily < |families| && SupportsGraphics(families[r.graphicsFamily]))
      && (r.hasPresent ==> r.presentFamily < |families| && SupportsPresent(families[r.presentFamily]))
      && (r.hasGraphics && r.hasPresent ==> r.graphicsFamily == r.presentFamily)
      && (r.hasGraphics ==> forall j :: 0 <= j < r.graphicsFamily ==> !Qualifies(families[j]))
      && (r.hasPresent ==> forall j :: 0 <= j < r.presentFamily ==> !Qualifies(families[j]))
      && (!r.hasGraphics ==> r.graphicsFamily == 0)
      && (!r.hasPresent ==> r.presentFamily == 0)
      && ((!r.hasGraphics && !r.hasPresent) <==> forall j :: 0 <= j < |families| ==> !Qualifies(families[j]))
  {
  }

  /** findQueueFamilies: walks the families in order, records the graphics
      and the present family of the current index, and stops as soon as
      either has been recorded. */
  method FindQueueFamilies(device: PhysicalDevice) returns (indices: QueueFamilyIndices)
    ensures indices == QueueFamiliesOf(device.queueFamilies)
  {
    var queueFamilies := device.queueFamilies;
    indices := NoQueueFamilies;
    var i := 0;
    while i < |queueFamilies|
      invariant 0 <= i <= |queueFamilies|
      invariant forall j :: 0 <= j < i ==> !Qualifies(queueFamilies[j])
      invariant indices == NoQueueFamilies
    {
      var queueFamily := queueFamilies[i];
      if SupportsGraphics(queueFamily) {
        indices := indices.(graphicsFamily := i, hasGraphics := true);
      }
      if SupportsPresent(queueFamily) {
        indices := indices.(presentFamily := i, hasPresent := true);
      }
      if indices.hasGraphics || indices.hasPresent {
        assert FirstQualifying(queueFamilies) == Some(i);
        break;
      }
      i := i + 1;
    }
  }

  // ------------------------------------------------------------- suitability

  /** isDeviceSuitable: graphics and present families found, every required
      extension present, and at least one surface format and present mode. */
  predicate DeviceSuitable(device: PhysicalDevice, deviceExtensions: seq<string>) {
    var indices := QueueFamiliesOf(device.queueFamilies);
    && indices.hasGraphics
    && indices.hasPresent
    && AllNamesAvailable(deviceExtensions, device.extensions)
    && |device.formats| > 0
    && |device.presentModes| > 0
  }

  /** isDeviceSuitable. The swapchain support is only looked at once the
      extensions are known to be supported: `swapchainQueried` records
      whether querySwapChainSupport was reached. */
  method IsDeviceSuitable(device: PhysicalDevice, deviceExtensions: seq<string>)
    returns (suitable: bool, ghost swapchainQueried: bool)
    ensures suitable == DeviceSuitable(device, deviceExtensions)
    ensures swapchainQueried <==> AllNamesAvailable(deviceExtensions, device.extensions)
  {
    var indices := FindQueueFamilies(device);
    var supported := CheckDeviceExtensionSupport(device, deviceExtensions);
    var swapChainAdequate := false;
    swapchainQueried := false;
    if supported {
      swapchainQueried := true;
      swapChainAdequate := |device.formats| > 0 && |device.presentModes| > 0;
    }
    suitable := indices.hasGraphics && indices.hasPresent && supported && swapChainAdequate;
  }

  /** Because the family search stops at the first family that can do either
      job, a device is suitable only if that very family can do both: one
      family drawing and another presenting is never accepted. */
  lemma SuitableNeedsSharedFamily(device: PhysicalDevice, deviceExtensions: seq<string>)
    ensures DeviceSuitable(device, deviceExtensions) <==>
              && FirstQualifying(device.queueFamilies).Some?
              && SupportsGraphics(device.queueFamilies[FirstQualifying(device.queueFamilies).value])
              && SupportsPresent(device.queueFamilies[FirstQualifying(device.queueFamilies).value])
              && AllNamesAvailable(deviceExtensions, device.extensions)
              && |device.formats| > 0
              && |device.presentModes| > 0
    ensures DeviceSuitable(device, deviceExtensions) ==>
              exists k :: 0 <= k < |device.queueFamilies|
                          && SupportsGraphics(device.queueFamilies[k]) && SupportsPresent(device.queueFamilies[k])
  {
  }

  /** On a suitable device the graphics and present families coincide, so
      the swapchain owns its images EXCLUSIVEly and the logical device
      requests a single queue. */
  lemma SuitableDeviceUsesOneFamily(device: PhysicalDevice, deviceExtensions: seq<string>)
    requires DeviceSuitable(device, deviceExtensions)
    ensures QueueFamiliesOf(device.queueFamilies).graphicsFamily == QueueFamiliesOf(device.queueFamilies).presentFamily
    ensures SwapchainConfig.SwapchainSharing(QueueFamiliesOf(device.queueFamilies).graphicsFamily,
                                       QueueFamiliesOf(device.queueFamilies).presentFamily).mode == SharingModeExclusive
    ensures |UniqueQueueFamilies(QueueFamiliesOf(device.queueFamilies))| == 1
  {
    QueueFamiliesOfFirstQualifying(device.queueFamilies);
  }

  // ------------------------------------------------------- device selection

  /** The index of the first suitable device, if any is. */
  function FirstSuitable(devices: seq<PhysicalDevice>, deviceExtensions: seq<string>): Option<nat> {
    if devices == [] then None
    else if DeviceSuitable(devices[0], deviceExtensions) then Some(0)
    else match FirstSuitable(devices[1..], deviceExtensions)
      case None => None
      case Some(k) => Some(k + 1)
  }

  /** FirstSuitable names a suitable device with no suitable one before it,
      and names none exactly when no device is suitable. */
  lemma {:induction false} FirstSuitableIsFirst(devices: seq<PhysicalDevice>, deviceExtensions: seq<string>)
    ensures var r := FirstSuitable(devices, deviceExtensions);
      && (r.Some? ==> r.value < |devices| && DeviceSuitable(devices[r.value], deviceExtensions))
      && (r.Some? ==> forall j :: 0 <= j < r.value ==> !DeviceSuitable(devices[j], deviceExtensions))
      && (r.None? <==> forall j :: 0 <= j < |devices| ==> !DeviceSuitable(devices[j], deviceExtensions))
  {
    if devices != [] && !DeviceSuitable(devices[0], deviceExtensions) {
      var rest := devices[1..];
      FirstSuitableIsFirst(rest, deviceExtensions);
      assert forall j :: 1 <= j < |devices| ==> devices[j] == rest[j - 1];
    }
  }

  // ------------------------------------------------------- queue requests

  /** VkDeviceQueueCreateInfo, without the priority (always 1.0). */
  datatype QueueCreateInfo = QueueCreateInfo(queueFamilyIndex: nat, queueCount: nat)

  /** The contents of `std::set<uint32_t>{graphicsFamily, presentFamily}` in
      its iteration order: ascending, without repetition. */
  function UniqueQueueFamilies(indices: QueueFamilyIndices): (r: seq<nat>)
    ensures forall f :: f in r <==> f == indices.graphicsFamily || f == indices.presentFamily
    ensures forall j, k :: 0 <= j < k < |r| ==> r[j] < r[k]
    ensures |r| == if indices.graphicsFamily == indices.presentFamily then 1 else 2
  {
    var g, p := indices.graphicsFamily, indices.presentFamily;
    if g == p then [g] else if g < p then [g, p] else [p, g]
  }

  /** One request of one queue per distinct family of `indices`, in ascending
      family order. */
  predicate OneQueuePerFamily(infos: seq<QueueCreateInfo>, indices: QueueFamilyIndices) {
    && (set k | 0 <= k < |infos| :: infos[k].queueFamilyIndex) == {indices.graphicsFamily, indices.presentFamily}
    && (forall j, k :: 0 <= j < k < |infos| ==> infos[j].queueFamilyIndex < infos[k].queueFamilyIndex)
    && (forall k :: 0 <= k < |infos| ==> infos[k].queueCount == 1)
  }

  /** Requests in strictly ascending family order name as many families as
      there are requests. */
  lemma {:induction false} AscendingFamiliesAreDistinct(infos: seq<QueueCreateInfo>)
    requires forall j, k :: 0 <= j < k < |infos| ==> infos[j].queueFamilyIndex < infos[k].queueFamilyIndex
    ensures |set k | 0 <= k < |infos| :: infos[k].queueFamilyIndex| == |infos|
  {
    if infos != [] {
      var rest := infos[1..];
      AscendingFamiliesAreDistinct(rest);
      var all := set k | 0 <= k < |infos| :: infos[k].queueFamilyIndex;
      var tail := set k | 0 <= k < |rest| :: rest[k].queueFamilyIndex;
      assert all == {infos[0].queueFamilyIndex} + tail by {
        forall f | f in all ensures f in {infos[0].queueFamilyIndex} + tail {
          var k :| 0 <= k < |infos| && infos[k].queueFamilyIndex == f;
          if k > 0 { assert rest[k - 1].queueFamilyIndex == f; }
        }
        forall f | f in tail ensures f in all {
          var k :| 0 <= k < |rest| && rest[k].queueFamilyIndex == f;
          assert infos[k + 1].queueFamilyIndex == f;
        }
      }
      assert infos[0].queueFamilyIndex !in tail;
    }
  }

  /** Such a request list has one entry when the families coincide and two
      when they differ. */
  lemma OneQueuePerFamilyCount(infos: seq<QueueCreateInfo>, indices: QueueFamilyIndices)
    requires OneQueuePerFamily(infos, indices)
    ensures |infos| == if indices.graphicsFamily == indices.presentFamily then 1 else 2
  {
    AscendingFamiliesAreDistinct(infos);
  }

  /** The queue requests of initLogicalDevice: one queue from each distinct
      family, in ascending family order. */
  method BuildQueueCreateInfos(indices: QueueFamilyIndices) returns (queueCreateInfos: seq<QueueCreateInfo>)
    ensures OneQueuePerFamily(queueCreateInfos, indices)
    ensures |queueCreateInfos| == if indices.graphicsFamily == indices.presentFamily then 1 else 2
  {
    var uniqueQueueFamilies := UniqueQueueFamilies(indices);
    queueCreateInfos := [];
    var i := 0;
    while i < |uniqueQueueFamilies|
      invariant 0 <= i <= |uniqueQueueFamilies|
      invariant |queueCreateInfos| == i
      invariant forall k :: 0 <= k < i ==> queueCreateInfos[k] == QueueCreateInfo(uniqueQueueFamilies[k], 1)
    {
      queueCreateInfos := queueCreateInfos + [QueueCreateInfo(uniqueQueueFamilies[i], 1)];
      i := i + 1;
    }
    assert (set k | 0 <= k < |queueCreateInfos| :: queueCreateInfos[k].queueFamilyIndex)
        == set f | f in uniqueQueueFamilies;
  }
}
