/** The Vulkan values the application's decision code reads and writes: the
    records returned by the enumeration queries, modelled as plain data, and
    the enumerant codes it compares against (their numeric values are those
    of the Vulkan headers). */
module VkTypes {

  /** `uint32_t`, the width of every count, extent and enumerant here. */
  type u32 = x: int | 0 <= x < 0x1_0000_0000

  const U32Max: u32 := 0xFFFF_FFFF

  // VkFormat
  const FormatUndefined: u32 := 0
  const FormatB8G8R8A8Unorm: u32 := 44
  const FormatR32G32Sfloat: u32 := 103
  const FormatR32G32B32Sfloat: u32 := 106

  // VkColorSpaceKHR
  const ColorSpaceSrgbNonlinear: u32 := 0

  // VkPresentModeKHR
  const PresentModeImmediate: u32 := 0
  const PresentModeMailbox: u32 := 1
  const PresentModeFifo: u32 := 2

  // VkSharingMode
  const SharingModeExclusive: u32 := 0
  const SharingModeConcurrent: u32 := 1

  // VkQueueFlagBits: VK_QUEUE_GRAPHICS_BIT is bit 0
  const QueueGraphicsBit: u32 := 1

  // VkVertexInputRate
  const VertexInputRateVertex: u32 := 0

  datatype Option<T> = None | Some(value: T)

  /** VkExtent2D */
  datatype Extent2D = Extent2D(width: u32, height: u32)

  /** VkSurfaceFormatKHR */
  datatype SurfaceFormat = SurfaceFormat(format: u32, colorSpace: u32)

  /** The part of VkSurfaceCapabilitiesKHR the application reads. A
      `currentExtent.width` of `U32Max` means the surface leaves the extent
      to the swapchain; a `maxImageCount` of 0 means there is no upper limit. */
  datatype SurfaceCapabilities = SurfaceCapabilities(
    minImageCount: u32,
    maxImageCount: u32,
    currentExtent: Extent2D,
    minImageExtent: Extent2D,
    maxImageExtent: Extent2D)

  /** VkQueueFamilyProperties, together with the answer of
      vkGetPhysicalDeviceSurfaceSupportKHR for this family and the surface. */
  datatype QueueFamily = QueueFamily(queueCount: u32, queueFlags: u32, presentSupport: bool)

  /** Everything the enumeration queries report about one physical device
      and the application's one surface. */
  datatype PhysicalDevice = PhysicalDevice(
    queueFamilies: seq<QueueFamily>,
    extensions: seq<string>,
    capabilities: SurfaceCapabilities,
    formats: seq<SurfaceFormat>,
    presentModes: seq<u32>)

  /** `queueFlags & VK_QUEUE_GRAPHICS_BIT` is non-zero. */
  predicate HasGraphicsBit(flags: u32) {
    flags % 2 == 1
  }
}
