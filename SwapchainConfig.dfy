/** The swapchain parameters the application derives from what the surface
    reports: colour format, present mode, extent, image count and how the
    images are shared between the graphics and the present queue family. */
module SwapchainConfig {
  import opened VkTypes

  /** Width and height of the window (VulkanApplication::Width, Height). */
  const WindowWidth: u32 := 800
  const WindowHeight: u32 := 600

  /** The only format chooseSwapSurfaceFormat ever settles on. */
  const PreferredFormat := SurfaceFormat(FormatB8G8R8A8Unorm, ColorSpaceSrgbNonlinear)

  // ---------------------------------------------------------------- format

  /** The loop of chooseSwapSurfaceFormat: the first listed format equal to
      B8G8R8A8_UNORM in the sRGB non-linear colour space, if there is one. */
  function FindPreferredFormat(formats: seq<SurfaceFormat>): (r: Option<SurfaceFormat>)
    ensures r.Some? ==> r.value in formats && r.value == PreferredFormat
    ensures r.None? ==> PreferredFormat !in formats
  {
    if formats == [] then None
    else if formats[0].format == FormatB8G8R8A8Unorm && formats[0].colorSpace == ColorSpaceSrgbNonlinear
    then Some(formats[0])
    else FindPreferredFormat(formats[1..])
  }

  /** chooseSwapSurfaceFormat. A single UNDEFINED entry means the surface has
      no preference; otherwise the listed preferred format is taken, and
      failing that the preferred format is returned anyway. Every path yields
      the same pair, so the choice depends neither on the order nor on the
      contents of the list. */
  function ChooseSwapSurfaceFormat(formats: seq<SurfaceFormat>): (r: SurfaceFormat)
    ensures r == PreferredFormat
  {
    if |formats| == 1 && formats[0].format == FormatUndefined then PreferredFormat
    else match FindPreferredFormat(formats)
      case Some(f) => f
      case None => PreferredFormat
  }

  // ---------------------------------------------------------- present mode

  /** The present mode the application wants from a list of supported modes:
      MAILBOX when offered, else IMMEDIATE when offered, else FIFO, which
      every surface supports. */
  function PreferredPresentMode(modes: seq<u32>): u32 {
    if PresentModeMailbox in modes then PresentModeMailbox
    else if PresentModeImmediate in modes then PresentModeImmediate
    else PresentModeFifo
  }

  /** chooseSwapPresentMode: scans the list, returning at the first MAILBOX and
      remembering IMMEDIATE as a fallback to FIFO. */
  method ChooseSwapPresentMode(modes: seq<u32>) returns (mode: u32)
    ensures mode == PreferredPresentMode(modes)
  {
    var bestMode := PresentModeFifo;
    var i := 0;
    while i < |modes|
      invariant 0 <= i <= |modes|
      invariant PresentModeMailbox !in modes[..i]
      invariant bestMode == if PresentModeImmediate in modes[..i] then PresentModeImmediate else PresentModeFifo
    {
      if modes[i] == PresentModeMailbox {
        return modes[i];
      } else if modes[i] == PresentModeImmediate {
        bestMode := modes[i];
      }
      assert modes[..i + 1] == modes[..i] + [modes[i]];
      i := i + 1;
    }
    assert modes[..i] == modes;
    return bestMode;
  }

  /** The chosen mode is one the surface offers, or FIFO, which needs no offer;
      FIFO is chosen exactly when neither MAILBOX nor IMMEDIATE is offered. */
  lemma PresentModeIsSupported(modes: seq<u32>)
    ensures PreferredPresentMode(modes) in modes || PreferredPresentMode(modes) == PresentModeFifo
    ensures (PreferredPresentMode(modes) == PresentModeFifo)
        <==> (PresentModeMailbox !in modes && PresentModeImmediate !in modes)
  {
  }

  /** The choice depends only on which modes are offered, not on their order
      or multiplicity. */
  lemma PresentModeIgnoresOrder(a: seq<u32>, b: seq<u32>)
    requires forall m :: m in a <==> m in b
    ensures PreferredPresentMode(a) == PreferredPresentMode(b)
  {
  }

  /** {FIFO, MAILBOX} gives MAILBOX; {FIFO} gives FIFO. */
  lemma PresentModeScenarios()
    ensures PreferredPresentMode([PresentModeFifo, PresentModeMailbox]) == PresentModeMailbox
    ensures PreferredPresentMode([PresentModeFifo]) == PresentModeFifo
  {
  }

  // ---------------------------------------------------------------- extent

  function Min(a: u32, b: u32): u32 { if a < b then a else b }
  function Max(a: u32, b: u32): u32 { if a < b then b else a }

  /** `std::max(lo, std::min(hi, want))`: the window size pulled into the
      surface's bounds, the lower bound winning when the bounds cross. */
  function Clamp(lo: u32, hi: u32, want: u32): (r: u32)
    ensures lo <= hi ==> lo <= r <= hi
    ensures lo <= want <= hi ==> r == want
    ensures want < lo || hi < lo ==> r == lo
    ensures lo <= hi < want ==> r == hi
  {
    Max(lo, Min(hi, want))
  }

  /** The surface reports a fixed extent unless its current width is the
      special value 0xFFFFFFFF. */
  predicate ExtentIsDefined(caps: SurfaceCapabilities) {
    caps.currentExtent.width != U32Max
  }

  /** chooseSwapExtent: the reported extent when it is defined; otherwise the
      window size with each dimension clamped into the reported bounds. */
  function ChooseSwapExtent(caps: SurfaceCapabilities): (r: Extent2D)
    ensures ExtentIsDefined(caps) ==> r == caps.currentExtent
    ensures !ExtentIsDefined(caps) ==>
              caps.minImageExtent.width <= r.width && caps.minImageExtent.height <= r.height
  {
    if ExtentIsDefined(caps) then caps.currentExtent
    else
      Extent2D(Clamp(caps.minImageExtent.width, caps.maxImageExtent.width, WindowWidth),
               Clamp(caps.minImageExtent.height, caps.maxImageExtent.height, WindowHeight))
  }

  /** When the surface leaves the extent open and its bounds are ordered, the
      chosen extent lies within them, and it is the window size whenever that
      already fits. */
  lemma ExtentWithinBounds(caps: SurfaceCapabilities)
    requires !ExtentIsDefined(caps)
    requires caps.minImageExtent.width <= caps.maxImageExtent.width
    requires caps.minImageExtent.height <= caps.maxImageExtent.height
    ensures caps.minImageExtent.width <= ChooseSwapExtent(caps).width <= caps.maxImageExtent.width
    ensures caps.minImageExtent.height <= ChooseSwapExtent(caps).height <= caps.maxImageExtent.height
    ensures (caps.minImageExtent.width <= WindowWidth <= caps.maxImageExtent.width)
        ==> ChooseSwapExtent(caps).width == WindowWidth
    ensures (caps.minImageExtent.height <= WindowHeight <= caps.maxImageExtent.height)
        ==> ChooseSwapExtent(caps).height == WindowHeight
  {
  }

  /** Undefined current extent, bounds 1x1 .. 4096x4096: the window's 800x600. */
  lemma ExtentScenario(caps: SurfaceCapabilities)
    requires caps.currentExtent == Extent2D(U32Max, U32Max)
    requires caps.minImageExtent == Extent2D(1, 1) && caps.maxImageExtent == Extent2D(4096, 4096)
    ensures ChooseSwapExtent(caps) == Extent2D(800, 600)
  {
  }

  // ----------------------------------------------------------- image count

  /** The image count requested in initSwapchain: the surface's minimum,
      lowered to its maximum when there is one and the minimum exceeds it. */
  function SwapImageCount(caps: SurfaceCapabilities): (n: u32)
    ensures n <= caps.minImageCount
    ensures caps.maxImageCount > 0 ==> n <= caps.maxImageCount
    ensures (caps.maxImageCount == 0 || caps.minImageCount <= caps.maxImageCount) <==> n == caps.minImageCount
    ensures caps.maxImageCount > 0 && caps.minImageCount > caps.maxImageCount ==> n == caps.maxImageCount
  {
    if caps.maxImageCount > 0 && caps.minImageCount > caps.maxImageCount then caps.maxImageCount
    else caps.minImageCount
  }

  // --------------------------------------------------------------- sharing

  /** imageSharingMode together with the queue-family indices handed to the
      swapchain (their number is queueFamilyIndexCount). */
  datatype Sharing = Sharing(mode: u32, queueFamilyIndices: seq<nat>)

  /** Swapchain images are shared CONCURRENTly between two distinct families,
      and owned EXCLUSIVEly, with no index list, when the families coincide. */
  function SwapchainSharing(graphicsFamily: nat, presentFamily: nat): (s: Sharing)
    ensures s.mode == SharingModeConcurrent <==> graphicsFamily != presentFamily
    ensures s.mode == SharingModeExclusive <==> graphicsFamily == presentFamily
    ensures |s.queueFamilyIndices| == (if graphicsFamily != presentFamily then 2 else 0)
    ensures s.mode == SharingModeConcurrent ==>
              s.queueFamilyIndices == [graphicsFamily, presentFamily]
  {
    if graphicsFamily != presentFamily then Sharing(SharingModeConcurrent, [graphicsFamily, presentFamily])
    else Sharing(SharingModeExclusive, [])
  }

  /** The parameters passed to vkCreateSwapchainKHR that the application
      decides (the fixed ones, such as one array layer and colour-attachment
      usage, are not recorded). */
  datatype SwapchainCreateInfo = SwapchainCreateInfo(
    minImageCount: u32,
    imageFormat: u32,
    imageColorSpace: u32,
    imageExtent: Extent2D,
    sharing: Sharing,
    presentMode: u32)
}
