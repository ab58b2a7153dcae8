/** The application object: the Vulkan and window-system objects it owns,
    the order `run` creates them in, and the reverse order it destroys them
    in. What the driver and the window system report is fixed up front in a
    `Platform` value; every handle the application creates is recorded as the
    resource it stands for, with the parameters the application chose. */
module Lifecycle {
  import opened VkTypes
  import opened SwapchainConfig
  import opened Probe

  /** The objects the application creates and must destroy. */
  datatype Resource =
    | Window          // GLFW window, with GLFW itself initialised
    | Instance
    | DebugMessenger  // only when DEBUG_MODE is set
    | Surface
    | Device          // the logical device
    | Swapchain
    | ImageViews      // one view per swapchain image
    | RenderPass
    | PipelineLayout

  /** The objects each one is created from and used with while it lives. */
  function Deps(r: Resource): set<Resource> {
    match r
    case Window => {}
    case Instance => {Window}
    case DebugMessenger => {Instance}
    case Surface => {Instance, Window}
    case Device => {Instance}
    case Swapchain => {Device, Surface}
    case ImageViews => {Device, Swapchain}
    case RenderPass => {Device}
    case PipelineLayout => {Device}
  }

  /** Every object in `live` has its dependencies in `live` (the cases of
      `Deps` written out as memberships, one per object). */
  predicate Closed(live: set<Resource>) {
    && (Instance in live ==> Window in live)
    && (DebugMessenger in live ==> Instance in live)
    && (Surface in live ==> Instance in live && Window in live)
    && (Device in live ==> Instance in live)
    && (Swapchain in live ==> Device in live && Surface in live)
    && (ImageViews in live ==> Device in live && Swapchain in live)
    && (RenderPass in live ==> Device in live)
    && (PipelineLayout in live ==> Device in live)
  }

  lemma ClosedMeansDepsLive(live: set<Resource>)
    ensures Closed(live) <==> forall r :: r in live ==> Deps(r) <= live
  {
  }

  /** Removing `r` from a closed set keeps it closed exactly when no other
      object in it depends on `r`. */
  lemma RemovableIffNoDependents(live: set<Resource>, r: Resource)
    requires Closed(live)
    ensures Closed(live - {r}) <==> forall d :: d in live && d != r ==> r !in Deps(d)
  {
  }

  function Reverse<T>(s: seq<T>): (r: seq<T>)
    ensures |r| == |s| && forall i :: 0 <= i < |s| ==> r[i] == s[|s| - 1 - i]
  {
    if s == [] then [] else Reverse(s[1..]) + [s[0]]
  }

  /** The objects `run` creates before it picks a physical device. */
  function ProbeStage(debugMode: bool): seq<Resource> {
    if debugMode then [Window, Instance, DebugMessenger, Surface] else [Window, Instance, Surface]
  }

  /** The objects `run` creates on the picked device. */
  const RenderTargets := [Device, Swapchain, ImageViews, RenderPass, PipelineLayout]

  /** The order in which `run` creates its objects. */
  function InitOrder(debugMode: bool): seq<Resource> {
    if debugMode
    then [Window, Instance, DebugMessenger, Surface, Device, Swapchain, ImageViews, RenderPass, PipelineLayout]
    else [Window, Instance, Surface, Device, Swapchain, ImageViews, RenderPass, PipelineLayout]
  }

  /** The order in which `run` destroys them. */
  function TeardownOrder(debugMode: bool): seq<Resource> {
    if debugMode
    then [PipelineLayout, RenderPass, ImageViews, Swapchain, Device, Surface, DebugMessenger, Instance, Window]
    else [PipelineLayout, RenderPass, ImageViews, Swapchain, Device, Surface, Instance, Window]
  }

  /** The objects alive once the probing stage is done. */
  function ProbeObjects(debugMode: bool): set<Resource> {
    if debugMode then {Window, Instance, DebugMessenger, Surface} else {Window, Instance, Surface}
  }

  /** The objects alive while the main loop runs. */
  function AllObjects(debugMode: bool): set<Resource> {
    ProbeObjects(debugMode) + {Device} + {Swapchain} + {ImageViews} + {RenderPass} + {PipelineLayout}
  }

  /** Creation starts with the probing stage and ends with the objects on the
      device; teardown is creation backwards. */
  lemma TeardownReversesInit(debugMode: bool)
    ensures InitOrder(debugMode) == ProbeStage(debugMode) + RenderTargets
    ensures TeardownOrder(debugMode) == Reverse(InitOrder(debugMode))
  {
  }

  /** The objects alive after probing are those the probing stage creates,
      those alive in the main loop are all the objects created; in debug
      builds the debug messenger is among them, otherwise not. */
  lemma ObjectSetsMatchOrders(debugMode: bool)
    ensures forall r :: r in ProbeObjects(debugMode) <==> r in ProbeStage(debugMode)
    ensures forall r :: r in AllObjects(debugMode) <==> r in InitOrder(debugMode)
    ensures DebugMessenger in AllObjects(debugMode) <==> debugMode
  {
  }

  /** No object is created twice. */
  lemma InitOrderIsDistinct(debugMode: bool)
    ensures forall i, j :: 0 <= i < j < |InitOrder(debugMode)| ==> InitOrder(debugMode)[i] != InitOrder(debugMode)[j]
  {
  }

  const LayersUnavailableMessage := "Validation layers requested. but not available"
  const NoGpuMessage := "failed to find GPUs with Vulkan support"
  const NoSuitableGpuMessage := "failed to find a suitable GPU"

  /** Success, or the message of the `std::runtime_error` thrown. */
  datatype Status = Ok | Failed(message: string)

  /** Image handles, as vkGetSwapchainImagesKHR hands them out. */
  type Image = nat

  /** An image view: the image it views and the format it reads it as (the
      view is always 2-D, identity-swizzled, over the single colour mip
      level and array layer). */
  datatype ImageView = ImageView(image: Image, format: u32)

  /** A queue retrieved with vkGetDeviceQueue: its family and index. */
  datatype Queue = Queue(family: nat, index: nat)

  /** What the driver and the window system report: the instance layers, the
      physical devices as seen through the application's surface, and the
      images the swapchain comes with. */
  datatype Platform = Platform(
    instanceLayers: seq<string>,
    devices: seq<PhysicalDevice>,
    swapchainImages: seq<Image>)

  class Application {
    /** Whether DEBUG_MODE is on: validation layers and the debug messenger
        (`BuildConfig.DebugMode` gives its intended value from the build's
        macros). */
    const debugMode: bool
    /** The device extensions the application requires. */
    const deviceExtensions: seq<string>
    const platform: Platform

    /** The objects currently alive, every object created so far in creation
        order, and every object destroyed so far in destruction order. */
    var live: set<Resource>
    var created: seq<Resource>
    var destroyed: seq<Resource>

    /** mPhysicalDevice, as an index into the enumerated devices. */
    var physicalDevice: Option<nat>
    /** The queue requests the logical device was created with. */
    var deviceQueues: seq<QueueCreateInfo>
    var graphicsQueue: Option<Queue>
    var presentQueue: Option<Queue>
    /** The parameters the swapchain was created with. */
    var swapchainCreateInfo: Option<SwapchainCreateInfo>
    var swapchainImages: seq<Image>
    var swapchainImageFormat: u32
    var swapchainExtent: Extent2D
    var swapchainImageViews: array<ImageView>
    /** The format of the render pass's one colour attachment. */
    var renderPassFormat: u32

    /** The picked device, when there is one. */
    function Picked(): PhysicalDevice
      reads this`physicalDevice
      requires physicalDevice.Some? && physicalDevice.value < |platform.devices|
    {
      platform.devices[physicalDevice.value]
    }

    /** Every live object's dependencies are live; the device was created from
        a picked device; while the views live there is one per swapchain image,
        view i over image i in the swapchain's format. */
    ghost predicate Valid()
      reads this`live, this`physicalDevice, this`swapchainImages, this`swapchainImageFormat,
            this`swapchainImageViews, swapchainImageViews
    {
      && Closed(live)
      && (physicalDevice.Some? ==> physicalDevice.value < |platform.devices|)
      && (Device in live ==> physicalDevice.Some?)
      && (ImageViews in live ==> ViewsMatchImages())
    }

    ghost predicate ViewsMatchImages()
      reads this`swapchainImages, this`swapchainImageFormat, this`swapchainImageViews, swapchainImageViews
    {
      && swapchainImageViews.Length == |swapchainImages|
      && forall i :: 0 <= i < |swapchainImages| ==>
           swapchainImageViews[i] == ImageView(swapchainImages[i], swapchainImageFormat)
    }

    constructor (debugMode: bool, deviceExtensions: seq<string>, platform: Platform)
      ensures Valid()
      ensures this.debugMode == debugMode && this.deviceExtensions == deviceExtensions
      ensures this.platform == platform
      ensures live == {} && created == [] && destroyed == [] && physicalDevice == None
    {
      this.debugMode := debugMode;
      this.deviceExtensions := deviceExtensions;
      this.platform := platform;
      live, created, destroyed := {}, [], [];
      physicalDevice := None;
      deviceQueues := [];
      graphicsQueue, presentQueue := None, None;
      swapchainCreateInfo := None;
      swapchainImages := [];
      swapchainImageFormat := FormatUndefined;
      swapchainExtent := Extent2D(0, 0);
      swapchainImageViews := new ImageView[0];
      renderPassFormat := FormatUndefined;
    }

    /** initWindow */
    method InitWindow()
      requires Valid() && Window !in live
      modifies this`live, this`created
      ensures Valid()
      ensures live == old(live) + {Window} && created == old(created) + [Window]
    {
      live, created := live + {Window}, created + [Window];
    }

    /** initVulkan: when DEBUG_MODE is set, refuses to go on unless every validation
        layer is offered, then creates the instance. */
    method InitVulkan() returns (status: Status)
      requires Valid() && Window in live && Instance !in live
      modifies this`live, this`created
      ensures Valid()
      ensures status.Ok? <==> (!debugMode || AllNamesAvailable(ValidationLayers, platform.instanceLayers))
      ensures status.Failed? ==> status.message == LayersUnavailableMessage
      ensures status.Ok? ==> live == old(live) + {Instance} && created == old(created) + [Instance]
      ensures status.Failed? ==> live == old(live) && created == old(created)
    {
      if debugMode {
        var supported := CheckValidationLayerSupport(platform.instanceLayers, ValidationLayers);
        if !supported {
          return Failed(LayersUnavailableMessage);
        }
      }
      live, created := live + {Instance}, created + [Instance];
      return Ok;
    }

    /** initDebug */
    method InitDebug()
      requires Valid() && Instance in live && DebugMessenger !in live
      modifies this`live, this`created
      ensures Valid()
      ensures live == old(live) + {DebugMessenger} && created == old(created) + [DebugMessenger]
    {
      live, created := live + {DebugMessenger}, created + [DebugMessenger];
    }

    /** initSurface */
    method InitSurface()
      requires Valid() && Instance in live && Window in live && Surface !in live
      modifies this`live, this`created
      ensures Valid()
      ensures live == old(live) + {Surface} && created == old(created) + [Surface]
    {
      live, created := live + {Surface}, created + [Surface];
    }

    /** pickPhysicalDevice: fails when there is no device at all; otherwise
        takes the first suitable device in enumeration order, and fails if the
        physical device is still unset afterwards. */
    method PickPhysicalDevice() returns (status: Status)
      requires Valid() && Instance in live && Surface in live
      modifies this`physicalDevice
      ensures Valid()
      ensures platform.devices == [] ==> status == Failed(NoGpuMessage) && physicalDevice == old(physicalDevice)
      ensures platform.devices != [] && FirstSuitable(platform.devices, deviceExtensions).Some? ==>
                && status == Ok && physicalDevice == FirstSuitable(platform.devices, deviceExtensions)
                && DeviceSuitable(Picked(), deviceExtensions)
      ensures platform.devices != [] && FirstSuitable(platform.devices, deviceExtensions).None? ==>
                physicalDevice == old(physicalDevice) &&
                status == if physicalDevice.Some? then Ok else Failed(NoSuitableGpuMessage)
    {
      var devices := platform.devices;
      if |devices| == 0 {
        return Failed(NoGpuMessage);
      }
      FirstSuitableIsFirst(devices, deviceExtensions);
      var i := 0;
      while i < |devices|
        invariant 0 <= i <= |devices|
        invariant forall j :: 0 <= j < i ==> !DeviceSuitable(devices[j], deviceExtensions)
        invariant physicalDevice == old(physicalDevice)
      {
        var suitable;
        ghost var swapchainQueried;
        suitable, swapchainQueried := IsDeviceSuitable(devices[i], deviceExtensions);
        if suitable {
          physicalDevice := Some(i);
          assert FirstSuitable(devices, deviceExtensions) == Some(i);
          break;
        }
        i := i + 1;
      }
      if physicalDevice.None? {
        return Failed(NoSuitableGpuMessage);
      }
      return Ok;
    }

    /** initLogicalDevice: one queue from each distinct family the family search
        names, then the graphics and the present queue, index 0 of each. */
    method InitLogicalDevice()
      requires Valid() && physicalDevice.Some? && Instance in live && Device !in live
      modifies this`live, this`created, this`deviceQueues, this`graphicsQueue, this`presentQueue
      ensures Valid()
      ensures live == old(live) + {Device} && created == old(created) + [Device]
      ensures OneQueuePerFamily(deviceQueues, QueueFamiliesOf(Picked().queueFamilies))
      ensures graphicsQueue == Some(Queue(QueueFamiliesOf(Picked().queueFamilies).graphicsFamily, 0))
      ensures presentQueue == Some(Queue(QueueFamiliesOf(Picked().queueFamilies).presentFamily, 0))
    {
      var indices := FindQueueFamilies(Picked());
      var queueCreateInfos := BuildQueueCreateInfos(indices);
      deviceQueues := queueCreateInfos;
      live, created := live + {Device}, created + [Device];
      graphicsQueue := Some(Queue(indices.graphicsFamily, 0));
      presentQueue := Some(Queue(indices.presentFamily, 0));
    }

    /** initSwapchain: format, present mode, extent and image count chosen from
        what the surface reports for the picked device, images shared between
        the two families only when they differ. */
    method InitSwapchain()
      requires Valid() && physicalDevice.Some? && Device in live && Surface in live && Swapchain !in live
      modifies this`live, this`created, this`swapchainCreateInfo, this`swapchainImages,
               this`swapchainImageFormat, this`swapchainExtent
      ensures Valid()
      ensures live == old(live) + {Swapchain} && created == old(created) + [Swapchain]
      ensures swapchainCreateInfo == Some(SwapchainCreateInfo(
                SwapImageCount(Picked().capabilities),
                PreferredFormat.format,
                PreferredFormat.colorSpace,
                ChooseSwapExtent(Picked().capabilities),
                SwapchainSharing(QueueFamiliesOf(Picked().queueFamilies).graphicsFamily,
                                 QueueFamiliesOf(Picked().queueFamilies).presentFamily),
                PreferredPresentMode(Picked().presentModes)))
      ensures swapchainImages == platform.swapchainImages
      ensures swapchainImageFormat == PreferredFormat.format
      ensures swapchainExtent == ChooseSwapExtent(Picked().capabilities)
    {
      var support := Picked();
      var format := ChooseSwapSurfaceFormat(support.formats);
      var mode := ChooseSwapPresentMode(support.presentModes);
      var extent := ChooseSwapExtent(support.capabilities);
      var imageCount := SwapImageCount(support.capabilities);
      var indices := FindQueueFamilies(support);
      var sharing := SwapchainSharing(indices.graphicsFamily, indices.presentFamily);
      swapchainCreateInfo := Some(SwapchainCreateInfo(imageCount, format.format, format.colorSpace, extent, sharing, mode));
      live, created := live + {Swapchain}, created + [Swapchain];
      swapchainImages := platform.swapchainImages;
      swapchainImageFormat := format.format;
      swapchainExtent := extent;
    }

    /** initImageViews: sizes the view array to the image count and creates
        view i over image i in the swapchain's format. */
    method InitImageViews()
      requires Valid() && Device in live && Swapchain in live && ImageViews !in live
      modifies this`live, this`created, this`swapchainImageViews
      ensures Valid()
      ensures live == old(live) + {ImageViews} && created == old(created) + [ImageViews]
      ensures fresh(swapchainImageViews)
      ensures swapchainImageViews.Length == |swapchainImages|
      ensures forall i :: 0 <= i < |swapchainImages| ==>
                swapchainImageViews[i] == ImageView(swapchainImages[i], swapchainImageFormat)
    {
      var views := new ImageView[|swapchainImages|](_ => ImageView(0, FormatUndefined));
      for i := 0 to |swapchainImages|
        modifies views
        invariant forall k :: 0 <= k < i ==> views[k] == ImageView(swapchainImages[k], swapchainImageFormat)
      {
        views[i] := ImageView(swapchainImages[i], swapchainImageFormat);
      }
      swapchainImageViews := views;
      live, created := live + {ImageViews}, created + [ImageViews];
    }

    /** initRenderPass: one colour attachment in the swapchain's format. */
    method InitRenderPass()
      requires Valid() && Device in live && RenderPass !in live
      modifies this`live, this`created, this`renderPassFormat
      ensures Valid()
      ensures live == old(live) + {RenderPass} && created == old(created) + [RenderPass]
      ensures renderPassFormat == swapchainImageFormat
    {
      renderPassFormat := swapchainImageFormat;
      live, created := live + {RenderPass}, created + [RenderPass];
    }

    /** initGraphicsPipeline: only the pipeline layout outlives the call (the
        shader modules are destroyed before it returns). */
    method InitGraphicsPipeline()
      requires Valid() && Device in live && PipelineLayout !in live
      modifies this`live, this`created
      ensures Valid()
      ensures live == old(live) + {PipelineLayout} && created == old(created) + [PipelineLayout]
    {
      live, created := live + {PipelineLayout}, created + [PipelineLayout];
    }

    /** The deinit* members (deinitGraphicsPipeline, deinitRenderPass,
        deinitImageViews, deinitSwapchain, deinitLogicalDevice, deinitSurface,
        deinitDebug, deinitVulkan, deinitWindow): each destroys its object,
        which must be live and needed by no live object. */
    method Deinit(r: Resource)
      requires Valid() && r in live
      requires Closed(live - {r})  // no live object depends on r
      modifies this`live, this`destroyed
      ensures Valid()
      ensures live == old(live) - {r} && destroyed == old(destroyed) + [r]
    {
      live, destroyed := live - {r}, destroyed + [r];
    }

    /** run: creates everything in order, runs the main loop, and destroys
        everything in reverse order. A failure ends `run` at once, leaving
        what was already created alive. */
    method Run() returns (status: Status)
      requires Valid() && live == {} && created == [] && destroyed == [] && physicalDevice == None
      modifies this`live, this`created, this`destroyed, this`physicalDevice, this`deviceQueues,
               this`graphicsQueue, this`presentQueue, this`swapchainCreateInfo, this`swapchainImages,
               this`swapchainImageFormat, this`swapchainExtent, this`swapchainImageViews, this`renderPassFormat
      ensures Valid()
      ensures !LayersAvailable() ==>
                status == Failed(LayersUnavailableMessage) && created == [Window] && destroyed == [] && live == {Window}
      ensures LayersAvailable() && FirstSuitable(platform.devices, deviceExtensions).None? ==>
                && status == Failed(if platform.devices == [] then NoGpuMessage else NoSuitableGpuMessage)
                && created == ProbeStage(debugMode) && destroyed == []
                && live == ProbeObjects(debugMode)
      ensures LayersAvailable() && FirstSuitable(platform.devices, deviceExtensions).Some? ==>
                && status == Ok
                && created == InitOrder(debugMode)
                && destroyed == TeardownOrder(debugMode)
                && live == {}
                && physicalDevice == FirstSuitable(platform.devices, deviceExtensions)
    {
      status := Startup();
      if status.Failed? {
        return;
      }
      BuildRenderTargets();
      // mainLoop polls window events until the window is closed.
      Teardown();
      TeardownReversesInit(debugMode);
    }

    /** The first part of run: initWindow, initVulkan, initDebug (only when
        DEBUG_MODE is set), initSurface and pickPhysicalDevice. */
    method Startup() returns (status: Status)
      requires Valid() && live == {} && created == [] && physicalDevice == None
      modifies this`live, this`created, this`physicalDevice
      ensures Valid()
      ensures !LayersAvailable() ==>
                status == Failed(LayersUnavailableMessage) && created == [Window] && live == {Window}
      ensures LayersAvailable() ==>
                && created == ProbeStage(debugMode)
                && live == ProbeObjects(debugMode)
                && physicalDevice == FirstSuitable(platform.devices, deviceExtensions)
                && (physicalDevice.Some? ==> DeviceSuitable(Picked(), deviceExtensions))
                && status == if physicalDevice.Some? then Ok
                             else Failed(if platform.devices == [] then NoGpuMessage else NoSuitableGpuMessage)
    {
      InitWindow();
      // setupDebugCallback only fills in the messenger's create info.
      status := InitVulkan();
      if status.Failed? {
        return;
      }
      if debugMode {
        InitDebug();
      }
      InitSurface();
      status := PickPhysicalDevice();
    }

    /** The middle part of run, on a picked suitable device: initLogicalDevice,
        initSwapchain, initImageViews, initRenderPass, initGraphicsPipeline. */
    method BuildRenderTargets()
      requires Valid() && live == ProbeObjects(debugMode)
      requires physicalDevice.Some? && DeviceSuitable(Picked(), deviceExtensions)
      modifies this`live, this`created, this`deviceQueues, this`graphicsQueue,
               this`presentQueue, this`swapchainCreateInfo, this`swapchainImages, this`swapchainImageFormat,
               this`swapchainExtent, this`swapchainImageViews, this`renderPassFormat
      ensures Valid()
      ensures live == AllObjects(debugMode)
      ensures created == old(created) + RenderTargets
      ensures RenderTargetsOnOneFamily()
    {
      CreateDeviceAndSwapchain();
      InitImageViews();
      InitRenderPass();
      InitGraphicsPipeline();
    }

    /** initLogicalDevice and initSwapchain on a suitable device: one queue
        request and a swapchain with exclusive sharing. */
    method CreateDeviceAndSwapchain()
      requires Valid() && live == ProbeObjects(debugMode)
      requires physicalDevice.Some? && DeviceSuitable(Picked(), deviceExtensions)
      modifies this`live, this`created, this`deviceQueues, this`graphicsQueue,
               this`presentQueue, this`swapchainCreateInfo, this`swapchainImages, this`swapchainImageFormat,
               this`swapchainExtent
      ensures Valid()
      ensures live == ProbeObjects(debugMode) + {Device} + {Swapchain}
      ensures created == old(created) + [Device, Swapchain]
      ensures |deviceQueues| == 1
      ensures swapchainCreateInfo.Some?
      ensures swapchainCreateInfo.value.minImageCount == SwapImageCount(Picked().capabilities)
      ensures swapchainCreateInfo.value.sharing.mode == SharingModeExclusive
      ensures swapchainImages == platform.swapchainImages
    {
      SuitableDeviceUsesOneFamily(Picked(), deviceExtensions);
      InitLogicalDevice();
      OneQueuePerFamilyCount(deviceQueues, QueueFamiliesOf(Picked().queueFamilies));
      InitSwapchain();
    }

    /** The last part of run: deinitGraphicsPipeline, deinitRenderPass,
        deinitImageViews, deinitSwapchain, deinitLogicalDevice, deinitSurface,
        deinitDebug (only when DEBUG_MODE is set), deinitVulkan and deinitWindow. */
    method Teardown()
      requires Valid() && live == AllObjects(debugMode) && destroyed == []
      modifies this`live, this`destroyed
      ensures Valid()
      ensures live == {}
      ensures destroyed == TeardownOrder(debugMode)
    {
      DestroyRenderTargets();
      Deinit(Surface);
      if debugMode {
        Deinit(DebugMessenger);
      }
      Deinit(Instance);
      Deinit(Window);
    }

    /** deinitGraphicsPipeline, deinitRenderPass, deinitImageViews,
        deinitSwapchain and deinitLogicalDevice. */
    method DestroyRenderTargets()
      requires Valid() && live == AllObjects(debugMode)
      modifies this`live, this`destroyed
      ensures Valid()
      ensures live == ProbeObjects(debugMode)
      ensures destroyed == old(destroyed) + [PipelineLayout, RenderPass, ImageViews, Swapchain, Device]
    {
      Deinit(PipelineLayout);
      Deinit(RenderPass);
      Deinit(ImageViews);
      Deinit(Swapchain);
      Deinit(Device);
    }

    /** What the objects on a suitable device were created with: one queue
        request, a swapchain with the chosen image count and exclusive
        sharing, and one view per swapchain image. */
    ghost predicate RenderTargetsOnOneFamily()
      reads this`physicalDevice, this`deviceQueues, this`swapchainCreateInfo, this`swapchainImages,
            this`swapchainImageFormat, this`swapchainImageViews, swapchainImageViews
    {
      && physicalDevice.Some? && physicalDevice.value < |platform.devices|
      && |deviceQueues| == 1
      && swapchainCreateInfo.Some?
      && swapchainCreateInfo.value.minImageCount == SwapImageCount(Picked().capabilities)
      && swapchainCreateInfo.value.sharing.mode == SharingModeExclusive
      && swapchainImages == platform.swapchainImages
      && ViewsMatchImages()
    }

    /** The validation layers are on offer, or not needed. */
    predicate LayersAvailable() {
      !debugMode || AllNamesAvailable(ValidationLayers, platform.instanceLayers)
    }
  }
}
