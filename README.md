# Vulkan tutorial application: device, swapchain and lifecycle decisions

This project models the decision logic of the `VulkanApplication` of the
VulkanTutorial repository and proves properties of it. That logic covers:

- picking a physical device;
- finding its queue families;
- checking extension and validation-layer support;
- choosing the swapchain's format, present mode, extent, image count and
  sharing mode;
- requesting one queue per distinct family;
- building one image view per swapchain image;
- the order in which `run` creates and destroys its Vulkan and window-system
  objects.

It also models the two fixed vertex-input descriptors of `Vertex`.

Whatever the driver and the window system report is an input value. The
model never calls them.

- `PhysicalDevice` holds per device its queue families, each with a
  present-support flag.
- It also holds the extension names, surface capabilities, surface formats
  and present modes.
- A `Platform` holds the instance layers, the devices in enumeration order
  and the swapchain's images.
- Enumerant codes are those of the Vulkan headers.
- `u32` models `uint32_t`, with `0xFFFFFFFF` as the "undefined extent" value
  of `VkSurfaceCapabilitiesKHR`.

Modules:

- `VkTypes`: the shared records and constants.
- `BuildConfig`: how the build's macros decide `DEBUG_MODE`.
- `Vertex`: `Vertex::getBindingDescription` and
  `Vertex::getAttributeDescriptions`.
- `SwapchainConfig`: `chooseSwapSurfaceFormat`, `chooseSwapPresentMode`,
  `chooseSwapExtent`, the image-count clamp and the sharing-mode choice of
  `initSwapchain`.
- `Probe`: `checkDeviceExtensionSupport`, `checkValidationLayerSupport`,
  `findQueueFamilies`, `isDeviceSuitable`, first-suitable selection, and the
  queue requests of `initLogicalDevice`.
- `Lifecycle`: the class `Application`.
  - It keeps the set of live objects.
  - It keeps the objects created so far, in creation order, and those
    destroyed so far, in destruction order.
  - It keeps the fields the init steps fill in: the picked device, the
    queue requests, the queues, the swapchain parameters, the images, and
    the image-view array.

The invariant `Valid()` says three things:

- every live object's dependencies are live (DebugMessenger, Surface and
  Device depend on Instance; Surface also on Window; and so on);
- a live device was made from a picked device;
- while the views live, view `i` is over image `i` in the swapchain's format.

Every init requires its dependencies to be live. Every deinit (`Deinit`)
requires that no live object depends on the object it destroys.

Where the code and the usual tutorial design differ, the model follows the code:

- `findQueueFamilies` stops at the first family that supports graphics *or*
  present. It is not two independent searches.
  - So a device is suitable only when that first family supports both.
  - On a suitable device the two families coincide.
  - Therefore the swapchain is always EXCLUSIVE and the device gets one queue
    request (`SuitableNeedsSharedFamily`, `SuitableDeviceUsesOneFamily`).
- The requested image count is `minImageCount`, lowered to `maxImageCount`
  when there is a maximum and the minimum exceeds it. There is no `+ 1`, and
  no raising to at least 1.

## Model

| member | source | states |
|---|---|---|
| `BuildConfig.ReleaseBuildTurnsDebugModeOn` | VulkanApplication.hpp:24-30 | as written, a build defining only NDEBUG turns `DEBUG_MODE` on, and a build defining none of the three macros turns it off |
| `BuildConfig.DebugModeOffExactlyInRelease` | VulkanApplication.hpp:24-30 | with NDEBUG read as "not a debug build", `DEBUG_MODE` is off exactly in a build defining only NDEBUG, and either debug macro turns it on |
| `Vertex.GetBindingDescription` | Vertex.cpp:3-10 | binding 0, stride the size of one vertex, per-vertex input rate |
| `Vertex.GetAttributeDescriptions` | Vertex.cpp:12-25 | exactly two descriptors: location 0, binding 0, R32G32_SFLOAT at the position offset; location 1, binding 0, R32G32B32_SFLOAT at the colour offset |
| `Vertex.AttributesFitBinding` | Vertex.cpp:12-25 | both attributes use the binding the binding description declares, at distinct locations; each lies inside one stride; the position ends before the colour starts |
| `SwapchainConfig.FindPreferredFormat` | VulkanApplication.cpp:56-61 | the search finds a listed entry equal to B8G8R8A8_UNORM / SRGB_NONLINEAR, or finds none exactly when that pair is not listed |
| `SwapchainConfig.ChooseSwapSurfaceFormat` | VulkanApplication.cpp:51-64 | the result is B8G8R8A8_UNORM / SRGB_NONLINEAR for every input list, so it ignores order and contents |
| `SwapchainConfig.ChooseSwapPresentMode` | VulkanApplication.cpp:66-78 | the loop with its early return yields MAILBOX if MAILBOX is listed, else IMMEDIATE if IMMEDIATE is listed, else FIFO |
| `SwapchainConfig.PresentModeIsSupported` | VulkanApplication.cpp:66-78 | the chosen mode is listed or is FIFO; FIFO is chosen exactly when neither MAILBOX nor IMMEDIATE is listed |
| `SwapchainConfig.PresentModeIgnoresOrder` | VulkanApplication.cpp:66-78 | two mode lists with the same members give the same choice, whatever the order or repetitions |
| `SwapchainConfig.PresentModeScenarios` | VulkanApplication.cpp:66-78 | {FIFO, MAILBOX} gives MAILBOX and {FIFO} gives FIFO |
| `SwapchainConfig.Clamp` | VulkanApplication.cpp:86-89 | `max(lo, min(hi, want))` lies in [lo, hi] when lo <= hi; it is `want` when that fits, `lo` when `want` is below it or the bounds cross, `hi` when `want` is above it |
| `SwapchainConfig.ChooseSwapExtent` | VulkanApplication.cpp:80-93 | a defined current extent (width not 0xFFFFFFFF) is returned unchanged; otherwise each dimension is at least the minimum |
| `SwapchainConfig.ExtentWithinBounds` | VulkanApplication.cpp:80-93 | with the current extent undefined and ordered bounds, each dimension lies within the bounds and is the window's 800 or 600 whenever that fits |
| `SwapchainConfig.ExtentScenario` | VulkanApplication.cpp:80-93 | undefined current extent with bounds 1x1 to 4096x4096 gives 800x600 |
| `SwapchainConfig.SwapImageCount` | VulkanApplication.cpp:413-416 | the count is at most `minImageCount`; it is at most `maxImageCount` when that is non-zero; it equals `minImageCount` exactly unless there is a maximum below the minimum, and then it equals `maxImageCount` |
| `SwapchainConfig.SwapchainSharing` | VulkanApplication.cpp:428-439 | CONCURRENT with the index list [graphics, present] exactly when the families differ; EXCLUSIVE with no indices exactly when they coincide |
| `Probe.AllNamesAvailableIgnoresOrder` | VulkanApplication.cpp:12-26 | whether all required names are available depends only on which names are available, not on order or duplicates |
| `Probe.CheckDeviceExtensionSupport` | VulkanApplication.cpp:12-26 | erasing every available name from the set of required names leaves it empty exactly when every required extension is available |
| `Probe.CheckValidationLayerSupport` | VulkanApplication.cpp:276-298 | the nested search returns true exactly when every requested layer is among the instance's layers |
| `Probe.FirstQualifying` | VulkanApplication.cpp:113-133 | the index of a family with queues that supports graphics or present, with none before it; none exactly when no family qualifies |
| `Probe.QueueFamiliesOfFirstQualifying` | VulkanApplication.cpp:105-136 | a set flag names a family that can do that job, with no qualifying family before it; two set flags name the same family; an unset flag leaves its index 0; no flag is set exactly when no family qualifies |
| `Probe.FindQueueFamilies` | VulkanApplication.cpp:105-136 | the loop with its early `break` computes exactly the indices of the first qualifying family |
| `Probe.IsDeviceSuitable` | VulkanApplication.cpp:138-149 | true exactly when both family flags are set, every required extension is present, and there are formats and present modes; the swapchain support is queried exactly when the extensions are supported |
| `Probe.SuitableNeedsSharedFamily` | VulkanApplication.cpp:105-149 | a device is suitable exactly when the first qualifying family supports both graphics and present and the extension and format conditions hold; a suitable device has a family doing both |
| `Probe.SuitableDeviceUsesOneFamily` | VulkanApplication.cpp:358-439 | on a suitable device the graphics and present family coincide, the swapchain sharing is EXCLUSIVE, and there is one distinct family |
| `Probe.FirstSuitableIsFirst` | VulkanApplication.cpp:343-348 | the selected index names a suitable device with no suitable device before it; nothing is selected exactly when no device is suitable |
| `Probe.UniqueQueueFamilies` | VulkanApplication.cpp:358 | the iteration order of `std::set{graphics, present}`: exactly those two values, strictly ascending, one entry if they coincide and two otherwise |
| `Probe.AscendingFamiliesAreDistinct` | VulkanApplication.cpp:358-368 | requests in strictly ascending family order name as many families as there are requests |
| `Probe.OneQueuePerFamilyCount` | VulkanApplication.cpp:358-368 | one queue per distinct family means one request when the families coincide and two when they differ |
| `Probe.BuildQueueCreateInfos` | VulkanApplication.cpp:355-368 | the loop pushes one request of one queue for each distinct family, ascending, covering exactly {graphics, present}; one entry or two |
| `Lifecycle.ClosedMeansDepsLive` | VulkanApplication.cpp:181-207 | the object-by-object closure condition of `Valid` is the same as "every live object's dependencies are live" |
| `Lifecycle.RemovableIffNoDependents` | VulkanApplication.cpp:197-206 | removing an object from a closed set keeps it closed exactly when no other live object depends on it |
| `Lifecycle.TeardownReversesInit` | VulkanApplication.cpp:181-207 | creation is the probing stage followed by the device objects; the teardown order is exactly the creation order reversed |
| `Lifecycle.ObjectSetsMatchOrders` | VulkanApplication.cpp:181-207 | the objects alive after probing and in the main loop are exactly those created up to then; the debug messenger is among them exactly when `DEBUG_MODE` is set |
| `Lifecycle.InitOrderIsDistinct` | VulkanApplication.cpp:183-193 | no object is created twice |
| `Lifecycle.Application.constructor` | VulkanApplication.hpp:41-47 | an application starts with no object live, nothing created or destroyed, and no physical device |
| `Lifecycle.Application.InitWindow` | VulkanApplication.cpp:209-220 | the window becomes live and is recorded as created |
| `Lifecycle.Application.InitVulkan` | VulkanApplication.cpp:227-258 | when `DEBUG_MODE` is set, fails with "Validation layers requested. but not available" exactly when a validation layer is missing, creating nothing; otherwise the instance becomes live |
| `Lifecycle.Application.InitDebug` | VulkanApplication.cpp:306-318 | the debug messenger becomes live, the instance being live |
| `Lifecycle.Application.InitSurface` | VulkanApplication.cpp:398-400 | the surface becomes live, the instance and window being live |
| `Lifecycle.Application.PickPhysicalDevice` | VulkanApplication.cpp:334-353 | fails with "failed to find GPUs with Vulkan support" on zero devices; otherwise picks the first suitable device; with no suitable device the previous value stays and it fails with "failed to find a suitable GPU" if that is unset |
| `Lifecycle.Application.InitLogicalDevice` | VulkanApplication.cpp:355-392 | the device becomes live with one queue request per distinct family of the picked device; the graphics and present queues are index 0 of their families |
| `Lifecycle.Application.InitSwapchain` | VulkanApplication.cpp:406-454 | the swapchain becomes live, created with the clamped image count, the preferred format and colour space, the chosen extent, sharing and present mode; the images, format and extent are recorded |
| `Lifecycle.Application.InitImageViews` | VulkanApplication.cpp:460-480 | a fresh view array as long as the image list, view i over image i in the swapchain format |
| `Lifecycle.Application.InitRenderPass` | VulkanApplication.cpp:488-517 | the render pass becomes live with its colour attachment in the swapchain format |
| `Lifecycle.Application.InitGraphicsPipeline` | VulkanApplication.cpp:523-622 | the pipeline layout becomes live, the device being live |
| `Lifecycle.Application.Deinit` | VulkanApplication.cpp:482-486 | each deinit step (here deinitImageViews, and likewise the other eight) destroys a live object on which nothing live depends, and keeps every live object's dependencies live |
| `Lifecycle.Application.Run` | VulkanApplication.cpp:181-207 | a missing validation layer leaves only the window created; no suitable device leaves the probing objects live and fails with the matching message; otherwise everything is created in order and destroyed in exactly the reverse order, nothing stays live, and the picked device is the first suitable one |
| `Lifecycle.Application.Startup` | VulkanApplication.cpp:181-188 | creates window, instance, debug messenger (when `DEBUG_MODE` is set) and surface in that order, then picks the first suitable device |
| `Lifecycle.Application.BuildRenderTargets` | VulkanApplication.cpp:189-193 | creates device, swapchain, views, render pass and pipeline layout in that order; one queue request, EXCLUSIVE sharing, the clamped image count, one view per image |
| `Lifecycle.Application.CreateDeviceAndSwapchain` | VulkanApplication.cpp:189-190 | on a suitable device: one queue request, a swapchain with the clamped image count and EXCLUSIVE sharing over the reported images |
| `Lifecycle.Application.Teardown` | VulkanApplication.cpp:198-206 | destroys pipeline layout, render pass, views, swapchain, device, surface, debug messenger (when `DEBUG_MODE` is set), instance and window, in that order, leaving nothing live |
| `Lifecycle.Application.DestroyRenderTargets` | VulkanApplication.cpp:198-202 | destroys the five device objects in reverse creation order, leaving the probing objects live |

The following are definitions, not contracts, and the rows above are about
them:

- `PreferredPresentMode`: the present-mode preference.
- `AllNamesAvailable`: "every required name is available".
- `QueueFamiliesOf`: what `findQueueFamilies` reports.
- `DeviceSuitable`: the suitability condition.
- `FirstSuitable`: the first suitable device.
- `OneQueuePerFamily`: the queue-request condition.
- `InitOrder`, `TeardownOrder`, `ProbeStage` and `RenderTargets`: the
  orders.
- `Application.Valid` and `Application.RenderTargetsOnOneFamily`: the class
  invariants.

`GetBindingDescription` and `GetAttributeDescriptions` are functions of no
arguments, so they yield the same value on every call.

## Findings

| source | as written | input that shows it | evidently intended | confidence | as-written member | corrected member |
|---|---|---|---|---|---|---|
| VulkanApplication.hpp:24-30 | `DEBUG_MODE` is 1 when `DEBUG`, `_DEBUG` or `NDEBUG` is defined | a release build defining only `NDEBUG` asks for validation layers, creates the debug messenger and can fail with "Validation layers requested. but not available"; a build defining none of the macros skips them | `!defined(NDEBUG)` in place of `defined(NDEBUG)` | not executed; medium (NDEBUG conventionally marks release builds) | `BuildConfig.ReleaseBuildTurnsDebugModeOn` | `BuildConfig.DebugModeOffExactlyInRelease` |

`Application` takes the value of `DEBUG_MODE` as its `debugMode` parameter, so
its contracts hold under either definition; `BuildConfig.DebugMode` is the
value a build should pass.

## Left out

- Vulkan and GLFW calls are not modelled. Enumeration results are inputs, handle creation is recording the object as live, and a driver call that reports failure (`CHECK`, `glfwInit`) is not modelled: every creation succeeds. Of the errors `run` can throw, the model keeps the missing validation layer and the two device-selection failures.
- An error thrown part-way through `run` ends it without any deinit. The model's `Run` likewise leaves the objects created so far live.
- `querySwapChainSupport` is not a separate operation: the capabilities, formats and present modes it would query are fields of `PhysicalDevice`.
- Debug-messenger plumbing is left out: `debugCallback`, `setupDebugCallback` (it only fills a create-info struct), and the `vkGetInstanceProcAddr` lookup in `initDebug`/`deinitDebug` with its `VK_ERROR_EXTENSION_NOT_PRESENT` error.
- `getRequiredExtensions` and the enabled layer and extension lists passed to instance and device creation are left out; they are lists handed to the driver.
- The queue priority (a float, always 1.0) is not recorded.
- `readFile` and `createShaderModule` are left out: file input and a driver call.
- The fixed contents of the render-pass and pipeline structs are left out (load/store ops, layouts, viewport and rasterizer settings, some of them floating point). Only the attachment format and the pipeline layout's lifetime are kept.
- `mainLoop` only polls window events until the window closes, so it is a comment in `Run`. `main.cpp` (exit-code wrapper with console output) is not part of this model.
- There is no frame loop, no synchronisation objects and no swapchain rebuild on resize in this code, so none is modelled.
- `deviceExtensions` is not defined in any of the files modelled here, so it is a constructor parameter of `Application` and a parameter of the probing functions.
- `Vertex.hpp` is not part of this model. `sizeof(Vertex)`, `offsetof(Vertex, pos)` and `offsetof(Vertex, color)` are taken as a packed two-float position followed by a three-float colour: offsets 0 and 8, stride 20.
- `Lifecycle.Application.Deinit`: the image views are destroyed as one object, not view by view as `deinitImageViews` loops over them.
- `Lifecycle.Application.Run`: does not restate the swapchain and queue facts of the successful run; `BuildRenderTargets` states them, and `Teardown` does not change them.
- `SwapchainConfig.ChooseSwapExtent`: its own contract states only the defined-extent case and the lower bounds; the upper bounds and the window-size case are in `ExtentWithinBounds`.
- The declarations in `VulkanApplication.hpp` are out of step with the `.cpp`. Examples: a two-field `QueueFamilyIndices`, and one-argument `findQueueFamilies`/`isDeviceSuitable`. The model follows the `.cpp` definitions and takes only `Width`, `Height` and `validationLayers` from the header.
