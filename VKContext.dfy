/**
  The list logic of the Vulkan context: which instance layers and extensions the engine
  asks for, and whether the ones the driver reports cover a request. The enumeration
  calls into the Vulkan loader are replaced by their results, passed in as arguments.
*/
module VulkanContext {

  const StandardValidationLayerName := "VK_LAYER_LUNARG_standard_validation"
  const AssistantLayerName := "VK_LAYER_LUNARG_assistant_layer"
  const RenderDocCaptureLayerName := "VK_LAYER_RENDERDOC_Capture"

  // Extension names as the Vulkan headers define them.
  const DebugReportExtensionName := "VK_EXT_debug_report"
  const DebugUtilsExtensionName := "VK_EXT_debug_utils"
  const SurfaceExtensionName := "VK_KHR_surface"

  /**
    The window-system branch chosen when the engine is built, in the order the build
    tests for them; NoWindowSystem is a build where none of them is defined.
  */
  datatype Platform = Win32 | Android | Direct2Display | Wayland | Xcb | Ios | MacOS | NoWindowSystem

  /** The platform's surface extension, if it has one. */
  function PlatformSurfaceExtensions(p: Platform): (names: seq<string>)
    ensures |names| <= 1
    ensures names == [] <==> p == NoWindowSystem
  {
    match p
    case Win32 => ["VK_KHR_win32_surface"]
    case Android => ["VK_KHR_android_surface"]
    case Direct2Display => ["VK_KHR_display"]
    case Wayland => ["VK_KHR_wayland_surface"]
    case Xcb => ["VK_KHR_xcb_surface"]
    case Ios => ["VK_MVK_ios_surface"]
    case MacOS => ["VK_MVK_macos_surface"]
    case NoWindowSystem => []
  }

  /** Position of a layer in the order the engine requests layers; 3 for any other name. */
  function LayerRank(name: string): nat {
    if name == StandardValidationLayerName then 0
    else if name == RenderDocCaptureLayerName then 1
    else if name == AssistantLayerName then 2
    else 3
  }

  /** One entry of the driver's layer list. */
  datatype LayerProperties = LayerProperties(layerName: string)

  /** One entry of the driver's extension list. */
  datatype ExtensionProperties = ExtensionProperties(extensionName: string, specVersion: nat)

  function LayerNames(layers: seq<LayerProperties>): (names: seq<string>)
    ensures |names| == |layers|
    ensures forall i :: 0 <= i < |layers| ==> names[i] == layers[i].layerName
  {
    seq(|layers|, i requires 0 <= i < |layers| => layers[i].layerName)
  }

  function ExtensionNames(extensions: seq<ExtensionProperties>): (names: seq<string>)
    ensures |names| == |extensions|
    ensures forall i :: 0 <= i < |extensions| ==> names[i] == extensions[i].extensionName
  {
    seq(|extensions|, i requires 0 <= i < |extensions| => extensions[i].extensionName)
  }

  /** Every requested name is among the available names. */
  predicate AllAvailable(requested: seq<string>, available: seq<string>) {
    forall i :: 0 <= i < |requested| ==> requested[i] in available
  }

  /**
    The nested search both support checks run: for each requested name in turn, scan
    the available names until one matches; stop with false at the first requested
    name that none matches.
  */
  method AllNamesFound(requested: seq<string>, available: seq<string>) returns (allFound: bool)
    ensures allFound <==> AllAvailable(requested, available)
  {
    for i := 0 to |requested|
      invariant AllAvailable(requested[..i], available)
    {
      var found := false;
      var j := 0;
      while j < |available|
        invariant 0 <= j <= |available|
        invariant !found
        invariant requested[i] !in available[..j]
      {
        if requested[i] == available[j] {
          found := true;
          break;
        }
        j := j + 1;
      }
      if !found {
        assert available[..j] == available;
        return false;
      }
    }
    assert requested[..|requested|] == requested;
    return true;
  }

  /** The request is satisfied whatever order its names come in. */
  lemma SupportIgnoresRequestOrder(requested: seq<string>, reordered: seq<string>, available: seq<string>)
    requires multiset(requested) == multiset(reordered)
    ensures AllAvailable(requested, available) == AllAvailable(reordered, available)
  {
    forall i | 0 <= i < |reordered|
      ensures reordered[i] in requested
    {
      assert reordered[i] in multiset(reordered);
    }
    forall i | 0 <= i < |requested|
      ensures requested[i] in reordered
    {
      assert requested[i] in multiset(requested);
    }
  }

  class VKContext {
    /** Whether validation is compiled in. */
    const enableValidationLayers: bool
    /** The window system the engine is built for. */
    const platform: Platform

    var standardValidationLayer: bool
    var renderDocLayer: bool
    var assistanceLayer: bool

    /** What the driver reported at the last layer / extension support check. */
    var instanceLayers: seq<LayerProperties>
    var instanceExtensions: seq<ExtensionProperties>

    constructor (enableValidationLayers: bool, platform: Platform,
                 standardValidationLayer: bool, renderDocLayer: bool, assistanceLayer: bool)
      ensures this.enableValidationLayers == enableValidationLayers && this.platform == platform
      ensures this.standardValidationLayer == standardValidationLayer
      ensures this.renderDocLayer == renderDocLayer && this.assistanceLayer == assistanceLayer
      ensures instanceLayers == [] && instanceExtensions == []
    {
      this.enableValidationLayers := enableValidationLayers;
      this.platform := platform;
      this.standardValidationLayer := standardValidationLayer;
      this.renderDocLayer := renderDocLayer;
      this.assistanceLayer := assistanceLayer;
      instanceLayers := [];
      instanceExtensions := [];
    }

    /**
      The instance extensions to enable: the two debug extensions when validation is
      on, then the generic surface extension, then the platform's own surface extension.
    */
    method GetRequiredExtensions() returns (extensions: seq<string>)
      ensures var base := if enableValidationLayers then 2 else 0;
        && |extensions| == base + 1 + |PlatformSurfaceExtensions(platform)|
        && (enableValidationLayers ==> extensions[0] == DebugReportExtensionName
                                       && extensions[1] == DebugUtilsExtensionName)
        && extensions[base] == SurfaceExtensionName
        && extensions[base + 1..] == PlatformSurfaceExtensions(platform)
      ensures DebugReportExtensionName in extensions <==> enableValidationLayers
      ensures DebugUtilsExtensionName in extensions <==> enableValidationLayers
      ensures forall i, j :: 0 <= i < j < |extensions| ==> extensions[i] != extensions[j]
    {
      extensions := [];
      if enableValidationLayers {
        extensions := extensions + [DebugReportExtensionName];
        extensions := extensions + [DebugUtilsExtensionName];
      }
      extensions := extensions + [SurfaceExtensionName];
      extensions := extensions + PlatformSurfaceExtensions(platform);
    }

    /**
      The instance layers to enable: each of the three optional layers whose flag is
      set, in a fixed order.
    */
    method GetRequiredLayers() returns (layers: seq<string>)
      ensures StandardValidationLayerName in layers <==> standardValidationLayer
      ensures RenderDocCaptureLayerName in layers <==> renderDocLayer
      ensures AssistantLayerName in layers <==> assistanceLayer
      ensures forall i :: 0 <= i < |layers| ==> LayerRank(layers[i]) < 3
      ensures forall i, j :: 0 <= i < j < |layers| ==> LayerRank(layers[i]) < LayerRank(layers[j])
      ensures |layers| <= 3
    {
      layers := [];
      if standardValidationLayer {
        layers := layers + [StandardValidationLayerName];
      }
      if renderDocLayer {
        layers := layers + [RenderDocCaptureLayerName];
      }
      if assistanceLayer {
        layers := layers + [AssistantLayerName];
      }
    }

    /**
      Records the driver's layer list, then says whether every requested layer is in it.
      `enumerated` stands for what the layer enumeration returns.
    */
    method CheckValidationLayerSupport(validationLayers: seq<string>, enumerated: seq<LayerProperties>)
      returns (supported: bool)
      modifies this`instanceLayers
      ensures instanceLayers == enumerated
      ensures supported <==> AllAvailable(validationLayers, LayerNames(enumerated))
    {
      instanceLayers := enumerated;
      supported := AllNamesFound(validationLayers, LayerNames(instanceLayers));
    }

    /**
      Records the driver's extension list, then says whether every requested extension
      is in it. `enumerated` stands for what the extension enumeration returns.
    */
    method CheckExtensionSupport(extensions: seq<string>, enumerated: seq<ExtensionProperties>)
      returns (supported: bool)
      modifies this`instanceExtensions
      ensures instanceExtensions == enumerated
      ensures supported <==> AllAvailable(extensions, ExtensionNames(enumerated))
    {
      instanceExtensions := enumerated;
      supported := AllNamesFound(extensions, ExtensionNames(instanceExtensions));
    }
  }
}
