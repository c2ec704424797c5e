# Lumos ownership counter, system registry and Vulkan list logic in Dafny

This project models four small pieces of the Lumos game engine and proves properties of them.

- **`RefCount`** (`Reference.dfy`, module `Reference`) is the intrusive strong/weak reference counter that shared-ownership objects embed.
  - It holds three counters: strong, init-pending and weak.
  - `InitRef`, `reference`, `unreference`, `weakReference` and `weakUnreference` change them and report liveness as booleans.
  - The class `RefCount` updates the three fields in place.
  - Each method is proved equal to a pure step function on a `Counters` value.
  - Lemmas about runs of those steps prove the lifetime properties: no resurrection, a die signal that fires exactly once, the `InitRef` compensation, and independence of the weak and strong counts.
- **`SystemManager`** (`SystemManager.dfy`, module `Ecs`) is the registry that maps a system type key to its system.
  - Its operations are register, remove, get, has and update-all.
  - The class wraps a `map` that the methods reassign.
- **The Vulkan context's list logic** (`VKContext.dfy`, module `VulkanContext`):
  - which instance layers and extensions the engine requests;
  - the nested-loop check that the driver's enumerated names cover a request.
- **`LightTypeToString`** (`LightComponent.dfy`) maps a light type to its display name.

`Wrappers.dfy` holds the `Option` type. It stands for a null pointer or handle.

### Notes on the counters
- The constructor calls `init()` on all three counters, so the weak count starts at 1.
- `weakReference()` uses increment-if-non-zero, so at weak count 0 it fails and changes nothing.

## Model

| member | source | states |
|---|---|---|
| `Reference.CounterRef` | Lumos/src/Core/Reference.cpp:53 | The counter's `ref` succeeds exactly when the count is non-zero. On success it adds one; a zero count stays zero. |
| `Reference.CounterUnref` | Lumos/src/Core/Reference.cpp:60 | The counter's `unref` lowers a positive count by one. It reports true exactly when the new count is zero. |
| `Reference.ReferenceStep` | Lumos/src/Core/Reference.cpp:51-56 | `reference()` returns true iff the strong count was positive, and then the count rises by exactly 1. At count 0 it returns false and changes nothing. The weak and init-pending counters are untouched. |
| `Reference.UnreferenceStep` | Lumos/src/Core/Reference.cpp:58-63 | `unreference()` on a positive count lowers it by 1. It returns the die signal exactly when the count was 1. The other counters are untouched. |
| `Reference.InitRefStep` | Lumos/src/Core/Reference.cpp:17-39 | `InitRef()` returns true iff the object is alive. On a dead object nothing changes. With init-pending set, the flag drops by one and the strong count is net unchanged (add, then compensate). With the flag already clear, the strong count rises by exactly 1 and the weak count is untouched. |
| `Reference.WeakReferenceStep` | Lumos/src/Core/Reference.cpp:65-70 | `weakReference()` succeeds iff the weak count is positive, and then it rises by 1. It never changes the strong count or the init-pending flag. |
| `Reference.WeakUnreferenceStep` | Lumos/src/Core/Reference.cpp:72-77 | `weakUnreference()` lowers the weak count by 1. It returns true exactly when the weak count reached 0 and the strong count is 0. It never changes the strong count. |
| `Reference.DieSignalExactlyOnce` | Lumos/src/Core/Reference.cpp:17-63 | Take any permitted run of operations. Its `unreference()` calls give the die signal exactly once if the run takes a live object to strong count 0, and never otherwise. A dead object stays dead. |
| `Reference.InitPendingOnlyFalls` | Lumos/src/Core/Reference.cpp:26-28 | Over any run, the init-pending flag never rises. Without an `InitRef()` call it does not change. |
| `Reference.WeakAndStrongIndependent` | Lumos/src/Core/Reference.cpp:51-77 | A run of weak operations leaves the strong count and the init-pending flag as they were. A run with no weak operations leaves the weak count as it was. |
| `Reference.References` | Lumos/src/Core/Reference.cpp:51-56 | `k` calls to `reference()` on a live object all return true and raise the strong count by `k`. |
| `Reference.Unreferences` | Lumos/src/Core/Reference.cpp:58-63 | Start from strong count `k` and call `unreference()` `k` times. The first `k-1` calls return false and the last returns true, leaving strong count 0. |
| `Reference.BalancedReferencesDieOnce` | Lumos/src/Core/Reference.cpp:51-63 | Start from strong count 1 and make `k` successful references. Of the `k+1` unreferences that follow, only the last gives the die signal. |
| `Reference.ConstructedLifecycle` | Lumos/src/Core/Reference.cpp:6-39 | A new object has strong count 1 and init-pending set. The sequence `InitRef`, `reference`, `unreference`, `unreference` returns true, true, false, true and ends at strong count 0. |
| `Reference.RefCount.constructor` | Lumos/src/Core/Reference.cpp:6-11 | All three counters start at the counter's `init` value, 1. |
| `Reference.RefCount.InitRef` | Lumos/src/Core/Reference.cpp:17-39 | Calls `Reference` and, when init-pending is set, `unref`s the flag and calls `Unreference`. Its result and new counters equal `InitRefStep`'s. |
| `Reference.RefCount.GetReferenceCount` | Lumos/src/Core/Reference.cpp:41-44 | Reports the strong count. |
| `Reference.RefCount.GetWeakReferenceCount` | Lumos/src/Core/Reference.cpp:46-49 | Reports the weak count. |
| `Reference.RefCount.Reference` | Lumos/src/Core/Reference.cpp:51-56 | Changes only the strong field. The result and new counters are `ReferenceStep`'s. |
| `Reference.RefCount.Unreference` | Lumos/src/Core/Reference.cpp:58-63 | Changes only the strong field. The result and new counters are `UnreferenceStep`'s. |
| `Reference.RefCount.WeakReference` | Lumos/src/Core/Reference.cpp:65-70 | Changes only the weak field. The result and new counters are `WeakReferenceStep`'s. |
| `Reference.RefCount.WeakUnreference` | Lumos/src/Core/Reference.cpp:72-77 | Changes only the weak field. The result and new counters are `WeakUnreferenceStep`'s. |
| `Ecs.Registered` | Lumos/src/ECS/SystemManager.h:14-37 | After registration the new key maps to the new system. The key set grows by exactly that key, and the size by one. Every other entry is unchanged. |
| `Ecs.Removed` | Lumos/src/ECS/SystemManager.h:39-48 | After removal the key is absent and every other entry is unchanged. Removing an absent key changes nothing. |
| `Ecs.RegisterThenRemoveRestores` | Lumos/src/ECS/SystemManager.h:14-48 | Registering a type and then removing it gives back the previous map. |
| `Ecs.RemoveIdempotent` | Lumos/src/ECS/SystemManager.h:39-48 | Removing twice is the same as removing once. |
| `Ecs.SystemManager.constructor` | Lumos/src/ECS/SystemManager.h:85 | The registry starts empty. |
| `Ecs.SystemManager.RegisterSystem` | Lumos/src/ECS/SystemManager.h:13-37 | Both overloads. The key must be absent (the source asserts this). The new map is `Registered` of the old one. |
| `Ecs.SystemManager.RemoveSystem` | Lumos/src/ECS/SystemManager.h:39-48 | The new map is `Removed` of the old one. |
| `Ecs.SystemManager.GetSystem` | Lumos/src/ECS/SystemManager.h:50-61 | Returns None (null) iff the key is absent. Otherwise it returns the system stored under the key. |
| `Ecs.SystemManager.HasSystem` | Lumos/src/ECS/SystemManager.h:63-69 | True exactly when the key is registered. |
| `Ecs.SystemManager.OnUpdate` | Lumos/src/ECS/SystemManager.h:71-75 | Every registered system is updated exactly once. The call log holds each registered key once, holds nothing else, and has one entry per system. The map is not changed. |
| `VulkanContext.PlatformSurfaceExtensions` | Lumos/src/Platform/Vulkan/VKContext.cpp:30-44 | At most one platform surface extension. There is none only when no window system is selected. |
| `VulkanContext.AllNamesFound` | Lumos/src/Platform/Vulkan/VKContext.cpp:181-200 | The nested search returns true iff every requested name is among the available names. An empty request therefore gives true. |
| `VulkanContext.SupportIgnoresRequestOrder` | Lumos/src/Platform/Vulkan/VKContext.cpp:211-230 | Reordering the requested names does not change whether they are supported. |
| `VulkanContext.VKContext.GetRequiredExtensions` | Lumos/src/Platform/Vulkan/VKContext.cpp:18-47 | The list starts with debug-report then debug-utils iff validation is enabled. Next comes `VK_KHR_surface`, then the platform's surface extension if it has one. The list has no duplicates. |
| `VulkanContext.VKContext.GetRequiredLayers` | Lumos/src/Platform/Vulkan/VKContext.cpp:49-63 | Each of the standard-validation, RenderDoc and assistant layers is present iff its flag is set. Entries come in that fixed order with no duplicates and no other names. The list has at most 3 entries. |
| `VulkanContext.VKContext.CheckValidationLayerSupport` | Lumos/src/Platform/Vulkan/VKContext.cpp:173-201 | The stored layer list becomes the enumerated list, whatever the outcome. The result is true iff every requested layer name is among the enumerated layer names. |
| `VulkanContext.VKContext.CheckExtensionSupport` | Lumos/src/Platform/Vulkan/VKContext.cpp:203-231 | The stored extension list becomes the enumerated list, whatever the outcome. The result is true iff every requested extension is among the enumerated extension names. |
| `LightComponent.LightTypeToString` | Lumos/src/Entity/Component/LightComponent.cpp:48-57 | Maps the directional, spot and point enumerators to "Directional Light", "Spot Light" and "Point Light". The result is "ERROR" exactly for any other value. |
| `LightComponent.LightTypeNamesDistinct` | Lumos/src/Entity/Component/LightComponent.cpp:50-56 | The three valid names are pairwise distinct, so the name identifies the enumerator. |

## Left out

- Atomicity and thread interleavings of the counters are not modelled. Every operation is one sequential step, so the race of two first-time `InitRef` calls that the comment at Lumos/src/Core/Reference.cpp:22-24 warns about is outside the model.
- The counter type's implementation (Reference.h) is not part of this model. Its `init`, `ref`, `unref` and `get` are modelled by their stated behaviour only, with unbounded natural numbers: no fixed width and no wrap-around.
- Reference.RefCount.Unreference and Reference.RefCount.WeakUnreference require a positive count. Decrementing a zero counter is a caller error, and its outcome depends on the counter's implementation, which is not modelled.
- Ecs.SystemManager.RegisterSystem: the returned handle is not modelled. The source returns its local handle after moving it into the map, and what a moved-from `Ref` holds depends on Reference.h, which is not part of this model.
- Ecs.SystemManager.RegisterSystem: a second registration of the same type is modelled as forbidden (the source's assertion). When assertions are compiled out, the source's insert would keep the existing entry; that case is not modelled.
- Ecs.SystemManager.GetSystem: the `dynamic_cast` to the requested type is not modelled. The stored system is returned as is.
- `typeid(T).hash_code()` is modelled as an abstract natural-number key. Possible hash collisions between distinct types are not modelled.
- Ecs.SystemManager.OnUpdate: the time-step argument and what each system's own update does are not modelled. The method returns the sequence of keys it dispatched to, in an order it picks freely, as the unordered map's iteration order is unspecified.
- `SystemManager::OnImGUI` runs the same loop as `OnUpdate` with the systems' editor callback, and is not modelled separately.
- VulkanContext.VKContext.CheckValidationLayerSupport and CheckExtensionSupport take the enumeration results as arguments. The calls into the Vulkan loader are not modelled, and neither is the `VkResult` they return.
- Names compared with `strcmp` are modelled as strings compared for equality, with no embedded NUL characters.
- The VKContext constructor takes the validation switch, the platform and the three layer flags as arguments. They are set outside the modelled files.
- The rest of VKContext.cpp is foreign API plumbing and is not modelled: instance creation, `volk` loading, the debug-report callback and its logging, `GetMinUniformBufferOffsetAlignment`, and the ImGui tab.
- The rest of LightComponent.cpp and ModelComponent.cpp is not modelled (floating-point radii and positions, bounding spheres, ImGui widgets).
- The scene setup files, the environment texture wrapper, the editor camera declarations and the render-device factory assignment contain no logic beyond calls into other code, and are not modelled.
