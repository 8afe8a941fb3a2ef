# Debug overlay and chunk borders of a Vulkan voxel engine

This project models two pieces of sequential logic in a small Vulkan game engine.
The GPU, windowing and ImGui calls around them are not modelled.

- **The debug overlay's `showWindow`** (module `DebugOverlay`, file `debug_gui.dfy`).
  Once per frame, the overlay may apply three button actions to the scene's id → GameObject map, in this order:
  - "Render chunk borders" negates `chunkBordersShown`. It then sets `isActive` of every object listed in `chunkBorderIds` to the new value.
  - "Render wireframes borders" negates `renderWireframes`. It then switches every active object that is not in WIREFRAME mode to BOTH (flag on) or FILLED (flag off).
  - "Disable chunk loading" negates the chunk-loading-disabled flag.

  After the actions it sums, in a `uint32_t`, the vertex counts of the active objects that own a model. A collapsed window returns before any of this.
  The class `DebugGui` holds the toggles. Its `ShowWindow` method runs the three loops as methods: `SetBorderVisibility`, `ApplyRenderModes` and `CountVertices`. Each loop is proved against a specification function. The ghost function `Step` states a whole call; the lemmas about one and two calls are stated over `Step`.
- **`Chunk::getChunkBorders`** (module `Chunk`, file `chunk.dfy`). It copies the vertex and index lists of the requested cube faces, element by element, into a fresh builder. From that builder it makes the chunk's border object: a red wireframe at the origin that starts inactive.

Shared value types (vectors, vertices, builders, models, game objects, `uint32_t`) are in module `GameObjects`, file `game_objects.dfy`.

## Model

| member | source | states |
|---|---|---|
| `Chunk.GetChunkBorders` | src/rendering/Chunk.cpp:3-26 | faces are requested at (chunk position, 0) with size (CHUNK_SIZE, CHUNK_SIZE, CHUNK_DEPTH) and the face switches of the source; the object's model holds exactly the faces' vertices and indices, in order, so both counts match; the object is a wireframe, inactive, red, at the origin; id, render mode, scale and rotation are those the factory gave it |
| `DebugOverlay.FirstMissing` | vulkan-engine/src/rendering/gui/DebugGui.cpp:97-99 | the position where the border loop stops: every id before it is a key, and the id at it (if any) is not |
| `DebugOverlay.SetBorderVisibility` | vulkan-engine/src/rendering/gui/DebugGui.cpp:97-99 | if every listed id is a key, the result is the map with `isActive := shown` on exactly the listed entries; otherwise it reports the first missing id (where `at` throws), and only the ids before it have been set |
| `DebugOverlay.ApplyRenderModes` | vulkan-engine/src/rendering/gui/DebugGui.cpp:104-113 | same keys; inactive objects and objects in WIREFRAME mode are unchanged; every other object gets BOTH when the flag is on and FILLED when it is off, and nothing else about it changes |
| `DebugOverlay.CountVertices` | vulkan-engine/src/rendering/gui/DebugGui.cpp:120-127 | the result equals the sum of the vertex counts of the active entries that own a model, modulo 2^32, whatever order the entries are visited in; it is the exact sum when that is below 2^32 |
| `DebugOverlay.SumOverRemove` | vulkan-engine/src/rendering/gui/DebugGui.cpp:121-127 | taking any one entry out of a vertex sum removes exactly its contribution, so the total does not depend on the order in which the map is visited |
| `GameObjects.Wrap32` | vulkan-engine/src/rendering/gui/DebugGui.cpp:120-126 | the `uint32_t` wrap of the accumulator: a value already in range is unchanged, and the result differs from the input by a multiple of 2^32 |
| `DebugOverlay.AddWrapped` | vulkan-engine/src/rendering/gui/DebugGui.cpp:120-126 | adding to a `uint32_t` accumulator gives the same value as adding first and then reducing modulo 2^32 |
| `DebugOverlay.DebugGui.constructor` | vulkan-engine/include/rendering/gui/DebugGui.h:33-34 | both overlay toggles start `false` |
| `DebugOverlay.DebugGui.ShowWindow` | vulkan-engine/src/rendering/gui/DebugGui.cpp:55-134 | the new toggles, the new map and the outcome are those of `Step` on the old toggles; a collapsed window changes nothing; the key set never changes; the reported vertex count is taken over the map after the clicks |
| `DebugOverlay.CollapsedChangesNothing` | vulkan-engine/src/rendering/gui/DebugGui.cpp:74-78 | a collapsed window leaves every flag and every map entry as it was and reports nothing |
| `DebugOverlay.StepKeepsKeys` | vulkan-engine/src/rendering/gui/DebugGui.cpp:95-127 | no call adds or removes a map entry |
| `DebugOverlay.BorderClickSetsListed` | vulkan-engine/src/rendering/gui/DebugGui.cpp:95-100 | when every listed id is a key, a border click negates `chunkBordersShown`; every listed object then has `isActive` equal to the new flag (a set, not a flip); unlisted objects keep their `isActive` |
| `DebugOverlay.BorderClickMissingIdThrows` | vulkan-engine/src/rendering/gui/DebugGui.cpp:96-98 | a listed id that is not a key makes the call throw with the first missing id; the border flag is already negated and exactly the ids before the first missing one are already set; the wireframe and chunk-loading actions of that call do not happen |
| `DebugOverlay.BorderClickTwice` | vulkan-engine/src/rendering/gui/DebugGui.cpp:95-100 | two border clicks restore the flag; every listed object ends with `isActive` equal to that flag and is otherwise unchanged; unlisted objects are untouched |
| `DebugOverlay.WireframeClick` | vulkan-engine/src/rendering/gui/DebugGui.cpp:102-114 | a wireframe click negates `renderWireframes` only; inactive and WIREFRAME-mode objects are unchanged; every other object gets BOTH if the new flag is on, else FILLED |
| `DebugOverlay.WireframeClickTwice` | vulkan-engine/src/rendering/gui/DebugGui.cpp:102-114 | two wireframe clicks restore the flag; every active non-WIREFRAME object ends in the mode the flag selects, whatever its mode before; the others are untouched |
| `DebugOverlay.WireframeOnThenOffFills` | vulkan-engine/src/rendering/gui/DebugGui.cpp:108-112 | starting with wireframes off, an on-then-off pair of clicks moves an active non-WIREFRAME object to BOTH and then to FILLED, even if it started in BOTH |
| `DebugOverlay.ChunkLoadingClick` | vulkan-engine/src/rendering/gui/DebugGui.cpp:116-118 | a chunk-loading click negates that flag and changes nothing else |
| `DebugOverlay.SumOverMonotone` | vulkan-engine/src/rendering/gui/DebugGui.cpp:121-127 | if no entry contributes fewer vertices in the second map than in the first, the second sum is at least the first |
| `DebugOverlay.RenderModesKeepVertexTotal` | vulkan-engine/src/rendering/gui/DebugGui.cpp:102-127 | a wireframe toggle never changes the reported vertex count |
| `DebugOverlay.BordersShownAddVertices` | vulkan-engine/src/rendering/gui/DebugGui.cpp:95-127 | hiding the chunk borders never raises the unbounded vertex total (before the `uint32_t` wrap) and showing them never lowers it |

## Left out

- ImGui work in `showWindow` is not modelled: frame setup, window placement, the text lines and `Render`. The window's collapsed state and the three button clicks are inputs (`Buttons`).
- The moving FPS average (`movingFPSAverage`) is not modelled. It is floating-point arithmetic used only for display.
- The overlay's constructor work is not modelled: the ImGui descriptor pool, the ImGui/Vulkan initialisation and the font upload. So are its destructor, `render` and `processEvent`. All of these are library and GPU calls.
- The scene map is passed to `ShowWindow` and the updated map is returned. In the source it is changed in place through a reference. The wireframe loop reaches the map through the frame info and the count loop through the parameter; both are the same map here, because the frame info refers to the scene map.
- The chunk-loading-disabled flag is a field of `DebugGui`. In the source it is reached through the frame info. The frame-info header with that field is not part of this model; the `FrameInfo` in vulkan-engine/include/platform/vulkan/VulkanFrameInfo.h has no such field.
- An uncaught `std::out_of_range` from `at` is modelled as the outcome `OutOfRange(id)`. The changes made before the throw are kept. What the caller does with the exception is not part of this model.
- Iteration order over the unordered map is left unspecified: each loop takes any remaining key. Every result is proved to be independent of that order.
- `Block::getCubeFaces` is not part of this model. It is the parameter `cubeFaces` of `GetChunkBorders`.
- `GameObject::createGameObject` (id assignment) is not part of this model. The object it returns is the parameter `created`.
- The values of CHUNK_SIZE and CHUNK_DEPTH are not part of this model; they are parameters. Chunk.h is not part of this model.
- GPU model creation (`VulkanEngineModel` and its device) is reduced to a record of the builder's vertex and index lists. Its vertex count is the length of the vertex list. It is not truncated to `uint32_t`; truncating first gives the same sum modulo 2^32.
- Vector components are `real` and are only copied, never computed with.
- BordersShownAddVertices: states monotonicity of the unbounded vertex total only. The displayed `uint32_t` count wraps, so showing the borders can make it fall (for example from 2^32 - 1 to 0).
