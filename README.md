# DynamicLight, modelled in Dafny

A cocos2d scene node that casts 2D shadows. `DynamicLight` owns three
offscreen render targets:

- an occlusion map (`lightSize` × `lightSize`);
- a 1D shadow map (`lightSize` × 16);
- a final shadow map (`finalSize` × `finalSize`).

It also keeps a baked shadow map. While nothing that affects the shadows has
changed, each draw only submits that baked sprite. After a change, the first
draw rebuilds the map. The rebuild:

- pushes the shader uniforms;
- renders the shadow caster into the occlusion map;
- reduces the occlusion map into the 1D map through the shadow-map program;
- sets the final sprite up to composite the result through the render program.

Property setters are no-ops on equal values and otherwise invalidate the
cache. Moves invalidate only once a counter passes `updateFrequency`.

The model has five modules:

- `LightTypes` (types.dfy): points, colours, bytes and `Option`.
- `LightCache` (cache.dfy): the validity cache as a pure state machine.
  - `State` holds the validity flag, the move throttle and every
    shadow-affecting property.
  - `Step` is the effect of one public operation and `Run` the effect of a
    sequence.
  - Lemmas over runs state the following. Each rebuild is paid for by one
    invalidation. Redrawing is free. The cache is valid only after a draw.
    The throttle window holds.
- `RenderPasses` (passes.dfy): the GPU side as values.
  - A render target is a record of its allocation number and size. A sprite
    is a record of its drawing state.
  - A rebuild produces a log of render-pass events (`Clear`, `DrawInto`,
    `End`, `Submit`). A shader program's uniforms are a record.
  - `Passes` parses a log into whole passes, so pass order can be stated.
- `DynamicLightNode` (dynamic_light.dfy): the node itself, a class.
  - Its fields are those of DynamicLight.h. Its methods update them in place
    as DynamicLight.cpp does.
  - `Cache()` projects the node onto `LightCache.State`. Every public method
    is proved to move it exactly as `LightCache.Step` says.
  - The class invariant `Valid()` says the following. The three targets
    exist together or not at all, with the sizes their kind calls for. Each
    sprite draws its own target. The live allocations are exactly the three
    current targets, as the release-before-create in each `init*` method
    ensures.
- `Scenarios` (scenarios.dfy): short client sessions. Each one states what a
  concrete sequence of calls leaves behind.

## Model

| member | source | states |
|---|---|---|
| LightCache.Clamp | Classes/DynamicLight.cpp:235-236 | The stored size is always in [0, 1200]. It equals the argument when that is in range, 0 below, 1200 above. |
| LightCache.StepFacts | Classes/DynamicLight.cpp:224-275 | An equal value leaves the state unchanged. Only a draw makes the cache valid. Every effective change other than a move invalidates. A move invalidates exactly when the incremented counter exceeds the frequency. `0 <= updateCount <= updateFrequency` and the size range are preserved. |
| LightCache.SetterChangesOnlyItsField | Classes/DynamicLight.cpp:224-275 | An effective setter call changes only its own field and clears the validity flag. `setLightSize` stores the clamped value. `setShadowCasters` only invalidates. |
| LightCache.RebuildAccounting | Classes/DynamicLight.cpp:124-141 | Over any run, rebuilds plus final staleness equal initial staleness plus invalidations. So there is one rebuild per invalidation. |
| LightCache.RedrawIsFree | Classes/DynamicLight.cpp:124-141 | A run of draws with no mutation rebuilds at most once, and only if the cache was stale. Afterwards the state is the start state marked valid. |
| LightCache.DrawLeavesCacheValid | Classes/DynamicLight.cpp:126-127 | After any run ending in a draw, the cache is valid. |
| LightCache.BakedOnlyAfterDraw | Classes/DynamicLight.cpp:124-127 | A valid cache at the end of a run was either valid from the start with no invalidation since, or made valid by a draw with no invalidation after it. |
| LightCache.ThrottleWindow | Classes/DynamicLight.cpp:109-122 | Distinct moves that stay within the update frequency only count. Validity is unchanged, the counter rises by the number of moves, and the position is the last target. |
| LightCache.ThrottleFires | Classes/DynamicLight.cpp:117-121 | The move that takes the counter past the frequency invalidates the cache and resets the counter to 0. |
| LightCache.FirstDrawRebuilds | Classes/DynamicLight.h:9 | A new light is stale, so its first draw rebuilds exactly once. |
| LightCache.DefaultMoveInvalidates | Classes/DynamicLight.h:38-39 | With the default frequency and counter of 0, a move to a new position after a draw invalidates the cache. |
| RenderPasses.TruncToInt | Classes/DynamicLight.cpp:85 | The float-to-int conversion of the target size truncates toward zero, for either sign. |
| RenderPasses.Half | Classes/DynamicLight.cpp:198 | `lightSize / 2` is integer division truncating toward zero, for either sign. |
| RenderPasses.ToLightLocal | Classes/DynamicLight.cpp:198-199 | The occlusion-pass position is `caster - (light - lightSize/2)` on each axis. It maps back to the caster's position. A caster at the light lands at (lightSize/2, lightSize/2). |
| RenderPasses.RebuildLogLength | Classes/DynamicLight.cpp:189-220 | A rebuild logs six events with a caster (two passes of three) and two without. |
| RenderPasses.RebuildPassOrder | Classes/DynamicLight.cpp:189-222 | A rebuild's log is a sequence of whole passes. With a caster it is the occlusion pass, closed, then the 1D pass. Without one, only the occlusion pass. |
| RenderPasses.NoCasterClearsOcclusionOnly | Classes/DynamicLight.cpp:191-194 | Without a caster, every event targets the occlusion map, nothing is drawn or submitted, and the clear colour is (0,0,0,0). |
| RenderPasses.CasterDrawnInLightSpace | Classes/DynamicLight.cpp:196-207 | With a caster, the occlusion pass draws the wrapper with its own anchor, at the light-local position. |
| RenderPasses.ReductionUniforms | Classes/DynamicLight.cpp:176-178 | The shadow-map program gets resolution (lightSize, lightSize) and the constants 1.0 for `upScale` and `accuracy`. Its other uniforms are untouched. |
| RenderPasses.CompositeUniforms | Classes/DynamicLight.cpp:180-181 | The render program gets resolution (lightSize, lightSize) and `softShadows` as 1.0 or 0.0. Its other uniforms are untouched. |
| DynamicLightNode.DynamicLight.constructor | Classes/DynamicLight.h:7-40 | The member initialisers (`Cache()` is `LightCache.Defaults`), with no caster, no targets, no uniforms set and an empty log. |
| DynamicLightNode.DynamicLight.Init | Classes/DynamicLight.cpp:15-33 | Loads the programs, starts both uniform records afresh (each `init` gets new program states), allocates three fresh targets of the right sizes with sprites on them, and leaves the cache stale. |
| DynamicLightNode.DynamicLight.AllocateTargets | Classes/DynamicLight.cpp:27-29 | The three init calls in order yield three fresh targets, numbered consecutively, with `finalSize == lightSize * upScale`. The cache fields, the shader flag and both uniform records are unchanged. |
| DynamicLightNode.DynamicLight.AllocatedTogether | Classes/DynamicLight.cpp:53-90 | Three consecutive allocations of the right sizes restore the class invariant. |
| DynamicLightNode.DynamicLight.InitOcclusionMap | Classes/DynamicLight.cpp:53-63 | Releases the old occlusion target and allocates a fresh lightSize × lightSize target and a sprite on it. The live set loses the old allocation and gains the new one. |
| DynamicLightNode.DynamicLight.InitShadowMap1D | Classes/DynamicLight.cpp:65-76 | Releases the old 1D target and allocates a fresh lightSize × 16 target and a sprite on it. |
| DynamicLightNode.DynamicLight.InitFinalShadowMap | Classes/DynamicLight.cpp:78-90 | Sets `finalSize := lightSize * upScale`, releases the old final target, and allocates a fresh target sized by `finalSize` truncated to an int, with a sprite on it. |
| DynamicLightNode.DynamicLight.SetShadowCasters | Classes/DynamicLight.cpp:92-102 | Always invalidates, with no equality check. The wrapper takes the caster's texture, anchor and position. |
| DynamicLightNode.DynamicLight.SetPosition | Classes/DynamicLight.cpp:109-122 | Follows `LightCache.Step` for `Move`. An equal position changes nothing, not even the counter. Otherwise it moves, counts, and invalidates and resets once the counter exceeds the frequency. |
| DynamicLightNode.DynamicLight.Draw | Classes/DynamicLight.cpp:124-143 | Always leaves the cache valid and submits the final sprite last of the events it logs (the debug-draw submissions are not modelled). A valid cache is reused: only the submit is logged, and the sprites and uniforms are unchanged. A stale cache first logs the rebuild's passes and sets the final sprite up for compositing. With a caster, it prepares the occlusion sprite for the reduction; without one, it leaves that sprite alone. Both programs' uniforms end as a rebuild pushes and binds them. |
| DynamicLightNode.DynamicLight.Rebuild | Classes/DynamicLight.cpp:126-141 | Marks the cache valid and logs the rebuild's passes. With a caster, the occlusion sprite is flipped, anchored at the origin, placed at the negated light position and drawn through the shadow-map program; without one, it is left alone. Both programs' uniforms end up pushed, with both maps bound to the render program and the occlusion map to the shadow-map program when a caster is set. The final sprite is set up for compositing. |
| DynamicLightNode.DynamicLight.PrepareComposite | Classes/DynamicLight.cpp:132-140 | Binds the occlusion and 1D maps' textures to `u_texture` and `u_texture2`. The final sprite becomes white, drawn through the render program, centred at ((-x + lightSize/2)/2, (-y + lightSize/2)/2), with blend (GL_SRC_COLOR, GL_ONE). |
| DynamicLightNode.DynamicLight.UpdateUniforms | Classes/DynamicLight.cpp:173-182 | Each program's uniforms become what `ReductionUniforms` and `CompositeUniforms` say. No cache field changes. |
| DynamicLightNode.DynamicLight.CreateShadowMap | Classes/DynamicLight.cpp:189-222 | Appends exactly the rebuild's passes to the log. Without a caster, nothing else changes. With one, the occlusion sprite is flipped, anchored at the origin, placed at the negated light position and drawn through the shadow-map program, whose `u_texture` is the occlusion map. The caster wrapper is left where it was. |
| DynamicLightNode.DynamicLight.SetSoftShadows | Classes/DynamicLight.cpp:224-230 | Follows `LightCache.Step`: a no-op on an equal value, otherwise it stores the value and invalidates. |
| DynamicLightNode.DynamicLight.SetLightSize | Classes/DynamicLight.cpp:232-243 | Compares the raw argument. On equality nothing changes. Otherwise it stores the clamped size, reallocates all three targets and invalidates. |
| DynamicLightNode.DynamicLight.SetUpScale | Classes/DynamicLight.cpp:245-251 | Follows `LightCache.Step`. `finalSize` and the final target keep their size. |
| DynamicLightNode.DynamicLight.SetAccuracy | Classes/DynamicLight.cpp:253-259 | Follows `LightCache.Step`: a no-op on an equal value, otherwise it stores the value and invalidates. |
| DynamicLightNode.DynamicLight.SetAdditive | Classes/DynamicLight.cpp:261-267 | Follows `LightCache.Step`: a no-op on an equal value, otherwise it stores the value and invalidates. |
| DynamicLightNode.DynamicLight.SetColor | Classes/DynamicLight.cpp:269-275 | Follows `LightCache.Step`: a no-op on an equal value, otherwise it stores the value and invalidates. |
| DynamicLightNode.Create | Classes/DynamicLight.h:42 | The factory yields a fresh, initialised light. It is stale, has targets numbered 0-2, no caster, no uniforms set and an empty log. |
| DynamicLightNode.OneTargetPerKind | Classes/DynamicLight.cpp:53-90 | Once allocated, exactly three targets are live: one occlusion, one 1D and one final target. |
| Scenarios.FirstDrawWithoutCaster | Classes/DynamicLight.cpp:189-195 | A new light's first draw, with no caster, clears and closes the occlusion map and then submits. |
| Scenarios.CreateWithCaster | Classes/DynamicLight.cpp:92-102 | A new light given a caster holds a wrapper with the caster's texture, anchor and position, is stale, and has rendered nothing. |
| Scenarios.FirstDrawWithCaster | Classes/DynamicLight.cpp:189-222 | After a caster is set, the first draw renders the occlusion pass and then the 1D pass, and submits last. |
| Scenarios.RedrawOnlySubmits | Classes/DynamicLight.cpp:124-143 | A second draw with no change in between logs only the same submit again. |
| Scenarios.ResizeToDefault | Classes/DynamicLight.cpp:232-234 | Setting the size a new light already has allocates nothing. |
| Scenarios.OversizeReallocates | Classes/DynamicLight.cpp:232-243 | `setLightSize(1500)` stores 1200. Asking for 1500 again still reallocates and leaves the cache stale. |
| Scenarios.MoveAfterFirstDraw | Classes/DynamicLight.h:38-39 | With the default tunables, a drawn light stays valid after a move exactly when the move is to where it already was. |

## Left out

- GPU and engine calls are not executed. Render targets, `beginWithClear`/`end`, `visit` and the uniform setters are modelled as target records, log events and uniform records.
- `loadShader` (Classes/DynamicLight.cpp:35-50) looks the program up in the engine's shader cache and, on a miss, compiles and links a new one from the shader files. It is represented only by the `shadersLoaded` flag; the file system, the compiler and the cache lookup are not modelled.
- `debugDraw` (Classes/DynamicLight.cpp:150-171) and the `debugDrawEnabled` branch of `draw` (Classes/DynamicLight.cpp:145-147) read the screen size from the director. They are not modelled. They change no cache state and nothing else the model represents. They do move the anchor and position of the occlusion and 1D targets and recolour the occlusion target's sprite (Classes/DynamicLight.cpp:162-169). The model has no counterpart for those targets' placement. They also visit both targets into the frame (Classes/DynamicLight.cpp:165, 170). `Draw`'s log leaves these two debug submissions out, so with `debugDrawEnabled` set the final sprite is not the last submission of a draw.
- Reference counting and the destructor (Classes/DynamicLight.cpp:5-13) are modelled only as the replacement of an old target by a new one, tracked in the ghost `live` set.
- Floats (`upScale`, `accuracy`, positions, `finalSize`) are exact reals. There is no rounding, NaN or signed zero. Position equality is equality of both coordinates.
- RenderPasses.TruncToInt: truncates any real, while the float-to-int conversion at Classes/DynamicLight.cpp:85 is undefined behaviour when `finalSize` lies outside the int range (an `upScale` above about 1.8e6 at the largest `lightSize`); the model does not capture that case.
- `updateCount` is an unbounded integer, and its 32-bit overflow is not modelled. `updateCount` and `updateFrequency` are public fields (Classes/DynamicLight.h:38-39). So a host can set `updateCount` to the int maximum directly, and the next `++updateCount` (Classes/DynamicLight.cpp:117) then overflows.
- The caster is always a sprite that exists, by its type `CasterNode`. Both undefined behaviours at Classes/DynamicLight.cpp:98 are excluded: `dynamic_cast` of a non-sprite caster, and a null caster.
- `updateShadowMap` and `createOcclusionMap` (Classes/DynamicLight.cpp:104-107, 184-187) are empty and have no counterpart.
- The engine starts every node at (0, 0). The constructor and `Create` take a starting position `origin` that generalises it.
- `Node::init` is taken to succeed, so `init` never returns false and `Create` never yields null.
- The constructor leaves `finalSize` unspecified. Its initialiser (Classes/DynamicLight.h:13) reads `lightSize`, which is declared and initialised after it (Classes/DynamicLight.h:15).
- `finalSize` is recomputed only in `initFinalShadowMap` (Classes/DynamicLight.cpp:83), and `setUpScale` does not call it (Classes/DynamicLight.cpp:245-251). So after a new up-scale, `finalSize` and the final target keep their old size until the next reallocation. `SetUpScale` states that they are unchanged.
- `updateUniforms` pushes the constants 1.0 for the `upScale` and `accuracy` uniforms, not the node's fields (Classes/DynamicLight.cpp:177-178). So `accuracy` only marks the cache stale; `upScale` also sets `finalSize` at the next reallocation (Classes/DynamicLight.cpp:83). `ReductionUniforms` states the constants.
- A move invalidates the cache only once `updateCount` exceeds `updateFrequency` (Classes/DynamicLight.cpp:117-121). Moves within the frequency change the light's position but leave a baked map valid. `LightCache.ThrottleWindow` states this.
- `loadShader` never registers the programs it builds in the shader cache (Classes/DynamicLight.cpp:37-47). So every `init` builds two fresh programs for its light. `GLProgramState::getOrCreateWithGLProgram` (Classes/DynamicLight.cpp:24-25) keys its states by program, so each light has its own two uniform states. The per-light records `shadowMapUniforms` and `shadowRenderUniforms` model exactly these. The engine's caching of states is not modelled.
- DynamicLightNode.DynamicLight.CreateShadowMap: the caster wrapper is moved in place for the occlusion pass and restored afterwards. The model draws a moved copy of it instead, so the in-place move and restore are not separate state changes.
- The shader program a sprite draws through is a tag (`Sprite.program`), not a reference to the light's program state.
- The scene that hosts the light (Classes/HelloWorldScene.cpp, Classes/HelloWorldScene.h) is not part of this model.
