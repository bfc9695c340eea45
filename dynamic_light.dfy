/** The dynamic light node: a scene node that owns three render targets,
    caches the shadow map it bakes from them, and rebuilds that map on the
    first draw after a shadow-affecting change.

    The GPU is abstracted: a render target is a record of its size and an
    allocation number, a render pass is an event in `log`, and each
    program's shader state is a record of its uniforms.  `Cache()` projects the node onto
    the pure state machine of `LightCache`, and every operation is proved to
    move it as `LightCache.Step` says. */
module DynamicLightNode {
  import opened LightTypes
  import opened RenderPasses
  import LightCache

  /** The allocation a target holds, as a set. */
  function IdOf(t: Option<RenderTarget>): set<nat>
  {
    if t.Some? then {t.value.texture} else {}
  }

  /** Where the caster wrapper stands, if there is one. */
  function PlacementOf(c: Option<CasterNode>): Option<Placement>
  {
    if c.None? then None else Some(Placement(c.value.anchor, c.value.position))
  }

  /** A sprite exists exactly when its target does, and draws its texture. */
  predicate SpriteOn(s: Option<Sprite>, t: Option<RenderTarget>)
  {
    s.Some? == t.Some? && (t.Some? ==> s.value.texture == t.value.texture)
  }

  /** The live allocations are exactly the current targets' ones, pairwise
      distinct and all below the allocator's next number. */
  ghost predicate Accounted(live: set<nat>, next: nat, occ: Option<RenderTarget>,
                            map1D: Option<RenderTarget>, final: Option<RenderTarget>)
  {
    live == IdOf(occ) + IdOf(map1D) + IdOf(final) &&
    IdOf(occ) !! IdOf(map1D) && IdOf(occ) !! IdOf(final) && IdOf(map1D) !! IdOf(final) &&
    (forall id | id in live :: id < next)
  }

  /** The light size is in range, the targets exist all together or not at
      all, and each has the size its kind calls for. */
  predicate Shaped(lightSize: int, finalSize: real, occ: Option<RenderTarget>,
                   map1D: Option<RenderTarget>, final: Option<RenderTarget>)
  {
    0 <= lightSize <= LightCache.MaxLightSize &&
    occ.Some? == map1D.Some? && map1D.Some? == final.Some? &&
    (occ.Some? ==> occ.value.width == lightSize && occ.value.height == lightSize) &&
    (map1D.Some? ==> map1D.value.width == lightSize && map1D.value.height == MinTextureHeight) &&
    (final.Some? ==> final.value.width == TruncToInt(finalSize) && final.value.height == TruncToInt(finalSize))
  }

  class DynamicLight {
    var bakedMapIsValid: bool
    var softShadows: bool
    var additive: bool
    var upScale: real
    var finalSize: real
    var accuracy: real
    var lightSize: int
    var color: Color4B
    /** The sprite the light builds around the shadow caster; the light owns
        it, and moves it only while drawing the occlusion pass. */
    var shadowCasters: Option<CasterNode>

    var occlusionMap: Option<RenderTarget>
    var occlusionMapSprite: Option<Sprite>
    var shadowMap1D: Option<RenderTarget>
    var shadowMap1DSprite: Option<Sprite>
    var finalShadowMap: Option<RenderTarget>
    var finalShadowMapSprite: Option<Sprite>

    /** Whether the shadow-map and shadow-render programs have been loaded. */
    var shadersLoaded: bool
    var shadowMapUniforms: Uniforms
    var shadowRenderUniforms: Uniforms

    var updateFrequency: int
    var updateCount: int
    var debugDrawEnabled: bool

    /** The node's position, inherited from the scene-graph node. */
    var position: Point

    /** The engine's texture allocator: the number the next target gets. */
    var nextTextureId: nat
    /** The targets allocated and not yet released. */
    ghost var live: set<nat>
    /** Every render-pass event so far: what the node has asked the GPU to do. */
    var log: seq<Event>

    /** The fields the shadow-map cache depends on. */
    ghost function Cache(): LightCache.State
      reads this`bakedMapIsValid, this`updateCount, this`updateFrequency, this`lightSize, this`upScale,
            this`accuracy, this`softShadows, this`additive, this`color, this`position
    {
      LightCache.State(bakedMapIsValid, updateCount, updateFrequency, lightSize, upScale,
                       accuracy, softShadows, additive, color, position)
    }

    /** Every live target is one of the three current ones, they are
        pairwise distinct allocations, and each sprite draws its target. */
    ghost predicate Bookkeeping()
      reads this`live, this`nextTextureId, this`occlusionMap, this`shadowMap1D, this`finalShadowMap,
            this`occlusionMapSprite, this`shadowMap1DSprite, this`finalShadowMapSprite
    {
      Accounted(live, nextTextureId, occlusionMap, shadowMap1D, finalShadowMap) &&
      SpriteOn(occlusionMapSprite, occlusionMap) &&
      SpriteOn(shadowMap1DSprite, shadowMap1D) &&
      SpriteOn(finalShadowMapSprite, finalShadowMap)
    }

    /** The targets have the sizes the light's fields call for. */
    ghost predicate Shapes()
      reads this`lightSize, this`finalSize, this`occlusionMap, this`shadowMap1D, this`finalShadowMap
    {
      Shaped(lightSize, finalSize, occlusionMap, shadowMap1D, finalShadowMap)
    }

    /** The class invariant. */
    ghost predicate Valid()
      reads this`live, this`nextTextureId, this`occlusionMap, this`shadowMap1D, this`finalShadowMap,
            this`occlusionMapSprite, this`shadowMap1DSprite, this`finalShadowMapSprite, this`lightSize, this`finalSize
    {
      Bookkeeping() && Shapes()
    }

    /** The passes a rebuild renders from the current state. */
    ghost function PendingPasses(): seq<Event>
      requires occlusionMapSprite.Some?
      reads this`shadowCasters, this`position, this`lightSize, this`occlusionMapSprite
    {
      RebuildLog(PlacementOf(shadowCasters), position, lightSize,
                 PreparedForReduction(occlusionMapSprite.value, position))
    }

    /** The node has been initialised: shaders loaded and targets allocated. */
    ghost predicate Ready()
      reads this`shadersLoaded, this`occlusionMap
    {
      shadersLoaded && occlusionMap.Some?
    }

    /** The three targets and their sprites were just allocated, numbered from
        `first`, for the current light size and up-scale. */
    ghost predicate FreshTargets(first: nat)
      reads this`finalSize, this`lightSize, this`upScale, this`occlusionMap, this`shadowMap1D,
            this`finalShadowMap, this`occlusionMapSprite, this`shadowMap1DSprite,
            this`finalShadowMapSprite, this`live, this`nextTextureId
    {
      finalSize == ScaledSize(lightSize, upScale) &&
      occlusionMap == Some(RenderTarget(first, lightSize, lightSize)) &&
      shadowMap1D == Some(RenderTarget(first + 1, lightSize, MinTextureHeight)) &&
      finalShadowMap == Some(RenderTarget(first + 2, TruncToInt(finalSize), TruncToInt(finalSize))) &&
      occlusionMapSprite == Some(NewSprite(first)) &&
      shadowMap1DSprite == Some(NewSprite(first + 1)) &&
      finalShadowMapSprite == Some(NewSprite(first + 2)) &&
      live == {first, first + 1, first + 2} &&
      nextTextureId == first + 3
    }

    /** A new node with the member initialisers; `finalSize` is left
        unspecified, since its initialiser reads `lightSize` before that
        member is initialised.  The engine starts every node at (0, 0);
        `origin` generalises that starting position. */
    constructor (origin: Point)
      ensures Valid()
      ensures Cache() == LightCache.Defaults(origin)
      ensures shadowCasters.None? && !shadersLoaded && !debugDrawEnabled
      ensures occlusionMap.None? && shadowMap1D.None? && finalShadowMap.None?
      ensures shadowMapUniforms == NoUniforms && shadowRenderUniforms == NoUniforms
      ensures nextTextureId == 0 && live == {} && log == []
    {
      bakedMapIsValid := false;
      softShadows := true;
      additive := true;
      upScale := 1.0;
      accuracy := 1.0;
      lightSize := 256;
      color := Color4B(64, 130, 77, 255);
      shadowCasters := None;
      occlusionMap, occlusionMapSprite := None, None;
      shadowMap1D, shadowMap1DSprite := None, None;
      finalShadowMap, finalShadowMapSprite := None, None;
      shadersLoaded := false;
      shadowMapUniforms, shadowRenderUniforms := NoUniforms, NoUniforms;
      updateFrequency, updateCount := 0, 0;
      debugDrawEnabled := false;
      position := origin;
      nextTextureId := 0;
      live := {};
      log := [];
    }

    /** Loads both programs, allocates the three targets and marks the cache
        stale.  The base node's own initialisation is taken to succeed. */
    method Init()
      requires Valid()
      modifies this`shadersLoaded, this`occlusionMap, this`occlusionMapSprite, this`shadowMap1D,
               this`shadowMap1DSprite, this`finalShadowMap, this`finalShadowMapSprite, this`finalSize,
               this`nextTextureId, this`live, this`bakedMapIsValid,
               this`shadowMapUniforms, this`shadowRenderUniforms
      ensures Valid() && Ready()
      ensures Cache() == LightCache.Step(old(Cache()), LightCache.Init)
      ensures FreshTargets(old(nextTextureId))
      ensures shadowMapUniforms == NoUniforms && shadowRenderUniforms == NoUniforms
    {
      shadersLoaded, shadowMapUniforms, shadowRenderUniforms := true, NoUniforms, NoUniforms;
      bakedMapIsValid := false;
      assert Cache() == LightCache.Step(old(Cache()), LightCache.Init);
      AllocateTargets();
    }

    /** The three init calls that `init` and `setLightSize` both make, in order. */
    method AllocateTargets()
      requires Bookkeeping() && 0 <= lightSize <= LightCache.MaxLightSize
      modifies this`occlusionMap, this`occlusionMapSprite, this`shadowMap1D, this`shadowMap1DSprite,
               this`finalShadowMap, this`finalShadowMapSprite, this`finalSize, this`nextTextureId, this`live
      ensures Valid()
      ensures FreshTargets(old(nextTextureId))
      ensures Cache() == old(Cache())
      ensures shadersLoaded == old(shadersLoaded)
      ensures shadowMapUniforms == old(shadowMapUniforms) && shadowRenderUniforms == old(shadowRenderUniforms)
    {
      ghost var first := nextTextureId;
      InitOcclusionMap();
      InitShadowMap1D();
      InitFinalShadowMap();
      AllocatedTogether(first);
    }

    /** After the three init calls, the targets are the three fresh ones. */
    lemma AllocatedTogether(first: nat)
      requires Bookkeeping() && 0 <= lightSize <= LightCache.MaxLightSize
      requires finalSize == ScaledSize(lightSize, upScale)
      requires occlusionMap == Some(RenderTarget(first, lightSize, lightSize))
      requires shadowMap1D == Some(RenderTarget(first + 1, lightSize, MinTextureHeight))
      requires finalShadowMap == Some(RenderTarget(first + 2, TruncToInt(finalSize), TruncToInt(finalSize)))
      requires occlusionMapSprite == Some(NewSprite(first))
      requires shadowMap1DSprite == Some(NewSprite(first + 1))
      requires finalShadowMapSprite == Some(NewSprite(first + 2))
      requires nextTextureId == first + 3
      ensures Valid() && FreshTargets(first)
    {
      assert IdOf(occlusionMap) == {first};
      assert IdOf(shadowMap1D) == {first + 1};
      assert IdOf(finalShadowMap) == {first + 2};
    }

    /** Releases the occlusion target and its sprite, then allocates a
        lightSize x lightSize target and a sprite on it. */
    method InitOcclusionMap()
      requires Bookkeeping()
      modifies this`occlusionMap, this`occlusionMapSprite, this`nextTextureId, this`live
      ensures Bookkeeping()
      ensures occlusionMap == Some(RenderTarget(old(nextTextureId), lightSize, lightSize))
      ensures occlusionMapSprite == Some(NewSprite(old(nextTextureId)))
      ensures nextTextureId == old(nextTextureId) + 1
      ensures live == old(live) - IdOf(old(occlusionMap)) + {old(nextTextureId)}
      ensures Cache() == old(Cache())
    {
      // release the old target and sprite, then allocate the new ones
      var id := nextTextureId;
      occlusionMap, occlusionMapSprite, nextTextureId, live :=
        Some(RenderTarget(id, lightSize, lightSize)), Some(NewSprite(id)), id + 1, live - IdOf(occlusionMap) + {id};
    }

    /** Releases the 1D shadow target and its sprite, then allocates a
        lightSize x 16 target and a sprite on it. */
    method InitShadowMap1D()
      requires Bookkeeping()
      modifies this`shadowMap1D, this`shadowMap1DSprite, this`nextTextureId, this`live
      ensures Bookkeeping()
      ensures shadowMap1D == Some(RenderTarget(old(nextTextureId), lightSize, MinTextureHeight))
      ensures shadowMap1DSprite == Some(NewSprite(old(nextTextureId)))
      ensures nextTextureId == old(nextTextureId) + 1
      ensures live == old(live) - IdOf(old(shadowMap1D)) + {old(nextTextureId)}
      ensures Cache() == old(Cache())
    {
      // release the old target and sprite, then allocate the new ones
      var id := nextTextureId;
      shadowMap1D, shadowMap1DSprite, nextTextureId, live :=
        Some(RenderTarget(id, lightSize, MinTextureHeight)), Some(NewSprite(id)), id + 1, live - IdOf(shadowMap1D) + {id};
    }

    /** Recomputes finalSize as lightSize * upScale, releases the final target
        and its sprite, then allocates a finalSize x finalSize target (the size
        truncated to an int) and a sprite on it. */
    method InitFinalShadowMap()
      requires Bookkeeping()
      modifies this`finalShadowMap, this`finalShadowMapSprite, this`finalSize, this`nextTextureId, this`live
      ensures Bookkeeping()
      ensures finalSize == ScaledSize(lightSize, upScale)
      ensures finalShadowMap == Some(RenderTarget(old(nextTextureId), TruncToInt(finalSize), TruncToInt(finalSize)))
      ensures finalShadowMapSprite == Some(NewSprite(old(nextTextureId)))
      ensures nextTextureId == old(nextTextureId) + 1
      ensures live == old(live) - IdOf(old(finalShadowMap)) + {old(nextTextureId)}
      ensures Cache() == old(Cache())
    {
      // release the old target and sprite, then allocate the new ones
      var id := nextTextureId;
      var size := ScaledSize(lightSize, upScale);
      finalSize, finalShadowMap, finalShadowMapSprite, nextTextureId, live :=
        size, Some(RenderTarget(id, TruncToInt(size), TruncToInt(size))), Some(NewSprite(id)), id + 1,
        live - IdOf(finalShadowMap) + {id};
    }

    /** Replaces the caster wrapper by a new sprite on the caster's texture,
        anchor and position, and invalidates the cache unconditionally. */
    method SetShadowCasters(caster: CasterNode)
      requires Valid()
      modifies this`shadowCasters, this`bakedMapIsValid
      ensures Valid()
      ensures Cache() == LightCache.Step(old(Cache()), LightCache.SetShadowCasters)
      ensures shadowCasters == Some(caster)
    {
      bakedMapIsValid := false;
      shadowCasters := Some(CasterNode(caster.texture, caster.anchor, caster.position));
    }

    /** Moves the node; the cache is invalidated only once the move counter
        exceeds the update frequency. */
    method SetPosition(p: Point)
      requires Valid()
      modifies this`position, this`updateCount, this`bakedMapIsValid
      ensures Valid()
      ensures Cache() == LightCache.Step(old(Cache()), LightCache.Move(p))
    {
      if p.x == position.x && p.y == position.y {
        return;
      }
      position := p;
      updateCount := updateCount + 1;
      if updateCount > updateFrequency {
        updateCount := 0;
        bakedMapIsValid := false;
      }
    }

    /** Rebuilds the shadow map if the cache is stale, then submits the final
        sprite into the frame. */
    method Draw()
      requires Valid() && Ready()
      modifies this`bakedMapIsValid, this`log, this`occlusionMapSprite, this`finalShadowMapSprite,
               this`shadowMapUniforms, this`shadowRenderUniforms
      ensures Valid() && Ready()
      ensures Cache() == LightCache.Step(old(Cache()), LightCache.Draw)
      // a valid cache is reused: only the final sprite is submitted
      ensures old(bakedMapIsValid) ==>
                log == old(log) + [Submit(finalShadowMapSprite.value)] &&
                occlusionMapSprite == old(occlusionMapSprite) &&
                finalShadowMapSprite == old(finalShadowMapSprite) &&
                shadowMapUniforms == old(shadowMapUniforms) &&
                shadowRenderUniforms == old(shadowRenderUniforms)
      // a stale cache is rebuilt first
      ensures !old(bakedMapIsValid) ==>
                log == old(log) + old(PendingPasses()) + [Submit(finalShadowMapSprite.value)] &&
                finalShadowMapSprite == Some(Composite(old(finalShadowMapSprite).value, position, lightSize)) &&
                occlusionMapSprite ==
                  (if shadowCasters.None? then old(occlusionMapSprite)
                   else Some(PreparedForReduction(old(occlusionMapSprite).value, position))) &&
                shadowRenderUniforms ==
                  CompositeUniforms(old(shadowRenderUniforms), lightSize, softShadows)
                    .(texture := Some(occlusionMap.value.texture), texture2 := Some(shadowMap1D.value.texture)) &&
                shadowMapUniforms ==
                  (if shadowCasters.None? then ReductionUniforms(old(shadowMapUniforms), lightSize)
                   else ReductionUniforms(old(shadowMapUniforms), lightSize).(texture := Some(occlusionMap.value.texture)))
    {
      if !bakedMapIsValid {
        Rebuild();
      }
      log := log + [Submit(finalShadowMapSprite.value)];
    }

    /** The rebuild branch of a draw: marks the cache valid, pushes the
        uniforms, renders the passes, binds both maps to the render program
        and sets the final sprite up for compositing. */
    method Rebuild()
      requires Valid() && Ready()
      modifies this`bakedMapIsValid, this`log, this`occlusionMapSprite, this`finalShadowMapSprite,
               this`shadowMapUniforms, this`shadowRenderUniforms
      ensures Valid() && Ready()
      ensures Cache() == old(Cache()).(baked := true)
      ensures log == old(log) + old(PendingPasses())
      ensures finalShadowMapSprite == Some(Composite(old(finalShadowMapSprite).value, position, lightSize))
      ensures occlusionMapSprite ==
                if shadowCasters.None? then old(occlusionMapSprite)
                else Some(PreparedForReduction(old(occlusionMapSprite).value, position))
      ensures shadowRenderUniforms ==
                CompositeUniforms(old(shadowRenderUniforms), lightSize, softShadows)
                  .(texture := Some(occlusionMap.value.texture), texture2 := Some(shadowMap1D.value.texture))
      ensures shadowMapUniforms ==
                if shadowCasters.None? then ReductionUniforms(old(shadowMapUniforms), lightSize)
                else ReductionUniforms(old(shadowMapUniforms), lightSize).(texture := Some(occlusionMap.value.texture))
    {
      ghost var passes := PendingPasses();
      bakedMapIsValid := true;
      UpdateUniforms();
      assert PendingPasses() == passes;
      CreateShadowMap();
      PrepareComposite();
    }

    /** Binds the occlusion map and the 1D shadow map to the render program's
        two samplers, and sets the final sprite up to composite the shadow
        map: white, drawn through the render program, centred, additively
        blended. */
    method PrepareComposite()
      requires Valid() && Ready()
      modifies this`shadowRenderUniforms, this`finalShadowMapSprite
      ensures Valid() && Ready() && Cache() == old(Cache())
      ensures shadowRenderUniforms ==
                old(shadowRenderUniforms).(texture := Some(occlusionMap.value.texture),
                                           texture2 := Some(shadowMap1D.value.texture))
      ensures finalShadowMapSprite == Some(Composite(old(finalShadowMapSprite).value, position, lightSize))
    {
      shadowRenderUniforms, finalShadowMapSprite :=
        shadowRenderUniforms.(texture := Some(occlusionMapSprite.value.texture),
                              texture2 := Some(shadowMap1DSprite.value.texture)),
        Some(Composite(finalShadowMapSprite.value, position, lightSize));
    }

    /** Pushes the light's resolution and soft-shadow switch to the programs,
        with the constants 1.0 for up-scale and accuracy. */
    method UpdateUniforms()
      requires Valid() && Ready()
      modifies this`shadowMapUniforms, this`shadowRenderUniforms
      ensures Valid() && Ready()
      ensures shadowMapUniforms == ReductionUniforms(old(shadowMapUniforms), lightSize)
      ensures shadowRenderUniforms == CompositeUniforms(old(shadowRenderUniforms), lightSize, softShadows)
      ensures Cache() == old(Cache())
    {
      shadowMapUniforms := shadowMapUniforms.(resolution := Some(Point(lightSize as real, lightSize as real)),
                                              upScale := Some(1.0), accuracy := Some(1.0));
      shadowRenderUniforms := shadowRenderUniforms.(resolution := Some(Point(lightSize as real, lightSize as real)),
                                                    softShadows := Some(if softShadows then 1.0 else 0.0));
    }

    /** Renders the occlusion pass and, when a caster is set, the 1D
        reduction pass; without a caster the occlusion target is only cleared. */
    method CreateShadowMap()
      requires Valid() && Ready()
      modifies this`log, this`occlusionMapSprite, this`shadowMapUniforms
      ensures Valid() && Ready()
      ensures log == old(log) + old(PendingPasses())
      ensures shadowCasters.None? ==>
                occlusionMapSprite == old(occlusionMapSprite) && shadowMapUniforms == old(shadowMapUniforms)
      ensures shadowCasters.Some? ==>
                occlusionMapSprite == Some(PreparedForReduction(old(occlusionMapSprite).value, position)) &&
                shadowMapUniforms == old(shadowMapUniforms).(texture := Some(occlusionMap.value.texture))
      // the caster wrapper is back where it was
      ensures shadowCasters == old(shadowCasters)
      ensures Cache() == old(Cache())
    {
      if shadowCasters.None? {
        log := log + [Clear(Occlusion, Transparent), End(Occlusion)];
        return;
      }
      // occlusion pass: the caster wrapper is drawn moved into light space,
      // then put back where it was
      var moved := shadowCasters.value.(position := ToLightLocal(shadowCasters.value.position, position, lightSize));
      log := log + [Clear(Occlusion, Transparent),
                    DrawInto(Occlusion, Caster(Placement(moved.anchor, moved.position))),
                    End(Occlusion)];

      // reduction pass: the occlusion sprite, flipped and placed at the
      // light's origin, is drawn through the shadow-map program
      var prepared := PreparedForReduction(occlusionMapSprite.value, position);
      occlusionMapSprite, shadowMapUniforms := Some(prepared), shadowMapUniforms.(texture := Some(prepared.texture));
      log := log + [Clear(ShadowMap1D, Transparent), DrawInto(ShadowMap1D, Reduction(prepared)), End(ShadowMap1D)];
    }

    method SetSoftShadows(shadows: bool)
      requires Valid()
      modifies this`softShadows, this`bakedMapIsValid
      ensures Valid()
      ensures Cache() == LightCache.Step(old(Cache()), LightCache.SetSoftShadows(shadows))
    {
      if softShadows != shadows {
        softShadows := shadows;
        bakedMapIsValid := false;
      }
    }

    /** Compares the raw argument with the stored size; on a difference stores
        it clamped to [0, 1200], reallocates all three targets and invalidates
        the cache. */
    method SetLightSize(n: int)
      requires Valid()
      modifies this`lightSize, this`occlusionMap, this`occlusionMapSprite, this`shadowMap1D,
               this`shadowMap1DSprite, this`finalShadowMap, this`finalShadowMapSprite, this`finalSize,
               this`nextTextureId, this`live, this`bakedMapIsValid
      ensures Valid()
      ensures Cache() == LightCache.Step(old(Cache()), LightCache.SetLightSize(n))
      ensures n == old(lightSize) ==> unchanged(this)
      ensures n != old(lightSize) ==> FreshTargets(old(nextTextureId))
    {
      if lightSize != n {
        lightSize := LightCache.Clamp(n);
        AllocateTargets();
        bakedMapIsValid := false;
      }
    }

    /** Stores a new up-scale; finalSize and the targets keep their size until
        they are next reallocated. */
    method SetUpScale(scale: real)
      requires Valid()
      modifies this`upScale, this`bakedMapIsValid
      ensures Valid()
      ensures Cache() == LightCache.Step(old(Cache()), LightCache.SetUpScale(scale))
      ensures finalSize == old(finalSize) && finalShadowMap == old(finalShadowMap)
    {
      if upScale != scale {
        upScale := scale;
        bakedMapIsValid := false;
      }
    }

    method SetAccuracy(acc: real)
      requires Valid()
      modifies this`accuracy, this`bakedMapIsValid
      ensures Valid()
      ensures Cache() == LightCache.Step(old(Cache()), LightCache.SetAccuracy(acc))
    {
      if accuracy != acc {
        accuracy := acc;
        bakedMapIsValid := false;
      }
    }

    method SetAdditive(add: bool)
      requires Valid()
      modifies this`additive, this`bakedMapIsValid
      ensures Valid()
      ensures Cache() == LightCache.Step(old(Cache()), LightCache.SetAdditive(add))
    {
      if additive != add {
        additive := add;
        bakedMapIsValid := false;
      }
    }

    method SetColor(tint: Color4B)
      requires Valid()
      modifies this`color, this`bakedMapIsValid
      ensures Valid()
      ensures Cache() == LightCache.Step(old(Cache()), LightCache.SetColor(tint))
    {
      if color != tint {
        color := tint;
        bakedMapIsValid := false;
      }
    }
  }

  /** The factory every light is made by: a new node, initialised.  The base
      node's initialisation is taken to succeed, so it never yields null.
      The engine's factory takes no position and starts the node at (0, 0);
      `origin` generalises that starting position. */
  method Create(origin: Point) returns (light: DynamicLight)
    ensures fresh(light)
    ensures light.Valid() && light.Ready()
    ensures light.Cache() == LightCache.Step(LightCache.Defaults(origin), LightCache.Init)
    ensures light.FreshTargets(0) && light.nextTextureId == 3
    ensures light.shadowCasters.None? && light.log == []
    ensures light.shadowMapUniforms == NoUniforms && light.shadowRenderUniforms == NoUniforms
  {
    light := new DynamicLight(origin);
    light.Init();
  }

  /** Once allocated, exactly three targets are live: one of each kind. */
  lemma OneTargetPerKind(l: DynamicLight)
    requires l.Valid() && l.occlusionMap.Some?
    ensures |l.live| == 3
    ensures l.live == {l.occlusionMap.value.texture, l.shadowMap1D.value.texture, l.finalShadowMap.value.texture}
  {
    var o, s, f := l.occlusionMap.value.texture, l.shadowMap1D.value.texture, l.finalShadowMap.value.texture;
    assert o != s && o != f && s != f by {
      assert o in IdOf(l.occlusionMap) && s in IdOf(l.shadowMap1D) && f in IdOf(l.finalShadowMap);
    }
    assert l.live == {o, s, f};
  }
}
