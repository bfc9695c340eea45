/** Short client sessions against the `DynamicLight` class, each stating what
    its sequence of calls leaves behind. */
module Scenarios {
  import opened LightTypes
  import opened RenderPasses
  import LightCache
  import opened DynamicLightNode

  /** A light drawn before any caster is set only clears its occlusion
      target, then submits the final sprite. */
  method FirstDrawWithoutCaster(origin: Point) returns (events: seq<Event>)
    ensures |events| == 3
    ensures events[..2] == [Clear(Occlusion, Transparent), End(Occlusion)]
    ensures Passes(events[..2]) == Some([Occlusion])
    ensures events[2].Submit?
  {
    var light := Create(origin);
    light.Draw();
    events := light.log;
    RebuildPassOrder(None, light.position, light.lightSize, PreparedForReduction(light.occlusionMapSprite.value, light.position));
    assert events[..2] == RebuildLog(None, light.position, light.lightSize,
                                     PreparedForReduction(light.occlusionMapSprite.value, light.position));
  }

  /** A new light given a caster holds a wrapper where the caster stands,
      and is stale with nothing rendered yet. */
  method CreateWithCaster(origin: Point, caster: CasterNode) returns (light: DynamicLight)
    ensures fresh(light)
    ensures light.Valid() && light.Ready()
    ensures light.shadowCasters == Some(caster) && !light.bakedMapIsValid && light.log == []
  {
    light := Create(origin);
    LightCache.SetterChangesOnlyItsField(light.Cache(), LightCache.SetShadowCasters);
    light.SetShadowCasters(caster);
  }

  /** With a caster set, the first draw renders the occlusion pass and then
      the reduction pass, and submits the final sprite. */
  method FirstDrawWithCaster(origin: Point, caster: CasterNode) returns (events: seq<Event>)
    ensures |events| == 7 && events[6].Submit?
    ensures Passes(events[..6]) == Some([Occlusion, ShadowMap1D])
  {
    var light := CreateWithCaster(origin, caster);
    ghost var passes := light.PendingPasses();
    RebuildLogLength(PlacementOf(light.shadowCasters), light.position, light.lightSize,
                     PreparedForReduction(light.occlusionMapSprite.value, light.position));
    RebuildPassOrder(PlacementOf(light.shadowCasters), light.position, light.lightSize,
                     PreparedForReduction(light.occlusionMapSprite.value, light.position));
    light.Draw();
    events := light.log;
    assert events == passes + [Submit(light.finalShadowMapSprite.value)];
    assert events[..6] == passes;
  }

  /** A second draw with nothing changed in between renders no pass: it only
      submits the same final sprite again. */
  method RedrawOnlySubmits(origin: Point) returns (first: seq<Event>, second: seq<Event>)
    ensures |first| == 3
    ensures second == [first[2]]
  {
    var light := Create(origin);
    assert light.log == [] && !light.bakedMapIsValid;
    light.Draw();
    assert light.bakedMapIsValid && |light.log| == 3;
    first := light.log;
    light.Draw();
    second := light.log[|first|..];
  }

  /** Resizing a new light to its default size allocates nothing. */
  method ResizeToDefault(origin: Point) returns (allocations: nat)
    ensures allocations == 3
  {
    var light := Create(origin);
    light.SetLightSize(256);
    allocations := light.nextTextureId;
  }

  /** A size beyond the maximum is stored clamped; since the comparison is on
      the raw argument, asking again for it still reallocates and invalidates. */
  method OversizeReallocates(origin: Point) returns (size: int, allocations: nat, baked: bool)
    ensures size == LightCache.MaxLightSize
    ensures allocations == 9
    ensures !baked
  {
    var light := Create(origin);
    assert light.lightSize == 256 && light.nextTextureId == 3;
    light.SetLightSize(1500);
    size, allocations := light.lightSize, light.nextTextureId;
    assert size == LightCache.MaxLightSize && allocations == 6;
    ghost var before := light.Cache();
    LightCache.SetterChangesOnlyItsField(before, LightCache.SetLightSize(1500));
    light.SetLightSize(1500);
    size, allocations, baked := light.lightSize, light.nextTextureId, light.bakedMapIsValid;
  }

  /** With the default update frequency of 0, a drawn light's cache is
      invalidated by any move to a new position. */
  method MoveAfterFirstDraw(origin: Point, p: Point) returns (baked: bool)
    ensures baked <==> p == origin
  {
    var light := Create(origin);
    light.Draw();
    light.SetPosition(p);
    baked := light.bakedMapIsValid;
  }
}
