/** The offscreen pipeline of a dynamic light, as values: render targets,
    sprites, the log of render-pass events a rebuild produces, the shader
    uniforms it sets, and the coordinate arithmetic of the occlusion pass.
    The GPU work behind each event is not modelled. */
module RenderPasses {
  import opened LightTypes

  /** The three render targets a light owns. */
  datatype Kind = Occlusion | ShadowMap1D | FinalShadowMap

  /** An offscreen colour buffer; `texture` identifies the allocation. */
  datatype RenderTarget = RenderTarget(texture: nat, width: int, height: int)

  /** Height of the 1D shadow map: the smallest texture height some devices accept. */
  const MinTextureHeight: int := 16

  datatype Program = DefaultProgram | ShadowMapProgram | ShadowRenderProgram

  /** `DefaultBlend` is a new sprite's blend function; `SrcColorOne` is
      (GL_SRC_COLOR, GL_ONE). */
  datatype BlendFunc = DefaultBlend | SrcColorOne

  /** The state of a sprite that draws one target's texture. */
  datatype Sprite = Sprite(
    texture: nat,
    tint: Color3B,
    anchor: Point,
    position: Point,
    flippedY: bool,
    program: Program,
    blend: BlendFunc)

  /** The anchor and position of the shadow-caster wrapper. */
  datatype Placement = Placement(anchor: Point, position: Point)

  /** A shadow caster handed to the light by the host: always a sprite. */
  datatype CasterNode = CasterNode(texture: nat, anchor: Point, position: Point)

  /** What is drawn into a target: the caster wrapper, or the prepared
      occlusion sprite. */
  datatype Drawn = Caster(placement: Placement) | Reduction(sprite: Sprite)

  /** One render-pass event: a target is cleared and opened, drawn into, closed;
      or the final sprite is submitted into the frame. */
  datatype Event =
    | Clear(target: Kind, color: Color4F)
    | DrawInto(target: Kind, item: Drawn)
    | End(target: Kind)
    | Submit(sprite: Sprite)

  /** The values a shader program's uniforms have been given: `resolution`,
      `upScale`, `accuracy`, `softShadows`, and the textures bound to
      `u_texture` and `u_texture2`; None until first set. */
  datatype Uniforms = Uniforms(
    resolution: Option<Point>,
    upScale: Option<real>,
    accuracy: Option<real>,
    softShadows: Option<real>,
    texture: Option<nat>,
    texture2: Option<nat>)

  const NoUniforms: Uniforms := Uniforms(None, None, None, None, None, None)

  /** A sprite freshly created on a texture, with the engine's defaults. */
  function NewSprite(texture: nat): Sprite
  {
    Sprite(texture, White, Point(0.5, 0.5), Point(0.0, 0.0), false, DefaultProgram, DefaultBlend)
  }

  /** Conversion of a float to an int: truncation toward zero. */
  function TruncToInt(r: real): (n: int)
    ensures 0.0 <= r ==> 0 <= n && n as real <= r < n as real + 1.0
    ensures r < 0.0 ==> n <= 0 && n as real - 1.0 < r <= n as real
  {
    if r >= 0.0 then r.Floor else -((-r).Floor)
  }

  /** The size of the final shadow map: the light size times the up-scale. */
  function ScaledSize(lightSize: int, upScale: real): real
  {
    lightSize as real * upScale
  }

  /** Integer division by two, truncating toward zero. */
  function Half(n: int): (h: int)
    ensures 0 <= n ==> 0 <= 2 * h <= n < 2 * h + 2
    ensures n < 0 ==> 2 * h - 2 < n <= 2 * h <= 0
  {
    if n >= 0 then n / 2 else -((-n) / 2)
  }

  /** The caster's position relative to the occlusion target, whose lower-left
      corner sits half a light size below and left of the light. */
  function ToLightLocal(caster: Point, light: Point, lightSize: int): (r: Point)
    ensures r.x + (light.x - Half(lightSize) as real) == caster.x
    ensures r.y + (light.y - Half(lightSize) as real) == caster.y
    ensures caster == light ==> r == Point(Half(lightSize) as real, Half(lightSize) as real)
  {
    Point(caster.x - (light.x - Half(lightSize) as real), caster.y - (light.y - Half(lightSize) as real))
  }

  /** The occlusion sprite as set up to be drawn through the shadow-map shader. */
  function PreparedForReduction(s: Sprite, light: Point): Sprite
  {
    s.(flippedY := true, anchor := Point(0.0, 0.0), position := Point(-light.x, -light.y),
       program := ShadowMapProgram)
  }

  /** The final sprite as set up to composite the shadow map. */
  function Composite(s: Sprite, light: Point, lightSize: int): Sprite
  {
    s.(tint := White, program := ShadowRenderProgram, anchor := Point(0.5, 0.5),
       position := Point((-light.x + Half(lightSize) as real) / 2.0, (-light.y + Half(lightSize) as real) / 2.0),
       blend := SrcColorOne)
  }

  /** The events of a rebuild: the occlusion pass, then, when a caster is set,
      the 1D reduction pass drawing `reduction`. */
  function RebuildLog(caster: Option<Placement>, light: Point, lightSize: int, reduction: Sprite): seq<Event>
  {
    match caster
    case None => [Clear(Occlusion, Transparent), End(Occlusion)]
    case Some(c) =>
      [Clear(Occlusion, Transparent),
       DrawInto(Occlusion, Caster(Placement(c.anchor, ToLightLocal(c.position, light, lightSize)))),
       End(Occlusion)]
      + [Clear(ShadowMap1D, Transparent), DrawInto(ShadowMap1D, Reduction(reduction)), End(ShadowMap1D)]
  }

  /** A rebuild renders two passes of three events each with a caster, and
      one pass of two events without. */
  lemma RebuildLogLength(caster: Option<Placement>, light: Point, lightSize: int, reduction: Sprite)
    ensures |RebuildLog(caster, light, lightSize, reduction)| == if caster.Some? then 6 else 2
  {
  }

  /** The rest of `events` after the draws into `t` and the `End(t)` that
      close an open pass on `t`; None if the pass is not closed properly. */
  function PassBody(events: seq<Event>, t: Kind): (rest: Option<seq<Event>>)
    ensures rest.Some? ==> |rest.value| < |events|
    decreases |events|
  {
    if events == [] then None
    else match events[0]
      case DrawInto(k, _) => if k == t then PassBody(events[1..], t) else None
      case End(k) => if k == t then Some(events[1..]) else None
      case _ => None
  }

  /** The targets of the passes `events` consists of, in order, when it is a
      sequence of non-overlapping passes Clear(t) DrawInto(t, _)* End(t). */
  function Passes(events: seq<Event>): Option<seq<Kind>>
    decreases |events|
  {
    if events == [] then Some([])
    else match events[0]
      case Clear(t, _) =>
        (match PassBody(events[1..], t)
         case None => None
         case Some(rest) =>
           (match Passes(rest)
            case None => None
            case Some(ks) => Some([t] + ks)))
      case _ => None
  }

  lemma {:induction false} PassBodyAppend(a: seq<Event>, b: seq<Event>, t: Kind)
    requires PassBody(a, t).Some?
    ensures PassBody(a + b, t) == Some(PassBody(a, t).value + b)
    decreases |a|
  {
    assert (a + b)[0] == a[0];
    if a[0].DrawInto? {
      assert (a + b)[1..] == a[1..] + b;
      PassBodyAppend(a[1..], b, t);
    } else {
      assert (a + b)[1..] == a[1..] + b;
    }
  }

  /** Two logs made of whole passes concatenate to the concatenation of their
      passes. */
  lemma {:induction false} PassesAppend(a: seq<Event>, b: seq<Event>)
    requires Passes(a).Some? && Passes(b).Some?
    ensures Passes(a + b) == Some(Passes(a).value + Passes(b).value)
    decreases |a|
  {
    if a == [] {
      assert a + b == b;
      assert Passes(a).value + Passes(b).value == Passes(b).value;
    } else {
      var t := a[0].target;
      var rest := PassBody(a[1..], t).value;
      assert (a + b)[0] == a[0];
      assert (a + b)[1..] == a[1..] + b;
      assert a[0].Clear? && PassBody(a[1..], t).Some?;
      assert Passes(rest).Some? && Passes(a).value == [t] + Passes(rest).value;
      PassBodyAppend(a[1..], b, t);
      assert PassBody((a + b)[1..], t) == Some(rest + b);
      PassesAppend(rest, b);
      assert Passes(a + b) == Some([t] + Passes(rest + b).value);
      assert [t] + (Passes(rest).value + Passes(b).value) == ([t] + Passes(rest).value) + Passes(b).value;
    }
  }

  /** A rebuild is a sequence of whole passes: the occlusion pass ends before
      the 1D pass begins, and without a caster the 1D pass does not happen. */
  lemma RebuildPassOrder(caster: Option<Placement>, light: Point, lightSize: int, reduction: Sprite)
    ensures caster.Some? ==> Passes(RebuildLog(caster, light, lightSize, reduction)) == Some([Occlusion, ShadowMap1D])
    ensures caster.None? ==> Passes(RebuildLog(caster, light, lightSize, reduction)) == Some([Occlusion])
  {
    if caster.Some? {
      var c := caster.value;
      var occ := [Clear(Occlusion, Transparent),
                  DrawInto(Occlusion, Caster(Placement(c.anchor, ToLightLocal(c.position, light, lightSize)))),
                  End(Occlusion)];
      var red := [Clear(ShadowMap1D, Transparent), DrawInto(ShadowMap1D, Reduction(reduction)), End(ShadowMap1D)];
      assert PassBody(occ[1..], Occlusion) == Some([]) by {
        assert occ[1..][1..] == [End(Occlusion)];
      }
      assert Passes([]) == Some([]);
      assert Passes(occ) == Some([Occlusion] + []);
      assert [Occlusion] + [] == [Occlusion];
      assert PassBody(red[1..], ShadowMap1D) == Some([]) by {
        assert red[1..][1..] == [End(ShadowMap1D)];
      }
      assert Passes(red) == Some([ShadowMap1D] + []);
      assert [ShadowMap1D] + [] == [ShadowMap1D];
      PassesAppend(occ, red);
      assert RebuildLog(caster, light, lightSize, reduction) == occ + red;
      assert [Occlusion] + [ShadowMap1D] == [Occlusion, ShadowMap1D];
    } else {
      var log := RebuildLog(caster, light, lightSize, reduction);
      assert log == [Clear(Occlusion, Transparent), End(Occlusion)];
      assert log[1..] == [End(Occlusion)];
      assert log[1..][1..] == [];
      assert PassBody(log[1..], Occlusion) == Some([]);
      assert Passes([]) == Some([]);
      assert Passes(log) == Some([Occlusion] + []);
      assert [Occlusion] + [] == [Occlusion];
    }
  }

  /** Without a caster a rebuild only clears the occlusion target to fully
      transparent; nothing is drawn and no other target is touched. */
  lemma NoCasterClearsOcclusionOnly(light: Point, lightSize: int, reduction: Sprite)
    ensures forall e | e in RebuildLog(None, light, lightSize, reduction) ::
              !e.Submit? && !e.DrawInto? && e.target == Occlusion
    ensures forall e | e in RebuildLog(None, light, lightSize, reduction) && e.Clear? :: e.color == Transparent
  {
  }

  /** With a caster the occlusion pass draws the wrapper at its light-local
      position and leaves the anchor as it was. */
  lemma CasterDrawnInLightSpace(c: Placement, light: Point, lightSize: int, reduction: Sprite)
    ensures exists e :: e in RebuildLog(Some(c), light, lightSize, reduction) && e.DrawInto? &&
              e.target == Occlusion && e.item.Caster? && e.item.placement.anchor == c.anchor &&
              e.item.placement.position.x + (light.x - Half(lightSize) as real) == c.position.x &&
              e.item.placement.position.y + (light.y - Half(lightSize) as real) == c.position.y
  {
    assert RebuildLog(Some(c), light, lightSize, reduction)[1] ==
           DrawInto(Occlusion, Caster(Placement(c.anchor, ToLightLocal(c.position, light, lightSize))));
  }

  /** The shadow-map shader's uniforms after a rebuild pushes them: the
      resolution of the light, and the constant 1.0 for up-scale and accuracy
      whatever the node's own up-scale and accuracy are. */
  function ReductionUniforms(u: Uniforms, lightSize: int): (r: Uniforms)
    ensures r.resolution == Some(Point(lightSize as real, lightSize as real))
    ensures r.upScale == Some(1.0) && r.accuracy == Some(1.0)
    // the other uniforms are left as they were
    ensures r.softShadows == u.softShadows && r.texture == u.texture && r.texture2 == u.texture2
  {
    u.(resolution := Some(Point(lightSize as real, lightSize as real)), upScale := Some(1.0), accuracy := Some(1.0))
  }

  /** The render shader's uniforms after a rebuild pushes them: the resolution
      and the soft-shadow switch as 1.0 or 0.0. */
  function CompositeUniforms(u: Uniforms, lightSize: int, softShadows: bool): (r: Uniforms)
    ensures r.resolution == Some(Point(lightSize as real, lightSize as real))
    ensures r.softShadows == Some(if softShadows then 1.0 else 0.0)
    // the other uniforms are left as they were
    ensures r.upScale == u.upScale && r.accuracy == u.accuracy && r.texture == u.texture && r.texture2 == u.texture2
  {
    u.(resolution := Some(Point(lightSize as real, lightSize as real)),
       softShadows := Some(if softShadows then 1.0 else 0.0))
  }
}
