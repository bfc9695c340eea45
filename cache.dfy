/** The dirty/rebake cache of a dynamic light, as a pure state machine.

    `State` holds the part of the light node that decides whether the baked
    shadow map may be reused: the validity flag, the move throttle and every
    shadow-affecting property.  `Step` gives the effect of one public
    operation of the node; the node's methods are proved to follow it. */
module LightCache {
  import opened LightTypes

  /** Largest light size accepted by `setLightSize`; larger values are clamped. */
  const MaxLightSize: int := 1200

  datatype State = State(
    baked: bool,            // bakedMapIsValid
    updateCount: int,
    updateFrequency: int,
    lightSize: int,
    upScale: real,
    accuracy: real,
    softShadows: bool,
    additive: bool,
    color: Color4B,
    position: Point)

  /** The node's operations, as seen by the cache. */
  datatype Op =
    | Init
    | Move(to: Point)
    | SetSoftShadows(soft: bool)
    | SetLightSize(size: int)
    | SetUpScale(scale: real)
    | SetAccuracy(acc: real)
    | SetAdditive(add: bool)
    | SetColor(tint: Color4B)
    | SetShadowCasters
    | Draw

  /** The member initialisers of a new light; `origin` is the position the
      base node starts at. */
  function Defaults(origin: Point): State
  {
    State(false, 0, 0, 256, 1.0, 1.0, true, true, Color4B(64, 130, 77, 255), origin)
  }

  /** Clamps a requested light size into [0, MaxLightSize]. */
  function Clamp(n: int): (r: int)
    ensures 0 <= r <= MaxLightSize
    ensures 0 <= n <= MaxLightSize ==> r == n
    ensures n < 0 ==> r == 0
    ensures n > MaxLightSize ==> r == MaxLightSize
  {
    if n < 0 then 0 else if n > MaxLightSize then MaxLightSize else n
  }

  /** Holds when `op` finds its argument equal to the stored value (or, for
      `Draw`, a valid cache) and so leaves the state alone. */
  predicate IsNoOp(s: State, op: Op)
  {
    match op
    case Init => false
    case Move(p) => p == s.position
    case SetSoftShadows(b) => b == s.softShadows
    case SetLightSize(n) => n == s.lightSize
    case SetUpScale(u) => u == s.upScale
    case SetAccuracy(a) => a == s.accuracy
    case SetAdditive(b) => b == s.additive
    case SetColor(c) => c == s.color
    case SetShadowCasters => false
    case Draw => s.baked
  }

  /** The effect of one operation on the cache state. */
  function Step(s: State, op: Op): State
  {
    match op
    case Init => s.(baked := false)
    case Move(p) =>
      if p == s.position then s
      else if s.updateCount + 1 > s.updateFrequency then s.(position := p, updateCount := 0, baked := false)
      else s.(position := p, updateCount := s.updateCount + 1)
    case SetSoftShadows(b) =>
      if b != s.softShadows then s.(softShadows := b, baked := false) else s
    case SetLightSize(n) =>
      // the comparison is on the raw argument, before clamping
      if n != s.lightSize then s.(lightSize := Clamp(n), baked := false) else s
    case SetUpScale(u) =>
      if u != s.upScale then s.(upScale := u, baked := false) else s
    case SetAccuracy(a) =>
      if a != s.accuracy then s.(accuracy := a, baked := false) else s
    case SetAdditive(b) =>
      if b != s.additive then s.(additive := b, baked := false) else s
    case SetColor(c) =>
      if c != s.color then s.(color := c, baked := false) else s
    case SetShadowCasters => s.(baked := false)
    case Draw => s.(baked := true)
  }

  /** What each operation does to the cache: equal values are ignored, only
      a draw validates, every other effective change but a move invalidates,
      a move invalidates once the counter passes the frequency, and the
      throttle window and the size range are kept. */
  lemma StepFacts(s: State, op: Op)
    // equal values are ignored
    ensures IsNoOp(s, op) ==> Step(s, op) == s
    // a draw always leaves the cache valid, and nothing else makes it valid
    ensures op.Draw? ==> Step(s, op).baked
    ensures !op.Draw? && Step(s, op).baked ==> s.baked
    // every effective mutation other than a move invalidates
    ensures !op.Draw? && !op.Move? && !IsNoOp(s, op) ==> !Step(s, op).baked
    // a move invalidates exactly when the incremented counter exceeds the frequency
    ensures op.Move? && !IsNoOp(s, op) ==>
              Step(s, op).position == op.to &&
              (Step(s, op).baked <==> s.baked && s.updateCount + 1 <= s.updateFrequency)
    // the throttle window and the size range are preserved
    ensures Step(s, op).updateFrequency == s.updateFrequency
    ensures 0 <= s.updateCount <= s.updateFrequency ==> 0 <= Step(s, op).updateCount <= Step(s, op).updateFrequency
    ensures 0 <= s.lightSize <= MaxLightSize ==> 0 <= Step(s, op).lightSize <= MaxLightSize
  {
  }

  /** Each property setter that is not a no-op changes its own field, clears
      the validity flag and touches nothing else. */
  lemma SetterChangesOnlyItsField(s: State, op: Op)
    requires !IsNoOp(s, op)
    ensures op.SetSoftShadows? ==> Step(s, op) == s.(softShadows := op.soft, baked := false)
    ensures op.SetLightSize? ==> Step(s, op) == s.(lightSize := Clamp(op.size), baked := false)
    ensures op.SetUpScale? ==> Step(s, op) == s.(upScale := op.scale, baked := false)
    ensures op.SetAccuracy? ==> Step(s, op) == s.(accuracy := op.acc, baked := false)
    ensures op.SetAdditive? ==> Step(s, op) == s.(additive := op.add, baked := false)
    ensures op.SetColor? ==> Step(s, op) == s.(color := op.tint, baked := false)
    ensures op.SetShadowCasters? ==> Step(s, op) == s.(baked := false)
  {
  }

  /** The state after a sequence of operations. */
  function Run(s: State, ops: seq<Op>): State
    decreases |ops|
  {
    if ops == [] then s else Run(Step(s, ops[0]), ops[1..])
  }

  /** 1 when the cache is stale, 0 when it is valid. */
  function Stale(s: State): nat
  {
    if s.baked then 0 else 1
  }

  /** How many of `ops` are draws that rebuild the shadow map. */
  function Rebuilds(s: State, ops: seq<Op>): nat
    decreases |ops|
  {
    if ops == [] then 0
    else (if ops[0].Draw? && !s.baked then 1 else 0) + Rebuilds(Step(s, ops[0]), ops[1..])
  }

  /** How many of `ops` turn a valid cache stale. */
  function Invalidations(s: State, ops: seq<Op>): nat
    decreases |ops|
  {
    if ops == [] then 0
    else (if s.baked && !Step(s, ops[0]).baked then 1 else 0) + Invalidations(Step(s, ops[0]), ops[1..])
  }

  lemma {:induction false} RunSnoc(s: State, ops: seq<Op>, op: Op)
    ensures Run(s, ops + [op]) == Step(Run(s, ops), op)
    decreases |ops|
  {
    if ops != [] {
      assert (ops + [op])[1..] == ops[1..] + [op];
      RunSnoc(Step(s, ops[0]), ops[1..], op);
    }
  }

  /** Rebuild once per invalidation: every rebuild is paid for by the stale
      start or by an invalidation, and a cache still stale at the end holds one
      invalidation not yet rebuilt. */
  lemma {:induction false} RebuildAccounting(s: State, ops: seq<Op>)
    ensures Rebuilds(s, ops) + Stale(Run(s, ops)) == Stale(s) + Invalidations(s, ops)
    decreases |ops|
  {
    if ops != [] {
      StepFacts(s, ops[0]);
      RebuildAccounting(Step(s, ops[0]), ops[1..]);
    }
  }

  /** Drawing again and again without any mutation in between rebuilds at
      most once: only when the cache was stale to begin with. */
  lemma {:induction false} RedrawIsFree(s: State, ops: seq<Op>)
    requires forall i :: 0 <= i < |ops| ==> ops[i].Draw?
    ensures Rebuilds(s, ops) == if ops == [] then 0 else Stale(s)
    ensures ops != [] ==> Run(s, ops) == s.(baked := true)
    decreases |ops|
  {
    if ops != [] {
      var t := Step(s, ops[0]);
      RedrawIsFree(t, ops[1..]);
      assert t == s.(baked := true);
    }
  }

  /** After any draw the cache is valid. */
  lemma DrawLeavesCacheValid(s: State, ops: seq<Op>)
    requires ops != [] && ops[|ops| - 1].Draw?
    ensures Run(s, ops).baked
  {
    var pre := ops[..|ops| - 1];
    assert ops == pre + [ops[|ops| - 1]];
    RunSnoc(s, pre, ops[|ops| - 1]);
    StepFacts(Run(s, pre), ops[|ops| - 1]);
  }

  /** The cache is valid only if it was valid from the start with nothing
      invalidating it since, or some draw rebuilt it and nothing invalidated
      it after that draw. */
  lemma {:induction false} BakedOnlyAfterDraw(s: State, ops: seq<Op>)
    requires Run(s, ops).baked
    ensures (s.baked && Invalidations(s, ops) == 0) ||
            exists k :: 0 <= k < |ops| && ops[k].Draw? &&
                        Invalidations(Run(s, ops[..k + 1]), ops[k + 1..]) == 0
    decreases |ops|
  {
    if ops != [] {
      var t, rest := Step(s, ops[0]), ops[1..];
      StepFacts(s, ops[0]);
      BakedOnlyAfterDraw(t, rest);
      if t.baked && Invalidations(t, rest) == 0 {
        if ops[0].Draw? {
          assert ops[..1] == [ops[0]];
          assert Run(s, ops[..1]) == Run(t, []);
        } else {
          assert s.baked;
        }
      } else {
        var k' :| 0 <= k' < |rest| && rest[k'].Draw? &&
                  Invalidations(Run(t, rest[..k' + 1]), rest[k' + 1..]) == 0;
        var k := k' + 1;
        assert ops[..k + 1][1..] == rest[..k' + 1];
        assert ops[k + 1..] == rest[k' + 1..];
        assert ops[k] == rest[k'];
      }
    }
  }

  /** A run of moves, each to a position different from the one before. */
  predicate DistinctMoves(from: Point, ops: seq<Op>)
    decreases |ops|
  {
    ops == [] || (ops[0].Move? && ops[0].to != from && DistinctMoves(ops[0].to, ops[1..]))
  }

  /** Moves inside the throttle window only count; the cache keeps its state. */
  lemma {:induction false} ThrottleWindow(s: State, ops: seq<Op>)
    requires DistinctMoves(s.position, ops)
    requires s.updateCount + |ops| <= s.updateFrequency
    ensures Run(s, ops).baked == s.baked
    ensures Run(s, ops).updateCount == s.updateCount + |ops|
    ensures Run(s, ops).updateFrequency == s.updateFrequency
    ensures ops != [] ==> ops[|ops| - 1].Move? && Run(s, ops).position == ops[|ops| - 1].to
    decreases |ops|
  {
    if ops != [] {
      StepFacts(s, ops[0]);
      ThrottleWindow(Step(s, ops[0]), ops[1..]);
    }
  }

  /** The move that takes the counter past the frequency invalidates the cache
      and resets the counter. */
  lemma ThrottleFires(s: State, ops: seq<Op>)
    requires DistinctMoves(s.position, ops) && ops != []
    requires s.updateCount + |ops| == s.updateFrequency + 1
    ensures !Run(s, ops).baked
    ensures Run(s, ops).updateCount == 0
  {
    var pre, last := ops[..|ops| - 1], ops[|ops| - 1];
    assert ops == pre + [last];
    DistinctMovesPrefix(s.position, ops);
    ThrottleWindow(s, pre);
    RunSnoc(s, pre, last);
    var mid := Run(s, pre);
    assert mid.position != last.to by {
      if pre == [] { assert mid == s; }
    }
    assert mid.updateCount + 1 > mid.updateFrequency;
    StepFacts(mid, last);
  }

  lemma {:induction false} DistinctMovesPrefix(from: Point, ops: seq<Op>)
    requires DistinctMoves(from, ops) && ops != []
    ensures DistinctMoves(from, ops[..|ops| - 1])
    ensures ops[|ops| - 1].Move?
    ensures |ops| == 1 ==> ops[0].to != from
    ensures |ops| > 1 ==> ops[|ops| - 2].Move? && ops[|ops| - 1].to != ops[|ops| - 2].to
    decreases |ops|
  {
    if |ops| > 1 {
      DistinctMovesPrefix(ops[0].to, ops[1..]);
      assert ops[..|ops| - 1][1..] == ops[1..][..|ops| - 2];
    }
  }

  /** A new light is stale, so its first draw rebuilds. */
  lemma FirstDrawRebuilds(origin: Point)
    ensures !Defaults(origin).baked
    ensures Rebuilds(Defaults(origin), [Draw]) == 1
  {
  }

  /** With the default tunables every distinct move invalidates the cache. */
  lemma DefaultMoveInvalidates(origin: Point, p: Point)
    requires p != origin
    ensures !Step(Step(Defaults(origin), Draw), Move(p)).baked
    ensures Step(Step(Defaults(origin), Draw), Move(p)).updateCount == 0
  {
  }
}
