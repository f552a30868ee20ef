/** Sprite models (r_sprite.c): choosing the frame a sprite entity shows,
    packing one point record per sprite into a fixed-size batch that is
    drawn with a single texture, and the per-frame batch counters. */
module Sprites {
  import opened Common

  /** `MAX_SPRITES`: capacity of the batch. */
  const MaxSprites: nat := 1024 * 8

  /** A texture object, compared by identity (`gltexture_t *`); `None` is NULL. */
  type Texture = nat

  /** One picture of a sprite (`mspriteframe_t`): its texture, the rectangle
      it covers around the origin, and the used fraction of the texture. */
  datatype SpriteFrame = SpriteFrame(texture: Option<Texture>,
                                     left: real, down: real, right: real, up: real,
                                     smax: real, tmax: real)

  /** An entry of the sprite's frame table: a single frame, or a group that
      cycles through its frames at cumulative times `intervals`. */
  datatype FrameDesc =
    | Single(frame: SpriteFrame)
    | Group(frames: seq<SpriteFrame>, intervals: seq<real>)

  /** The orientation modes of a sprite model; any other stored value is `Unknown`. */
  datatype Orientation =
    | VpParallelUpright
    | FacingUpright
    | VpParallel
    | Oriented
    | VpParallelOriented
    | Unknown(code: int)

  /** `msprite_t`: orientation mode and frame table. */
  datatype Sprite = Sprite(orientation: Orientation, frames: seq<FrameDesc>)

  /** What the model loader guarantees of a frame-table entry: a group has
      as many positive intervals as frames, at least one of each. */
  ghost predicate EntryLoaded(d: FrameDesc)
  {
    d.Group? ==>
      && 1 <= |d.frames| == |d.intervals|
      && forall k :: 0 <= k < |d.intervals| ==> d.intervals[k] > 0.0
  }

  /** What the model loader guarantees of a sprite: at least one frame,
      every entry loaded. */
  ghost predicate Loaded(s: Sprite)
  {
    |s.frames| >= 1 && forall d :: d in s.frames ==> EntryLoaded(d)
  }

  // ---------------------------------------------------------------------
  // Frame selection (R_GetSpriteFrame)
  // ---------------------------------------------------------------------

  /** C's `(int)` conversion of a non-integral value: toward zero. */
  function Truncate(x: real): (q: int)
    ensures 0.0 <= x ==> q as real <= x < q as real + 1.0
    ensures x < 0.0 ==> q as real - 1.0 < x <= q as real
  {
    if x >= 0.0 then x.Floor else -((-x).Floor)
  }

  /** The time within one cycle of a group: `time` minus a whole number of
      cycles of length `full`, the number truncated toward zero. */
  function TargetTime(time: real, full: real): (t: real)
    requires full > 0.0
    ensures 0.0 <= time ==> 0.0 <= t < full
    ensures time < 0.0 ==> -full < t <= 0.0
  {
    var q := Truncate(time / full);
    DivMul(time, full);
    Window(time, full, time / full, q);
    time - q as real * full
  }

  /** Scaling `q <= x < q + 1` (or its mirror) by `full`, where `x` is
      `time / full`. */
  lemma Window(time: real, full: real, x: real, q: int)
    requires full > 0.0 && x * full == time
    requires 0.0 <= x ==> q as real <= x < q as real + 1.0
    requires x < 0.0 ==> q as real - 1.0 < x <= q as real
    ensures 0.0 <= time ==> 0.0 <= time - q as real * full < full
    ensures time < 0.0 ==> -full < time - q as real * full <= 0.0
  {
    var r := q as real;
    Below(x, 0.0, full, 0.0);
    Above(0.0, x, full, 0.0);
    Shift(r, full);
    if 0.0 <= time {
      Below(r, x, full, time);
      Above(x, r + 1.0, full, time);
      Between(time, r * full, (r + 1.0) * full, full);
    } else {
      Below(r - 1.0, x, full, time);
      Above(x, r, full, time);
      BetweenBelow(time, (r - 1.0) * full, r * full, full);
    }
  }

  /** `lo <= t < lo + full` puts `t` within `full` above `lo`. */
  lemma Between(t: real, lo: real, hi: real, full: real)
    requires lo <= t < hi && hi == lo + full
    ensures 0.0 <= t - lo < full
  {
  }

  /** `hi - full < t <= hi` puts `t` within `full` below `hi`. */
  lemma BetweenBelow(t: real, lo: real, hi: real, full: real)
    requires lo < t <= hi && lo == hi - full
    ensures -full < t - hi <= 0.0
  {
  }

  /** Dividing by a non-zero number and multiplying back is the identity. */
  lemma DivMul(a: real, c: real)
    requires c != 0.0
    ensures (a / c) * c == a
  {
  }

  /** One more or one fewer copy of `c`. */
  lemma Shift(r: real, c: real)
    ensures (r + 1.0) * c == r * c + c
    ensures (r - 1.0) * c == r * c - c
  {
  }

  /** A number below `b` scales to below `t`, the scaled `b`. */
  lemma Below(a: real, b: real, c: real, t: real)
    requires c > 0.0 && b * c == t
    ensures a <= b ==> a * c <= t
    ensures a < b ==> a * c < t
  {
    Scaled(a, b, c);
  }

  /** A number above `a` scales to above `t`, the scaled `a`. */
  lemma Above(a: real, b: real, c: real, t: real)
    requires c > 0.0 && a * c == t
    ensures a <= b ==> t <= b * c
    ensures a < b ==> t < b * c
  {
    Scaled(a, b, c);
  }

  /** Multiplying by a positive number keeps order. */
  lemma Scaled(a: real, b: real, c: real)
    requires c > 0.0
    ensures a <= b ==> a * c <= b * c
    ensures a < b ==> a * c < b * c
  {
    assert b * c - a * c == (b - a) * c;
  }

  /** The frame-group search: the first index from `i` whose interval ends
      after `target`, or the last index when none does before it. */
  function SearchFrom(intervals: seq<real>, target: real, i: nat): (k: nat)
    requires i < |intervals|
    decreases |intervals| - i
    ensures i <= k < |intervals|
    ensures forall j :: i <= j < k ==> intervals[j] <= target
    ensures k < |intervals| - 1 ==> intervals[k] > target
  {
    if i == |intervals| - 1 || intervals[i] > target then i
    else SearchFrom(intervals, target, i + 1)
  }

  /** Which table entry a requested frame number uses: out-of-range numbers use 0. */
  function FrameSlot(s: Sprite, frame: int): (slot: nat)
    requires Loaded(s)
    ensures slot < |s.frames|
  {
    if frame >= |s.frames| || frame < 0 then 0 else frame
  }

  /** The frame entry `d` shows at time `time`: a group shows the slot
      the search picks for the time within its cycle. */
  ghost function EntryFrame(d: FrameDesc, time: real): SpriteFrame
    requires EntryLoaded(d)
  {
    match d
    case Single(f) => f
    case Group(fs, iv) => fs[SearchFrom(iv, TargetTime(time, iv[|iv| - 1]), 0)]
  }

  /** The frame shown for frame number `frame` at time `time` (the client
      time plus the entity's sync offset). */
  ghost function SelectedFrame(s: Sprite, frame: int, time: real): SpriteFrame
    requires Loaded(s)
  {
    var d := s.frames[FrameSlot(s, frame)];
    assert d in s.frames;
    EntryFrame(d, time)
  }

  /** The search loop over a group's intervals. */
  method GroupIndex(intervals: seq<real>, target: real) returns (i: nat)
    requires |intervals| >= 1
    ensures i == SearchFrom(intervals, target, 0)
  {
    i := 0;
    while i < |intervals| - 1
      invariant i < |intervals|
      invariant SearchFrom(intervals, target, i) == SearchFrom(intervals, target, 0)
    {
      if intervals[i] > target {
        break;
      }
      i := i + 1;
    }
  }

  method GetEntryFrame(d: FrameDesc, time: real) returns (f: SpriteFrame)
    requires EntryLoaded(d)
    ensures f == EntryFrame(d, time)
  {
    match d
    case Single(sf) =>
      f := sf;
    case Group(fs, iv) =>
      var full := iv[|iv| - 1];
      var target := TargetTime(time, full);
      var i := GroupIndex(iv, target);
      f := fs[i];
  }

  method GetSpriteFrame(s: Sprite, frame: int, time: real) returns (f: SpriteFrame)
    requires Loaded(s)
    ensures f == SelectedFrame(s, frame, time)
  {
    var slot := frame;
    if frame >= |s.frames| || frame < 0 {
      slot := 0;
    }
    assert s.frames[slot] in s.frames;
    f := GetEntryFrame(s.frames[slot], time);
  }

  /** A frame number outside the table shows the same as frame 0. */
  lemma OutOfRangeUsesFirst(s: Sprite, frame: int, time: real)
    requires Loaded(s)
    ensures !(0 <= frame < |s.frames|) ==> SelectedFrame(s, frame, time) == SelectedFrame(s, 0, time)
    ensures 0 <= frame < |s.frames| && s.frames[frame].Single? ==>
              SelectedFrame(s, frame, time) == s.frames[frame].frame
  {
  }

  /** Intervals that keep growing: each group frame ends after the previous one. */
  ghost predicate Increasing(iv: seq<real>)
  {
    forall a, b :: 0 <= a < b < |iv| ==> iv[a] < iv[b]
  }

  /** Slot `k` of a group is on screen at cycle time `t` exactly when `t`
      lies between the end of the previous slot and the end of `k`. */
  ghost predicate InWindow(iv: seq<real>, k: nat, t: real)
    requires k < |iv|
  {
    (k == 0 || iv[k - 1] <= t) && t < iv[k]
  }

  /** With growing intervals and a cycle time inside the cycle, the search
      finds precisely the slot whose window holds that time. */
  lemma SearchIsWindow(iv: seq<real>, t: real, k: nat)
    requires |iv| >= 1 && Increasing(iv)
    requires 0.0 <= t < iv[|iv| - 1]
    requires k < |iv|
    ensures SearchFrom(iv, t, 0) == k <==> InWindow(iv, k, t)
  {
    var i := SearchFrom(iv, t, 0);
    if i < |iv| - 1 {
      assert iv[i] > t;
    }
    assert InWindow(iv, i, t);
  }

  /** A group's cycle time for a non-negative time always lies inside the
      cycle, so the frame shown is the one whose window holds it. */
  lemma GroupShowsWindow(d: FrameDesc, time: real)
    requires EntryLoaded(d) && d.Group? && 0.0 <= time
    requires Increasing(d.intervals)
    ensures var t := TargetTime(time, d.intervals[|d.intervals| - 1]);
            exists k :: 0 <= k < |d.frames| && InWindow(d.intervals, k, t) &&
                        EntryFrame(d, time) == d.frames[k]
  {
    var t := TargetTime(time, d.intervals[|d.intervals| - 1]);
    var k := SearchFrom(d.intervals, t, 0);
    SearchIsWindow(d.intervals, t, k);
    assert InWindow(d.intervals, k, t);
  }

  /** Adding one whole cycle to a non-negative time leaves the cycle time unchanged. */
  lemma TargetTimePeriodic(time: real, full: real)
    requires full > 0.0 && 0.0 <= time
    ensures TargetTime(time + full, full) == TargetTime(time, full)
  {
    var x := time / full;
    var y := (time + full) / full;
    assert x * full == time;
    assert y * full == time + full;
    var e := y - x - 1.0;
    assert e * full == 0.0;
    Scaled(e, 0.0, full);
    Scaled(0.0, e, full);
    assert 0.0 * full == 0.0;
    assert e == 0.0;
    assert y.Floor == x.Floor + 1;
    assert (x.Floor as real + 1.0) * full == x.Floor as real * full + full;
  }

  /** A group animation repeats with period equal to its last interval. */
  lemma GroupPeriodic(d: FrameDesc, time: real)
    requires EntryLoaded(d) && d.Group? && 0.0 <= time
    ensures EntryFrame(d, time + d.intervals[|d.intervals| - 1]) == EntryFrame(d, time)
  {
    TargetTimePeriodic(time, d.intervals[|d.intervals| - 1]);
  }

  // ---------------------------------------------------------------------
  // The point record (r_spr_vertex_t) and its attribute layout
  // ---------------------------------------------------------------------

  /** Floats in one record: pos, up, right, color, frame_bounds (4 each), smax, tmax. */
  const VertexFloats: nat := 22

  /** One record of the batch, as the floats it occupies in the vertex buffer. */
  type SpriteVertex = v: seq<real> | |v| == 22 witness seq(22, _ => 0.0)

  /** The record the batcher writes. The fourth components of `up` and
      `right` are never written; the batch is zero-initialised static
      storage, so they hold 0. */
  function MakeVertex(origin: Vec3, scale: real, up: Vec3, right: Vec3,
                      frame: SpriteFrame, color: Vec3): SpriteVertex
  {
    [origin[0], origin[1], origin[2], scale,
     up[0], up[1], up[2], 0.0,
     right[0], right[1], right[2], 0.0,
     color[0], color[1], color[2], 1.0,
     frame.left, frame.down, frame.right, frame.up,
     frame.smax, frame.tmax]
  }

  /** First float of vertex attribute `loc` as the flush binds it. */
  function AttribOffset(loc: nat): (o: nat)
    requires loc < 6
    ensures o + AttribSize(loc) <= VertexFloats
  {
    4 * loc
  }

  /** Component count of vertex attribute `loc`. */
  function AttribSize(loc: nat): nat
    requires loc < 6
  {
    if loc == 5 then 2 else 4
  }

  /** The floats the shader receives for attribute `loc` of a record. */
  function Attribute(v: SpriteVertex, loc: nat): seq<real>
    requires loc < 6
  {
    v[AttribOffset(loc)..AttribOffset(loc) + AttribSize(loc)]
  }

  /** What the shader reads back from a record is what the batcher stored:
      position with the scale in w, the two axes, the colour with alpha 1,
      the frame rectangle (left, down, right, up) and the texture extents. */
  lemma VertexRoundTrip(origin: Vec3, scale: real, up: Vec3, right: Vec3,
                        frame: SpriteFrame, color: Vec3)
    ensures var v := MakeVertex(origin, scale, up, right, frame, color);
            && Attribute(v, 0) == origin + [scale]
            && Attribute(v, 1)[..3] == up
            && Attribute(v, 2)[..3] == right
            && Attribute(v, 3) == color + [1.0]
            && Attribute(v, 4) == [frame.left, frame.down, frame.right, frame.up]
            && Attribute(v, 5) == [frame.smax, frame.tmax]
  {
    var v := MakeVertex(origin, scale, up, right, frame, color);
    assert Attribute(v, 0) == [origin[0], origin[1], origin[2], scale];
    assert Attribute(v, 1) == [up[0], up[1], up[2], 0.0];
    assert up == [up[0], up[1], up[2]];
    assert Attribute(v, 2) == [right[0], right[1], right[2], 0.0];
    assert right == [right[0], right[1], right[2]];
    assert Attribute(v, 3) == [color[0], color[1], color[2], 1.0];
  }

  // ---------------------------------------------------------------------
  // Requests and draw calls
  // ---------------------------------------------------------------------

  /** A sprite handed to the batcher, with the texture of its frame. */
  datatype Request = Request(texture: Option<Texture>, vertex: SpriteVertex)

  /** One draw call of the flush: a texture and the records drawn with it. */
  datatype Draw = Draw(texture: Texture, vertices: seq<SpriteVertex>)

  /** Records `vs`, each tagged with texture `t`. */
  function Requests(t: Option<Texture>, vs: seq<SpriteVertex>): (r: seq<Request>)
    ensures |r| == |vs|
  {
    if vs == [] then [] else Requests(t, vs[..|vs| - 1]) + [Request(t, vs[|vs| - 1])]
  }

  /** The `i`-th request is the `i`-th record with the batch texture. */
  lemma {:induction false} RequestsAt(t: Option<Texture>, vs: seq<SpriteVertex>, i: nat)
    requires i < |vs|
    ensures Requests(t, vs)[i] == Request(t, vs[i])
    decreases |vs|
  {
    if i < |vs| - 1 {
      RequestsAt(t, vs[..|vs| - 1], i);
    }
  }

  /** The requests that can be drawn: those whose frame has a texture. */
  function Drawable(rs: seq<Request>): seq<Request>
  {
    if rs == [] then []
    else Drawable(rs[..|rs| - 1]) + (if rs[|rs| - 1].texture.Some? then [rs[|rs| - 1]] else [])
  }

  /** The sprites drawn by a sequence of draw calls, each with its call's texture. */
  function Flatten(ds: seq<Draw>): seq<Request>
  {
    if ds == [] then []
    else Flatten(ds[..|ds| - 1]) + Requests(Some(ds[|ds| - 1].texture), ds[|ds| - 1].vertices)
  }

  lemma FlattenAppend(ds: seq<Draw>, d: Draw)
    ensures Flatten(ds + [d]) == Flatten(ds) + Requests(Some(d.texture), d.vertices)
  {
    DropAppend(ds, d, 0);
  }

  /** The draw calls a flush of batch `vs` with texture `t` issues: none when
      the batch is empty or has no texture, one otherwise. */
  function FlushOf(t: Option<Texture>, vs: seq<SpriteVertex>): (ds: seq<Draw>)
    ensures |ds| <= 1
    ensures ds != [] <==> vs != [] && t.Some?
  {
    if vs == [] || t.None? then [] else [Draw(t.value, vs)]
  }

  lemma {:induction false} DrawableAppend(a: seq<Request>, b: seq<Request>)
    ensures Drawable(a + b) == Drawable(a) + Drawable(b)
    decreases |b|
  {
    if b == [] {
      assert a + b == a;
    } else {
      assert (a + b)[..|a + b| - 1] == a + b[..|b| - 1];
      DrawableAppend(a, b[..|b| - 1]);
    }
  }

  /** Drawable keeps every request of a textured batch and none of an untextured one. */
  lemma {:induction false} DrawableBatch(t: Option<Texture>, vs: seq<SpriteVertex>)
    ensures Drawable(Requests(t, vs)) == if t.Some? then Requests(t, vs) else []
    decreases |vs|
  {
    if vs != [] {
      var r := Requests(t, vs);
      assert r[..|r| - 1] == Requests(t, vs[..|vs| - 1]);
      DrawableBatch(t, vs[..|vs| - 1]);
    }
  }

  /** Flushing a batch draws exactly its drawable requests. */
  lemma FlushDraws(ds: seq<Draw>, t: Option<Texture>, vs: seq<SpriteVertex>)
    ensures Flatten(ds + FlushOf(t, vs)) == Flatten(ds) + Drawable(Requests(t, vs))
  {
    DrawableBatch(t, vs);
    if FlushOf(t, vs) == [] {
      assert ds + FlushOf(t, vs) == ds;
    } else {
      assert (ds + FlushOf(t, vs))[..|ds|] == ds;
    }
  }

  lemma RequestsAppend(t: Option<Texture>, vs: seq<SpriteVertex>, v: SpriteVertex)
    ensures Requests(t, vs + [v]) == Requests(t, vs) + [Request(t, v)]
  {
    assert (vs + [v])[..|vs|] == vs;
  }

  /** The draw log holds exactly the drawable requests that left the batch. */
  ghost predicate Agrees(sent: seq<Request>, draws: seq<Draw>)
  {
    Drawable(sent) == Flatten(draws)
  }

  /** Every draw call holds between 1 and `MaxSprites` records. */
  ghost predicate Bounded(draws: seq<Draw>)
  {
    forall i :: 0 <= i < |draws| ==> 1 <= |draws[i].vertices| <= MaxSprites
  }

  /** Records drawn by a sequence of draw calls. */
  function Count(ds: seq<Draw>): nat
  {
    if ds == [] then 0 else Count(ds[..|ds| - 1]) + |ds[|ds| - 1].vertices|
  }

  /** The count is the number of sprites the calls draw. */
  lemma {:induction false} CountIsFlatten(ds: seq<Draw>)
    ensures Count(ds) == |Flatten(ds)|
    decreases |ds|
  {
    if ds != [] {
      CountIsFlatten(ds[..|ds| - 1]);
    }
  }

  /** The counters describe the draw calls after the first `mark` ones, which
      drew `before` records. */
  ghost predicate Counted(draws: seq<Draw>, mark: nat, before: nat, batches: nat, sprites: nat)
  {
    && mark <= |draws|
    && batches == |draws| - mark
    && before + sprites == Count(draws)
  }

  /** A flush that draws `vs` with texture `t` keeps the log consistent. */
  lemma DrawStep(sent: seq<Request>, draws: seq<Draw>, t: Texture, vs: seq<SpriteVertex>)
    requires Agrees(sent, draws)
    ensures Agrees(sent + Requests(Some(t), vs), draws + [Draw(t, vs)])
  {
    DrawableAppend(sent, Requests(Some(t), vs));
    DrawableBatch(Some(t), vs);
    FlattenAppend(draws, Draw(t, vs));
  }

  lemma BoundStep(draws: seq<Draw>, d: Draw)
    requires Bounded(draws) && 1 <= |d.vertices| <= MaxSprites
    ensures Bounded(draws + [d])
  {
    DropAppend(draws, d, 0);
  }

  /** One more draw call of `|d.vertices|` records adds one to each counter's share. */
  lemma CountStep(draws: seq<Draw>, mark: nat, before: nat, batches: nat, sprites: nat, d: Draw)
    requires Counted(draws, mark, before, batches, sprites)
    ensures Counted(draws + [d], mark, before, batches + 1, sprites + |d.vertices|)
  {
    DropAppend(draws, d, 0);
  }

  /** The ghost history of the batch: the requests that have left it
      (drawn or dropped) in order, the draw calls issued in order, and the
      number of draw calls and of records they drew when the counters were
      last reset. */
  datatype Log = Log(sent: seq<Request>, draws: seq<Draw>, mark: nat, before: nat)

  /** The whole consistency of the log and the counters. */
  ghost predicate Logged(log: Log, batches: nat, sprites: nat)
  {
    && Agrees(log.sent, log.draws)
    && Bounded(log.draws)
    && Counted(log.draws, log.mark, log.before, batches, sprites)
  }

  /** The log after a flush of batch `vs` with texture `t`. */
  function Flushed(log: Log, t: Option<Texture>, vs: seq<SpriteVertex>): Log
  {
    log.(sent := log.sent + Requests(t, vs), draws := log.draws + FlushOf(t, vs))
  }

  /** The log after the counters are reset. */
  function Reset(log: Log): Log
  {
    log.(mark := |log.draws|, before := Count(log.draws))
  }

  /** A flush that draws nothing keeps the log consistent and the counters. */
  lemma DropStep(log: Log, batches: nat, sprites: nat, t: Option<Texture>, vs: seq<SpriteVertex>)
    requires Logged(log, batches, sprites)
    requires vs == [] || t.None?
    ensures Logged(Flushed(log, t, vs), batches, sprites)
  {
    DrawableAppend(log.sent, Requests(t, vs));
    DrawableBatch(t, vs);
    assert log.draws + FlushOf(t, vs) == log.draws;
  }

  /** A flush that draws `vs` keeps the log consistent and adds one call and
      `|vs|` records to the counters. */
  lemma IssueStep(log: Log, batches: nat, sprites: nat, t: Option<Texture>, vs: seq<SpriteVertex>)
    requires Logged(log, batches, sprites)
    requires t.Some? && 1 <= |vs| <= MaxSprites
    ensures Logged(Flushed(log, t, vs), batches + 1, sprites + |vs|)
  {
    var d := Draw(t.value, vs);
    assert FlushOf(t, vs) == [d];
    DrawStep(log.sent, log.draws, t.value, vs);
    BoundStep(log.draws, d);
    CountStep(log.draws, log.mark, log.before, batches, sprites, d);
  }

  /** Resetting the counters starts a new count at the end of the log. */
  lemma ResetStep(log: Log, batches: nat, sprites: nat)
    requires Logged(log, batches, sprites)
    ensures Logged(Reset(log), 0, 0)
  {
  }

  // ---------------------------------------------------------------------
  // The batch (r_spr_batch_t plus the frame counters)
  // ---------------------------------------------------------------------

  class SpriteBatch {
    /** Texture of the sprites currently batched. */
    var texture: Option<Texture>
    /** Records in use at the front of `verts`. */
    var numSprites: nat
    /** The fixed record buffer. */
    const verts: array<SpriteVertex>
    /** `frame_batches` and `frame_sprites`: draw calls and sprites since the last report. */
    var frameBatches: nat
    var frameSprites: nat
    /** What has left the batch so far. */
    ghost var log: Log

    ghost predicate Valid()
      reads this
    {
      && verts.Length == MaxSprites
      && numSprites <= MaxSprites
      && Logged(log, frameBatches, frameSprites)
    }

    /** The batched requests, each with the batch texture. */
    ghost function Pending(): seq<Request>
      reads this, verts
      requires numSprites <= verts.Length
    {
      Requests(texture, verts[..numSprites])
    }

    /** Every request handed to the batcher so far, in order. */
    ghost function Submitted(): seq<Request>
      reads this, verts
      requires numSprites <= verts.Length
    {
      log.sent + Pending()
    }

    constructor ()
      ensures Valid() && fresh(verts)
      ensures texture == None && numSprites == 0
      ensures frameBatches == 0 && frameSprites == 0
      ensures log.draws == [] && Submitted() == []
    {
      texture := None;
      numSprites := 0;
      verts := new SpriteVertex[MaxSprites](_ => seq(22, _ => 0.0));
      frameBatches := 0;
      frameSprites := 0;
      log := Log([], [], 0, 0);
    }

    /** Draw the batch if it holds sprites and has a texture, count it, and
        empty it in every case. */
    method FlushSprites()
      requires Valid()
      modifies this`numSprites, this`frameBatches, this`frameSprites, this`log
      ensures Valid()
      ensures numSprites == 0
      ensures log == Flushed(old(log), old(texture), old(verts[..numSprites]))
      ensures Submitted() == old(Submitted())
      ensures Flatten(log.draws) == Drawable(Submitted())
      ensures FlushOf(old(texture), old(verts[..numSprites])) == [] ==>
                frameBatches == old(frameBatches) && frameSprites == old(frameSprites)
      ensures FlushOf(old(texture), old(verts[..numSprites])) != [] ==>
                frameBatches == old(frameBatches) + 1 &&
                frameSprites == old(frameSprites) + old(numSprites)
    {
      ghost var batch := verts[..numSprites];
      if numSprites == 0 || texture.None? {
        DropStep(log, frameBatches, frameSprites, texture, batch);
        log := Flushed(log, texture, batch);
      } else {
        IssueStep(log, frameBatches, frameSprites, texture, batch);
        log := Flushed(log, texture, batch);
        frameBatches := frameBatches + 1;
        frameSprites := frameSprites + numSprites;
      }
      numSprites := 0;
      assert Pending() == [];
      assert Submitted() == log.sent + [] == log.sent;
    }

    /** Add one sprite: flush first when its frame's texture differs from the
        batch texture or the batch is full, then adopt the frame's texture
        and append the record. */
    method BatchSprite(origin: Vec3, scale: real, up: Vec3, right: Vec3,
                       frame: SpriteFrame, color: Vec3)
      requires Valid()
      modifies this, verts
      ensures Valid()
      ensures texture == frame.texture && 1 <= numSprites <= MaxSprites
      ensures Submitted() ==
                old(Submitted()) + [Request(frame.texture, MakeVertex(origin, scale, up, right, frame, color))]
      ensures frame.texture == old(texture) && old(numSprites) < MaxSprites ==>
                numSprites == old(numSprites) + 1 && log.draws == old(log.draws)
      ensures !(frame.texture == old(texture) && old(numSprites) < MaxSprites) ==>
                numSprites == 1 &&
                log.draws == old(log.draws) + FlushOf(old(texture), old(verts[..numSprites]))
    {
      if frame.texture != texture || numSprites >= MaxSprites {
        FlushSprites();
        texture := frame.texture;
        assert Pending() == [];
      }
      Append(MakeVertex(origin, scale, up, right, frame, color));
    }

    /** Store one record at the end of a batch that has room. */
    method Append(v: SpriteVertex)
      requires Valid() && numSprites < MaxSprites
      modifies this, verts
      ensures Valid()
      ensures numSprites == old(numSprites) + 1
      ensures Submitted() == old(Submitted()) + [Request(texture, v)]
      ensures texture == old(texture) && log.draws == old(log.draws)
    {
      ghost var batch := verts[..numSprites];
      verts[numSprites] := v;
      assert verts[..numSprites + 1] == batch + [v];
      RequestsAppend(texture, batch, v);
      numSprites := numSprites + 1;
    }

    /** Report the counters and reset them for the next frame. */
    method PrintSpriteInfo()
      requires Valid()
      modifies this
      ensures Valid()
      ensures frameBatches == 0 && frameSprites == 0
      ensures log == Reset(old(log)) && Submitted() == old(Submitted())
      ensures texture == old(texture) && numSprites == old(numSprites)
    {
      ResetStep(log, frameBatches, frameSprites);
      frameBatches := 0;
      frameSprites := 0;
      log := Reset(log);
    }

    /** Draw one sprite entity: choose its frame, its axes from the
        orientation mode and its scale and colour, and batch it; an unknown
        orientation mode batches nothing. */
    method DrawSpriteModel(s: Sprite, frame: int, time: real, origin: Vec3,
                           netScale: int, colormod: seq<int>, view: View, ent: EntityAxes)
      requires Valid() && Loaded(s) && |colormod| == 3
      modifies this, verts
      ensures Valid()
      ensures Axes(s.orientation, view, ent).None? ==>
                Submitted() == old(Submitted()) && log.draws == old(log.draws)
      ensures Axes(s.orientation, view, ent).Some? ==>
                var (up, right) := Axes(s.orientation, view, ent).value;
                var f := SelectedFrame(s, frame, time);
                Submitted() == old(Submitted()) +
                  [Request(f.texture, MakeVertex(origin, SpriteScale(netScale), up, right, f,
                                                 ColorOf(colormod)))]
    {
      var f := GetSpriteFrame(s, frame, time);
      var axes := Axes(s.orientation, view, ent);
      if axes.None? {
        return;
      }
      var scale := SpriteScale(netScale);
      BatchSprite(origin, scale, axes.value.0, axes.value.1, f, ColorOf(colormod));
    }
  }

  // ---------------------------------------------------------------------
  // Orientation, scale and colour of a sprite entity (R_DrawSpriteModel)
  // ---------------------------------------------------------------------

  /** The camera's up and right vectors. */
  datatype View = View(vup: Vec3, vright: Vec3)

  /** The per-entity inputs the orientation modes derive from, computed
      with floating-point trigonometry outside this model: the normalised
      horizontal direction from the camera to the entity, the entity's own
      up and right vectors from its angles, and the sine and cosine of its roll. */
  datatype EntityAxes = EntityAxes(forward: Vec3, angleUp: Vec3, angleRight: Vec3,
                                   rollSin: real, rollCos: real)

  const WorldUp: Vec3 := [0.0, 0.0, 1.0]

  /** A quarter turn of `f` about the vertical axis, dropping its height. */
  function QuarterTurn(f: Vec3): Vec3
  {
    [f[1], -f[0], 0.0]
  }

  /** `a * ca + b * cb`, component by component. */
  function Blend(a: Vec3, ca: real, b: Vec3, cb: real): Vec3
  {
    [a[0] * ca + b[0] * cb, a[1] * ca + b[1] * cb, a[2] * ca + b[2] * cb]
  }

  /** The (up, right) axes a sprite is drawn with, or `None` for an unknown mode. */
  function Axes(o: Orientation, view: View, ent: EntityAxes): (r: Option<(Vec3, Vec3)>)
    ensures r.None? <==> o.Unknown?
    ensures (o == VpParallelUpright || o == FacingUpright) ==> r.value.0 == WorldUp
    ensures o == FacingUpright ==> r.value.1[2] == 0.0
  {
    match o
    case VpParallelUpright => Some((WorldUp, view.vright))
    case FacingUpright => Some((WorldUp, QuarterTurn(ent.forward)))
    case VpParallel => Some((view.vup, view.vright))
    case Oriented => Some((ent.angleUp, ent.angleRight))
    case VpParallelOriented =>
      Some((Blend(view.vright, -ent.rollSin, view.vup, ent.rollCos),
            Blend(view.vright, ent.rollCos, view.vup, ent.rollSin)))
    case Unknown(_) => None
  }

  /** The roll-oriented mode with no roll draws like the view-parallel mode. */
  lemma NoRollIsParallel(view: View, ent: EntityAxes)
    requires ent.rollSin == 0.0 && ent.rollCos == 1.0
    ensures Axes(VpParallelOriented, view, ent) == Axes(VpParallel, view, ent)
  {
    var u := Blend(view.vright, -ent.rollSin, view.vup, ent.rollCos);
    var r := Blend(view.vright, ent.rollCos, view.vup, ent.rollSin);
    assert u == [view.vup[0], view.vup[1], view.vup[2]] == view.vup;
    assert r == [view.vright[0], view.vright[1], view.vright[2]] == view.vright;
  }

  /** The facing-upright right axis is the horizontal forward direction
      turned a quarter turn, so it is perpendicular to it. */
  lemma FacingRightPerpendicular(view: View, ent: EntityAxes)
    ensures var right := Axes(FacingUpright, view, ent).value.1;
            right[0] * ent.forward[0] + right[1] * ent.forward[1] == 0.0
  {
  }

  /** The sprite scale from the entity's network scale byte, 16 meaning 1. */
  function SpriteScale(netScale: int): (scale: real)
    ensures scale == netScale as real / 16.0
    ensures scale > 0.0 <==> netScale > 0
  {
    if netScale != 16 then netScale as real / 16.0 else 1.0
  }

  /** The colour from the entity's colour modulation bytes, 32 meaning 1. */
  function ColorOf(colormod: seq<int>): (c: Vec3)
    requires |colormod| == 3
    ensures forall i :: 0 <= i < 3 ==> c[i] * 32.0 == colormod[i] as real
  {
    [colormod[0] as real / 32.0, colormod[1] as real / 32.0, colormod[2] as real / 32.0]
  }
}
