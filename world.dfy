/** World surfaces (r_world.c): the per-texture surface chains rebuilt from the
    potentially visible set, and the fixed index buffer that batches the
    triangle fans of the chained surfaces into draw calls. */
module World {
  import opened Common
  import opened ShadowLights

  // ---------------------------------------------------------------------------
  // Surfaces, textures and their chains
  // ---------------------------------------------------------------------------

  /** `texchain_t`: each texture keeps one chain for the world and one for
      brush entities. */
  datatype ChainSlot = WorldChain | ModelChain

  /** The two chain heads of a texture, each read head first. */
  datatype Chains = Chains(world: seq<Surface>, model: seq<Surface>)
  {
    function Get(slot: ChainSlot): seq<Surface>
    {
      match slot
      case WorldChain => world
      case ModelChain => model
    }

    function Set(slot: ChainSlot, surfs: seq<Surface>): (r: Chains)
      ensures r.Get(slot) == surfs
      ensures forall other :: other != slot ==> r.Get(other) == Get(other)
    {
      match slot
      case WorldChain => this.(world := surfs)
      case ModelChain => this.(model := surfs)
    }

    /** A second write to a slot replaces the first. */
    lemma SetTwice(slot: ChainSlot, a: seq<Surface>, b: seq<Surface>)
      ensures Set(slot, a).Set(slot, b) == Set(slot, b)
    {
    }
  }

  /** The surface flags the chain loop looks at (`SURF_DRAWTILED`,
      `SURF_NOTEXTURE`, `SURF_DRAWTURB`, `SURF_DRAWFENCE`). */
  datatype SurfFlags = SurfFlags(tiled: bool, noTexture: bool, turb: bool, fence: bool)

  /** `texture_t`: only its chain heads change while drawing. */
  class Texture {
    var chains: Chains

    constructor ()
      ensures chains == Chains([], [])
    {
      chains := Chains([], []);
    }
  }

  /** `msurface_t`: its texture (through `texinfo`), its polygon's edge count,
      its first vertex in the world vertex buffer, its lightmap and its flags
      are fixed once the map is loaded; `visframe` is restamped each time the
      surface is marked. */
  class Surface {
    const texture: Texture
    const numEdges: int
    const firstVert: int
    const lightmap: nat
    const flags: SurfFlags
    var visframe: int

    constructor (texture: Texture, numEdges: int, firstVert: int, lightmap: nat, flags: SurfFlags)
      ensures this.texture == texture && this.numEdges == numEdges && this.firstVert == firstVert
      ensures this.lightmap == lightmap && this.flags == flags && visframe == 0
    {
      this.texture := texture;
      this.numEdges := numEdges;
      this.firstVert := firstVert;
      this.lightmap := lightmap;
      this.flags := flags;
      visframe := 0;
    }
  }

  /** `lightmaps[i]`: the surfaces whose polygons are chained on the lightmap
      for dynamic-light updates. */
  class Lightmap {
    var polys: seq<Surface>

    constructor ()
      ensures polys == []
    {
      polys := [];
    }
  }

  /** A visible leaf of the world: the surfaces it marks. */
  datatype Leaf = Leaf(marks: seq<Surface>)

  /** The parts of `cl.worldmodel` the marking reads: its texture table (with
      holes), its visible leaves (`leafs[1 ..= numleafs]`, so that leaf `i`
      here is bit `i` of a PVS) and all of its surfaces. */
  datatype WorldModel = WorldModel(textures: seq<Texture?>, leaves: seq<Leaf>, surfaces: seq<Surface>)
  {
    /** Every marked surface is one of the world's surfaces and every
        surface's texture is in the texture table. */
    ghost predicate WellFormed()
    {
      (forall i, s :: 0 <= i < |leaves| && s in leaves[i].marks ==> s in surfaces)
      && (forall s :: s in surfaces ==> s.texture in textures)
    }
  }

  /** R_ChainSurface: push the surface onto the head of its texture's chain in
      `slot`; nothing else changes. */
  method ChainSurface(s: Surface, slot: ChainSlot)
    modifies s.texture`chains
    ensures s.texture.chains == old(s.texture.chains).Set(slot, [s] + old(s.texture.chains.Get(slot)))
  {
    s.texture.chains := s.texture.chains.Set(slot, [s] + s.texture.chains.Get(slot));
  }

  /** The first loop of R_ClearTextureChains, also inlined at the start of
      R_MarkSurfacesForLightShadowMap: empty chain `slot` of every texture
      of the table. */
  method ClearChainSlot(textures: seq<Texture?>, slot: ChainSlot)
    modifies textures`chains
    ensures forall k :: 0 <= k < |textures| && textures[k] != null ==>
              textures[k].chains == old(textures[k].chains).Set(slot, [])
  {
    var i := 0;
    while i < |textures|
      invariant 0 <= i <= |textures|
      invariant forall k :: 0 <= k < |textures| && textures[k] != null ==>
                  textures[k].chains == if textures[k] in textures[..i] then old(textures[k].chains).Set(slot, [])
                                        else old(textures[k].chains)
    {
      if textures[i] != null {
        textures[i].chains := textures[i].chains.Set(slot, []);
      }
      assert textures[..i + 1] == textures[..i] + [textures[i]];
      i := i + 1;
    }
  }

  /** R_ClearTextureChains: empty chain `slot` of every texture, and the
      polygon chain of each of the first `lightmapCount` lightmaps. */
  method ClearTextureChains(textures: seq<Texture?>, slot: ChainSlot, lightmaps: seq<Lightmap>)
    modifies textures`chains, lightmaps`polys
    ensures forall k :: 0 <= k < |textures| && textures[k] != null ==>
              textures[k].chains == old(textures[k].chains).Set(slot, [])
    ensures forall k :: 0 <= k < |lightmaps| ==> lightmaps[k].polys == []
  {
    ClearChainSlot(textures, slot);
    var i := 0;
    while i < |lightmaps|
      invariant 0 <= i <= |lightmaps|
      invariant forall k :: 0 <= k < i ==> lightmaps[k].polys == []
      invariant forall k :: 0 <= k < |textures| && textures[k] != null ==>
                  textures[k].chains == old(textures[k].chains).Set(slot, [])
    {
      lightmaps[i].polys := [];
      i := i + 1;
    }
  }

  // ---------------------------------------------------------------------------
  // The potentially visible set and the marked surfaces
  // ---------------------------------------------------------------------------

  /** `vis[i >> 3] & (1 << (i & 7))`: whether leaf `i` is in the PVS. */
  predicate VisBit(vis: seq<bv8>, i: nat)
    requires i / 8 < |vis|
  {
    vis[i / 8] & (1 << (i % 8)) != 0
  }

  /** With every byte `0xff` (Mod_NoVisPVS) every leaf is visible. */
  lemma NoVisShowsAll(vis: seq<bv8>, i: nat)
    requires i / 8 < |vis| && forall j :: 0 <= j < |vis| ==> vis[j] == 0xff
    ensures VisBit(vis, i)
  {
    var k := i % 8;
    assert vis[i / 8] == 0xff;
    if k == 0 {} else if k == 1 {} else if k == 2 {} else if k == 3 {}
    else if k == 4 {} else if k == 5 {} else if k == 6 {} else {}
  }

  /** A surface is among the marks exactly when some visible leaf marks it. */
  lemma {:induction false} MarksMembers(vis: seq<bv8>, leaves: seq<Leaf>, n: nat, s: Surface)
    requires n <= |leaves| && |leaves| <= 8 * |vis|
    ensures s in Marks(vis, leaves, n) <==> exists i :: 0 <= i < n && VisBit(vis, i) && s in leaves[i].marks
  {
    if n > 0 {
      MarksMembers(vis, leaves, n - 1, s);
    }
  }

  /** Adding to `acc` the elements of `xs` not met before keeps every element
      and leaves none twice. */
  lemma {:induction false} FirstSeenMembers(acc: seq<Surface>, xs: seq<Surface>)
    ensures forall x :: x in FirstSeen(acc, xs) <==> x in acc || x in xs
    ensures NoDup(acc) ==> NoDup(FirstSeen(acc, xs))
    decreases |xs|
  {
    if xs != [] {
      FirstSeenMembers(Added(acc, xs[0]), xs[1..]);
      assert xs == [xs[0]] + xs[1..];
    }
  }

  /** Feeding `a + b` is feeding `a`, then `b`. */
  lemma {:induction false} FirstSeenConcat(acc: seq<Surface>, a: seq<Surface>, b: seq<Surface>)
    ensures FirstSeen(acc, a + b) == FirstSeen(FirstSeen(acc, a), b)
    decreases |a|
  {
    if a == [] {
      assert a + b == b;
    } else {
      assert (a + b)[0] == a[0] && (a + b)[1..] == a[1..] + b;
      FirstSeenConcat(Added(acc, a[0]), a[1..], b);
    }
  }

  /** The surfaces on texture `t` are those of `surfs` whose texture is `t`. */
  lemma {:induction false} OnTextureMembers(surfs: seq<Surface>, t: Texture, s: Surface)
    ensures s in OnTexture(surfs, t) <==> s in surfs && s.texture == t
  {
    if surfs != [] {
      var init := surfs[..|surfs| - 1];
      OnTextureMembers(init, t, s);
      assert surfs == init + [surfs[|surfs| - 1]];
    }
  }

  /** The surfaces of the PVS-visible leaves among the first `n`, leaf by
      leaf, with repetitions. */
  function Marks(vis: seq<bv8>, leaves: seq<Leaf>, n: nat): seq<Surface>
    requires n <= |leaves| && |leaves| <= 8 * |vis|
  {
    if n == 0 then []
    else Marks(vis, leaves, n - 1) + (if VisBit(vis, n - 1) then leaves[n - 1].marks else [])
  }

  /** `x` appended to `acc` unless already there. */
  function Added(acc: seq<Surface>, x: Surface): (r: seq<Surface>)
    ensures x in r && acc <= r && |r| <= |acc| + 1
    ensures NoDup(acc) ==> NoDup(r)
  {
    if x in acc then acc else acc + [x]
  }

  /** `acc` followed by the elements of `xs` it does not hold yet, each where
      it first occurs. */
  function FirstSeen(acc: seq<Surface>, xs: seq<Surface>): seq<Surface>
    decreases |xs|
  {
    if xs == [] then acc else FirstSeen(Added(acc, xs[0]), xs[1..])
  }

  /** The surfaces of `surfs` that use texture `t`, in order. */
  function OnTexture(surfs: seq<Surface>, t: Texture): (r: seq<Surface>)
    ensures |r| <= |surfs|
  {
    if surfs == [] then []
    else OnTexture(surfs[..|surfs| - 1], t) + (if surfs[|surfs| - 1].texture == t then [surfs[|surfs| - 1]] else [])
  }

  /** The PVS a light's surfaces are marked from: everything for the sun,
      the PVS of the leaf holding the light otherwise. */
  function LightPVS(kind: LightKind, position: Vec3, noVis: seq<bv8>, leafPVS: Vec3 -> seq<bv8>): seq<bv8>
  {
    match kind
    case Sun => noVis
    case Spot => leafPVS(position)
    case Point => leafPVS(position)
  }

  lemma OnTextureAppend(surfs: seq<Surface>, s: Surface, t: Texture)
    ensures OnTexture(surfs + [s], t) == OnTexture(surfs, t) + (if s.texture == t then [s] else [])
  {
    assert (surfs + [s])[..|surfs|] == surfs;
  }

  /** Pushing a surface on a chain that lists `surfs` newest first gives the
      chain listing `surfs + [s]` newest first. */
  lemma PushIsReverseAppend(surfs: seq<Surface>, s: Surface)
    ensures [s] + Reverse(surfs) == Reverse(surfs + [s])
  {
    ReverseAppend(surfs, [s]);
    assert Reverse([s]) == [s] by { assert [s][1..] == []; }
  }

  /** What the world pass asks of GL, in order. */
  datatype WorldEvent =
    | DrawElements(elements: seq<int>)
    | BindSurfaceTexture(texture: Texture)
    | BindLightmap(lightmap: nat)
    | AlphaTest(on: bool)

  /** `MAX_BATCH_SIZE`. */
  const MaxBatchSize: nat := 4096

  // ---------------------------------------------------------------------------
  // Triangle fans and the index batch
  // ---------------------------------------------------------------------------

  /** R_NumTriangleIndicesForSurf: `3 * (numedges - 2)` as an `unsigned int`. */
  function NumTriangleIndices(numEdges: int): (r: nat)
    ensures r < 0x1_0000_0000
  {
    (3 * (numEdges - 2)) % 0x1_0000_0000
  }

  /** Index `k` of the fan list: every third index is the polygon's first
      vertex, the other two the ends of edge `k / 3 + 1`. */
  function FanEntry(first: int, k: nat): int
  {
    if k % 3 == 0 then first else first + k / 3 + k % 3
  }

  /** R_TriangleIndicesForSurf: the triangles `(first, first + i - 1,
      first + i)` for `i = 2 .. n - 1`. */
  function Fan(first: int, n: int): (r: seq<int>)
    ensures |r| == if n <= 2 then 0 else 3 * (n - 2)
    decreases n
  {
    if n <= 2 then [] else Fan(first, n - 1) + [first, first + n - 2, first + n - 1]
  }

  /** Index `k` of the fan is triangle `k / 3`'s corner `k % 3`. */
  lemma {:induction false} FanAt(first: int, n: int, k: nat)
    requires k < |Fan(first, n)|
    ensures Fan(first, n)[k] == FanEntry(first, k)
    decreases n
  {
    if k < 3 * (n - 3) {
      FanAt(first, n - 1, k);
    } else {
      assert k / 3 == n - 3 && k % 3 == k - 3 * (n - 3);
    }
  }

  /** The fan writes as many indices as R_NumTriangleIndicesForSurf counts,
      and each names a vertex of the polygon. */
  lemma FanShape(first: int, n: int)
    requires 2 <= n && 3 * (n - 2) < 0x1_0000_0000
    ensures |Fan(first, n)| == NumTriangleIndices(n)
    ensures forall k :: 0 <= k < |Fan(first, n)| ==> first <= Fan(first, n)[k] < first + n
  {
    var r := Fan(first, n);
    forall k | 0 <= k < |r|
      ensures first <= r[k] < first + n
    {
      FanAt(first, n, k);
      assert k / 3 <= n - 3;
    }
  }

  /** The fan of a surface's polygon. */
  function SurfaceFan(s: Surface): (r: seq<int>)
  {
    Fan(s.firstVert, s.numEdges)
  }

  /** A surface the batch can take: a polygon (`numedges >= 2`, so the
      unsigned count does not wrap) whose fan fits in the buffer. */
  predicate Batchable(s: Surface)
  {
    2 <= s.numEdges && 3 * (s.numEdges - 2) <= MaxBatchSize
  }

  /** The fans of `surfs`, one after the other. */
  function Fans(surfs: seq<Surface>): (r: seq<int>)
  {
    if surfs == [] then [] else Fans(surfs[..|surfs| - 1]) + SurfaceFan(surfs[|surfs| - 1])
  }

  lemma {:induction false} FansAppend(a: seq<Surface>, b: seq<Surface>)
    ensures Fans(a + b) == Fans(a) + Fans(b)
    decreases |b|
  {
    if b == [] {
      assert a + b == a;
    } else {
      var init, x := b[..|b| - 1], b[|b| - 1];
      assert b == init + [x];
      assert a + b == (a + init) + [x];
      FansAppend(a, init);
      FansSnoc(a + init, x);
      FansSnoc(init, x);
      AppendAssoc(Fans(a), Fans(init), SurfaceFan(x));
    }
  }

  lemma FansSnoc(surfs: seq<Surface>, x: Surface)
    ensures Fans(surfs + [x]) == Fans(surfs) + SurfaceFan(x)
  {
    assert (surfs + [x])[..|surfs|] == surfs;
  }

  /** The fans of a list are the first surface's, then the rest's. */
  lemma FansCons(surfs: seq<Surface>)
    requires surfs != []
    ensures Fans(surfs) == SurfaceFan(surfs[0]) + Fans(surfs[1..])
  {
    FansAppend([surfs[0]], surfs[1..]);
    assert [surfs[0]] + surfs[1..] == surfs;
    assert Fans([surfs[0]]) == SurfaceFan(surfs[0]) by { assert [surfs[0]][..0] == []; }
  }

  /** The index lists of the draw calls among `events`, in order. */
  function Draws(events: seq<WorldEvent>): (r: seq<seq<int>>)
    ensures |r| <= |events|
  {
    if events == [] then []
    else
      var e := events[|events| - 1];
      Draws(events[..|events| - 1]) + (if e.DrawElements? then [e.elements] else [])
  }

  lemma {:induction false} DrawsAppend(a: seq<WorldEvent>, b: seq<WorldEvent>)
    ensures Draws(a + b) == Draws(a) + Draws(b)
    decreases |b|
  {
    if b == [] {
      assert a + b == a;
    } else {
      var init, e := b[..|b| - 1], b[|b| - 1];
      var tail := if e.DrawElements? then [e.elements] else [];
      DrawsAppend(a, init);
      assert (a + b)[..|a + b| - 1] == a + init && (a + b)[|a + b| - 1] == e;
      assert Draws(a + b) == Draws(a + init) + tail;
      AppendAssoc(Draws(a), Draws(init), tail);
    }
  }

  /** The fans of each group of surfaces. */
  function FansOf(groups: seq<seq<Surface>>): (r: seq<seq<int>>)
    ensures |r| == |groups| && forall k :: 0 <= k < |groups| ==> r[k] == Fans(groups[k])
  {
    if groups == [] then [] else FansOf(groups[..|groups| - 1]) + [Fans(groups[|groups| - 1])]
  }

  /** Each index list is a draw the buffer holds: not empty and at most a
      batch. */
  predicate Bounded(draws: seq<seq<int>>)
  {
    forall d :: d in draws ==> 0 < |d| <= MaxBatchSize
  }

  /** The world pass as it goes: the events issued, the indices pending in
      the batch, the surfaces they come from, and the surfaces of each draw
      issued so far. */
  datatype Pass = Pass(events: seq<WorldEvent>, pending: seq<int>, group: seq<Surface>, groups: seq<seq<Surface>>)
  {
    /** The pending indices are the fans of the pending surfaces, of at most
        a batch, and the draws issued are the fans of their groups, each
        within a batch. */
    ghost predicate Valid()
    {
      pending == Fans(group) && |pending| <= MaxBatchSize
      && Draws(events) == FansOf(groups) && Bounded(Draws(events))
    }
  }

  /** R_ClearBatch: drop the pending indices. */
  function Cleared(p: Pass): (r: Pass)
    ensures r.pending == [] && r.events == p.events && r.groups == p.groups
  {
    p.(pending := [], group := [])
  }

  /** R_FlushBatch: draw the pending indices if there are any; the batch is
      empty afterwards. */
  function Flushed(p: Pass): (r: Pass)
  {
    if |p.pending| > 0 then Pass(p.events + [DrawElements(p.pending)], [], [], p.groups + [p.group])
    else p.(group := [])
  }

  /** R_BatchSurface: flush first when the surface's fan would overflow the
      batch, then append the fan. */
  function Batched(p: Pass, s: Surface): (r: Pass)
  {
    var q := if |p.pending| + |SurfaceFan(s)| > MaxBatchSize then Flushed(p) else p;
    q.(pending := q.pending + SurfaceFan(s), group := q.group + [s])
  }

  /** The indices drawn so far followed by the pending ones. */
  function Sent(p: Pass): seq<int>
  {
    Concat(Draws(p.events)) + p.pending
  }

  /** With nothing pending, what was sent is what was drawn. */
  lemma SentEmpty(p: Pass)
    requires p.pending == []
    ensures Sent(p) == Concat(Draws(p.events))
  {
    assert Concat(Draws(p.events)) + [] == Concat(Draws(p.events));
  }

  /** Flushing loses no index and leaves nothing pending. */
  lemma FlushedSends(p: Pass)
    ensures Flushed(p).pending == [] && Sent(Flushed(p)) == Sent(p)
  {
    if |p.pending| > 0 {
      DrawsAppend(p.events, [DrawElements(p.pending)]);
      assert Draws([DrawElements(p.pending)]) == [p.pending];
      ConcatAppend(Draws(p.events), p.pending);
    }
  }

  /** A flushed draw is the fans of its group, within a batch. */
  lemma FlushedValid(p: Pass)
    requires p.Valid()
    ensures Flushed(p).Valid()
  {
    if |p.pending| > 0 {
      DrawsAppend(p.events, [DrawElements(p.pending)]);
      assert Draws([DrawElements(p.pending)]) == [p.pending];
    }
  }

  /** Batching a surface sends exactly its fan after what was sent before. */
  lemma BatchedSends(p: Pass, s: Surface)
    ensures Sent(Batched(p, s)) == Sent(p) + SurfaceFan(s)
  {
    var q := if |p.pending| + |SurfaceFan(s)| > MaxBatchSize then Flushed(p) else p;
    assert Sent(q) == Sent(p) by { FlushedSends(p); }
    AppendAssoc(Concat(Draws(q.events)), q.pending, SurfaceFan(s));
  }

  /** Batching a surface that fits keeps the batch and the draws within
      bounds. */
  lemma BatchedValid(p: Pass, s: Surface)
    requires p.Valid() && Batchable(s)
    ensures Batched(p, s).Valid()
  {
    var q := if |p.pending| + |SurfaceFan(s)| > MaxBatchSize then Flushed(p) else p;
    assert q.Valid() && |q.pending| + |SurfaceFan(s)| <= MaxBatchSize by {
      if |p.pending| + |SurfaceFan(s)| > MaxBatchSize {
        FlushedValid(p);
        FlushedSends(p);
      }
    }
    FansSnoc(q.group, s);
  }

  // ---------------------------------------------------------------------------
  // The chain loop of R_DrawTextureChains_GLSL
  // ---------------------------------------------------------------------------

  /** All of `g` uses one lightmap. */
  predicate OneLightmap(g: seq<Surface>)
  {
    forall i :: 0 <= i < |g| ==> g[i].lightmap == g[0].lightmap
  }

  /** Every draw issued so far comes from surfaces of one lightmap. */
  predicate Grouped(p: Pass)
  {
    forall k :: 0 <= k < |p.groups| ==> OneLightmap(p.groups[k])
  }

  /** All of `g` uses lightmap `lightmap`. */
  predicate LitBy(g: seq<Surface>, lightmap: nat)
  {
    forall i :: 0 <= i < |g| ==> g[i].lightmap == lightmap
  }

  /** One surface of a chain: flush when its lightmap differs from the
      previous surface's, bind its lightmap, batch its fan. */
  function SurfaceStep(p: Pass, s: Surface, last: nat): Pass
  {
    var q := if s.lightmap != last then Flushed(p) else p;
    Batched(q.(events := q.events + [BindLightmap(s.lightmap)]), s)
  }

  /** The surfaces of a chain from `surfs` on, `last` being the lightmap of
      the surface before. */
  function ChainRun(p: Pass, surfs: seq<Surface>, last: nat): Pass
    decreases |surfs|
  {
    if surfs == [] then p else ChainRun(SurfaceStep(p, surfs[0], last), surfs[1..], surfs[0].lightmap)
  }

  /** A texture the chain loop passes over: a hole in the table, an empty
      chain, or a chain whose head is tiled, untextured or turbulent. */
  predicate Skipped(t: Texture?, slot: ChainSlot)
    reads t
  {
    t == null || t.chains.Get(slot) == []
    || var f := t.chains.Get(slot)[0].flags; f.tiled || f.noTexture || f.turb
  }

  /** The binds before the first surface of texture `t`: the texture, then
      the alpha test on for a fence texture. */
  function TextureOn(t: Texture, fence: bool): (r: seq<WorldEvent>)
    ensures NoDraws(r)
  {
    [BindSurfaceTexture(t)] + (if fence then [AlphaTest(true)] else [])
  }

  /** After the final flush of a fence texture: the alpha test off. */
  function TextureOff(fence: bool): (r: seq<WorldEvent>)
    ensures NoDraws(r)
  {
    if fence then [AlphaTest(false)] else []
  }

  /** A drawn texture `t` with chain `chain` (not empty): clear the batch; at
      the first surface bind the texture and, for a fence texture, turn the
      alpha test on; walk the chain; flush; turn the alpha test back off. */
  function DrawChain(p: Pass, t: Texture, chain: seq<Surface>): Pass
    requires chain != []
  {
    var fence := chain[0].flags.fence;
    var q := Cleared(p).(events := p.events + TextureOn(t, fence));
    var r := Flushed(ChainRun(q, chain, chain[0].lightmap));
    r.(events := r.events + TextureOff(fence))
  }

  /** One texture of the chain loop. */
  function TexturePass(p: Pass, t: Texture?, slot: ChainSlot): Pass
    reads t
  {
    if Skipped(t, slot) then p else DrawChain(p, t, t.chains.Get(slot))
  }

  /** The chain loop over a texture table. */
  function TexturesPass(p: Pass, textures: seq<Texture?>, slot: ChainSlot): Pass
    reads textures
  {
    if textures == [] then p
    else TexturePass(TexturesPass(p, textures[..|textures| - 1], slot), textures[|textures| - 1], slot)
  }

  /** The surfaces the chain loop draws: the chains of the textures it does
      not pass over, one after the other. */
  function Drawn(textures: seq<Texture?>, slot: ChainSlot): seq<Surface>
    reads textures
  {
    if textures == [] then []
    else
      var t := textures[|textures| - 1];
      Drawn(textures[..|textures| - 1], slot) + (if Skipped(t, slot) then [] else t.chains.Get(slot))
  }

  /** Events none of which is a draw. */
  predicate NoDraws(events: seq<WorldEvent>)
  {
    forall i :: 0 <= i < |events| ==> !events[i].DrawElements?
  }

  lemma {:induction false} NoDrawsDrawNothing(events: seq<WorldEvent>)
    requires NoDraws(events)
    ensures Draws(events) == []
    decreases |events|
  {
    if events != [] {
      NoDrawsDrawNothing(events[..|events| - 1]);
    }
  }

  /** Binding a texture or a lightmap, or switching the alpha test, draws
      nothing. */
  lemma NoDrawsKeep(p: Pass, events: seq<WorldEvent>)
    requires NoDraws(events)
    ensures Draws(p.events + events) == Draws(p.events)
    ensures Sent(p.(events := p.events + events)) == Sent(p)
    ensures p.Valid() ==> p.(events := p.events + events).Valid()
  {
    DrawsAppend(p.events, events);
    NoDrawsDrawNothing(events);
    assert Draws(p.events) + [] == Draws(p.events);
  }

  /** One surface of a chain sends its fan after what was sent before. */
  lemma SurfaceStepSends(p: Pass, s: Surface, last: nat)
    ensures Sent(SurfaceStep(p, s, last)) == Sent(p) + SurfaceFan(s)
  {
    var q := if s.lightmap != last then Flushed(p) else p;
    FlushedSends(p);
    NoDrawsKeep(q, [BindLightmap(s.lightmap)]);
    BatchedSends(q.(events := q.events + [BindLightmap(s.lightmap)]), s);
  }

  /** One surface of a chain keeps the batch and the draws within bounds. */
  lemma SurfaceStepValid(p: Pass, s: Surface, last: nat)
    requires p.Valid() && Batchable(s)
    ensures SurfaceStep(p, s, last).Valid()
  {
    var q := if s.lightmap != last then Flushed(p) else p;
    FlushedValid(p);
    NoDrawsKeep(q, [BindLightmap(s.lightmap)]);
    BatchedValid(q.(events := q.events + [BindLightmap(s.lightmap)]), s);
  }

  /** Flushing draws the pending surfaces as one group. */
  lemma FlushedGrouped(p: Pass)
    requires Grouped(p) && OneLightmap(p.group)
    ensures Grouped(Flushed(p)) && Flushed(p).group == []
  {
  }

  /** One surface of a chain: a draw it issues holds the surfaces of the
      previous lightmap, and what stays pending uses the surface's. */
  lemma SurfaceStepGrouped(p: Pass, s: Surface, last: nat)
    requires Grouped(p) && LitBy(p.group, last)
    ensures Grouped(SurfaceStep(p, s, last)) && LitBy(SurfaceStep(p, s, last).group, s.lightmap)
  {
    assert OneLightmap(p.group) by {
      if p.group != [] { assert p.group[0].lightmap == last; }
    }
    FlushedGrouped(p);
    var q := if s.lightmap != last then Flushed(p) else p;
    var b := q.(events := q.events + [BindLightmap(s.lightmap)]);
    assert LitBy(b.group, s.lightmap);
    assert OneLightmap(b.group) by {
      if b.group != [] { assert b.group[0].lightmap == s.lightmap; }
    }
    FlushedGrouped(b);
  }

  /** A chain sends the fans of its surfaces, in order. */
  lemma {:induction false} ChainRunSends(p: Pass, surfs: seq<Surface>, last: nat)
    ensures Sent(ChainRun(p, surfs, last)) == Sent(p) + Fans(surfs)
    decreases |surfs|
  {
    if surfs == [] {
      assert Sent(p) + [] == Sent(p);
    } else {
      var x := surfs[0];
      SurfaceStepSends(p, x, last);
      ChainRunSends(SurfaceStep(p, x, last), surfs[1..], x.lightmap);
      FansCons(surfs);
    }
  }

  /** A chain of surfaces that fit keeps the batch and the draws within
      bounds. */
  lemma {:induction false} ChainRunValid(p: Pass, surfs: seq<Surface>, last: nat)
    requires p.Valid() && forall x :: x in surfs ==> Batchable(x)
    ensures ChainRun(p, surfs, last).Valid()
    decreases |surfs|
  {
    if surfs != [] {
      var x := surfs[0];
      SurfaceStepValid(p, x, last);
      ChainRunValid(SurfaceStep(p, x, last), surfs[1..], x.lightmap);
    }
  }

  /** Every draw a chain issues holds the surfaces of one lightmap. */
  lemma {:induction false} ChainRunGrouped(p: Pass, surfs: seq<Surface>, last: nat)
    requires Grouped(p) && LitBy(p.group, last)
    ensures Grouped(ChainRun(p, surfs, last)) && OneLightmap(ChainRun(p, surfs, last).group)
    decreases |surfs|
  {
    if surfs == [] {
      if p.group != [] { assert p.group[0].lightmap == last; }
    } else {
      var x := surfs[0];
      SurfaceStepGrouped(p, x, last);
      ChainRunGrouped(SurfaceStep(p, x, last), surfs[1..], x.lightmap);
    }
  }

  /** A drawn texture sends the fans of its chain, in order, and leaves the
      batch empty. */
  lemma DrawChainSends(p: Pass, t: Texture, chain: seq<Surface>)
    requires chain != []
    ensures DrawChain(p, t, chain).pending == []
    ensures Concat(Draws(DrawChain(p, t, chain).events)) == Concat(Draws(p.events)) + Fans(chain)
  {
    var fence := chain[0].flags.fence;
    NoDrawsKeep(Cleared(p), TextureOn(t, fence));
    SentEmpty(Cleared(p));
    var q := Cleared(p).(events := p.events + TextureOn(t, fence));
    ChainRunSends(q, chain, chain[0].lightmap);
    var r := Flushed(ChainRun(q, chain, chain[0].lightmap));
    FlushedSends(ChainRun(q, chain, chain[0].lightmap));
    NoDrawsKeep(r, TextureOff(fence));
    SentEmpty(r.(events := r.events + TextureOff(fence)));
  }

  /** A drawn texture whose surfaces fit keeps the draws within bounds. */
  lemma DrawChainValid(p: Pass, t: Texture, chain: seq<Surface>)
    requires p.Valid() && chain != [] && forall x :: x in chain ==> Batchable(x)
    ensures DrawChain(p, t, chain).Valid()
  {
    var fence := chain[0].flags.fence;
    NoDrawsKeep(Cleared(p), TextureOn(t, fence));
    var q := Cleared(p).(events := p.events + TextureOn(t, fence));
    ChainRunValid(q, chain, chain[0].lightmap);
    FlushedValid(ChainRun(q, chain, chain[0].lightmap));
    NoDrawsKeep(Flushed(ChainRun(q, chain, chain[0].lightmap)), TextureOff(fence));
  }

  /** Every draw of a texture holds the surfaces of one lightmap. */
  lemma DrawChainGrouped(p: Pass, t: Texture, chain: seq<Surface>)
    requires Grouped(p) && chain != []
    ensures Grouped(DrawChain(p, t, chain))
  {
    var q := Cleared(p).(events := p.events + TextureOn(t, chain[0].flags.fence));
    ChainRunGrouped(q, chain, chain[0].lightmap);
    FlushedGrouped(ChainRun(q, chain, chain[0].lightmap));
  }

  /** One texture of the chain loop appends the fans of its chain, if drawn,
      to what was drawn before. */
  lemma TexturePassAppends(q: Pass, t: Texture?, slot: ChainSlot, a: seq<int>, before: seq<Surface>)
    requires q.pending == [] && Concat(Draws(q.events)) == a + Fans(before)
    ensures var r := TexturePass(q, t, slot);
            r.pending == [] && Concat(Draws(r.events)) == a + Fans(before + if Skipped(t, slot) then [] else t.chains.Get(slot))
  {
    if Skipped(t, slot) {
      assert before + [] == before;
    } else {
      DrawChainAppends(q, t, t.chains.Get(slot), a, before);
    }
  }

  lemma DrawChainAppends(q: Pass, t: Texture, chain: seq<Surface>, a: seq<int>, before: seq<Surface>)
    requires chain != [] && Concat(Draws(q.events)) == a + Fans(before)
    ensures DrawChain(q, t, chain).pending == []
    ensures Concat(Draws(DrawChain(q, t, chain).events)) == a + Fans(before + chain)
  {
    DrawChainSends(q, t, chain);
    FansAppend(before, chain);
    AppendAssoc(a, Fans(before), Fans(chain));
  }

  /** The chain loop sends the fans of the surfaces it draws, in order, and
      leaves the batch empty. */
  lemma {:induction false} TexturesPassSends(p: Pass, textures: seq<Texture?>, slot: ChainSlot)
    requires p.pending == []
    ensures var r := TexturesPass(p, textures, slot);
            r.pending == [] && Concat(Draws(r.events)) == Concat(Draws(p.events)) + Fans(Drawn(textures, slot))
    decreases |textures|
  {
    if textures == [] {
      assert Concat(Draws(p.events)) + [] == Concat(Draws(p.events));
    } else {
      var init, t := textures[..|textures| - 1], textures[|textures| - 1];
      TexturesPassSends(p, init, slot);
      TexturePassAppends(TexturesPass(p, init, slot), t, slot, Concat(Draws(p.events)), Drawn(init, slot));
    }
  }

  /** The chain loop over surfaces that fit keeps the draws within bounds. */
  lemma {:induction false} TexturesPassValid(p: Pass, textures: seq<Texture?>, slot: ChainSlot)
    requires p.Valid() && forall x :: x in Drawn(textures, slot) ==> Batchable(x)
    ensures TexturesPass(p, textures, slot).Valid()
    decreases |textures|
  {
    if textures != [] {
      var init, t := textures[..|textures| - 1], textures[|textures| - 1];
      TexturesPassValid(p, init, slot);
      if !Skipped(t, slot) {
        DrawChainValid(TexturesPass(p, init, slot), t, t.chains.Get(slot));
      }
    }
  }

  /** None of the draws of the chain loop mixes lightmaps. */
  lemma {:induction false} TexturesPassGrouped(p: Pass, textures: seq<Texture?>, slot: ChainSlot)
    requires Grouped(p)
    ensures Grouped(TexturesPass(p, textures, slot))
    decreases |textures|
  {
    if textures != [] {
      var init, t := textures[..|textures| - 1], textures[|textures| - 1];
      TexturesPassGrouped(p, init, slot);
      if !Skipped(t, slot) {
        DrawChainGrouped(TexturesPass(p, init, slot), t, t.chains.Get(slot));
      }
    }
  }

  /** `b` is `a` followed by draws and lightmap binds only. */
  predicate QuietlyExtends(a: seq<WorldEvent>, b: seq<WorldEvent>)
  {
    |a| <= |b| && (forall i :: 0 <= i < |a| ==> b[i] == a[i])
    && forall i :: |a| <= i < |b| ==> b[i].DrawElements? || b[i].BindLightmap?
  }

  lemma QuietlyExtendsTrans(a: seq<WorldEvent>, b: seq<WorldEvent>, c: seq<WorldEvent>)
    requires QuietlyExtends(a, b) && QuietlyExtends(b, c)
    ensures QuietlyExtends(a, c)
  {
    forall i | |a| <= i < |c|
      ensures c[i].DrawElements? || c[i].BindLightmap?
    {
      if i < |b| { assert c[i] == b[i]; }
    }
  }

  /** Flushing issues at most a draw. */
  lemma FlushedQuiet(p: Pass)
    ensures QuietlyExtends(p.events, Flushed(p).events)
  {
  }

  /** One surface of a chain issues draws and lightmap binds only. */
  lemma SurfaceStepQuiet(p: Pass, s: Surface, last: nat)
    ensures QuietlyExtends(p.events, SurfaceStep(p, s, last).events)
  {
    var q := if s.lightmap != last then Flushed(p) else p;
    FlushedQuiet(p);
    var b := q.(events := q.events + [BindLightmap(s.lightmap)]);
    assert QuietlyExtends(q.events, b.events);
    QuietlyExtendsTrans(p.events, q.events, b.events);
    FlushedQuiet(b);
    var c := if |b.pending| + |SurfaceFan(s)| > MaxBatchSize then Flushed(b) else b;
    QuietlyExtendsTrans(p.events, b.events, c.events);
  }

  /** A chain issues draws and lightmap binds only. */
  lemma {:induction false} ChainRunQuiet(p: Pass, surfs: seq<Surface>, last: nat)
    ensures QuietlyExtends(p.events, ChainRun(p, surfs, last).events)
    decreases |surfs|
  {
    if surfs != [] {
      var x := surfs[0];
      SurfaceStepQuiet(p, x, last);
      ChainRunQuiet(SurfaceStep(p, x, last), surfs[1..], x.lightmap);
      QuietlyExtendsTrans(p.events, SurfaceStep(p, x, last).events, ChainRun(SurfaceStep(p, x, last), surfs[1..], x.lightmap).events);
    }
  }

  /** A drawn texture binds its texture once, first; a fence texture turns
      the alpha test on right after and off last, and no other texture's
      alpha test is touched; in between come only draws and lightmap binds. */
  lemma DrawChainEvents(p: Pass, t: Texture, chain: seq<Surface>)
    requires chain != []
    ensures var r, n, fence := DrawChain(p, t, chain).events, |p.events|, chain[0].flags.fence;
            n < |r| && r[..n] == p.events && r[n] == BindSurfaceTexture(t)
            && (fence ==> n + 1 < |r| - 1 && r[n + 1] == AlphaTest(true) && r[|r| - 1] == AlphaTest(false))
            && (forall i :: n < i < |r| ==> !r[i].BindSurfaceTexture?)
            && (forall i :: n < i < |r| && r[i].AlphaTest? ==> fence && (i == n + 1 || i == |r| - 1))
  {
    var fence := chain[0].flags.fence;
    var q := Cleared(p).(events := p.events + TextureOn(t, fence));
    var c := ChainRun(q, chain, chain[0].lightmap);
    ChainRunQuiet(q, chain, chain[0].lightmap);
    FlushedQuiet(c);
    QuietlyExtendsTrans(q.events, c.events, Flushed(c).events);
    var r := Flushed(c).events + TextureOff(fence);
    assert r == DrawChain(p, t, chain).events;
    var n := |p.events|;
    forall i | 0 <= i < n
      ensures r[i] == p.events[i]
    {
      assert q.events[i] == p.events[i];
    }
    assert r[n] == q.events[n];
  }

  /** The surfaces drawn for texture `i` are among those drawn for the whole
      table. */
  lemma {:induction false} DrawnPrefix(textures: seq<Texture?>, i: nat, slot: ChainSlot)
    requires i < |textures|
    ensures var t := textures[i];
            !Skipped(t, slot) ==> forall x :: x in t.chains.Get(slot) ==> x in Drawn(textures, slot)
    decreases |textures|
  {
    if i < |textures| - 1 {
      DrawnPrefix(textures[..|textures| - 1], i, slot);
    }
  }

  /** The chain loop draws exactly the fans of the surfaces of the textures
      it does not pass over, in table and chain order, and leaves nothing
      pending; each draw holds the fans of a group of surfaces that share
      one lightmap, and no more indices than the batch buffer. */
  lemma ChainLoopDraws(p: Pass, textures: seq<Texture?>, slot: ChainSlot)
    requires p.Valid() && Grouped(p) && p.pending == []
    requires forall x :: x in Drawn(textures, slot) ==> Batchable(x)
    ensures var r := TexturesPass(p, textures, slot);
            r.pending == [] && Concat(Draws(r.events)) == Concat(Draws(p.events)) + Fans(Drawn(textures, slot))
            && |Draws(r.events)| == |r.groups|
            && forall k :: 0 <= k < |r.groups| ==>
                 Draws(r.events)[k] == Fans(r.groups[k]) && 0 < |Draws(r.events)[k]| <= MaxBatchSize
                 && OneLightmap(r.groups[k])
  {
    TexturesPassSends(p, textures, slot);
    TexturesPassValid(p, textures, slot);
    TexturesPassGrouped(p, textures, slot);
    var r := TexturesPass(p, textures, slot);
    forall k | 0 <= k < |r.groups|
      ensures 0 < |Draws(r.events)[k]| <= MaxBatchSize
    {
      assert Draws(r.events)[k] in Draws(r.events);
    }
  }

  /** A surface is marked for a light exactly when a leaf whose bit is set
      in the light's PVS marks it, and none is marked twice. */
  lemma MarkedSurfaces(vis: seq<bv8>, leaves: seq<Leaf>, s: Surface)
    requires |leaves| <= 8 * |vis|
    ensures s in FirstSeen([], Marks(vis, leaves, |leaves|)) <==>
              exists i :: 0 <= i < |leaves| && VisBit(vis, i) && s in leaves[i].marks
    ensures NoDup(FirstSeen([], Marks(vis, leaves, |leaves|)))
  {
    FirstSeenMembers([], Marks(vis, leaves, |leaves|));
    MarksMembers(vis, leaves, |leaves|, s);
  }

  /** For the sun (every bit set), every surface of every leaf is marked. */
  lemma SunMarksAll(vis: seq<bv8>, leaves: seq<Leaf>, s: Surface)
    requires |leaves| <= 8 * |vis| && forall j :: 0 <= j < |vis| ==> vis[j] == 0xff
    ensures s in FirstSeen([], Marks(vis, leaves, |leaves|)) <==> exists i :: 0 <= i < |leaves| && s in leaves[i].marks
  {
    MarkedSurfaces(vis, leaves, s);
    if exists i :: 0 <= i < |leaves| && s in leaves[i].marks {
      var i :| 0 <= i < |leaves| && s in leaves[i].marks;
      NoVisShowsAll(vis, i);
    }
  }

  /** The world chain a marking leaves on texture `t` holds each marked
      surface of texture `t` once, newest first. */
  lemma MarkedChain(chained: seq<Surface>, t: Texture)
    requires NoDup(chained)
    ensures forall s :: s in Reverse(OnTexture(chained, t)) <==> s in chained && s.texture == t
    ensures NoDup(Reverse(OnTexture(chained, t)))
  {
    ReverseMembers(OnTexture(chained, t));
    forall s ensures s in OnTexture(chained, t) <==> s in chained && s.texture == t {
      OnTextureMembers(chained, t, s);
    }
    OnTextureNoDup(chained, t);
    ReverseNoDup(OnTexture(chained, t));
  }

  lemma {:induction false} OnTextureNoDup(surfs: seq<Surface>, t: Texture)
    requires NoDup(surfs)
    ensures NoDup(OnTexture(surfs, t))
  {
    if surfs != [] {
      var init, x := surfs[..|surfs| - 1], surfs[|surfs| - 1];
      assert NoDup(init);
      OnTextureNoDup(init, t);
      OnTextureMembers(init, t, x);
      assert x !in init;
    }
  }

  /** The visframe stamp of each surface. */
  ghost function FramesOf(surfs: seq<Surface>): (r: seq<int>)
    reads surfs`visframe
    ensures |r| == |surfs| && forall k :: 0 <= k < |surfs| ==> r[k] == surfs[k].visframe
  {
    if surfs == [] then [] else FramesOf(surfs[..|surfs| - 1]) + [surfs[|surfs| - 1].visframe]
  }

  /** The chain heads of each texture of a table (both empty for a hole). */
  ghost function ChainsOf(textures: seq<Texture?>): (r: seq<Chains>)
    reads textures`chains
    ensures |r| == |textures|
    ensures forall k :: 0 <= k < |textures| && textures[k] != null ==> r[k] == textures[k].chains
  {
    if textures == [] then []
    else
      var t := textures[|textures| - 1];
      ChainsOf(textures[..|textures| - 1]) + [if t == null then Chains([], []) else t.chains]
  }

  /** The renderer state of r_world.c: the visframe counter, the index batch
      (`vbo_indices`, `num_vbo_indices`) and the draw calls issued. The
      world's PVS lookups are parameters. */
  class Renderer {
    const world: WorldModel
    /** Mod_NoVisPVS of the world. */
    const noVisPVS: seq<bv8>
    /** Mod_LeafPVS of the leaf holding a point (Mod_PointInLeaf). */
    const leafPVS: Vec3 -> seq<bv8>
    var visframeCount: int
    const indices: array<int>
    var count: nat
    ghost var emitted: seq<WorldEvent>
    /** The surfaces whose indices are pending, and those of each draw. */
    ghost var group: seq<Surface>
    ghost var groups: seq<seq<Surface>>

    /** The PVS buffers cover every leaf, and no surface carries a stamp
        newer than the counter. */
    ghost predicate Stamped()
      reads this`visframeCount, world.surfaces`visframe
    {
      world.WellFormed()
      && |world.leaves| <= 8 * |noVisPVS| && (forall p :: |world.leaves| <= 8 * |leafPVS(p)|)
      && forall k :: 0 <= k < |world.surfaces| ==> world.surfaces[k].visframe <= visframeCount
    }

    /** The surfaces `chained` so far in this marking pass carry the stamp
        `stamp`, the others keep their stamps `frames0`, and the world chain
        of every texture lists its surfaces from `chained` newest first; the
        other chain keeps its value from `chains0`. */
    ghost predicate MarkedFrom(stamp: int, chained: seq<Surface>, frames0: seq<int>, chains0: seq<Chains>)
      reads world.surfaces`visframe, world.textures`chains
    {
      |frames0| == |world.surfaces| && |chains0| == |world.textures|
      && (forall s :: s in chained ==> s in world.surfaces)
      && (forall k :: 0 <= k < |world.surfaces| ==> frames0[k] < stamp)
      && (forall k :: 0 <= k < |world.surfaces| ==>
            world.surfaces[k].visframe == if world.surfaces[k] in chained then stamp else frames0[k])
      && (forall k :: 0 <= k < |world.textures| && world.textures[k] != null ==>
            world.textures[k].chains == chains0[k].Set(WorldChain, Reverse(OnTexture(chained, world.textures[k]))))
    }

    /** The inner step of R_MarkSurfacesForLightShadowMap: a surface not yet
        stamped in this pass is stamped and chained; a stamped one is skipped. */
    method MarkOne(s: Surface, ghost chained: seq<Surface>, ghost frames0: seq<int>, ghost chains0: seq<Chains>)
      returns (ghost chained': seq<Surface>)
      requires world.WellFormed() && s in world.surfaces
      requires MarkedFrom(visframeCount, chained, frames0, chains0)
      modifies s`visframe, s.texture`chains
      ensures chained' == Added(chained, s) && MarkedFrom(visframeCount, chained', frames0, chains0)
    {
      if s.visframe != visframeCount {
        s.visframe := visframeCount;
        label Stamped:
        ChainSurface(s, WorldChain);
        chained' := chained + [s];
        forall k | 0 <= k < |world.textures| && world.textures[k] != null
          ensures world.textures[k].chains == chains0[k].Set(WorldChain, Reverse(OnTexture(chained', world.textures[k])))
        {
          var t := world.textures[k];
          assert old@Stamped(t.chains) == chains0[k].Set(WorldChain, Reverse(OnTexture(chained, t)));
          OnTextureAppend(chained, s, t);
          if t == s.texture {
            PushIsReverseAppend(OnTexture(chained, t), s);
            chains0[k].SetTwice(WorldChain, Reverse(OnTexture(chained, t)), Reverse(OnTexture(chained', t)));
            assert t.chains == old@Stamped(t.chains).Set(WorldChain, [s] + old@Stamped(t.chains).Get(WorldChain));
            assert old@Stamped(t.chains).Get(WorldChain) == Reverse(OnTexture(chained, t));
            assert OnTexture(chained', t) == OnTexture(chained, t) + [s];
          } else {
            assert t.chains == old@Stamped(t.chains);
            assert OnTexture(chained', t) == OnTexture(chained, t);
          }
        }
      } else {
        chained' := chained;
      }
    }

    /** The mark loop of one visible leaf: its surfaces in order, each
        stamped and chained unless already stamped in this pass. */
    method MarkLeaf(marks: seq<Surface>, ghost chained: seq<Surface>, ghost frames0: seq<int>, ghost chains0: seq<Chains>)
      returns (ghost chained': seq<Surface>)
      requires world.WellFormed() && forall s :: s in marks ==> s in world.surfaces
      requires MarkedFrom(visframeCount, chained, frames0, chains0)
      modifies world.surfaces`visframe, world.textures`chains
      ensures chained' == FirstSeen(chained, marks) && MarkedFrom(visframeCount, chained', frames0, chains0)
    {
      chained' := chained;
      var j := 0;
      while j < |marks|
        invariant 0 <= j <= |marks| && FirstSeen(chained', marks[j..]) == FirstSeen(chained, marks)
        invariant MarkedFrom(visframeCount, chained', frames0, chains0)
      {
        assert marks[j] in world.surfaces && marks[j].texture in world.textures;
        assert marks[j..][0] == marks[j] && marks[j..][1..] == marks[j + 1..];
        chained' := MarkOne(marks[j], chained', frames0, chains0);
        j := j + 1;
      }
    }

    /** The start of R_MarkSurfacesForLightShadowMap: empty the world chain
        of every texture and advance the stamp, so that nothing is marked in
        the new pass yet. */
    method StartPass(ghost frames0: seq<int>, ghost chains0: seq<Chains>)
      requires Stamped() && frames0 == FramesOf(world.surfaces) && chains0 == ChainsOf(world.textures)
      modifies this`visframeCount, world.textures`chains
      ensures visframeCount == old(visframeCount) + 1 && MarkedFrom(visframeCount, [], frames0, chains0)
    {
      ClearChainSlot(world.textures, WorldChain);
      visframeCount := visframeCount + 1;
      assert Reverse<Surface>([]) == [];
    }

    /** The leaf loop has marked the surfaces of the visible leaves among
        the first `i`, each the first time it is met. */
    ghost predicate LeavesMarked(vis: seq<bv8>, i: nat, chained: seq<Surface>, frames0: seq<int>, chains0: seq<Chains>)
      reads this`visframeCount, world.surfaces`visframe, world.textures`chains
    {
      world.WellFormed() && i <= |world.leaves| <= 8 * |vis|
      && chained == FirstSeen([], Marks(vis, world.leaves, i))
      && MarkedFrom(visframeCount, chained, frames0, chains0)
    }

    /** One leaf of the leaf loop: its surfaces are marked when its bit is set. */
    method MarkLeafAt(vis: seq<bv8>, i: nat, ghost chained: seq<Surface>, ghost frames0: seq<int>, ghost chains0: seq<Chains>)
      returns (ghost chained': seq<Surface>)
      requires i < |world.leaves| && LeavesMarked(vis, i, chained, frames0, chains0)
      modifies world.surfaces`visframe, world.textures`chains
      ensures LeavesMarked(vis, i + 1, chained', frames0, chains0)
    {
      if VisBit(vis, i) {
        var marks := world.leaves[i].marks;
        assert Marks(vis, world.leaves, i + 1) == Marks(vis, world.leaves, i) + marks;
        FirstSeenConcat([], Marks(vis, world.leaves, i), marks);
        chained' := MarkLeaf(marks, chained, frames0, chains0);
      } else {
        assert Marks(vis, world.leaves, i + 1) == Marks(vis, world.leaves, i);
        chained' := chained;
      }
    }

    /** The leaf loop of R_MarkSurfacesForLightShadowMap: the surfaces of each
        leaf whose bit is set in `vis`, leaf by leaf. */
    method MarkVisible(vis: seq<bv8>, ghost frames0: seq<int>, ghost chains0: seq<Chains>)
      returns (ghost chained: seq<Surface>)
      requires world.WellFormed() && |world.leaves| <= 8 * |vis|
      requires MarkedFrom(visframeCount, [], frames0, chains0)
      modifies world.surfaces`visframe, world.textures`chains
      ensures chained == FirstSeen([], Marks(vis, world.leaves, |world.leaves|))
      ensures MarkedFrom(visframeCount, chained, frames0, chains0)
    {
      chained := [];
      var i := 0;
      while i < |world.leaves|
        invariant LeavesMarked(vis, i, chained, frames0, chains0)
      {
        chained := MarkLeafAt(vis, i, chained, frames0, chains0);
        i := i + 1;
      }
    }

    /** R_MarkSurfacesForLightShadowMap: empty the world chains, advance the
        stamp, then chain each surface of the leaves in the light's PVS once,
        the first time it is met. */
    method MarkSurfacesForLightShadowMap(light: Light)
      requires Stamped()
      modifies this`visframeCount, world.surfaces`visframe, world.textures`chains
      ensures Stamped() && visframeCount == old(visframeCount) + 1
      ensures var vis := LightPVS(light.kind, light.position, noVisPVS, leafPVS);
              MarkedFrom(visframeCount, FirstSeen([], Marks(vis, world.leaves, |world.leaves|)),
                         old(FramesOf(world.surfaces)), old(ChainsOf(world.textures)))
    {
      var vis: seq<bv8>;
      match light.kind {
        case Sun => vis := noVisPVS;
        case Spot => vis := leafPVS(light.position);
        case Point => vis := leafPVS(light.position);
      }
      assert vis == LightPVS(light.kind, light.position, noVisPVS, leafPVS);
      ghost var frames0, chains0 := FramesOf(world.surfaces), ChainsOf(world.textures);
      assert frames0 == old(FramesOf(world.surfaces)) && chains0 == old(ChainsOf(world.textures));
      StartPass(frames0, chains0);
      ghost var chained := MarkVisible(vis, frames0, chains0);
    }

    // -------------------------------------------------------------------------
    // The index batch
    // -------------------------------------------------------------------------

    /** `vbo_indices` holds `MAX_BATCH_SIZE` indices, `num_vbo_indices` of
        them pending. */
    ghost predicate BatchValid()
      reads this, indices
    {
      indices.Length == MaxBatchSize && count <= MaxBatchSize
    }

    /** The pass as the renderer holds it. */
    ghost function Now(): Pass
      reads this, indices
      requires BatchValid()
    {
      Pass(emitted, indices[..count], group, groups)
    }

    /** R_ClearBatch. */
    method ClearBatch()
      requires BatchValid()
      modifies this`count, this`group
      ensures BatchValid() && Now() == Cleared(old(Now()))
    {
      count := 0;
      group := [];
    }

    /** R_FlushBatch. */
    method FlushBatch()
      requires BatchValid()
      modifies this`count, this`emitted, this`group, this`groups
      ensures BatchValid() && Now() == Flushed(old(Now()))
    {
      if count > 0 {
        emitted := emitted + [DrawElements(indices[..count])];
        groups := groups + [group];
        count := 0;
      }
      group := [];
    }

    /** Writing one triangle at `d` extends the part from `at` and keeps
        the rest. */
    static lemma WriteTriangle(prev: seq<int>, at: nat, d: nat, e: nat, x: int, y: int, z: int)
      requires at <= d && d + 3 <= e <= |prev|
      ensures var cur := prev[d := x][d + 1 := y][d + 2 := z];
              cur[..at] == prev[..at] && cur[at..d + 3] == prev[at..d] + [x, y, z] && cur[e..] == prev[e..]
    {
      var cur := prev[d := x][d + 1 := y][d + 2 := z];
      assert cur[at..d + 3] == prev[at..d] + [x, y, z];
    }

    /** R_TriangleIndicesForSurf: write the fan of `s` at `at`; the rest of
        the buffer is unchanged. */
    method TriangleIndicesForSurf(s: Surface, at: nat)
      requires at + |SurfaceFan(s)| <= indices.Length
      modifies indices
      ensures indices[..at + |SurfaceFan(s)|] == old(indices[..at]) + SurfaceFan(s)
      ensures indices[at + |SurfaceFan(s)|..] == old(indices[at + |SurfaceFan(s)|..])
    {
      var fan := SurfaceFan(s);
      var first := s.firstVert;
      var i, d := 2, at;
      while i < s.numEdges
        invariant 2 <= i && (i <= s.numEdges || i == 2) && d == at + 3 * (i - 2) <= at + |fan|
        invariant indices[..at] == old(indices[..at])
        invariant indices[at..d] == Fan(first, i)
        invariant indices[at + |fan|..] == old(indices[at + |fan|..])
      {
        ghost var before := indices[..];
        indices[d] := first;
        indices[d + 1] := first + i - 1;
        indices[d + 2] := first + i;
        assert indices[..] == before[d := first][d + 1 := first + i - 1][d + 2 := first + i];
        WriteTriangle(before, at, d, at + |fan|, first, first + i - 1, first + i);
        d := d + 3;
        i := i + 1;
      }
      assert indices[..at + |fan|] == indices[..at] + indices[at..at + |fan|];
    }

    /** R_BatchSurface: flush first when the fan of `s` would overflow the
        batch, then append it. */
    method BatchSurface(s: Surface)
      requires BatchValid() && Batchable(s)
      modifies this`count, this`emitted, this`group, this`groups, indices
      ensures BatchValid() && Now() == Batched(old(Now()), s)
    {
      var n := NumTriangleIndices(s.numEdges);
      assert n == |SurfaceFan(s)|;
      if count + n > MaxBatchSize {
        FlushBatch();
      }
      TriangleIndicesForSurf(s, count);
      count := count + n;
      group := group + [s];
    }


    // -------------------------------------------------------------------------
    // The chain loop of R_DrawTextureChains_GLSL
    // -------------------------------------------------------------------------

    /** The binds at the first surface of a drawn texture. */
    method OpenTexture(t: Texture, fence: bool)
      modifies this`emitted
      ensures emitted == old(emitted) + TextureOn(t, fence)
    {
      emitted := emitted + [BindSurfaceTexture(t)];
      if fence {
        emitted := emitted + [AlphaTest(true)];
      }
    }

    /** One surface of a chain: flush on a lightmap change, bind the
        surface's lightmap, batch its fan. */
    method DrawSurface(s: Surface, last: nat)
      requires BatchValid() && Batchable(s)
      modifies this`count, this`emitted, this`group, this`groups, indices
      ensures BatchValid() && Now() == SurfaceStep(old(Now()), s, last)
    {
      if s.lightmap != last {
        FlushBatch();
      }
      emitted := emitted + [BindLightmap(s.lightmap)];
      BatchSurface(s);
    }

    /** The loop over the chain of a drawn texture, from the binds at its
        first surface to its last surface. */
    method DrawChainLoop(t: Texture, chain: seq<Surface>)
      requires BatchValid() && chain != [] && forall x :: x in chain ==> Batchable(x)
      modifies this`count, this`emitted, this`group, this`groups, indices
      ensures BatchValid()
      ensures Now() == ChainRun(old(Now()).(events := old(Now()).events + TextureOn(t, chain[0].flags.fence)),
                                chain, chain[0].lightmap)
    {
      ghost var q := Now().(events := emitted + TextureOn(t, chain[0].flags.fence));
      var bound := false;
      var lastLightmap: nat := 0;
      var j := 0;
      while j < |chain|
        invariant BatchValid() && 0 <= j <= |chain| && (bound <==> j > 0)
        invariant j == 0 ==> Now() == old(Now())
        invariant j > 0 ==> ChainRun(Now(), chain[j..], lastLightmap) == ChainRun(q, chain, chain[0].lightmap)
      {
        var s := chain[j];
        if !bound {
          OpenTexture(t, chain[0].flags.fence);
          bound := true;
          lastLightmap := s.lightmap;
          assert Now() == q;
        }
        assert chain[j..][0] == s && chain[j..][1..] == chain[j + 1..];
        DrawSurface(s, lastLightmap);
        lastLightmap := s.lightmap;
        j := j + 1;
      }
    }

    /** One texture of R_DrawTextureChains_GLSL: pass over a hole, an empty
        chain or a tiled, untextured or turbulent head; otherwise clear the
        batch, walk the chain, flush, and turn the alpha test back off for
        a fence texture. */
    method DrawTexture(t: Texture?, slot: ChainSlot)
      requires BatchValid()
      requires !Skipped(t, slot) ==> forall x :: x in t.chains.Get(slot) ==> Batchable(x)
      modifies this`count, this`emitted, this`group, this`groups, indices
      ensures BatchValid() && Now() == TexturePass(old(Now()), t, slot)
    {
      if t == null || t.chains.Get(slot) == [] {
        return;
      }
      var chain := t.chains.Get(slot);
      var head := chain[0];
      if head.flags.tiled || head.flags.noTexture || head.flags.turb {
        return;
      }
      ClearBatch();
      DrawChainLoop(t, chain);
      FlushBatch();
      if head.flags.fence {
        emitted := emitted + [AlphaTest(false)];
      }
    }

    /** The chain loop of R_DrawTextureChains_GLSL over a texture table. */
    method DrawTextureChains(textures: seq<Texture?>, slot: ChainSlot)
      requires BatchValid() && forall x :: x in Drawn(textures, slot) ==> Batchable(x)
      modifies this`count, this`emitted, this`group, this`groups, indices
      ensures BatchValid() && Now() == TexturesPass(old(Now()), textures, slot)
    {
      var i := 0;
      while i < |textures|
        invariant BatchValid() && 0 <= i <= |textures|
        invariant Now() == TexturesPass(old(Now()), textures[..i], slot)
      {
        assert textures[..i + 1][..i] == textures[..i];
        DrawnPrefix(textures, i, slot);
        DrawTexture(textures[i], slot);
        i := i + 1;
      }
      assert textures[..i] == textures;
    }
  }
}
