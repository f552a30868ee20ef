/** The particle system of `r_part.c`: the alpha texture of a particle, the
    size of the particle pool, the free and active lists threaded through the
    pool, the spawners that move particles from one list to the other, and the
    per-frame kill pass that returns expired particles and writes one vertex
    per survivor. */
module Particles {
  import opened Common

  /** `MAX_PARTICLES`, the length of the static vertex array `part_verts`. */
  const MaxParticles: nat := 100 * 1024
  /** `ABSOLUTE_MIN_PARTICLES`. */
  const AbsoluteMinParticles: nat := 512
  /** `NUMVERTEXNORMALS`, the number of precomputed vertex normals. */
  const NumVertexNormals: nat := 162

  const Ramp1: seq<int> := [0x6f, 0x6d, 0x6b, 0x69, 0x67, 0x65, 0x63, 0x61]
  const Ramp3: seq<int> := [0x6d, 0x6b, 6, 5, 4, 3, 0, 0]

  /** `ptype_t`. */
  datatype Kind = Static | Grav | SlowGrav | Fire | Explode | Explode2 | Blob | Blob2

  // ---------------------------------------------------------------------
  // The particle texture

  /** Squared distance of texel (x, y) from the centre (16, 16), capped at 255. */
  function Radius(x: int, y: int): (r: int)
    ensures 0 <= r <= 255
  {
    Square(x - 16);
    Square(y - 16);
    var d := (x - 16) * (x - 16) + (y - 16) * (y - 16);
    if d > 255 then 255 else d
  }

  lemma Square(d: int)
    ensures d * d >= 0 && (d * d == 0 <==> d == 0)
  {
    if d != 0 {
      assert d * d > 0 by {
        if d > 0 { assert d * d >= d; } else { assert d * d >= -d; }
      }
    }
  }

  /** Only the centre texel is at distance 0. */
  lemma RadiusZero(x: int, y: int)
    ensures Radius(x, y) == 0 <==> x == 16 && y == 16
  {
    Square(x - 16);
    Square(y - 16);
  }

  /** `R_ParticleTextureLookup`: alpha of texel (x, y) of the antialiased
      circle drawn into the particle texture. */
  function TextureLookup(x: int, y: int, sharpness: int): (a: int)
    ensures sharpness >= 0 ==> 0 <= a <= 255
    ensures sharpness >= 1 && x == 16 && y == 16 ==> a == 255
    ensures sharpness <= 0 ==> a <= 0
  {
    var r := Radius(x, y);
    Scaled(sharpness, 255 - r);
    var a := sharpness * (255 - r);
    Min(a, 255)
  }

  lemma Scaled(s: int, m: int)
    requires 0 <= m <= 255
    ensures s >= 0 ==> s * m >= 0
    ensures s <= 0 ==> s * m <= 0
    ensures s >= 1 && m == 255 ==> s * m >= 255
  {
  }

  /** The circle is symmetric: reflecting either axis about 16, or swapping
      the axes, gives the same alpha. */
  lemma LookupSymmetric(dx: int, dy: int, sharpness: int)
    ensures TextureLookup(16 + dx, 16 + dy, sharpness) == TextureLookup(16 - dx, 16 + dy, sharpness)
    ensures TextureLookup(16 + dx, 16 + dy, sharpness) == TextureLookup(16 + dx, 16 - dy, sharpness)
    ensures TextureLookup(16 + dx, 16 + dy, sharpness) == TextureLookup(16 + dy, 16 + dx, sharpness)
  {
    assert (16 - dx - 16) * (16 - dx - 16) == dx * dx;
    assert (16 - dy - 16) * (16 - dy - 16) == dy * dy;
  }

  /** A texel nearer the centre is never more transparent than one farther
      away, and texels at squared distance 255 or more are fully transparent. */
  lemma LookupFades(x1: int, y1: int, x2: int, y2: int, sharpness: int)
    requires sharpness >= 0
    requires (x1 - 16) * (x1 - 16) + (y1 - 16) * (y1 - 16) <= (x2 - 16) * (x2 - 16) + (y2 - 16) * (y2 - 16)
    ensures TextureLookup(x1, y1, sharpness) >= TextureLookup(x2, y2, sharpness)
    ensures (x2 - 16) * (x2 - 16) + (y2 - 16) * (y2 - 16) >= 255 ==> TextureLookup(x2, y2, sharpness) == 0
  {
    var r1, r2 := Radius(x1, y1), Radius(x2, y2);
    assert r1 <= r2;
    assert sharpness * (255 - r1) >= sharpness * (255 - r2) by {
      assert sharpness * (255 - r1) - sharpness * (255 - r2) == sharpness * (r2 - r1);
    }
  }

  // ---------------------------------------------------------------------
  // The pool size

  /** `R_InitParticles` as written: `-particles N` (here `Some(N)`) is raised
      to at least `ABSOLUTE_MIN_PARTICLES` but never lowered. */
  function ParticleCountAsWritten(arg: Option<int>): (n: int)
    ensures n >= AbsoluteMinParticles
  {
    match arg
    case None => MaxParticles
    case Some(v) => if v < AbsoluteMinParticles then AbsoluteMinParticles else v
  }

  /** The count as written can exceed the length of `part_verts`, which
      `CL_RunParticles` indexes by the number of surviving particles. */
  lemma AsWrittenExceedsVertexArray()
    ensures ParticleCountAsWritten(Some(200000)) > MaxParticles
  {
  }

  /** The pool size clamped to the vertex array as well: the count the rest of
      the model uses. */
  function ParticleCount(arg: Option<int>): (n: nat)
    ensures AbsoluteMinParticles <= n <= MaxParticles
    ensures arg.None? ==> n == MaxParticles
    ensures arg.Some? && AbsoluteMinParticles <= arg.value <= MaxParticles ==> n == arg.value
    ensures arg.Some? ==> n == ParticleCountAsWritten(arg) || n == MaxParticles
  {
    match arg
    case None => MaxParticles
    case Some(v) =>
      if v < AbsoluteMinParticles then AbsoluteMinParticles
      else if v > MaxParticles then MaxParticles
      else v
  }

  // ---------------------------------------------------------------------
  // The kill pass, as a function of the active list

  /** Every particle of `xs` has a slot in `dies`. */
  ghost predicate InPool(xs: seq<nat>, dies: seq<real>)
  {
    forall k :: 0 <= k < |xs| ==> xs[k] < |dies|
  }

  /** The particles of `xs` still alive at `time`, in their order. */
  function Alive(xs: seq<nat>, dies: seq<real>, time: real): seq<nat>
    requires InPool(xs, dies)
  {
    if xs == [] then []
    else
      var last := xs[|xs| - 1];
      Alive(xs[..|xs| - 1], dies, time) + (if dies[last] < time then [] else [last])
  }

  /** The particles of `xs` that expired before `time`, in their order. */
  function Dead(xs: seq<nat>, dies: seq<real>, time: real): seq<nat>
    requires InPool(xs, dies)
  {
    if xs == [] then []
    else
      var last := xs[|xs| - 1];
      Dead(xs[..|xs| - 1], dies, time) + (if dies[last] < time then [last] else [])
  }

  lemma {:induction false} AliveAppend(a: seq<nat>, b: seq<nat>, dies: seq<real>, time: real)
    requires InPool(a, dies) && InPool(b, dies)
    ensures InPool(a + b, dies)
    ensures Alive(a + b, dies, time) == Alive(a, dies, time) + Alive(b, dies, time)
    ensures Dead(a + b, dies, time) == Dead(a, dies, time) + Dead(b, dies, time)
    decreases |b|
  {
    if b == [] {
      assert a + b == a;
    } else {
      var b' := b[..|b| - 1];
      assert (a + b)[..|a + b| - 1] == a + b';
      AliveAppend(a, b', dies, time);
    }
  }

  /** The kill pass splits the active list: survivors are exactly the members
      whose time has not passed, the rest are exactly the expired ones, and
      together they hold every particle once. */
  lemma {:induction false} AliveDeadSplit(xs: seq<nat>, dies: seq<real>, time: real)
    requires InPool(xs, dies)
    ensures forall x :: x in Alive(xs, dies, time) <==> x in xs && dies[x] >= time
    ensures forall x :: x in Dead(xs, dies, time) <==> x in xs && dies[x] < time
    ensures multiset(Alive(xs, dies, time)) + multiset(Dead(xs, dies, time)) == multiset(xs)
  {
    if xs != [] {
      var init := xs[..|xs| - 1];
      AliveDeadSplit(init, dies, time);
      assert xs == init + [xs[|xs| - 1]];
      AliveDeadLast(xs, dies, time);
    }
  }

  /** Alive and Dead of a non-empty list split on its last particle. */
  lemma AliveDeadLast(xs: seq<nat>, dies: seq<real>, time: real)
    requires InPool(xs, dies) && xs != []
    ensures var init, last := xs[..|xs| - 1], xs[|xs| - 1];
      && multiset(Alive(xs, dies, time)) + multiset(Dead(xs, dies, time))
           == multiset(Alive(init, dies, time)) + multiset(Dead(init, dies, time)) + multiset{last}
      && (forall x :: x in Alive(xs, dies, time) <==> x in Alive(init, dies, time) || (x == last && dies[x] >= time))
      && (forall x :: x in Dead(xs, dies, time) <==> x in Dead(init, dies, time) || (x == last && dies[x] < time))
  {
  }

  lemma {:induction false} AliveNoDup(xs: seq<nat>, dies: seq<real>, time: real)
    requires InPool(xs, dies) && NoDup(xs)
    ensures NoDup(Alive(xs, dies, time))
  {
    if xs != [] {
      var init := xs[..|xs| - 1];
      AliveNoDup(init, dies, time);
      AliveDeadSplit(init, dies, time);
    }
  }

  lemma AllDead(g: seq<nat>, k: nat, dies: seq<real>, time: real)
    requires InPool(g, dies) && k < |dies| && dies[k] < time
    requires Alive(g, dies, time) == [] && Dead(g, dies, time) == g
    ensures InPool(g + [k], dies)
    ensures Alive(g + [k], dies, time) == [] && Dead(g + [k], dies, time) == g + [k]
  {
    assert (g + [k])[..|g|] == g;
  }

  /** One step of the walk: the particle after the current one expired and is
      unlinked. */
  lemma SeenDead(a: seq<nat>, seen: nat, dies: seq<real>, time: real)
    requires InPool(a, dies) && seen < |a| && dies[a[seen]] < time
    ensures Alive(a[..seen + 1], dies, time) == Alive(a[..seen], dies, time)
    ensures Dead(a[..seen + 1], dies, time) == Dead(a[..seen], dies, time) + [a[seen]]
  {
    assert a[..seen + 1][..seen] == a[..seen];
  }

  /** One step of the walk: the next particle survives and becomes current. */
  lemma SeenAlive(a: seq<nat>, seen: nat, dies: seq<real>, time: real)
    requires InPool(a, dies) && seen < |a| && dies[a[seen]] >= time
    ensures Alive(a[..seen + 1], dies, time) == Alive(a[..seen], dies, time) + [a[seen]]
    ensures Dead(a[..seen + 1], dies, time) == Dead(a[..seen], dies, time)
  {
    assert a[..seen + 1][..seen] == a[..seen];
  }

  /** Removing one element keeps a duplicate-free sequence duplicate-free and
      takes exactly that element out. */
  lemma NoDupRemove(s: seq<nat>, j: nat)
    requires NoDup(s) && j < |s|
    ensures NoDup(s[..j] + s[j + 1..])
    ensures forall x :: x in s[..j] + s[j + 1..] <==> x in s && x != s[j]
  {
    var t := s[..j] + s[j + 1..];
    forall a, b | 0 <= a < b < |t|
      ensures t[a] != t[b]
    {
      var a' := if a < j then a else a + 1;
      var b' := if b < j then b else b + 1;
      assert t[a] == s[a'] && t[b] == s[b'];
    }
    forall x
      ensures x in t <==> x in s && x != s[j]
    {
      if x in s && x != s[j] {
        var i :| 0 <= i < |s| && s[i] == x;
        assert i != j;
        if i < j { assert t[i] == x; } else { assert t[i - 1] == x; }
      }
    }
  }

  // ---------------------------------------------------------------------
  // Rocket trails

  /** The trail type after `R_RocketTrail` strips the dense flag 128. */
  function TrailType(trail: int): int
  {
    if trail < 128 then trail else trail - 128
  }

  /** Trail length consumed per particle: 3 units, or 1 for the dense types
      from 128 up, plus 3 more for slight blood (type 4). */
  function TrailStride(trail: int): (stride: real)
    ensures stride >= 1.0
    ensures trail < 128 ==> stride == if trail == 4 then 6.0 else 3.0
    ensures trail >= 128 ==> stride == if trail == 132 then 4.0 else 1.0
  {
    (if trail < 128 then 3.0 else 1.0) + (if TrailType(trail) == 4 then 3.0 else 0.0)
  }

  /** The number of particles a trail of length `len` places when the pool
      never runs out. */
  function TrailCount(len: real, stride: real): nat
    requires stride >= 1.0
    decreases if len <= 0.0 then 0 else len.Floor + 1
  {
    if len <= 0.0 then 0 else 1 + TrailCount(len - stride, stride)
  }

  /** The trail loop places the least number of particles whose strides
      cover the length: `ceil(len / stride)`. */
  lemma {:induction false} TrailCountCovers(len: real, stride: real)
    requires stride >= 1.0
    ensures len <= 0.0 ==> TrailCount(len, stride) == 0
    ensures len > 0.0 ==> (TrailCount(len, stride) - 1) as real * stride < len <= TrailCount(len, stride) as real * stride
    decreases if len <= 0.0 then 0 else len.Floor + 1
  {
    if len > 0.0 {
      TrailCountCovers(len - stride, stride);
    }
  }

  /** `(tracercount & 4) << 1`: tracers alternate colour every four. */
  function TracerTint(tc: nat): (r: int)
    ensures r == 0 || r == 8
    ensures r == 8 <==> tc % 8 >= 4
  {
    8 * (tc / 4 % 2)
  }

  /** Lifetime of a trail particle. */
  function TrailLife(t: int): real
  {
    if t == 3 || t == 5 then 0.5 else if t == 6 then 0.3 else 2.0
  }

  /** Kind of a trail particle; unknown trail types leave it as it was. */
  function TrailKind(t: int, stale: Kind): Kind
  {
    if t == 0 || t == 1 then Fire
    else if t == 2 || t == 4 then Grav
    else if 3 <= t <= 6 then Static
    else stale
  }

  /** Colour of a trail particle that drew `r` from `rand()` and, for a
      tracer, was the tracer numbered `tc`; unknown trail types leave it as it
      was. */
  function TrailTint(t: int, r: nat, tc: nat, stale: int): int
  {
    if t == 0 then Ramp3[r % 4]
    else if t == 1 then Ramp3[r % 4 + 2]
    else if t == 2 || t == 4 then 67 + r % 4
    else if t == 3 then 52 + TracerTint(tc)
    else if t == 5 then 230 + TracerTint(tc)
    else if t == 6 then 9 * 16 + 8 + r % 4
    else stale
  }

  /** The first `n` trail particles taken from `free0` carry, in `dies`,
      `kinds` and `colors`, the attributes their trail type gives them. */
  ghost predicate TrailMade(free0: seq<nat>, n: nat, time: real, t: int, tc0: nat, roll: nat -> nat,
                            kinds0: seq<Kind>, colors0: seq<int>,
                            dies: seq<real>, kinds: seq<Kind>, colors: seq<int>)
  {
    n <= |free0|
    && forall k :: 0 <= k < n ==>
         free0[k] < |kinds0| && free0[k] < |colors0|
         && free0[k] < |dies| && free0[k] < |kinds| && free0[k] < |colors|
         && dies[free0[k]] == time + TrailLife(t)
         && kinds[free0[k]] == TrailKind(t, kinds0[free0[k]])
         && colors[free0[k]] == TrailTint(t, roll(k), tc0 + k, colors0[free0[k]])
  }

  lemma TrailMadeStep(free0: seq<nat>, n: nat, time: real, t: int, tc0: nat, roll: nat -> nat,
                      kinds0: seq<Kind>, colors0: seq<int>,
                      dies: seq<real>, kinds: seq<Kind>, colors: seq<int>)
    requires TrailMade(free0, n, time, t, tc0, roll, kinds0, colors0, dies, kinds, colors)
    requires n < |free0| && NoDup(free0)
    requires free0[n] < |kinds0| == |colors0| == |dies| == |kinds| == |colors|
    ensures TrailMade(free0, n + 1, time, t, tc0, roll, kinds0, colors0,
                      dies[free0[n] := time + TrailLife(t)],
                      kinds[free0[n] := TrailKind(t, kinds0[free0[n]])],
                      colors[free0[n] := TrailTint(t, roll(n), tc0 + n, colors0[free0[n]])])
  {
  }

  // ---------------------------------------------------------------------
  // The two lists

  /** The free and active lists of a pool of `n` particles: each holds each
      particle at most once, no particle is on both, and together they hold
      at most the pool. */
  ghost predicate Lists(free: seq<nat>, active: seq<nat>, n: nat)
  {
    && NoDup(free) && NoDup(active)
    && (forall x :: x in free ==> x !in active && x < n)
    && (forall x :: x in active ==> x < n)
    && |free| + |active| <= n
  }

  lemma ListsInPool(free: seq<nat>, active: seq<nat>, n: nat, dies: seq<real>)
    requires Lists(free, active, n) && |dies| == n
    ensures InPool(free, dies) && InPool(active, dies)
  {
    assert forall k :: 0 <= k < |active| ==> active[k] in active;
    assert forall k :: 0 <= k < |free| ==> free[k] in free;
  }

  /** Every particle of a pool of `n` is on one of the lists. */
  ghost predicate Covered(free: seq<nat>, active: seq<nat>, n: nat)
  {
    forall x: nat :: x < n ==> x in free || x in active
  }

  /** An operation that neither loses nor duplicates particles keeps the two
      lists a partition of the pool. */
  lemma PartitionKept(free: seq<nat>, active: seq<nat>, free': seq<nat>, active': seq<nat>, n: nat)
    requires Covered(free, active, n)
    requires multiset(free') + multiset(active') == multiset(free) + multiset(active)
    ensures Covered(free', active', n)
  {
    forall x: nat | x < n
      ensures x in free' || x in active'
    {
      if x in free {
        assert x in multiset(free);
      } else {
        assert x in multiset(active);
      }
      assert x in multiset(free') + multiset(active');
    }
  }

  /** `R_ClearParticles` threading particle `i` onto the end of the free list. */
  lemma ListsAppendFree(free: seq<nat>, i: nat, n: nat)
    requires Lists(free, [], n) && i < n && i !in free && |free| < n
    ensures Lists(free + [i], [], n)
  {
  }

  /** A spawn: the free head moves to the active head. */
  lemma ListsPop(free: seq<nat>, active: seq<nat>, n: nat)
    requires Lists(free, active, n) && free != []
    ensures Lists(free[1..], [free[0]] + active, n)
  {
    NoDupTail(free);
    NoDupCons(free[0], active);
    forall x | x in free[1..]
      ensures x in free && x != free[0]
    {
    }
  }

  /** A kill: the active particle at `j` moves to the free head. */
  lemma ListsUnlink(free: seq<nat>, active: seq<nat>, n: nat, j: nat)
    requires Lists(free, active, n) && j < |active|
    ensures Lists([active[j]] + free, active[..j] + active[j + 1..], n)
  {
    var rest := active[..j] + active[j + 1..];
    NoDupRemove(active, j);
    assert active[j] in active;
    NoDupCons(active[j], free);
    forall x | x in [active[j]] + free
      ensures x !in rest && x < n
    {
      if x != active[j] {
        assert x in free;
      }
    }
    assert NoDup(rest);
    assert NoDup([active[j]] + free);
    forall x | x in rest
      ensures x < n
    {
      var i :| 0 <= i < |rest| && rest[i] == x;
      var i' := if i < j then i else i + 1;
      assert x == active[i'] && active[i'] in active;
    }
  }

  // ---------------------------------------------------------------------
  // The kill pass, step by step

  /** After the first kill loop removed `gone` from the head of `a0`: the
      removed particles all expired and were pushed on the free list. */
  ghost predicate HeadKilled(a0: seq<nat>, free0: seq<nat>, gone: seq<nat>, active: seq<nat>, free: seq<nat>,
                             dies: seq<real>, time: real, n: nat)
  {
    Lists(free, active, n) && |dies| == n && a0 == gone + active && InPool(gone, dies)
    && Alive(gone, dies, time) == [] && Dead(gone, dies, time) == gone
    && free == Reverse(gone) + free0
  }

  /** One iteration of the first kill loop: the expired head moves to the
      free list. */
  lemma KillFirstStep(a0: seq<nat>, free0: seq<nat>, gone: seq<nat>, active: seq<nat>, free: seq<nat>,
                      dies: seq<real>, time: real, n: nat)
    requires HeadKilled(a0, free0, gone, active, free, dies, time, n)
    requires active != [] && active[0] < |dies| && dies[active[0]] < time
    ensures HeadKilled(a0, free0, gone + [active[0]], active[1..], [active[0]] + free, dies, time, n)
  {
    ListsUnlink(free, active, n, 0);
    assert active[..0] + active[1..] == active[1..];
    GoneStep(a0, free0, gone, active, free, dies, time);
  }

  lemma GoneStep(a0: seq<nat>, free0: seq<nat>, gone: seq<nat>, active: seq<nat>, free: seq<nat>,
                 dies: seq<real>, time: real)
    requires a0 == gone + active && InPool(gone, dies)
    requires Alive(gone, dies, time) == [] && Dead(gone, dies, time) == gone && free == Reverse(gone) + free0
    requires active != [] && active[0] < |dies| && dies[active[0]] < time
    ensures a0 == (gone + [active[0]]) + active[1..] && InPool(gone + [active[0]], dies)
    ensures Alive(gone + [active[0]], dies, time) == [] && Dead(gone + [active[0]], dies, time) == gone + [active[0]]
    ensures [active[0]] + free == Reverse(gone + [active[0]]) + free0
  {
    var kill := active[0];
    AllDead(gone, kill, dies, time);
    ReverseAppend(gone, [kill]);
    assert Reverse([kill]) == [kill] by {
      assert [kill][1..] == [];
    }
    AppendAssoc([kill], Reverse(gone), free0);
    assert active == [kill] + active[1..];
    AppendAssoc(gone, [kill], active[1..]);
  }

  /** The walk over `a1` (the active list after the first kill loop, with
      `free1` the free list then): `seen` particles of `a1` have been looked
      at, `i` survivors are done and, while `i < |active|`, `active[i]` is
      the current particle. */
  ghost predicate Walked(a1: seq<nat>, free1: seq<nat>, seen: nat, i: nat, active: seq<nat>, free: seq<nat>,
                         dies: seq<real>, time: real, n: nat)
  {
    Lists(free, active, n) && |dies| == n && InPool(a1, dies) && seen <= |a1| && i <= |active|
    && active == Alive(a1[..seen], dies, time) + a1[seen..]
    && |Alive(a1[..seen], dies, time)| == Min(i + 1, |active|)
    && free == Reverse(Dead(a1[..seen], dies, time)) + free1
  }

  /** The walk starts at the head, which survived the first loop. */
  lemma WalkStarts(a1: seq<nat>, free1: seq<nat>, dies: seq<real>, time: real, n: nat)
    returns (seen: nat)
    requires Lists(free1, a1, n) && |dies| == n
    requires a1 != [] ==> a1[0] < n && dies[a1[0]] >= time
    ensures Walked(a1, free1, seen, 0, a1, free1, dies, time, n)
  {
    ListsInPool(free1, a1, n, dies);
    assert a1[..0] == [];
    if a1 == [] {
      seen := 0;
    } else {
      SeenAlive(a1, 0, dies, time);
      seen := 1;
      assert a1 == a1[..1] + a1[1..];
    }
  }

  /** The expired particle after the current one is unlinked and pushed on
      the free list. */
  lemma UnlinkStep(a1: seq<nat>, free1: seq<nat>, seen: nat, i: nat, active: seq<nat>, free: seq<nat>,
                   dies: seq<real>, time: real, n: nat)
    requires Walked(a1, free1, seen, i, active, free, dies, time, n)
    requires i + 1 < |active| && active[i + 1] < |dies| && dies[active[i + 1]] < time
    ensures Walked(a1, free1, seen + 1, i, active[..i + 1] + active[i + 2..], [active[i + 1]] + free,
                   dies, time, n)
  {
    var kill := active[i + 1];
    var prefix := Alive(a1[..seen], dies, time);
    assert |prefix| == i + 1;
    assert active[i + 1..] == a1[seen..];
    assert seen < |a1| && a1[seen] == kill;
    SeenDead(a1, seen, dies, time);
    ListsUnlink(free, active, n, i + 1);
    ReverseAppend(Dead(a1[..seen], dies, time), [kill]);
    assert active[..i + 1] == prefix;
    assert active[i + 2..] == a1[seen + 1..];
  }

  /** The current particle is always on the list, so it has a vertex slot. */
  lemma WalkLength(a1: seq<nat>, free1: seq<nat>, seen: nat, i: nat, active: seq<nat>, free: seq<nat>,
                   dies: seq<real>, time: real, n: nat)
    requires Walked(a1, free1, seen, i, active, free, dies, time, n)
    ensures |active| <= n
  {
  }

  /** Having written the current particle's vertex, move to the next one,
      which survived the inner kill loop. */
  lemma VisitStep(a1: seq<nat>, free1: seq<nat>, seen: nat, i: nat, active: seq<nat>, free: seq<nat>,
                  dies: seq<real>, time: real, n: nat)
    returns (seen': nat)
    requires Walked(a1, free1, seen, i, active, free, dies, time, n) && i < |active|
    requires i + 1 < |active| ==> active[i + 1] < |dies| && dies[active[i + 1]] >= time
    ensures Walked(a1, free1, seen', i + 1, active, free, dies, time, n)
  {
    var prefix := Alive(a1[..seen], dies, time);
    if i + 1 < |active| {
      assert active[i + 1..] == a1[seen..];
      assert seen < |a1| && a1[seen] == active[i + 1];
      SeenAlive(a1, seen, dies, time);
      seen' := seen + 1;
      assert active == prefix + [a1[seen]] + a1[seen + 1..];
      assert a1[..seen + 1] == a1[..seen] + [a1[seen]];
    } else {
      seen' := seen;
    }
  }

  /** When the walk falls off the end, every particle of `a1` was seen. */
  lemma WalkEnds(a1: seq<nat>, free1: seq<nat>, seen: nat, i: nat, active: seq<nat>, free: seq<nat>,
                 dies: seq<real>, time: real, n: nat)
    requires Walked(a1, free1, seen, i, active, free, dies, time, n) && i >= |active|
    ensures active == Alive(a1, dies, time) && free == Reverse(Dead(a1, dies, time)) + free1
  {
    assert seen == |a1|;
    assert a1[..seen] == a1;
  }

  /** The two loops together: the survivors of the whole list stay active in
      order, the expired ones go on the free list, and no particle is lost or
      duplicated. */
  lemma KillPassComposes(a0: seq<nat>, free0: seq<nat>, gone: seq<nat>, a1: seq<nat>, free1: seq<nat>,
                         active: seq<nat>, free: seq<nat>, dies: seq<real>, time: real)
    requires a0 == gone + a1 && InPool(gone, dies) && InPool(a1, dies)
    requires Alive(gone, dies, time) == [] && Dead(gone, dies, time) == gone && free1 == Reverse(gone) + free0
    requires active == Alive(a1, dies, time) && free == Reverse(Dead(a1, dies, time)) + free1
    ensures InPool(a0, dies)
    ensures active == Alive(a0, dies, time) && free == Reverse(Dead(a0, dies, time)) + free0
    ensures multiset(free) + multiset(active) == multiset(free0) + multiset(a0)
  {
    var d1 := Dead(a1, dies, time);
    AliveAppend(gone, a1, dies, time);
    assert Dead(a0, dies, time) == gone + d1;
    ReverseAppend(gone, d1);
    AppendAssoc(Reverse(d1), Reverse(gone), free0);
    AliveDeadSplit(a0, dies, time);
    ReverseMultiset(Dead(a0, dies, time));
  }

  // ---------------------------------------------------------------------
  // The pool

  /** The particle pool: `particles[r_numparticles]` with the attributes the
      list logic reads or the spawners set, the `free_particles` and
      `active_particles` lists (the `next` links, held as sequences of pool
      indices, head first), the vertex array `part_verts` (which pool index
      each vertex was written from) and the `frame_particles` counter. */
  class ParticlePool {
    const size: nat
    const die: array<real>
    const kind: array<Kind>
    const color: array<int>
    const verts: array<nat>
    var free: seq<nat>
    var active: seq<nat>
    var frameParticles: nat
    /** The static `tracercount` of `R_RocketTrail`. */
    var tracerCount: nat

    /** The arrays match the pool size; each list holds each particle at most
        once, no particle is on both lists, and together they hold at most the
        pool. */
    ghost predicate Valid()
      reads this
    {
      Shape() && Lists(free, active, size)
    }

    /** The arrays match the pool size, which fits the vertex array. */
    ghost predicate Shape()
      reads this
    {
      && die.Length == size && kind.Length == size && color.Length == size
      && verts.Length == MaxParticles && size <= MaxParticles
    }

    /** Every particle of the pool is on one of the two lists. */
    ghost predicate Covers()
      reads this
    {
      Covered(free, active, size)
    }

    /** The first `n` free particles were moved to the active head, newest
        first. */
    ghost predicate Popped(free0: seq<nat>, active0: seq<nat>, n: nat)
      reads this
    {
      n <= |free0| && free == free0[n..] && active == Reverse(free0[..n]) + active0
    }

    /** Particle `p` carries the given expiry time, kind and colour. */
    ghost predicate Born(p: nat, d: real, k: Kind, c: int)
      reads this, die, kind, color
    {
      p < die.Length && p < kind.Length && p < color.Length
      && die[p] == d && kind[p] == k && color[p] == c
    }

    /** `R_InitParticles`: allocate `ParticleCount(arg)` zeroed particles;
        both lists are empty until `ClearParticles`. */
    constructor (arg: Option<int>)
      ensures Valid()
      ensures size == ParticleCount(arg)
      ensures free == [] && active == [] && frameParticles == 0
      ensures fresh(die) && fresh(kind) && fresh(color) && fresh(verts)
    {
      size := ParticleCount(arg);
      die := new real[ParticleCount(arg)]((_: nat) => 0.0);
      kind := new Kind[ParticleCount(arg)]((_: nat) => Static);
      color := new int[ParticleCount(arg)]((_: nat) => 0);
      verts := new nat[MaxParticles]((_: nat) => 0);
      free := [];
      active := [];
      frameParticles := 0;
      tracerCount := 0;
    }

    /** `R_ClearParticles`: every particle on the free list in index order,
        the active list empty. */
    method ClearParticles()
      requires Valid()
      modifies this`free, this`active
      ensures Valid() && Covers()
      ensures |free| == size && (forall k :: 0 <= k < size ==> free[k] == k)
      ensures active == []
    {
      free := [];
      active := [];
      var i := 0;
      while i < size
        invariant 0 <= i <= size
        invariant |free| == i && forall k :: 0 <= k < i ==> free[k] == k
        invariant Valid() && active == []
      {
        ListsAppendFree(free, i, size);
        free := free + [i];
        i := i + 1;
      }
      forall x: nat | x < size
        ensures x in free
      {
        assert free[x] == x;
      }
    }

    /** One allocation of a spawner: pop the free head and push it on the
        active head; -1 when the free list is empty. */
    method Alloc() returns (p: int)
      requires Valid()
      modifies this`free, this`active
      ensures Valid()
      ensures old(free) == [] ==> p == -1 && free == [] && active == old(active)
      ensures old(free) != [] ==> p == old(free)[0] && free == old(free)[1..] && active == [p] + old(active)
      ensures multiset(free) + multiset(active) == old(multiset(free) + multiset(active))
    {
      if free == [] {
        return -1;
      }
      p := free[0];
      assert free == [p] + free[1..];
      ListsPop(free, active, size);
      free := free[1..];
      active := [p] + active;
    }

    lemma PoppedStep(free0: seq<nat>, active0: seq<nat>, i: nat)
      requires i < |free0|
      requires free == free0[i + 1..] && active == [free0[i]] + (Reverse(free0[..i]) + active0)
      ensures Popped(free0, active0, i + 1)
    {
      assert free0[..i + 1] == free0[..i] + [free0[i]];
      ReverseAppend(free0[..i], [free0[i]]);
    }

    /** The spawner loop shared by `R_EntityParticles`, `R_ParticleExplosion`,
        `R_ParticleExplosion2`, `R_BlobExplosion`, `R_RunParticleEffect`,
        `R_LavaSplash` and `R_TeleportSplash`: up to `count` allocations,
        stopping silently when the free list runs out; the k-th particle gets
        expiry `time + life(k)`, kind `kinds(k)` and colour `tints(k)`. */
    method Spawn(count: nat, time: real, life: nat -> real, kinds: nat -> Kind, tints: nat -> int)
      returns (n: nat)
      requires Valid()
      modifies this`free, this`active, die, kind, color
      ensures Valid()
      ensures n == Min(count, |old(free)|)
      ensures Popped(old(free), old(active), n)
      ensures multiset(free) + multiset(active) == old(multiset(free) + multiset(active))
      ensures BornFirst(old(free), n, time, life, kinds, tints)
      ensures Untouched(old(die[..]), old(kind[..]), old(color[..]), old(free)[..n])
    {
      ghost var free0, active0 := free, active;
      ghost var d0, k0, c0 := die[..], kind[..], color[..];
      n := 0;
      assert free0[..0] == [];
      while n < count
        invariant n <= count
        invariant Spawning(free0, active0, n, time, life, kinds, tints, d0, k0, c0)
      {
        if free == [] {
          break;
        }
        SpawnOne(time, life, kinds, tints, free0, active0, n, d0, k0, c0);
        n := n + 1;
      }
    }

    /** The state of the spawner loop after `n` allocations from `free0`. */
    ghost predicate Spawning(free0: seq<nat>, active0: seq<nat>, n: nat, time: real, life: nat -> real,
                             kinds: nat -> Kind, tints: nat -> int, d0: seq<real>, k0: seq<Kind>, c0: seq<int>)
      reads this, die, kind, color
    {
      && Valid() && Popped(free0, active0, n) && NoDup(free0)
      && multiset(free) + multiset(active) == multiset(free0) + multiset(active0)
      && BornFirst(free0, n, time, life, kinds, tints)
      && Untouched(d0, k0, c0, free0[..n])
    }

    /** One iteration of the spawner loop: allocate, then set the attributes. */
    method SpawnOne(time: real, life: nat -> real, kinds: nat -> Kind, tints: nat -> int,
                    ghost free0: seq<nat>, ghost active0: seq<nat>, n: nat,
                    ghost d0: seq<real>, ghost k0: seq<Kind>, ghost c0: seq<int>)
      requires Spawning(free0, active0, n, time, life, kinds, tints, d0, k0, c0) && free != []
      modifies this`free, this`active, die, kind, color
      ensures Spawning(free0, active0, n + 1, time, life, kinds, tints, d0, k0, c0)
    {
      var p := Alloc();
      PoppedStep(free0, active0, n);
      assert p in active;
      Stamp(p, time, life, kinds, tints, free0, n, d0, k0, c0);
    }

    /** Particles outside `done` still carry the attributes `dies`, `kinds`
        and `colors`. */
    ghost predicate Untouched(dies: seq<real>, kinds: seq<Kind>, colors: seq<int>, done: seq<nat>)
      reads this, die, kind, color
    {
      forall j :: 0 <= j < size && j !in done ==>
        j < die.Length && j < kind.Length && j < color.Length
        && j < |dies| && j < |kinds| && j < |colors|
        && die[j] == dies[j] && kind[j] == kinds[j] && color[j] == colors[j]
    }

    /** The first `n` particles of `free0` carry the attributes the spawner
        chose for them. */
    ghost predicate BornFirst(free0: seq<nat>, n: nat, time: real, life: nat -> real, kinds: nat -> Kind,
                              tints: nat -> int)
      requires n <= |free0|
      reads this, die, kind, color
    {
      forall k :: 0 <= k < n ==> Born(free0[k], time + life(k), kinds(k), tints(k))
    }

    /** Set the attributes of particle `p`, the n-th taken from `free0`. */
    method Stamp(p: nat, time: real, life: nat -> real, kinds: nat -> Kind, tints: nat -> int,
                 ghost free0: seq<nat>, n: nat, ghost d0: seq<real>, ghost k0: seq<Kind>, ghost c0: seq<int>)
      requires Valid() && p < size && n < |free0| && free0[n] == p && NoDup(free0)
      requires BornFirst(free0, n, time, life, kinds, tints) && Untouched(d0, k0, c0, free0[..n])
      modifies die, kind, color
      ensures BornFirst(free0, n + 1, time, life, kinds, tints) && Untouched(d0, k0, c0, free0[..n + 1])
    {
      die[p] := time + life(n);
      kind[p] := kinds(n);
      color[p] := tints(n);
      assert free0[..n + 1] == free0[..n] + [p];
    }

    /** `R_EntityParticles`: one particle per vertex normal. */
    method EntityParticles(time: real) returns (n: nat)
      requires Valid()
      modifies this`free, this`active, die, kind, color
      ensures Valid() && n == Min(NumVertexNormals, |old(free)|) && Popped(old(free), old(active), n)
      ensures forall k :: 0 <= k < n ==> Born(old(free)[k], time + 0.01, Explode, 0x6f)
    {
      n := Spawn(NumVertexNormals, time, (_: nat) => 0.01, (_: nat) => Explode, (_: nat) => 0x6f);
    }

    /** `R_ParticleExplosion`: 1024 particles, odd ones `pt_explode`, even
        ones `pt_explode2`. */
    method ParticleExplosion(time: real) returns (n: nat)
      requires Valid()
      modifies this`free, this`active, die, kind, color
      ensures Valid() && n == Min(1024, |old(free)|) && Popped(old(free), old(active), n)
      ensures forall k :: 0 <= k < n ==>
                Born(old(free)[k], time + 5.0, if k % 2 == 1 then Explode else Explode2, Ramp1[0])
    {
      n := Spawn(1024, time, (_: nat) => 5.0, (k: nat) => if k % 2 == 1 then Explode else Explode2, (_: nat) => Ramp1[0]);
    }

    /** `R_ParticleExplosion2`: 512 blobs cycling through `colorLength`
        colours from `colorStart`. */
    method ParticleExplosion2(time: real, colorStart: int, colorLength: int) returns (n: nat)
      requires Valid() && colorLength != 0
      modifies this`free, this`active, die, kind, color
      ensures Valid() && n == Min(512, |old(free)|) && Popped(old(free), old(active), n)
      ensures forall k :: 0 <= k < n ==> Born(old(free)[k], time + 0.3, Blob, colorStart + k % colorLength)
    {
      n := Spawn(512, time, (_: nat) => 0.3, (_: nat) => Blob, (k: nat) => colorStart + k % colorLength);
    }

    /** `R_BlobExplosion`: 1024 particles, odd ones `pt_blob`, even ones
        `pt_blob2`; `lifeRoll(k)` and `tintRoll(k)` are the `rand()` values
        the k-th particle draws for its lifetime and colour. */
    method BlobExplosion(time: real, lifeRoll: nat -> nat, tintRoll: nat -> nat) returns (n: nat)
      requires Valid()
      modifies this`free, this`active, die, kind, color
      ensures Valid() && n == Min(1024, |old(free)|) && Popped(old(free), old(active), n)
      ensures forall k :: 0 <= k < n ==>
                Born(old(free)[k], time + 1.0 + (8 * (lifeRoll(k) / 8 % 2)) as real * 0.05,
                     if k % 2 == 1 then Blob else Blob2,
                     (if k % 2 == 1 then 66 else 150) + tintRoll(k) % 6)
    {
      n := Spawn(1024, time,
                 (k: nat) => 1.0 + (8 * (lifeRoll(k) / 8 % 2)) as real * 0.05,
                 (k: nat) => if k % 2 == 1 then Blob else Blob2,
                 (k: nat) => (if k % 2 == 1 then 66 else 150) + tintRoll(k) % 6);
    }

    /** `R_RunParticleEffect`: `count` particles; a count of 1024 is an
        explosion, anything else a slow-falling puff of `color` with random
        low bits. */
    method RunParticleEffect(time: real, color0: int, count: nat, lifeRoll: nat -> nat, tintRoll: nat -> nat)
      returns (n: nat)
      requires Valid()
      modifies this`free, this`active, die, kind, color
      ensures Valid() && n == Min(count, |old(free)|) && Popped(old(free), old(active), n)
      ensures count == 1024 ==> forall k :: 0 <= k < n ==>
                Born(old(free)[k], time + 5.0, if k % 2 == 1 then Explode else Explode2, Ramp1[0])
      ensures count != 1024 ==> forall k :: 0 <= k < n ==>
                Born(old(free)[k], time + 0.1 * (lifeRoll(k) % 5) as real, SlowGrav,
                     color0 - color0 % 8 + tintRoll(k) % 8)
    {
      if count == 1024 {
        n := Spawn(count, time, (_: nat) => 5.0, (k: nat) => if k % 2 == 1 then Explode else Explode2, (_: nat) => Ramp1[0]);
      } else {
        n := Spawn(count, time, (k: nat) => 0.1 * (lifeRoll(k) % 5) as real, (_: nat) => SlowGrav,
                   (k: nat) => color0 - color0 % 8 + tintRoll(k) % 8);
      }
    }

    /** `R_LavaSplash`: a 32 by 32 grid of slow-falling particles. */
    method LavaSplash(time: real, lifeRoll: nat -> nat, tintRoll: nat -> nat) returns (n: nat)
      requires Valid()
      modifies this`free, this`active, die, kind, color
      ensures Valid() && n == Min(32 * 32, |old(free)|) && Popped(old(free), old(active), n)
      ensures forall k :: 0 <= k < n ==>
                Born(old(free)[k], time + 2.0 + (lifeRoll(k) % 32) as real * 0.02, SlowGrav, 224 + tintRoll(k) % 8)
    {
      n := Spawn(32 * 32, time, (k: nat) => 2.0 + (lifeRoll(k) % 32) as real * 0.02, (_: nat) => SlowGrav,
                 (k: nat) => 224 + tintRoll(k) % 8);
    }

    /** `R_TeleportSplash`: an 8 by 8 by 14 grid of slow-falling particles. */
    method TeleportSplash(time: real, lifeRoll: nat -> nat, tintRoll: nat -> nat) returns (n: nat)
      requires Valid()
      modifies this`free, this`active, die, kind, color
      ensures Valid() && n == Min(8 * 8 * 14, |old(free)|) && Popped(old(free), old(active), n)
      ensures forall k :: 0 <= k < n ==>
                Born(old(free)[k], time + 0.2 + (lifeRoll(k) % 8) as real * 0.02, SlowGrav, 7 + tintRoll(k) % 8)
    {
      n := Spawn(8 * 8 * 14, time, (k: nat) => 0.2 + (lifeRoll(k) % 8) as real * 0.02, (_: nat) => SlowGrav,
                 (k: nat) => 7 + tintRoll(k) % 8);
    }

    // -------------------------------------------------------------------
    // R_RocketTrail

    /** `R_RocketTrail`: decode the trail type (types from 128 up are the
        dense variants, one particle per unit instead of per three units),
        then walk the trail allocating one particle per step, stopping
        silently when the free list runs out. `roll(k)` is the `rand()` value
        the k-th particle draws for its colour. */
    method RocketTrail(len: real, trail: int, time: real, roll: nat -> nat) returns (n: nat)
      requires Valid()
      modifies this`free, this`active, this`tracerCount, die, kind, color
      ensures Valid()
      ensures n == Min(TrailCount(len, TrailStride(trail)), |old(free)|)
      ensures Popped(old(free), old(active), n)
      ensures multiset(free) + multiset(active) == old(multiset(free) + multiset(active))
      ensures TrailBorn(old(free), n, time, TrailType(trail), old(tracerCount), roll,
                        old(kind[..]), old(color[..]))
      ensures tracerCount == old(tracerCount) + if TrailType(trail) in {3, 5} then n else 0
    {
      var dec: real;
      var t := trail;
      if trail < 128 {
        dec := 3.0;
      } else {
        dec := 1.0;
        t := trail - 128;
      }
      ghost var free0, active0 := free, active;
      ghost var k0, c0 := kind[..], color[..];
      ghost var stride := TrailStride(trail);
      ghost var tc0 := tracerCount;
      var left := len;
      n := 0;
      assert Trailing(free0, active0, 0, time, t, tc0, roll, k0, c0) by {
        assert free0[..0] == [];
      }
      while left > 0.0
        invariant Trailing(free0, active0, n, time, t, tc0, roll, k0, c0)
        invariant TrailCount(len, stride) == n + TrailCount(left, stride)
        invariant t == TrailType(trail) && stride == dec + if t == 4 then 3.0 else 0.0
        decreases if left <= 0.0 then 0 else left.Floor + 1
      {
        var placed;
        left, placed := TrailStep(left, dec, t, time, roll, free0, active0, n, tc0, k0, c0, stride);
        if !placed {
          return;
        }
        n := n + 1;
      }
    }

    /** One turn of the trail loop: use up one step of the length, stop if
        the free list is empty, otherwise place a particle (slight blood uses
        up three more units). */
    method TrailStep(left: real, dec: real, t: int, time: real, roll: nat -> nat,
                     ghost free0: seq<nat>, ghost active0: seq<nat>, n: nat,
                     ghost tc0: nat, ghost k0: seq<Kind>, ghost c0: seq<int>, ghost stride: real)
      returns (left': real, placed: bool)
      requires Trailing(free0, active0, n, time, t, tc0, roll, k0, c0) && left > 0.0 && dec >= 1.0
      requires stride == dec + if t == 4 then 3.0 else 0.0
      modifies this`free, this`active, this`tracerCount, die, kind, color
      ensures placed ==> TrailCount(left, stride) == 1 + TrailCount(left', stride)
      ensures placed ==> left' <= left - 1.0
      ensures placed ==> Trailing(free0, active0, n + 1, time, t, tc0, roll, k0, c0)
      ensures !placed ==> Trailing(free0, active0, n, time, t, tc0, roll, k0, c0) && free == []
    {
      left' := left - dec;
      if free == [] {
        return left', false;
      }
      TrailOne(t, time, roll, free0, active0, n, tc0, k0, c0);
      if t == 4 {
        left' := left' - 3.0;
      }
      placed := true;
    }

    /** The state of a spawner loop after `n` allocations from `free0`. */
    ghost predicate Spawned(free0: seq<nat>, active0: seq<nat>, n: nat)
      reads this
    {
      Valid() && Popped(free0, active0, n) && NoDup(free0)
      && multiset(free) + multiset(active) == multiset(free0) + multiset(active0)
    }

    /** The first `n` trail particles taken from `free0` carry the expiry,
        kind and colour their trail type gives them; `kinds0` and `colors0`
        are the attributes the pool held before the trail. */
    ghost predicate TrailBorn(free0: seq<nat>, n: nat, time: real, t: int, tc0: nat, roll: nat -> nat,
                              kinds0: seq<Kind>, colors0: seq<int>)
      reads this, die, kind, color
    {
      TrailMade(free0, n, time, t, tc0, roll, kinds0, colors0, die[..], kind[..], color[..])
    }
    /** The state of the trail loop after `n` particles. */
    ghost predicate Trailing(free0: seq<nat>, active0: seq<nat>, n: nat, time: real, t: int, tc0: nat,
                             roll: nat -> nat, k0: seq<Kind>, c0: seq<int>)
      reads this, die, kind, color
    {
      Spawned(free0, active0, n) && |k0| == size && |c0| == size
      && TrailBorn(free0, n, time, t, tc0, roll, k0, c0)
      && (forall j :: j in free ==> kind[j] == k0[j] && color[j] == c0[j])
      && tracerCount == tc0 + if t in {3, 5} then n else 0
    }

    /** One step of the trail: allocate, then set the attributes. */
    method TrailOne(t: int, time: real, roll: nat -> nat, ghost free0: seq<nat>, ghost active0: seq<nat>,
                    n: nat, ghost tc0: nat, ghost k0: seq<Kind>, ghost c0: seq<int>)
      requires Trailing(free0, active0, n, time, t, tc0, roll, k0, c0) && free != []
      modifies this`free, this`active, this`tracerCount, die, kind, color
      ensures Trailing(free0, active0, n + 1, time, t, tc0, roll, k0, c0)
    {
      var p := Alloc();
      PoppedStep(free0, active0, n);
      assert p in active && p == free0[n] && p !in free;
      TrailStamp(p, t, time, roll, free0, n, tc0, k0, c0);
    }

    /** Set the attributes of trail particle `p`, the n-th taken from
        `free0`, by the trail type's case. */
    method TrailStamp(p: nat, t: int, time: real, roll: nat -> nat, ghost free0: seq<nat>, n: nat,
                      ghost tc0: nat, ghost k0: seq<Kind>, ghost c0: seq<int>)
      requires Valid() && p < size && n < |free0| && free0[n] == p && NoDup(free0)
      requires |k0| == size && |c0| == size && kind[p] == k0[p] && color[p] == c0[p]
      requires TrailBorn(free0, n, time, t, tc0, roll, k0, c0)
      requires tracerCount == tc0 + if t in {3, 5} then n else 0
      modifies this`tracerCount, die, kind, color
      ensures TrailBorn(free0, n + 1, time, t, tc0, roll, k0, c0)
      ensures tracerCount == tc0 + if t in {3, 5} then n + 1 else 0
      ensures forall j :: 0 <= j < size && j != p ==> kind[j] == old(kind[j]) && color[j] == old(color[j])
    {
      var d, k, c := time + 2.0, kind[p], color[p];
      if t == 0 {
        c := Ramp3[roll(n) % 4];
        k := Fire;
      } else if t == 1 {
        c := Ramp3[roll(n) % 4 + 2];
        k := Fire;
      } else if t == 2 || t == 4 {
        k := Grav;
        c := 67 + roll(n) % 4;
      } else if t == 3 || t == 5 {
        d := time + 0.5;
        k := Static;
        c := (if t == 3 then 52 else 230) + TracerTint(tracerCount);
        tracerCount := tracerCount + 1;
      } else if t == 6 {
        c := 9 * 16 + 8 + roll(n) % 4;
        k := Static;
        d := time + 0.3;
      }
      assert d == time + TrailLife(t) && k == TrailKind(t, k0[p]) && c == TrailTint(t, roll(n), tc0 + n, c0[p]);
      TrailMadeStep(free0, n, time, t, tc0, roll, k0, c0, die[..], kind[..], color[..]);
      die[p], kind[p], color[p] := d, k, c;
    }

    // -------------------------------------------------------------------
    // CL_RunParticles

    /** The list bookkeeping of `CL_RunParticles` at time `time`: every
        expired active particle goes back on the free list (pushed on its
        head, so in reverse order of expiry within the active list), the
        survivors stay active in their order, and one vertex is written per
        survivor. */
    method RunParticles(time: real)
      requires Valid()
      modifies this`free, this`active, this`frameParticles, verts
      ensures Valid()
      ensures InPool(old(active), die[..])
      ensures active == Alive(old(active), die[..], time)
      ensures free == Reverse(Dead(old(active), die[..], time)) + old(free)
      ensures multiset(free) + multiset(active) == old(multiset(free) + multiset(active))
      ensures frameParticles == |active| && verts[..frameParticles] == active
    {
      ghost var a0, free0 := active, free;
      ghost var gone := KillHead(time);
      ghost var a1, free1 := active, free;
      ghost var seen := Walk(time);
      WalkEnds(a1, free1, seen, frameParticles, active, free, die[..], time, size);
      KillPassComposes(a0, free0, gone, a1, free1, active, free, die[..], time);
    }

    /** The first kill loop: expired particles at the head of the active list
        go back to the free list until the head survives. */
    method KillHead(time: real) returns (ghost gone: seq<nat>)
      requires Valid()
      modifies this`free, this`active
      ensures Shape() && HeadKilled(old(active), old(free), gone, active, free, die[..], time, size)
      ensures active != [] ==> active[0] < size && die[active[0]] >= time
    {
      gone := [];
      while active != []
        invariant Shape() && HeadKilled(old(active), old(free), gone, active, free, die[..], time, size)
        decreases |active|
      {
        var kill := active[0];
        ListsInPool(free, active, size, die[..]);
        if die[kill] >= time {
          break;
        }
        KillFirstStep(old(active), old(free), gone, active, free, die[..], time, size);
        active := active[1..];
        free := [kill] + free;
        gone := gone + [kill];
      }
    }

    /** The walk of the active list: `a1` is the list as the walk found it
        and `free1` the free list then; `seen` particles of `a1` have been
        looked at and `i` vertices written. */
    ghost predicate Walking(a1: seq<nat>, free1: seq<nat>, seen: nat, i: nat, time: real)
      reads this, die, verts
    {
      Shape() && Walked(a1, free1, seen, i, active, free, die[..], time, size)
      && i <= verts.Length && verts[..i] == active[..i]
    }

    /** The second kill loop and the vertex writes. */
    method Walk(time: real) returns (ghost seen: nat)
      requires Valid() && (active != [] ==> active[0] < size && die[active[0]] >= time)
      modifies this`free, this`active, this`frameParticles, verts
      ensures Walking(old(active), old(free), seen, frameParticles, time) && frameParticles >= |active|
    {
      ghost var a1, free1 := active, free;
      var i := 0;
      seen := WalkStarts(a1, free1, die[..], time, size);
      while i < |active|
        invariant Walking(a1, free1, seen, i, time)
        decreases |active| - i
      {
        seen := Visit(time, i, a1, free1, seen);
        i := i + 1;
      }
      frameParticles := i;
    }

    /** One iteration of the walk: kill the expired particles after the
        current one, then write its vertex. */
    method Visit(time: real, i: nat, ghost a1: seq<nat>, ghost free1: seq<nat>, ghost seen0: nat)
      returns (ghost seen: nat)
      requires Walking(a1, free1, seen0, i, time) && i < |active|
      modifies this`free, this`active, verts
      ensures Walking(a1, free1, seen, i + 1, time) && |active| <= old(|active|)
    {
      seen := KillNext(time, i, a1, free1, seen0);
      WalkLength(a1, free1, seen, i, active, free, die[..], time, size);
      verts[i] := active[i];
      assert verts[..i + 1] == active[..i + 1];
      seen := VisitStep(a1, free1, seen, i, active, free, die[..], time, size);
    }

    /** The inner kill loop: while the particle after the current one has
        expired, unlink it and push it on the free list. */
    method KillNext(time: real, i: nat, ghost a1: seq<nat>, ghost free1: seq<nat>, ghost seen0: nat)
      returns (ghost seen: nat)
      requires Walking(a1, free1, seen0, i, time) && i < |active|
      modifies this`free, this`active
      ensures Walking(a1, free1, seen, i, time) && i < |active|
      ensures i + 1 < |active| ==> active[i + 1] < |die[..]| && die[active[i + 1]] >= time
      ensures |active| <= old(|active|)
    {
      seen := seen0;
      while true
        invariant Walking(a1, free1, seen, i, time) && i < |active| && |active| <= old(|active|)
        decreases |active|
      {
        if i + 1 >= |active| {
          return;
        }
        var kill := active[i + 1];
        ListsInPool(free, active, size, die[..]);
        if die[kill] >= time {
          return;
        }
        UnlinkStep(a1, free1, seen, i, active, free, die[..], time, size);
        assert active[..i + 1] == (active[..i + 1] + active[i + 2..])[..i + 1];
        active := active[..i + 1] + active[i + 2..];
        free := [kill] + free;
        seen := seen + 1;
      }
    }
  }
}

