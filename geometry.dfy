/** Vertex layouts and geometry buffers (gl_geometry.c): the attribute
    constructors, the packing of a vertex's attributes into one interleaved
    record, the GL calls that describe that record, and the sizing of the
    client-side vertex and index arrays for a number of quads. */
module Geometry {
  import opened Common

  /** `GL_FLOAT`. */
  const GlFloat: nat := 0x1406
  /** `GL_STATIC_DRAW`, `GL_STREAM_DRAW`, `GL_DYNAMIC_DRAW`. */
  const GlStaticDraw: nat := 0x88E4
  const GlStreamDraw: nat := 0x88E0
  const GlDynamicDraw: nat := 0x88E8
  /** `GL_ARRAY_BUFFER` and `GL_ELEMENT_ARRAY_BUFFER`. */
  const GlArrayBuffer: nat := 0x8892
  const GlElementArrayBuffer: nat := 0x8893

  /** `sizeof(float)` and `sizeof(unsigned int)`. */
  const FloatBytes: nat := 4
  const UintBytes: nat := 4

  /** Corners and indices (two triangles) per quad. */
  const VertsPerQuad: nat := 4
  const IndsPerQuad: nat := 6

  /** What an attribute carries; `End` is the zero value that terminates
      an attribute list. */
  datatype AttribKind = End | Position | TexCoord | Normal

  /** `gl_vertex_attribute_t`. */
  datatype VertexAttribute = VertexAttribute(kind: AttribKind, dataType: nat, size: nat,
                                             offset: nat, stride: nat, location: nat)

  /** How often a geometry's buffers are refilled. */
  datatype GeometryType = Static | Stream | Dynamic

  // ---------------------------------------------------------------------
  // Constructors, usage and type sizes
  // ---------------------------------------------------------------------

  /** A zero-initialised attribute with the given kind, type and size. */
  function FloatAttribute(kind: AttribKind, size: nat): VertexAttribute
  {
    VertexAttribute(kind, GlFloat, size, 0, 0, 0)
  }

  function PositionAttribute(): VertexAttribute
  {
    FloatAttribute(Position, 3)
  }

  function TexCoordAttribute(): VertexAttribute
  {
    FloatAttribute(TexCoord, 2)
  }

  function NormalAttribute(): VertexAttribute
  {
    FloatAttribute(Normal, 3)
  }

  /** The three constructors give float attributes that never end a list,
      three, two and three components wide, not yet placed. */
  lemma ConstructorsAreFloats()
    ensures forall a :: a in [PositionAttribute(), TexCoordAttribute(), NormalAttribute()] ==>
              a.kind != End && a.dataType == GlFloat && a.offset == 0 && a.stride == 0 && a.location == 0
    ensures PositionAttribute().kind == Position && PositionAttribute().size == 3
    ensures TexCoordAttribute().kind == TexCoord && TexCoordAttribute().size == 2
    ensures NormalAttribute().kind == Normal && NormalAttribute().size == 3
  {
  }

  /** The GL buffer usage for a geometry type. */
  function ConvertGLUsage(t: GeometryType): (u: nat)
    ensures u == GlStaticDraw || u == GlStreamDraw || u == GlDynamicDraw
  {
    match t
    case Static => GlStaticDraw
    case Stream => GlStreamDraw
    case Dynamic => GlDynamicDraw
  }

  /** Different geometry types get different usages. */
  lemma UsageInjective(a: GeometryType, b: GeometryType)
    ensures ConvertGLUsage(a) == ConvertGLUsage(b) <==> a == b
  {
  }

  /** Bytes per component: every data type is counted as a float. */
  function GLTypeSize(dataType: nat): (n: nat)
    ensures n == FloatBytes
  {
    FloatBytes
  }

  // ---------------------------------------------------------------------
  // The attribute list and its layout
  // ---------------------------------------------------------------------

  /** The caller's list holds an `End` entry. */
  ghost predicate Terminated(attrs: seq<VertexAttribute>)
  {
    exists k :: 0 <= k < |attrs| && attrs[k].kind == End
  }

  /** The attributes before the first `End`. */
  function Listed(attrs: seq<VertexAttribute>): (r: seq<VertexAttribute>)
    ensures |r| <= |attrs| && r == attrs[..|r|]
    ensures forall i :: 0 <= i < |r| ==> r[i].kind != End
    ensures |r| < |attrs| ==> attrs[|r|].kind == End
  {
    if attrs == [] || attrs[0].kind == End then []
    else [attrs[0]] + Listed(attrs[1..])
  }

  /** In a terminated list, the listed attributes stop at an `End` inside it. */
  lemma ListedStops(attrs: seq<VertexAttribute>)
    requires Terminated(attrs)
    ensures |Listed(attrs)| < |attrs|
  {
    var k :| 0 <= k < |attrs| && attrs[k].kind == End;
    if |Listed(attrs)| == |attrs| {
      assert false;
    }
  }

  /** Total components of a list of attributes. */
  function SizeSum(attrs: seq<VertexAttribute>): nat
  {
    if attrs == [] then 0 else SizeSum(attrs[..|attrs| - 1]) + attrs[|attrs| - 1].size
  }

  lemma SizeSumAppend(attrs: seq<VertexAttribute>, a: VertexAttribute)
    ensures SizeSum(attrs + [a]) == SizeSum(attrs) + a.size
  {
    assert (attrs + [a])[..|attrs|] == attrs;
  }

  /** Attribute `i` of `attrs` placed in the interleaved record: after the
      attributes before it, at location `i`, with the whole record as stride. */
  function Placed(attrs: seq<VertexAttribute>, i: nat): VertexAttribute
    requires i < |attrs|
  {
    attrs[i].(offset := FloatBytes * SizeSum(attrs[..i]),
              location := i,
              stride := FloatBytes * SizeSum(attrs))
  }

  /** The whole list placed. */
  function Laid(attrs: seq<VertexAttribute>): (r: seq<VertexAttribute>)
    ensures |r| == |attrs|
  {
    seq(|attrs|, i requires 0 <= i < |attrs| => Placed(attrs, i))
  }

  /** Placing keeps what each attribute is and numbers them in order. */
  lemma LaidKeeps(attrs: seq<VertexAttribute>, i: nat)
    requires i < |attrs|
    ensures var a := Laid(attrs)[i];
            a.kind == attrs[i].kind && a.dataType == attrs[i].dataType &&
            a.size == attrs[i].size && a.location == i
  {
  }

  /** The placed attributes tile the record: the first starts at byte 0,
      each starts where the previous one ends, and the last ends at the
      stride. */
  lemma {:induction false} LaidPacked(attrs: seq<VertexAttribute>)
    requires |attrs| >= 1
    ensures Laid(attrs)[0].offset == 0
    ensures forall i :: 0 < i < |attrs| ==>
              Laid(attrs)[i].offset == Laid(attrs)[i - 1].offset + FloatBytes * attrs[i - 1].size
    ensures var n := |attrs| - 1;
            Laid(attrs)[n].offset + FloatBytes * attrs[n].size == Laid(attrs)[n].stride
  {
    var r := Laid(attrs);
    assert attrs[..0] == [];
    forall i | 0 < i < |attrs|
      ensures r[i].offset == r[i - 1].offset + FloatBytes * attrs[i - 1].size
    {
      assert attrs[..i] == attrs[..i - 1] + [attrs[i - 1]];
      SizeSumAppend(attrs[..i - 1], attrs[i - 1]);
    }
    var n := |attrs| - 1;
    assert attrs == attrs[..n] + [attrs[n]];
    SizeSumAppend(attrs[..n], attrs[n]);
  }

  /** The part of the list before `j` takes up at least the part before `i`
      plus attribute `i`, for `i < j`. */
  lemma {:induction false} SizeSumGrows(attrs: seq<VertexAttribute>, i: nat, j: nat)
    requires i < j <= |attrs|
    ensures SizeSum(attrs[..i]) + attrs[i].size <= SizeSum(attrs[..j])
    decreases j - i
  {
    assert attrs[..i + 1] == attrs[..i] + [attrs[i]];
    SizeSumAppend(attrs[..i], attrs[i]);
    if i + 1 < j {
      SizeSumGrows(attrs, i + 1, j);
      assert attrs[..i + 2] == attrs[..i + 1] + [attrs[i + 1]];
      SizeSumAppend(attrs[..i + 1], attrs[i + 1]);
    }
  }

  /** No two placed attributes overlap, and each lies inside the record. */
  lemma LaidDisjoint(attrs: seq<VertexAttribute>, i: nat, j: nat)
    requires i < j < |attrs|
    ensures Laid(attrs)[i].offset + FloatBytes * attrs[i].size <= Laid(attrs)[j].offset
    ensures Laid(attrs)[j].offset + FloatBytes * attrs[j].size <= Laid(attrs)[j].stride
  {
    SizeSumGrows(attrs, i, j);
    SizeSumGrows(attrs, j, |attrs|);
    assert attrs[..|attrs|] == attrs;
  }

  /** Position, texture coordinates and normal: 32-byte records with the
      attributes at bytes 0, 12 and 20, in locations 0, 1 and 2. */
  lemma StandardLayout()
    ensures var r := Laid([PositionAttribute(), TexCoordAttribute(), NormalAttribute()]);
            && r[0].offset == 0 && r[1].offset == 12 && r[2].offset == 20
            && r[0].stride == 32 && r[1].stride == 32 && r[2].stride == 32
            && r[0].location == 0 && r[1].location == 1 && r[2].location == 2
  {
    var attrs := [PositionAttribute(), TexCoordAttribute(), NormalAttribute()];
    assert attrs[..0] == [];
    assert attrs[..1] == [PositionAttribute()];
    assert attrs[..2] == [PositionAttribute(), TexCoordAttribute()];
    assert attrs[..2][..1] == attrs[..1];
    assert attrs[..3] == attrs;
    assert attrs[..1][..0] == [];
  }

  // ---------------------------------------------------------------------
  // GL calls and client memory
  // ---------------------------------------------------------------------

  /** A GL call or a release of client memory, in the order issued. */
  datatype GlCall =
    | BindVertexArray(array: nat)
    | BindBuffer(target: nat, buffer: nat)
    | EnableAttribArray(location: nat)
    | AttribFormat(location: nat, size: nat, dataType: nat, normalized: bool, stride: nat, offset: nat)
    | BufferData(target: nat, bytes: nat, usage: nat)
    | DeleteBuffer(buffer: nat)
    | DeleteVertexArray(array: nat)
    | Free(block: Block)

  /** A block of client memory: its allocation number and its size in bytes. */
  datatype Block = Block(id: nat, bytes: nat)

  /** The two calls that describe one placed attribute to GL. */
  function AttribSetup(a: VertexAttribute): seq<GlCall>
  {
    [EnableAttribArray(a.location),
     AttribFormat(a.location, a.size, a.dataType, false, a.stride, a.offset)]
  }

  /** The setup calls of a list of attributes, in order. */
  function Setups(attrs: seq<VertexAttribute>): (calls: seq<GlCall>)
    ensures |calls| == 2 * |attrs|
  {
    if attrs == [] then [] else Setups(attrs[..|attrs| - 1]) + AttribSetup(attrs[|attrs| - 1])
  }

  lemma SetupsAppend(attrs: seq<VertexAttribute>, a: VertexAttribute)
    ensures Setups(attrs + [a]) == Setups(attrs) + AttribSetup(a)
  {
    assert (attrs + [a])[..|attrs|] == attrs;
  }

  /** Attribute `i`'s format call hands GL exactly its placed layout. */
  lemma {:induction false} SetupsAt(attrs: seq<VertexAttribute>, i: nat)
    requires i < |attrs|
    ensures Setups(attrs)[2 * i] == EnableAttribArray(attrs[i].location)
    ensures Setups(attrs)[2 * i + 1] ==
              AttribFormat(attrs[i].location, attrs[i].size, attrs[i].dataType, false,
                            attrs[i].stride, attrs[i].offset)
    decreases |attrs|
  {
    var n := |attrs| - 1;
    if i < n {
      SetupsAt(attrs[..n], i);
    }
  }

  /** The calls the creation issues around the attribute setup. */
  function CreateCalls(vao: nat, vbo: nat, laid: seq<VertexAttribute>): seq<GlCall>
  {
    [BindVertexArray(vao), BindBuffer(GlArrayBuffer, vbo)] + Setups(laid) +
    [BindBuffer(GlArrayBuffer, 0), BindVertexArray(0)]
  }

  /** The memory an allocation of `bytes` got: a fresh block, or none. */
  function Allocated(result: Option<nat>, bytes: nat): (b: Option<Block>)
    ensures b.Some? <==> result.Some?
    ensures b.Some? ==> b.value.bytes == bytes
  {
    match result
    case None => None
    case Some(id) => Some(Block(id, bytes))
  }

  /** The releases of whichever of the two blocks are set. */
  function Frees(v: Option<Block>, i: Option<Block>): seq<GlCall>
  {
    (if v.Some? then [Free(v.value)] else []) + (if i.Some? then [Free(i.value)] else [])
  }

  /** Floats for `numQuads` quads of `vertexSize`-float corners. */
  function VertexFloats(numQuads: nat, vertexSize: nat): nat
  {
    numQuads * VertsPerQuad * vertexSize
  }

  /** Indices for `numQuads` quads. */
  function IndexCount(numQuads: nat): nat
  {
    numQuads * IndsPerQuad
  }

  /** Component `c` of corner `v` of quad `q` is stored inside the vertex array. */
  lemma VertexFits(numQuads: nat, vertexSize: nat, q: nat, v: nat, c: nat)
    requires q < numQuads && v < VertsPerQuad && c < vertexSize
    ensures (q * VertsPerQuad + v) * vertexSize + c < VertexFloats(numQuads, vertexSize)
  {
    var k := q * VertsPerQuad + v;
    assert k + 1 <= numQuads * VertsPerQuad;
    MulLe(k + 1, numQuads * VertsPerQuad, vertexSize);
    assert (k + 1) * vertexSize == k * vertexSize + vertexSize;
  }

  /** Index `k` of quad `q` is stored inside the index array. */
  lemma IndexFits(numQuads: nat, q: nat, k: nat)
    requires q < numQuads && k < IndsPerQuad
    ensures q * IndsPerQuad + k < IndexCount(numQuads)
  {
  }

  lemma MulLe(a: nat, b: nat, c: nat)
    requires a <= b
    ensures a * c <= b * c
  {
    assert b * c - a * c == (b - a) * c;
  }

  /** The list after the offsets pass: each attribute placed, its stride
      not yet set. */
  function WithOffsets(attrs: seq<VertexAttribute>): (r: seq<VertexAttribute>)
    ensures |r| == |attrs|
  {
    seq(|attrs|, i requires 0 <= i < |attrs| => Placed(attrs, i).(stride := attrs[i].stride))
  }

  /** The list after the stride pass. */
  function WithStride(attrs: seq<VertexAttribute>, stride: nat): (r: seq<VertexAttribute>)
    ensures |r| == |attrs|
  {
    seq(|attrs|, i requires 0 <= i < |attrs| => attrs[i].(stride := stride))
  }

  /** A list that agrees with the offsets pass at every index is its result. */
  lemma OffsetsAll(base: seq<VertexAttribute>, fin: seq<VertexAttribute>)
    requires |fin| == |base|
    requires forall k :: 0 <= k < |fin| ==> fin[k] == Placed(base, k).(stride := base[k].stride)
    ensures fin == WithOffsets(base)
  {
  }

  /** A list that agrees with the stride pass at every index is its result. */
  lemma StrideAll(base: seq<VertexAttribute>, fin: seq<VertexAttribute>, stride: nat)
    requires |fin| == |base|
    requires forall k :: 0 <= k < |fin| ==> fin[k] == base[k].(stride := stride)
    ensures fin == WithStride(base, stride)
  {
  }

  /** One more attribute through the stride pass adds its two setup calls. */
  lemma StrideStep(base: seq<VertexAttribute>, i: nat, stride: nat)
    requires i < |base|
    ensures Setups(WithStride(base[..i + 1], stride)) ==
              Setups(WithStride(base[..i], stride)) + AttribSetup(base[i].(stride := stride))
  {
    assert WithStride(base[..i + 1], stride) ==
             WithStride(base[..i], stride) + [base[i].(stride := stride)];
    SetupsAppend(WithStride(base[..i], stride), base[i].(stride := stride));
  }

  /** The offsets pass followed by the stride pass with the record size lays
      the list out. */
  lemma Relaid(base: seq<VertexAttribute>)
    ensures WithStride(WithOffsets(base), FloatBytes * SizeSum(base)) == Laid(base)
  {
  }

  /** The creation's calls, issued in three appends. */
  lemma CreateCallsSplit(c: seq<GlCall>, vao: nat, vbo: nat, laid: seq<VertexAttribute>)
    ensures ((c + [BindVertexArray(vao), BindBuffer(GlArrayBuffer, vbo)]) + Setups(laid)) +
              [BindBuffer(GlArrayBuffer, 0), BindVertexArray(0)] == c + CreateCalls(vao, vbo, laid)
  {
  }

  // ---------------------------------------------------------------------
  // The geometry (gl_geometry_t)
  // ---------------------------------------------------------------------

  class Geometry {
    /** The attributes and their count (`num_attributes`). */
    var attributes: seq<VertexAttribute>
    /** Floats per vertex. */
    var vertexSize: nat
    /** The usage the buffers are uploaded with. */
    var geomType: GeometryType
    /** GL names of the vertex array and of the two buffers. */
    var vertexArrayId: nat
    var vertexBufferId: nat
    var indexBufferId: nat
    /** Client-side arrays and their element counts. */
    var vertexData: Option<Block>
    var vertexDataSize: nat
    var indexData: Option<Block>
    var indexDataSize: nat
    /** Everything issued to GL and to the allocator, in order. */
    ghost var calls: seq<GlCall>

    /** A zero-initialised geometry whose type the caller has set to `t`. */
    constructor (t: GeometryType)
      ensures attributes == [] && vertexSize == 0 && geomType == t
      ensures vertexData == None && indexData == None
      ensures vertexDataSize == 0 && indexDataSize == 0
      ensures calls == []
    {
      attributes := [];
      vertexSize := 0;
      geomType := t;
      vertexArrayId := 0;
      vertexBufferId := 0;
      indexBufferId := 0;
      vertexData := None;
      vertexDataSize := 0;
      indexData := None;
      indexDataSize := 0;
      calls := [];
    }

    /** Append the caller's attributes up to the `End` entry, place every
        attribute in the interleaved record, and describe the record to GL
        in the vertex array `vao` over the buffer `vbo`; the names `vao`,
        `vbo` and `ibo` are those GL generated. The `t` argument is not
        used. */
    method CreateGeometry(t: GeometryType, attrs: seq<VertexAttribute>,
                          vao: nat, vbo: nat, ibo: nat) returns (ok: bool)
      requires Terminated(attrs)
      modifies this`attributes, this`vertexSize, this`calls
      modifies this`vertexArrayId, this`vertexBufferId, this`indexBufferId
      ensures ok
      ensures attributes == Laid(old(attributes) + Listed(attrs))
      ensures vertexSize == SizeSum(Listed(attrs))
      ensures vertexArrayId == vao && vertexBufferId == vbo && indexBufferId == ibo
      ensures calls == old(calls) + CreateCalls(vao, vbo, attributes)
    {
      Gather(attrs);
      ghost var base := attributes;
      var stride := PlaceOffsets();
      vertexArrayId, vertexBufferId, indexBufferId := vao, vbo, ibo;
      calls := calls + [BindVertexArray(vao), BindBuffer(GlArrayBuffer, vbo)];
      ApplyStride(stride);
      Relaid(base);
      calls := calls + [BindBuffer(GlArrayBuffer, 0), BindVertexArray(0)];
      CreateCallsSplit(old(calls), vao, vbo, attributes);
      ok := true;
    }

    /** The first loop: copy the listed attributes after the existing ones
        and total their sizes. */
    method Gather(attrs: seq<VertexAttribute>)
      requires Terminated(attrs)
      modifies this`attributes, this`vertexSize
      ensures attributes == old(attributes) + Listed(attrs)
      ensures vertexSize == SizeSum(Listed(attrs))
    {
      ghost var listed := Listed(attrs);
      ListedStops(attrs);
      vertexSize := 0;
      var j := 0;
      while attrs[j].kind != End
        invariant j <= |listed| && listed[..j] == attrs[..j]
        invariant attributes == old(attributes) + attrs[..j]
        invariant vertexSize == SizeSum(attrs[..j])
        decreases |listed| - j
      {
        assert attrs[..j + 1] == attrs[..j] + [attrs[j]];
        SizeSumAppend(attrs[..j], attrs[j]);
        vertexSize := vertexSize + attrs[j].size;
        attributes := attributes + [attrs[j]];
        j := j + 1;
      }
      assert listed == attrs[..j];
    }

    /** The second loop: give each attribute its offset and location, and
        return the total record size in bytes. */
    method PlaceOffsets() returns (stride: nat)
      modifies this`attributes
      ensures attributes == WithOffsets(old(attributes))
      ensures stride == FloatBytes * SizeSum(old(attributes))
    {
      ghost var base := attributes;
      stride := 0;
      var i := 0;
      while i < |attributes|
        invariant i <= |attributes| == |base|
        invariant forall k :: 0 <= k < i ==> attributes[k] == Placed(base, k).(stride := base[k].stride)
        invariant forall k :: i <= k < |base| ==> attributes[k] == base[k]
        invariant stride == FloatBytes * SizeSum(base[..i])
      {
        assert base[..i + 1] == base[..i] + [base[i]];
        SizeSumAppend(base[..i], base[i]);
        attributes := attributes[i := attributes[i].(offset := stride, location := i)];
        stride := stride + attributes[i].size * GLTypeSize(attributes[i].dataType);
        i := i + 1;
      }
      assert base[..i] == base;
      OffsetsAll(base, attributes);
    }

    /** The third loop: give every attribute the shared stride and describe
        it to GL. */
    method ApplyStride(stride: nat)
      modifies this`attributes, this`calls
      ensures attributes == WithStride(old(attributes), stride)
      ensures calls == old(calls) + Setups(attributes)
    {
      ghost var base := attributes;
      ghost var before := calls;
      var i := 0;
      while i < |attributes|
        invariant i <= |attributes| == |base|
        invariant forall k :: 0 <= k < i ==> attributes[k] == base[k].(stride := stride)
        invariant forall k :: i <= k < |base| ==> attributes[k] == base[k]
        invariant calls == before + Setups(WithStride(base[..i], stride))
      {
        attributes := attributes[i := attributes[i].(stride := stride)];
        StrideStep(base, i, stride);
        AppendAssoc(before, Setups(WithStride(base[..i], stride)), AttribSetup(attributes[i]));
        calls := calls + AttribSetup(attributes[i]);
        i := i + 1;
      }
      assert base[..i] == base;
      StrideAll(base, attributes, stride);
    }

    /** Release the old arrays, size the new ones for `numQuads` quads, and
        report whether both allocations (whose outcomes are `vertexAlloc`
        and `indexAlloc`) succeeded. */
    method AllocateQuads(numQuads: nat, vertexAlloc: Option<nat>, indexAlloc: Option<nat>)
      returns (ok: bool)
      modifies this`vertexData, this`vertexDataSize, this`indexData, this`indexDataSize, this`calls
      ensures calls == old(calls) + Frees(old(vertexData), old(indexData))
      ensures vertexDataSize == VertexFloats(numQuads, vertexSize)
      ensures indexDataSize == IndexCount(numQuads)
      ensures vertexData == Allocated(vertexAlloc, vertexDataSize * FloatBytes)
      ensures indexData == Allocated(indexAlloc, indexDataSize * UintBytes)
      ensures ok <==> vertexAlloc.Some? && indexAlloc.Some?
    {
      if vertexData.Some? {
        calls := calls + [Free(vertexData.value)];
      }
      if indexData.Some? {
        calls := calls + [Free(indexData.value)];
      }
      vertexDataSize := numQuads * VertsPerQuad * vertexSize;
      indexDataSize := numQuads * IndsPerQuad;
      vertexData := Allocated(vertexAlloc, vertexDataSize * FloatBytes);
      indexData := Allocated(indexAlloc, indexDataSize * UintBytes);
      ok := vertexData != None && indexData != None;
    }

    /** Upload both arrays to their buffers with the geometry's usage. */
    method SendGeometry() returns (ok: bool)
      modifies this`calls
      ensures ok
      ensures calls == old(calls) + [
                BindBuffer(GlArrayBuffer, vertexBufferId),
                BufferData(GlArrayBuffer, vertexDataSize * FloatBytes, ConvertGLUsage(geomType)),
                BindBuffer(GlElementArrayBuffer, indexBufferId),
                BufferData(GlElementArrayBuffer, indexDataSize * UintBytes, ConvertGLUsage(geomType))]
    {
      var usage := ConvertGLUsage(geomType);
      calls := calls + [BindBuffer(GlArrayBuffer, vertexBufferId),
                        BufferData(GlArrayBuffer, vertexDataSize * FloatBytes, usage)];
      calls := calls + [BindBuffer(GlElementArrayBuffer, indexBufferId),
                        BufferData(GlElementArrayBuffer, indexDataSize * UintBytes, usage)];
      ok := true;
    }

    /** Delete the GL objects and release both arrays (releasing a missing
        array does nothing); the fields keep their old values. */
    method DestroyGeometry()
      modifies this`calls
      ensures calls == old(calls) + [DeleteBuffer(vertexBufferId), DeleteBuffer(indexBufferId),
                                     DeleteVertexArray(vertexArrayId)] +
                                    Frees(vertexData, indexData)
    {
      calls := calls + [DeleteBuffer(vertexBufferId), DeleteBuffer(indexBufferId),
                        DeleteVertexArray(vertexArrayId)];
      calls := calls + Frees(vertexData, indexData);
    }
  }

  /** A new geometry created from a list has a record exactly as wide as
      its vertex: the stride is the vertex size in bytes. */
  lemma FreshStride(attrs: seq<VertexAttribute>)
    requires Terminated(attrs) && |Listed(attrs)| >= 1
    ensures var laid := Laid([] + Listed(attrs));
            laid[0].stride == FloatBytes * SizeSum(Listed(attrs))
  {
    assert [] + Listed(attrs) == Listed(attrs);
  }
}
