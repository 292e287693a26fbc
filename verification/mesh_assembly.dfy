/**
 * Turning one generated brush into one flat triangle mesh: every face's
 * vertices are appended, face by face, to shared position, tangent,
 * normal and texture-coordinate buffers, and every face's local triangle
 * indices are appended shifted by the number of vertices emitted before
 * that face. Positions are rescaled, their axes rotated, and translated so
 * that the mesh is centred on an origin picked from its vertices.
 */
module MeshAssembly {
  import opened MapModel

  /** Map units per engine unit. */
  const Scale: real := 16.0

  /** The axis convention change: (x, y, z) becomes (y, z, x). */
  function Rotate(p: Vec3): Vec3 { Vec3(p.y, p.z, p.x) }

  /** A map-space position in engine space: axes rotated, then rescaled. */
  function Position(v: GeoVertex): Vec3 { Rotate(v.vertex).Over(Scale) }

  /** The quantity the origin search compares: the squared length of the engine-space position. */
  function Key(v: GeoVertex, lengthSquared: Vec3 -> real): real { lengthSquared(Position(v)) }

  /** The four tangent words one vertex contributes, in order y, z, x, w. */
  function TangentWords(t: Vec4): seq<real> { [t.y, t.z, t.x, t.w] }

  /** The output of the vertex loop: four buffers filled in lock step. */
  datatype Buffers = Buffers(vertices: seq<Vec3>, tangents: seq<real>, normals: seq<Vec3>, uvs: seq<Vec2>)

  /** The mesh built for one brush, placed at `position`. */
  datatype Mesh = Mesh(position: Vec3, vertices: seq<Vec3>, tangents: seq<real>,
                       normals: seq<Vec3>, uvs: seq<Vec2>, indices: seq<int>)

  // ---------------------------------------------------------------------
  // Specification functions

  /** Number of vertices of all faces together. */
  function VertexTotal(faces: seq<GeoFace>): nat
  {
    if |faces| == 0 then 0 else VertexTotal(faces[..|faces| - 1]) + |faces[|faces| - 1].vertices|
  }

  /** Number of local indices of all faces together. */
  function IndexTotal(faces: seq<GeoFace>): nat
  {
    if |faces| == 0 then 0 else IndexTotal(faces[..|faces| - 1]) + |faces[|faces| - 1].indices|
  }

  /** All vertices of the faces, in face-then-vertex order. */
  function Flatten(faces: seq<GeoFace>): (vs: seq<GeoVertex>)
    ensures |vs| == VertexTotal(faces)
  {
    if |faces| == 0 then [] else Flatten(faces[..|faces| - 1]) + faces[|faces| - 1].vertices
  }

  /** Face-local indices shifted by `offset`. */
  function Rebase(local: seq<int>, offset: int): (r: seq<int>)
    ensures |r| == |local|
  {
    if |local| == 0 then [] else Rebase(local[..|local| - 1], offset) + [offset + local[|local| - 1]]
  }

  /** Every face's local indices, each face's shifted by the vertex count of the faces before it. */
  function RebasedIndices(faces: seq<GeoFace>): (r: seq<int>)
    ensures |r| == IndexTotal(faces)
  {
    if |faces| == 0 then []
    else
      var earlier := faces[..|faces| - 1];
      RebasedIndices(earlier) + Rebase(faces[|faces| - 1].indices, |Flatten(earlier)|)
  }

  /** The key of every vertex, in order. */
  function Keys(vs: seq<GeoVertex>, lengthSquared: Vec3 -> real): (ks: seq<real>)
    ensures |ks| == |vs|
  {
    if |vs| == 0 then [] else Keys(vs[..|vs| - 1], lengthSquared) + [Key(vs[|vs| - 1], lengthSquared)]
  }

  /**
   * The first position whose key is strictly below all keys before it and
   * no larger than any key after it: where a running minimum that is
   * replaced only by a strictly smaller key ends.
   */
  function MinIndex(ks: seq<real>): (m: nat)
    requires |ks| > 0
    ensures m < |ks|
  {
    if |ks| == 1 then 0
    else
      var m := MinIndex(ks[..|ks| - 1]);
      if ks[|ks| - 1] < ks[m] then |ks| - 1 else m
  }

  /**
   * The first position whose key is strictly above all keys before it and
   * no smaller than any key after it: where a running maximum that is
   * replaced only by a strictly larger key ends.
   */
  function MaxIndex(ks: seq<real>): (m: nat)
    requires |ks| > 0
    ensures m < |ks|
  {
    if |ks| == 1 then 0
    else
      var m := MaxIndex(ks[..|ks| - 1]);
      if ks[|ks| - 1] > ks[m] then |ks| - 1 else m
  }

  /** Element `k` of a rebased block is the face-local index `k` plus the offset. */
  lemma {:induction false} RebaseAt(local: seq<int>, offset: int, k: nat)
    requires k < |local|
    ensures Rebase(local, offset)[k] == offset + local[k]
  {
    if k < |local| - 1 {
      RebaseAt(local[..|local| - 1], offset, k);
    }
  }

  /** `MinIndex` picks a smallest key, and the first one: every key before it is strictly larger. */
  lemma {:induction false} MinIndexIsFirstLeast(ks: seq<real>)
    requires |ks| > 0
    ensures forall k :: 0 <= k < |ks| ==> ks[MinIndex(ks)] <= ks[k]
    ensures forall k :: 0 <= k < MinIndex(ks) ==> ks[MinIndex(ks)] < ks[k]
  {
    if |ks| > 1 {
      var init := ks[..|ks| - 1];
      MinIndexIsFirstLeast(init);
      assert forall k :: 0 <= k < |init| ==> init[k] == ks[k];
    }
  }

  /** `MaxIndex` picks a largest key, and the first one: every key before it is strictly smaller. */
  lemma {:induction false} MaxIndexIsFirstGreatest(ks: seq<real>)
    requires |ks| > 0
    ensures forall k :: 0 <= k < |ks| ==> ks[k] <= ks[MaxIndex(ks)]
    ensures forall k :: 0 <= k < MaxIndex(ks) ==> ks[k] < ks[MaxIndex(ks)]
  {
    if |ks| > 1 {
      var init := ks[..|ks| - 1];
      MaxIndexIsFirstGreatest(init);
      assert forall k :: 0 <= k < |init| ==> init[k] == ks[k];
    }
  }

  /** The smallest-key position, or the zero vector when there is no vertex. */
  function MinVertex(vs: seq<GeoVertex>, lengthSquared: Vec3 -> real): Vec3
  {
    if |vs| == 0 then Zero else Position(vs[MinIndex(Keys(vs, lengthSquared))])
  }

  /**
   * The largest-key position, or the zero vector when no key exceeds the
   * zero vector's: where a running maximum ends that starts from the zero
   * vector and is replaced only by a strictly larger key.
   */
  function MaxVertex(vs: seq<GeoVertex>, lengthSquared: Vec3 -> real): Vec3
  {
    if |vs| == 0 then Zero
    else
      var m := MaxIndex(Keys(vs, lengthSquared));
      if Key(vs[m], lengthSquared) > lengthSquared(Zero) then Position(vs[m]) else Zero
  }

  /** The mesh position: halfway from the smallest-key to the largest-key position. */
  function Origin(vs: seq<GeoVertex>, lengthSquared: Vec3 -> real): Vec3
  {
    Midpoint(MinVertex(vs, lengthSquared), MaxVertex(vs, lengthSquared))
  }

  /** Appending one vertex to the four buffers. */
  function Push(b: Buffers, v: GeoVertex, origin: Vec3): Buffers
  {
    Buffers(b.vertices + [Position(v).Minus(origin)],
            b.tangents + TangentWords(v.tangent),
            b.normals + [Rotate(v.normal)],
            b.uvs + [v.uv])
  }

  /** The four buffers after appending every vertex of `vs`, in order. */
  function Emit(vs: seq<GeoVertex>, origin: Vec3): (b: Buffers)
    ensures |b.vertices| == |b.normals| == |b.uvs| == |vs|
    ensures |b.tangents| == 4 * |vs|
  {
    if |vs| == 0 then Buffers([], [], [], [])
    else Push(Emit(vs[..|vs| - 1], origin), vs[|vs| - 1], origin)
  }

  /** The mesh the loader builds for a brush whose face slots are `faces`. */
  function BrushMesh(faces: seq<GeoFace>, lengthSquared: Vec3 -> real): Mesh
  {
    var vs := Flatten(faces);
    var origin := Origin(vs, lengthSquared);
    var b := Emit(vs, origin);
    Mesh(origin, b.vertices, b.tangents, b.normals, b.uvs, RebasedIndices(faces))
  }

  /** Where face `j`'s first vertex lands in the vertex buffers. */
  function VertexOffset(faces: seq<GeoFace>, j: nat): nat
    requires j <= |faces|
  {
    |Flatten(faces[..j])|
  }

  /** Where face `j`'s first index lands in the index buffer. */
  function IndexOffset(faces: seq<GeoFace>, j: nat): nat
    requires j <= |faces|
  {
    |RebasedIndices(faces[..j])|
  }

  /** Every face-local index names a vertex of its own face. */
  predicate LocalIndicesValid(faces: seq<GeoFace>)
  {
    forall j, k :: 0 <= j < |faces| && 0 <= k < |faces[j].indices| ==>
      0 <= faces[j].indices[k] < |faces[j].vertices|
  }

  // ---------------------------------------------------------------------
  // Unfolding steps the loops take, one element at a time

  lemma FlattenStep(faces: seq<GeoFace>, j: nat)
    requires j < |faces|
    ensures Flatten(faces[..j + 1]) == Flatten(faces[..j]) + faces[j].vertices
    ensures RebasedIndices(faces[..j + 1]) == RebasedIndices(faces[..j]) + Rebase(faces[j].indices, |Flatten(faces[..j])|)
  {
    assert faces[..j + 1][..j] == faces[..j];
  }

  lemma EmitStep(vs: seq<GeoVertex>, v: GeoVertex, origin: Vec3)
    ensures Emit(vs + [v], origin) == Push(Emit(vs, origin), v, origin)
  {
    assert (vs + [v])[..|vs|] == vs;
  }

  lemma RebaseStep(local: seq<int>, k: nat, offset: int)
    requires k < |local|
    ensures Rebase(local[..k + 1], offset) == Rebase(local[..k], offset) + [offset + local[k]]
  {
    assert local[..k + 1][..k] == local[..k];
  }

  lemma PrefixStep(done: seq<GeoVertex>, vs: seq<GeoVertex>, k: nat)
    requires k < |vs|
    ensures done + vs[..k + 1] == (done + vs[..k]) + [vs[k]]
  {
    assert vs[..k + 1] == vs[..k] + [vs[k]];
  }

  lemma KeysAt(vs: seq<GeoVertex>, lengthSquared: Vec3 -> real, k: nat)
    requires k < |vs|
    ensures Keys(vs, lengthSquared)[k] == Key(vs[k], lengthSquared)
  {
    if k < |vs| - 1 {
      KeysAt(vs[..|vs| - 1], lengthSquared, k);
    }
  }

  lemma MinStep(vs: seq<GeoVertex>, v: GeoVertex, lengthSquared: Vec3 -> real)
    ensures MinVertex(vs + [v], lengthSquared) ==
      if |vs| == 0 || Key(v, lengthSquared) < lengthSquared(MinVertex(vs, lengthSquared)) then Position(v)
      else MinVertex(vs, lengthSquared)
  {
    var ws := vs + [v];
    assert ws[..|vs|] == vs;
    var ks := Keys(ws, lengthSquared);
    assert ks == Keys(vs, lengthSquared) + [Key(v, lengthSquared)];
    if |vs| > 0 {
      var m := MinIndex(Keys(vs, lengthSquared));
      assert ks[..|vs|] == Keys(vs, lengthSquared);
      assert MinIndex(ks) == if Key(v, lengthSquared) < Keys(vs, lengthSquared)[m] then |vs| else m;
      KeysAt(vs, lengthSquared, m);
      assert ws[m] == vs[m];
    }
  }

  lemma MaxStep(vs: seq<GeoVertex>, v: GeoVertex, lengthSquared: Vec3 -> real)
    ensures MaxVertex(vs + [v], lengthSquared) ==
      if Key(v, lengthSquared) > lengthSquared(MaxVertex(vs, lengthSquared)) then Position(v)
      else MaxVertex(vs, lengthSquared)
  {
    var ws := vs + [v];
    assert ws[..|vs|] == vs;
    var ks := Keys(ws, lengthSquared);
    assert ks == Keys(vs, lengthSquared) + [Key(v, lengthSquared)];
    if |vs| == 0 {
      assert MaxIndex(ks) == 0;
    } else {
      var m := MaxIndex(Keys(vs, lengthSquared));
      assert ks[..|vs|] == Keys(vs, lengthSquared);
      assert MaxIndex(ks) == if Key(v, lengthSquared) > Keys(vs, lengthSquared)[m] then |vs| else m;
      KeysAt(vs, lengthSquared, m);
      assert ws[m] == vs[m];
    }
  }

  // ---------------------------------------------------------------------
  // The loops in the loader

  /**
   * The first pass over one face: updates the smallest-key position (taken
   * unconditionally for the very first vertex, afterwards only on a
   * strictly smaller key) and the largest-key position (replaced only on a
   * strictly larger key) with every vertex of the face, in order.
   */
  method ScanFaceVertices(geoFace: GeoFace, lengthSquared: Vec3 -> real, ghost seen: seq<GeoVertex>,
                          hasVertexMin0: bool, vertexMin0: Vec3, vertexMax0: Vec3)
    returns (hasVertexMin: bool, vertexMin: Vec3, vertexMax: Vec3)
    requires hasVertexMin0 == (|seen| > 0)
    requires vertexMin0 == MinVertex(seen, lengthSquared) && vertexMax0 == MaxVertex(seen, lengthSquared)
    ensures hasVertexMin == (|seen + geoFace.vertices| > 0)
    ensures vertexMin == MinVertex(seen + geoFace.vertices, lengthSquared)
    ensures vertexMax == MaxVertex(seen + geoFace.vertices, lengthSquared)
  {
    hasVertexMin, vertexMin, vertexMax := hasVertexMin0, vertexMin0, vertexMax0;
    ghost var scanned := seen;
    var k := 0;
    while k < |geoFace.vertices|
      invariant k <= |geoFace.vertices|
      invariant scanned == seen + geoFace.vertices[..k]
      invariant hasVertexMin == (|scanned| > 0)
      invariant vertexMin == MinVertex(scanned, lengthSquared)
      invariant vertexMax == MaxVertex(scanned, lengthSquared)
    {
      var v := geoFace.vertices[k];
      MinStep(scanned, v, lengthSquared);
      MaxStep(scanned, v, lengthSquared);
      var vertex := Position(v);
      if !hasVertexMin || lengthSquared(vertex) < lengthSquared(vertexMin) {
        vertexMin := vertex;
        hasVertexMin := true;
      }
      if lengthSquared(vertex) > lengthSquared(vertexMax) {
        vertexMax := vertex;
      }
      PrefixStep(seen, geoFace.vertices, k);
      scanned := scanned + [v];
      k := k + 1;
    }
    assert geoFace.vertices[..k] == geoFace.vertices;
  }

  /**
   * The first pass over a brush: scans every face's vertices in order for
   * the smallest-key and the largest-key positions, the latter starting
   * from the zero vector, and returns the point halfway between them.
   */
  method FindOrigin(brush: Brush, geoBrush: GeoBrush, lengthSquared: Vec3 -> real) returns (origin: Vec3)
    requires brush.faceCount <= |geoBrush.faces|
    ensures origin == Origin(Flatten(geoBrush.faces[..brush.faceCount]), lengthSquared)
  {
    ghost var faces := geoBrush.faces[..brush.faceCount];
    var vertexMin, vertexMax := Zero, Zero;
    var hasVertexMin := false;
    var j := 0;
    while j < brush.faceCount
      invariant j <= brush.faceCount
      invariant hasVertexMin == (|Flatten(faces[..j])| > 0)
      invariant vertexMin == MinVertex(Flatten(faces[..j]), lengthSquared)
      invariant vertexMax == MaxVertex(Flatten(faces[..j]), lengthSquared)
    {
      FlattenStep(faces, j);
      hasVertexMin, vertexMin, vertexMax :=
        ScanFaceVertices(geoBrush.faces[j], lengthSquared, Flatten(faces[..j]), hasVertexMin, vertexMin, vertexMax);
      j := j + 1;
    }
    assert faces[..j] == faces;
    origin := Midpoint(vertexMin, vertexMax);
  }

  /**
   * Appends every vertex of one face to the four vertex buffers: its
   * position with rotated axes, rescaled and moved by `origin`, its four
   * tangent words, its rotated normal and its texture coordinate.
   */
  method AppendFaceVertices(geoFace: GeoFace, origin: Vec3, ghost done: seq<GeoVertex>,
                            vertices0: seq<Vec3>, tangents0: seq<real>, normals0: seq<Vec3>, uvs0: seq<Vec2>)
    returns (vertices: seq<Vec3>, tangents: seq<real>, normals: seq<Vec3>, uvs: seq<Vec2>)
    requires Buffers(vertices0, tangents0, normals0, uvs0) == Emit(done, origin)
    ensures Buffers(vertices, tangents, normals, uvs) == Emit(done + geoFace.vertices, origin)
  {
    vertices, tangents, normals, uvs := vertices0, tangents0, normals0, uvs0;
    ghost var emitted := done;
    var k := 0;
    while k < |geoFace.vertices|
      invariant k <= |geoFace.vertices|
      invariant emitted == done + geoFace.vertices[..k]
      invariant Buffers(vertices, tangents, normals, uvs) == Emit(emitted, origin)
    {
      var v := geoFace.vertices[k];
      vertices := vertices + [Position(v).Minus(origin)];
      tangents := tangents + [v.tangent.y];
      tangents := tangents + [v.tangent.z];
      tangents := tangents + [v.tangent.x];
      tangents := tangents + [v.tangent.w];
      normals := normals + [Rotate(v.normal)];
      uvs := uvs + [v.uv];
      EmitStep(emitted, v, origin);
      PrefixStep(done, geoFace.vertices, k);
      emitted := emitted + [v];
      k := k + 1;
    }
    assert geoFace.vertices[..k] == geoFace.vertices;
  }

  /** Appends one face's local indices, each shifted by `indexOffset`. */
  method AppendFaceIndices(geoFace: GeoFace, indexOffset: int, indices0: seq<int>) returns (indices: seq<int>)
    ensures indices == indices0 + Rebase(geoFace.indices, indexOffset)
  {
    indices := indices0;
    var k := 0;
    while k < |geoFace.indices|
      invariant k <= |geoFace.indices|
      invariant indices == indices0 + Rebase(geoFace.indices[..k], indexOffset)
    {
      indices := indices + [indexOffset + geoFace.indices[k]];
      RebaseStep(geoFace.indices, k, indexOffset);
      k := k + 1;
    }
    assert geoFace.indices[..k] == geoFace.indices;
  }

  /**
   * The second pass over a brush: for each face in order, appends its
   * vertices, moved by `origin`, to the four vertex buffers, then its local
   * indices shifted by the number of vertices appended before it.
   */
  method FillBuffers(brush: Brush, geoBrush: GeoBrush, origin: Vec3)
    returns (vertices: seq<Vec3>, tangents: seq<real>, normals: seq<Vec3>, uvs: seq<Vec2>, indices: seq<int>)
    requires brush.faceCount <= |geoBrush.faces|
    ensures Buffers(vertices, tangents, normals, uvs) == Emit(Flatten(geoBrush.faces[..brush.faceCount]), origin)
    ensures indices == RebasedIndices(geoBrush.faces[..brush.faceCount])
  {
    ghost var faces := geoBrush.faces[..brush.faceCount];
    vertices, tangents, normals, uvs, indices := [], [], [], [], [];
    var indexOffset := 0;
    var j := 0;
    while j < brush.faceCount
      invariant j <= brush.faceCount
      invariant Buffers(vertices, tangents, normals, uvs) == Emit(Flatten(faces[..j]), origin)
      invariant indices == RebasedIndices(faces[..j])
      invariant indexOffset == |Flatten(faces[..j])|
    {
      var geoFace := geoBrush.faces[j];
      FlattenStep(faces, j);
      vertices, tangents, normals, uvs :=
        AppendFaceVertices(geoFace, origin, Flatten(faces[..j]), vertices, tangents, normals, uvs);
      indices := AppendFaceIndices(geoFace, indexOffset, indices);
      indexOffset := indexOffset + |geoFace.vertices|;
      j := j + 1;
    }
    assert faces[..j] == faces;
  }

  /** Builds the mesh of one brush from its generated face slots, placed at the origin the first pass finds. */
  method AssembleBrushMesh(brush: Brush, geoBrush: GeoBrush, lengthSquared: Vec3 -> real) returns (mesh: Mesh)
    requires brush.faceCount <= |geoBrush.faces|
    ensures mesh == BrushMesh(geoBrush.faces[..brush.faceCount], lengthSquared)
  {
    var origin := FindOrigin(brush, geoBrush, lengthSquared);
    var vertices, tangents, normals, uvs, indices := FillBuffers(brush, geoBrush, origin);
    mesh := Mesh(origin, vertices, tangents, normals, uvs, indices);
  }

  // ---------------------------------------------------------------------
  // What the assembled buffers contain

  /** Vertex `i` of the emitted buffers is built from input vertex `i` alone, with the common origin. */
  lemma {:induction false} EmitAt(vs: seq<GeoVertex>, origin: Vec3, i: nat)
    requires i < |vs|
    ensures Emit(vs, origin).vertices[i] == Position(vs[i]).Minus(origin)
    ensures Emit(vs, origin).normals[i] == Rotate(vs[i].normal)
    ensures Emit(vs, origin).uvs[i] == vs[i].uv
    ensures Emit(vs, origin).tangents[4 * i..4 * i + 4] == TangentWords(vs[i].tangent)
  {
    if i < |vs| - 1 {
      EmitAt(vs[..|vs| - 1], origin, i);
    }
  }

  /** Vertex `k` of face `j` is element `VertexOffset(faces, j) + k` of the flattened vertices. */
  lemma {:induction false} FlattenAt(faces: seq<GeoFace>, j: nat, k: nat)
    requires j < |faces| && k < |faces[j].vertices|
    ensures VertexOffset(faces, j) + k < VertexOffset(faces, j + 1) <= |Flatten(faces)|
    ensures Flatten(faces)[VertexOffset(faces, j) + k] == faces[j].vertices[k]
  {
    var n := |faces|;
    assert faces[..j + 1][..j] == faces[..j];
    if j < n - 1 {
      assert faces[..n - 1][..j] == faces[..j];
      assert faces[..n - 1][..j + 1] == faces[..j + 1];
      FlattenAt(faces[..n - 1], j, k);
    } else {
      assert faces[..j + 1] == faces;
    }
  }

  /**
   * Index `k` of face `j` lands at `IndexOffset(faces, j) + k` and equals
   * the face-local index plus the vertex count of the faces before `j`.
   */
  lemma {:induction false} RebasedIndexAt(faces: seq<GeoFace>, j: nat, k: nat)
    requires j < |faces| && k < |faces[j].indices|
    ensures IndexOffset(faces, j) + k < |RebasedIndices(faces)|
    ensures RebasedIndices(faces)[IndexOffset(faces, j) + k] == VertexOffset(faces, j) + faces[j].indices[k]
  {
    var n := |faces|;
    var earlier := faces[..n - 1];
    var head := RebasedIndices(earlier);
    var tail := Rebase(faces[n - 1].indices, |Flatten(earlier)|);
    assert RebasedIndices(faces) == head + tail;
    if j < n - 1 {
      assert earlier[..j] == faces[..j];
      RebasedIndexAt(earlier, j, k);
      assert IndexOffset(faces, j) + k < |head|;
    } else {
      assert earlier == faces[..j];
      RebaseAt(faces[j].indices, VertexOffset(faces, j), k);
      assert IndexOffset(faces, j) == |head|;
    }
  }

  /** With valid face-local indices, every emitted index names an emitted vertex. */
  lemma {:induction false} RebasedIndicesInRange(faces: seq<GeoFace>)
    requires LocalIndicesValid(faces)
    ensures forall p :: 0 <= p < |RebasedIndices(faces)| ==> 0 <= RebasedIndices(faces)[p] < |Flatten(faces)|
  {
    var n := |faces|;
    if n > 0 {
      var earlier := faces[..n - 1];
      assert LocalIndicesValid(earlier) by {
        forall j, k | 0 <= j < |earlier| && 0 <= k < |earlier[j].indices|
          ensures 0 <= earlier[j].indices[k] < |earlier[j].vertices|
        {
          assert earlier[j] == faces[j];
        }
      }
      RebasedIndicesInRange(earlier);
      var r := RebasedIndices(faces);
      var head := RebasedIndices(earlier);
      var tail := Rebase(faces[n - 1].indices, |Flatten(earlier)|);
      assert r == head + tail;
      forall p | 0 <= p < |r| ensures 0 <= r[p] < |Flatten(faces)| {
        if p >= |head| {
          assert r[p] == tail[p - |head|];
          RebaseAt(faces[n - 1].indices, |Flatten(earlier)|, p - |head|);
          assert 0 <= faces[n - 1].indices[p - |head|] < |faces[n - 1].vertices|;
        }
      }
    }
  }

  /**
   * When index `k` of face `j` names a vertex of face `j`, its emitted copy
   * lies inside face `j`'s block of vertices and names that very vertex,
   * whatever the other faces' indices are.
   */
  lemma EmittedIndexStaysInFace(faces: seq<GeoFace>, j: nat, k: nat)
    requires j < |faces| && k < |faces[j].indices|
    requires 0 <= faces[j].indices[k] < |faces[j].vertices|
    ensures IndexOffset(faces, j) + k < |RebasedIndices(faces)|
    ensures VertexOffset(faces, j) <= RebasedIndices(faces)[IndexOffset(faces, j) + k] < VertexOffset(faces, j + 1)
    ensures VertexOffset(faces, j + 1) <= |Flatten(faces)|
    ensures Flatten(faces)[RebasedIndices(faces)[IndexOffset(faces, j) + k]] == faces[j].vertices[faces[j].indices[k]]
  {
    RebasedIndexAt(faces, j, k);
    FlattenAt(faces, j, faces[j].indices[k]);
  }

  /**
   * The buffer lengths of a brush mesh: one position, normal and texture
   * coordinate per vertex of every face, four tangent words per vertex, and
   * as many indices as all faces have local indices.
   */
  lemma BrushMeshLengths(faces: seq<GeoFace>, lengthSquared: Vec3 -> real)
    ensures |BrushMesh(faces, lengthSquared).vertices| == VertexTotal(faces)
    ensures |BrushMesh(faces, lengthSquared).normals| == VertexTotal(faces)
    ensures |BrushMesh(faces, lengthSquared).uvs| == VertexTotal(faces)
    ensures |BrushMesh(faces, lengthSquared).tangents| == 4 * |BrushMesh(faces, lengthSquared).vertices|
    ensures |BrushMesh(faces, lengthSquared).indices| == IndexTotal(faces)
  {
  }

  /**
   * Vertex `k` of face `j` lands at `VertexOffset(faces, j) + k` in every
   * buffer, with rotated axes, moved by the mesh position; adding the
   * mesh position back gives its engine-space position unchanged.
   */
  lemma BrushMeshVertex(faces: seq<GeoFace>, lengthSquared: Vec3 -> real, j: nat, k: nat)
    requires j < |faces| && k < |faces[j].vertices|
    ensures var m := BrushMesh(faces, lengthSquared);
            var i := VertexOffset(faces, j) + k;
            var v := faces[j].vertices[k];
            i < |m.vertices| &&
            m.vertices[i] == Position(v).Minus(m.position) &&
            m.vertices[i].Plus(m.position) == Position(v) &&
            m.normals[i] == Rotate(v.normal) &&
            m.uvs[i] == v.uv &&
            m.tangents[4 * i..4 * i + 4] == [v.tangent.y, v.tangent.z, v.tangent.x, v.tangent.w]
  {
    var origin := Origin(Flatten(faces), lengthSquared);
    FlattenAt(faces, j, k);
    EmitAt(Flatten(faces), origin, VertexOffset(faces, j) + k);
    MinusThenPlus(Position(faces[j].vertices[k]), origin);
  }

  /**
   * The smallest-key position is the position of the earliest vertex whose
   * key is strictly below all earlier keys and no larger than any key.
   */
  lemma MinVertexIsEarliestSmallest(vs: seq<GeoVertex>, lengthSquared: Vec3 -> real)
    requires |vs| > 0
    ensures exists m :: 0 <= m < |vs| && MinVertex(vs, lengthSquared) == Position(vs[m]) &&
              (forall k :: 0 <= k < |vs| ==> Key(vs[m], lengthSquared) <= Key(vs[k], lengthSquared)) &&
              (forall k :: 0 <= k < m ==> Key(vs[m], lengthSquared) < Key(vs[k], lengthSquared))
  {
    var m := MinIndex(Keys(vs, lengthSquared));
    MinIndexIsFirstLeast(Keys(vs, lengthSquared));
    forall k | 0 <= k < |vs| ensures Keys(vs, lengthSquared)[k] == Key(vs[k], lengthSquared) {
      KeysAt(vs, lengthSquared, k);
    }
    assert MinVertex(vs, lengthSquared) == Position(vs[m]);
  }

  /**
   * The largest-key position is the zero vector when no key exceeds the
   * zero vector's, and otherwise the position of the earliest vertex whose
   * key is strictly above all earlier keys and no smaller than any key.
   */
  lemma MaxVertexIsEarliestLargest(vs: seq<GeoVertex>, lengthSquared: Vec3 -> real)
    ensures (forall k :: 0 <= k < |vs| ==> Key(vs[k], lengthSquared) <= lengthSquared(Zero)) ==>
              MaxVertex(vs, lengthSquared) == Zero
    ensures (exists k :: 0 <= k < |vs| && Key(vs[k], lengthSquared) > lengthSquared(Zero)) ==>
              exists m :: 0 <= m < |vs| && MaxVertex(vs, lengthSquared) == Position(vs[m]) &&
                (forall k :: 0 <= k < |vs| ==> Key(vs[k], lengthSquared) <= Key(vs[m], lengthSquared)) &&
                (forall k :: 0 <= k < m ==> Key(vs[k], lengthSquared) < Key(vs[m], lengthSquared))
  {
    if |vs| > 0 {
      var m := MaxIndex(Keys(vs, lengthSquared));
      MaxIndexIsFirstGreatest(Keys(vs, lengthSquared));
      forall k | 0 <= k < |vs| ensures Keys(vs, lengthSquared)[k] == Key(vs[k], lengthSquared) {
        KeysAt(vs, lengthSquared, k);
      }
    }
  }
}
