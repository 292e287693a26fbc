# TBLoader: a Dafny model of the map-to-scene loader

TBLoader is an engine node that loads a TrenchBroom `.map` file and turns
it into scene children. The map parser and the geometry generator run
first. The node then does three things, and this project models them:

- **Map path.** `set_map` and `get_map` store and return the path of the
  map file (`Loader.TBLoader.SetMap`, `Loader.TBLoader.GetMap`).
- **Classname dispatch.** `build` first removes every child. When the map
  file exists, it visits every property of every entity in order. A
  `classname` property whose value is `worldspawn` builds that entity once
  more. `info_player_start` is recognised and builds nothing. Every other
  property is ignored (module `Dispatch`, `Loader.TBLoader.Build`).
- **Worldspawn assembly.** A worldspawn build adds one combiner child. It
  then adds one mesh child per brush, in brush order, and these are also
  direct children of the loader, not of the combiner. Each brush's mesh is
  made in two passes over its generated faces (module `MeshAssembly`):
  1. The first pass picks an origin. It is halfway between the position
     with the smallest squared length and the one with the largest. The
     largest-length search starts from the zero vector. Positions are the
     generator's vertices with axes rotated `(x, y, z) -> (y, z, x)` and
     divided by 16.
  2. The second pass appends, face by face, each vertex's position minus
     the origin, its four tangent words (y, z, x, w), its rotated normal
     and its texture coordinate. It then appends each face's local
     triangle indices, shifted by the number of vertices appended before
     that face.

Each loop is a method proved against a specification function:

- `Emit`, `Flatten` and `RebasedIndices` specify the buffers.
- `MinVertex`, `MaxVertex` and `Origin` specify the origin search.
- `WorldspawnNodes`, `Schedule`, `ScheduledNodes` and `BuildNodes` specify
  the children.

Lemmas then state what those functions mean:

- Where each vertex and each index lands in the buffers.
- That every emitted index names a vertex of its own face.
- Which vertex the origin search picks.
- How many times each entity is built, and in what order.
- That the children hold one combiner per build.

The origin is the midpoint of the smallest- and largest-length positions.
In general that is not the centre of the mesh's bounding box.

The parsed map and its generated geometry are inputs, `MapModel.MapData`.
`Build` takes a function `load` from a path to `Option<MapData>`, where
`None` stands for a map file that does not exist, and applies it to the
stored map path. The code indexes the generated geometry by entity, brush
and face index without checking bounds, and relies on the generator
producing one slot for each. `MapModel.Covers` and `Loader.Covered` state
that alignment as a precondition.

## Model

| member | source | states |
|---|---|---|
| MapModel.MidpointIsHalfway | src/TBLoader.cpp:138 | The origin `vertex_min + (vertex_max - vertex_min) / 2` is equally far from both ends and lies between them on every axis. |
| Dispatch.Classify | src/TBLoader.cpp:69-76 | A property builds a worldspawn iff its key is `classname` and its value is `worldspawn`. It is the player-start case iff the key is `classname` and the value is `info_player_start`. Otherwise it is ignored. |
| Dispatch.WorldspawnCountBounds | src/TBLoader.cpp:67-72 | An entity is built zero times iff none of its properties triggers a build. It is built once per property iff all of them trigger. |
| Dispatch.ScheduleSorted | src/TBLoader.cpp:64-78 | Builds happen entity by entity: the entity indices built never decrease. |
| Dispatch.ScheduleCounts | src/TBLoader.cpp:64-78 | Entity `i` is built exactly as many times as it has `classname`/`worldspawn` properties. An index past the last entity is never built. |
| Dispatch.ScheduleEmpty | src/TBLoader.cpp:64-78 | Nothing is built iff no property of any entity is `classname`/`worldspawn`. |
| Dispatch.PlayerStartBuildsNothing | src/TBLoader.cpp:73-75 | A map whose only classnames are `info_player_start` builds nothing. |
| MeshAssembly.MinIndexIsFirstLeast | src/TBLoader.cpp:128-131 | The running minimum, replaced only by a strictly smaller key, ends on a least key, and every earlier key is strictly larger. |
| MeshAssembly.MaxIndexIsFirstGreatest | src/TBLoader.cpp:132-134 | The running maximum, replaced only by a strictly larger key, ends on a greatest key, and every earlier key is strictly smaller. |
| MeshAssembly.MinStep | src/TBLoader.cpp:128-131 | One more vertex replaces the smallest-length position iff it is the first vertex or its squared length is strictly smaller. |
| MeshAssembly.MaxStep | src/TBLoader.cpp:132-134 | One more vertex replaces the largest-length position iff its squared length is strictly larger. |
| MeshAssembly.MinVertexIsEarliestSmallest | src/TBLoader.cpp:118-131 | For a non-empty brush, `vertex_min` is the position of a vertex whose squared length is least, and no earlier vertex's is as small. |
| MeshAssembly.MaxVertexIsEarliestLargest | src/TBLoader.cpp:118-134 | `vertex_max` stays the zero vector when no squared length exceeds the zero vector's. Otherwise it is the position of a vertex whose squared length is greatest, and every earlier vertex's is strictly smaller. |
| MeshAssembly.ScanFaceVertices | src/TBLoader.cpp:124-135 | After one face's vertex loop, `has_vertex_min`, `vertex_min` and `vertex_max` are those of all vertices seen so far followed by the face's vertices. |
| MeshAssembly.FindOrigin | src/TBLoader.cpp:117-138 | The first pass over the brush's faces returns `Origin` of all their vertices in face order. |
| MeshAssembly.AppendFaceVertices | src/TBLoader.cpp:146-158 | Appending one face extends the four vertex buffers to exactly the buffers of all vertices so far followed by that face's vertices. |
| MeshAssembly.AppendFaceIndices | src/TBLoader.cpp:160-162 | Appending one face extends the index buffer by exactly that face's local indices, each plus the offset. |
| MeshAssembly.FillBuffers | src/TBLoader.cpp:141-164 | The second pass fills the vertex buffers with `Emit` of all vertices in face order. It fills the index buffer with every face's indices shifted by the vertex count of the faces before it. |
| MeshAssembly.AssembleBrushMesh | src/TBLoader.cpp:109-164 | Both passes together produce `BrushMesh` of the brush's first `face_count` face slots, positioned at the origin found. |
| MeshAssembly.EmitAt | src/TBLoader.cpp:149-157 | Emitted vertex `i` depends only on input vertex `i`: position minus origin, rotated normal, texture coordinate, and tangent words `4i..4i+4` in order y, z, x, w. |
| MeshAssembly.FlattenAt | src/TBLoader.cpp:142-158 | Vertex `k` of face `j` lands at the number of vertices of faces before `j`, plus `k`, inside face `j`'s block. |
| MeshAssembly.RebaseAt | src/TBLoader.cpp:160-162 | Shifted index `k` of a face is its local index `k` plus the offset. |
| MeshAssembly.RebasedIndexAt | src/TBLoader.cpp:160-163 | Index `k` of face `j` lands after all earlier faces' indices. It equals the local index plus `index_offset`, the vertex count of the faces before `j`. |
| MeshAssembly.RebasedIndicesInRange | src/TBLoader.cpp:160-163 | When every local index names a vertex of its own face, every emitted index names an emitted vertex. |
| MeshAssembly.EmittedIndexStaysInFace | src/TBLoader.cpp:142-163 | When one face-local index names a vertex of its own face, its emitted copy lies in that face's block and names the very vertex the local index named, whatever the other faces' indices are. |
| MeshAssembly.BrushMeshLengths | src/TBLoader.cpp:146-163 | One position, normal and texture coordinate per vertex of all faces, four tangent words per vertex, and as many indices as all faces' local indices. |
| MeshAssembly.BrushMeshVertex | src/TBLoader.cpp:138-158 | Vertex `k` of face `j` appears at the same buffer slot in positions, normals, texture coordinates and tangents. Adding the mesh position back to the stored position gives the vertex's engine-space position. |
| Loader.BrushMeshesAt | src/TBLoader.cpp:100-102 | Brush `b` of the entity is assembled from brush slot `b` of its generated geometry, using the brush's face count. |
| Loader.AddWorldspawnLayout | src/TBLoader.cpp:94-106 | A worldspawn build keeps the earlier children, then adds one combiner, then mesh `b` at offset `1 + b` after it. |
| Loader.WorldspawnLayout | src/TBLoader.cpp:90-107 | After a worldspawn build there are exactly `1 + brush_count` new children after the kept earlier ones: the combiner, then one mesh child per brush in brush order, each holding that brush's assembled mesh. This holds for an entity without brushes too. |
| Loader.BrushlessWorldspawn | src/TBLoader.cpp:94-100 | A worldspawn build of any entity without brushes adds a lone combiner and nothing else. |
| Loader.AddWorldspawnCombiners | src/TBLoader.cpp:94-106 | A worldspawn build adds exactly one combiner. |
| Loader.ScheduledCombiners | src/TBLoader.cpp:64-78 | After any sequence of worldspawn builds, the children hold one combiner per build. |
| Loader.BuildCombiners | src/TBLoader.cpp:64-78 | After a build, the children hold one combiner per `classname`/`worldspawn` property, and entity `i` is built once per such property of its own. |
| Loader.BuildNodesEmpty | src/TBLoader.cpp:42-78 | A build leaves the loader without children iff no entity has a `classname`/`worldspawn` property. |
| Loader.TBLoader.constructor | src/TBLoader.cpp:20-22 | A new loader has an empty map path and no children. |
| Loader.TBLoader.SetMap | src/TBLoader.cpp:28-31 | Stores the path and changes nothing else. |
| Loader.TBLoader.GetMap | src/TBLoader.cpp:33-36 | Returns the stored path and changes nothing. |
| Loader.TBLoader.BuildWorldspawn | src/TBLoader.cpp:90-107 | Appends to the children exactly `WorldspawnNodes`: a combiner, then one mesh child per brush, each assembled as `BrushMesh` specifies. |
| Loader.TBLoader.AssembleBrush | src/TBLoader.cpp:100-164 | The mesh of brush `i` is the `i`-th of the entity's brush meshes. |
| Loader.TBLoader.BuildScheduled | src/TBLoader.cpp:71 | One more worldspawn build of entity `i` extends the children by exactly that build. |
| Loader.TBLoader.VisitProperty | src/TBLoader.cpp:68-76 | Visiting property `j` builds the entity once more exactly when the property is `classname`/`worldspawn`. Otherwise the children are unchanged. |
| Loader.TBLoader.BuildEntity | src/TBLoader.cpp:65-77 | Visiting every property of entity `i` appends one build of it per `classname`/`worldspawn` property, in order. |
| Loader.TBLoader.Build | src/TBLoader.cpp:38-78 | Removes every child. When no file exists at the stored map path, no children remain. Otherwise the children are exactly `BuildNodes` of the map loaded from that path: every entity's worldspawn builds, entity by entity. |
| Loader.TBLoader.BuildMap | src/TBLoader.cpp:64-78 | Starting from no children, visiting every entity in order leaves exactly `BuildNodes` of the map. |

## Left out

- The map parser and the geometry generator are not part of this model. Their output, parsed entities and per-face generated vertices and indices, is an input (`MapModel.MapData`).
- File I/O: the existence check, open, read and close are replaced by the `load` argument of `Build`, a function from a path to `Option<MapData>`, where `None` means the file does not exist. `Build` applies it to the stored map path.
- Logging: the progress and error messages, the loop that prints texture names (lines 80-87), and the worldspawn and child counts are left out. They do not affect the result.
- Scene-tree ownership (`set_owner`) and freeing removed children (`queue_free`) are left out. The children are a sequence of values, so node identity and aliasing are not modelled.
- The packing of the five buffers into an engine array mesh (lines 166-176) is not modelled. The `Mesh` datatype holds the five buffers and the position that `set_position` receives.
- `_bind_methods` (engine reflection registration) and the empty destructor are left out.
- Floating point: coordinates, tangents and texture coordinates are exact reals. Single-precision rounding of the division by 16, of the subtraction and of the midpoint is not modelled, and neither are NaN or infinities.
- The squared length the origin search compares is a parameter of the `MeshAssembly` members. The loader passes `MapModel.LengthSquared`, and the lemmas hold for any such function.
- AppendFaceIndices: the index buffer holds unbounded integers. The 32-bit `int` overflow of `index_offset` and of the stored indices, possible once a brush has more than 2^31 vertices or when a face-local index is out of its face's range (for example 2^31 - 1 with any non-zero offset), is not modelled.
