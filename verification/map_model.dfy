/**
 * The data the loader receives from the map parser and the geometry
 * generator: parsed entities with their key/value properties and brushes,
 * and the generated per-entity, per-brush, per-face geometry that is
 * index-aligned with them. Both producers are outside this model; their
 * output is plain input data here.
 *
 * Coordinates are exact reals: the loader's only arithmetic on them is a
 * division by a power of two, a difference and a midpoint.
 */
module MapModel {

  datatype Option<T> = None | Some(value: T)

  /** A 3-component vector (positions and normals). */
  datatype Vec3 = Vec3(x: real, y: real, z: real)
  {
    function Plus(o: Vec3): Vec3 { Vec3(x + o.x, y + o.y, z + o.z) }
    function Minus(o: Vec3): Vec3 { Vec3(x - o.x, y - o.y, z - o.z) }
    function Over(d: real): Vec3 requires d != 0.0 { Vec3(x / d, y / d, z / d) }
  }

  /** Moving by `-b` and then by `b` is no move. */
  lemma MinusThenPlus(a: Vec3, b: Vec3)
    ensures a.Minus(b).Plus(b) == a
  {
  }

  /** The engine's default-constructed vector. */
  const Zero: Vec3 := Vec3(0.0, 0.0, 0.0)

  /** `lo` plus half the way from `lo` to `hi`, axis by axis. */
  function Midpoint(lo: Vec3, hi: Vec3): Vec3
  {
    Vec3(lo.x + (hi.x - lo.x) / 2.0, lo.y + (hi.y - lo.y) / 2.0, lo.z + (hi.z - lo.z) / 2.0)
  }

  /** The midpoint is as far from `lo` as from `hi`, and lies between them on every axis. */
  lemma MidpointIsHalfway(lo: Vec3, hi: Vec3)
    ensures Midpoint(lo, hi).Minus(lo) == hi.Minus(Midpoint(lo, hi))
    ensures var m := Midpoint(lo, hi);
      (lo.x <= m.x <= hi.x || hi.x <= m.x <= lo.x) &&
      (lo.y <= m.y <= hi.y || hi.y <= m.y <= lo.y) &&
      (lo.z <= m.z <= hi.z || hi.z <= m.z <= lo.z)
  {
  }

  /** The engine's squared vector length. */
  function LengthSquared(p: Vec3): real { p.x * p.x + p.y * p.y + p.z * p.z }

  /** A tangent: direction plus handedness sign in `w`. */
  datatype Vec4 = Vec4(x: real, y: real, z: real, w: real)

  /** A texture coordinate. */
  datatype Vec2 = Vec2(u: real, v: real)

  /** One generated vertex, in the map file's own axis convention. */
  datatype GeoVertex = GeoVertex(vertex: Vec3, normal: Vec3, tangent: Vec4, uv: Vec2)

  /**
   * One generated face: its polygon's vertices and its face-local
   * triangle indices. The vertex and index counts are the lengths.
   */
  datatype GeoFace = GeoFace(vertices: seq<GeoVertex>, indices: seq<int>)

  /** One generated brush: one face slot per source face, in face order. */
  datatype GeoBrush = GeoBrush(faces: seq<GeoFace>)

  /** One generated entity: one brush slot per source brush, in brush order. */
  datatype EntityGeometry = EntityGeometry(brushes: seq<GeoBrush>)

  /** A key/value pair of an entity, as written in the map file. */
  datatype Property = Property(key: string, value: string)

  /**
   * A source brush. The loader reads only how many faces it has; the
   * planes and texture data of those faces are consumed by the generator.
   */
  datatype Brush = Brush(faceCount: nat)

  datatype Entity = Entity(properties: seq<Property>, brushes: seq<Brush>)

  /** Everything one load produces: entities and their generated geometry. */
  datatype MapData = MapData(entities: seq<Entity>, entityGeo: seq<EntityGeometry>)

  /** The generated geometry has a brush slot and a face slot for every source brush and face. */
  predicate Covers(ent: Entity, geo: EntityGeometry)
  {
    |ent.brushes| <= |geo.brushes| &&
    forall b :: 0 <= b < |ent.brushes| ==> ent.brushes[b].faceCount <= |geo.brushes[b].faces|
  }
}
