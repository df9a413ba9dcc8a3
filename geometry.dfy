/**
 * The world-geometry taxonomy: the `Geometry` sum type with its default,
 * `Sector` and `StaticMap`. Surface, collision-mesh and render-node
 * identifiers belong to other subsystems and are opaque here.
 */
module Geometry {

  /** Identifier of a surface, defined by the surface store. */
  type SurfaceId(==, 0, !new)

  /** Identifier of a collision mesh, defined by the collision system. */
  type CollisionMeshId(==, 0, !new)

  /** Identifier of a render-graph node, defined by the renderer. */
  type NodeId(==, 0, !new)

  /** Rust's `Option`. */
  datatype Option<T> = None | Some(value: T)

  /** A sector: its ordered list of surface references (the field is private to the source module). */
  datatype Sector = Sector(surfaces: seq<SurfaceId>)

  /** Static world geometry: an optional collision mesh, ordered sectors and one render node. */
  datatype StaticMap = StaticMap(collisionMesh: Option<CollisionMeshId>, sectors: seq<Sector>, renderNode: NodeId)

  /** World geometry: a static map, or the data-less placeholder `Todo`. */
  datatype Geometry = StaticMapGeometry(staticMap: StaticMap) | Todo

  /** `Default for Geometry`: the placeholder, never a static map. */
  function DefaultGeometry(): (g: Geometry)
    ensures g.Todo? && !g.StaticMapGeometry?
    ensures forall m: StaticMap :: g != StaticMapGeometry(m)
  {
    Todo
  }

  /**
   * The derived `Default for StaticMap`, given the default value of `NodeId`
   * (which the renderer defines): no collision mesh, no sectors, and that node.
   */
  function DefaultStaticMap(defaultNode: NodeId): (m: StaticMap)
    ensures m.collisionMesh.None?
    ensures |m.sectors| == 0
    ensures m.renderNode == defaultNode
  {
    StaticMap(None, [], defaultNode)
  }

  /** Construction followed by field access gives back exactly the values supplied. */
  lemma StaticMapFields(mesh: Option<CollisionMeshId>, sectors: seq<Sector>, node: NodeId)
    ensures StaticMap(mesh, sectors, node).collisionMesh == mesh
    ensures StaticMap(mesh, sectors, node).sectors == sectors
    ensures StaticMap(mesh, sectors, node).renderNode == node
    ensures StaticMapGeometry(StaticMap(mesh, sectors, node)).staticMap == StaticMap(mesh, sectors, node)
  {
  }

  /**
   * Sectors keep their surfaces in order and may repeat one: two sectors are
   * equal exactly when their surface lists are, so swapping two distinct
   * surfaces gives a different sector.
   */
  lemma SectorOrderMatters(a: SurfaceId, b: SurfaceId)
    requires a != b
    ensures Sector([a, b]) != Sector([b, a])
    ensures |Sector([a, a]).surfaces| == 2
  {
  }

  /** Two static maps are equal exactly when all three fields are, sectors in order. */
  lemma StaticMapEquality(m1: StaticMap, m2: StaticMap)
    ensures m1 == m2 <==>
      m1.collisionMesh == m2.collisionMesh && m1.sectors == m2.sectors && m1.renderNode == m2.renderNode
  {
  }
}
