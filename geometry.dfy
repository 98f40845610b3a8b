/** Mesh geometry as the reconstruction library hands it over: points, index triangles, and the
    triangle mesh whose UV array the texture compositor rewrites in place. */
module Geometry {

  /** Eigen::Vector2d */
  datatype Vec2 = Vec2(x: real, y: real)

  /** Eigen::Vector3d */
  datatype Vec3 = Vec3(x: real, y: real, z: real)

  /** Eigen::Vector3i: the three vertex indices of one triangle. */
  datatype Triangle = Triangle(x: int, y: int, z: int) {
    /** operator[] of the vector: component k. */
    function Corner(k: nat): int
      requires k < 3
    {
      if k == 0 then x else if k == 1 then y else z
    }
  }

  /** geometry::TriangleMesh, reduced to the arrays this program reads or writes. */
  class TriangleMesh {
    var vertices: seq<Vec3>
    var vertexNormals: seq<Vec3>
    var vertexColors: seq<Vec3>
    var triangles: seq<Triangle>
    var triangleUvs: seq<Vec2>
    var triangleMaterialIds: seq<int>

    constructor (vertices: seq<Vec3>, vertexNormals: seq<Vec3>, vertexColors: seq<Vec3>,
                 triangles: seq<Triangle>, triangleUvs: seq<Vec2>, triangleMaterialIds: seq<int>)
      ensures this.vertices == vertices && this.vertexNormals == vertexNormals
      ensures this.vertexColors == vertexColors && this.triangles == triangles
      ensures this.triangleUvs == triangleUvs && this.triangleMaterialIds == triangleMaterialIds
    {
      this.vertices := vertices;
      this.vertexNormals := vertexNormals;
      this.vertexColors := vertexColors;
      this.triangles := triangles;
      this.triangleUvs := triangleUvs;
      this.triangleMaterialIds := triangleMaterialIds;
    }
  }
}
