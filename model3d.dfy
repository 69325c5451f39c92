/** `Model3D` (models/Model3D.h): a named list of meshes. */
module Models3D {
  import opened Meshes

  class Model3D {
    var name: string
    var meshes: seq<MeshData>

    /** `Model3D(modelName)`: no meshes yet. */
    constructor (modelName: string)
      ensures name == modelName && meshes == []
    {
      name := modelName;
      meshes := [];
    }

    /** `addMesh(mesh)`: appends the mesh; the name stays. */
    method AddMesh(mesh: MeshData)
      modifies this
      ensures name == old(name) && meshes == old(meshes) + [mesh]
    {
      meshes := meshes + [mesh];
    }
  }
}
