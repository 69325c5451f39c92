/**
  `ModelLoader::createLoader` (models/ModelLoader.cpp): the loader for a file extension. The
  only loader is `ObjLoader`, so the only accepted extension is exactly `.obj`.
*/
module ModelLoaders {
  import opened Wrappers
  import opened ObjMeshLoaders

  /** What `createLoader` throws for an extension no loader supports. */
  function UnsupportedExtension(extension: string): Error {
    RuntimeError("Unsupported file extension: " + extension)
  }

  /** `createLoader(extension)`: an `ObjLoader` when it supports the extension, else the exception. */
  method CreateLoader(extension: string) returns (r: Result<ObjLoader>)
    ensures r.Ok? <==> extension == ".obj"
    ensures r.Err? ==> r.error == UnsupportedExtension(extension)
  {
    var objLoader := new ObjLoader();
    if objLoader.SupportsExtension(extension) {
      return Ok(objLoader);
    }
    return Err(UnsupportedExtension(extension));
  }
}
