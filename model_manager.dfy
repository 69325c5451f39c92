/**
  `ModelManager` (models/ModelManager.h): a cache of loaded models keyed by the exact path
  string. A path seen before returns the stored model without touching the file again; a new
  path is loaded by the loader for its extension and stored only when the load succeeds.
*/
module ModelManagers {
  import opened Wrappers
  import opened FsPaths
  import opened Meshes
  import opened ObjMeshLoaders
  import opened Models3D
  import opened ModelLoaders

  /** The result of loading a path that is not cached: the extension's loader, then the file. */
  function FreshLoad(fs: FileSystem, filePath: string): (r: Result<(string, seq<MeshData>)>)
    ensures Extension(filePath) != ".obj" ==> r == Err(UnsupportedExtension(Extension(filePath)))
    ensures Extension(filePath) == ".obj" ==> r == LoadedModel(fs, filePath)
  {
    if Extension(filePath) != ".obj" then Err(UnsupportedExtension(Extension(filePath)))
    else LoadedModel(fs, filePath)
  }

  class ModelManager {
    var loadedModels: map<string, Model3D>

    /** `ModelManager()`: an empty cache. */
    constructor ()
      ensures loadedModels == map[]
    {
      loadedModels := map[];
    }

    /**
      `loadModel(filePath)`: the cached model of the path when there is one; otherwise the
      freshly loaded model, now cached under the path. An exception of `createLoader` or of
      the loader leaves the cache as it was.
    */
    method LoadModel(fs: FileSystem, filePath: string) returns (r: Result<Model3D>)
      modifies this
      ensures filePath in old(loadedModels) ==> r == Ok(old(loadedModels)[filePath]) && loadedModels == old(loadedModels)
      ensures filePath !in old(loadedModels) ==> (r.Ok? <==> FreshLoad(fs, filePath).Ok?)
      ensures filePath !in old(loadedModels) && r.Err? ==>
        r.error == FreshLoad(fs, filePath).error && loadedModels == old(loadedModels)
      ensures filePath !in old(loadedModels) && r.Ok? ==>
        fresh(r.value) && (r.value.name, r.value.meshes) == FreshLoad(fs, filePath).value &&
        loadedModels == old(loadedModels)[filePath := r.value]
    {
      if filePath in loadedModels {
        return Ok(loadedModels[filePath]);
      }
      var extension := Extension(filePath);
      var loader := CreateLoader(extension);
      if loader.Err? {
        return Err(loader.error);
      }
      var model := loader.value.LoadModel(fs, filePath);
      if model.Err? {
        return Err(model.error);
      }
      loadedModels := loadedModels[filePath := model.value];
      return model;
    }

    /** `clearCache()`: forgets every model. */
    method ClearCache()
      modifies this
      ensures loadedModels == map[]
    {
      loadedModels := map[];
    }
  }
}
