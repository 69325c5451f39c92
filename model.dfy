/**
  `Model` (model/Model.h): the base triangles of the last successful load and the loader
  that produces them. The only loader the viewer installs is `OBJLoader`, so a model either
  has that loader or none.
*/
module ViewerModels {
  import opened Wrappers
  import opened FsPaths
  import L = TriangleLoaders

  const NoLoader := RuntimeError("Loader is not set.")

  class Model {
    var triangles: seq<L.BaseTriangle>
    var hasLoader: bool

    /** `Model(std::move(loader))`: no triangles yet; the loader may be null. */
    constructor (hasLoader: bool)
      ensures this.triangles == [] && this.hasLoader == hasLoader
    {
      triangles := [];
      this.hasLoader := hasLoader;
    }

    /**
      `loadModel(filePath)`: throws "Loader is not set." without a loader, passes on the
      loader's exception, and only on success replaces the triangles.
    */
    method LoadModel(fs: FileSystem, filePath: string) returns (r: Outcome)
      requires hasLoader ==> L.Loadable(fs, filePath)
      modifies this
      ensures hasLoader == old(hasLoader)
      ensures !hasLoader ==> r == Fail(NoLoader) && triangles == old(triangles)
      ensures hasLoader && L.Loaded(fs, filePath).Err? ==>
        r == Fail(L.Loaded(fs, filePath).error) && triangles == old(triangles)
      ensures hasLoader && L.Loaded(fs, filePath).Ok? ==>
        r == Pass && triangles == L.Loaded(fs, filePath).value
    {
      if !hasLoader {
        return Fail(NoLoader);
      }
      var loaded := L.LoadModel(fs, filePath);
      if loaded.Err? {
        return Fail(loaded.error);
      }
      triangles := loaded.value;
      r := Pass;
    }

    /** `getTriangles()`. */
    function GetTriangles(): (r: seq<L.BaseTriangle>)
      reads this
      ensures r == triangles
    {
      triangles
    }
  }
}
