/**
  `Controller` (controller/Controller.h): on a file-open event it loads the file into the
  model, builds working triangles from the model's base triangles and hands them to the
  renderer. A failure in either step is caught and leaves the renderer as it was.
*/
module Controllers {
  import opened Wrappers
  import opened FsPaths
  import L = TriangleLoaders
  import T = Transformers
  import R = SoftwareRenderer
  import M = ViewerModels

  /** `EventType`. */
  datatype EventType = FileOpen | WindowClose | CustomEvent

  /** `std::variant<std::string, int>`. */
  datatype Payload = Text(s: string) | Number(n: int)

  /** `Event`: the payload defaults to the empty string, the variant's first alternative. */
  datatype Event = Event(kind: EventType, payload: Payload)

  /** What `std::get<std::string>` throws on an `int` payload. */
  const WrongAlternative := BadVariantAccess

  /** Working triangles come out of the constructor, so the renderer can shade all of them. */
  lemma {:induction false} TransformedShadeable(base: seq<L.BaseTriangle>)
    requires T.Transformed(base).Ok?
    ensures R.AllShadeable(T.Transformed(base).value)
  {
    var ws := T.Transformed(base).value;
    forall i | 0 <= i < |ws| ensures R.Shadeable(ws[i]) {
      var b := base[i];
      assert T.Build(b) == Ok(ws[i]);
      R.ConstructedShadeable(T.VertexOf(b.v1), T.VertexOf(b.v2), T.VertexOf(b.v3), b.vn1, b.vn2, b.vn3);
    }
  }

  class Controller {
    var renderer: R.WinAPIRenderer
    var model: M.Model

    ghost predicate Valid()
      reads this, renderer
    {
      renderer.Valid()
    }

    /** `Controller()`: a fresh renderer and a model whose loader is an `OBJLoader`. */
    constructor ()
      ensures Valid() && fresh(renderer) && fresh(model)
      ensures model.hasLoader && model.triangles == [] && renderer.model == []
    {
      renderer := new R.WinAPIRenderer();
      model := new M.Model(true);
    }

    /** What the viewer asks of an opened file: its faces index existing vertices and normals. */
    predicate Handleable(fs: FileSystem, event: Event)
      reads this, model
    {
      event.kind == FileOpen && event.payload.Text? && model.hasLoader ==> L.Loadable(fs, event.payload.s)
    }

    /**
      `handleEvent(event)`. A file-open event with a path loads, transforms and updates in
      that order; an exception from the load or the transform is swallowed and the renderer
      keeps its list and counters, though after a successful load the model already holds the
      new base triangles. A successful update raises the renderer's error box for an empty list
      and requests a repaint otherwise. An `int` payload makes `std::get` throw outside the
      `try`. Every other event changes nothing.
    */
    method HandleEvent(fs: FileSystem, event: Event) returns (r: Outcome)
      requires Valid() && renderer != model as object && Handleable(fs, event)
      modifies renderer, model
      ensures Valid() && model.hasLoader == old(model.hasLoader)
      ensures r.Fail? <==> event.kind == FileOpen && event.payload.Number?
      ensures r.Fail? ==> r.error == WrongAlternative
      ensures event.kind != FileOpen || event.payload.Number? ==>
        model.triangles == old(model.triangles) && renderer.model == old(renderer.model)
      ensures event.kind == FileOpen && event.payload.Text? ==>
        var loaded := if model.hasLoader then L.Loaded(fs, event.payload.s) else Err(M.NoLoader);
        (loaded.Err? ==> model.triangles == old(model.triangles) && renderer.model == old(renderer.model)) &&
        (loaded.Ok? ==> model.triangles == loaded.value) &&
        (loaded.Ok? && T.Transformed(loaded.value).Err? ==> renderer.model == old(renderer.model)) &&
        (loaded.Ok? && T.Transformed(loaded.value).Ok? ==> renderer.model == T.Transformed(loaded.value).value)
      ensures var updated := event.kind == FileOpen && event.payload.Text? && model.hasLoader &&
          L.Loaded(fs, event.payload.s).Ok? && T.Transformed(L.Loaded(fs, event.payload.s).value).Ok?;
        (!updated ==> renderer.errorBoxes == old(renderer.errorBoxes) &&
                      renderer.repaintRequests == old(renderer.repaintRequests)) &&
        (updated && renderer.model == [] ==> renderer.errorBoxes == old(renderer.errorBoxes) + 1 &&
                                              renderer.repaintRequests == old(renderer.repaintRequests)) &&
        (updated && renderer.model != [] ==> renderer.repaintRequests == old(renderer.repaintRequests) + 1 &&
                                              renderer.errorBoxes == old(renderer.errorBoxes))
    {
      r := Pass;
      if event.kind == FileOpen {
        if event.payload.Number? {
          return Fail(WrongAlternative);
        }
        var filePath := event.payload.s;
        var loaded := model.LoadModel(fs, filePath);
        if loaded.Fail? {
          return;
        }
        var working := T.TransformTriangles(model.GetTriangles());
        if working.Err? {
          return;
        }
        TransformedShadeable(model.triangles);
        renderer.UpdateModel(working.value);
      }
    }
  }
}
