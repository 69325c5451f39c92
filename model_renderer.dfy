/**
  The state of `ModelRenderer` (renders/ModelRenderer.h) that the window drives: the model it
  draws and its view accumulators. Its OpenGL calls are not part of this model.
*/
module ModelRenderers {
  import opened ViewStates
  import opened Models3D

  class ModelRenderer {
    var model: Model3D?
    var rotationX: real
    var rotationY: real
    var zoom: real

    function View(): ViewState
      reads this
    {
      ViewState(rotationX, rotationY, zoom)
    }

    /** `ModelRenderer()`: no model, no rotation, the eye five units back. */
    constructor ()
      ensures model == null && View() == InitialView()
    {
      model := null;
      rotationX, rotationY, zoom := 0.0, 0.0, -5.0;
    }

    /** `setModel(newModel)`: replaces the model and nothing else. */
    method SetModel(newModel: Model3D?)
      modifies this
      ensures model == newModel && View() == old(View())
    {
      model := newModel;
    }

    /** `updateRotation(deltaX, deltaY)`. */
    method UpdateRotation(deltaX: real, deltaY: real)
      modifies this
      ensures View() == Rotated(old(View()), deltaX, deltaY) && model == old(model)
    {
      rotationY := rotationY + deltaX * 0.5;
      rotationX := rotationX + deltaY * 0.5;
    }

    /** `updateZoom(deltaZ)`. */
    method UpdateZoom(deltaZ: real)
      modifies this
      ensures View() == Zoomed(old(View()), deltaZ) && model == old(model)
    {
      zoom := zoom + deltaZ * 0.1;
    }
  }
}
