/**
  The accumulators of `Camera` (RenderOgl3/Camera.h, RenderOgl3/Camera.cpp); its projection
  and view matrices are not part of this model.
*/
module Cameras {
  import opened ViewStates

  class Camera {
    var rotationX: real
    var rotationY: real
    var zoom: real

    function View(): ViewState
      reads this
    {
      ViewState(rotationX, rotationY, zoom)
    }

    /** The member initialisers: no rotation, zoom -5. */
    constructor ()
      ensures View() == InitialView()
    {
      rotationX, rotationY, zoom := 0.0, 0.0, -5.0;
    }

    /** `Camera::updateRotation(deltaX, deltaY)`. */
    method UpdateRotation(deltaX: real, deltaY: real)
      modifies this
      ensures View() == Rotated(old(View()), deltaX, deltaY)
    {
      rotationY := rotationY + deltaX * 0.5;
      rotationX := rotationX + deltaY * 0.5;
    }

    /** `Camera::updateZoom(deltaZ)`. */
    method UpdateZoom(deltaZ: real)
      modifies this
      ensures View() == Zoomed(old(View()), deltaZ)
    {
      zoom := zoom + deltaZ * 0.1;
    }
  }
}
