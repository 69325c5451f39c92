/**
  The rotation and zoom accumulators that `ModelRenderer` (renders/ModelRenderer.h) and
  `Camera` (RenderOgl3/Camera.h, RenderOgl3/Camera.cpp) both keep: a horizontal drag turns
  about the y axis, a vertical drag about the x axis, half a degree per pixel, and the wheel
  moves the eye a tenth of a unit per notch.
*/
module ViewStates {

  datatype ViewState = ViewState(rotationX: real, rotationY: real, zoom: real)

  /** `rotationX = rotationY = 0` and `zoom = -5`. */
  function InitialView(): ViewState {
    ViewState(0.0, 0.0, -5.0)
  }

  /** `updateRotation(deltaX, deltaY)`. */
  function Rotated(v: ViewState, deltaX: real, deltaY: real): (r: ViewState)
    ensures r.rotationY == v.rotationY + deltaX * 0.5
    ensures r.rotationX == v.rotationX + deltaY * 0.5
    ensures r.zoom == v.zoom
  {
    v.(rotationY := v.rotationY + deltaX * 0.5, rotationX := v.rotationX + deltaY * 0.5)
  }

  /** `updateZoom(deltaZ)`. */
  function Zoomed(v: ViewState, deltaZ: real): (r: ViewState)
    ensures r.zoom == v.zoom + deltaZ * 0.1
    ensures r.rotationX == v.rotationX && r.rotationY == v.rotationY
  {
    v.(zoom := v.zoom + deltaZ * 0.1)
  }

  /** One call of either accumulator. */
  datatype Update = Rotate(deltaX: real, deltaY: real) | Zoom(deltaZ: real)

  function Applied(v: ViewState, u: Update): ViewState {
    match u
    case Rotate(dx, dy) => Rotated(v, dx, dy)
    case Zoom(dz) => Zoomed(v, dz)
  }

  /** The state after a series of calls, in order. */
  function Replayed(v: ViewState, us: seq<Update>): ViewState
    decreases |us|
  {
    if us == [] then v else Replayed(Applied(v, us[0]), us[1..])
  }

  function SumDeltaX(us: seq<Update>): real {
    if us == [] then 0.0 else (if us[0].Rotate? then us[0].deltaX else 0.0) + SumDeltaX(us[1..])
  }

  function SumDeltaY(us: seq<Update>): real {
    if us == [] then 0.0 else (if us[0].Rotate? then us[0].deltaY else 0.0) + SumDeltaY(us[1..])
  }

  function SumDeltaZ(us: seq<Update>): real {
    if us == [] then 0.0 else (if us[0].Zoom? then us[0].deltaZ else 0.0) + SumDeltaZ(us[1..])
  }

  /**
    The accumulators only add: after any series of calls, in any order, each angle and the
    zoom have moved by their factor times the sum of their deltas.
  */
  lemma {:induction false} ReplayedAdds(v: ViewState, us: seq<Update>)
    ensures Replayed(v, us) ==
      ViewState(v.rotationX + SumDeltaY(us) * 0.5, v.rotationY + SumDeltaX(us) * 0.5, v.zoom + SumDeltaZ(us) * 0.1)
    decreases |us|
  {
    if us != [] {
      ReplayedAdds(Applied(v, us[0]), us[1..]);
    }
  }

  /** Rotation and zoom updates are independent: either order gives the same state. */
  lemma RotateZoomCommute(v: ViewState, dx: real, dy: real, dz: real)
    ensures Zoomed(Rotated(v, dx, dy), dz) == Rotated(Zoomed(v, dz), dx, dy)
  {
  }

  /** Two rotations are one rotation by the summed deltas; the same holds for zooms. */
  lemma UpdatesAccumulate(v: ViewState, dx1: real, dy1: real, dx2: real, dy2: real, dz1: real, dz2: real)
    ensures Rotated(Rotated(v, dx1, dy1), dx2, dy2) == Rotated(v, dx1 + dx2, dy1 + dy2)
    ensures Zoomed(Zoomed(v, dz1), dz2) == Zoomed(v, dz1 + dz2)
  {
  }

  /** Zero deltas leave the state as it is. */
  lemma ZeroDeltas(v: ViewState)
    ensures Rotated(v, 0.0, 0.0) == v && Zoomed(v, 0.0) == v
  {
  }
}
