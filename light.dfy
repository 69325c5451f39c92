/** `Light`: a light source whose setters update its fields in place. */
module Lights {
  import opened Vectors3D

  datatype LightType = Directional | Point | Spot

  /** `std::clamp(v, 0, 1)`. */
  function Clamp01(v: real): (r: real)
    ensures 0.0 <= r <= 1.0
    ensures 0.0 <= v <= 1.0 ==> r == v
    ensures v < 0.0 ==> r == 0.0
    ensures v > 1.0 ==> r == 1.0
  {
    if v < 0.0 then 0.0 else if v > 1.0 then 1.0 else v
  }

  /** Clamping is idempotent: a clamped intensity is stored unchanged by a second clamp. */
  lemma Clamp01Idempotent(v: real)
    ensures Clamp01(Clamp01(v)) == Clamp01(v)
  {
  }

  class Light {
    var kind: LightType
    var position: Vec3
    var direction: Vec3
    var color: Vec3
    var intensity: real

    /** The constructor normalizes the direction and stores the intensity as given. */
    constructor (kind_: LightType, position_: Vec3, direction_: Vec3, color_: Vec3, intensity_: real)
      ensures kind == kind_ && position == position_ && color == color_
      ensures direction == Normalized(direction_)
      ensures intensity == intensity_
    {
      kind := kind_;
      position := position_;
      direction := Normalized(direction_);
      color := color_;
      intensity := intensity_;
    }

    function GetPosition(): (p: Vec3)
      reads this
      ensures p == position
    {
      position
    }

    function GetDirection(): (d: Vec3)
      reads this
      ensures d == direction
    {
      direction
    }

    function GetColor(): (c: Vec3)
      reads this
      ensures c == color
    {
      color
    }

    function GetIntensity(): (i: real)
      reads this
      ensures i == intensity
    {
      intensity
    }

    method SetPosition(pos: Vec3)
      modifies this
      ensures position == pos
      ensures kind == old(kind) && direction == old(direction) && color == old(color) && intensity == old(intensity)
    {
      position := pos;
    }

    method SetDirection(dir: Vec3)
      modifies this
      ensures direction == Normalized(dir)
      ensures kind == old(kind) && position == old(position) && color == old(color) && intensity == old(intensity)
    {
      direction := Normalized(dir);
    }

    method SetColor(col: Vec3)
      modifies this
      ensures color == col
      ensures kind == old(kind) && position == old(position) && direction == old(direction) && intensity == old(intensity)
    {
      color := col;
    }

    /** Stores the intensity clamped to [0, 1]. */
    method SetIntensity(intens: real)
      modifies this
      ensures intensity == Clamp01(intens)
      ensures 0.0 <= intensity <= 1.0
      ensures kind == old(kind) && position == old(position) && direction == old(direction) && color == old(color)
    {
      intensity := Clamp01(intens);
    }
  }
}
