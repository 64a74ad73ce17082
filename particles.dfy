/** Values shared by the whole pipeline: particle positions, colours, and the
    conversion from simulation length units into renderer units. */
module Particles {

  /** One row of a position array: the particle's x, y and z coordinates. */
  datatype Vec3 = Vec3(x: real, y: real, z: real)

  /** One sample of a matplotlib colour map (red, green, blue, alpha). */
  datatype Rgba = Rgba(r: real, g: real, b: real, a: real)

  /** A colour without its alpha channel. */
  datatype Rgb = Rgb(r: real, g: real, b: real)

  /** `color[:3]`: drops the alpha channel. */
  function ToRgb(c: Rgba): (rgb: Rgb)
    ensures rgb.r == c.r && rgb.g == c.g && rgb.b == c.b
  {
    Rgb(c.r, c.g, c.b)
  }

  /** Simulation distance units per renderer unit. */
  const LengthScale: real := 7.5e7

  /** One position divided by the length scale. */
  function ToRenderSpace(v: Vec3): Vec3 {
    Vec3(v.x / LengthScale, v.y / LengthScale, v.z / LengthScale)
  }

  /** `rows[:, :3] / 7.5e7`: every row divided by the length scale, row order kept. */
  function ScaleRows(rows: seq<Vec3>): (r: seq<Vec3>)
    ensures |r| == |rows|
    ensures forall k :: 0 <= k < |rows| ==> r[k] == ToRenderSpace(rows[k])
  {
    seq(|rows|, k requires 0 <= k < |rows| => ToRenderSpace(rows[k]))
  }

  /** The inverse of the scaling, back into simulation units. */
  function FromRenderSpace(v: Vec3): Vec3 {
    Vec3(v.x * LengthScale, v.y * LengthScale, v.z * LengthScale)
  }

  /** Scaling loses nothing: every rendered row maps back to the simulation row it came from. */
  lemma ScaleRowsRoundTrip(rows: seq<Vec3>)
    ensures forall k :: 0 <= k < |rows| ==> FromRenderSpace(ScaleRows(rows)[k]) == rows[k]
  {
    forall k | 0 <= k < |rows|
      ensures FromRenderSpace(ScaleRows(rows)[k]) == rows[k]
    {
      var v := rows[k];
      assert ScaleRows(rows)[k] == ToRenderSpace(v);
      assert v.x / LengthScale * LengthScale == v.x;
      assert v.y / LengthScale * LengthScale == v.y;
      assert v.z / LengthScale * LengthScale == v.z;
    }
  }
}
