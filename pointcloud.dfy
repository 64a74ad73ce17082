/** The point-cloud script: for every frame it draws all particles at their
    positions in renderer units, coloured by their normalised temperature
    (the 1300 K .. 1e4 K preset), renders, and advances the scene's frame.

    The renderer is modelled by the list of draw calls it receives. */
module PointCloud {
  import opened Particles
  import opened Normalization
  import opened Givis

  /** One `c.draw(vs, None, cs)` call, with the frame number current when it is rendered. */
  datatype Draw = Draw(frame: int, points: seq<Vec3>, colours: seq<Rgb>)

  /** `color_map(norm)[:, :3]`: one colour per normalised value, alpha dropped, order kept. */
  function Colours(colorMap: real -> Rgba, norm: seq<real>): (cs: seq<Rgb>)
    ensures |cs| == |norm|
    ensures forall p :: 0 <= p < |norm| ==> cs[p] == ToRgb(colorMap(norm[p]))
  {
    seq(|norm|, p requires 0 <= p < |norm| => ToRgb(colorMap(norm[p])))
  }

  /** Draw d shows frame i: row p is particle p's position in renderer units,
      coloured by particle p's own normalised temperature in that frame. */
  ghost predicate DrawsFrame(d: Draw, positions: seq<seq<Vec3>>, temp: seq<seq<real>>,
                             colorMap: real -> Rgba, log10: real -> real, i: nat)
    requires |positions| == |temp|
    requires forall p :: 0 <= p < |positions| ==> i < |positions[p]| && i < |temp[p]|
    requires StrictlyIncreasing(log10)
  {
    |d.points| == |positions| && |d.colours| == |positions| &&
    forall p :: 0 <= p < |positions| ==>
      d.points[p] == ToRenderSpace(positions[p][i]) &&
      d.colours[p] == ToRgb(colorMap(Normalized(PointCloudPreset, log10, temp[p][i])))
  }

  /** The `__main__` loop: one draw per frame, in frame order, each rendered at
      the frame number current at that point, which then advances by one. */
  method RenderFrames(positions: seq<seq<Vec3>>, temp: seq<seq<real>>, frames: nat,
                      colorMap: real -> Rgba, log10: real -> real, startFrame: int)
    returns (draws: seq<Draw>, frameCurrent: int)
    requires |positions| == |temp|
    requires forall p :: 0 <= p < |positions| ==> |positions[p]| == frames && |temp[p]| == frames
    requires StrictlyIncreasing(log10)
    ensures |draws| == frames && frameCurrent == startFrame + frames
    ensures forall i :: 0 <= i < frames ==> draws[i].frame == startFrame + i
    ensures forall i :: 0 <= i < frames ==> DrawsFrame(draws[i], positions, temp, colorMap, log10, i)
  {
    PresetsValid();
    draws := [];
    frameCurrent := startFrame;
    for i := 0 to frames
      invariant |draws| == i && frameCurrent == startFrame + i
      invariant forall k :: 0 <= k < i ==> draws[k].frame == startFrame + k
      invariant forall k :: 0 <= k < i ==> DrawsFrame(draws[k], positions, temp, colorMap, log10, k)
    {
      var vs := ScaleRows(Column(positions, i));
      var norm := LogNormalize(Column(temp, i), PointCloudPreset, log10);
      var cs := Colours(colorMap, norm);
      draws := draws + [Draw(frameCurrent, vs, cs)];
      frameCurrent := frameCurrent + 1;
    }
  }

  /** Every colour the script draws comes from the colour map's domain [0, 1]:
      the cloud's normalisation maps any temperature into it, reaching 0 for
      converted temperatures at or below 1300 K and 1 at or above 1e4 K. */
  lemma PointCloudNormalizationRange(log10: real -> real, t: real)
    requires StrictlyIncreasing(log10)
    ensures ValidConfig(PointCloudPreset)
    ensures 0.0 <= Normalized(PointCloudPreset, log10, t) <= 1.0
    ensures t * 11604.0 <= 1300.0 ==> Normalized(PointCloudPreset, log10, t) == 0.0
    ensures t * 11604.0 >= 1e4 ==> Normalized(PointCloudPreset, log10, t) == 1.0
  {
    PresetsValid();
  }
}
