/** `Visualization`: prepares each frame of a simulation for rendering. The
    frame's rows are optionally cut to the half-space z < 0, split into colour
    classes by `bin_data`, and each class becomes one point group named by its
    list position, coloured by the colour-map sample of that position and
    placed at its rows divided by the length scale.

    The renderer is modelled by an abstract scene: the point groups present
    now, the current frame number, and the list of stills written so far. */
module Givis {
  import opened Particles
  import opened Normalization
  import opened Binning
  import opened Text

  // ---------------------------------------------------------------------------
  // Choice of normalisation

  /** The evidently intended normalisation for a scalar file suffix: the
      pressure preset for "P", the temperature preset otherwise. As written,
      `bin_data` never makes this choice; the class below keeps the code's
      fixed temperature preset. */
  function PresetFor(code: string): (cfg: NormConfig)
    ensures ValidConfig(cfg)
    ensures cfg == PressurePreset <==> code == "P"
  {
    if code == "P" then PressurePreset else TemperaturePreset
  }

  /** As `bin_data` is written it always uses the temperature preset. Every
      pressure at or above the pressure preset's floor is then converted past
      the temperature ceiling, normalises to 1.0, and the whole frame becomes a
      single colour class. */
  lemma PressureCollapsesUnderTemperaturePreset(pos: seq<Vec3>, pressure: seq<real>, bins: nat, log10: real -> real)
    requires |pos| == |pressure| > 0 && bins > 0
    requires StrictlyIncreasing(log10)
    requires forall i :: 0 <= i < |pressure| ==> PressurePreset.tMin <= pressure[i]
    ensures |FrameClasses(pos, pressure, TemperaturePreset, bins, log10)| == 1
  {
    var v := NormalizedSeq(TemperaturePreset, log10, pressure);
    forall i | 0 <= i < |v| ensures v[i] == 1.0 {
      assert pressure[i] * 11604.0 >= 6000.0;
    }
    assert MinOf(v) == 1.0 && MaxOf(v) == 1.0;
    BinIndicesConstant(v, bins);
    var dig := BinIndices(v, bins);
    GroupsConstant(dig);
  }

  /** With the intended preset for the suffix, two different pressures inside the
      pressure range keep their order after normalisation. */
  lemma PressurePresetSeparates(log10: real -> real, p1: real, p2: real)
    requires StrictlyIncreasing(log10)
    requires PressurePreset.tMin <= p1 < p2 <= PressurePreset.tMax
    ensures Normalized(PresetFor("P"), log10, p1) < Normalized(PresetFor("P"), log10, p2)
  {
    NormalizedStrictInRange(PressurePreset, log10, p1, p2);
  }

  /** With the intended preset for the suffix, a frame holding two different
      in-range pressures is split into at least two colour classes when there
      are at least two bins. */
  lemma PressurePresetKeepsContrast(pos: seq<Vec3>, pressure: seq<real>, bins: nat, log10: real -> real, i1: nat, i2: nat)
    requires |pos| == |pressure| && bins >= 2
    requires StrictlyIncreasing(log10)
    requires i1 < |pressure| && i2 < |pressure|
    requires PressurePreset.tMin <= pressure[i1] < pressure[i2] <= PressurePreset.tMax
    ensures |FrameClasses(pos, pressure, PresetFor("P"), bins, log10)| >= 2
  {
    var v := NormalizedSeq(PressurePreset, log10, pressure);
    PressurePresetSeparates(log10, pressure[i1], pressure[i2]);
    assert MinOf(v) <= v[i1] < v[i2] <= MaxOf(v);
    ClassesSeparateExtremes(v, bins);
  }

  // ---------------------------------------------------------------------------
  // The colour map samples (`color_map(np.linspace(0, 1, color_bins))`)

  /** `np.linspace(0, 1, n)`: n evenly spaced points, the last one exactly 1. */
  function Linspace01(n: nat): (s: seq<real>)
    ensures |s| == n
  {
    if n == 0 then [] else if n == 1 then [0.0] else EvenEdges(0.0, 1.0, n - 1)
  }

  /** The samples start at 0, end at 1, ascend strictly, and so all lie in the colour map's domain [0, 1]. */
  lemma LinspaceSamples(n: nat)
    ensures n >= 1 ==> Linspace01(n)[0] == 0.0
    ensures n >= 2 ==> Linspace01(n)[n - 1] == 1.0
    ensures forall k1, k2 :: 0 <= k1 < k2 < n ==> Linspace01(n)[k1] < Linspace01(n)[k2]
    ensures forall k :: 0 <= k < n ==> 0.0 <= Linspace01(n)[k] <= 1.0
  {
    if n >= 2 {
      var s := Linspace01(n);
      EvenEdgesIncreasing(0.0, 1.0, n - 1);
      forall k | 0 <= k < n ensures 0.0 <= s[k] <= 1.0 {
        if 0 < k { assert s[0] < s[k]; }
        if k < n - 1 { assert s[k] < s[n - 1]; }
      }
    }
  }

  /** `self.cmap`: one colour per bin, sampled from the colour map. */
  function Colormap(colorMap: real -> Rgba, bins: nat): (cmap: seq<Rgba>)
    ensures |cmap| == bins
    ensures forall k :: 0 <= k < bins ==> cmap[k] == colorMap(Linspace01(bins)[k])
  {
    seq(bins, k requires 0 <= k < bins => colorMap(Linspace01(bins)[k]))
  }

  // ---------------------------------------------------------------------------
  // One frame's data

  /** `a[:, i]`: the i-th entry of every row. */
  function Column<T>(rows: seq<seq<T>>, i: nat): (c: seq<T>)
    requires forall p :: 0 <= p < |rows| ==> i < |rows[p]|
    ensures |c| == |rows|
    ensures forall p :: 0 <= p < |rows| ==> c[p] == rows[p][i]
  {
    seq(|rows|, p requires 0 <= p < |rows| => rows[p][i])
  }

  /** `idx = data[:, 2] < 0` as positions: the rows below the plane z = 0, in order. */
  function KeptRows(data: seq<Vec3>): (idx: seq<nat>)
    ensures forall i :: i in idx <==> 0 <= i < |data| && data[i].z < 0.0
    ensures forall k :: 0 <= k < |idx| ==> idx[k] < |data|
    ensures Increasing(idx)
  {
    var mask := seq(|data|, i requires 0 <= i < |data| => if data[i].z < 0.0 then 1 else 0);
    Select(mask, 1)
  }

  /** `data[idx]`, `temp[idx]`: positions and values filtered by the same mask. */
  function CutFrame(data: seq<Vec3>, temp: seq<real>): (f: (seq<Vec3>, seq<real>))
    requires |data| == |temp|
    ensures |f.0| == |f.1| == |KeptRows(data)|
  {
    var keep := KeptRows(data);
    (Gather(data, keep), Gather(temp, keep))
  }

  /** The cut keeps exactly the rows below the plane, each with its own value, in their original order. */
  lemma CutFrameKeepsLowerHalf(data: seq<Vec3>, temp: seq<real>)
    requires |data| == |temp|
    ensures forall k :: 0 <= k < |CutFrame(data, temp).0| ==> CutFrame(data, temp).0[k].z < 0.0
    ensures forall k :: 0 <= k < |CutFrame(data, temp).0| ==>
              CutFrame(data, temp).0[k] == data[KeptRows(data)[k]] && CutFrame(data, temp).1[k] == temp[KeptRows(data)[k]]
    ensures forall i :: 0 <= i < |data| && data[i].z < 0.0 ==>
              exists k :: 0 <= k < |KeptRows(data)| && KeptRows(data)[k] == i
  {
    var keep := KeptRows(data);
    forall k | 0 <= k < |keep| ensures data[keep[k]].z < 0.0 {
      assert keep[k] in keep;
    }
  }

  // ---------------------------------------------------------------------------
  // Point groups

  /** One particle system of the scene: its name, its halo colour, its particle count and their locations. */
  datatype PointGroup = PointGroup(name: string, colour: Rgb, count: nat, locations: seq<Vec3>)

  /** One rendered still: the file it is written to, the frame number and the scene it shows. */
  datatype Capture = Capture(file: string, frame: int, groups: seq<PointGroup>)

  /** `str(j).zfill(4)`. */
  function ObjectName(j: nat): string {
    ZeroPad(NatToString(j), 4)
  }

  /** `"{}.png".format(str(i).zfill(4))`. */
  function FrameFile(i: nat): string {
    ObjectName(i) + ".png"
  }

  /** The group for the j-th class just after it is added: named by j, coloured by `cmap[j]`, sized by the class, no particles placed yet. */
  function Unplaced(sets: seq<seq<Vec3>>, cmap: seq<Rgba>, j: nat): PointGroup
    requires j < |sets| && j < |cmap|
  {
    PointGroup(ObjectName(j), ToRgb(cmap[j]), |sets[j]|, [])
  }

  /** The point group made for the j-th class, its particles placed in renderer units. */
  function GroupOf(sets: seq<seq<Vec3>>, cmap: seq<Rgba>, j: nat): PointGroup
    requires j < |sets| && j < |cmap|
  {
    Unplaced(sets, cmap, j).(locations := ScaleRows(sets[j]))
  }

  /** The point groups of one frame, in class order. */
  function FrameGroups(sets: seq<seq<Vec3>>, cmap: seq<Rgba>): (g: seq<PointGroup>)
    requires |sets| <= |cmap|
    ensures |g| == |sets|
  {
    seq(|sets|, j requires 0 <= j < |sets| => GroupOf(sets, cmap, j))
  }

  /** The names of the first n classes, in class order. */
  function Names(n: nat): (names: seq<string>)
    ensures |names| == n
  {
    if n == 0 then [] else Names(n - 1) + [ObjectName(n - 1)]
  }

  /** The k-th name is the name of class k. */
  lemma {:induction false} NamesAt(n: nat)
    ensures forall k :: 0 <= k < n ==> Names(n)[k] == ObjectName(k)
  {
    if n > 0 {
      NamesAt(n - 1);
      var prior := Names(n - 1);
      assert Names(n) == prior + [ObjectName(n - 1)];
      forall k | 0 <= k < n ensures Names(n)[k] == ObjectName(k) {
        if k < n - 1 {
          assert Names(n)[k] == prior[k];
        }
      }
    }
  }

  /** The groups of the first n classes as the first loop leaves them. */
  function UnplacedGroups(sets: seq<seq<Vec3>>, cmap: seq<Rgba>, n: nat): (g: seq<PointGroup>)
    requires n <= |sets| && n <= |cmap|
    ensures |g| == n
  {
    if n == 0 then [] else UnplacedGroups(sets, cmap, n - 1) + [Unplaced(sets, cmap, n - 1)]
  }

  /** The k-th group the first loop adds is the unplaced group of class k. */
  lemma {:induction false} UnplacedGroupsAt(sets: seq<seq<Vec3>>, cmap: seq<Rgba>, n: nat)
    requires n <= |sets| && n <= |cmap|
    ensures forall k :: 0 <= k < n ==> UnplacedGroups(sets, cmap, n)[k] == Unplaced(sets, cmap, k)
  {
    if n > 0 {
      UnplacedGroupsAt(sets, cmap, n - 1);
      var prior := UnplacedGroups(sets, cmap, n - 1);
      assert UnplacedGroups(sets, cmap, n) == prior + [Unplaced(sets, cmap, n - 1)];
      forall k | 0 <= k < n ensures UnplacedGroups(sets, cmap, n)[k] == Unplaced(sets, cmap, k) {
        if k < n - 1 {
          assert UnplacedGroups(sets, cmap, n)[k] == prior[k];
        }
      }
    }
  }

  /** The first loop of `main_properties`: one named, coloured group per
      class with its particle count, and the list of the names. */
  method AddNamedGroups(sets: seq<seq<Vec3>>, cmap: seq<Rgba>) returns (objList: seq<string>, added: seq<PointGroup>)
    requires |sets| <= |cmap|
    ensures objList == Names(|sets|)
    ensures added == UnplacedGroups(sets, cmap, |sets|)
  {
    objList := [];
    added := [];
    for j := 0 to |sets|
      invariant objList == Names(j)
      invariant added == UnplacedGroups(sets, cmap, j)
    {
      objList := objList + [ObjectName(j)];
      added := added + [PointGroup(ObjectName(j), ToRgb(cmap[j]), |sets[j]|, [])];
    }
  }

  /** The second loop of `main_properties`: every named group gets its
      class's particles, in renderer units. */
  method PlaceParticles(sets: seq<seq<Vec3>>, cmap: seq<Rgba>, objList: seq<string>, unplaced: seq<PointGroup>) returns (added: seq<PointGroup>)
    requires |sets| <= |cmap|
    requires objList == Names(|sets|)
    requires unplaced == UnplacedGroups(sets, cmap, |sets|)
    ensures added == FrameGroups(sets, cmap)
  {
    UnplacedGroupsAt(sets, cmap, |sets|);
    added := unplaced;
    for j := 0 to |objList|
      invariant |added| == |sets|
      invariant forall k :: 0 <= k < j ==> added[k] == GroupOf(sets, cmap, k)
      invariant forall k :: j <= k < |sets| ==> added[k] == Unplaced(sets, cmap, k)
    {
      added := added[j := added[j].(locations := ScaleRows(sets[j]))];
    }
  }

  /** The two loops of `main_properties` together: the groups of one frame. */
  method AddGroups(sets: seq<seq<Vec3>>, cmap: seq<Rgba>) returns (added: seq<PointGroup>)
    requires |sets| <= |cmap|
    ensures added == FrameGroups(sets, cmap)
  {
    var objList, unplaced := AddNamedGroups(sets, cmap);
    added := PlaceParticles(sets, cmap, objList, unplaced);
  }

  /** The locations of all groups, group by group. */
  function Locations(g: seq<PointGroup>): (l: seq<seq<Vec3>>)
    ensures |l| == |g|
  {
    seq(|g|, j requires 0 <= j < |g| => g[j].locations)
  }

  /** The groups are faithful to the classes: distinct names, a particle count
      equal to the number of locations, locations that map back to the class's
      rows, and as many locations in total as there are rows in all classes. */
  lemma FrameGroupsFaithful(sets: seq<seq<Vec3>>, cmap: seq<Rgba>)
    requires |sets| <= |cmap|
    ensures forall j1, j2 :: 0 <= j1 < j2 < |sets| ==> FrameGroups(sets, cmap)[j1].name != FrameGroups(sets, cmap)[j2].name
    ensures forall j :: 0 <= j < |sets| ==> FrameGroups(sets, cmap)[j].count == |FrameGroups(sets, cmap)[j].locations| == |sets[j]|
    ensures forall j :: 0 <= j < |sets| ==>
              forall k :: 0 <= k < |sets[j]| ==> FromRenderSpace(FrameGroups(sets, cmap)[j].locations[k]) == sets[j][k]
    ensures SumLengths(Locations(FrameGroups(sets, cmap))) == SumLengths(sets)
  {
    var g := FrameGroups(sets, cmap);
    forall j1, j2 | 0 <= j1 < j2 < |sets| ensures g[j1].name != g[j2].name {
      ZeroPadInjective(j1, j2, 4);
    }
    forall j | 0 <= j < |sets| ensures forall k :: 0 <= k < |sets[j]| ==> FromRenderSpace(g[j].locations[k]) == sets[j][k] {
      ScaleRowsRoundTrip(sets[j]);
    }
    SumLengthsSameShape(Locations(g), sets);
  }

  // ---------------------------------------------------------------------------
  // The visualisation

  /** One more element after a sequence that extends a prefix extends the prefix by one more. */
  lemma AppendOne<T>(prefix: seq<T>, r: seq<T>, before: seq<T>, c: T, after: seq<T>, r2: seq<T>)
    requires before == prefix + r && after == before + [c] && r2 == r + [c]
    ensures after == prefix + r2
  {
  }

  class Visualization {
    /** `positions[p][i]`: particle p's position in frame i. */
    const positions: seq<seq<Vec3>>
    /** `variable[p][i]`: particle p's scalar value in frame i. */
    const variable: seq<seq<real>>
    const frames: nat
    const colorBins: nat
    const cmap: seq<Rgba>
    const cut: bool
    const log10: real -> real

    /** The point groups present in the scene. */
    var scene: seq<PointGroup>
    /** The scene's current frame number. */
    var frameCurrent: int
    /** The stills written so far, in order. */
    var captures: seq<Capture>
    /** The scene each frame contributes when it is rendered. It is fixed by
        the data at construction and only names `FrameScene(i)`, so that a
        proof about many frames need not unfold the binning of each. */
    ghost var scenes: seq<seq<PointGroup>>

    ghost predicate Valid() {
      |positions| == |variable| &&
      (forall p :: 0 <= p < |positions| ==> |positions[p]| == frames && |variable[p]| == frames) &&
      |cmap| == colorBins && StrictlyIncreasing(log10)
    }

    /** `__init__`: keeps the data and samples `colorBins` colours. */
    constructor (positions: seq<seq<Vec3>>, variable: seq<seq<real>>, frames: nat, colorBins: nat,
                 colorMap: real -> Rgba, cut: bool, log10: real -> real, startFrame: int)
      requires |positions| == |variable|
      requires forall p :: 0 <= p < |positions| ==> |positions[p]| == frames && |variable[p]| == frames
      requires StrictlyIncreasing(log10)
      ensures Valid()
      ensures this.positions == positions && this.variable == variable && this.frames == frames
      ensures this.colorBins == colorBins && this.cut == cut && this.log10 == log10
      ensures cmap == Colormap(colorMap, colorBins)
      ensures scene == [] && captures == [] && frameCurrent == startFrame
      ensures ScenesFixed()
    {
      this.positions := positions;
      this.variable := variable;
      this.frames := frames;
      this.colorBins := colorBins;
      this.cmap := Colormap(colorMap, colorBins);
      this.cut := cut;
      this.log10 := log10;
      scene := [];
      frameCurrent := startFrame;
      captures := [];
      new;
      scenes := seq(frames, i requires 0 <= i < frames => if Renderable(i) then FrameScene(i) else []);
    }

    /** The rows and values of frame i, after the optional cut. */
    function FrameData(i: nat): (f: (seq<Vec3>, seq<real>))
      requires Valid() && i < frames
      ensures |f.0| == |f.1|
    {
      var data := Column(positions, i);
      var temp := Column(variable, i);
      if cut then CutFrame(data, temp) else (data, temp)
    }

    /** Frame i can be binned: it has rows left and there is at least one bin. */
    ghost predicate Renderable(i: nat)
      requires Valid() && i < frames
    {
      |FrameData(i).0| > 0 && colorBins > 0
    }

    /** The colour classes of frame i. `bin_data` normalises with the temperature
        preset whatever the scalar file holds. */
    function FrameSets(i: nat): (sets: seq<seq<Vec3>>)
      requires Valid() && i < frames && Renderable(i)
      ensures 1 <= |sets| <= colorBins
    {
      FrameClasses(FrameData(i).0, FrameData(i).1, TemperaturePreset, colorBins, log10)
    }

    /** What frame i contributes to a scene, class by class. */
    function FrameScene(i: nat): seq<PointGroup>
      requires Valid() && i < frames && Renderable(i)
    {
      FrameGroups(FrameSets(i), cmap)
    }

    /** `scenes` holds the scene of every frame that can be rendered. */
    ghost predicate ScenesFixed()
      requires Valid()
      reads this`scenes
    {
      |scenes| == frames &&
      forall i {:trigger FrameScene(i)} :: 0 <= i < frames && Renderable(i) ==> scenes[i] == FrameScene(i)
    }

    /** A rendered frame accounts for every particle kept by the cut, in at
        most `colorBins` groups, every group non-empty and coloured by the
        colour-map sample of its position. */
    lemma FrameSceneAccounts(i: nat)
      requires Valid() && i < frames && Renderable(i)
      ensures 1 <= |FrameScene(i)| <= colorBins
      ensures forall j :: 0 <= j < |FrameScene(i)| ==> FrameScene(i)[j].count > 0 && FrameScene(i)[j].colour == ToRgb(cmap[j])
      ensures SumLengths(Locations(FrameScene(i))) == |FrameData(i).0|
    {
      var data, sets := FrameData(i), FrameSets(i);
      var g := FrameScene(i);
      assert g == FrameGroups(sets, cmap);
      FrameClassesPartition(data.0, data.1, TemperaturePreset, colorBins, log10);
      FrameGroupsFaithful(sets, cmap);
      forall j | 0 <= j < |g| ensures g[j].count > 0 && g[j].colour == ToRgb(cmap[j]) {
        assert g[j] == GroupOf(sets, cmap, j);
      }
    }

    /** `main_properties(i)`: bins frame i, adds one group per class, places
        its particles, moves to frame i + 2, writes the still and clears the
        scene. Binning an empty frame or into zero bins fails; nothing changes then. */
    method MainProperties(i: nat) returns (ok: bool)
      requires Valid() && ScenesFixed() && i < frames
      modifies this
      ensures scenes == old(scenes)
      ensures ok <==> Renderable(i)
      ensures ok ==> captures == old(captures) + [CaptureOf(i, old(scene))]
      ensures ok && old(scene) == [] ==> captures == old(captures) + [CaptureOf(i, [])]
      ensures ok ==> frameCurrent == i + 2 && scene == []
      ensures !ok ==> captures == old(captures) && frameCurrent == old(frameCurrent) && scene == old(scene)
    {
      var frame := FrameData(i);
      var data, temp := frame.0, frame.1;
      if |data| == 0 || colorBins == 0 {
        return false;
      }
      var sets := BinData(data, temp, TemperaturePreset, colorBins, log10);
      frameCurrent := i + 1;
      var base := scene;
      var added := AddGroups(sets, cmap);
      scene := base + added;
      frameCurrent := i + 2;
      SceneOfFrame(i, sets);
      assert Capture(FrameFile(i), frameCurrent, scene) == CaptureOf(i, base);
      captures := captures + [Capture(FrameFile(i), frameCurrent, scene)];
      scene := [];
      ok := true;
    }

    /** The groups built from the classes `bin_data` returns for frame i are the frame's recorded scene. */
    lemma SceneOfFrame(i: nat, sets: seq<seq<Vec3>>)
      requires Valid() && ScenesFixed() && i < frames && Renderable(i)
      requires sets == FrameClasses(FrameData(i).0, FrameData(i).1, TemperaturePreset, colorBins, log10)
      ensures |sets| <= |cmap|
      ensures FrameGroups(sets, cmap) == scenes[i]
    {
      assert FrameScene(i) == scenes[i];
    }

    /** The still of frame i, over a scene that already held `prior`. */
    ghost function CaptureOf(i: nat, prior: seq<PointGroup>): Capture
      requires i < |scenes|
      reads this`scenes
    {
      Capture(FrameFile(i), i + 2, prior + scenes[i])
    }

    /** Frames 0..n-1 can all be binned. */
    ghost predicate RenderableUpTo(n: nat)
      requires Valid() && n <= frames
    {
      n == 0 || (RenderableUpTo(n - 1) && Renderable(n - 1))
    }

    /** The stills of frames 0..n-1. */
    ghost function RenderedCaptures(n: nat): seq<Capture>
      requires n <= |scenes|
      reads this`scenes
    {
      if n == 0 then [] else RenderedCaptures(n - 1) + [CaptureOf(n - 1, [])]
    }

    /** `render()`: clears the scene, then renders every frame in order,
        stopping at the first frame that cannot be binned. */
    method Render() returns (rendered: nat)
      requires Valid() && ScenesFixed()
      modifies this
      ensures scenes == old(scenes)
      ensures rendered <= frames
      ensures RenderableUpTo(rendered)
      ensures rendered < frames ==> !Renderable(rendered)
      ensures captures == old(captures) + RenderedCaptures(rendered)
      ensures scene == []
      ensures rendered > 0 ==> frameCurrent == rendered + 1
      ensures rendered == 0 ==> frameCurrent == old(frameCurrent)
    {
      scene := [];
      rendered := 0;
      while rendered < frames
        invariant scenes == old(scenes)
        invariant rendered <= frames
        invariant RenderableUpTo(rendered)
        invariant captures == old(captures) + RenderedCaptures(rendered)
        invariant scene == []
        invariant rendered > 0 ==> frameCurrent == rendered + 1
        invariant rendered == 0 ==> frameCurrent == old(frameCurrent)
      {
        ghost var before := captures;
        var ok := MainProperties(rendered);
        if !ok {
          return;
        }
        AppendOne(old(captures), RenderedCaptures(rendered), before, CaptureOf(rendered, []), captures, RenderedCaptures(rendered + 1));
        rendered := rendered + 1;
      }
    }
  }
}
