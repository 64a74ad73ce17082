# givis: frame colour classing, in Dafny

givis renders a particle simulation frame by frame. A simulation holds, for every
particle and every frame, a position and a scalar field: temperature or pressure.
For each frame the tool does four things:

- optionally keeps only the particles below the plane z = 0;
- normalises the scalar field on a clamped log scale;
- cuts the normalised values into `color_bins` equal-width histogram bins;
- turns every occupied bin into one point group of the scene. A group is named
  by its list position, coloured by the colour map's sample for that position,
  and placed at the particles' positions divided by 7.5e7.

A second script (`pcv.py`) draws every particle of a frame as a point cloud,
coloured by a differently clamped normalisation.

This project models that pipeline and proves what it promises. The modules are:

- `Particles` holds positions, colours and the 7.5e7 length scale.
- `Normalization` holds the clamped log normalisation. There is one
  configuration type with the three presets the code uses. The method
  `LogNormalize` keeps the code's copy and its masked in-place writes, and is
  proved against the function `Normalized`.
- `Binning` holds `bin_data`:
  - histogram edges over the frame's range, including numpy's ±0.5 widening
    when all values are equal;
  - digitising as an edge-counting loop;
  - the in-place fold of the top index;
  - the loop that groups rows per distinct index.

  It also holds the lemmas that the result partitions the frame into at most
  `color_bins` non-empty, ordered classes.
- `Text` holds the string operations the code relies on: `lower`, `str(n)`,
  `zfill` and `split`.
- `Cli` holds the validators `split_res` and `is_variable`, and the rule that
  picks the scalar file's suffix.
- `Givis` holds:
  - the colour-map samples and the spatial cut;
  - the point groups of a frame;
  - the class `Visualization`. Its `MainProperties` and `Render` change an
    abstract scene: the groups present, the current frame number, and the list
    of stills written.
- `PointCloud` holds the per-frame loop of `pcv.py`, recorded as the list of
  draw calls it makes.

Values are exact reals. The base-10 logarithm is a parameter, and every member
asks only that it be strictly increasing. The colour map is also a parameter.

Two behaviours of the code the model keeps as written:

- **Empty frame.** A frame left empty by the cut cannot be binned:
  `dig.max()` (givis/givis.py:124) raises on an empty array, so
  `main_properties` fails and `render` stops. `MainProperties` reports the
  failure and changes nothing. `Render` stops at that frame and returns how many
  frames it rendered.
- **Pressure normalisation.** `bin_data` always calls the temperature
  normalisation (givis/givis.py:120), although `log_normalize_P`
  (givis/givis.py:89-102) exists for pressure data. The class `Visualization`
  uses the temperature preset for every frame, as the code does. The corrected
  choice, `PresetFor`, and what it gains are proved separately (see Findings).

## Model

| member | source | states |
|---|---|---|
| `Particles.ScaleRows` | givis/givis.py:227 | `s[:, :3] / 7.5e7` keeps the row count and the order; row k becomes row k divided by the length scale |
| `Particles.ScaleRowsRoundTrip` | givis/givis.py:235 | multiplying any rendered location by 7.5e7 gives back the simulation row it came from, so the scaling loses nothing |
| `Normalization.Clamp` | givis/givis.py:62-63 | after the two masked writes the value lies in [T_min, T_max]; a value already inside keeps its converted value; one at or below T_min becomes T_min; one at or above T_max becomes T_max |
| `Normalization.ClampIdempotent` | givis/givis.py:97-99 | clamping an already clamped value changes nothing, nor does its log scale |
| `Normalization.ClampMonotone` | givis/givis.py:98-99 | the clamp keeps the order of its inputs |
| `Normalization.LogScaleBounds` | givis/givis.py:64-65 | on [T_min, T_max] the log scale lies in [0, 1]; it is exactly 0 at T_min and exactly 1 at T_max |
| `Normalization.LogScaleMonotone` | givis/givis.py:64-65 | on the clamped range, a larger clamped value never gets a smaller log scale |
| `Normalization.LogScaleStrictlyMonotone` | givis/givis.py:64-65 | on the clamped range, a strictly larger clamped value gets a strictly larger log scale |
| `Normalization.Normalized` | givis/givis.py:89-102 | for 0 < T_min < T_max and a positive unit, every output is in [0, 1]; exactly 0 when the converted input is at or below T_min; exactly 1 when it is at or above T_max |
| `Normalization.NormalizedMonotone` | givis/givis.py:61-65 | for a strictly increasing log10, the normalisation is monotone non-decreasing in the raw input |
| `Normalization.NormalizedReflectsOrder` | givis/givis.py:61-66 | a strictly smaller normalised value comes from a strictly smaller raw value |
| `Normalization.NormalizedStrictInRange` | givis/givis.py:64-66 | inside the clamp range, a larger converted value gives a strictly larger normalised value |
| `Normalization.NormalizedSeq` | givis/givis.py:120 | the normalised frame has the input's length and is normalised element by element |
| `Normalization.LogNormalize` | givis/givis.py:53-66 | copy, convert, cap above in place, raise below in place, log-scale; the result has the input's length, lies in [0, 1], and is element by element the normalised input (the same method with its preset models `log_normalize_P`, givis/givis.py:89-102, and pcv.py's `log_normalize`); the input is a value and cannot change |
| `Normalization.CopyConverted` | givis/givis.py:61 | `np.copy(temp) * unit` yields a new array of the input's length whose entry k is input k times the unit |
| `Normalization.CapAboveInPlace` | givis/givis.py:62 | the masked write lowers exactly the entries above T_max to T_max and leaves all others as they were |
| `Normalization.RaiseBelowInPlace` | givis/givis.py:63 | the masked write raises exactly the entries below T_min to T_min and leaves all others as they were |
| `Normalization.LogScaleAll` | givis/givis.py:64-65 | yields one value per array entry: that entry's offset from log10(T_min), divided by the log range |
| `Normalization.PresetsValid` | givis/givis.py:53 | the presets (100, 6000, ×11604), (1e8, 5e12, ×1) and (1300, 1e4, ×11604) all satisfy 0 < T_min < T_max and a positive unit |
| `Binning.MinOf` | givis/givis.py:121 | the lower end of the histogram range is a value of the frame and at most every value |
| `Binning.MaxOf` | givis/givis.py:121 | the upper end of the histogram range is a value of the frame and at least every value |
| `Binning.MaxIndex` | givis/givis.py:124 | `dig.max()` is one of the indices and at least every index |
| `Binning.EvenEdges` | givis/givis.py:121 | `bins + 1` evenly spaced edges; the first is the range start and the last is exactly the range end |
| `Binning.Edges` | givis/givis.py:121 | the frame's edges start at its minimum and end at its maximum, widened by 0.5 each way when they are equal |
| `Binning.EvenEdgesIncreasing` | givis/givis.py:121 | evenly spaced edges over a non-empty range ascend strictly |
| `Binning.EdgesIncreasing` | givis/givis.py:121 | the frame's edges ascend strictly, whatever the values, because of the widening |
| `Binning.EdgesSpanFrame` | givis/givis.py:121 | when min < max, the edges run from the frame minimum to the frame maximum, no edge exceeds the maximum, and every value lies between the two ends |
| `Binning.CountAtMost` | givis/givis.py:123 | the number of edges at or below a value never exceeds the number of edges |
| `Binning.CountAtMostAll` | givis/givis.py:123 | every edge is counted if and only if every edge lies at or below the value |
| `Binning.CountAtMostPositive` | givis/givis.py:123 | a value at or above some edge gets a count of at least one |
| `Binning.CountAtMostMonotone` | givis/givis.py:123 | a larger value is never given a smaller count |
| `Binning.CountAtMostFirst` | givis/givis.py:123 | against strictly ascending edges the first edge gets count one, so index 0 |
| `Binning.CountEdgesAtMost` | givis/givis.py:123 | the counting loop for one value computes the count of edges at or below it |
| `Binning.Digitize` | givis/givis.py:123 | `np.digitize(x, edges) - 1` yields a new array whose entry i is the edge count of value i minus one |
| `Binning.DigitizeRange` | givis/givis.py:123 | against edges ending at the maximum, a value in range gets an index in 0..B, and B exactly when it equals the maximum |
| `Binning.DigitizeAllRange` | givis/givis.py:123 | the same for a whole frame: every index lies in 0..B, and it is B exactly for the values equal to the maximum |
| `Binning.FoldTopMonotone` | givis/givis.py:124 | lowering the top index by one keeps the order of indices |
| `Binning.FoldMax` | givis/givis.py:124 | the in-place update finds the largest index and lowers every copy of it by one; the new array is the fold of the old one |
| `Binning.FoldedRange` | givis/givis.py:124 | indices in 0..B with one equal to B fold into 0..B-1; the B ones go to B-1 and all others are unchanged |
| `Binning.BinIndices` | givis/givis.py:121-124 | one folded bin index per particle |
| `Binning.BinIndicesRange` | givis/givis.py:121-124 | when min < max, every folded index lies in 0..B-1; particles holding the frame maximum land in B-1, not B |
| `Binning.BinIndicesMinimum` | givis/givis.py:121-124 | when min < max, particles holding the frame minimum land in bin 0 |
| `Binning.BinIndicesConstant` | givis/givis.py:121-124 | when all values are equal, every particle gets the same index |
| `Binning.BinIndicesMonotone` | givis/givis.py:123-124 | a particle with a larger normalised value never gets a smaller index |
| `Binning.ClassesSeparateExtremes` | givis/givis.py:121-127 | with at least two bins and min < max, there are at least two classes |
| `Binning.Select` | givis/givis.py:128 | `np.where(d == dig)[0]` holds exactly the positions whose index is d, ascending |
| `Binning.Insert` | givis/givis.py:127 | adding an index to an ascending, repeat-free list keeps it so and adds exactly that index |
| `Binning.SortedUnique` | givis/givis.py:127 | `np.sort(np.unique(dig))` ascends strictly and holds exactly the indices that occur |
| `Binning.Groups` | givis/givis.py:127-128 | one position list per distinct index, in ascending index order |
| `Binning.Gather` | givis/givis.py:128 | `pos[idx, :]` takes the rows at the listed positions, in that order |
| `Binning.GroupedRows` | givis/givis.py:128 | the rows of each group, one list per group |
| `Binning.GroupRows` | givis/givis.py:125-128 | the appending loop builds exactly the grouped rows |
| `Binning.GroupsCover` | givis/givis.py:127-128 | every particle lies in the group of its own index |
| `Binning.GroupsDisjointAscending` | givis/givis.py:127-128 | groups are disjoint; a particle of an earlier group has a strictly smaller index than one of a later group |
| `Binning.GroupsNonEmptyOrdered` | givis/givis.py:127-128 | every group is non-empty and keeps the particles' original relative order |
| `Binning.GroupsSizesSum` | givis/givis.py:125-128 | the group sizes sum to the number of particles |
| `Binning.GroupsConstant` | givis/givis.py:127 | a frame whose particles all share one index forms exactly one group |
| `Binning.ClassCountBound` | givis/givis.py:121-128 | a non-empty frame has at least one and at most B classes |
| `Binning.FrameClasses` | givis/givis.py:104-130 | the classes of a non-empty frame: between 1 and B of them, each non-empty |
| `Binning.BinData` | givis/givis.py:120-128 | normalise, edges, digitise, fold in place, group: the result is the frame's classes; there are 1..B of them and their sizes sum to the particle count |
| `Binning.FrameClassesPartition` | givis/givis.py:123-128 | the class sizes sum to the number of particles in the frame, so no particle is lost or duplicated in size |
| `Binning.FrameClassesOrdered` | givis/givis.py:120-128 | every particle of an earlier class has a strictly smaller raw value than every particle of a later class |
| `Text.Lower` | givis/givis.py:344 | `lower()` keeps the length and lower-cases character by character |
| `Text.LowerIdempotent` | givis/givis.py:352 | lower-casing twice is lower-casing once |
| `Text.LowerAppend` | givis/givis.py:352 | lower-casing a concatenation lower-cases each part in place |
| `Text.LowerDigits` | givis/givis.py:352 | lower-casing leaves a digit string unchanged |
| `Text.NatToString` | givis/givis.py:221 | `str(j)` is a non-empty digit string without a leading zero |
| `Text.NatToStringRoundTrip` | givis/givis.py:221 | reading back the digits of `str(j)` gives j |
| `Text.ZeroPad` | givis/givis.py:149 | `zfill(4)` pads on the left with zeros to at least four characters and keeps the digits at the end |
| `Text.ZeroPadRoundTrip` | givis/givis.py:221 | a zero-padded number still denotes that number |
| `Text.ZeroPadInjective` | givis/givis.py:221 | different numbers give different padded names |
| `Text.Split` | givis/givis.py:353 | `split("x")` gives one more piece than there are separators, and no piece holds one |
| `Text.SplitJoin` | givis/givis.py:353 | splitting undoes joining with the separator when no piece holds it |
| `Cli.ParseIntRoundTrip` | givis/givis.py:354 | `int(str(n)) == n` |
| `Cli.SplitRes` | givis/givis.py:350-354 | a resolution whose lower-cased text does not hold exactly one "x" fails to unpack; a success always had exactly one |
| `Cli.SplitResRoundTrip` | givis/givis.py:350-354 | "WxH" and "WXH" are both read back as (W, H) |
| `Cli.IsVariable` | givis/givis.py:342-347 | a name is accepted if and only if its lower-cased form is one of temperature, pressure, t, p; the lower-cased form is returned |
| `Cli.IsVariableIdempotent` | givis/givis.py:342-347 | `is_variable` is idempotent: applied to the name it returned, it accepts it and returns it unchanged |
| `Cli.VariableCodeOfAccepted` | givis/givis.py:417 | every accepted name picks suffix "T" or "P": "T" exactly for temperature and t, "P" exactly for pressure and p |
| `Givis.PresetFor` | givis/givis.py:120 | the corrected normalisation choice is valid; it is the pressure preset exactly for suffix "P" |
| `Givis.PressureCollapsesUnderTemperaturePreset` | givis/givis.py:120 | as written, a pressure frame whose values are all at least 1e8 forms a single colour class for any bin count |
| `Givis.PressurePresetSeparates` | givis/givis.py:89-102 | under the corrected choice, two different in-range pressures keep their strict order after normalisation |
| `Givis.PressurePresetKeepsContrast` | givis/givis.py:104-128 | under the corrected choice, a frame holding two different in-range pressures forms at least two classes when B ≥ 2 |
| `Givis.Linspace01` | givis/givis.py:49 | `np.linspace(0, 1, B)` has B samples |
| `Givis.LinspaceSamples` | givis/givis.py:49 | the samples start at 0, end at 1, ascend strictly and lie in [0, 1] |
| `Givis.Colormap` | givis/givis.py:49 | `cmap` has exactly `color_bins` colours; colour k is the map at sample k |
| `Givis.Column` | givis/givis.py:207-208 | `a[:, i]` takes entry i of every particle, in particle order |
| `Givis.KeptRows` | givis/givis.py:211 | the mask keeps exactly the rows with z < 0, in ascending order |
| `Givis.CutFrame` | givis/givis.py:210-213 | positions and values are filtered by the same mask, so both keep the same length |
| `Givis.CutFrameKeepsLowerHalf` | givis/givis.py:210-213 | every kept row has z < 0; every row with z < 0 is kept; each kept position is paired with its own value, in the original order |
| `Givis.FrameGroups` | givis/givis.py:220-227 | one point group per class, in class order |
| `Givis.Names` | givis/givis.py:216-222 | the names list of the first n classes has n entries |
| `Givis.NamesAt` | givis/givis.py:220-222 | entry k of the names list is `str(k).zfill(4)` |
| `Givis.UnplacedGroups` | givis/givis.py:220-227 | the first loop's groups for the first n classes: n of them |
| `Givis.UnplacedGroupsAt` | givis/givis.py:220-227 | group k after the first loop is named `str(k).zfill(4)`, coloured `cmap[k]` without alpha, sized by class k, with no particles placed |
| `Givis.AddNamedGroups` | givis/givis.py:216-227 | the first loop builds the names list of all classes and one unplaced group per class, in class order |
| `Givis.PlaceParticles` | givis/givis.py:231-235 | the second loop, from the first loop's groups, places every class's rows in renderer units, giving exactly the frame's groups |
| `Givis.Visualization.SceneOfFrame` | givis/givis.py:215-227 | the groups built from the classes `bin_data` returns for a renderable frame are that frame's recorded scene, and the colour lookup is in bounds |
| `Givis.AddGroups` | givis/givis.py:220-235 | the two loops (add every group with its name, colour and count, then place its particles) build exactly the frame's groups |
| `Givis.FrameGroupsFaithful` | givis/givis.py:220-235 | group names are distinct; each group's count equals its number of locations and its class's size; every location maps back to its class row; locations total the rows of all classes |
| `Givis.Visualization.constructor` | givis/givis.py:27-51 | keeps the data; samples `color_bins` colours; starts with an empty scene and no stills; records, for the proofs, the scene every renderable frame produces |
| `Givis.Visualization.FrameData` | givis/givis.py:207-213 | frame i's positions and values, cut when asked, have the same length |
| `Givis.Visualization.FrameSets` | givis/givis.py:215 | a frame that can be binned has between 1 and `color_bins` classes |
| `Givis.Visualization.FrameSceneAccounts` | givis/givis.py:215-227 | a rendered frame has 1..`color_bins` non-empty groups; group j has colour `cmap[j]` without alpha, so the lookup is in bounds; the locations total the particles kept by the cut |
| `Givis.Visualization.MainProperties` | givis/givis.py:205-239 | succeeds exactly when the frame is non-empty and there is a bin. Then it appends one still named `iiii.png`, at frame i + 2, showing the frame's groups, and leaves the scene empty. Otherwise nothing changes |
| `Givis.Visualization.Render` | givis/givis.py:241-247 | clears the scene, then renders frames in order, stopping at the first that cannot be binned; the stills written are exactly those of the frames rendered; when no frame renders, the frame number is unchanged |
| `PointCloud.Colours` | givis/pcv.py:76 | one colour per normalised value, alpha dropped, particle order kept |
| `PointCloud.RenderFrames` | givis/pcv.py:74-79 | one draw per frame, in frame order, at consecutive frame numbers; in draw i, row p is particle p's position divided by 7.5e7, and its colour comes from particle p's own normalised temperature in frame i |
| `PointCloud.PointCloudNormalizationRange` | givis/pcv.py:13-26 | the point-cloud preset is valid; its output lies in [0, 1]; it is exactly 0 at or below 1300 K after conversion and exactly 1 at or above 1e4 K |

## Left out

- Blender scene manipulation has no visible semantics here. This covers `set_render_settings`, `add_particle_system`, `set_particle_settings`, `set_material_settings` (halo size, hardness, material slots), `clear_scene`, `render_frame` and `set_filename`. They appear only as the abstract scene, frame number and list of stills. The intermediate `frame_set(i + 1)` is not recorded.
- Blender's starting frame number is a constructor parameter.
- The output directory joined in front of a still's file name is not modelled. A still records only the file name.
- `Colorbar` builds a matplotlib figure and composites it with PIL, so it is left out.
- `is_path`, `make_path`, `find_var`, `set_output`, the module-level argparse setup and `np.load` are file-system and start-up glue.
- `setup.py` and `convert_images.py` are not part of this model.
- `pcv.main(i)` refers to a draw controller that exists only inside the `__main__` block, so it is left out.
- pcv.py's render settings and its save and remove of the blend file are I/O.
- `bin_data` also returns the indices of occupied histogram bins. Its only caller discards them, so they are not modelled.
- `Cli.IsVariable`: a rejected name becomes an `InvalidVariable` error. The code's error branch refers to an undefined name and so raises `NameError` instead of `ArgumentTypeError`. Either way the argument is refused.
- `Cli.SplitRes`: `int()` is modelled for an optional sign followed by ASCII digits. Surrounding whitespace, underscores and non-ASCII digits, which Python also accepts, are not modelled.
- Floating point is not modelled. Values are exact reals, `np.log10` is any strictly increasing function, and `np.linspace` is evaluated exactly. numpy's extra handling of the last histogram edge by rounding is not modelled.
- The colour map (`plt.cm.inferno`) is an opaque function parameter. Only its argument, the sample points, is modelled.
- Positions have exactly three coordinates. The `[:, :3]` projection of wider arrays is not modelled.
- `Text.Lower`: only ASCII capitals are lowered. Python's `lower()` also maps other Unicode capitals, and can lengthen a string (for example 'İ'). No such capital lowers to a letter of an accepted name or to 'x', so `is_variable` and `split_res` accept the same arguments either way; only the text of a refused argument can differ.
- `Givis.Visualization.constructor`: `color_bins` is a natural number. A negative `--bins`, for which `np.linspace` raises in `__init__` (givis/givis.py:49), is not modelled.
- The ghost field `scenes` of `Visualization` is a proof device. It records what every renderable frame contributes to the scene and has no counterpart in the code.
- Multiprocessing, core count and output resolution are parsed but do not affect the modelled pipeline.

## Findings

| source | as written | input that shows it | evidently intended | confidence | as-written member | corrected member |
|---|---|---|---|---|---|---|
| givis/givis.py:120 | `bin_data` always normalises with the temperature method (×11604, clamp to [100, 6000]), even when the scalar file holds pressure, so every pressure of 1e8 or more normalises to 1.0; `log_normalize_P` is never called | a pressure frame with values [1e8, 5e12] and any bin count gives one class | pressure normalised with `log_normalize_P` (no conversion, clamp to [1e8, 5e12]), which keeps the two values in different classes when there are at least two bins | high; not executed | `Givis.PressureCollapsesUnderTemperaturePreset` | `Givis.PressurePresetKeepsContrast` |
