# glTF exporter: animation key gathering and tangent generation

This project models two pieces of the Blender glTF 2.0 exporter in Dafny and
proves properties of them.

- **Animation sampling** (`gltf2_animate.py`):
  - the interpolation classifier `animate_get_interpolation`;
  - the key gatherer `animate_gather_keys`, which builds either a unit-step
    frame grid or the sorted, de-duplicated union of keyframe times;
  - the time base conversion `animate_convert_keys`;
  - the two rotation converters;
  - the five samplers `animate_location`, `animate_rotation_axis_angle`,
    `animate_rotation_euler`, `animate_rotation_quaternion` and
    `animate_scale`. Each builds a dictionary from time to value, evaluating
    curves for plain objects and stepping the scene frame and decomposing the
    joint matrix for joints.
- **Tangent generation** (`gltf2_calculate.py`, `calculate_tangent`):
  - per-triangle tangents from positions and UVs, with degenerate triangles
    skipped;
  - accumulation into a dictionary keyed by position offset `3 * t`;
  - the all-or-nothing count check;
  - the flat output of four numbers per vertex, with `w = 1.0` and the
    fallback `(n.z, n.x, n.y)`.

Files:

- `wrappers.dfy`: `Option`.
- `animate.dfy`, module `Animate`: the classifier, key gathering and time conversion.
- `animate_sample.dfy`, module `AnimateSample`: the samplers, with a `Scene` class for the host's current-frame cursor.
- `calculate.dfy`, module `Calculate`: tangents. A `Vector` class models `mathutils.Vector`, which is updated in place. For the specification, an explicit heap of vector values (`Accum`) shows which dictionary keys share one vector object.

Each step-by-step routine of the source is a method with loops and invariants. Each method is proved equal to a specification function, and the properties are proved about those functions:

- `ScanInterpolation` computes `Classify`.
- `GatherKeys` computes `GatheredKeys`.
- The `*Track` and `Animate*` methods build the dictionary that `IsTrack` describes. They write it in key order (`Track`), so its insertion order is ascending time when `fps > 0`.
- `CalculateTangent` computes `TangentsAsWritten`.

Where the code and its design description disagree, the model follows the code:

- The classifier starts from `'CONVERSION_NEEDED'`, so it always answers `CONVERSION_NEEDED` (Finding 1). The intended classify-by-first-keyframe behaviour is modelled alongside it.
- The tangent dictionary shares vector objects between vertices (Finding 2). The intended per-vertex sums are modelled alongside it.
- The fallback tangent `(n.z, n.x, n.y)` is written as is, not normalised.
- The quaternion sampler passes its `(w, x, y, z)` channel list to the swizzle unchanged. It reorders to `(x, y, z, w)` only afterwards.
- Malformed geometry, such as an index outside the position list, raises in the code. The model makes it a precondition (`Addressable`, `Runs`) rather than a distinct error value.
- The axis-angle default is `[1.0, 0.0, 0.0, 0.0]`: angle 1.0 about the axis (0, 0, 0). The design description gives the angle a default of 0. The model keeps the code's list (`AxisAngleDefault`).
- The frame rate is only divided by, so the model requires `fps != 0`. Strict increase of the times is proved for `fps > 0`.

## Model

| member | source | states |
|---|---|---|
| Animate.GetInterpolation | scripts/addons/io_scene_gltf2/gltf2_animate.py:34-61 | As written, the answer is CONVERSION_NEEDED for every list of curves: no curve, only absent curves, curves without keyframes, and uniform curves alike. |
| Animate.ScanInterpolation | scripts/addons/io_scene_gltf2/gltf2_animate.py:37-61 | The curve loop, started from any mode, skips absent curves, scans the present curves' keyframes in order, stops at the first early return, and yields `Classify(initial, curves)`. |
| Animate.ScanKeyframes | scripts/addons/io_scene_gltf2/gltf2_animate.py:41-59 | The keyframe loop of one curve stops exactly when the scan returns CONVERSION_NEEDED on those keyframes. Otherwise it hands on the mode the scan reached. |
| Animate.KeyframeStep | scripts/addons/io_scene_gltf2/gltf2_animate.py:42-59 | One keyframe's branch: it returns CONVERSION_NEEDED exactly when the scan's step returns, and otherwise yields the next mode. |
| Animate.ConversionNeededAbsorbs | scripts/addons/io_scene_gltf2/gltf2_animate.py:50-59 | From CONVERSION_NEEDED, the first keyframe of any tag returns CONVERSION_NEEDED. With no keyframe the mode stays CONVERSION_NEEDED. |
| Animate.ConversionNeededIsFinal | scripts/addons/io_scene_gltf2/gltf2_animate.py:47-61 | Once a prefix of the keyframes answers CONVERSION_NEEDED, every longer scan answers CONVERSION_NEEDED. |
| Animate.AbsentCurveIgnored | scripts/addons/io_scene_gltf2/gltf2_animate.py:37-39 | Inserting an absent curve anywhere in the list never changes the classification, whatever the initial mode. |
| Animate.IntendedScan | scripts/addons/io_scene_gltf2/gltf2_animate.py:42-59 | From an initial None, the scan gives: no keyframe, None; all LINEAR, LINEAR; all CONSTANT, STEP; otherwise it returns CONVERSION_NEEDED. |
| Animate.GetInterpolationIntended | scripts/addons/io_scene_gltf2/gltf2_animate.py:34-61 | With the intended initial None, four if-and-only-if statements: None iff there is no keyframe; LINEAR iff all keyframes are LINEAR; STEP iff all are CONSTANT; CONVERSION_NEEDED iff they are mixed or of another tag. |
| Animate.UniformLinearCurveNeedsConversion | scripts/addons/io_scene_gltf2/gltf2_animate.py:35 | One curve with two LINEAR keyframes is classified CONVERSION_NEEDED as written and LINEAR as intended. |
| Animate.RangeBounds | scripts/addons/io_scene_gltf2/gltf2_animate.py:89-104 | `start` and `end` are set iff some curve is present. `start` is the least `range()[0]` of the present curves and is attained; `end` is the greatest `range()[1]` and is attained. |
| Animate.CurveBounds | scripts/addons/io_scene_gltf2/gltf2_animate.py:89-104 | The range loop computes exactly that `start` and `end`, None when no curve is present. |
| Animate.GridShape | scripts/addons/io_scene_gltf2/gltf2_animate.py:106-109 | The `while key <= end` grid has these properties: it is non-empty iff `start <= end`; it begins at `start`; successive keys differ by exactly 1.0; every key is at most `end`; the last key plus 1.0 exceeds `end`. |
| Animate.GatherGridKeys | scripts/addons/io_scene_gltf2/gltf2_animate.py:88-109 | With at least one present curve, the CONVERSION_NEEDED branch's loops produce the grid from the least start to the greatest end. |
| Animate.GatheredKeysGrid | scripts/addons/io_scene_gltf2/gltf2_animate.py:88-109 | The CONVERSION_NEEDED branch's output, stated on the curves: it is non-empty iff start <= end; it begins at the least range start; it has unit steps; every key is at most the greatest range end, and one more step would pass it. |
| Animate.Dedup | scripts/addons/io_scene_gltf2/gltf2_animate.py:115-117 | The `not in` append builds a list without duplicates whose members are exactly the times seen. |
| Animate.AddKeyframeTimes | scripts/addons/io_scene_gltf2/gltf2_animate.py:115-117 | Appending one curve's keyframe times keeps the list equal to the de-duplicated times of all keyframes seen so far. |
| Animate.GatherKeyframeTimes | scripts/addons/io_scene_gltf2/gltf2_animate.py:111-117 | The curve loop yields the de-duplicated keyframe times of the present curves, in order of first appearance. |
| Animate.SortAscending | scripts/addons/io_scene_gltf2/gltf2_animate.py:119 | `keys.sort()` yields an ascending permutation of its input. |
| Animate.SortedDistinctIsStrict | scripts/addons/io_scene_gltf2/gltf2_animate.py:116-119 | An ascending permutation of a list without duplicates is strictly increasing. |
| Animate.GatheredKeysUnion | scripts/addons/io_scene_gltf2/gltf2_animate.py:111-119 | Outside CONVERSION_NEEDED, a frame is in the output iff it is the time `co[0]` of some keyframe of some present curve. |
| Animate.StrictlyIncreasingUnique | scripts/addons/io_scene_gltf2/gltf2_animate.py:111-119 | Two strictly increasing lists with the same members are equal, so the union branch's output is fully determined by its set of times. |
| Animate.GatheredKeysStrictlyIncreasing | scripts/addons/io_scene_gltf2/gltf2_animate.py:85-121 | In both branches the frame list is strictly increasing, so it has no duplicate frame. |
| Animate.GatherKeys | scripts/addons/io_scene_gltf2/gltf2_animate.py:85-121 | `animate_gather_keys` returns the grid or the sorted union, according to the mode. The result is strictly increasing. |
| Animate.ResampledFrames | scripts/addons/io_scene_gltf2/gltf2_animate.py:106-109 | A curve over frames 0 to 2.4 is resampled at frames 0, 1 and 2. |
| Animate.MergedFrames | scripts/addons/io_scene_gltf2/gltf2_animate.py:111-119 | LINEAR curves keyed at 0, 5, 10 and at 0, 3, 10 give the frames 0, 3, 5, 10. |
| Animate.ConvertKeys | scripts/addons/io_scene_gltf2/gltf2_animate.py:76-82 | The length is kept and `times[i] == keys[i] / fps`. Distinct keys give distinct times. With `fps > 0`, strictly increasing keys give strictly increasing times. |
| AnimateSample.Scene.FrameSet | scripts/addons/io_scene_gltf2/gltf2_animate.py:136 | `frame_set(f)` makes `f` the current frame and appends it to the record of frames set. |
| AnimateSample.FillSlots | scripts/addons/io_scene_gltf2/gltf2_animate.py:142-150 | The channel loop keeps the default list's length. Slot i holds `evaluate(curve_i, frame)` when curve i is present, and its default otherwise. |
| AnimateSample.ReorderingsInverse | scripts/addons/io_scene_gltf2/gltf2_animate.py:193-196 | The reorder (x,y,z,w) to (w,x,y,z) and the reorder back are inverse permutations. |
| AnimateSample.ConvertRotationAxisAngle | scripts/addons/io_scene_gltf2/gltf2_animate.py:64-67 | Read back in (w, x, y, z) order, the result is the host quaternion of axis `(a[1], a[2], a[3])` and angle `a[0]`. |
| AnimateSample.ConvertRotationEuler | scripts/addons/io_scene_gltf2/gltf2_animate.py:70-73 | Read back in (w, x, y, z) order, the result is the host quaternion of the Euler angles in the given rotation mode. |
| AnimateSample.AxisAngleIdentitySwizzle | scripts/addons/io_scene_gltf2/gltf2_animate.py:181-196 | With an identity swizzle, a plain object's axis-angle sample is the converter's `[x, y, z, w]` unchanged. The default `[1, 0, 0, 0]` fills absent channels. |
| AnimateSample.EulerIdentitySwizzle | scripts/addons/io_scene_gltf2/gltf2_animate.py:225-240 | With an identity swizzle, a plain object's Euler sample is the converter's `[x, y, z, w]` unchanged. The default 0.0 fills absent channels. |
| AnimateSample.QuaternionIdentitySwizzle | scripts/addons/io_scene_gltf2/gltf2_animate.py:258-280 | With an identity swizzle, channels (w, x, y, z) come out as (x, y, z, w). With no channel, the sample is the identity rotation `[0, 0, 0, 1]`. |
| AnimateSample.TrackEntries | scripts/addons/io_scene_gltf2/gltf2_animate.py:131-156 | For distinct times, the `result[time] = value` loop leaves one entry per time, holding that time's value, and no other entry. |
| AnimateSample.TrackOfSamples | scripts/addons/io_scene_gltf2/gltf2_animate.py:131-156 | When every value is the sample at its key, the dictionary maps each `key / fps` to that sample and has exactly one entry per key. |
| AnimateSample.SampleLocation | scripts/addons/io_scene_gltf2/gltf2_animate.py:133-150 | A joint sets the frame once and takes the decomposition's translation. A plain object evaluates its present channels over the default 0.0 and swizzles them, leaving the frame alone. For a joint the scene is left at `frame`; otherwise its frame is unchanged. |
| AnimateSample.LocationTrack | scripts/addons/io_scene_gltf2/gltf2_animate.py:131-156 | The key loop maps `times[k]` to the location at `keys[k]`. For a joint, the frames set are exactly `keys`, in order, once each. For a joint with keys the scene ends at the last key; otherwise its frame is unchanged. |
| AnimateSample.AnimateLocation | scripts/addons/io_scene_gltf2/gltf2_animate.py:124-158 | The result is a track over the gathered keys: one entry per key, at `key / fps`, holding the location at that key. A joint sets exactly the gathered keys, in order. For a joint with keys the scene ends at the last gathered key; otherwise its frame is unchanged. The dictionary is filled in the order of the ghost `order`, which holds `key / fps` for each key in turn and is strictly increasing when `fps > 0`. |
| AnimateSample.SampleRotationAxisAngle | scripts/addons/io_scene_gltf2/gltf2_animate.py:169-196 | A joint sets the frame once and reorders the decomposed rotation to (x, y, z, w). A plain object converts its axis-angle channels over the default `[1, 0, 0, 0]`, swizzles them in (w, x, y, z) order and reorders back. For a joint the scene is left at `frame`; otherwise its frame is unchanged. |
| AnimateSample.AxisAngleTrack | scripts/addons/io_scene_gltf2/gltf2_animate.py:168-200 | The key loop maps `times[k]` to the axis-angle sample at `keys[k]`. For a joint, the frames set are exactly `keys`. For a joint with keys the scene ends at the last key; otherwise its frame is unchanged. |
| AnimateSample.AnimateRotationAxisAngle | scripts/addons/io_scene_gltf2/gltf2_animate.py:161-202 | One entry per gathered key, at `key / fps`, holding the axis-angle sample. A joint sets exactly the gathered keys. For a joint with keys the scene ends at the last gathered key; otherwise its frame is unchanged. The dictionary is filled in the order of the ghost `order`, which holds `key / fps` for each key in turn and is strictly increasing when `fps > 0`. |
| AnimateSample.SampleRotationEuler | scripts/addons/io_scene_gltf2/gltf2_animate.py:214-240 | A joint sets the frame once and reorders the decomposed rotation. A plain object converts its Euler channels, defaulting to 0.0, in the given mode, swizzles and reorders. For a joint the scene is left at `frame`; otherwise its frame is unchanged. |
| AnimateSample.EulerTrack | scripts/addons/io_scene_gltf2/gltf2_animate.py:213-244 | The key loop maps `times[k]` to the Euler sample at `keys[k]`. For a joint, the frames set are exactly `keys`. For a joint with keys the scene ends at the last key; otherwise its frame is unchanged. |
| AnimateSample.AnimateRotationEuler | scripts/addons/io_scene_gltf2/gltf2_animate.py:205-246 | One entry per gathered key, at `key / fps`, holding the Euler sample. A joint sets exactly the gathered keys. For a joint with keys the scene ends at the last gathered key; otherwise its frame is unchanged. The dictionary is filled in the order of the ghost `order`, which holds `key / fps` for each key in turn and is strictly increasing when `fps > 0`. |
| AnimateSample.SampleRotationQuaternion | scripts/addons/io_scene_gltf2/gltf2_animate.py:258-280 | A joint sets the frame once and reorders the decomposed rotation. A plain object swizzles its channels over the default `[1, 0, 0, 0]` and reorders them to (x, y, z, w). For a joint the scene is left at `frame`; otherwise its frame is unchanged. |
| AnimateSample.QuaternionTrack | scripts/addons/io_scene_gltf2/gltf2_animate.py:257-284 | The key loop maps `times[k]` to the quaternion sample at `keys[k]`. For a joint, the frames set are exactly `keys`. For a joint with keys the scene ends at the last key; otherwise its frame is unchanged. |
| AnimateSample.AnimateRotationQuaternion | scripts/addons/io_scene_gltf2/gltf2_animate.py:249-286 | One entry per gathered key, at `key / fps`, holding the quaternion sample. A joint sets exactly the gathered keys. For a joint with keys the scene ends at the last gathered key; otherwise its frame is unchanged. The dictionary is filled in the order of the ghost `order`, which holds `key / fps` for each key in turn and is strictly increasing when `fps > 0`. |
| AnimateSample.SampleScale | scripts/addons/io_scene_gltf2/gltf2_animate.py:298-317 | A joint sets the frame once and takes the decomposition's scale. A plain object evaluates its channels over the default 1.0 and swizzles them. For a joint the scene is left at `frame`; otherwise its frame is unchanged. |
| AnimateSample.ScaleTrack | scripts/addons/io_scene_gltf2/gltf2_animate.py:297-321 | The key loop maps `times[k]` to the scale at `keys[k]`. For a joint, the frames set are exactly `keys`. For a joint with keys the scene ends at the last key; otherwise its frame is unchanged. |
| AnimateSample.AnimateScale | scripts/addons/io_scene_gltf2/gltf2_animate.py:289-323 | One entry per gathered key, at `key / fps`, holding the scale sample. A joint sets exactly the gathered keys. For a joint with keys the scene ends at the last gathered key; otherwise its frame is unchanged. The dictionary is filled in the order of the ghost `order`, which holds `key / fps` for each key in turn and is strictly increasing when `fps > 0`. |
| Calculate.Vector.constructor | scripts/addons/io_scene_gltf2/gltf2_calculate.py:86 | A new vector object holds the given components. |
| Calculate.Vector.AddInPlace | scripts/addons/io_scene_gltf2/gltf2_calculate.py:92 | `+=` replaces the object's own value by the sum, in place. |
| Calculate.Vector.NormalizeInPlace | scripts/addons/io_scene_gltf2/gltf2_calculate.py:87 | `normalize()` replaces the object's own value by its normalisation, in place. |
| Calculate.NonDegenerateCornersDistinct | scripts/addons/io_scene_gltf2/gltf2_calculate.py:55-84 | A triangle with a non-zero UV determinant has three distinct corners, so it touches three distinct keys. |
| Calculate.TouchedMultiplesOfThree | scripts/addons/io_scene_gltf2/gltf2_calculate.py:59-61 | Every dictionary key is a multiple of 3 and addresses a position triple. |
| Calculate.DegenerateSkipped | scripts/addons/io_scene_gltf2/gltf2_calculate.py:81-84 | A triangle whose UV determinant is exactly 0.0 leaves the dictionary and every vector unchanged. |
| Calculate.NonDegenerateAttaches | scripts/addons/io_scene_gltf2/gltf2_calculate.py:86-102 | A non-degenerate triangle allocates one vector holding its normalised tangent. The keys grow by exactly `3*t0`, `3*t1`, `3*t2`. Every new key refers to the new vector; every old key keeps its vector. The `+=` works in place: every older vector gains the tangent once for each of the triangle's corner keys that held it, so every key sharing that vector sees the sum. |
| Calculate.AccumulateKeys | scripts/addons/io_scene_gltf2/gltf2_calculate.py:54-102 | The keys after the triangle loop are exactly `3 * t` for the corners `t` of the non-degenerate triangles. |
| Calculate.AccumulateWellFormed | scripts/addons/io_scene_gltf2/gltf2_calculate.py:52-102 | The insertion order lists every key exactly once, and every key refers to an allocated vector. |
| Calculate.FinishWrittenKeys | scripts/addons/io_scene_gltf2/gltf2_calculate.py:113-126 | After k iterations of the finishing loop, exactly the first k keys in insertion order have been written. |
| Calculate.FinishStep | scripts/addons/io_scene_gltf2/gltf2_calculate.py:113-126 | A key's written tangent is its vector normalised in place when that vector's length is non-zero. Otherwise it is the fallback `(n.z, n.x, n.y)` from the key's normal. |
| Calculate.FinishKeeps | scripts/addons/io_scene_gltf2/gltf2_calculate.py:113-126 | Finishing another key never changes a key already written. |
| Calculate.Layout | scripts/addons/io_scene_gltf2/gltf2_calculate.py:111 | The output list has four numbers per dictionary key. |
| Calculate.LayoutWrite | scripts/addons/io_scene_gltf2/gltf2_calculate.py:121-126 | Writing key vi changes exactly slots `(vi // 3) * 4` to `+ 3`, to x, y, z and 1.0. |
| Calculate.Coverage | scripts/addons/io_scene_gltf2/gltf2_calculate.py:106-111 | n keys that are multiples of 3 and each address one of n normal triples are exactly 0, 3, ..., 3(n-1). So when the count check passes, every output slot is written. |
| Calculate.AsWrittenShaped | scripts/addons/io_scene_gltf2/gltf2_calculate.py:31-128 | The result is None for a missing primitive or texcoord attribute. Otherwise there is a result iff 3 times the number of keys equals the normal count (all or nothing). A result has length 4 × keys, which is 4 × len(normal) / 3, and `w = 1.0` in every fourth slot. |
| Calculate.IntendedShaped | scripts/addons/io_scene_gltf2/gltf2_calculate.py:31-128 | The same shape guarantees for the intended per-vertex sums. |
| Calculate.DegenerateMeshHasNoTangents | scripts/addons/io_scene_gltf2/gltf2_calculate.py:81-107 | A mesh whose triangles all have UV determinant 0 and which has a normal yields None, as written and as intended. |
| Calculate.AccumulateIntendedKeys | scripts/addons/io_scene_gltf2/gltf2_calculate.py:54-102 | With per-vertex sums, the keys are the same touched corners. |
| Calculate.AccumulateIntendedSums | scripts/addons/io_scene_gltf2/gltf2_calculate.py:86-102 | With per-vertex sums, each key's vector is the sum of the normalised tangents of exactly the non-degenerate triangles at that vertex. |
| Calculate.IntendedVertices | scripts/addons/io_scene_gltf2/gltf2_calculate.py:113-126 | The intended result, slot by slot: slot `4v + c` holds component c of the normalised sum of vertex v's triangle tangents. A zero-length sum gives the fallback `(n.z, n.x, n.y)`, and `w` is 1.0. |
| Calculate.TriangleGeometry | scripts/addons/io_scene_gltf2/gltf2_calculate.py:63-87 | The divisor is the UV determinant. It is zero iff the triangle has no tangent. Otherwise the tangent is the normalised raw vector. |
| Calculate.AttachKey | scripts/addons/io_scene_gltf2/gltf2_calculate.py:89-102 | One key's update: an absent key stores the triangle's vector object itself; a present key's own object is increased in place. The object graph keeps matching the heap model. |
| Calculate.AttachCorners | scripts/addons/io_scene_gltf2/gltf2_calculate.py:89-102 | The three updates of one triangle attach its vector object as `AttachTriangle` states. |
| Calculate.NewTangent | scripts/addons/io_scene_gltf2/gltf2_calculate.py:86-102 | A fresh vector holding the normalised tangent is attached to the triangle's three keys. |
| Calculate.AccumulateTriangle | scripts/addons/io_scene_gltf2/gltf2_calculate.py:55-102 | One iteration of the triangle loop performs exactly the as-written step, skip included. Newly allocated vectors are fresh. |
| Calculate.AccumulateTangents | scripts/addons/io_scene_gltf2/gltf2_calculate.py:52-102 | The triangle loop leaves the dictionary and its vector objects as `AccumulateAsWritten` describes. |
| Calculate.FinishedTangent | scripts/addons/io_scene_gltf2/gltf2_calculate.py:114-119 | The tangent chosen for the next key in insertion order matches the finishing step, including the in-place normalisation of shared vectors. |
| Calculate.WriteTangent | scripts/addons/io_scene_gltf2/gltf2_calculate.py:121-126 | The four writes at `ti = (vi // 3) * 4` lay out one more written key. |
| Calculate.FinishKey | scripts/addons/io_scene_gltf2/gltf2_calculate.py:113-126 | One iteration of the finishing loop advances the written map and the output array together. |
| Calculate.FinishTangents | scripts/addons/io_scene_gltf2/gltf2_calculate.py:111-126 | The finishing loop's output is the layout of every key's finished tangent, in dictionary order. The vector objects end holding the finished values, normalised in place. |
| Calculate.CalculateTangent | scripts/addons/io_scene_gltf2/gltf2_calculate.py:31-128 | `calculate_tangent` returns `TangentsAsWritten`. That covers the None returns for a missing primitive or texcoord attribute, the count check, and the layout. |
| Calculate.SharedCornerAccumulated | scripts/addons/io_scene_gltf2/gltf2_calculate.py:89-102 | On two triangles sharing vertex 0, keys 0, 3 and 6 share the first triangle's vector object, which ends up holding the sum of both triangles' tangents. |
| Calculate.SharedCornerSums | scripts/addons/io_scene_gltf2/gltf2_calculate.py:89-102 | With per-vertex sums, vertex 1 of the same mesh keeps only its own triangle's tangent. |
| Calculate.SharedCornerAsWritten | scripts/addons/io_scene_gltf2/gltf2_calculate.py:89-126 | As written, vertex 1's output tangent on that mesh has a positive y component, taken from the second triangle, which does not contain vertex 1. |
| Calculate.SharedCornerIntended | scripts/addons/io_scene_gltf2/gltf2_calculate.py:89-126 | With per-vertex sums, vertex 1's output tangent on that mesh has y component 0. |
| Calculate.SharedCornerLeaks | scripts/addons/io_scene_gltf2/gltf2_calculate.py:89-102 | On the concrete five-vertex mesh, both versions yield 20 numbers. Slot 5 (vertex 1's y) is positive as written and 0 as intended. |

## Left out

- `scripts/addons/io_scene_gltf2/__init__.py` is not part of this model. It is the Blender operator and its export settings.
- Host capabilities become parameters:
  - `fcurve.evaluate` becomes `Host.evaluate`.
  - `fcurve.range()` becomes the curve's `range` field.
  - The mathutils quaternion constructors become `Host.quaternionFromAxisAngle` and `Host.quaternionFromEuler`.
  - `convert_swizzle_location`, `convert_swizzle_rotation` and `convert_swizzle_scale` become `Host.swizzle*`.
  - `scene.render.fps` becomes the `fps` parameter.
- `bpy.context.scene.frame_set` is `Scene.FrameSet`: a current-frame cursor plus a record of every frame set.
- For joints, the product `matrix_correction * matrix_basis` and its `decompose()` are folded into one function `jointPose(frame)`. Its value depends only on the frame last set.
- `Vector.normalize()` and `Vector.length` are parameters (`VectorOps`). Their square roots are not defined. The shared-corner counterexample assumes only that a normalised non-zero vector is that vector divided by a positive length.
- Floating point is modelled by `real`, with no rounding. In particular, `key += 1.0` is exact, and `divisor == 0.0` is an exact test.
- Keyframe interpolation tags other than LINEAR and CONSTANT are one tag, `Other`. The code treats them all alike.
- `list.sort()` is modelled by an insertion sort. On a list without duplicates every correct sort gives the same list (`StrictlyIncreasingUnique`).
- Animate.GatherKeys: the CONVERSION_NEEDED branch with no present curve compares `None <= None` and raises. The model requires a present curve in that branch instead of modelling the exception.
- Calculate.CalculateTangent: an index outside the position or texcoord list, an index list whose length is not a multiple of 3, or a key without a normal triple when the count check passes raises IndexError. These are preconditions (`Runs`), not a modelled error. Indices are natural numbers, so Python's negative indexing is not modelled.
- Calculate.CalculateTangent: an attribute stored with the value None is modelled as an absent attribute.
- The order of a Python dictionary's `items()` is modelled as the keys' insertion order. It matters as written, because normalising a shared vector in place affects the keys that share it.

## Findings

| source | as written | input that shows it | evidently intended | confidence | as-written member | corrected member |
|---|---|---|---|---|---|---|
| scripts/addons/io_scene_gltf2/gltf2_animate.py:35 | The mode starts at CONVERSION_NEEDED, so the `is None` branch at line 42 never runs and every curve group is classified CONVERSION_NEEDED, which forces resampling onto the frame grid | One curve with keyframes (0, LINEAR) and (10, LINEAR) | Start from None, so the first keyframe sets the mode: LINEAR for this curve | not executed | Animate.UniformLinearCurveNeedsConversion | Animate.GetInterpolationIntended |
| scripts/addons/io_scene_gltf2/gltf2_calculate.py:89-102 | The first key to see a triangle stores that triangle's tangent vector object itself, and a later `+=` through any key mutates the shared object, so tangents leak between vertices | `SharedCornerMesh`: triangles (0,1,2) and (0,3,4) with unit UVs, whose tangents point along x and y; vertex 1's tangent gets a y component from the second triangle | Each vertex accumulates its own copy: the sum of the tangents of its own triangles | not executed | Calculate.SharedCornerLeaks | Calculate.IntendedVertices |
