/**
 * The five samplers of the glTF animation exporter (gltf2_animate.py): each
 * turns a group of per-axis curves into a track mapping seconds to a value.
 *
 * Plain nodes evaluate each present curve at the frame and keep a fixed
 * default in absent slots. Joints move the host scene to the frame and read
 * the decomposition of their corrected basis matrix there.
 */
module AnimateSample {
  import opened Wrappers
  import opened Animate

  type Vec3 = s: seq<real> | |s| == 3 witness [0.0, 0.0, 0.0]

  /** Four components; a host (mathutils) quaternion is indexed w, x, y, z. */
  type Quat = s: seq<real> | |s| == 4 witness [1.0, 0.0, 0.0, 0.0]

  /** 'JOINT', or any other node type. */
  datatype NodeType = Joint | PlainNode

  /** What `matrix.decompose()` yields: translation, rotation (w, x, y, z) and scale. */
  datatype Decomposition = Decomposition(translation: Vec3, rotation: Quat, scale: Vec3)

  /** Host capabilities the samplers call; their definitions are not part of this model. */
  datatype Host = Host(
    evaluate: (Curve, real) -> real,                // fcurve.evaluate(frame)
    quaternionFromAxisAngle: (Vec3, real) -> Quat,  // mathutils.Quaternion(axis, angle)
    quaternionFromEuler: (Vec3, string) -> Quat,    // mathutils.Euler(angles, mode).to_quaternion()
    swizzleLocation: Vec3 -> Vec3,                  // convert_swizzle_location
    swizzleRotation: Quat -> Quat,                  // convert_swizzle_rotation
    swizzleScale: Vec3 -> Vec3)                     // convert_swizzle_scale

  /**
   * The host scene's current-frame cursor. `framesSet` records every
   * `frame_set` call in order; it exists only to state what the samplers do to
   * the scene.
   */
  class Scene {
    var frame: real
    ghost var framesSet: seq<real>

    constructor (frame: real)
      ensures this.frame == frame && framesSet == []
    {
      this.frame := frame;
      framesSet := [];
    }

    /** `bpy.context.scene.frame_set(f)`. */
    method FrameSet(f: real)
      modifies this
      ensures frame == f && framesSet == old(framesSet) + [f]
    {
      frame := f;
      framesSet := framesSet + [f];
    }
  }

  // ------------------------------------------------------------------ slots

  /** Every present curve sits in a slot the value list has (otherwise the slot write fails). */
  predicate PresentWithin(curves: seq<Option<Curve>>, n: nat) {
    forall i :: 0 <= i < |curves| && curves[i].Some? ==> i < n
  }

  /** The value list after the channel loop: slot i evaluated from curve i when present, else the default. */
  function Slots(curves: seq<Option<Curve>>, frame: real, default: seq<real>, evaluate: (Curve, real) -> real): (r: seq<real>)
    requires PresentWithin(curves, |default|)
    ensures |r| == |default|
  {
    seq(|default|, i requires 0 <= i < |default| =>
      if i < |curves| && curves[i].Some? then evaluate(curves[i].value, frame) else default[i])
  }

  /**
   * The channel loop shared by the five samplers: it starts from the default
   * list and overwrites slot `channel_index` with the evaluation of every
   * present curve.
   */
  method FillSlots(curves: seq<Option<Curve>>, frame: real, default: seq<real>, evaluate: (Curve, real) -> real)
    returns (slots: seq<real>)
    requires PresentWithin(curves, |default|)
    ensures |slots| == |default|
    ensures forall i :: 0 <= i < |default| ==>
              slots[i] == if i < |curves| && curves[i].Some? then evaluate(curves[i].value, frame) else default[i]
  {
    slots := default;
    var channelIndex := 0;
    for k := 0 to |curves|
      invariant channelIndex == k
      invariant |slots| == |default|
      invariant forall i :: 0 <= i < |default| ==>
                  slots[i] == if i < k && curves[i].Some? then evaluate(curves[i].value, frame) else default[i]
    {
      if curves[k].Some? {
        var value := evaluate(curves[k].value, frame);
        slots := slots[channelIndex := value];
      }
      channelIndex := channelIndex + 1;
    }
  }

  // ------------------------------------------------------------ quaternions

  /** Host (w, x, y, z) order to glTF (x, y, z, w) order: `[q[1], q[2], q[3], q[0]]`. */
  function ToGltfOrder(q: Quat): Quat {
    [q[1], q[2], q[3], q[0]]
  }

  /** glTF (x, y, z, w) order back to host (w, x, y, z) order: `[r[3], r[0], r[1], r[2]]`. */
  function ToHostOrder(r: Quat): Quat {
    [r[3], r[0], r[1], r[2]]
  }

  /** The two reorderings undo each other. */
  lemma ReorderingsInverse(q: Quat)
    ensures ToGltfOrder(ToHostOrder(q)) == q && ToHostOrder(ToGltfOrder(q)) == q
  {
    assert q == [q[0], q[1], q[2], q[3]];
  }

  /** animate_convert_rotation_axis_angle: the host quaternion of (angle, x, y, z), as [x, y, z, w]. */
  function ConvertRotationAxisAngle(host: Host, axisAngle: Quat): (r: Quat)
    ensures ToHostOrder(r) == host.quaternionFromAxisAngle([axisAngle[1], axisAngle[2], axisAngle[3]], axisAngle[0])
  {
    var q := host.quaternionFromAxisAngle([axisAngle[1], axisAngle[2], axisAngle[3]], axisAngle[0]);
    ReorderingsInverse(q);
    ToGltfOrder(q)
  }

  /** animate_convert_rotation_euler: the host quaternion of the Euler angles in `mode`, as [x, y, z, w]. */
  function ConvertRotationEuler(host: Host, euler: Vec3, mode: string): (r: Quat)
    ensures ToHostOrder(r) == host.quaternionFromEuler(euler, mode)
  {
    var q := host.quaternionFromEuler(euler, mode);
    ReorderingsInverse(q);
    ToGltfOrder(q)
  }

  // ------------------------------------------------------- per-frame values

  const LocationDefault: Vec3 := [0.0, 0.0, 0.0]
  const AxisAngleDefault: Quat := [1.0, 0.0, 0.0, 0.0]
  const EulerDefault: Vec3 := [0.0, 0.0, 0.0]
  const QuaternionDefault: Quat := [1.0, 0.0, 0.0, 0.0]
  const ScaleDefault: Vec3 := [1.0, 1.0, 1.0]

  function LocationAt(curves: seq<Option<Curve>>, nodeType: NodeType, host: Host,
                      jointPose: real -> Decomposition, frame: real): seq<real>
    requires nodeType == PlainNode ==> PresentWithin(curves, 3)
  {
    if nodeType == Joint then jointPose(frame).translation
    else host.swizzleLocation(Slots(curves, frame, LocationDefault, host.evaluate))
  }

  function AxisAngleAt(curves: seq<Option<Curve>>, nodeType: NodeType, host: Host,
                       jointPose: real -> Decomposition, frame: real): seq<real>
    requires nodeType == PlainNode ==> PresentWithin(curves, 4)
  {
    if nodeType == Joint then ToGltfOrder(jointPose(frame).rotation)
    else
      var rotation := ConvertRotationAxisAngle(host, Slots(curves, frame, AxisAngleDefault, host.evaluate));
      ToGltfOrder(host.swizzleRotation(ToHostOrder(rotation)))
  }

  function EulerAt(curves: seq<Option<Curve>>, mode: string, nodeType: NodeType, host: Host,
                   jointPose: real -> Decomposition, frame: real): seq<real>
    requires nodeType == PlainNode ==> PresentWithin(curves, 3)
  {
    if nodeType == Joint then ToGltfOrder(jointPose(frame).rotation)
    else
      var rotation := ConvertRotationEuler(host, Slots(curves, frame, EulerDefault, host.evaluate), mode);
      ToGltfOrder(host.swizzleRotation(ToHostOrder(rotation)))
  }

  function QuaternionAt(curves: seq<Option<Curve>>, nodeType: NodeType, host: Host,
                        jointPose: real -> Decomposition, frame: real): seq<real>
    requires nodeType == PlainNode ==> PresentWithin(curves, 4)
  {
    if nodeType == Joint then ToGltfOrder(jointPose(frame).rotation)
    else ToGltfOrder(host.swizzleRotation(Slots(curves, frame, QuaternionDefault, host.evaluate)))
  }

  function ScaleAt(curves: seq<Option<Curve>>, nodeType: NodeType, host: Host,
                   jointPose: real -> Decomposition, frame: real): seq<real>
    requires nodeType == PlainNode ==> PresentWithin(curves, 3)
  {
    if nodeType == Joint then jointPose(frame).scale
    else host.swizzleScale(Slots(curves, frame, ScaleDefault, host.evaluate))
  }

  /** With the identity swizzle, a plain node's axis-angle sample is the converter's [x, y, z, w] unchanged. */
  lemma AxisAngleIdentitySwizzle(curves: seq<Option<Curve>>, host: Host, jointPose: real -> Decomposition, frame: real)
    requires PresentWithin(curves, 4)
    requires forall q :: host.swizzleRotation(q) == q
    ensures AxisAngleAt(curves, PlainNode, host, jointPose, frame) ==
            ConvertRotationAxisAngle(host, Slots(curves, frame, AxisAngleDefault, host.evaluate))
  {
    ReorderingsInverse(ConvertRotationAxisAngle(host, Slots(curves, frame, AxisAngleDefault, host.evaluate)));
  }

  /** With the identity swizzle, a plain node's Euler sample is the converter's [x, y, z, w] unchanged. */
  lemma EulerIdentitySwizzle(curves: seq<Option<Curve>>, mode: string, host: Host,
                             jointPose: real -> Decomposition, frame: real)
    requires PresentWithin(curves, 3)
    requires forall q :: host.swizzleRotation(q) == q
    ensures EulerAt(curves, mode, PlainNode, host, jointPose, frame) ==
            ConvertRotationEuler(host, Slots(curves, frame, EulerDefault, host.evaluate), mode)
  {
    ReorderingsInverse(ConvertRotationEuler(host, Slots(curves, frame, EulerDefault, host.evaluate), mode));
  }

  /**
   * With the identity swizzle, a plain node's quaternion channels (w, x, y, z)
   * come out as (x, y, z, w); with no channel at all that is the identity
   * rotation [0, 0, 0, 1].
   */
  lemma QuaternionIdentitySwizzle(curves: seq<Option<Curve>>, host: Host, jointPose: real -> Decomposition, frame: real)
    requires PresentWithin(curves, 4)
    requires forall q :: host.swizzleRotation(q) == q
    ensures var s := Slots(curves, frame, QuaternionDefault, host.evaluate);
            QuaternionAt(curves, PlainNode, host, jointPose, frame) == [s[1], s[2], s[3], s[0]]
    ensures !HasPresent(curves) ==> QuaternionAt(curves, PlainNode, host, jointPose, frame) == [0.0, 0.0, 0.0, 1.0]
  {
    var s := Slots(curves, frame, QuaternionDefault, host.evaluate);
    if !HasPresent(curves) {
      assert forall i :: 0 <= i < 4 ==> s[i] == QuaternionDefault[i];
    }
  }

  // ---------------------------------------------------------------- tracks

  /**
   * `result` maps the time of each key (frame / fps) to the value sampled at
   * that key, has one entry per key and no other entry.
   */
  ghost predicate IsTrack(result: map<real, seq<real>>, keys: seq<real>, fps: real, valueAt: real -> seq<real>)
    requires fps != 0.0
  {
    && |result| == |keys|
    && (forall k :: 0 <= k < |keys| ==> keys[k] / fps in result && result[keys[k] / fps] == valueAt(keys[k]))
    && (forall t :: t in result ==> exists k :: 0 <= k < |keys| && t == keys[k] / fps)
  }

  lemma StrictlyIncreasingDistinct(s: seq<real>)
    ensures StrictlyIncreasing(s) ==> Distinct(s)
  {}

  /** Setting the frame of key `i` after those before it has set the frames of the first `i + 1` keys. */
  lemma PrefixSnoc(before: seq<real>, keys: seq<real>, i: nat)
    requires i < |keys|
    ensures before + keys[..i] + [keys[i]] == before + keys[..i + 1]
  {
    assert keys[..i + 1] == keys[..i] + [keys[i]];
  }

  /** The dictionary the key loop builds: `times[k] -> values[k]`, later keys written last. */
  function Track(times: seq<real>, values: seq<seq<real>>): map<real, seq<real>>
    requires |times| == |values|
  {
    if |times| == 0 then map[]
    else Track(times[..|times| - 1], values[..|values| - 1])[times[|times| - 1] := values[|values| - 1]]
  }

  /** With distinct times, the dictionary holds exactly one entry per time, mapped to its own value. */
  lemma {:induction false} TrackEntries(times: seq<real>, values: seq<seq<real>>)
    requires |times| == |values| && Distinct(times)
    ensures |Track(times, values)| == |times|
    ensures forall k :: 0 <= k < |times| ==> times[k] in Track(times, values) && Track(times, values)[times[k]] == values[k]
    ensures forall t :: t in Track(times, values) ==> exists k :: 0 <= k < |times| && t == times[k]
  {
    if |times| > 0 {
      var n := |times| - 1;
      var before, written := times[..n], values[..n];
      TrackEntries(before, written);
      var prev := Track(before, written);
      assert Track(times, values) == prev[times[n] := values[n]];
      assert times[n] !in prev;
      forall k | 0 <= k < |times|
        ensures times[k] in Track(times, values) && Track(times, values)[times[k]] == values[k]
      {
        if k < n {
          assert before[k] == times[k] && written[k] == values[k];
          assert times[k] in prev && prev[times[k]] == values[k];
          assert times[k] != times[n];
        }
      }
      forall t | t in Track(times, values)
        ensures exists k :: 0 <= k < |times| && t == times[k]
      {
        if t != times[n] {
          var k :| 0 <= k < n && t == before[k];
          assert t == times[k];
        }
      }
    }
  }

  /** The dictionary built from times `keys[k] / fps` and values sampled at `keys[k]` is a track. */
  lemma TrackOfSamples(keys: seq<real>, fps: real, times: seq<real>, values: seq<seq<real>>, valueAt: real -> seq<real>)
    requires fps != 0.0 && |times| == |keys| == |values| && Distinct(times)
    requires forall k :: 0 <= k < |keys| ==> times[k] == keys[k] / fps && values[k] == valueAt(keys[k])
    ensures IsTrack(Track(times, values), keys, fps, valueAt)
  {
    TrackEntries(times, values);
  }

  /** One more key extends the dictionary by one write. */
  lemma TrackSnoc(times: seq<real>, values: seq<seq<real>>, i: nat, v: seq<real>)
    requires i < |times| && |values| == i
    ensures Track(times[..i + 1], values + [v]) == Track(times[..i], values)[times[i] := v]
  {
    assert times[..i + 1][..i] == times[..i];
    assert (values + [v])[..i] == values;
  }

  /** One iteration of animate_location's key loop: the translation at `frame`. */
  method SampleLocation(curves: seq<Option<Curve>>, nodeType: NodeType, host: Host,
                        jointPose: real -> Decomposition, scene: Scene, frame: real)
    returns (translation: seq<real>)
    requires nodeType == PlainNode ==> PresentWithin(curves, 3)
    modifies scene
    ensures translation == LocationAt(curves, nodeType, host, jointPose, frame)
    ensures scene.framesSet == old(scene.framesSet) + (if nodeType == Joint then [frame] else [])
    ensures scene.frame == if nodeType == Joint then frame else old(scene.frame)
  {
    if nodeType == Joint {
      scene.FrameSet(frame);
      translation := jointPose(scene.frame).translation;
    } else {
      var slots := FillSlots(curves, frame, LocationDefault, host.evaluate);
      assert slots == Slots(curves, frame, LocationDefault, host.evaluate);
      translation := host.swizzleLocation(slots);
    }
  }

  /** The key loop of animate_location: one sample per key; a joint sets the scene frame at each key in order. */
  method LocationTrack(curves: seq<Option<Curve>>, nodeType: NodeType, host: Host,
      jointPose: real -> Decomposition, scene: Scene, keys: seq<real>, times: seq<real>)
    returns (result: map<real, seq<real>>, ghost values: seq<seq<real>>)
    requires |times| == |keys|
    requires nodeType == PlainNode ==> PresentWithin(curves, 3)
    modifies scene
    ensures |values| == |keys| && result == Track(times, values)
    ensures forall k :: 0 <= k < |keys| ==> values[k] == LocationAt(curves, nodeType, host, jointPose, keys[k])
    ensures scene.framesSet == old(scene.framesSet) + (if nodeType == Joint then keys else [])
    ensures scene.frame == if nodeType == Joint && |keys| > 0 then keys[|keys| - 1] else old(scene.frame)
  {
    result := map[];
    values := [];
    ghost var framesBefore := scene.framesSet;
    for keyframeIndex := 0 to |times|
      invariant |values| == keyframeIndex
      invariant result == Track(times[..keyframeIndex], values)
      invariant forall k :: 0 <= k < keyframeIndex ==> values[k] == LocationAt(curves, nodeType, host, jointPose, keys[k])
      invariant scene.framesSet == framesBefore + (if nodeType == Joint then keys[..keyframeIndex] else [])
      invariant scene.frame == if nodeType == Joint && keyframeIndex > 0 then keys[keyframeIndex - 1] else old(scene.frame)
    {
      var time := times[keyframeIndex];
      var translation := SampleLocation(curves, nodeType, host, jointPose, scene, keys[keyframeIndex]);
      PrefixSnoc(framesBefore, keys, keyframeIndex);
      TrackSnoc(times, values, keyframeIndex, translation);
      result := result[time := translation];
      ghost var prev := values;
      values := values + [translation];
      forall k | 0 <= k <= keyframeIndex
        ensures values[k] == LocationAt(curves, nodeType, host, jointPose, keys[k])
      {
        if k < keyframeIndex {
          assert values[k] == prev[k];
        }
      }
    }
    assert keys[..|keys|] == keys && times[..|times|] == times;
  }

  /**
   * animate_location. The dictionary is filled by writing `values[k]` under `order[k]`
   * for k = 0, 1, ...; `order` is the keys' times, ascending when fps > 0.
   */
  method AnimateLocation(curves: seq<Option<Curve>>, interpolation: Option<Mode>, nodeType: NodeType,
                         host: Host, jointPose: real -> Decomposition, scene: Scene, fps: real)
    returns (result: map<real, seq<real>>, ghost order: seq<real>, ghost values: seq<seq<real>>)
    requires interpolation == Some(ConversionNeeded) ==> HasPresent(curves)
    requires nodeType == PlainNode ==> PresentWithin(curves, 3)
    requires fps != 0.0
    modifies scene
    ensures IsTrack(result, GatheredKeys(curves, interpolation), fps, frame => LocationAt(curves, nodeType, host, jointPose, frame))
    ensures scene.framesSet == old(scene.framesSet) + (if nodeType == Joint then GatheredKeys(curves, interpolation) else [])
    ensures var keys := GatheredKeys(curves, interpolation);
            scene.frame == if nodeType == Joint && |keys| > 0 then keys[|keys| - 1] else old(scene.frame)
    ensures |order| == |GatheredKeys(curves, interpolation)| && |values| == |order| && result == Track(order, values)
    ensures forall k :: 0 <= k < |order| ==> order[k] == GatheredKeys(curves, interpolation)[k] / fps
    ensures fps > 0.0 ==> StrictlyIncreasing(order)
  {
    var keys := GatherKeys(curves, interpolation);
    var times := ConvertKeys(keys, fps);
    StrictlyIncreasingDistinct(keys);
    result, values := LocationTrack(curves, nodeType, host, jointPose, scene, keys, times);
    TrackOfSamples(keys, fps, times, values, frame => LocationAt(curves, nodeType, host, jointPose, frame));
    order := times;
  }

  /** One iteration of animate_rotation_axis_angle's key loop: the glTF rotation at `frame`. */
  method SampleRotationAxisAngle(curves: seq<Option<Curve>>, nodeType: NodeType, host: Host,
      jointPose: real -> Decomposition, scene: Scene, frame: real)
    returns (rotation: seq<real>)
    requires nodeType == PlainNode ==> PresentWithin(curves, 4)
    modifies scene
    ensures rotation == AxisAngleAt(curves, nodeType, host, jointPose, frame)
    ensures scene.framesSet == old(scene.framesSet) + (if nodeType == Joint then [frame] else [])
    ensures scene.frame == if nodeType == Joint then frame else old(scene.frame)
  {
    if nodeType == Joint {
      scene.FrameSet(frame);
      rotation := ToGltfOrder(jointPose(scene.frame).rotation);
    } else {
      var axisAngleRotation := FillSlots(curves, frame, AxisAngleDefault, host.evaluate);
      assert axisAngleRotation == Slots(curves, frame, AxisAngleDefault, host.evaluate);
      var converted := ConvertRotationAxisAngle(host, axisAngleRotation);
      var internal := host.swizzleRotation(ToHostOrder(converted));
      rotation := ToGltfOrder(internal);
    }
  }

  /** The key loop of animate_rotation_axis_angle: one sample per key; a joint sets the scene frame at each key in order. */
  method AxisAngleTrack(curves: seq<Option<Curve>>, nodeType: NodeType, host: Host,
      jointPose: real -> Decomposition, scene: Scene, keys: seq<real>, times: seq<real>)
    returns (result: map<real, seq<real>>, ghost values: seq<seq<real>>)
    requires |times| == |keys|
    requires nodeType == PlainNode ==> PresentWithin(curves, 4)
    modifies scene
    ensures |values| == |keys| && result == Track(times, values)
    ensures forall k :: 0 <= k < |keys| ==> values[k] == AxisAngleAt(curves, nodeType, host, jointPose, keys[k])
    ensures scene.framesSet == old(scene.framesSet) + (if nodeType == Joint then keys else [])
    ensures scene.frame == if nodeType == Joint && |keys| > 0 then keys[|keys| - 1] else old(scene.frame)
  {
    result := map[];
    values := [];
    ghost var framesBefore := scene.framesSet;
    for keyframeIndex := 0 to |times|
      invariant |values| == keyframeIndex
      invariant result == Track(times[..keyframeIndex], values)
      invariant forall k :: 0 <= k < keyframeIndex ==> values[k] == AxisAngleAt(curves, nodeType, host, jointPose, keys[k])
      invariant scene.framesSet == framesBefore + (if nodeType == Joint then keys[..keyframeIndex] else [])
      invariant scene.frame == if nodeType == Joint && keyframeIndex > 0 then keys[keyframeIndex - 1] else old(scene.frame)
    {
      var time := times[keyframeIndex];
      var rotation := SampleRotationAxisAngle(curves, nodeType, host, jointPose, scene, keys[keyframeIndex]);
      PrefixSnoc(framesBefore, keys, keyframeIndex);
      TrackSnoc(times, values, keyframeIndex, rotation);
      result := result[time := rotation];
      ghost var prev := values;
      values := values + [rotation];
      forall k | 0 <= k <= keyframeIndex
        ensures values[k] == AxisAngleAt(curves, nodeType, host, jointPose, keys[k])
      {
        if k < keyframeIndex {
          assert values[k] == prev[k];
        }
      }
    }
    assert keys[..|keys|] == keys && times[..|times|] == times;
  }

  /**
   * animate_rotation_axis_angle. The dictionary is filled by writing `values[k]` under `order[k]`
   * for k = 0, 1, ...; `order` is the keys' times, ascending when fps > 0.
   */
  method AnimateRotationAxisAngle(curves: seq<Option<Curve>>, interpolation: Option<Mode>, nodeType: NodeType,
      host: Host, jointPose: real -> Decomposition, scene: Scene, fps: real)
    returns (result: map<real, seq<real>>, ghost order: seq<real>, ghost values: seq<seq<real>>)
    requires interpolation == Some(ConversionNeeded) ==> HasPresent(curves)
    requires nodeType == PlainNode ==> PresentWithin(curves, 4)
    requires fps != 0.0
    modifies scene
    ensures IsTrack(result, GatheredKeys(curves, interpolation), fps, frame => AxisAngleAt(curves, nodeType, host, jointPose, frame))
    ensures scene.framesSet == old(scene.framesSet) + (if nodeType == Joint then GatheredKeys(curves, interpolation) else [])
    ensures var keys := GatheredKeys(curves, interpolation);
            scene.frame == if nodeType == Joint && |keys| > 0 then keys[|keys| - 1] else old(scene.frame)
    ensures |order| == |GatheredKeys(curves, interpolation)| && |values| == |order| && result == Track(order, values)
    ensures forall k :: 0 <= k < |order| ==> order[k] == GatheredKeys(curves, interpolation)[k] / fps
    ensures fps > 0.0 ==> StrictlyIncreasing(order)
  {
    var keys := GatherKeys(curves, interpolation);
    var times := ConvertKeys(keys, fps);
    StrictlyIncreasingDistinct(keys);
    result, values := AxisAngleTrack(curves, nodeType, host, jointPose, scene, keys, times);
    TrackOfSamples(keys, fps, times, values, frame => AxisAngleAt(curves, nodeType, host, jointPose, frame));
    order := times;
  }

  /** One iteration of animate_rotation_euler's key loop: the glTF rotation at `frame`. */
  method SampleRotationEuler(curves: seq<Option<Curve>>, mode: string, nodeType: NodeType, host: Host,
      jointPose: real -> Decomposition, scene: Scene, frame: real)
    returns (rotation: seq<real>)
    requires nodeType == PlainNode ==> PresentWithin(curves, 3)
    modifies scene
    ensures rotation == EulerAt(curves, mode, nodeType, host, jointPose, frame)
    ensures scene.framesSet == old(scene.framesSet) + (if nodeType == Joint then [frame] else [])
    ensures scene.frame == if nodeType == Joint then frame else old(scene.frame)
  {
    if nodeType == Joint {
      scene.FrameSet(frame);
      rotation := ToGltfOrder(jointPose(scene.frame).rotation);
    } else {
      var eulerRotation := FillSlots(curves, frame, EulerDefault, host.evaluate);
      assert eulerRotation == Slots(curves, frame, EulerDefault, host.evaluate);
      var converted := ConvertRotationEuler(host, eulerRotation, mode);
      var internal := host.swizzleRotation(ToHostOrder(converted));
      rotation := ToGltfOrder(internal);
    }
  }

  /** The key loop of animate_rotation_euler: one sample per key; a joint sets the scene frame at each key in order. */
  method EulerTrack(curves: seq<Option<Curve>>, mode: string, nodeType: NodeType, host: Host,
      jointPose: real -> Decomposition, scene: Scene, keys: seq<real>, times: seq<real>)
    returns (result: map<real, seq<real>>, ghost values: seq<seq<real>>)
    requires |times| == |keys|
    requires nodeType == PlainNode ==> PresentWithin(curves, 3)
    modifies scene
    ensures |values| == |keys| && result == Track(times, values)
    ensures forall k :: 0 <= k < |keys| ==> values[k] == EulerAt(curves, mode, nodeType, host, jointPose, keys[k])
    ensures scene.framesSet == old(scene.framesSet) + (if nodeType == Joint then keys else [])
    ensures scene.frame == if nodeType == Joint && |keys| > 0 then keys[|keys| - 1] else old(scene.frame)
  {
    result := map[];
    values := [];
    ghost var framesBefore := scene.framesSet;
    for keyframeIndex := 0 to |times|
      invariant |values| == keyframeIndex
      invariant result == Track(times[..keyframeIndex], values)
      invariant forall k :: 0 <= k < keyframeIndex ==> values[k] == EulerAt(curves, mode, nodeType, host, jointPose, keys[k])
      invariant scene.framesSet == framesBefore + (if nodeType == Joint then keys[..keyframeIndex] else [])
      invariant scene.frame == if nodeType == Joint && keyframeIndex > 0 then keys[keyframeIndex - 1] else old(scene.frame)
    {
      var time := times[keyframeIndex];
      var rotation := SampleRotationEuler(curves, mode, nodeType, host, jointPose, scene, keys[keyframeIndex]);
      PrefixSnoc(framesBefore, keys, keyframeIndex);
      TrackSnoc(times, values, keyframeIndex, rotation);
      result := result[time := rotation];
      ghost var prev := values;
      values := values + [rotation];
      forall k | 0 <= k <= keyframeIndex
        ensures values[k] == EulerAt(curves, mode, nodeType, host, jointPose, keys[k])
      {
        if k < keyframeIndex {
          assert values[k] == prev[k];
        }
      }
    }
    assert keys[..|keys|] == keys && times[..|times|] == times;
  }

  /**
   * animate_rotation_euler. The dictionary is filled by writing `values[k]` under `order[k]`
   * for k = 0, 1, ...; `order` is the keys' times, ascending when fps > 0.
   */
  method AnimateRotationEuler(curves: seq<Option<Curve>>, mode: string, interpolation: Option<Mode>, nodeType: NodeType,
      host: Host, jointPose: real -> Decomposition, scene: Scene, fps: real)
    returns (result: map<real, seq<real>>, ghost order: seq<real>, ghost values: seq<seq<real>>)
    requires interpolation == Some(ConversionNeeded) ==> HasPresent(curves)
    requires nodeType == PlainNode ==> PresentWithin(curves, 3)
    requires fps != 0.0
    modifies scene
    ensures IsTrack(result, GatheredKeys(curves, interpolation), fps, frame => EulerAt(curves, mode, nodeType, host, jointPose, frame))
    ensures scene.framesSet == old(scene.framesSet) + (if nodeType == Joint then GatheredKeys(curves, interpolation) else [])
    ensures var keys := GatheredKeys(curves, interpolation);
            scene.frame == if nodeType == Joint && |keys| > 0 then keys[|keys| - 1] else old(scene.frame)
    ensures |order| == |GatheredKeys(curves, interpolation)| && |values| == |order| && result == Track(order, values)
    ensures forall k :: 0 <= k < |order| ==> order[k] == GatheredKeys(curves, interpolation)[k] / fps
    ensures fps > 0.0 ==> StrictlyIncreasing(order)
  {
    var keys := GatherKeys(curves, interpolation);
    var times := ConvertKeys(keys, fps);
    StrictlyIncreasingDistinct(keys);
    result, values := EulerTrack(curves, mode, nodeType, host, jointPose, scene, keys, times);
    TrackOfSamples(keys, fps, times, values, frame => EulerAt(curves, mode, nodeType, host, jointPose, frame));
    order := times;
  }

  /** One iteration of animate_rotation_quaternion's key loop: the glTF rotation at `frame`. */
  method SampleRotationQuaternion(curves: seq<Option<Curve>>, nodeType: NodeType, host: Host,
      jointPose: real -> Decomposition, scene: Scene, frame: real)
    returns (rotation: seq<real>)
    requires nodeType == PlainNode ==> PresentWithin(curves, 4)
    modifies scene
    ensures rotation == QuaternionAt(curves, nodeType, host, jointPose, frame)
    ensures scene.framesSet == old(scene.framesSet) + (if nodeType == Joint then [frame] else [])
    ensures scene.frame == if nodeType == Joint then frame else old(scene.frame)
  {
    if nodeType == Joint {
      scene.FrameSet(frame);
      rotation := ToGltfOrder(jointPose(scene.frame).rotation);
    } else {
      var channels := FillSlots(curves, frame, QuaternionDefault, host.evaluate);
      assert channels == Slots(curves, frame, QuaternionDefault, host.evaluate);
      var internal := host.swizzleRotation(channels);
      rotation := ToGltfOrder(internal);
    }
  }

  /** The key loop of animate_rotation_quaternion: one sample per key; a joint sets the scene frame at each key in order. */
  method QuaternionTrack(curves: seq<Option<Curve>>, nodeType: NodeType, host: Host,
      jointPose: real -> Decomposition, scene: Scene, keys: seq<real>, times: seq<real>)
    returns (result: map<real, seq<real>>, ghost values: seq<seq<real>>)
    requires |times| == |keys|
    requires nodeType == PlainNode ==> PresentWithin(curves, 4)
    modifies scene
    ensures |values| == |keys| && result == Track(times, values)
    ensures forall k :: 0 <= k < |keys| ==> values[k] == QuaternionAt(curves, nodeType, host, jointPose, keys[k])
    ensures scene.framesSet == old(scene.framesSet) + (if nodeType == Joint then keys else [])
    ensures scene.frame == if nodeType == Joint && |keys| > 0 then keys[|keys| - 1] else old(scene.frame)
  {
    result := map[];
    values := [];
    ghost var framesBefore := scene.framesSet;
    for keyframeIndex := 0 to |times|
      invariant |values| == keyframeIndex
      invariant result == Track(times[..keyframeIndex], values)
      invariant forall k :: 0 <= k < keyframeIndex ==> values[k] == QuaternionAt(curves, nodeType, host, jointPose, keys[k])
      invariant scene.framesSet == framesBefore + (if nodeType == Joint then keys[..keyframeIndex] else [])
      invariant scene.frame == if nodeType == Joint && keyframeIndex > 0 then keys[keyframeIndex - 1] else old(scene.frame)
    {
      var time := times[keyframeIndex];
      var rotation := SampleRotationQuaternion(curves, nodeType, host, jointPose, scene, keys[keyframeIndex]);
      PrefixSnoc(framesBefore, keys, keyframeIndex);
      TrackSnoc(times, values, keyframeIndex, rotation);
      result := result[time := rotation];
      ghost var prev := values;
      values := values + [rotation];
      forall k | 0 <= k <= keyframeIndex
        ensures values[k] == QuaternionAt(curves, nodeType, host, jointPose, keys[k])
      {
        if k < keyframeIndex {
          assert values[k] == prev[k];
        }
      }
    }
    assert keys[..|keys|] == keys && times[..|times|] == times;
  }

  /**
   * animate_rotation_quaternion. The dictionary is filled by writing `values[k]` under `order[k]`
   * for k = 0, 1, ...; `order` is the keys' times, ascending when fps > 0.
   */
  method AnimateRotationQuaternion(curves: seq<Option<Curve>>, interpolation: Option<Mode>, nodeType: NodeType,
      host: Host, jointPose: real -> Decomposition, scene: Scene, fps: real)
    returns (result: map<real, seq<real>>, ghost order: seq<real>, ghost values: seq<seq<real>>)
    requires interpolation == Some(ConversionNeeded) ==> HasPresent(curves)
    requires nodeType == PlainNode ==> PresentWithin(curves, 4)
    requires fps != 0.0
    modifies scene
    ensures IsTrack(result, GatheredKeys(curves, interpolation), fps, frame => QuaternionAt(curves, nodeType, host, jointPose, frame))
    ensures scene.framesSet == old(scene.framesSet) + (if nodeType == Joint then GatheredKeys(curves, interpolation) else [])
    ensures var keys := GatheredKeys(curves, interpolation);
            scene.frame == if nodeType == Joint && |keys| > 0 then keys[|keys| - 1] else old(scene.frame)
    ensures |order| == |GatheredKeys(curves, interpolation)| && |values| == |order| && result == Track(order, values)
    ensures forall k :: 0 <= k < |order| ==> order[k] == GatheredKeys(curves, interpolation)[k] / fps
    ensures fps > 0.0 ==> StrictlyIncreasing(order)
  {
    var keys := GatherKeys(curves, interpolation);
    var times := ConvertKeys(keys, fps);
    StrictlyIncreasingDistinct(keys);
    result, values := QuaternionTrack(curves, nodeType, host, jointPose, scene, keys, times);
    TrackOfSamples(keys, fps, times, values, frame => QuaternionAt(curves, nodeType, host, jointPose, frame));
    order := times;
  }

  /** One iteration of animate_scale's key loop: the scale at `frame`. */
  method SampleScale(curves: seq<Option<Curve>>, nodeType: NodeType, host: Host,
      jointPose: real -> Decomposition, scene: Scene, frame: real)
    returns (scaleData: seq<real>)
    requires nodeType == PlainNode ==> PresentWithin(curves, 3)
    modifies scene
    ensures scaleData == ScaleAt(curves, nodeType, host, jointPose, frame)
    ensures scene.framesSet == old(scene.framesSet) + (if nodeType == Joint then [frame] else [])
    ensures scene.frame == if nodeType == Joint then frame else old(scene.frame)
  {
    if nodeType == Joint {
      scene.FrameSet(frame);
      scaleData := jointPose(scene.frame).scale;
    } else {
      var slots := FillSlots(curves, frame, ScaleDefault, host.evaluate);
      assert slots == Slots(curves, frame, ScaleDefault, host.evaluate);
      scaleData := host.swizzleScale(slots);
    }
  }

  /** The key loop of animate_scale: one sample per key; a joint sets the scene frame at each key in order. */
  method ScaleTrack(curves: seq<Option<Curve>>, nodeType: NodeType, host: Host,
      jointPose: real -> Decomposition, scene: Scene, keys: seq<real>, times: seq<real>)
    returns (result: map<real, seq<real>>, ghost values: seq<seq<real>>)
    requires |times| == |keys|
    requires nodeType == PlainNode ==> PresentWithin(curves, 3)
    modifies scene
    ensures |values| == |keys| && result == Track(times, values)
    ensures forall k :: 0 <= k < |keys| ==> values[k] == ScaleAt(curves, nodeType, host, jointPose, keys[k])
    ensures scene.framesSet == old(scene.framesSet) + (if nodeType == Joint then keys else [])
    ensures scene.frame == if nodeType == Joint && |keys| > 0 then keys[|keys| - 1] else old(scene.frame)
  {
    result := map[];
    values := [];
    ghost var framesBefore := scene.framesSet;
    for keyframeIndex := 0 to |times|
      invariant |values| == keyframeIndex
      invariant result == Track(times[..keyframeIndex], values)
      invariant forall k :: 0 <= k < keyframeIndex ==> values[k] == ScaleAt(curves, nodeType, host, jointPose, keys[k])
      invariant scene.framesSet == framesBefore + (if nodeType == Joint then keys[..keyframeIndex] else [])
      invariant scene.frame == if nodeType == Joint && keyframeIndex > 0 then keys[keyframeIndex - 1] else old(scene.frame)
    {
      var time := times[keyframeIndex];
      var scaleData := SampleScale(curves, nodeType, host, jointPose, scene, keys[keyframeIndex]);
      PrefixSnoc(framesBefore, keys, keyframeIndex);
      TrackSnoc(times, values, keyframeIndex, scaleData);
      result := result[time := scaleData];
      ghost var prev := values;
      values := values + [scaleData];
      forall k | 0 <= k <= keyframeIndex
        ensures values[k] == ScaleAt(curves, nodeType, host, jointPose, keys[k])
      {
        if k < keyframeIndex {
          assert values[k] == prev[k];
        }
      }
    }
    assert keys[..|keys|] == keys && times[..|times|] == times;
  }

  /**
   * animate_scale. The dictionary is filled by writing `values[k]` under `order[k]`
   * for k = 0, 1, ...; `order` is the keys' times, ascending when fps > 0.
   */
  method AnimateScale(curves: seq<Option<Curve>>, interpolation: Option<Mode>, nodeType: NodeType,
      host: Host, jointPose: real -> Decomposition, scene: Scene, fps: real)
    returns (result: map<real, seq<real>>, ghost order: seq<real>, ghost values: seq<seq<real>>)
    requires interpolation == Some(ConversionNeeded) ==> HasPresent(curves)
    requires nodeType == PlainNode ==> PresentWithin(curves, 3)
    requires fps != 0.0
    modifies scene
    ensures IsTrack(result, GatheredKeys(curves, interpolation), fps, frame => ScaleAt(curves, nodeType, host, jointPose, frame))
    ensures scene.framesSet == old(scene.framesSet) + (if nodeType == Joint then GatheredKeys(curves, interpolation) else [])
    ensures var keys := GatheredKeys(curves, interpolation);
            scene.frame == if nodeType == Joint && |keys| > 0 then keys[|keys| - 1] else old(scene.frame)
    ensures |order| == |GatheredKeys(curves, interpolation)| && |values| == |order| && result == Track(order, values)
    ensures forall k :: 0 <= k < |order| ==> order[k] == GatheredKeys(curves, interpolation)[k] / fps
    ensures fps > 0.0 ==> StrictlyIncreasing(order)
  {
    var keys := GatherKeys(curves, interpolation);
    var times := ConvertKeys(keys, fps);
    StrictlyIncreasingDistinct(keys);
    result, values := ScaleTrack(curves, nodeType, host, jointPose, scene, keys, times);
    TrackOfSamples(keys, fps, times, values, frame => ScaleAt(curves, nodeType, host, jointPose, frame));
    order := times;
  }
}
