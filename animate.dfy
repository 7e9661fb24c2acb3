/**
 * Key gathering of the glTF animation exporter (gltf2_animate.py): the
 * interpolation classifier, the two ways the frame list is built, and the
 * conversion from frames to seconds.
 *
 * Host floats are modelled as `real`, so `key += 1.0` and `key / fps` are exact.
 */
module Animate {
  import opened Wrappers

  /** The interpolation tag of a host keyframe: 'LINEAR', 'CONSTANT', or any other ('BEZIER', ...). */
  datatype Interpolation = Linear | Constant | Other

  /** A host keyframe point; `time` and `value` are its `co[0]` and `co[1]`. */
  datatype Keyframe = Keyframe(time: real, value: real, interpolation: Interpolation)

  /** The pair the host's `range()` reports for a curve. */
  datatype Range = Range(lo: real, hi: real)

  /** A host F-curve. The exporter only reads it. */
  datatype Curve = Curve(keyframes: seq<Keyframe>, range: Range)

  /** The classifier's answers 'LINEAR', 'STEP' and 'CONVERSION_NEEDED'; Python's None is `None`. */
  datatype Mode = LinearMode | StepMode | ConversionNeeded

  // ------------------------------------------------------------------ curves

  function CurveKeyframes(c: Option<Curve>): seq<Keyframe> {
    if c.Some? then c.value.keyframes else []
  }

  /** The keyframes of the present curves, curve after curve; absent slots contribute nothing. */
  function PresentKeyframes(curves: seq<Option<Curve>>): seq<Keyframe>
    decreases |curves|
  {
    if curves == [] then []
    else PresentKeyframes(curves[..|curves| - 1]) + CurveKeyframes(curves[|curves| - 1])
  }

  predicate HasPresent(curves: seq<Option<Curve>>) {
    exists i :: 0 <= i < |curves| && curves[i].Some?
  }

  lemma PresentKeyframesStep(curves: seq<Option<Curve>>, i: nat)
    requires i < |curves|
    ensures PresentKeyframes(curves[..i + 1]) == PresentKeyframes(curves[..i]) + CurveKeyframes(curves[i])
  {
    assert curves[..i + 1][..i] == curves[..i];
  }

  lemma {:induction false} PresentKeyframesAppend(a: seq<Option<Curve>>, b: seq<Option<Curve>>)
    ensures PresentKeyframes(a + b) == PresentKeyframes(a) + PresentKeyframes(b)
    decreases |b|
  {
    if b == [] {
      assert a + b == a;
    } else {
      var b', last := b[..|b| - 1], b[|b| - 1];
      assert (a + b)[..|a + b| - 1] == a + b' && (a + b)[|a + b| - 1] == last;
      assert PresentKeyframes(a + b) == PresentKeyframes(a + b') + CurveKeyframes(last);
      assert PresentKeyframes(b) == PresentKeyframes(b') + CurveKeyframes(last);
      PresentKeyframesAppend(a, b');
    }
  }

  /** A keyframe is gathered exactly when it belongs to one of the present curves. */
  lemma {:induction false} PresentKeyframesMembers(curves: seq<Option<Curve>>, kf: Keyframe)
    ensures kf in PresentKeyframes(curves) <==>
            exists i :: 0 <= i < |curves| && curves[i].Some? && kf in curves[i].value.keyframes
    decreases |curves|
  {
    if curves != [] {
      var n := |curves| - 1;
      PresentKeyframesMembers(curves[..n], kf);
      if kf in PresentKeyframes(curves) && kf !in PresentKeyframes(curves[..n]) {
        assert curves[n].Some? && kf in curves[n].value.keyframes;
      }
      if exists i :: 0 <= i < |curves| && curves[i].Some? && kf in curves[i].value.keyframes {
        var i :| 0 <= i < |curves| && curves[i].Some? && kf in curves[i].value.keyframes;
        if i < n {
          assert curves[..n][i] == curves[i];
        }
      }
    }
  }

  // -------------------------------------------------------------- classifier

  /** Where the scan of animate_get_interpolation stands: still looping with the mode so far, or returned. */
  datatype ScanState = Scanning(mode: Option<Mode>) | Returned(result: Mode)

  /** The effect of one keyframe's tag on the scan. */
  function Advance(st: ScanState, tag: Interpolation): ScanState {
    match st
    case Returned(_) => st
    case Scanning(None) =>
      if tag == Linear then Scanning(Some(LinearMode))
      else if tag == Constant then Scanning(Some(StepMode))
      else Returned(ConversionNeeded)
    case Scanning(Some(m)) =>
      if tag == Linear && m != LinearMode then Returned(ConversionNeeded)
      else if tag == Constant && m != StepMode then Returned(ConversionNeeded)
      else if tag != Linear && tag != Constant then Returned(ConversionNeeded)
      else st
  }

  /** The scan over a keyframe sequence, one keyframe after the other. */
  function Run(st: ScanState, kfs: seq<Keyframe>): ScanState
    decreases |kfs|
  {
    if kfs == [] then st else Advance(Run(st, kfs[..|kfs| - 1]), kfs[|kfs| - 1].interpolation)
  }

  function Answer(st: ScanState): Option<Mode> {
    match st
    case Scanning(m) => m
    case Returned(m) => Some(m)
  }

  /** What the classifier returns when its mode variable starts at `initial`. */
  function Classify(initial: Option<Mode>, curves: seq<Option<Curve>>): Option<Mode> {
    Answer(Run(Scanning(initial), PresentKeyframes(curves)))
  }

  predicate AllTagged(kfs: seq<Keyframe>, tag: Interpolation) {
    forall k :: 0 <= k < |kfs| ==> kfs[k].interpolation == tag
  }

  lemma {:induction false} RunAppend(st: ScanState, a: seq<Keyframe>, b: seq<Keyframe>)
    ensures Run(st, a + b) == Run(Run(st, a), b)
    decreases |b|
  {
    if b == [] {
      assert a + b == a;
    } else {
      assert (a + b)[..|a + b| - 1] == a + b[..|b| - 1];
      RunAppend(st, a, b[..|b| - 1]);
    }
  }

  /** Once the scan has returned, no further keyframe changes its answer. */
  lemma {:induction false} RunReturned(m: Mode, kfs: seq<Keyframe>)
    ensures Run(Returned(m), kfs) == Returned(m)
    decreases |kfs|
  {
    if kfs != [] {
      RunReturned(m, kfs[..|kfs| - 1]);
    }
  }

  /**
   * Started at 'CONVERSION_NEEDED', the scan returns at the very first keyframe
   * it meets, with 'CONVERSION_NEEDED'; with no keyframe at all it keeps that value.
   */
  lemma {:induction false} ConversionNeededAbsorbs(kfs: seq<Keyframe>)
    ensures Run(Scanning(Some(ConversionNeeded)), kfs) ==
            if kfs == [] then Scanning(Some(ConversionNeeded)) else Returned(ConversionNeeded)
    decreases |kfs|
  {
    if kfs != [] {
      ConversionNeededAbsorbs(kfs[..|kfs| - 1]);
    }
  }

  /** Whatever the initial mode, once the scan stands at 'CONVERSION_NEEDED' that is its answer. */
  lemma ConversionNeededIsFinal(initial: Option<Mode>, a: seq<Keyframe>, b: seq<Keyframe>)
    requires Answer(Run(Scanning(initial), a)) == Some(ConversionNeeded)
    ensures Answer(Run(Scanning(initial), a + b)) == Some(ConversionNeeded)
  {
    RunAppend(Scanning(initial), a, b);
    if Run(Scanning(initial), a).Returned? {
      RunReturned(ConversionNeeded, b);
    } else {
      ConversionNeededAbsorbs(b);
    }
  }

  /** An absent curve slot never changes the classification. */
  lemma AbsentCurveIgnored(initial: Option<Mode>, a: seq<Option<Curve>>, b: seq<Option<Curve>>)
    ensures Classify(initial, a + [None] + b) == Classify(initial, a + b)
  {
    PresentKeyframesAppend(a + [None], b);
    PresentKeyframesAppend(a, b);
    assert (a + [None])[..|a|] == a;
    assert PresentKeyframes(a + [None]) == PresentKeyframes(a) + [];
    assert PresentKeyframes(a) + [] == PresentKeyframes(a);
  }

  /**
   * The classification the loop computes when it starts at None: None without
   * keyframes, 'LINEAR' or 'STEP' when every keyframe carries that tag, and
   * 'CONVERSION_NEEDED' otherwise.
   */
  lemma {:induction false} IntendedScan(kfs: seq<Keyframe>)
    ensures Run(Scanning(None), kfs) ==
            if kfs == [] then Scanning(None)
            else if AllTagged(kfs, Linear) then Scanning(Some(LinearMode))
            else if AllTagged(kfs, Constant) then Scanning(Some(StepMode))
            else Returned(ConversionNeeded)
    decreases |kfs|
  {
    if kfs != [] {
      var n := |kfs| - 1;
      var p := kfs[..n];
      IntendedScan(p);
      assert forall tag :: AllTagged(kfs, tag) <==> AllTagged(p, tag) && kfs[n].interpolation == tag by {
        forall tag ensures AllTagged(kfs, tag) <==> AllTagged(p, tag) && kfs[n].interpolation == tag {
          if AllTagged(p, tag) && kfs[n].interpolation == tag {
            forall k | 0 <= k < |kfs| ensures kfs[k].interpolation == tag {
              if k < n {
                assert kfs[k] == p[k];
              }
            }
          }
        }
      }
      if p != [] && AllTagged(p, Linear) {
        assert !AllTagged(p, Constant) by { assert p[0].interpolation == Linear; }
      }
      if p != [] && !AllTagged(p, Linear) && !AllTagged(p, Constant) {
        RunReturned(ConversionNeeded, [kfs[n]]);
      }
    }
  }

  /**
   * The loop of animate_get_interpolation, with the starting value of its
   * `interpolation` variable as a parameter. Absent curves are skipped; the
   * loop returns early at the first keyframe that takes a returning branch.
   */
  method ScanInterpolation(curves: seq<Option<Curve>>, initial: Option<Mode>) returns (interpolation: Option<Mode>)
    ensures interpolation == Classify(initial, curves)
  {
    interpolation := initial;
    for i := 0 to |curves|
      invariant Run(Scanning(initial), PresentKeyframes(curves[..i])) == Scanning(interpolation)
    {
      PresentKeyframesStep(curves, i);
      if curves[i].None? {
        assert PresentKeyframes(curves[..i + 1]) == PresentKeyframes(curves[..i]);
        continue;
      }
      RunAppend(Scanning(initial), PresentKeyframes(curves[..i]), curves[i].value.keyframes);
      var stop: bool;
      interpolation, stop := ScanKeyframes(curves[i].value.keyframes, interpolation);
      if stop {
        EarlyReturn(initial, curves, i);
        return;
      }
    }
    assert curves[..|curves|] == curves;
  }

  /**
   * The inner loop of animate_get_interpolation over one curve's keyframes:
   * the value of `interpolation` afterwards, and whether the function
   * returned it from inside the loop.
   */
  method ScanKeyframes(keyframes: seq<Keyframe>, interpolation: Option<Mode>) returns (next: Option<Mode>, stop: bool)
    ensures stop ==> Run(Scanning(interpolation), keyframes) == Returned(ConversionNeeded) && next == Some(ConversionNeeded)
    ensures !stop ==> Run(Scanning(interpolation), keyframes) == Scanning(next)
  {
    next, stop := interpolation, false;
    for j := 0 to |keyframes|
      invariant Run(Scanning(interpolation), keyframes[..j]) == Scanning(next)
    {
      assert keyframes[..j + 1][..j] == keyframes[..j];
      next, stop := KeyframeStep(next, keyframes[j].interpolation);
      if stop {
        ReturnedStaysReturned(Scanning(interpolation), keyframes[..j + 1], keyframes[j + 1..]);
        assert keyframes[..j + 1] + keyframes[j + 1..] == keyframes;
        return;
      }
    }
    assert keyframes[..|keyframes|] == keyframes;
  }

  /**
   * The body of the inner loop of animate_get_interpolation for one keyframe:
   * the new value of `interpolation`, and whether the loop returns it now.
   */
  method KeyframeStep(interpolation: Option<Mode>, tag: Interpolation) returns (next: Option<Mode>, stop: bool)
    ensures stop ==> Advance(Scanning(interpolation), tag) == Returned(ConversionNeeded) && next == Some(ConversionNeeded)
    ensures !stop ==> Advance(Scanning(interpolation), tag) == Scanning(next)
  {
    next, stop := interpolation, false;
    if interpolation == None {
      if tag == Linear {
        next := Some(LinearMode);
      } else if tag == Constant {
        next := Some(StepMode);
      } else {
        next, stop := Some(ConversionNeeded), true;
      }
    } else {
      if tag == Linear && interpolation != Some(LinearMode) {
        next, stop := Some(ConversionNeeded), true;
      } else if tag == Constant && interpolation != Some(StepMode) {
        next, stop := Some(ConversionNeeded), true;
      } else if tag != Linear && tag != Constant {
        next, stop := Some(ConversionNeeded), true;
      }
    }
  }

  /** A return from inside curve i's keyframes is the classifier's answer. */
  lemma EarlyReturn(initial: Option<Mode>, curves: seq<Option<Curve>>, i: nat)
    requires i < |curves|
    requires Run(Scanning(initial), PresentKeyframes(curves[..i + 1])) == Returned(ConversionNeeded)
    ensures Classify(initial, curves) == Some(ConversionNeeded)
  {
    ReturnedStaysReturned(Scanning(initial), PresentKeyframes(curves[..i + 1]), PresentKeyframes(curves[i + 1..]));
    SplitAfterCurve(curves, i);
  }

  lemma ReturnedStaysReturned(st: ScanState, a: seq<Keyframe>, b: seq<Keyframe>)
    requires Run(st, a).Returned?
    ensures Run(st, a + b) == Run(st, a)
  {
    RunAppend(st, a, b);
    RunReturned(Run(st, a).result, b);
  }

  lemma SplitAfterCurve(curves: seq<Option<Curve>>, i: nat)
    requires i < |curves|
    ensures PresentKeyframes(curves[..i + 1]) + PresentKeyframes(curves[i + 1..]) == PresentKeyframes(curves)
  {
    assert curves == curves[..i + 1] + curves[i + 1..];
    PresentKeyframesAppend(curves[..i + 1], curves[i + 1..]);
  }

  /**
   * animate_get_interpolation as written: its mode starts at
   * 'CONVERSION_NEEDED', so the None branch is never taken and the answer is
   * 'CONVERSION_NEEDED' for every curve group, empty or not.
   */
  method GetInterpolation(curves: seq<Option<Curve>>) returns (interpolation: Option<Mode>)
    ensures interpolation == Some(ConversionNeeded)
  {
    interpolation := ScanInterpolation(curves, Some(ConversionNeeded));
    ConversionNeededAbsorbs(PresentKeyframes(curves));
  }

  /** The classifier as evidently intended: the mode starts at None. */
  method GetInterpolationIntended(curves: seq<Option<Curve>>) returns (interpolation: Option<Mode>)
    ensures var kfs := PresentKeyframes(curves);
            && (interpolation == None <==> kfs == [])
            && (interpolation == Some(LinearMode) <==> kfs != [] && AllTagged(kfs, Linear))
            && (interpolation == Some(StepMode) <==> kfs != [] && AllTagged(kfs, Constant))
            && (interpolation == Some(ConversionNeeded) <==>
                kfs != [] && !AllTagged(kfs, Linear) && !AllTagged(kfs, Constant))
  {
    interpolation := ScanInterpolation(curves, None);
    IntendedScan(PresentKeyframes(curves));
  }

  /** One curve whose two keyframes are both 'LINEAR': the code says 'CONVERSION_NEEDED', the intent 'LINEAR'. */
  lemma UniformLinearCurveNeedsConversion()
    ensures var curves := [Some(Curve([Keyframe(0.0, 0.0, Linear), Keyframe(10.0, 1.0, Linear)], Range(0.0, 10.0)))];
            Classify(Some(ConversionNeeded), curves) == Some(ConversionNeeded)
            && Classify(None, curves) == Some(LinearMode)
  {
    var kfs := [Keyframe(0.0, 0.0, Linear), Keyframe(10.0, 1.0, Linear)];
    var curves := [Some(Curve(kfs, Range(0.0, 10.0)))];
    assert curves[..0] == [];
    assert PresentKeyframes(curves) == kfs;
    ConversionNeededAbsorbs(kfs);
    IntendedScan(kfs);
  }

  // ------------------------------------------------------ key gathering: grid

  function Min(a: real, b: real): real { if b < a then b else a }
  function Max(a: real, b: real): real { if b > a then b else a }

  /** `start` of animate_gather_keys: the least `range()[0]` of the present curves, None when there is none. */
  function RangeStart(curves: seq<Option<Curve>>): Option<real>
    decreases |curves|
  {
    if curves == [] then None
    else
      var s := RangeStart(curves[..|curves| - 1]);
      var c := curves[|curves| - 1];
      if c.None? then s
      else if s.None? then Some(c.value.range.lo)
      else Some(Min(s.value, c.value.range.lo))
  }

  /** `end` of animate_gather_keys: the greatest `range()[1]` of the present curves, None when there is none. */
  function RangeEnd(curves: seq<Option<Curve>>): Option<real>
    decreases |curves|
  {
    if curves == [] then None
    else
      var e := RangeEnd(curves[..|curves| - 1]);
      var c := curves[|curves| - 1];
      if c.None? then e
      else if e.None? then Some(c.value.range.hi)
      else Some(Max(e.value, c.value.range.hi))
  }

  /**
   * `start` and `end` exist exactly when some curve is present; `start` is
   * then the minimum of the present curves' range starts and `end` the maximum
   * of their range ends, each attained by some present curve.
   */
  lemma {:induction false} RangeBounds(curves: seq<Option<Curve>>)
    ensures RangeStart(curves).Some? <==> HasPresent(curves)
    ensures RangeEnd(curves).Some? <==> HasPresent(curves)
    ensures RangeStart(curves).Some? ==>
            (forall i :: 0 <= i < |curves| && curves[i].Some? ==> RangeStart(curves).value <= curves[i].value.range.lo)
            && (exists i :: 0 <= i < |curves| && curves[i].Some? && RangeStart(curves).value == curves[i].value.range.lo)
    ensures RangeEnd(curves).Some? ==>
            (forall i :: 0 <= i < |curves| && curves[i].Some? ==> curves[i].value.range.hi <= RangeEnd(curves).value)
            && (exists i :: 0 <= i < |curves| && curves[i].Some? && RangeEnd(curves).value == curves[i].value.range.hi)
    decreases |curves|
  {
    if curves != [] {
      var n := |curves| - 1;
      var p := curves[..n];
      RangeBounds(p);
      assert forall i :: 0 <= i < n ==> p[i] == curves[i];
      if HasPresent(p) {
        var k :| 0 <= k < n && p[k].Some?;
        assert curves[k].Some?;
      }
      if HasPresent(curves) && curves[n].None? {
        var k :| 0 <= k < |curves| && curves[k].Some?;
        assert p[k].Some?;
      }
      if RangeStart(p).Some? {
        var k :| 0 <= k < n && p[k].Some? && RangeStart(p).value == p[k].value.range.lo;
        assert curves[k].Some? && RangeStart(p).value == curves[k].value.range.lo;
      }
      if RangeEnd(p).Some? {
        var k :| 0 <= k < n && p[k].Some? && RangeEnd(p).value == p[k].value.range.hi;
        assert curves[k].Some? && RangeEnd(p).value == curves[k].value.range.hi;
      }
    }
  }

  /** How many keys the `while key <= end` loop appends. */
  function GridCount(start: real, end: real): nat {
    if start <= end then (end - start).Floor + 1 else 0
  }

  /** The unit-step frames start, start + 1, ... that do not exceed `end`. */
  function Grid(start: real, end: real): seq<real> {
    seq(GridCount(start, end), i => start + i as real)
  }

  /**
   * The grid begins at `start`, successive keys differ by exactly one frame,
   * every key is at most `end`, one more step would pass `end`, and the grid is
   * non-empty exactly when `start <= end`.
   */
  lemma GridShape(start: real, end: real)
    ensures var g := Grid(start, end);
            && (|g| > 0 <==> start <= end)
            && (|g| > 0 ==> g[0] == start && g[|g| - 1] + 1.0 > end)
            && (forall i :: 0 < i < |g| ==> g[i] - g[i - 1] == 1.0)
            && (forall i :: 0 <= i < |g| ==> g[i] <= end)
  {
    var g := Grid(start, end);
    if start <= end {
      var f := (end - start).Floor;
      assert f as real <= end - start < f as real + 1.0;
      assert g[|g| - 1] == start + f as real;
      forall i | 0 <= i < |g| ensures g[i] <= end {
        assert i <= f;
      }
    }
  }

  // ---------------------------------------------------- key gathering: union

  predicate Sorted(s: seq<real>) {
    forall i, j :: 0 <= i < j < |s| ==> s[i] <= s[j]
  }

  predicate Distinct(s: seq<real>) {
    forall i, j :: 0 <= i < j < |s| ==> s[i] != s[j]
  }

  predicate StrictlyIncreasing(s: seq<real>) {
    forall i, j :: 0 <= i < j < |s| ==> s[i] < s[j]
  }

  function KeyTimes(kfs: seq<Keyframe>): seq<real> {
    seq(|kfs|, k requires 0 <= k < |kfs| => kfs[k].time)
  }

  /**
   * The list built by `if t not in keys: keys.append(t)`: every time once, in
   * order of first appearance.
   */
  function Dedup(s: seq<real>): (r: seq<real>)
    ensures Distinct(r)
    ensures forall x :: x in r <==> x in s
    decreases |s|
  {
    if s == [] then []
    else
      var d := Dedup(s[..|s| - 1]);
      var x := s[|s| - 1];
      assert s == s[..|s| - 1] + [x];
      if x in d then d else d + [x]
  }

  lemma DedupStep(s: seq<real>, x: real)
    ensures Dedup(s + [x]) == if x in Dedup(s) then Dedup(s) else Dedup(s) + [x]
  {
    assert (s + [x])[..|s|] == s;
  }

  /** Inserts `x` into a sorted list before the first element not below it. */
  function Insert(s: seq<real>, x: real): (r: seq<real>)
    requires Sorted(s)
    ensures Sorted(r)
    ensures multiset(r) == multiset(s) + multiset{x}
    decreases |s|
  {
    if s == [] then [x]
    else if x <= s[0] then [x] + s
    else
      var rest := Insert(s[1..], x);
      assert s == [s[0]] + s[1..];
      InsertAfterHead(s[0], s[1..], x, rest);
      [s[0]] + rest
  }

  lemma InsertAfterHead(h: real, tail: seq<real>, x: real, rest: seq<real>)
    requires Sorted([h] + tail) && h < x
    requires Sorted(rest) && multiset(rest) == multiset(tail) + multiset{x}
    ensures Sorted([h] + rest)
  {
    forall y | y in rest ensures h <= y {
      assert y in multiset(rest);
      if y != x {
        assert y in multiset(tail);
        assert y in tail;
        var k :| 0 <= k < |tail| && tail[k] == y;
        assert ([h] + tail)[k + 1] == y && ([h] + tail)[0] == h;
      }
    }
    var r := [h] + rest;
    forall i, j | 0 <= i < j < |r| ensures r[i] <= r[j] {
      if i > 0 {
        assert r[i] == rest[i - 1] && r[j] == rest[j - 1];
      } else {
        assert r[j] in rest;
      }
    }
  }

  /** Python's in-place `keys.sort()`, stated as the ascending permutation of its input. */
  function SortAscending(s: seq<real>): (r: seq<real>)
    ensures Sorted(r)
    ensures multiset(r) == multiset(s)
    decreases |s|
  {
    if s == [] then []
    else
      assert s == s[..|s| - 1] + [s[|s| - 1]];
      Insert(SortAscending(s[..|s| - 1]), s[|s| - 1])
  }

  /** A sorted permutation of a list without duplicates is strictly increasing. */
  lemma SortedDistinctIsStrict(s: seq<real>, r: seq<real>)
    requires Distinct(s) && Sorted(r) && multiset(r) == multiset(s)
    ensures StrictlyIncreasing(r)
  {
    forall i, j | 0 <= i < j < |r| ensures r[i] < r[j] {
      if r[i] == r[j] {
        assert r == r[..j] + [r[j]] + r[j + 1..];
        assert r[i] in r[..j];
        assert multiset(r)[r[j]] >= 2 by {
          assert multiset(r) == multiset(r[..j]) + multiset{r[j]} + multiset(r[j + 1..]);
          assert multiset(r[..j])[r[j]] >= 1;
        }
        DistinctCountsOne(s, r[j]);
      }
    }
  }

  lemma {:induction false} DistinctCountsOne(s: seq<real>, x: real)
    requires Distinct(s)
    ensures multiset(s)[x] <= 1
    decreases |s|
  {
    if s != [] {
      var n := |s| - 1;
      assert s == s[..n] + [s[n]];
      assert Distinct(s[..n]);
      DistinctCountsOne(s[..n], x);
      if x == s[n] {
        assert x !in s[..n];
      }
    }
  }

  // ---------------------------------------------------------- key gathering

  /** The frame list animate_gather_keys returns. */
  function GatheredKeys(curves: seq<Option<Curve>>, interpolation: Option<Mode>): seq<real>
    requires interpolation == Some(ConversionNeeded) ==> HasPresent(curves)
  {
    if interpolation == Some(ConversionNeeded) then
      RangeBounds(curves);
      Grid(RangeStart(curves).value, RangeEnd(curves).value)
    else
      SortAscending(Dedup(KeyTimes(PresentKeyframes(curves))))
  }

  /** In both branches the frame list is strictly increasing, so no frame is sampled twice. */
  lemma GatheredKeysStrictlyIncreasing(curves: seq<Option<Curve>>, interpolation: Option<Mode>)
    requires interpolation == Some(ConversionNeeded) ==> HasPresent(curves)
    ensures StrictlyIncreasing(GatheredKeys(curves, interpolation))
  {
    if interpolation != Some(ConversionNeeded) {
      var d := Dedup(KeyTimes(PresentKeyframes(curves)));
      SortedDistinctIsStrict(d, SortAscending(d));
    }
  }

  /**
   * 'CONVERSION_NEEDED' branch: a one-frame grid from the least range start of
   * the present curves, every key at most their greatest range end, and one
   * step more would pass it.
   */
  lemma GatheredKeysGrid(curves: seq<Option<Curve>>)
    requires HasPresent(curves)
    ensures RangeStart(curves).Some? && RangeEnd(curves).Some?
    ensures var keys := GatheredKeys(curves, Some(ConversionNeeded));
            var start, end := RangeStart(curves).value, RangeEnd(curves).value;
            && (|keys| > 0 <==> start <= end)
            && (|keys| > 0 ==> keys[0] == start && keys[|keys| - 1] + 1.0 > end)
            && (forall i :: 0 < i < |keys| ==> keys[i] - keys[i - 1] == 1.0)
            && (forall i :: 0 <= i < |keys| ==> keys[i] <= end)
  {
    RangeBounds(curves);
    GridShape(RangeStart(curves).value, RangeEnd(curves).value);
  }

  /**
   * The other branch: the keys are exactly the keyframe times `co[0]` of the
   * present curves.
   */
  lemma GatheredKeysUnion(curves: seq<Option<Curve>>, interpolation: Option<Mode>, x: real)
    requires interpolation != Some(ConversionNeeded)
    ensures x in GatheredKeys(curves, interpolation) <==>
            exists i, k :: 0 <= i < |curves| && curves[i].Some? && 0 <= k < |curves[i].value.keyframes|
                           && curves[i].value.keyframes[k].time == x
  {
    var d := Dedup(KeyTimes(PresentKeyframes(curves)));
    assert x in GatheredKeys(curves, interpolation) <==> x in multiset(d);
    KeyTimesMembers(curves, x);
  }

  lemma KeyTimesMembers(curves: seq<Option<Curve>>, x: real)
    ensures x in KeyTimes(PresentKeyframes(curves)) <==>
            exists i, k :: 0 <= i < |curves| && curves[i].Some? && 0 <= k < |curves[i].value.keyframes|
                           && curves[i].value.keyframes[k].time == x
  {
    var kfs := PresentKeyframes(curves);
    if x in KeyTimes(kfs) {
      var m :| 0 <= m < |kfs| && KeyTimes(kfs)[m] == x;
      PresentKeyframesMembers(curves, kfs[m]);
      var i :| 0 <= i < |curves| && curves[i].Some? && kfs[m] in curves[i].value.keyframes;
      var k :| 0 <= k < |curves[i].value.keyframes| && curves[i].value.keyframes[k] == kfs[m];
    }
    if exists i, k :: 0 <= i < |curves| && curves[i].Some? && 0 <= k < |curves[i].value.keyframes|
                      && curves[i].value.keyframes[k].time == x {
      var i, k :| 0 <= i < |curves| && curves[i].Some? && 0 <= k < |curves[i].value.keyframes|
                  && curves[i].value.keyframes[k].time == x;
      var kf := curves[i].value.keyframes[k];
      PresentKeyframesMembers(curves, kf);
      var m :| 0 <= m < |kfs| && kfs[m] == kf;
      assert KeyTimes(kfs)[m] == x;
    }
  }

  lemma KeyTimesAppend(a: seq<Keyframe>, b: seq<Keyframe>)
    ensures KeyTimes(a + b) == KeyTimes(a) + KeyTimes(b)
  {
  }

  /** animate_gather_keys. Its 'CONVERSION_NEEDED' branch fails unless some curve is present. */
  method GatherKeys(curves: seq<Option<Curve>>, interpolation: Option<Mode>) returns (keys: seq<real>)
    requires interpolation == Some(ConversionNeeded) ==> HasPresent(curves)
    ensures keys == GatheredKeys(curves, interpolation)
    ensures StrictlyIncreasing(keys)
  {
    if interpolation == Some(ConversionNeeded) {
      keys := GatherGridKeys(curves);
    } else {
      keys := GatherKeyframeTimes(curves);
      keys := SortAscending(keys);
    }
    GatheredKeysStrictlyIncreasing(curves, interpolation);
  }

  /** The range loop of the 'CONVERSION_NEEDED' branch: the lowest start and highest end over the present curves. */
  method CurveBounds(curves: seq<Option<Curve>>) returns (start: Option<real>, end: Option<real>)
    ensures start == RangeStart(curves) && end == RangeEnd(curves)
  {
    start, end := None, None;
    for i := 0 to |curves|
      invariant start == RangeStart(curves[..i]) && end == RangeEnd(curves[..i])
    {
      assert curves[..i + 1][..i] == curves[..i];
      if curves[i].None? {
        continue;
      }
      var range := curves[i].value.range;
      if start == None {
        start := Some(range.lo);
      } else {
        start := Some(Min(start.value, range.lo));
      }
      if end == None {
        end := Some(range.hi);
      } else {
        end := Some(Max(end.value, range.hi));
      }
    }
    assert curves[..|curves|] == curves;
  }

  /** The 'CONVERSION_NEEDED' branch: every frame from `start` while it is at most `end`, in steps of 1.0. */
  method GatherGridKeys(curves: seq<Option<Curve>>) returns (keys: seq<real>)
    requires HasPresent(curves)
    ensures RangeStart(curves).Some? && RangeEnd(curves).Some?
    ensures keys == Grid(RangeStart(curves).value, RangeEnd(curves).value)
  {
    var start, end := CurveBounds(curves);
    RangeBounds(curves);
    keys := [];
    var key := start.value;
    ghost var grid := Grid(start.value, end.value);
    while key <= end.value
      invariant key == start.value + |keys| as real
      invariant |keys| <= |grid|
      invariant keys == grid[..|keys|]
      decreases |grid| - |keys|
    {
      assert |keys| < |grid| by {
        var f := (end.value - start.value).Floor;
        assert end.value - start.value < f as real + 1.0;
      }
      keys := keys + [key];
      key := key + 1.0;
    }
    assert |keys| == |grid| by {
      if start.value <= end.value {
        var f := (end.value - start.value).Floor;
        assert f as real <= end.value - start.value;
      }
    }
  }

  /** The inner loop of that branch: append each keyframe time of one curve that is not yet in `keys`. */
  method AddKeyframeTimes(keys: seq<real>, keyframes: seq<Keyframe>, ghost seen: seq<Keyframe>) returns (added: seq<real>)
    requires keys == Dedup(KeyTimes(seen))
    ensures added == Dedup(KeyTimes(seen + keyframes))
  {
    added := keys;
    assert seen + keyframes[..0] == seen;
    for j := 0 to |keyframes|
      invariant added == Dedup(KeyTimes(seen + keyframes[..j]))
    {
      var t := keyframes[j].time;
      ghost var before := added;
      if t !in added {
        added := added + [t];
      }
      NextKeyframeTime(seen, keyframes, j, before, added);
    }
    assert keyframes[..|keyframes|] == keyframes;
  }

  /** One more keyframe adds its time to the de-duplicated list exactly when the time is new. */
  lemma NextKeyframeTime(seen: seq<Keyframe>, keyframes: seq<Keyframe>, j: nat, d: seq<real>, d': seq<real>)
    requires j < |keyframes| && d == Dedup(KeyTimes(seen + keyframes[..j]))
    requires d' == if keyframes[j].time in d then d else d + [keyframes[j].time]
    ensures d' == Dedup(KeyTimes(seen + keyframes[..j + 1]))
  {
    var before := seen + keyframes[..j];
    assert seen + keyframes[..j + 1] == before + [keyframes[j]];
    KeyTimesAppend(before, [keyframes[j]]);
    assert KeyTimes([keyframes[j]]) == [keyframes[j].time];
    DedupStep(KeyTimes(before), keyframes[j].time);
  }

  /** The other branch before its sort: each keyframe time of the present curves, appended when not yet seen. */
  method GatherKeyframeTimes(curves: seq<Option<Curve>>) returns (keys: seq<real>)
    ensures keys == Dedup(KeyTimes(PresentKeyframes(curves)))
  {
    keys := [];
    for i := 0 to |curves|
      invariant keys == Dedup(KeyTimes(PresentKeyframes(curves[..i])))
    {
      PresentKeyframesStep(curves, i);
      if curves[i].None? {
        assert PresentKeyframes(curves[..i + 1]) == PresentKeyframes(curves[..i]);
        continue;
      }
      keys := AddKeyframeTimes(keys, curves[i].value.keyframes, PresentKeyframes(curves[..i]));
    }
    assert curves[..|curves|] == curves;
  }

  // -------------------------------------------------------- time conversion

  lemma DivisionInjective(a: real, b: real, fps: real)
    requires fps != 0.0 && a / fps == b / fps
    ensures a == b
  {
    assert a == (a / fps) * fps;
    assert b == (b / fps) * fps;
  }

  lemma DivisionMonotone(a: real, b: real, fps: real)
    requires fps > 0.0 && a < b
    ensures a / fps < b / fps
  {
    assert b / fps - a / fps == (b - a) / fps;
  }

  /**
   * animate_convert_keys: every frame divided by the scene frame rate. The
   * frame rate is never 0 (the host keeps it at least 1); distinct frames give
   * distinct times, and with a positive rate the order is kept.
   */
  method ConvertKeys(keys: seq<real>, fps: real) returns (times: seq<real>)
    requires fps != 0.0
    ensures |times| == |keys|
    ensures forall i :: 0 <= i < |keys| ==> times[i] == keys[i] / fps
    ensures Distinct(keys) ==> Distinct(times)
    ensures fps > 0.0 && StrictlyIncreasing(keys) ==> StrictlyIncreasing(times)
  {
    times := [];
    for i := 0 to |keys|
      invariant |times| == i
      invariant forall k :: 0 <= k < i ==> times[k] == keys[k] / fps
    {
      times := times + [keys[i] / fps];
    }
    forall i, j | 0 <= i < j < |keys| && times[i] == times[j] ensures keys[i] == keys[j] {
      DivisionInjective(keys[i], keys[j], fps);
    }
    if fps > 0.0 && StrictlyIncreasing(keys) {
      forall i, j | 0 <= i < j < |keys| ensures times[i] < times[j] {
        DivisionMonotone(keys[i], keys[j], fps);
      }
    }
  }

  // ------------------------------------------------------ worked examples

  /** Resampling a curve over frames 0 to 2.4 samples frames 0, 1 and 2. */
  lemma ResampledFrames()
    ensures var curves := [Some(Curve([], Range(0.0, 2.4)))];
            HasPresent(curves) && GatheredKeys(curves, Some(ConversionNeeded)) == [0.0, 1.0, 2.0]
  {
    var curves := [Some(Curve([], Range(0.0, 2.4)))];
    assert curves[0].Some?;
    assert RangeStart(curves) == Some(0.0) && RangeEnd(curves) == Some(2.4);
    assert (2.4 - 0.0).Floor == 2;
  }

  /** Two curves keyed at frames 0, 5, 10 and 0, 3, 10 give the frames 0, 3, 5, 10. */
  lemma MergedFrames()
    ensures var curves := [Some(Curve([Keyframe(0.0, 0.0, Linear), Keyframe(5.0, 0.0, Linear), Keyframe(10.0, 0.0, Linear)], Range(0.0, 10.0))),
                           Some(Curve([Keyframe(0.0, 0.0, Linear), Keyframe(3.0, 0.0, Linear), Keyframe(10.0, 0.0, Linear)], Range(0.0, 10.0)))];
            GatheredKeys(curves, Some(LinearMode)) == [0.0, 3.0, 5.0, 10.0]
  {
    var a := [Keyframe(0.0, 0.0, Linear), Keyframe(5.0, 0.0, Linear), Keyframe(10.0, 0.0, Linear)];
    var b := [Keyframe(0.0, 0.0, Linear), Keyframe(3.0, 0.0, Linear), Keyframe(10.0, 0.0, Linear)];
    var curves := [Some(Curve(a, Range(0.0, 10.0))), Some(Curve(b, Range(0.0, 10.0)))];
    TwoCurveTimes(curves, a, b);
    assert KeyTimes(a) + KeyTimes(b) == [0.0, 5.0, 10.0, 0.0, 3.0, 10.0];
    var g := GatheredKeys(curves, Some(LinearMode));
    GatheredKeysStrictlyIncreasing(curves, Some(LinearMode));
    MergedMembers();
    SameMembers(g, KeyTimes(PresentKeyframes(curves)), [0.0, 5.0, 10.0, 0.0, 3.0, 10.0], [0.0, 3.0, 5.0, 10.0]);
    IncreasingFour(0.0, 3.0, 5.0, 10.0);
    StrictlyIncreasingUnique(g, [0.0, 3.0, 5.0, 10.0]);
  }

  lemma TwoCurveTimes(curves: seq<Option<Curve>>, a: seq<Keyframe>, b: seq<Keyframe>)
    requires |curves| == 2 && curves[0].Some? && curves[1].Some?
    requires curves[0].value.keyframes == a && curves[1].value.keyframes == b
    ensures KeyTimes(PresentKeyframes(curves)) == KeyTimes(a) + KeyTimes(b)
  {
    PresentKeyframesAppend([curves[0]], [curves[1]]);
    assert [curves[0]] + [curves[1]] == curves;
    KeyTimesAppend(a, b);
  }

  lemma MergedMembers()
    ensures forall x :: x in [0.0, 5.0, 10.0, 0.0, 3.0, 10.0] <==> x in [0.0, 3.0, 5.0, 10.0]
  {
  }

  lemma IncreasingFour(a: real, b: real, c: real, d: real)
    requires a < b < c < d
    ensures StrictlyIncreasing([a, b, c, d])
  {
  }

  /** The sorted, de-duplicated list has the members of its input. */
  lemma SameMembers(g: seq<real>, times: seq<real>, literal: seq<real>, expected: seq<real>)
    requires g == SortAscending(Dedup(times)) && times == literal
    requires forall x :: x in literal <==> x in expected
    ensures forall x :: x in g <==> x in expected
  {
    forall x ensures x in g <==> x in Dedup(times) {
      assert x in g <==> x in multiset(g);
      assert x in Dedup(times) <==> x in multiset(Dedup(times));
    }
  }

  lemma EmptyMembers(s: seq<real>, t: seq<real>)
    requires forall x :: x in s <==> x in t
    ensures s == [] <==> t == []
  {
    if s != [] {
      var x := s[0];
      assert x in s;
      assert x in t;
    }
    if t != [] {
      var x := t[0];
      assert x in t;
      assert x in s;
    }
  }

  /** Two strictly increasing lists with the same members are the same list. */
  lemma {:induction false} StrictlyIncreasingUnique(s: seq<real>, t: seq<real>)
    requires StrictlyIncreasing(s) && StrictlyIncreasing(t)
    requires forall x :: x in s <==> x in t
    ensures s == t
    decreases |s|
  {
    EmptyMembers(s, t);
    if s != [] {
      SameHead(s, t);
      forall x ensures x in s[1..] <==> x in t[1..] {
        if x in s[1..] { TailMember(s, t, x); }
        if x in t[1..] { TailMember(t, s, x); }
      }
      StrictlyIncreasingUnique(s[1..], t[1..]);
      assert s == [s[0]] + s[1..] && t == [t[0]] + t[1..];
    }
  }

  /** The least member comes first in both lists. */
  lemma SameHead(s: seq<real>, t: seq<real>)
    requires StrictlyIncreasing(s) && StrictlyIncreasing(t) && s != [] && t != []
    requires forall x :: x in s <==> x in t
    ensures s[0] == t[0]
  {
    var x, y := s[0], t[0];
    assert x in s && y in t;
    assert x in t && y in s;
    var j :| 0 <= j < |t| && t[j] == x;
    var i :| 0 <= i < |s| && s[i] == y;
    assert s[0] <= s[i] && t[0] <= t[j];
  }

  /** A member after the head of one list is a member after the head of the other. */
  lemma TailMember(s: seq<real>, t: seq<real>, x: real)
    requires StrictlyIncreasing(s) && StrictlyIncreasing(t) && s != [] && t != [] && s[0] == t[0]
    requires forall x :: x in s <==> x in t
    requires x in s[1..]
    ensures x in t[1..]
  {
    var m :| 0 <= m < |s[1..]| && s[1..][m] == x;
    assert s[0] < s[m + 1];
    assert x in s;
    assert x in t;
    var n :| 0 <= n < |t| && t[n] == x;
    assert n != 0;
    assert t[1..][n - 1] == x;
  }
}
