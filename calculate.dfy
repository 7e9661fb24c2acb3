/**
 * Per-vertex tangents of a triangle mesh (gltf2_calculate.py, calculate_tangent).
 *
 * Each triangle with a non-zero UV determinant yields one normalised tangent,
 * which is accumulated into a dictionary keyed by the vertex's position
 * offset `3 * t`. If the dictionary covers as many vertices as there are
 * normals, a flat array of four numbers per vertex is produced.
 *
 * The accumulation stores the SAME `mathutils.Vector` object under every
 * vertex that first sees it, and later `+=` updates it in place, so one
 * triangle's tangent leaks into every vertex sharing that object. The code as
 * written is modelled with a mutable `Vector` class and, for its
 * specification, an explicit heap of vector values (`Accum`); the evidently
 * intended per-vertex sums are modelled by value (`TangentsIntended`).
 */
module Calculate {
  import opened Wrappers

  // ---------------------------------------------------------------- vectors

  datatype V3 = V3(x: real, y: real, z: real)
  datatype V2 = V2(x: real, y: real)

  const Zero := V3(0.0, 0.0, 0.0)

  function Add(a: V3, b: V3): V3 { V3(a.x + b.x, a.y + b.y, a.z + b.z) }
  function Sub(a: V3, b: V3): V3 { V3(a.x - b.x, a.y - b.y, a.z - b.z) }
  function Scale(a: V3, k: real): V3 { V3(a.x * k, a.y * k, a.z * k) }
  function Div(a: V3, d: real): V3 requires d != 0.0 { V3(a.x / d, a.y / d, a.z / d) }

  /** `Vector.normalize()` and `Vector.length`, whose square roots this model does not define. */
  datatype VectorOps = VectorOps(normalize: V3 -> V3, length: V3 -> real)

  /** A `mathutils.Vector` of three components, updated in place by `+=` and `normalize()`. */
  class Vector {
    var x: real
    var y: real
    var z: real

    constructor (v: V3)
      ensures Value() == v
    {
      x, y, z := v.x, v.y, v.z;
    }

    function Value(): V3
      reads this
    {
      V3(x, y, z)
    }

    /** `self += other`: the sum of the two current values, stored in this object. */
    method AddInPlace(other: Vector)
      modifies this
      ensures Value() == Add(old(Value()), old(other.Value()))
    {
      var v := Add(Value(), other.Value());
      x, y, z := v.x, v.y, v.z;
    }

    /** `self.normalize()`. */
    method NormalizeInPlace(ops: VectorOps)
      modifies this
      ensures Value() == ops.normalize(old(Value()))
    {
      var v := ops.normalize(Value());
      x, y, z := v.x, v.y, v.z;
    }
  }

  // -------------------------------------------------------------- primitive

  /** An exporter primitive: an index list and named flat float attributes. */
  datatype Primitive = Primitive(indices: seq<nat>, attributes: map<string, seq<real>>)

  const DefaultTexcoord := "TEXCOORD_0"

  /** The four lists the tangent pass reads. */
  datatype Buffers = Buffers(indices: seq<nat>, position: seq<real>, normal: seq<real>, texcoord: seq<real>)

  /**
   * What the triangle loop needs to run without an IndexError: whole triangles,
   * and every index addressing a position triple and a texcoord pair.
   */
  predicate Addressable(b: Buffers) {
    && |b.indices| % 3 == 0
    && (forall i :: 0 <= i < |b.indices| ==> 3 * b.indices[i] + 2 < |b.position| && 2 * b.indices[i] + 1 < |b.texcoord|)
  }

  function TriangleCount(b: Buffers): nat { |b.indices| / 3 }

  function Pos(b: Buffers, t: nat): V3
    requires 3 * t + 2 < |b.position|
  {
    V3(b.position[3 * t], b.position[3 * t + 1], b.position[3 * t + 2])
  }

  function Uv(b: Buffers, t: nat): V2
    requires 2 * t + 1 < |b.texcoord|
  {
    V2(b.texcoord[2 * t], b.texcoord[2 * t + 1])
  }

  /** The UV determinant of triangle k. */
  function Divisor(b: Buffers, k: nat): real
    requires Addressable(b) && k < TriangleCount(b)
  {
    var t0, t1, t2 := b.indices[3 * k], b.indices[3 * k + 1], b.indices[3 * k + 2];
    var du0 := V2(Uv(b, t1).x - Uv(b, t0).x, Uv(b, t1).y - Uv(b, t0).y);
    var du1 := V2(Uv(b, t2).x - Uv(b, t0).x, Uv(b, t2).y - Uv(b, t0).y);
    du0.x * du1.y - du0.y * du1.x
  }

  /** The normalised tangent of triangle k, or None when its UV determinant is exactly 0. */
  function TriangleTangent(ops: VectorOps, b: Buffers, k: nat): Option<V3>
    requires Addressable(b) && k < TriangleCount(b)
  {
    var d := Divisor(b, k);
    if d == 0.0 then None
    else
      var t0, t1, t2 := b.indices[3 * k], b.indices[3 * k + 1], b.indices[3 * k + 2];
      var dp0 := Sub(Pos(b, t1), Pos(b, t0));
      var dp1 := Sub(Pos(b, t2), Pos(b, t0));
      var du0y := Uv(b, t1).y - Uv(b, t0).y;
      var du1y := Uv(b, t2).y - Uv(b, t0).y;
      Some(ops.normalize(Div(Sub(Scale(dp0, du1y), Scale(dp1, du0y)), d)))
  }

  /** A triangle with a non-zero determinant has three distinct corners (repeated corners give determinant 0). */
  lemma NonDegenerateCornersDistinct(b: Buffers, k: nat)
    requires Addressable(b) && k < TriangleCount(b) && Divisor(b, k) != 0.0
    ensures b.indices[3 * k] != b.indices[3 * k + 1]
    ensures b.indices[3 * k] != b.indices[3 * k + 2]
    ensures b.indices[3 * k + 1] != b.indices[3 * k + 2]
  {
  }

  /** The dictionary keys the first n triangles create: 3 * t for each corner of a non-degenerate triangle. */
  function Touched(b: Buffers, n: nat): set<nat>
    requires Addressable(b) && n <= TriangleCount(b)
  {
    if n == 0 then {} else Touched(b, n - 1) + TriangleKeys(b, n - 1)
  }

  /** The keys triangle k touches: its three corners' offsets, or none when it is degenerate. */
  function TriangleKeys(b: Buffers, k: nat): set<nat>
    requires Addressable(b) && k < TriangleCount(b)
  {
    if Divisor(b, k) != 0.0 then {3 * b.indices[3 * k], 3 * b.indices[3 * k + 1], 3 * b.indices[3 * k + 2]} else {}
  }

  lemma {:induction false} TouchedMultiplesOfThree(b: Buffers, n: nat)
    requires Addressable(b) && n <= TriangleCount(b)
    ensures forall vi :: vi in Touched(b, n) ==> vi % 3 == 0 && 3 * (vi / 3) + 2 < |b.position|
  {
    if n > 0 {
      TouchedMultiplesOfThree(b, n - 1);
      var k := n - 1;
      assert 3 * k + 2 < |b.indices|;
      KeyOfCorner(b.indices[3 * k]);
      KeyOfCorner(b.indices[3 * k + 1]);
      KeyOfCorner(b.indices[3 * k + 2]);
    }
  }

  lemma KeyOfCorner(t: nat)
    ensures (3 * t) % 3 == 0 && (3 * t) / 3 == t
  {
  }

  // ------------------------------------------------ accumulation as written

  /**
   * The dictionary as the code leaves it, with vector objects made explicit:
   * `heap[id]` is the current value of the id-th vector allocated, `ref[vi]`
   * the object stored under key vi, and `order` the dictionary's insertion
   * order.
   */
  datatype Accum = Accum(order: seq<nat>, ref: map<nat, nat>, heap: seq<V3>)

  const EmptyAccum := Accum([], map[], [])

  /** Every key refers to an allocated vector. */
  ghost predicate RefsInHeap(a: Accum) {
    forall vi :: vi in a.ref ==> a.ref[vi] < |a.heap|
  }

  /** The insertion order lists every key exactly once. */
  ghost predicate OrderIsKeys(a: Accum) {
    && (forall i, j :: 0 <= i < j < |a.order| ==> a.order[i] != a.order[j])
    && (forall i :: 0 <= i < |a.order| ==> a.order[i] in a.ref)
    && (forall vi :: vi in a.ref ==> vi in a.order)
  }

  ghost predicate WellFormed(a: Accum) {
    RefsInHeap(a) && OrderIsKeys(a)
  }

  /**
   * The dictionary update for one corner key: a key seen before gets the tangent object's value
   * added, in place, to the object it already holds; a new key stores the
   * tangent object itself.
   */
  function Attach(a: Accum, vi: nat, id: nat): (r: Accum)
    requires RefsInHeap(a) && id < |a.heap|
    ensures RefsInHeap(r) && |r.heap| == |a.heap|
    ensures r.ref.Keys == a.ref.Keys + {vi}
  {
    if vi in a.ref then Accum(a.order, a.ref, a.heap[a.ref[vi] := Add(a.heap[a.ref[vi]], a.heap[id])])
    else Accum(a.order + [vi], a.ref[vi := id], a.heap)
  }

  /** Attaching keeps the insertion order in step with the keys: a new key is appended. */
  lemma AttachOrder(a: Accum, vi: nat, id: nat)
    requires WellFormed(a) && id < |a.heap|
    ensures WellFormed(Attach(a, vi, id))
  {
    if vi !in a.ref {
      var r := Attach(a, vi, id);
      forall u | u in r.ref
        ensures u in r.order
      {
        if u != vi {
          var i :| 0 <= i < |a.order| && a.order[i] == u;
          assert r.order[i] == u;
        } else {
          assert r.order[|a.order|] == u;
        }
      }
    }
  }

  /** One pass of the triangle loop: skip on a zero determinant, otherwise allocate the tangent and attach it to the three corners. */
  function StepAsWritten(ops: VectorOps, b: Buffers, a: Accum, k: nat): (r: Accum)
    requires Addressable(b) && k < TriangleCount(b) && RefsInHeap(a)
    ensures RefsInHeap(r)
  {
    match TriangleTangent(ops, b, k)
    case None => a
    case Some(tangent) => AttachTriangle(a, tangent, 3 * b.indices[3 * k], 3 * b.indices[3 * k + 1], 3 * b.indices[3 * k + 2])
  }

  /** Allocate the tangent object, then attach it under the three corner keys in order. */
  function AttachTriangle(a: Accum, tangent: V3, v0: nat, v1: nat, v2: nat): (r: Accum)
    requires RefsInHeap(a)
    ensures RefsInHeap(r)
  {
    var id := |a.heap|;
    var a0 := Accum(a.order, a.ref, a.heap + [tangent]);
    Attach(Attach(Attach(a0, v0, id), v1, id), v2, id)
  }

  /**
   * For three distinct corners: one object more, holding the tangent; each
   * absent corner points at the new object, and the keys already present keep
   * their objects.
   */
  lemma AttachTriangleShape(a: Accum, tangent: V3, v0: nat, v1: nat, v2: nat)
    requires RefsInHeap(a) && v0 != v1 && v0 != v2 && v1 != v2
    ensures var r := AttachTriangle(a, tangent, v0, v1, v2);
            && |r.heap| == |a.heap| + 1
            && r.heap[|a.heap|] == tangent
            && (forall vi :: vi in r.ref && vi !in a.ref ==> r.ref[vi] == |a.heap|)
            && (forall vi :: vi in a.ref ==> r.ref[vi] == a.ref[vi])
  {
    var id := |a.heap|;
    var a0 := Accum(a.order, a.ref, a.heap + [tangent]);
    AttachKeeps(a0, v0, id, a);
    var a1 := Attach(a0, v0, id);
    AttachKeeps(a1, v1, id, a);
    var a2 := Attach(a1, v1, id);
    AttachKeeps(a2, v2, id, a);
  }

  /** The three corners join the keys. */
  lemma AttachTriangleKeys(a: Accum, tangent: V3, v0: nat, v1: nat, v2: nat)
    requires RefsInHeap(a)
    ensures AttachTriangle(a, tangent, v0, v1, v2).ref.Keys == a.ref.Keys + {v0, v1, v2}
  {
    var id := |a.heap|;
    var a0 := Accum(a.order, a.ref, a.heap + [tangent]);
    var a1 := Attach(a0, v0, id);
    var a2 := Attach(a1, v1, id);
    assert Attach(a2, v2, id).ref.Keys == a.ref.Keys + {v0} + {v1} + {v2};
  }

  /** The dictionary after the first n triangles, as the code builds it. */
  function AccumulateAsWritten(ops: VectorOps, b: Buffers, n: nat): (r: Accum)
    requires Addressable(b) && n <= TriangleCount(b)
    ensures RefsInHeap(r)
  {
    if n == 0 then EmptyAccum else StepAsWritten(ops, b, AccumulateAsWritten(ops, b, n - 1), n - 1)
  }

  /** The insertion order of the accumulated dictionary lists each of its keys once. */
  lemma {:induction false} AccumulateWellFormed(ops: VectorOps, b: Buffers, n: nat)
    requires Addressable(b) && n <= TriangleCount(b)
    ensures WellFormed(AccumulateAsWritten(ops, b, n))
  {
    if n > 0 {
      var k := n - 1;
      var a := AccumulateAsWritten(ops, b, k);
      AccumulateWellFormed(ops, b, k);
      match TriangleTangent(ops, b, k)
      case None =>
      case Some(tangent) =>
        var id := |a.heap|;
        var a0 := Accum(a.order, a.ref, a.heap + [tangent]);
        AttachOrder(a0, 3 * b.indices[3 * k], id);
        var a1 := Attach(a0, 3 * b.indices[3 * k], id);
        AttachOrder(a1, 3 * b.indices[3 * k + 1], id);
        var a2 := Attach(a1, 3 * b.indices[3 * k + 1], id);
        AttachOrder(a2, 3 * b.indices[3 * k + 2], id);
    }
  }

  /** A degenerate triangle (determinant exactly 0) leaves the dictionary untouched. */
  lemma DegenerateSkipped(ops: VectorOps, b: Buffers, a: Accum, k: nat)
    requires Addressable(b) && k < TriangleCount(b) && RefsInHeap(a) && Divisor(b, k) == 0.0
    ensures StepAsWritten(ops, b, a, k) == a
  {
  }

  /** `v` after `n` in-place additions of `t`. */
  function AddRepeated(v: V3, t: V3, n: nat): V3 {
    if n == 0 then v else Add(AddRepeated(v, t, n - 1), t)
  }

  /** 1 when key vi is present and holds object `id`, else 0. */
  function Holder(a: Accum, vi: nat, id: nat): nat {
    if vi in a.ref && a.ref[vi] == id then 1 else 0
  }

  /**
   * For three distinct corners, every object allocated before the triangle
   * has the tangent added to it once per corner key that already held it.
   */
  lemma AttachTriangleSums(a: Accum, tangent: V3, v0: nat, v1: nat, v2: nat)
    requires RefsInHeap(a) && v0 != v1 && v0 != v2 && v1 != v2
    ensures var r := AttachTriangle(a, tangent, v0, v1, v2);
            forall id :: 0 <= id < |a.heap| ==>
              r.heap[id] == AddRepeated(a.heap[id], tangent, Holder(a, v0, id) + Holder(a, v1, id) + Holder(a, v2, id))
  {
    var newId := |a.heap|;
    var a0 := Accum(a.order, a.ref, a.heap + [tangent]);
    AttachKeeps(a0, v0, newId, a);
    var a1 := Attach(a0, v0, newId);
    AttachKeeps(a1, v1, newId, a);
    var a2 := Attach(a1, v1, newId);
    forall id | 0 <= id < |a.heap|
      ensures Attach(a2, v2, newId).heap[id] == AddRepeated(a.heap[id], tangent, Holder(a, v0, id) + Holder(a, v1, id) + Holder(a, v2, id))
    {
      AttachOneSum(a0, v0, a, tangent, id, 0);
      AttachOneSum(a1, v1, a, tangent, id, Holder(a, v0, id));
      AttachOneSum(a2, v2, a, tangent, id, Holder(a, v0, id) + Holder(a, v1, id));
    }
  }

  /**
   * One corner of the triangle whose object is `|base.heap|`: an object of
   * `base` that held m additions gains one more exactly when the corner held it.
   */
  lemma AttachOneSum(a: Accum, vi: nat, base: Accum, tangent: V3, id: nat, m: nat)
    requires RefsInHeap(a) && |base.heap| < |a.heap| && a.heap[|base.heap|] == tangent && id < |base.heap|
    requires forall u :: u in a.ref ==> if u in base.ref then a.ref[u] == base.ref[u] else a.ref[u] == |base.heap|
    requires vi in base.ref ==> vi in a.ref
    requires a.heap[id] == AddRepeated(base.heap[id], tangent, m)
    ensures Attach(a, vi, |base.heap|).heap[id] == AddRepeated(base.heap[id], tangent, m + Holder(base, vi, id))
  {
  }

  /**
   * A non-degenerate triangle allocates one vector holding its tangent; its
   * three corner keys are present afterwards, a corner that was absent now
   * holds that new vector, and no other key changes. The `+=` on a corner
   * already present works in place: every earlier vector gains the tangent
   * once for each of the triangle's corners that held it, and so does every
   * other key sharing that vector.
   */
  lemma NonDegenerateAttaches(ops: VectorOps, b: Buffers, a: Accum, k: nat)
    requires Addressable(b) && k < TriangleCount(b) && RefsInHeap(a) && Divisor(b, k) != 0.0
    ensures var r := StepAsWritten(ops, b, a, k);
            var t := TriangleTangent(ops, b, k).value;
            var c0, c1, c2 := 3 * b.indices[3 * k], 3 * b.indices[3 * k + 1], 3 * b.indices[3 * k + 2];
            && |r.heap| == |a.heap| + 1
            && r.ref.Keys == a.ref.Keys + {c0, c1, c2}
            && r.heap[|a.heap|] == t
            && (forall vi :: vi in {c0, c1, c2} && vi !in a.ref ==> r.ref[vi] == |a.heap|)
            && (forall vi :: vi in a.ref ==> r.ref[vi] == a.ref[vi])
            && (forall id :: 0 <= id < |a.heap| ==>
                  r.heap[id] == AddRepeated(a.heap[id], t, Holder(a, c0, id) + Holder(a, c1, id) + Holder(a, c2, id)))
  {
    var t := TriangleTangent(ops, b, k).value;
    var c0, c1, c2 := 3 * b.indices[3 * k], 3 * b.indices[3 * k + 1], 3 * b.indices[3 * k + 2];
    NonDegenerateCornersDistinct(b, k);
    assert StepAsWritten(ops, b, a, k) == AttachTriangle(a, t, c0, c1, c2);
    AttachTriangleShape(a, t, c0, c1, c2);
    AttachTriangleKeys(a, t, c0, c1, c2);
    AttachTriangleSums(a, t, c0, c1, c2);
  }

  /**
   * Attaching the new object `id` (one past the heap of `base`) leaves that
   * object's value alone, keeps the objects of the keys `base` had, and points
   * a new key at `id`.
   */
  lemma AttachKeeps(a: Accum, vi: nat, id: nat, base: Accum)
    requires RefsInHeap(a) && RefsInHeap(base) && id == |base.heap| && id < |a.heap|
    requires a.ref.Keys >= base.ref.Keys
    requires forall u :: u in a.ref ==> if u in base.ref then a.ref[u] == base.ref[u] else a.ref[u] == id
    requires vi !in base.ref ==> vi !in a.ref
    ensures var r := Attach(a, vi, id);
            && r.heap[id] == a.heap[id]
            && (forall u :: u in r.ref ==> if u in base.ref then r.ref[u] == base.ref[u] else r.ref[u] == id)
  {
  }

  /** The keys of the dictionary are exactly the corners of the non-degenerate triangles, each 3 * t. */
  lemma {:induction false} AccumulateKeys(ops: VectorOps, b: Buffers, n: nat)
    requires Addressable(b) && n <= TriangleCount(b)
    ensures AccumulateAsWritten(ops, b, n).ref.Keys == Touched(b, n)
  {
    if n > 0 {
      var k := n - 1;
      AccumulateKeys(ops, b, k);
      StepKeys(ops, b, AccumulateAsWritten(ops, b, k), k);
    }
  }

  lemma StepKeys(ops: VectorOps, b: Buffers, a: Accum, k: nat)
    requires Addressable(b) && k < TriangleCount(b) && RefsInHeap(a)
    ensures StepAsWritten(ops, b, a, k).ref.Keys == a.ref.Keys + TriangleKeys(b, k)
  {
    if Divisor(b, k) != 0.0 {
      NonDegenerateAttaches(ops, b, a, k);
    } else {
      DegenerateSkipped(ops, b, a, k);
    }
  }

  // ---------------------------------------------------- finishing as written

  /** `(n.z, n.x, n.y)` of the normal stored at offset vi. */
  function Fallback(normal: seq<real>, vi: nat): V3
    requires vi + 2 < |normal|
  {
    V3(normal[vi + 2], normal[vi], normal[vi + 1])
  }

  /** The heap after the finishing loop's in-place normalisations, and the tangent written for each key. */
  datatype Finished = Finished(heap: seq<V3>, written: map<nat, V3>)

  /** Every key reads a normal triple. */
  predicate NormalsFor(keys: set<nat>, normal: seq<real>) {
    forall vi :: vi in keys ==> vi + 2 < |normal|
  }

  /**
   * The finishing loop's choice of tangent over the first k keys in insertion order: a non-zero vector is
   * normalised in place (so every key sharing it sees the normalised value) and
   * written; a zero-length one is replaced by the fallback.
   */
  function FinishAsWritten(ops: VectorOps, a: Accum, normal: seq<real>, k: nat): (f: Finished)
    requires RefsInHeap(a) && OrderReadable(a, normal) && k <= |a.order|
    ensures |f.heap| == |a.heap|
  {
    if k == 0 then Finished(a.heap, map[])
    else
      var f := FinishAsWritten(ops, a, normal, k - 1);
      var vi := a.order[k - 1];
      var id := a.ref[vi];
      var v := f.heap[id];
      if ops.length(v) != 0.0 then Finished(f.heap[id := ops.normalize(v)], f.written[vi := ops.normalize(v)])
      else Finished(f.heap, f.written[vi := Fallback(normal, vi)])
  }

  /** Every key in the insertion order is a key of the dictionary and has a normal triple. */
  ghost predicate OrderReadable(a: Accum, normal: seq<real>) {
    forall i :: 0 <= i < |a.order| ==> a.order[i] in a.ref && a.order[i] + 2 < |normal|
  }

  /** After the first k keys in insertion order, exactly those keys have been written. */
  lemma {:induction false} FinishWrittenKeys(ops: VectorOps, a: Accum, normal: seq<real>, k: nat)
    requires RefsInHeap(a) && OrderReadable(a, normal) && k <= |a.order|
    ensures forall vi :: vi in FinishAsWritten(ops, a, normal, k).written <==> vi in a.order[..k]
  {
    if k > 0 {
      FinishWrittenKeys(ops, a, normal, k - 1);
      assert a.order[..k] == a.order[..k - 1] + [a.order[k - 1]];
    }
  }

  /** The finishing step at each key: normalised current value when its length is non-zero, the fallback otherwise. */
  lemma FinishStep(ops: VectorOps, a: Accum, normal: seq<real>, k: nat)
    requires RefsInHeap(a) && OrderReadable(a, normal) && k < |a.order|
    ensures var f := FinishAsWritten(ops, a, normal, k);
            var vi := a.order[k];
            var v := f.heap[a.ref[vi]];
            FinishAsWritten(ops, a, normal, k + 1).written[vi] ==
              if ops.length(v) != 0.0 then ops.normalize(v) else Fallback(normal, vi)
  {
  }

  // ----------------------------------------------------------------- layout

  function Component(t: V3, c: nat): real {
    if c == 0 then t.x else if c == 1 then t.y else if c == 2 then t.z else 1.0
  }

  /**
   * `[0.0] * 4 * count` after writing, for each key vi, the tangent's x, y, z
   * and the constant 1.0 at `(vi // 3) * 4` onwards.
   */
  function Layout(written: map<nat, V3>, count: nat): (r: seq<real>)
    ensures |r| == 4 * count
  {
    seq(4 * count, j requires 0 <= j < 4 * count =>
      if 3 * (j / 4) in written then Component(written[3 * (j / 4)], j % 4) else 0.0)
  }

  /** Writing one more key (a multiple of 3 inside the array) changes exactly its four slots. */
  lemma LayoutWrite(written: map<nat, V3>, count: nat, vi: nat, t: V3)
    requires vi % 3 == 0 && vi / 3 < count
    ensures var ti := (vi / 3) * 4;
            Layout(written[vi := t], count) ==
              Layout(written, count)[ti := t.x][ti + 1 := t.y][ti + 2 := t.z][ti + 3 := 1.0]
  {
    var ti := (vi / 3) * 4;
    var l := Layout(written[vi := t], count);
    var r := Layout(written, count)[ti := t.x][ti + 1 := t.y][ti + 2 := t.z][ti + 3 := 1.0];
    forall j | 0 <= j < 4 * count
      ensures l[j] == r[j]
    {
      if ti <= j < ti + 4 {
        assert j / 4 == vi / 3 && j % 4 == j - ti;
        assert 3 * (j / 4) == vi;
      } else {
        assert 3 * (j / 4) != vi;
      }
    }
  }

  // ------------------------------------------------------------ whole pass

  /** Every key lookup the source makes succeeds. */
  predicate Readable(prim: Option<Primitive>, texcoordId: string) {
    prim.Some? && texcoordId in prim.value.attributes ==>
      "POSITION" in prim.value.attributes && "NORMAL" in prim.value.attributes
  }

  function BuffersOf(prim: Primitive, texcoordId: string): Buffers
    requires Readable(Some(prim), texcoordId) && texcoordId in prim.attributes
  {
    Buffers(prim.indices, prim.attributes["POSITION"], prim.attributes["NORMAL"], prim.attributes[texcoordId])
  }

  /**
   * What `calculate_tangent` needs to run without an exception: lookups succeed,
   * triangles are addressable, and when the count check passes every touched
   * vertex has a normal.
   */
  predicate Runs(prim: Option<Primitive>, texcoordId: string) {
    && Readable(prim, texcoordId)
    && (prim.Some? && texcoordId in prim.value.attributes ==>
          var b := BuffersOf(prim.value, texcoordId);
          && Addressable(b)
          && (|Touched(b, TriangleCount(b))| * 3 == |b.normal| ==> NormalsFor(Touched(b, TriangleCount(b)), b.normal)))
  }

  /** The result of `calculate_tangent` as written. */
  function TangentsAsWritten(ops: VectorOps, prim: Option<Primitive>, texcoordId: string): Option<seq<real>>
    requires Runs(prim, texcoordId)
  {
    if prim.None? || texcoordId !in prim.value.attributes then None
    else
      var b := BuffersOf(prim.value, texcoordId);
      var a := AccumulateAsWritten(ops, b, TriangleCount(b));
      AccumulateKeys(ops, b, TriangleCount(b));
      AccumulateWellFormed(ops, b, TriangleCount(b));
      if |a.ref| * 3 != |b.normal| then None
      else Some(Layout(FinishAsWritten(ops, a, b.normal, |a.order|).written, |a.ref|))
  }

  /** The same pass as `TangentsAsWritten`, with the per-vertex sums of the intended value semantics. */
  function TangentsIntended(ops: VectorOps, prim: Option<Primitive>, texcoordId: string): Option<seq<real>>
    requires Runs(prim, texcoordId)
  {
    if prim.None? || texcoordId !in prim.value.attributes then None
    else
      var b := BuffersOf(prim.value, texcoordId);
      var sums := AccumulateIntended(ops, b, TriangleCount(b));
      AccumulateIntendedKeys(ops, b, TriangleCount(b));
      if |sums| * 3 != |b.normal| then None
      else Some(Layout(FinishIntended(ops, sums, b.normal), |sums|))
  }

  // ------------------------------------------------------- intended values

  /** Add a tangent into the sum kept for key vi, starting the sum when vi is new. */
  function AddAt(sums: map<nat, V3>, vi: nat, t: V3): map<nat, V3> {
    sums[vi := if vi in sums then Add(sums[vi], t) else t]
  }

  function StepIntended(ops: VectorOps, b: Buffers, sums: map<nat, V3>, k: nat): map<nat, V3>
    requires Addressable(b) && k < TriangleCount(b)
  {
    match TriangleTangent(ops, b, k)
    case None => sums
    case Some(t) => AddAt(AddAt(AddAt(sums, 3 * b.indices[3 * k], t), 3 * b.indices[3 * k + 1], t), 3 * b.indices[3 * k + 2], t)
  }

  /** Per-vertex tangent sums over the first n triangles, each vertex owning its own value. */
  function AccumulateIntended(ops: VectorOps, b: Buffers, n: nat): map<nat, V3>
    requires Addressable(b) && n <= TriangleCount(b)
  {
    if n == 0 then map[] else StepIntended(ops, b, AccumulateIntended(ops, b, n - 1), n - 1)
  }

  /** Reference definition: the sum, over the first n triangles, of the tangents of those with a corner at key vi. */
  function TangentSum(ops: VectorOps, b: Buffers, n: nat, vi: nat): V3
    requires Addressable(b) && n <= TriangleCount(b)
  {
    if n == 0 then Zero
    else
      var k := n - 1;
      var t := TriangleTangent(ops, b, k);
      Add(TangentSum(ops, b, k, vi), if t.Some? && vi in TriangleKeys(b, k) then t.value else Zero)
  }

  lemma {:induction false} TangentSumUntouched(ops: VectorOps, b: Buffers, n: nat, vi: nat)
    requires Addressable(b) && n <= TriangleCount(b) && vi !in Touched(b, n)
    ensures TangentSum(ops, b, n, vi) == Zero
  {
    if n > 0 {
      TangentSumUntouched(ops, b, n - 1, vi);
    }
  }

  /** The intended sums have the same keys as the code's dictionary. */
  lemma {:induction false} AccumulateIntendedKeys(ops: VectorOps, b: Buffers, n: nat)
    requires Addressable(b) && n <= TriangleCount(b)
    ensures AccumulateIntended(ops, b, n).Keys == Touched(b, n)
  {
    if n > 0 {
      AccumulateIntendedKeys(ops, b, n - 1);
      StepIntendedKeys(ops, b, AccumulateIntended(ops, b, n - 1), n - 1);
    }
  }

  lemma StepIntendedKeys(ops: VectorOps, b: Buffers, sums: map<nat, V3>, k: nat)
    requires Addressable(b) && k < TriangleCount(b)
    ensures StepIntended(ops, b, sums, k).Keys == sums.Keys + TriangleKeys(b, k)
  {
    match TriangleTangent(ops, b, k)
    case None =>
    case Some(t) =>
      var v0, v1, v2 := 3 * b.indices[3 * k], 3 * b.indices[3 * k + 1], 3 * b.indices[3 * k + 2];
      AddAtKeys(sums, v0, t);
      AddAtKeys(AddAt(sums, v0, t), v1, t);
      AddAtKeys(AddAt(AddAt(sums, v0, t), v1, t), v2, t);
  }

  lemma AddAtKeys(sums: map<nat, V3>, vi: nat, t: V3)
    ensures AddAt(sums, vi, t).Keys == sums.Keys + {vi}
  {
  }

  /** Each intended sum is the reference sum of the tangents of the triangles at that vertex. */
  lemma {:induction false} AccumulateIntendedSums(ops: VectorOps, b: Buffers, n: nat)
    requires Addressable(b) && n <= TriangleCount(b)
    ensures forall vi :: vi in AccumulateIntended(ops, b, n) ==> AccumulateIntended(ops, b, n)[vi] == TangentSum(ops, b, n, vi)
  {
    if n > 0 {
      var k := n - 1;
      AccumulateIntendedSums(ops, b, k);
      AccumulateIntendedKeys(ops, b, k);
      var sums := AccumulateIntended(ops, b, k);
      if Divisor(b, k) != 0.0 {
        NonDegenerateCornersDistinct(b, k);
        var t := TriangleTangent(ops, b, k).value;
        var v0, v1, v2 := 3 * b.indices[3 * k], 3 * b.indices[3 * k + 1], 3 * b.indices[3 * k + 2];
        var r := AccumulateIntended(ops, b, n);
        assert r == AddAt(AddAt(AddAt(sums, v0, t), v1, t), v2, t);
        assert TriangleKeys(b, k) == {v0, v1, v2};
        forall vi | vi in r
          ensures r[vi] == TangentSum(ops, b, n, vi)
        {
          AddCorners(sums, v0, v1, v2, t, vi);
          TangentSumStep(ops, b, k, vi, t);
          if vi !in sums {
            TangentSumUntouched(ops, b, k, vi);
          }
        }
      }
    }
  }

  /** One more non-degenerate triangle adds its tangent to the sums of its corners. */
  lemma TangentSumStep(ops: VectorOps, b: Buffers, k: nat, vi: nat, t: V3)
    requires Addressable(b) && k < TriangleCount(b) && TriangleTangent(ops, b, k) == Some(t)
    ensures TangentSum(ops, b, k + 1, vi) == Add(TangentSum(ops, b, k, vi), if vi in TriangleKeys(b, k) then t else Zero)
  {
  }

  /** Adding one triangle's tangent at three distinct corners, seen from one key. */
  lemma AddCorners(sums: map<nat, V3>, v0: nat, v1: nat, v2: nat, t: V3, vi: nat)
    requires v0 != v1 && v0 != v2 && v1 != v2
    requires vi in AddAt(AddAt(AddAt(sums, v0, t), v1, t), v2, t)
    ensures var r := AddAt(AddAt(AddAt(sums, v0, t), v1, t), v2, t);
            if vi in sums then r[vi] == Add(sums[vi], if vi in {v0, v1, v2} then t else Zero)
            else vi in {v0, v1, v2} && r[vi] == Add(Zero, t)
  {
  }

  /** The finishing rule for one vertex, applied to its own sum. */
  function FinishVertex(ops: VectorOps, sum: V3, normal: seq<real>, vi: nat): V3
    requires vi + 2 < |normal|
  {
    if ops.length(sum) != 0.0 then ops.normalize(sum) else Fallback(normal, vi)
  }

  function FinishIntended(ops: VectorOps, sums: map<nat, V3>, normal: seq<real>): (written: map<nat, V3>)
    requires NormalsFor(sums.Keys, normal)
    ensures written.Keys == sums.Keys
  {
    map vi | vi in sums :: FinishVertex(ops, sums[vi], normal, vi)
  }

  // ------------------------------------------------------------ coverage

  function Multiples(n: nat): set<nat> {
    set v: nat | v < n :: 3 * v
  }

  lemma {:induction false} MultiplesCount(n: nat)
    ensures |Multiples(n)| == n
  {
    if n > 0 {
      MultiplesCount(n - 1);
      assert Multiples(n) == Multiples(n - 1) + {3 * (n - 1)};
      assert 3 * (n - 1) !in Multiples(n - 1);
    }
  }

  /**
   * n distinct keys, all multiples of 3 with a normal triple inside a normal
   * list of 3 * n numbers, are exactly 0, 3, ..., 3 * (n - 1).
   */
  lemma Coverage(keys: set<nat>, n: nat)
    requires |keys| == n
    requires forall vi :: vi in keys ==> vi % 3 == 0 && vi + 2 < 3 * n
    ensures forall v :: 0 <= v < n ==> 3 * v in keys
  {
    var all := Multiples(n);
    MultiplesCount(n);
    forall vi | vi in keys
      ensures vi in all
    {
      assert vi == 3 * (vi / 3);
    }
    assert keys * all == keys && keys + all == all;
    assert |all - keys| == 0;
    forall v | 0 <= v < n
      ensures 3 * v in keys
    {
      assert 3 * v in all;
    }
  }

  // ------------------------------------------------------ result shape

  /**
   * What both versions promise about their result: None for a missing
   * primitive or texcoord attribute; otherwise a result exactly when the
   * dictionary has one key per normal triple (all or nothing), four numbers per
   * key, and w = 1.0 for every vertex.
   */
  ghost predicate Shaped(r: Option<seq<real>>, prim: Option<Primitive>, texcoordId: string)
    requires Runs(prim, texcoordId)
  {
    if prim.None? || texcoordId !in prim.value.attributes then r.None?
    else
      var b := BuffersOf(prim.value, texcoordId);
      var touched := Touched(b, TriangleCount(b));
      && (r.Some? <==> |touched| * 3 == |b.normal|)
      && (r.Some? ==> && |r.value| == 4 * |touched|
                      && 3 * |r.value| == 4 * |b.normal|
                      && (forall j :: 0 <= j < |r.value| && j % 4 == 3 ==> r.value[j] == 1.0))
  }

  /** A layout over keys 0, 3, ..., 3 * (count - 1) has 1.0 in every fourth slot. */
  lemma LayoutCovered(written: map<nat, V3>, count: nat)
    requires forall v :: 0 <= v < count ==> 3 * v in written
    ensures forall j :: 0 <= j < 4 * count && j % 4 == 3 ==> Layout(written, count)[j] == 1.0
  {
  }

  /** The keys touched by a primitive that passes the count check are 0, 3, ..., 3 * (count - 1). */
  lemma TouchedCovers(prim: Primitive, texcoordId: string)
    requires Runs(Some(prim), texcoordId) && texcoordId in prim.attributes
    ensures var b := BuffersOf(prim, texcoordId);
            var touched := Touched(b, TriangleCount(b));
            |touched| * 3 == |b.normal| ==> forall v :: 0 <= v < |touched| ==> 3 * v in touched
  {
    var b := BuffersOf(prim, texcoordId);
    var touched := Touched(b, TriangleCount(b));
    if |touched| * 3 == |b.normal| {
      TouchedMultiplesOfThree(b, TriangleCount(b));
      Coverage(touched, |touched|);
    }
  }

  lemma AsWrittenShaped(ops: VectorOps, prim: Option<Primitive>, texcoordId: string)
    requires Runs(prim, texcoordId)
    ensures Shaped(TangentsAsWritten(ops, prim, texcoordId), prim, texcoordId)
  {
    if prim.Some? && texcoordId in prim.value.attributes {
      var b := BuffersOf(prim.value, texcoordId);
      var n := TriangleCount(b);
      var a := AccumulateAsWritten(ops, b, n);
      AccumulateKeys(ops, b, n);
      AccumulateWellFormed(ops, b, n);
      TouchedCovers(prim.value, texcoordId);
      if |a.ref| * 3 == |b.normal| {
        var written := FinishAsWritten(ops, a, b.normal, |a.order|).written;
        FinishWrittenKeys(ops, a, b.normal, |a.order|);
        assert a.order[..|a.order|] == a.order;
        LayoutCovered(written, |a.ref|);
      }
    }
  }

  lemma IntendedShaped(ops: VectorOps, prim: Option<Primitive>, texcoordId: string)
    requires Runs(prim, texcoordId)
    ensures Shaped(TangentsIntended(ops, prim, texcoordId), prim, texcoordId)
  {
    if prim.Some? && texcoordId in prim.value.attributes {
      var b := BuffersOf(prim.value, texcoordId);
      var n := TriangleCount(b);
      AccumulateIntendedKeys(ops, b, n);
      TouchedCovers(prim.value, texcoordId);
      var sums := AccumulateIntended(ops, b, n);
      if |sums| * 3 == |b.normal| {
        LayoutCovered(FinishIntended(ops, sums, b.normal), |sums|);
      }
    }
  }

  /** Triangles that are all degenerate create no dictionary key. */
  lemma {:induction false} DegenerateTouchesNothing(b: Buffers, n: nat)
    requires Addressable(b) && n <= TriangleCount(b)
    requires forall k :: 0 <= k < n ==> Divisor(b, k) == 0.0
    ensures Touched(b, n) == {}
  {
    if n > 0 {
      DegenerateTouchesNothing(b, n - 1);
    }
  }

  /**
   * A mesh whose every triangle has UV determinant 0 yields no tangents at all
   * (as long as it has a normal): the empty dictionary fails the count check.
   */
  lemma DegenerateMeshHasNoTangents(ops: VectorOps, prim: Primitive, texcoordId: string)
    requires Runs(Some(prim), texcoordId) && texcoordId in prim.attributes
    requires var b := BuffersOf(prim, texcoordId);
             && |b.normal| > 0
             && forall k :: 0 <= k < TriangleCount(b) ==> Divisor(b, k) == 0.0
    ensures TangentsAsWritten(ops, Some(prim), texcoordId).None?
    ensures TangentsIntended(ops, Some(prim), texcoordId).None?
  {
    var b := BuffersOf(prim, texcoordId);
    DegenerateTouchesNothing(b, TriangleCount(b));
    AsWrittenShaped(ops, Some(prim), texcoordId);
    IntendedShaped(ops, Some(prim), texcoordId);
  }

  /** The key whose tangent the layout writes at slot j. */
  function SlotKey(j: nat): nat { 3 * (j / 4) }

  /**
   * The intended result, vertex by vertex: slot 4 * v + c holds component c of
   * the normalised sum of the tangents of the triangles at vertex v, or of the
   * fallback (n.z, n.x, n.y) when that sum has length 0, and w = 1.0.
   */
  lemma IntendedVertices(ops: VectorOps, prim: Option<Primitive>, texcoordId: string, r: seq<real>)
    requires Runs(prim, texcoordId) && TangentsIntended(ops, prim, texcoordId) == Some(r)
    ensures prim.Some? && texcoordId in prim.value.attributes
    ensures var b := BuffersOf(prim.value, texcoordId);
            Addressable(b) &&
            forall j: nat :: j < |r| ==>
              SlotKey(j) + 2 < |b.normal| &&
              r[j] == Component(FinishVertex(ops, TangentSum(ops, b, TriangleCount(b), SlotKey(j)), b.normal, SlotKey(j)), j % 4)
  {
    var b := BuffersOf(prim.value, texcoordId);
    var n := TriangleCount(b);
    var sums := AccumulateIntended(ops, b, n);
    AccumulateIntendedKeys(ops, b, n);
    assert r == Layout(FinishIntended(ops, sums, b.normal), |sums|);
    TouchedCovers(prim.value, texcoordId);
    IntendedLayout(ops, b);
    forall j: nat | j < |r|
      ensures SlotKey(j) + 2 < |b.normal|
      ensures r[j] == Component(FinishVertex(ops, TangentSum(ops, b, n, SlotKey(j)), b.normal, SlotKey(j)), j % 4)
    {
      IntendedSumAt(ops, b, n, SlotKey(j));
    }
  }

  /** The intended layout reads, in slot j, the finished sum of vertex j / 4. */
  lemma IntendedLayout(ops: VectorOps, b: Buffers)
    requires Addressable(b)
    requires var touched := Touched(b, TriangleCount(b));
             && |touched| * 3 == |b.normal| && NormalsFor(touched, b.normal)
             && forall v :: 0 <= v < |touched| ==> 3 * v in touched
    ensures var sums := AccumulateIntended(ops, b, TriangleCount(b));
            && NormalsFor(sums.Keys, b.normal)
            && forall j :: 0 <= j < 4 * |sums| ==>
                 && 3 * (j / 4) in sums
                 && Layout(FinishIntended(ops, sums, b.normal), |sums|)[j] ==
                    Component(FinishVertex(ops, sums[3 * (j / 4)], b.normal, 3 * (j / 4)), j % 4)
  {
    var n := TriangleCount(b);
    AccumulateIntendedKeys(ops, b, n);
    var sums := AccumulateIntended(ops, b, n);
    forall j | 0 <= j < 4 * |sums|
      ensures 3 * (j / 4) in sums
      ensures Layout(FinishIntended(ops, sums, b.normal), |sums|)[j] ==
              Component(FinishVertex(ops, sums[3 * (j / 4)], b.normal, 3 * (j / 4)), j % 4)
    {
      assert 3 * (j / 4) in sums;
      LayoutSlot(ops, sums, b.normal, j);
    }
  }

  /** One slot of the intended layout, at a key that has a sum. */
  lemma LayoutSlot(ops: VectorOps, sums: map<nat, V3>, normal: seq<real>, j: nat)
    requires NormalsFor(sums.Keys, normal)
    requires j < 4 * |sums| && 3 * (j / 4) in sums
    ensures Layout(FinishIntended(ops, sums, normal), |sums|)[j] ==
            Component(FinishVertex(ops, sums[3 * (j / 4)], normal, 3 * (j / 4)), j % 4)
  {
  }

  /** AccumulateIntendedSums at one key. */
  lemma IntendedSumAt(ops: VectorOps, b: Buffers, n: nat, vi: nat)
    requires Addressable(b) && n <= TriangleCount(b) && vi in AccumulateIntended(ops, b, n)
    ensures AccumulateIntended(ops, b, n)[vi] == TangentSum(ops, b, n, vi)
  {
    AccumulateIntendedSums(ops, b, n);
  }

  // ----------------------------------------------- the pass, imperatively

  /**
   * The dictionary `index_to_tangent` (with its insertion order) shares its
   * vector objects as the abstract heap says: object `objs[id]` is heap cell
   * `id`, distinct cells are distinct objects, and key vi holds object
   * `objs[a.ref[vi]]`.
   */
  ghost predicate Shares(m: map<nat, Vector>, order: seq<nat>, objs: seq<Vector>, a: Accum) {
    && order == a.order
    && |objs| == |a.heap|
    && (forall i, j :: 0 <= i < j < |objs| ==> objs[i] != objs[j])
    && m.Keys == a.ref.Keys
    && (forall vi :: vi in m ==> a.ref[vi] < |objs| && m[vi] == objs[a.ref[vi]])
  }

  /** The objects currently hold the heap's values. */
  ghost predicate Holds(objs: seq<Vector>, heap: seq<V3>)
    reads objs
  {
    |objs| == |heap| && forall id :: 0 <= id < |objs| ==> objs[id].Value() == heap[id]
  }

  /** The dictionary update for corner key vi and the triangle's tangent object (done once per corner). */
  method AttachKey(m: map<nat, Vector>, order: seq<nat>, ghost objs: seq<Vector>, ghost a: Accum, vi: nat, tangent: Vector, ghost id: nat)
    returns (m': map<nat, Vector>, order': seq<nat>)
    requires RefsInHeap(a) && id < |a.heap| && Shares(m, order, objs, a) && Holds(objs, a.heap) && objs[id] == tangent
    modifies objs
    ensures Shares(m', order', objs, Attach(a, vi, id)) && Holds(objs, Attach(a, vi, id).heap)
  {
    if vi !in m {
      m' := m[vi := tangent];
      order' := order + [vi];
    } else {
      m[vi].AddInPlace(tangent);
      m', order' := m, order;
    }
  }

  /**
   * The positions, UVs, edges, determinant and tangent expression of triangle k: the UV
   * determinant and the tangent before its normalisation.
   */
  method TriangleGeometry(ops: VectorOps, b: Buffers, k: nat) returns (divisor: real, raw: V3)
    requires Addressable(b) && k < TriangleCount(b)
    ensures divisor == Divisor(b, k)
    ensures divisor == 0.0 <==> TriangleTangent(ops, b, k).None?
    ensures divisor != 0.0 ==> TriangleTangent(ops, b, k) == Some(ops.normalize(raw))
  {
    var t0, t1, t2 := b.indices[3 * k], b.indices[3 * k + 1], b.indices[3 * k + 2];
    var p0, p1, p2 := Pos(b, t0), Pos(b, t1), Pos(b, t2);
    var uv0, uv1, uv2 := Uv(b, t0), Uv(b, t1), Uv(b, t2);
    var deltaP0, deltaP1 := Sub(p1, p0), Sub(p2, p0);
    var deltaUV0 := V2(uv1.x - uv0.x, uv1.y - uv0.y);
    var deltaUV1 := V2(uv2.x - uv0.x, uv2.y - uv0.y);
    divisor := deltaUV0.x * deltaUV1.y - deltaUV0.y * deltaUV1.x;
    raw := if divisor == 0.0 then Zero else Div(Sub(Scale(deltaP0, deltaUV1.y), Scale(deltaP1, deltaUV0.y)), divisor);
  }

  /** One pass of the triangle loop for triangle k. */
  method AccumulateTriangle(ops: VectorOps, b: Buffers, k: nat, m: map<nat, Vector>, order: seq<nat>, ghost objs: seq<Vector>, ghost a: Accum)
    returns (m': map<nat, Vector>, order': seq<nat>, ghost objs': seq<Vector>, ghost a': Accum)
    requires Addressable(b) && k < TriangleCount(b) && RefsInHeap(a)
    requires Shares(m, order, objs, a) && Holds(objs, a.heap)
    modifies objs
    ensures a' == StepAsWritten(ops, b, a, k)
    ensures Shares(m', order', objs', a') && Holds(objs', a'.heap)
    ensures |objs| <= |objs'| && objs'[..|objs|] == objs
    ensures forall id :: |objs| <= id < |objs'| ==> fresh(objs'[id])
  {
    var divisor, raw := TriangleGeometry(ops, b, k);
    if divisor == 0.0 {
      m', order', objs', a' := m, order, objs, a;
      return;
    }
    var vi0, vi1, vi2 := 3 * b.indices[3 * k], 3 * b.indices[3 * k + 1], 3 * b.indices[3 * k + 2];
    StepOfTangent(ops, b, a, k, ops.normalize(raw));
    m', order', objs', a' := NewTangent(ops, raw, m, order, objs, a, vi0, vi1, vi2);
  }

  /** A non-degenerate triangle: allocate the tangent object, normalise it, attach it under the three corners. */
  method NewTangent(ops: VectorOps, raw: V3, m: map<nat, Vector>, order: seq<nat>, ghost objs: seq<Vector>, ghost a: Accum, vi0: nat, vi1: nat, vi2: nat)
    returns (m': map<nat, Vector>, order': seq<nat>, ghost objs': seq<Vector>, ghost a': Accum)
    requires RefsInHeap(a) && Shares(m, order, objs, a) && Holds(objs, a.heap)
    modifies objs
    ensures a' == AttachTriangle(a, ops.normalize(raw), vi0, vi1, vi2)
    ensures Shares(m', order', objs', a') && Holds(objs', a'.heap)
    ensures |objs| <= |objs'| && objs'[..|objs|] == objs
    ensures forall id :: |objs| <= id < |objs'| ==> fresh(objs'[id])
  {
    var tangent := new Vector(raw);
    tangent.NormalizeInPlace(ops);
    m', order', objs', a' := AttachCorners(m, order, objs, a, vi0, vi1, vi2, tangent);
    assert objs'[..|objs|] == objs;
    assert forall id :: |objs| <= id < |objs'| ==> objs'[id] == tangent;
  }

  lemma StepOfTangent(ops: VectorOps, b: Buffers, a: Accum, k: nat, t: V3)
    requires Addressable(b) && k < TriangleCount(b) && RefsInHeap(a) && TriangleTangent(ops, b, k) == Some(t)
    ensures StepAsWritten(ops, b, a, k) == AttachTriangle(a, t, 3 * b.indices[3 * k], 3 * b.indices[3 * k + 1], 3 * b.indices[3 * k + 2])
  {
  }

  /** The new tangent object attached under the three corner keys in turn. */
  method AttachCorners(m: map<nat, Vector>, order: seq<nat>, ghost objs: seq<Vector>, ghost a: Accum, vi0: nat, vi1: nat, vi2: nat, tangent: Vector)
    returns (m': map<nat, Vector>, order': seq<nat>, ghost objs': seq<Vector>, ghost a': Accum)
    requires RefsInHeap(a) && Shares(m, order, objs, a) && Holds(objs, a.heap)
    requires forall id :: 0 <= id < |objs| ==> objs[id] != tangent
    modifies objs, tangent
    ensures objs' == objs + [tangent]
    ensures a' == AttachTriangle(a, old(tangent.Value()), vi0, vi1, vi2)
    ensures Shares(m', order', objs', a') && Holds(objs', a'.heap)
  {
    ghost var id := |a.heap|;
    objs' := objs + [tangent];
    a' := Accum(a.order, a.ref, a.heap + [tangent.Value()]);
    assert Shares(m, order, objs', a') && Holds(objs', a'.heap);
    m', order' := AttachKey(m, order, objs', a', vi0, tangent, id);
    a' := Attach(a', vi0, id);
    m', order' := AttachKey(m', order', objs', a', vi1, tangent, id);
    a' := Attach(a', vi1, id);
    m', order' := AttachKey(m', order', objs', a', vi2, tangent, id);
    a' := Attach(a', vi2, id);
  }

  /** The triangle loop of calculate_tangent: the dictionary it leaves, with its objects. */
  method AccumulateTangents(ops: VectorOps, b: Buffers)
    returns (m: map<nat, Vector>, order: seq<nat>, ghost objs: seq<Vector>, ghost a: Accum)
    requires Addressable(b)
    ensures a == AccumulateAsWritten(ops, b, TriangleCount(b))
    ensures Shares(m, order, objs, a) && Holds(objs, a.heap)
    ensures forall id :: 0 <= id < |objs| ==> fresh(objs[id])
  {
    m, order, objs, a := map[], [], [], EmptyAccum;
    // triangle k starts at offset i = 3 * k
    for k := 0 to TriangleCount(b)
      invariant a == AccumulateAsWritten(ops, b, k)
      invariant Shares(m, order, objs, a) && Holds(objs, a.heap)
      invariant forall id :: 0 <= id < |objs| ==> fresh(objs[id])
    {
      ghost var before := objs;
      m, order, objs, a := AccumulateTriangle(ops, b, k, m, order, objs, a);
      assert a == AccumulateAsWritten(ops, b, k + 1);
      forall id | 0 <= id < |objs|
        ensures fresh(objs[id])
      {
        if id < |before| {
          assert objs[id] == before[id];
        }
      }
    }
  }

  /**
   * What the finishing loop relies on: the count check passed, every key is a
   * multiple of 3 with a normal triple, and the dictionary shares its objects
   * as the abstract heap says.
   */
  ghost predicate Finishable(normal: seq<real>, m: map<nat, Vector>, order: seq<nat>, objs: seq<Vector>, a: Accum) {
    && RefsInHeap(a) && OrderReadable(a, normal) && |a.ref| * 3 == |normal|
    && (forall vi :: vi in a.ref ==> vi % 3 == 0)
    && Shares(m, order, objs, a)
  }

  /**
   * The finishing loop of calculate_tangent over the dictionary in insertion
   * order, writing into `[0.0] * len(index_to_tangent) * 4`.
   */
  method FinishTangents(ops: VectorOps, normal: seq<real>, m: map<nat, Vector>, order: seq<nat>, ghost objs: seq<Vector>, ghost a: Accum)
    returns (r: seq<real>)
    requires Finishable(normal, m, order, objs, a) && Holds(objs, a.heap)
    modifies objs
    ensures r == Layout(FinishAsWritten(ops, a, normal, |a.order|).written, |a.ref|)
    ensures Holds(objs, FinishAsWritten(ops, a, normal, |a.order|).heap)
  {
    var count := |m|;
    assert count == |a.ref| by { assert m.Keys == a.ref.Keys; }
    var result := new real[count * 4](_ => 0.0);
    ghost var fin := FinishAsWritten(ops, a, normal, 0);
    assert result[..] == Layout(fin.written, count);
    for k := 0 to |order|
      invariant fin == FinishAsWritten(ops, a, normal, k)
      invariant Holds(objs, fin.heap)
      invariant result[..] == Layout(fin.written, count)
    {
      fin := FinishKey(ops, normal, m, order, objs, a, k, result, fin);
    }
    r := result[..];
  }

  /** One pass of the finishing loop, for the k-th key in insertion order. */
  method FinishKey(ops: VectorOps, normal: seq<real>, m: map<nat, Vector>, order: seq<nat>, ghost objs: seq<Vector>, ghost a: Accum,
                   k: nat, result: array<real>, ghost fin: Finished)
    returns (ghost fin': Finished)
    requires Finishable(normal, m, order, objs, a) && k < |a.order|
    requires fin == FinishAsWritten(ops, a, normal, k) && Holds(objs, fin.heap)
    requires result[..] == Layout(fin.written, |a.ref|)
    modifies objs, result
    ensures fin' == FinishAsWritten(ops, a, normal, k + 1)
    ensures Holds(objs, fin'.heap) && result[..] == Layout(fin'.written, |a.ref|)
  {
    var vi := order[k];
    var t;
    t, fin' := FinishedTangent(ops, normal, m, order, objs, a, k, fin);
    assert vi in a.ref;
    WriteTangent(result, fin.written, |a.ref|, vi, t);
  }

  /** The finishing loop's choice: the fallback `(n.z, n.x, n.y)`, or the key's object normalised in place when its length is non-zero. */
  method FinishedTangent(ops: VectorOps, normal: seq<real>, m: map<nat, Vector>, order: seq<nat>, ghost objs: seq<Vector>, ghost a: Accum,
                         k: nat, ghost fin: Finished)
    returns (t: V3, ghost fin': Finished)
    requires Finishable(normal, m, order, objs, a) && k < |a.order|
    requires fin == FinishAsWritten(ops, a, normal, k) && Holds(objs, fin.heap)
    modifies objs
    ensures fin' == FinishAsWritten(ops, a, normal, k + 1)
    ensures Holds(objs, fin'.heap) && fin'.written == fin.written[order[k] := t]
  {
    var vi := order[k];
    var tangent := m[vi];
    ghost var id := a.ref[vi];
    assert tangent.Value() == fin.heap[id];
    var n := V3(normal[vi + 0], normal[vi + 1], normal[vi + 2]);
    t := V3(n.z, n.x, n.y);
    if ops.length(tangent.Value()) != 0.0 {
      tangent.NormalizeInPlace(ops);
      t := tangent.Value();
    }
    fin' := FinishAsWritten(ops, a, normal, k + 1);
  }

  /**
   * The four writes for key vi: x, y, z and w = 1.0 from slot `(vi // 3) * 4`
   * on, which lays out one more written key.
   */
  method WriteTangent(result: array<real>, ghost written: map<nat, V3>, ghost count: nat, vi: nat, t: V3)
    requires vi % 3 == 0 && vi / 3 < count && result[..] == Layout(written, count)
    modifies result
    ensures result[..] == Layout(written[vi := t], count)
  {
    var ti := (vi / 3) * 4;
    LayoutWrite(written, count, vi, t);
    result[ti + 0] := t.x;
    result[ti + 1] := t.y;
    result[ti + 2] := t.z;
    result[ti + 3] := 1.0;
  }

  /** `calculate_tangent` as written: the same result as `TangentsAsWritten`. */
  method CalculateTangent(ops: VectorOps, prim: Option<Primitive>, texcoordId: string) returns (r: Option<seq<real>>)
    requires Runs(prim, texcoordId)
    ensures r == TangentsAsWritten(ops, prim, texcoordId)
  {
    if prim.None? {
      return None;
    }
    var attributes := prim.value.attributes;
    if texcoordId !in attributes {
      return None;
    }
    var b := Buffers(prim.value.indices, attributes["POSITION"], attributes["NORMAL"], attributes[texcoordId]);
    var indexToTangent: map<nat, Vector>, order: seq<nat>;
    ghost var objs: seq<Vector>, acc: Accum;
    indexToTangent, order, objs, acc := AccumulateTangents(ops, b);
    AccumulateKeys(ops, b, TriangleCount(b));
    AccumulateWellFormed(ops, b, TriangleCount(b));
    assert |indexToTangent| == |acc.ref| by { assert indexToTangent.Keys == acc.ref.Keys; }
    if |indexToTangent| * 3 != |b.normal| {
      return None;
    }
    TouchedMultiplesOfThree(b, TriangleCount(b));
    assert Finishable(b.normal, indexToTangent, order, objs, acc);
    var result := FinishTangents(ops, b.normal, indexToTangent, order, objs, acc);
    return Some(result);
  }

  // ----------------------------------------- the sharing, on a concrete mesh

  /** `normalize` divides a non-zero vector by its length, and that length is positive. */
  ghost predicate Euclidean(ops: VectorOps) {
    forall v :: v != Zero ==> ops.length(v) > 0.0 && ops.normalize(v) == Div(v, ops.length(v))
  }

  /** Normalising keeps the sign of every component of a non-zero vector. */
  lemma NormalizeSigns(ops: VectorOps, v: V3)
    requires Euclidean(ops) && v != Zero
    ensures ops.length(v) != 0.0 && ops.normalize(v) != Zero
    ensures (v.x > 0.0 ==> ops.normalize(v).x > 0.0) && (v.x == 0.0 ==> ops.normalize(v).x == 0.0)
    ensures (v.y > 0.0 ==> ops.normalize(v).y > 0.0) && (v.y == 0.0 ==> ops.normalize(v).y == 0.0)
  {
    var l := ops.length(v);
    assert ops.normalize(v) == V3(v.x / l, v.y / l, v.z / l);
    if v.x > 0.0 {
      assert ops.normalize(v).x > 0.0;
    } else if v.y > 0.0 {
      assert ops.normalize(v).y > 0.0;
    } else if v.z != 0.0 {
      assert ops.normalize(v).z != 0.0;
    }
  }

  /**
   * Two triangles sharing vertex 0, texture-mapped so that the first has
   * tangent +x and the second +y; vertices 1 and 2 lie on the first only,
   * vertices 3 and 4 on the second only.
   */
  const SharedCorner := Buffers(
    [0, 1, 2, 0, 3, 4],
    [0.0, 0.0, 0.0,  1.0, 0.0, 0.0,  0.0, 1.0, 0.0,  0.0, 1.0, 0.0,  0.0, 0.0, 1.0],
    [0.0, 0.0, 1.0,  0.0, 0.0, 1.0,  0.0, 0.0, 1.0,  1.0, 0.0, 0.0,  1.0, 0.0, 0.0],
    [0.0, 0.0,  1.0, 0.0,  0.0, 1.0,  1.0, 0.0,  0.0, 1.0])

  const SharedCornerMesh := Primitive(SharedCorner.indices,
    map["POSITION" := SharedCorner.position, "NORMAL" := SharedCorner.normal, DefaultTexcoord := SharedCorner.texcoord])

  lemma SharedCornerReadable()
    ensures Readable(Some(SharedCornerMesh), DefaultTexcoord) && DefaultTexcoord in SharedCornerMesh.attributes
    ensures BuffersOf(SharedCornerMesh, DefaultTexcoord) == SharedCorner
    ensures Addressable(SharedCorner) && TriangleCount(SharedCorner) == 2
  {
    var b := SharedCorner;
    forall i | 0 <= i < |b.indices|
      ensures 3 * b.indices[i] + 2 < |b.position| && 2 * b.indices[i] + 1 < |b.texcoord|
    {
      assert b.indices[i] <= 4;
    }
  }

  lemma SharedCornerPoints()
    ensures Pos(SharedCorner, 0) == V3(0.0, 0.0, 0.0) && Pos(SharedCorner, 1) == V3(1.0, 0.0, 0.0)
    ensures Pos(SharedCorner, 2) == V3(0.0, 1.0, 0.0) && Pos(SharedCorner, 3) == V3(0.0, 1.0, 0.0)
    ensures Pos(SharedCorner, 4) == V3(0.0, 0.0, 1.0)
    ensures Uv(SharedCorner, 0) == V2(0.0, 0.0) && Uv(SharedCorner, 1) == V2(1.0, 0.0) && Uv(SharedCorner, 2) == V2(0.0, 1.0)
    ensures Uv(SharedCorner, 3) == V2(1.0, 0.0) && Uv(SharedCorner, 4) == V2(0.0, 1.0)
  {
  }

  /**
   * A triangle whose corners sit at the origin, one unit along an axis e0 and
   * one unit along another axis e1, with UVs (0, 0), (1, 0) and (0, 1), has
   * determinant 1 and tangent normalize(e0).
   */
  lemma UnitTriangle(ops: VectorOps, b: Buffers, k: nat, e0: V3, e1: V3)
    requires Addressable(b) && k < TriangleCount(b)
    requires Pos(b, b.indices[3 * k]) == Zero
    requires Pos(b, b.indices[3 * k + 1]) == e0 && Pos(b, b.indices[3 * k + 2]) == e1
    requires Uv(b, b.indices[3 * k]) == V2(0.0, 0.0)
    requires Uv(b, b.indices[3 * k + 1]) == V2(1.0, 0.0) && Uv(b, b.indices[3 * k + 2]) == V2(0.0, 1.0)
    ensures Divisor(b, k) == 1.0 && TriangleTangent(ops, b, k) == Some(ops.normalize(e0))
  {
    assert Div(Sub(Scale(Sub(e0, Zero), 1.0), Scale(Sub(e1, Zero), 0.0)), 1.0) == e0;
  }

  /** The corners of SharedCorner's triangles, and their tangents. */
  ghost predicate SharedCornerLike(ops: VectorOps, b: Buffers, t0: V3, t1: V3) {
    && Addressable(b) && TriangleCount(b) == 2
    && b.indices[0] == 0 && b.indices[1] == 1 && b.indices[2] == 2
    && b.indices[3] == 0 && b.indices[4] == 3 && b.indices[5] == 4
    && TriangleTangent(ops, b, 0) == Some(t0) && TriangleTangent(ops, b, 1) == Some(t1)
  }

  lemma SharedCornerIsLike(ops: VectorOps)
    ensures SharedCornerLike(ops, SharedCorner, ops.normalize(V3(1.0, 0.0, 0.0)), ops.normalize(V3(0.0, 1.0, 0.0)))
  {
    var b := SharedCorner;
    SharedCornerReadable();
    SharedCornerPoints();
    assert b.indices[0] == 0 && b.indices[1] == 1 && b.indices[2] == 2;
    assert b.indices[3] == 0 && b.indices[4] == 3 && b.indices[5] == 4;
    UnitTriangle(ops, b, 0, V3(1.0, 0.0, 0.0), V3(0.0, 1.0, 0.0));
    UnitTriangle(ops, b, 1, V3(0.0, 1.0, 0.0), V3(0.0, 0.0, 1.0));
  }

  /**
   * As written, vertices 0, 1 and 2 share the first triangle's object, into
   * which the second triangle's tangent is added through vertex 0; vertices 3
   * and 4 share the second object.
   */
  lemma SharedCornerAccumulated(ops: VectorOps, b: Buffers, t0: V3, t1: V3)
    requires SharedCornerLike(ops, b, t0, t1)
    ensures AccumulateAsWritten(ops, b, 2) ==
              Accum([0, 3, 6, 9, 12], map[0 := 0, 3 := 0, 6 := 0, 9 := 1, 12 := 1], [Add(t0, t1), t1])
  {
    var a1 := Accum([0, 3, 6], map[0 := 0, 3 := 0, 6 := 0], [t0]);
    assert AccumulateAsWritten(ops, b, 0) == EmptyAccum;
    StepOfTangent(ops, b, EmptyAccum, 0, t0);
    FirstTriangleAttached(t0);
    assert AccumulateAsWritten(ops, b, 1) == a1;
    StepOfTangent(ops, b, a1, 1, t1);
    SecondTriangleAttached(t0, t1);
  }

  lemma FirstTriangleAttached(t0: V3)
    ensures AttachTriangle(EmptyAccum, t0, 0, 3, 6) == Accum([0, 3, 6], map[0 := 0, 3 := 0, 6 := 0], [t0])
  {
    var a0 := Accum([], map[], [t0]);
    assert Attach(a0, 0, 0) == Accum([0], map[0 := 0], [t0]);
    assert Attach(Attach(a0, 0, 0), 3, 0) == Accum([0, 3], map[0 := 0, 3 := 0], [t0]);
  }

  lemma SecondTriangleAttached(t0: V3, t1: V3)
    ensures AttachTriangle(Accum([0, 3, 6], map[0 := 0, 3 := 0, 6 := 0], [t0]), t1, 0, 9, 12) ==
              Accum([0, 3, 6, 9, 12], map[0 := 0, 3 := 0, 6 := 0, 9 := 1, 12 := 1], [Add(t0, t1), t1])
  {
    var a0 := Accum([0, 3, 6], map[0 := 0, 3 := 0, 6 := 0], [t0, t1]);
    assert Attach(a0, 0, 1) == Accum([0, 3, 6], map[0 := 0, 3 := 0, 6 := 0], [Add(t0, t1), t1]);
    assert Attach(Attach(a0, 0, 1), 9, 1) == Accum([0, 3, 6, 9], map[0 := 0, 3 := 0, 6 := 0, 9 := 1], [Add(t0, t1), t1]);
  }

  /** The intended sums: vertex 1 keeps the first triangle's tangent alone. */
  lemma SharedCornerSums(ops: VectorOps, b: Buffers, t0: V3, t1: V3)
    requires SharedCornerLike(ops, b, t0, t1)
    ensures AccumulateIntended(ops, b, 2).Keys == {0, 3, 6, 9, 12}
    ensures AccumulateIntended(ops, b, 2)[3] == t0
  {
    var s1 := map[0 := t0, 3 := t0, 6 := t0];
    assert AccumulateIntended(ops, b, 0) == map[];
    assert StepIntended(ops, b, map[], 0) == AddAt(AddAt(AddAt(map[], 0, t0), 3, t0), 6, t0);
    assert AccumulateIntended(ops, b, 1) == s1;
    assert StepIntended(ops, b, s1, 1) == AddAt(AddAt(AddAt(s1, 0, t1), 9, t1), 12, t1);
  }

  /**
   * Finishing the as-written dictionary of SharedCorner: vertex 0 normalises
   * the shared object in place, and vertex 1 then writes that object
   * normalised once more, whose y component is positive.
   */
  lemma SharedCornerFinished(ops: VectorOps, a: Accum, normal: seq<real>, t0: V3, t1: V3)
    requires Euclidean(ops) && |normal| == 15
    requires a == Accum([0, 3, 6, 9, 12], map[0 := 0, 3 := 0, 6 := 0, 9 := 1, 12 := 1], [Add(t0, t1), t1])
    requires t0.x > 0.0 && t0.y == 0.0 && t1.y > 0.0
    ensures RefsInHeap(a) && OrderReadable(a, normal)
    ensures 3 in FinishAsWritten(ops, a, normal, 5).written
    ensures FinishAsWritten(ops, a, normal, 5).written[3].y > 0.0
  {
    var s := Add(t0, t1);
    NormalizeSigns(ops, s);
    var n := ops.normalize(s);
    NormalizeSigns(ops, n);
    assert FinishAsWritten(ops, a, normal, 1) == Finished([n, t1], map[0 := n]);
    assert FinishAsWritten(ops, a, normal, 2).written[3] == ops.normalize(n);
    FinishKeeps(ops, a, normal, 2, 3);
    FinishKeeps(ops, a, normal, 3, 3);
    FinishKeeps(ops, a, normal, 4, 3);
  }

  /** Finishing another key leaves the tangent already written for vi alone. */
  lemma FinishKeeps(ops: VectorOps, a: Accum, normal: seq<real>, k: nat, vi: nat)
    requires RefsInHeap(a) && OrderReadable(a, normal) && k < |a.order| && a.order[k] != vi
    requires vi in FinishAsWritten(ops, a, normal, k).written
    ensures vi in FinishAsWritten(ops, a, normal, k + 1).written
    ensures FinishAsWritten(ops, a, normal, k + 1).written[vi] == FinishAsWritten(ops, a, normal, k).written[vi]
  {
  }

  lemma FiveKeys()
    ensures |map[0 := 0, 3 := 0, 6 := 0, 9 := 1, 12 := 1]| == 5
    ensures forall m: map<nat, V3> :: m.Keys == {0, 3, 6, 9, 12} ==> |m| == 5
  {
    var keys: set<nat> := {0, 3, 6, 9, 12};
    assert |keys| == 5;
    forall m: map<nat, V3> | m.Keys == keys
      ensures |m| == 5
    {
      assert |m| == |m.Keys|;
    }
  }

  lemma FiveNormals(keys: set<nat>, normal: seq<real>)
    requires keys == {0, 3, 6, 9, 12} && |normal| == 15
    ensures NormalsFor(keys, normal)
  {
  }

  /** A mesh laid out like SharedCorner passes the count check, and every touched vertex has a normal. */
  lemma SharedCornerRuns(ops: VectorOps, prim: Primitive, texcoordId: string, t0: V3, t1: V3)
    requires Readable(Some(prim), texcoordId) && texcoordId in prim.attributes
    requires SharedCornerLike(ops, BuffersOf(prim, texcoordId), t0, t1) && |BuffersOf(prim, texcoordId).normal| == 15
    ensures Runs(Some(prim), texcoordId)
  {
    var b := BuffersOf(prim, texcoordId);
    SharedCornerAccumulated(ops, b, t0, t1);
    AccumulateKeys(ops, b, 2);
    FiveNormals(Touched(b, 2), b.normal);
  }

  /** As written, a mesh laid out like SharedCorner gives vertex 1 a tangent with positive y. */
  lemma SharedCornerAsWritten(ops: VectorOps, prim: Primitive, texcoordId: string, t0: V3, t1: V3)
    requires Euclidean(ops) && Runs(Some(prim), texcoordId) && texcoordId in prim.attributes
    requires SharedCornerLike(ops, BuffersOf(prim, texcoordId), t0, t1) && |BuffersOf(prim, texcoordId).normal| == 15
    requires t0.x > 0.0 && t0.y == 0.0 && t1.y > 0.0
    ensures var w := TangentsAsWritten(ops, Some(prim), texcoordId);
            w.Some? && |w.value| == 20 && w.value[5] > 0.0
  {
    var b := BuffersOf(prim, texcoordId);
    SharedCornerAccumulated(ops, b, t0, t1);
    FiveKeys();
    var a := AccumulateAsWritten(ops, b, 2);
    assert |a.ref| == 5 && |a.order| == 5;
    SharedCornerFinished(ops, a, b.normal, t0, t1);
    var written := FinishAsWritten(ops, a, b.normal, 5).written;
    assert Layout(written, 5)[5] == written[3].y;
  }

  /** The intended pass gives vertex 1 of such a mesh the first triangle's tangent alone, with y = 0. */
  lemma SharedCornerIntended(ops: VectorOps, prim: Primitive, texcoordId: string, t0: V3, t1: V3)
    requires Euclidean(ops) && Runs(Some(prim), texcoordId) && texcoordId in prim.attributes
    requires SharedCornerLike(ops, BuffersOf(prim, texcoordId), t0, t1) && |BuffersOf(prim, texcoordId).normal| == 15
    requires t0.x > 0.0 && t0.y == 0.0
    ensures var i := TangentsIntended(ops, Some(prim), texcoordId);
            i.Some? && |i.value| == 20 && i.value[5] == 0.0
  {
    var b := BuffersOf(prim, texcoordId);
    SharedCornerSums(ops, b, t0, t1);
    FiveKeys();
    var sums := AccumulateIntended(ops, b, 2);
    assert |sums| == 5;
    FiveNormals(sums.Keys, b.normal);
    NormalizeSigns(ops, t0);
    assert FinishIntended(ops, sums, b.normal)[3] == ops.normalize(t0);
    assert Layout(FinishIntended(ops, sums, b.normal), 5)[5] == ops.normalize(t0).y;
  }

  /**
   * The sharing is observable. On SharedCornerMesh, vertex 1 lies on the +x
   * triangle only, yet as written its tangent (slots 4-7) has a positive y
   * component, leaked from the +y triangle through vertex 0's object; its
   * intended tangent has y = 0.
   */
  lemma SharedCornerLeaks(ops: VectorOps)
    requires Euclidean(ops)
    ensures Runs(Some(SharedCornerMesh), DefaultTexcoord)
    ensures var w := TangentsAsWritten(ops, Some(SharedCornerMesh), DefaultTexcoord);
            w.Some? && |w.value| == 20 && w.value[5] > 0.0
    ensures var i := TangentsIntended(ops, Some(SharedCornerMesh), DefaultTexcoord);
            i.Some? && |i.value| == 20 && i.value[5] == 0.0
  {
    SharedCornerReadable();
    SharedCornerIsLike(ops);
    var t0, t1 := ops.normalize(V3(1.0, 0.0, 0.0)), ops.normalize(V3(0.0, 1.0, 0.0));
    NormalizeSigns(ops, V3(1.0, 0.0, 0.0));
    NormalizeSigns(ops, V3(0.0, 1.0, 0.0));
    assert |SharedCorner.normal| == 15;
    SharedCornerRuns(ops, SharedCornerMesh, DefaultTexcoord, t0, t1);
    SharedCornerAsWritten(ops, SharedCornerMesh, DefaultTexcoord, t0, t1);
    SharedCornerIntended(ops, SharedCornerMesh, DefaultTexcoord, t0, t1);
  }
}
