/** The two custom selectors of lamp.py: ApproxParallelDirSelector (lines
    136-163) and MinLengthSelector (lines 166-193). Each walks a list of
    shapes and appends the accepted ones to a result list. Shapes are
    reduced to what the filters look at: their kind, their geometry type,
    and a face's normal or an edge's tangent and length. */
module Selectors {

  datatype Vector = Vector(x: real, y: real, z: real)

  datatype Shape =
    | Face(geomType: string, normal: Vector)
    | Edge(geomType: string, tangent: Vector, length: real)
    | Other  // any shape that is neither a Face nor an Edge

  datatype Option<T> = None | Some(value: T)

  datatype Result<T> = Success(value: T) | Failure

  predicate IsPlanarFace(o: Shape) {
    o.Face? && o.geomType == "PLANE"
  }

  /** An edge whose geometry is a line or a B-spline. */
  predicate IsLineLikeEdge(o: Shape) {
    o.Edge? && (o.geomType == "LINE" || o.geomType == "BSPLINE")
  }

  /** The vector a shape is judged by: a planar face's normal, a line-like
      edge's tangent, and nothing for any other shape. */
  function TestVector(o: Shape): (v: Option<Vector>)
    ensures v.Some? <==> IsPlanarFace(o) || IsLineLikeEdge(o)
    ensures IsPlanarFace(o) ==> v == Some(o.normal)
    ensures IsLineLikeEdge(o) ==> v == Some(o.tangent)
  {
    if IsPlanarFace(o) then Some(o.normal)
    else if IsLineLikeEdge(o) then Some(o.tangent)
    else None
  }

  /** The elements of `objs` that satisfy `keep`, in their original order. */
  function Keep(objs: seq<Shape>, keep: Shape -> bool): seq<Shape> {
    if objs == [] then []
    else (if keep(objs[0]) then [objs[0]] else []) + Keep(objs[1..], keep)
  }

  /** Keeping from a concatenation keeps from each part, in order. */
  lemma {:induction false} KeepAppend(a: seq<Shape>, b: seq<Shape>, keep: Shape -> bool)
    ensures Keep(a + b, keep) == Keep(a, keep) + Keep(b, keep)
    decreases |a|
  {
    if a != [] {
      assert (a + b)[1..] == a[1..] + b;
      KeepAppend(a[1..], b, keep);
    } else {
      assert a + b == b;
    }
  }

  lemma KeepSingleton(o: Shape, keep: Shape -> bool)
    ensures Keep([o], keep) == if keep(o) then [o] else []
  {
    assert [o][1..] == [];
  }

  /** An element is kept exactly when it occurs in the input and passes. */
  lemma {:induction false} KeepMembers(objs: seq<Shape>, keep: Shape -> bool)
    ensures forall o :: o in Keep(objs, keep) <==> o in objs && keep(o)
    decreases |objs|
  {
    if objs != [] {
      KeepMembers(objs[1..], keep);
      assert objs == [objs[0]] + objs[1..];
    }
  }

  /** The result is never longer than the input, and equally long exactly
      when every element passes. */
  lemma {:induction false} KeepLength(objs: seq<Shape>, keep: Shape -> bool)
    ensures |Keep(objs, keep)| <= |objs|
    ensures |Keep(objs, keep)| == |objs| <==> forall i :: 0 <= i < |objs| ==> keep(objs[i])
    decreases |objs|
  {
    if objs != [] {
      KeepLength(objs[1..], keep);
      if forall i :: 0 <= i < |objs| ==> keep(objs[i]) {
        assert forall i :: 0 <= i < |objs| - 1 ==> keep(objs[1..][i]) by {
          forall i | 0 <= i < |objs| - 1 ensures keep(objs[1..][i]) {
            assert objs[1..][i] == objs[i + 1];
          }
        }
      } else if keep(objs[0]) {
        var j :| 0 <= j < |objs| && !keep(objs[j]);
        assert j > 0 && objs[1..][j - 1] == objs[j];
      }
    }
  }

  /** Filtering twice keeps the same shapes as filtering once. */
  lemma {:induction false} KeepIdempotent(objs: seq<Shape>, keep: Shape -> bool)
    ensures Keep(Keep(objs, keep), keep) == Keep(objs, keep)
    decreases |objs|
  {
    if objs != [] {
      KeepIdempotent(objs[1..], keep);
      var head := if keep(objs[0]) then [objs[0]] else [];
      KeepAppend(head, Keep(objs[1..], keep), keep);
      if keep(objs[0]) {
        assert [objs[0]][1..] == [];
      }
    }
  }

  /** The shapes ApproxParallelDirSelector accepts, given the inherited test. */
  function ParallelTest(test: Vector -> bool): Shape -> bool {
    o => TestVector(o).Some? && test(TestVector(o).value)
  }

  function ParallelKept(objs: seq<Shape>, test: Vector -> bool): seq<Shape> {
    Keep(objs, ParallelTest(test))
  }

  lemma ParallelTestAccepts(test: Vector -> bool, o: Shape)
    ensures ParallelTest(test)(o) <==>
      (IsPlanarFace(o) && test(o.normal)) || (IsLineLikeEdge(o) && test(o.tangent))
  {
    var v := TestVector(o);
  }

  /** The edges MinLengthSelector accepts: line-like and strictly longer
      than the minimum. */
  function LongEdgeTest(minLength: real): Shape -> bool {
    o => IsLineLikeEdge(o) && o.length > minLength
  }

  function HasPlanarFace(objs: seq<Shape>): bool {
    exists o :: o in objs && IsPlanarFace(o)
  }

  /** What MinLengthSelector.filter returns: a failure if any planar face
      occurs, otherwise the long line-like edges in order. */
  function MinLengthResult(objs: seq<Shape>, minLength: real): Result<seq<Shape>> {
    if HasPlanarFace(objs) then Failure
    else Success(Keep(objs, LongEdgeTest(minLength)))
  }

  /** The shapes accepted by ApproxParallelDirSelector are exactly the planar
      faces and line-like edges whose normal or tangent passes the test. */
  lemma ParallelKeptMembers(objs: seq<Shape>, test: Vector -> bool)
    ensures forall o :: o in ParallelKept(objs, test) <==>
      o in objs &&
      ((IsPlanarFace(o) && test(o.normal)) || (IsLineLikeEdge(o) && test(o.tangent)))
    ensures |ParallelKept(objs, test)| <= |objs|
  {
    KeepMembers(objs, ParallelTest(test));
    KeepLength(objs, ParallelTest(test));
    forall o { ParallelTestAccepts(test, o); }
  }

  /** MinLengthSelector fails exactly when a planar face occurs; otherwise
      it keeps exactly the line-like edges longer than the minimum. */
  lemma MinLengthResultMembers(objs: seq<Shape>, minLength: real)
    ensures MinLengthResult(objs, minLength).Failure? <==>
      exists i :: 0 <= i < |objs| && IsPlanarFace(objs[i])
    ensures MinLengthResult(objs, minLength).Success? ==>
      forall o :: o in MinLengthResult(objs, minLength).value <==>
        o in objs && IsLineLikeEdge(o) && o.length > minLength
  {
    KeepMembers(objs, LongEdgeTest(minLength));
    if exists i :: 0 <= i < |objs| && IsPlanarFace(objs[i]) {
      var i :| 0 <= i < |objs| && IsPlanarFace(objs[i]);
      assert objs[i] in objs;
    }
  }

  class ApproxParallelDirSelector {
    /** The direction test inherited from ParallelDirSelector. */
    const test: Vector -> bool

    constructor (test: Vector -> bool)
      ensures this.test == test
    {
      this.test := test;
    }

    /** filter: classify each shape, skip what has no test vector, and
        append the ones whose vector passes. */
    method Filter(objectList: seq<Shape>) returns (r: seq<Shape>)
      ensures r == ParallelKept(objectList, test)
      ensures |r| <= |objectList|
    {
      r := [];
      var i := 0;
      while i < |objectList|
        invariant 0 <= i <= |objectList|
        invariant r == ParallelKept(objectList[..i], test)
      {
        var o := objectList[i];
        KeepAppend(objectList[..i], [o], ParallelTest(test));
        KeepSingleton(o, ParallelTest(test));
        ParallelTestAccepts(test, o);
        assert objectList[..i + 1] == objectList[..i] + [o];
        var testVector: Vector;
        if IsPlanarFace(o) {
          testVector := o.normal;
        } else if IsLineLikeEdge(o) {
          testVector := o.tangent;
        } else {
          i := i + 1;
          continue;
        }
        if test(testVector) {
          r := r + [o];
        }
        i := i + 1;
      }
      assert objectList[..i] == objectList;
      KeepLength(objectList, ParallelTest(test));
    }
  }

  class MinLengthSelector {
    const minLength: real

    constructor (minLength: real)
      ensures this.minLength == minLength
    {
      this.minLength := minLength;
    }

    /** filter: fail at the first planar face, keep the line-like edges
        longer than minLength, skip everything else. */
    method Filter(objectList: seq<Shape>) returns (r: Result<seq<Shape>>)
      ensures r == MinLengthResult(objectList, minLength)
    {
      var kept: seq<Shape> := [];
      var i := 0;
      while i < |objectList|
        invariant 0 <= i <= |objectList|
        invariant !HasPlanarFace(objectList[..i])
        invariant kept == Keep(objectList[..i], LongEdgeTest(minLength))
      {
        var o := objectList[i];
        assert objectList[..i + 1] == objectList[..i] + [o];
        if IsPlanarFace(o) {
          assert o in objectList;
          return Failure;
        } else if IsLineLikeEdge(o) {
          KeepAppend(objectList[..i], [o], LongEdgeTest(minLength));
          KeepSingleton(o, LongEdgeTest(minLength));
          if o.length > minLength {
            kept := kept + [o];
          }
        } else {
          KeepAppend(objectList[..i], [o], LongEdgeTest(minLength));
          KeepSingleton(o, LongEdgeTest(minLength));
        }
        i := i + 1;
      }
      assert objectList[..i] == objectList;
      return Success(kept);
    }
  }
}
