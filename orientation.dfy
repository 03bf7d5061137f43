/**
 * The patient-orientation string of slice_direction.cpp: `ComputeOrientation` names the
 * direction of a vector with up to three letters of the DICOM patient coordinate convention
 * (DICOM PS3.3 section C.7.6.1.1.1: L/R along x, P/A along y, H/F along z), strongest
 * component first; and `parse_3d` reads a backslash-separated multi-valued string (the value
 * delimiter of DICOM PS3.5 section 6.4) into a vector.
 */
module SliceDirection {
  import opened Optional
  import opened Geometry
  import opened Tokenizer
  import opened Decimal

  /** Magnitudes at or below this never contribute a letter. */
  const EPSILON: real := 0.0001

  /** The letter for axis `a` (0, 1, or 2 for z), chosen by the sign of the component; zero gets the positive letter. */
  function Letter(v: Vec3, a: nat): char {
    if a == 0 then (if v.x < 0.0 then 'R' else 'L')
    else if a == 1 then (if v.y < 0.0 then 'A' else 'P')
    else (if v.z < 0.0 then 'F' else 'H')
  }

  /** The three magnitudes `absX`, `absY`, `absZ`. */
  function Magnitudes(v: Vec3): (m: seq<real>)
    ensures |m| == 3 && forall a :: 0 <= a < 3 ==> m[a] == Abs(Component(v, a))
  {
    [Abs(v.x), Abs(v.y), Abs(v.z)]
  }

  /** Axis `a` is above the threshold and strictly larger than both other axes. */
  predicate Dominant(m: seq<real>, a: nat)
    requires |m| == 3 && a < 3
  {
    m[a] > EPSILON && forall b :: 0 <= b < 3 && b != a ==> m[a] > m[b]
  }

  /** One pass of the loop body: the branch taken, `None` for the `break`. */
  function Pick(m: seq<real>): (r: Option<nat>)
    requires |m| == 3
    ensures r.Some? ==> r.value < 3
  {
    if m[0] > EPSILON && m[0] > m[1] && m[0] > m[2] then Some(0)
    else if m[1] > EPSILON && m[1] > m[0] && m[1] > m[2] then Some(1)
    else if m[2] > EPSILON && m[2] > m[0] && m[2] > m[1] then Some(2)
    else None
  }

  /** A pass picks exactly the dominant axis, and breaks when there is none. */
  lemma PickDominant(m: seq<real>)
    requires |m| == 3
    ensures Pick(m).Some? ==> Dominant(m, Pick(m).value)
    ensures Pick(m).None? <==> forall a :: 0 <= a < 3 ==> !Dominant(m, a)
  {
    assert Dominant(m, 0) <==> m[0] > EPSILON && m[0] > m[1] && m[0] > m[2];
    assert Dominant(m, 1) <==> m[1] > EPSILON && m[1] > m[0] && m[1] > m[2];
    assert Dominant(m, 2) <==> m[2] > EPSILON && m[2] > m[0] && m[2] > m[1];
  }

  /** The axes picked in at most `rounds` passes, each zeroed once it is used. */
  function Axes(m: seq<real>, rounds: nat): seq<nat>
    requires |m| == 3
    decreases rounds
  {
    if rounds == 0 then []
    else match Pick(m)
      case None => []
      case Some(a) => [a] + Axes(m[a := 0.0], rounds - 1)
  }

  /** The letters of `axes`, in order. */
  function Letters(v: Vec3, axes: seq<nat>): string {
    if axes == [] then [] else [Letter(v, axes[0])] + Letters(v, axes[1..])
  }

  /** The axes `ComputeOrientation(v)` names, in the order it names them. */
  function OrientationAxes(v: Vec3): seq<nat> {
    Axes(Magnitudes(v), 3)
  }

  /** What `ComputeOrientation(v)` returns. */
  function Orientation(v: Vec3): string {
    Letters(v, OrientationAxes(v))
  }

  lemma {:induction false} LettersLength(v: Vec3, axes: seq<nat>)
    ensures |Letters(v, axes)| == |axes|
    ensures forall k :: 0 <= k < |axes| ==> Letters(v, axes)[k] == Letter(v, axes[k])
  {
    if axes != [] {
      LettersLength(v, axes[1..]);
    }
  }

  /** A pass that picks axis `a` appends its letter and zeroes its magnitude. */
  lemma PassPicks(v: Vec3, done: string, m: seq<real>, rounds: nat, a: nat)
    requires |m| == 3 && rounds > 0 && Pick(m) == Some(a)
    requires done + Letters(v, Axes(m, rounds)) == Orientation(v)
    ensures (done + [Letter(v, a)]) + Letters(v, Axes(m[a := 0.0], rounds - 1)) == Orientation(v)
  {
    var rest := Axes(m[a := 0.0], rounds - 1);
    assert Axes(m, rounds) == [a] + rest;
    assert ([a] + rest)[1..] == rest;
  }

  /** A pass that finds no dominant axis ends the string. */
  lemma PassBreaks(v: Vec3, done: string, m: seq<real>, rounds: nat)
    requires |m| == 3 && Pick(m) == None
    requires done + Letters(v, Axes(m, rounds)) == Orientation(v)
    ensures done == Orientation(v)
  {
    assert Axes(m, rounds) == [];
    assert done + [] == done;
  }

  /** The loop of `ComputeOrientation`, zeroing `absX`/`absY`/`absZ` as their letters are appended. */
  method ComputeOrientation(v: Vec3) returns (orientation: string)
    ensures orientation == Orientation(v)
  {
    orientation := "";
    var orientationX := if v.x < 0.0 then 'R' else 'L';
    var orientationY := if v.y < 0.0 then 'A' else 'P';
    var orientationZ := if v.z < 0.0 then 'F' else 'H';
    var absX := Abs(v.x);
    var absY := Abs(v.y);
    var absZ := Abs(v.z);
    ghost var m := Magnitudes(v);
    assert orientationX == Letter(v, 0) && orientationY == Letter(v, 1) && orientationZ == Letter(v, 2);
    for i := 0 to 3
      invariant m == [absX, absY, absZ]
      invariant orientation + Letters(v, Axes(m, 3 - i)) == Orientation(v)
    {
      if absX > EPSILON && absX > absY && absX > absZ {
        assert Pick(m) == Some(0);
        PassPicks(v, orientation, m, 3 - i, 0);
        orientation := orientation + [orientationX];
        absX := 0.0;
        m := m[0 := 0.0];
      } else if absY > EPSILON && absY > absX && absY > absZ {
        assert Pick(m) == Some(1);
        PassPicks(v, orientation, m, 3 - i, 1);
        orientation := orientation + [orientationY];
        absY := 0.0;
        m := m[1 := 0.0];
      } else if absZ > EPSILON && absZ > absX && absZ > absY {
        assert Pick(m) == Some(2);
        PassPicks(v, orientation, m, 3 - i, 2);
        orientation := orientation + [orientationZ];
        absZ := 0.0;
        m := m[2 := 0.0];
      } else {
        assert Pick(m) == None;
        PassBreaks(v, orientation, m, 3 - i);
        break;
      }
    }
  }

  /**
   * Each pass picks an axis above the threshold that is strictly larger than all axes still in
   * play; zeroing it takes it out of play. So the picked axes have magnitudes above the
   * threshold, in strictly decreasing order (hence each axis at most once), at most one per pass.
   */
  lemma {:induction false} AxesFacts(m: seq<real>, rounds: nat)
    requires |m| == 3
    decreases rounds
    ensures |Axes(m, rounds)| <= rounds
    ensures forall k :: 0 <= k < |Axes(m, rounds)| ==> Axes(m, rounds)[k] < 3 && m[Axes(m, rounds)[k]] > EPSILON
    ensures forall k, l :: 0 <= k < l < |Axes(m, rounds)| ==> m[Axes(m, rounds)[k]] > m[Axes(m, rounds)[l]]
  {
    if rounds > 0 && Pick(m).Some? {
      var a := Pick(m).value;
      PickDominant(m);
      var m' := m[a := 0.0];
      AxesFacts(m', rounds - 1);
      var rest := Axes(m', rounds - 1);
      var axes := Axes(m, rounds);
      assert axes == [a] + rest;
      forall k | 0 <= k < |rest|
        ensures rest[k] != a && m[rest[k]] == m'[rest[k]]
      {
      }
      forall k | 0 <= k < |axes|
        ensures axes[k] < 3 && m[axes[k]] > EPSILON
      {
        if k > 0 {
          assert axes[k] == rest[k - 1];
        }
      }
      forall k, l | 0 <= k < l < |axes|
        ensures m[axes[k]] > m[axes[l]]
      {
        assert axes[l] == rest[l - 1];
        if k > 0 {
          assert axes[k] == rest[k - 1];
        }
      }
    }
  }

  /** How many axes have a magnitude above the threshold. */
  function AboveCount(m: seq<real>): nat
    requires |m| == 3
  {
    (if m[0] > EPSILON then 1 else 0) + (if m[1] > EPSILON then 1 else 0) + (if m[2] > EPSILON then 1 else 0)
  }

  /** The axes above the threshold have pairwise different magnitudes. */
  predicate NoTies(m: seq<real>)
    requires |m| == 3
  {
    forall a, b :: 0 <= a < 3 && 0 <= b < 3 && a != b && m[a] > EPSILON && m[b] > EPSILON ==> m[a] != m[b]
  }

  /** An axis of largest magnitude. */
  function Largest(m: seq<real>): (a: nat)
    requires |m| == 3
    ensures a < 3 && forall b :: 0 <= b < 3 ==> m[b] <= m[a]
  {
    if m[0] >= m[1] && m[0] >= m[2] then 0 else if m[1] >= m[2] then 1 else 2
  }

  /** At most one axis is dominant. */
  lemma DominantUnique(m: seq<real>, a: nat, b: nat)
    requires |m| == 3 && a < 3 && b < 3 && Dominant(m, a) && Dominant(m, b)
    ensures a == b
  {
  }

  /** Without ties, every axis above the threshold is picked, given a pass for each. */
  lemma {:induction false} AxesComplete(m: seq<real>, rounds: nat)
    requires |m| == 3 && NoTies(m) && AboveCount(m) <= rounds
    decreases rounds
    ensures forall a :: 0 <= a < 3 && m[a] > EPSILON ==> a in Axes(m, rounds)
  {
    if AboveCount(m) > 0 {
      var a := Largest(m);
      assert m[a] > EPSILON;
      assert Dominant(m, a);
      PickDominant(m);
      DominantUnique(m, a, Pick(m).value);
      var m' := m[a := 0.0];
      assert AboveCount(m') == AboveCount(m) - 1;
      AxesComplete(m', rounds - 1);
      assert Axes(m, rounds) == [a] + Axes(m', rounds - 1);
      forall b | 0 <= b < 3 && m[b] > EPSILON
        ensures b in Axes(m, rounds)
      {
        if b != a {
          assert m'[b] == m[b];
          assert b in Axes(m', rounds - 1);
        }
      }
    }
  }

  /** When the two largest magnitudes tie, the first pass breaks and nothing is named. */
  lemma AxesTieAtTop(m: seq<real>, rounds: nat, a: nat, b: nat)
    requires |m| == 3 && a < 3 && b < 3 && a != b && m[a] == m[b]
    requires forall c :: 0 <= c < 3 ==> m[c] <= m[a]
    ensures Axes(m, rounds) == []
  {
    forall c | 0 <= c < 3
      ensures !Dominant(m, c)
    {
      if c == a {
        assert m[a] <= m[b];
      } else {
        assert m[c] <= m[a];
      }
    }
    PickDominant(m);
  }

  /** Letters of different axes are different. */
  lemma LetterNamesAxis(v: Vec3, a: nat, b: nat)
    requires a < 3 && b < 3 && a != b
    ensures Letter(v, a) != Letter(v, b)
  {
  }

  /**
   * `ComputeOrientation` names at most three axes, each with the letter for its sign, each above
   * the threshold, strongest first and strictly decreasing; so no letter appears twice.
   */
  lemma OrientationShape(v: Vec3)
    ensures |Orientation(v)| == |OrientationAxes(v)| <= 3
    ensures forall k :: 0 <= k < |OrientationAxes(v)| ==>
      OrientationAxes(v)[k] < 3 && Orientation(v)[k] == Letter(v, OrientationAxes(v)[k])
      && Abs(Component(v, OrientationAxes(v)[k])) > EPSILON
    ensures forall k, l :: 0 <= k < l < |OrientationAxes(v)| ==>
      Abs(Component(v, OrientationAxes(v)[k])) > Abs(Component(v, OrientationAxes(v)[l]))
    ensures forall k, l :: 0 <= k < l < |Orientation(v)| ==> Orientation(v)[k] != Orientation(v)[l]
  {
    var axes := OrientationAxes(v);
    AxesFacts(Magnitudes(v), 3);
    LettersLength(v, axes);
    forall k, l | 0 <= k < l < |axes|
      ensures Orientation(v)[k] != Orientation(v)[l]
    {
      LetterNamesAxis(v, axes[k], axes[l]);
    }
  }

  /**
   * When the components above the threshold have different magnitudes, every one of them is
   * named: together with `OrientationShape`, the string is exactly those axes' letters, by
   * decreasing magnitude.
   */
  lemma OrientationComplete(v: Vec3)
    requires NoTies(Magnitudes(v))
    ensures forall a :: 0 <= a < 3 && Abs(Component(v, a)) > EPSILON ==> a in OrientationAxes(v)
  {
    AxesComplete(Magnitudes(v), 3);
  }

  /** When the largest magnitude is shared by two axes, the string is empty. */
  lemma OrientationTie(v: Vec3, a: nat, b: nat)
    requires a < 3 && b < 3 && a != b && Abs(Component(v, a)) == Abs(Component(v, b))
    requires forall c :: 0 <= c < 3 ==> Abs(Component(v, c)) <= Abs(Component(v, a))
    ensures Orientation(v) == ""
  {
    AxesTieAtTop(Magnitudes(v), 3, a, b);
  }

  lemma OrientationExamples()
    ensures Orientation(Vec3(1.0, 1.0, 0.0)) == ""
    ensures Orientation(Vec3(1.0, 0.5, 0.5)) == "L"
    ensures Orientation(Vec3(0.2, -0.9, 0.4)) == "AHL"
    ensures Orientation(Vec3(0.0, 0.0, 0.00005)) == ""
  {
    OrientationTie(Vec3(1.0, 1.0, 0.0), 0, 1);
    var m := Magnitudes(Vec3(1.0, 0.5, 0.5));
    assert Axes(m, 3) == [0] + Axes(m[0 := 0.0], 2);
    AxesTieAtTop(m[0 := 0.0], 2, 1, 2);
    var n := Magnitudes(Vec3(0.2, -0.9, 0.4));
    assert Axes(n, 3) == [1, 2, 0];
  }

  /**
   * `parse_3d` reads `ns[0]`, `ns[1]` and `ns[2]` whenever the split is non-empty, so a string
   * with one or two values is read out of range: callers must supply none or at least three.
   */
  predicate HasThreeValues(data: string) {
    var ns := Split(data, "\\");
    ns == [] || |ns| >= 3
  }

  /**
   * `parse_3d`: split on the backslash; for the first three values, set the component when the
   * value parses and leave it 0 otherwise (the failure is only reported on the console).
   */
  method Parse3D(data: string, parse: DoubleParser) returns (res: Vec3)
    requires HasThreeValues(data)
    ensures Split(data, "\\") == [] ==> res == Vec3(0.0, 0.0, 0.0)
    ensures Split(data, "\\") != [] ==>
      forall k :: 0 <= k < 3 ==> Component(res, k) == ParseDouble(parse, Split(data, "\\")[k])
  {
    res := Vec3(0.0, 0.0, 0.0);
    var ns := SplitTokens(data, "\\");
    if ns != [] {
      for i := 0 to 3
        invariant forall k :: 0 <= k < i ==> Component(res, k) == ParseDouble(parse, ns[k])
        invariant forall k :: i <= k < 3 ==> Component(res, k) == 0.0
      {
        var r := parse(ns[i]);
        if r.ok {
          res := WithComponent(res, i, r.value);
        }
      }
    }
  }

  /** Three values, none empty or holding a backslash, are recovered from their joined form. */
  lemma ThreeValuesRoundTrip(a: string, b: string, c: string)
    requires |a| > 0 && |b| > 0 && |c| > 0 && '\\' !in a && '\\' !in b && '\\' !in c
    ensures Split(a + "\\" + b + "\\" + c, "\\") == [a, b, c]
    ensures HasThreeValues(a + "\\" + b + "\\" + c)
  {
    SplitNoChar(c, '\\');
    SplitAtChar(b, '\\', c);
    SplitAtChar(a, '\\', b + "\\" + c);
    assert a + "\\" + b + "\\" + c == a + "\\" + (b + "\\" + c);
  }

  /** The empty string reads as the zero vector; two values do not satisfy the requirement. */
  lemma Parse3DBoundaries()
    ensures Split("", "\\") == []
    ensures !HasThreeValues("1\\2")
  {
    SplitEmpty("\\");
    SplitNoChar("2", '\\');
    SplitAtChar("1", '\\', "2");
    assert "1\\2" == "1" + "\\" + "2";
  }
}
