/**
 * `build_transformation_mat` and `get_camera_positions_on_sphere`: a 4x4 pose matrix
 * assembled in a numpy buffer, and cameras enumerated layer by layer on a sphere.
 * `to_track_quat(...).to_euler()` and `Euler(...).to_matrix()` from `mathutils`, and
 * the sine and cosine, are parameters (`CameraMath`).
 */
module CameraLayout {
  import opened Wrappers
  import opened Geometry

  /** A 3x3 matrix as a list of three rows. */
  type Mat3 = m: seq<seq<real>> | |m| == 3 && forall i :: 0 <= i < 3 ==> |m[i]| == 3
    witness [[0.0, 0.0, 0.0], [0.0, 0.0, 0.0], [0.0, 0.0, 0.0]]

  /** What `np.array(...)` makes of an argument: a 1-D array, or a 2-D array given by its rows. */
  datatype NdArray = Vector(items: seq<real>) | Matrix(rows: seq<seq<real>>)

  /** Rows of one length; `np.array` raises ValueError on a ragged list of lists. */
  predicate Rectangular(a: NdArray) {
    a.Matrix? ==> forall i :: 0 <= i < |a.rows| ==> |a.rows[i]| == |a.rows[0]|
  }

  /** `a.shape[0]`. */
  function Leading(a: NdArray): nat {
    if a.Vector? then |a.items| else |a.rows|
  }

  /** `a.shape == (3, 3)`. */
  predicate IsThreeByThree(a: NdArray) {
    a.Matrix? && |a.rows| == 3 && forall i :: 0 <= i < 3 ==> |a.rows[i]| == 3
  }

  /**
   * The three angles `Euler(a)` reads from an array of leading length 3: the items of a
   * vector, or the single entry of each row of a (3, 1) array. Any other row length makes
   * `float()` of a row fail.
   */
  function EulerAngles(a: NdArray): (angles: Option<Vec3>)
    requires Leading(a) == 3
    ensures a.Vector? ==> angles == Some(Vec3(a.items[0], a.items[1], a.items[2]))
    ensures a.Matrix? ==> (angles.Some? <==> forall i :: 0 <= i < 3 ==> |a.rows[i]| == 1)
    ensures a.Matrix? && angles.Some? ==> angles.value == Vec3(a.rows[0][0], a.rows[1][0], a.rows[2][0])
  {
    if a.Vector? then Some(Vec3(a.items[0], a.items[1], a.items[2]))
    else if |a.rows[0]| == 1 && |a.rows[1]| == 1 && |a.rows[2]| == 1 then
      Some(Vec3(a.rows[0][0], a.rows[1][0], a.rows[2][0]))
    else None
  }

  datatype LayoutError =
    | RaggedArray
    | InvalidTranslationShape
    | TranslationNotBroadcastable
    | InvalidRotationShape
    | EulerAnglesNotScalar
    | NegativeSampleCount(num: int)
    | MissingAzimuths

  // ---------------------------------------------------------------- build_transformation_mat

  /** The pose with rotation block `rot` and translation column `t`, bottom row (0, 0, 0, 1). */
  function TransformMatrix(t: Vec3, rot: Mat3): seq<seq<real>> {
    [rot[0] + [t.x], rot[1] + [t.y], rot[2] + [t.z], [0.0, 0.0, 0.0, 1.0]]
  }

  /** The rows of a 4x4 buffer. */
  function RowsOf(mat: array2<real>): (rows: seq<seq<real>>)
    requires mat.Length0 == 4 && mat.Length1 == 4
    reads mat
    ensures |rows| == 4 && forall i :: 0 <= i < 4 ==> |rows[i]| == 4
    ensures forall i, j :: 0 <= i < 4 && 0 <= j < 4 ==> rows[i][j] == mat[i, j]
  {
    seq(4, i requires 0 <= i < 4 reads mat => seq(4, j requires 0 <= j < 4 reads mat => mat[i, j]))
  }

  /** `R p`. */
  function Rotate(rot: Mat3, p: Vec3): Vec3 {
    Vec3(
      rot[0][0] * p.x + rot[0][1] * p.y + rot[0][2] * p.z,
      rot[1][0] * p.x + rot[1][1] * p.y + rot[1][2] * p.z,
      rot[2][0] * p.x + rot[2][1] * p.y + rot[2][2] * p.z)
  }

  /** A 4x4 matrix applied to the homogeneous point (p, 1). */
  function ApplyHomogeneous(m: seq<seq<real>>, p: Vec3): seq<real>
    requires |m| == 4 && forall i :: 0 <= i < 4 ==> |m[i]| == 4
  {
    seq(4, i requires 0 <= i < 4 => m[i][0] * p.x + m[i][1] * p.y + m[i][2] * p.z + m[i][3])
  }

  /** The pose maps p to R p + t and keeps the homogeneous coordinate 1. */
  lemma TransformMovesPoints(t: Vec3, rot: Mat3, p: Vec3)
    ensures |TransformMatrix(t, rot)| == 4 && forall i :: 0 <= i < 4 ==> |TransformMatrix(t, rot)[i]| == 4
    ensures var q := Add(Rotate(rot, p), t);
      ApplyHomogeneous(TransformMatrix(t, rot), p) == [q.x, q.y, q.z, 1.0]
  {
    var m := TransformMatrix(t, rot);
    var q := Add(Rotate(rot, p), t);
    var image := ApplyHomogeneous(m, p);
    assert image[0] == q.x && image[1] == q.y && image[2] == q.z;
    assert image[3] == 0.0 * p.x + 0.0 * p.y + 0.0 * p.z + 1.0;
  }

  /**
   * `build_transformation_mat`: `np.eye(4)`, the translation written into column 3, then
   * the rotation (a 3x3 array as it is, otherwise Euler angles) written into the upper-left
   * block. A translation is checked first: its leading length must be 3 and, being written
   * into one column, it must be one-dimensional (a (3, 1) array does not broadcast into it).
   */
  method BuildTransformationMat(translation: NdArray, rotation: NdArray, eulerToMatrix: Vec3 -> Mat3)
    returns (r: Result<seq<seq<real>>, LayoutError>)
    ensures !Rectangular(translation) || !Rectangular(rotation) ==> r == Failure(RaggedArray)
    ensures Rectangular(translation) && Rectangular(rotation) ==>
      && (Leading(translation) != 3 ==> r == Failure(InvalidTranslationShape))
      && (Leading(translation) == 3 && translation.Matrix? ==> r == Failure(TranslationNotBroadcastable))
    ensures Rectangular(translation) && Rectangular(rotation) && translation.Vector? && |translation.items| == 3 ==>
      var t := Vec3(translation.items[0], translation.items[1], translation.items[2]);
      && (IsThreeByThree(rotation) ==> r == Success(TransformMatrix(t, rotation.rows)))
      && (!IsThreeByThree(rotation) && Leading(rotation) == 3 ==>
            r == if EulerAngles(rotation).Some? then Success(TransformMatrix(t, eulerToMatrix(EulerAngles(rotation).value)))
                 else Failure(EulerAnglesNotScalar))
      && (!IsThreeByThree(rotation) && Leading(rotation) != 3 ==> r == Failure(InvalidRotationShape))
  {
    if !Rectangular(translation) || !Rectangular(rotation) {
      return Failure(RaggedArray);
    }
    var mat := new real[4, 4];
    for i := 0 to 4
      invariant forall a, b :: 0 <= a < i && 0 <= b < 4 ==> mat[a, b] == if a == b then 1.0 else 0.0
    {
      for j := 0 to 4
        invariant forall a, b :: 0 <= a < i && 0 <= b < 4 ==> mat[a, b] == if a == b then 1.0 else 0.0
        invariant forall b :: 0 <= b < j ==> mat[i, b] == if i == b then 1.0 else 0.0
      {
        mat[i, j] := if i == j then 1.0 else 0.0;
      }
    }
    if Leading(translation) != 3 {
      return Failure(InvalidTranslationShape);
    }
    if translation.Matrix? {
      return Failure(TranslationNotBroadcastable);
    }
    var t := Vec3(translation.items[0], translation.items[1], translation.items[2]);
    for i := 0 to 3
      invariant forall a, b :: 0 <= a < 4 && 0 <= b < 4 ==>
        mat[a, b] == if b == 3 && a < i then translation.items[a] else if a == b then 1.0 else 0.0
    {
      mat[i, 3] := translation.items[i];
    }
    var block: Mat3;
    if IsThreeByThree(rotation) {
      block := rotation.rows;
    } else if Leading(rotation) == 3 {
      var angles := EulerAngles(rotation);
      if angles.None? {
        return Failure(EulerAnglesNotScalar);
      }
      block := eulerToMatrix(angles.value);
    } else {
      return Failure(InvalidRotationShape);
    }
    var target := TransformMatrix(t, block);
    for i := 0 to 3
      invariant forall a, b :: 0 <= a < 4 && 0 <= b < 4 ==>
        mat[a, b] == if a < i && b < 3 then block[a][b] else if b == 3 && a < 3 then translation.items[a]
                     else if a == b then 1.0 else 0.0
    {
      for j := 0 to 3
        invariant forall a, b :: 0 <= a < 4 && 0 <= b < 4 ==>
          mat[a, b] == if (a < i || (a == i && b < j)) && b < 3 then block[a][b]
                       else if b == 3 && a < 3 then translation.items[a] else if a == b then 1.0 else 0.0
      {
        mat[i, j] := block[i][j];
      }
    }
    var rows := RowsOf(mat);
    forall a | 0 <= a < 4
      ensures rows[a] == target[a]
    {
      assert forall b :: 0 <= b < 4 ==> rows[a][b] == target[a][b];
    }
    assert rows == target;
    r := Success(rows);
  }

  /** The bottom row of every matrix the builder returns is (0, 0, 0, 1). */
  lemma BottomRowFixed(t: Vec3, rot: Mat3)
    ensures TransformMatrix(t, rot)[3] == [0.0, 0.0, 0.0, 1.0]
    ensures forall i :: 0 <= i < 3 ==> TransformMatrix(t, rot)[i][..3] == rot[i]
    ensures [TransformMatrix(t, rot)[0][3], TransformMatrix(t, rot)[1][3], TransformMatrix(t, rot)[2][3]] == [t.x, t.y, t.z]
  {
    var m := TransformMatrix(t, rot);
    assert m[0][..3] == rot[0] && m[1][..3] == rot[1] && m[2][..3] == rot[2];
  }

  // ---------------------------------------------------------------- azimuths

  /**
   * `np.linspace(start, stop, num)` for `num >= 0`: `num` evenly spaced samples
   * `start + j * step` with `step = (stop - start) / (num - 1)`, the last one set to `stop`.
   */
  function Linspace(start: real, stop: real, num: nat): (s: seq<real>)
    ensures |s| == num
  {
    if num == 0 then []
    else if num == 1 then [start]
    else
      var step := (stop - start) / ((num - 1) as real);
      seq(num, j requires 0 <= j < num => if j == num - 1 then stop else (j as real) * step + start)
  }

  /** `s[:-1]`. */
  function DropLast<T>(s: seq<T>): seq<T> {
    if s == [] then [] else s[..|s| - 1]
  }

  /** Python's `x % m` on floats for `m > 0`: the remainder has the sign of `m`. */
  function FloorMod(x: real, m: real): (r: real)
    requires m > 0.0
    ensures 0.0 <= r < m
  {
    FloorBounds(x, m);
    x - m * ((x / m).Floor as real)
  }

  /** `m * floor(x / m)` is the largest multiple of `m` not above `x`. */
  lemma FloorBounds(x: real, m: real)
    requires m > 0.0
    ensures m * ((x / m).Floor as real) <= x < m * ((x / m).Floor as real) + m
  {
    var q := x / m;
    var f := q.Floor as real;
    assert f <= q < f + 1.0;
    assert m * q == x;
    MulMonotoneReal(m, f, q);
    MulMonotoneReal(m, q, f + 1.0);
    assert m * (f + 1.0) == m * f + m;
    assert x < m * f + m;
  }

  lemma MulMonotoneReal(m: real, a: real, b: real)
    requires m > 0.0 && a <= b
    ensures m * a <= m * b
    ensures a < b ==> m * a < m * b
  {
  }

  /** On [0, m) the remainder is the number itself. */
  lemma FloorModOfRemainder(x: real, m: real)
    requires 0.0 <= x < m
    ensures FloorMod(x, m) == x
  {
    assert 0.0 <= x / m < 1.0;
    assert (x / m).Floor == 0;
  }

  /** The j-th evenly spaced azimuth in degrees, for n cameras per layer. */
  function EvenAzimuth(j: nat, n: nat): real
    requires n > 0
  {
    (j as real) * 360.0 / (n as real)
  }

  /**
   * `azimuth_deg` of `get_camera_positions_on_sphere`. With `num_camera_per_layer` given
   * and no `azimuths`, the n evenly spaced degrees from 0, each shifted by the offset and
   * not wrapped again; otherwise the `azimuths` list as it is (and `np.deg2rad(None)`
   * raises when it is absent too).
   */
  function AzimuthDegrees(numCameraPerLayer: Option<int>, azimuthOffset: Option<real>, azimuths: Option<seq<real>>)
    : (r: Result<seq<real>, LayoutError>)
    ensures numCameraPerLayer.Some? && azimuths.None? && numCameraPerLayer.value < -1 ==>
      r == Failure(NegativeSampleCount(numCameraPerLayer.value + 1))
    ensures numCameraPerLayer.Some? && azimuths.None? && numCameraPerLayer.value >= -1 ==>
      && r.Success?
      && |r.value| == (if numCameraPerLayer.value > 0 then numCameraPerLayer.value else 0)
      && forall j :: 0 <= j < |r.value| ==>
           r.value[j] == EvenAzimuth(j, numCameraPerLayer.value) + if azimuthOffset.Some? then azimuthOffset.value else 0.0
    ensures (numCameraPerLayer.None? || azimuths.Some?) ==>
      r == if azimuths.Some? then Success(azimuths.value) else Failure(MissingAzimuths)
  {
    if numCameraPerLayer.Some? && azimuths.None? then
      var num := numCameraPerLayer.value + 1;
      if num < 0 then Failure(NegativeSampleCount(num))
      else
        var samples := DropLast(Linspace(0.0, 360.0, num));
        var wrapped := seq(|samples|, j requires 0 <= j < |samples| => FloorMod(samples[j], 360.0));
        assert forall j :: 0 <= j < |samples| ==> samples[j] == EvenAzimuth(j, num - 1) && wrapped[j] == samples[j] by {
          forall j | 0 <= j < |samples|
            ensures samples[j] == EvenAzimuth(j, num - 1) && wrapped[j] == samples[j]
          {
            EvenSample(j, num - 1);
          }
        }
        if azimuthOffset.Some? then
          Success(seq(|wrapped|, j requires 0 <= j < |wrapped| => wrapped[j] + azimuthOffset.value))
        else Success(wrapped)
    else if azimuths.Some? then Success(azimuths.value)
    else Failure(MissingAzimuths)
  }

  /** Sample j of `np.linspace(0, 360, n + 1)`, for j < n, is 360 j / n and already in [0, 360). */
  lemma EvenSample(j: nat, n: nat)
    requires j < n
    ensures Linspace(0.0, 360.0, n + 1)[j] == EvenAzimuth(j, n)
    ensures 0.0 <= EvenAzimuth(j, n) < 360.0
    ensures FloorMod(EvenAzimuth(j, n), 360.0) == EvenAzimuth(j, n)
  {
    var step := 360.0 / (n as real);
    assert Linspace(0.0, 360.0, n + 1)[j] == (j as real) * step;
    assert (j as real) * step == EvenAzimuth(j, n);
    assert (j as real) < (n as real);
    assert (j as real) * step < (n as real) * step;
    FloorModOfRemainder(EvenAzimuth(j, n), 360.0);
  }

  /** The offset is added after the wrap, so it is never wrapped: -90 stays -90. */
  lemma OffsetNotRewrapped()
    ensures AzimuthDegrees(Some(4), Some(-90.0), None) == Success([-90.0, 0.0, 90.0, 180.0])
  {
    var r := AzimuthDegrees(Some(4), Some(-90.0), None);
    assert |r.value| == 4;
    assert forall j :: 0 <= j < 4 ==> r.value[j] == EvenAzimuth(j, 4) + -90.0;
    assert EvenAzimuth(0, 4) == 0.0 && EvenAzimuth(1, 4) == 90.0 && EvenAzimuth(2, 4) == 180.0 && EvenAzimuth(3, 4) == 270.0;
    assert r.value[0] == -90.0 && r.value[1] == 0.0 && r.value[2] == 90.0 && r.value[3] == 180.0;
    assert r.value == [-90.0, 0.0, 90.0, 180.0];
  }

  // ---------------------------------------------------------------- get_camera_positions_on_sphere

  /**
   * The `mathutils` calls the layout relies on: `(center - pos).to_track_quat("-Z", "Y").to_euler()`
   * and `Euler(angles).to_matrix()`, with the sine and cosine.
   */
  datatype CameraMath = CameraMath(trig: Trig, trackEuler: Vec3 -> Vec3, eulerToMatrix: Vec3 -> Mat3)

  /** The camera at elevation `e` and azimuth `a` (degrees): polar angle pi/2 minus the elevation. */
  function CameraPosition(trig: Trig, center: Vec3, radius: real, e: real, a: real): Vec3 {
    Add(center, Spherical(trig, radius, 0.5 * Pi - Radians(e), Radians(a)))
  }

  /** The camera's pose: placed at `position`, turned so that -Z points at `center` with Y up. */
  function CameraMatrix(cm: CameraMath, center: Vec3, position: Vec3): seq<seq<real>> {
    TransformMatrix(position, cm.eulerToMatrix(cm.trackEuler(Sub(center, position))))
  }

  datatype SphereLayout = SphereLayout(
    points: seq<Vec3>,
    mats: seq<seq<seq<real>>>,
    elevationT: seq<real>,
    azimuthT: seq<real>)

  /** Row-major position k of a `rows` x `m` grid: layer k / m, column k % m. */
  function GridCell(k: nat, rows: nat, m: nat): (cell: (nat, nat))
    requires k < rows * m
    ensures cell.0 < rows && cell.1 < m && k == cell.0 * m + cell.1
  {
    GridBound(k, rows, m);
    (k / m, k % m)
  }

  lemma GridBound(k: nat, rows: nat, m: nat)
    requires k < rows * m
    ensures m > 0 && k / m < rows && k == (k / m) * m + k % m
  {
  }

  /** The cell of position i * m + j is (i, j). */
  lemma GridCellOf(i: nat, j: nat, rows: nat, m: nat)
    requires i < rows && j < m
    ensures i * m + j < rows * m
    ensures GridCell(i * m + j, rows, m) == (i, j)
  {
    MulMonotone(i + 1, rows, m);
    assert i * m + j < (i + 1) * m;
    var k := i * m + j;
    var q, r := k / m, k % m;
    assert (q - i) * m == j - r;
    if q > i {
      MulMonotone(1, q - i, m);
    } else if q < i {
      MulMonotone(1, i - q, m);
    }
  }

  lemma MulMonotone(a: nat, b: nat, m: nat)
    requires a <= b
    ensures a * m <= b * m
  {
    assert b * m == a * m + (b - a) * m;
  }

  /** Entry k of the four lists: the camera of layer k / m and azimuth k % m. */
  predicate EntryAt(cm: CameraMath, center: Vec3, radius: real, elevations: seq<real>, azimuths: seq<real>,
                    l: SphereLayout, k: nat)
    requires k < |elevations| * |azimuths|
    requires k < |l.points| && k < |l.mats| && k < |l.elevationT| && k < |l.azimuthT|
  {
    var cell := GridCell(k, |elevations|, |azimuths|);
    var e, a := elevations[cell.0], azimuths[cell.1];
    && l.elevationT[k] == Radians(e)
    && l.azimuthT[k] == Radians(a)
    && l.points[k] == CameraPosition(cm.trig, center, radius, e, a)
    && l.mats[k] == CameraMatrix(cm, center, l.points[k])
  }

  /** The four lists hold one entry per (elevation, azimuth) pair, elevation-major. */
  predicate Enumerates(cm: CameraMath, center: Vec3, radius: real, elevations: seq<real>, azimuths: seq<real>,
                       l: SphereLayout)
  {
    var n := |elevations| * |azimuths|;
    && |l.points| == n && |l.mats| == n && |l.elevationT| == n && |l.azimuthT| == n
    && forall k :: 0 <= k < n ==> EntryAt(cm, center, radius, elevations, azimuths, l, k)
  }

  /** The first n entries of the four lists are the first n cameras. */
  predicate EntriesUpTo(cm: CameraMath, center: Vec3, radius: real, elevations: seq<real>, azimuths: seq<real>,
                        l: SphereLayout, n: nat)
  {
    && n <= |elevations| * |azimuths|
    && |l.points| == n && |l.mats| == n && |l.elevationT| == n && |l.azimuthT| == n
    && forall k :: 0 <= k < n ==> EntryAt(cm, center, radius, elevations, azimuths, l, k)
  }

  /** Appending the camera of cell n keeps the earlier entries as they were. */
  lemma ExtendEntries(cm: CameraMath, center: Vec3, radius: real, elevations: seq<real>, azimuths: seq<real>,
                      l: SphereLayout, n: nat, point: Vec3, mat: seq<seq<real>>, elevation: real, azimuth: real)
    requires EntriesUpTo(cm, center, radius, elevations, azimuths, l, n)
    requires n < |elevations| * |azimuths|
    ensures var l' := SphereLayout(l.points + [point], l.mats + [mat], l.elevationT + [elevation], l.azimuthT + [azimuth]);
      var cell := GridCell(n, |elevations|, |azimuths|);
      var e, a := elevations[cell.0], azimuths[cell.1];
      (elevation == Radians(e) && azimuth == Radians(a) && point == CameraPosition(cm.trig, center, radius, e, a)
       && mat == CameraMatrix(cm, center, point))
      ==> EntriesUpTo(cm, center, radius, elevations, azimuths, l', n + 1)
  {
    var l' := SphereLayout(l.points + [point], l.mats + [mat], l.elevationT + [elevation], l.azimuthT + [azimuth]);
    forall k | 0 <= k < n
      ensures EntryAt(cm, center, radius, elevations, azimuths, l', k)
    {
      assert EntryAt(cm, center, radius, elevations, azimuths, l, k);
      assert l'.points[k] == l.points[k] && l'.mats[k] == l.mats[k];
      assert l'.elevationT[k] == l.elevationT[k] && l'.azimuthT[k] == l.azimuthT[k];
    }
  }

  /** One pass of the inner loop: the camera at polar angle `phi` and azimuth `theta`, and its pose. */
  method PlaceCamera(cm: CameraMath, center: Vec3, radius: real, phi: real, theta: real)
    returns (camPos: Vec3, camMatrix: seq<seq<real>>)
    ensures camPos == Add(center, Spherical(cm.trig, radius, phi, theta))
    ensures camMatrix == CameraMatrix(cm, center, camPos)
  {
    var x := center.x + radius * cm.trig.sin(phi) * cm.trig.cos(theta);
    var y := center.y + radius * cm.trig.sin(phi) * cm.trig.sin(theta);
    var z := center.z + radius * cm.trig.cos(phi);
    camPos := Vec3(x, y, z);
    var rotationEuler := cm.trackEuler(Sub(center, camPos));
    var built := BuildTransformationMat(Vector([x, y, z]), Vector([rotationEuler.x, rotationEuler.y, rotationEuler.z]),
                                        cm.eulerToMatrix);
    assert built == Success(CameraMatrix(cm, center, camPos));
    camMatrix := built.value;
  }

  /**
   * `get_camera_positions_on_sphere`: for each elevation in turn, for each azimuth, the
   * camera's position, pose, elevation and azimuth (radians) are appended to four lists.
   */
  method GetCameraPositionsOnSphere(cm: CameraMath, center: Vec3, radius: real, elevations: seq<real>,
                                    numCameraPerLayer: Option<int>, azimuthOffset: Option<real>,
                                    azimuths: Option<seq<real>>)
    returns (r: Result<SphereLayout, LayoutError>)
    ensures AzimuthDegrees(numCameraPerLayer, azimuthOffset, azimuths).Failure? ==>
      r == Failure(AzimuthDegrees(numCameraPerLayer, azimuthOffset, azimuths).error)
    ensures AzimuthDegrees(numCameraPerLayer, azimuthOffset, azimuths).Success? ==>
      r.Success? && Enumerates(cm, center, radius, elevations, AzimuthDegrees(numCameraPerLayer, azimuthOffset, azimuths).value, r.value)
  {
    var azimuthDeg :- AzimuthDegrees(numCameraPerLayer, azimuthOffset, azimuths);
    var elevation := seq(|elevations|, i requires 0 <= i < |elevations| => Radians(elevations[i]));
    var azimuth := seq(|azimuthDeg|, j requires 0 <= j < |azimuthDeg| => Radians(azimuthDeg[j]));
    var m := |azimuth|;
    var points: seq<Vec3>, mats: seq<seq<seq<real>>>, elevationT: seq<real>, azimuthT: seq<real> := [], [], [], [];
    ghost var rows := |elevations|;
    ghost var n: nat := 0;
    for i := 0 to |elevation|
      invariant n == i * m
      invariant EntriesUpTo(cm, center, radius, elevations, azimuthDeg, SphereLayout(points, mats, elevationT, azimuthT), n)
    {
      for j := 0 to m
        invariant n == i * m + j
        invariant EntriesUpTo(cm, center, radius, elevations, azimuthDeg, SphereLayout(points, mats, elevationT, azimuthT), n)
      {
        GridCellOf(i, j, rows, m);
        var phi := 0.5 * Pi - elevation[i];
        var theta := azimuth[j];
        var camPos, camMatrix := PlaceCamera(cm, center, radius, phi, theta);
        ExtendEntries(cm, center, radius, elevations, azimuthDeg, SphereLayout(points, mats, elevationT, azimuthT), n,
                      camPos, camMatrix, elevation[i], theta);
        elevationT := elevationT + [elevation[i]];
        azimuthT := azimuthT + [theta];
        points := points + [camPos];
        mats := mats + [camMatrix];
        n := n + 1;
      }
      assert n == (i + 1) * m;
    }
    r := Success(SphereLayout(points, mats, elevationT, azimuthT));
  }

  /** With sin^2 + cos^2 = 1, every camera is `radius` away from `center`. */
  lemma CamerasOnSphere(cm: CameraMath, center: Vec3, radius: real, elevations: seq<real>, azimuths: seq<real>,
                        l: SphereLayout)
    requires Pythagorean(cm.trig)
    requires Enumerates(cm, center, radius, elevations, azimuths, l)
    ensures forall k :: 0 <= k < |l.points| ==> NormSquared(Sub(l.points[k], center)) == radius * radius
  {
    forall k | 0 <= k < |l.points|
      ensures NormSquared(Sub(l.points[k], center)) == radius * radius
    {
      assert EntryAt(cm, center, radius, elevations, azimuths, l, k);
      var cell := GridCell(k, |elevations|, |azimuths|);
      SphericalDistance(cm.trig, center, radius, 0.5 * Pi - Radians(elevations[cell.0]), Radians(azimuths[cell.1]));
    }
  }

  /** Every camera's pose carries the camera's origin to its position. */
  lemma PosesPlaceCameras(cm: CameraMath, center: Vec3, radius: real, elevations: seq<real>, azimuths: seq<real>,
                          l: SphereLayout)
    requires Enumerates(cm, center, radius, elevations, azimuths, l)
    ensures forall k :: 0 <= k < |l.mats| ==>
      && |l.mats[k]| == 4 && (forall i :: 0 <= i < 4 ==> |l.mats[k][i]| == 4)
      && ApplyHomogeneous(l.mats[k], Vec3(0.0, 0.0, 0.0)) == [l.points[k].x, l.points[k].y, l.points[k].z, 1.0]
  {
    forall k | 0 <= k < |l.mats|
      ensures && |l.mats[k]| == 4 && (forall i :: 0 <= i < 4 ==> |l.mats[k][i]| == 4)
              && ApplyHomogeneous(l.mats[k], Vec3(0.0, 0.0, 0.0)) == [l.points[k].x, l.points[k].y, l.points[k].z, 1.0]
    {
      assert EntryAt(cm, center, radius, elevations, azimuths, l, k);
      var p := l.points[k];
      var rot := cm.eulerToMatrix(cm.trackEuler(Sub(center, p)));
      TransformMovesPoints(p, rot, Vec3(0.0, 0.0, 0.0));
      assert Add(Rotate(rot, Vec3(0.0, 0.0, 0.0)), p) == p;
    }
  }

  /** Entry k lists layer k / m and azimuth k % m; its polar angle is pi/2 minus the elevation. */
  lemma ElevationMajorOrder(cm: CameraMath, center: Vec3, radius: real, elevations: seq<real>, azimuths: seq<real>,
                            l: SphereLayout, k: nat)
    requires Enumerates(cm, center, radius, elevations, azimuths, l)
    requires k < |l.points|
    ensures |azimuths| > 0 && k / |azimuths| < |elevations|
    ensures l.elevationT[k] == Radians(elevations[k / |azimuths|])
    ensures l.azimuthT[k] == Radians(azimuths[k % |azimuths|])
    ensures l.points[k] ==
      Add(center, Spherical(cm.trig, radius, 0.5 * Pi - l.elevationT[k], l.azimuthT[k]))
  {
    assert EntryAt(cm, center, radius, elevations, azimuths, l, k);
  }
}
