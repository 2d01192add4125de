/** The public data of compaxx.h — sensor readings, the calibration context
    and the error codes — and the two operations that fill the context,
    `startCalibration` and `addCalibrationPoint` (compaxx.c). */
module Context {
  import opened Vectors

  /** `MAX_SENSOR_POINTS`: the capacity of the context buffer. */
  const MaxSensorPoints: nat := 200

  /** C `short`. */
  newtype Short = x: int | -32768 <= x < 32768

  /** `SensorData`: one raw 3-axis reading of the instrument. */
  datatype SensorData = SensorData(x: Short, y: Short, z: Short)

  /** The reading as a `Point`: the `(float)` conversion of each coordinate. */
  function ToPoint(s: SensorData): Point {
    Point(s.x as real, s.y as real, s.z as real)
  }

  /** `CalibrationCtxPoint`: a reading and its magnetic heading. */
  datatype CtxPoint = CtxPoint(sensorData: SensorData, magneticHeading: real)

  /** `CalibrationContext`: a fixed buffer of `MAX_SENSOR_POINTS` entries of
      which the first `pointCount` are live. */
  datatype CalibrationContext = CalibrationContext(points: seq<CtxPoint>, pointCount: int)
  {
    ghost predicate Valid() {
      |points| == MaxSensorPoints && 0 <= pointCount <= MaxSensorPoints
    }
  }

  /** The live entries of a context. */
  function Live(ctx: CalibrationContext): seq<CtxPoint>
    requires ctx.Valid()
  {
    ctx.points[..ctx.pointCount]
  }

  /** The error codes of compaxx.h. */
  datatype ErrorCode =
    | Success
    | NeedCoarseCalibration
    | NotEnoughCalibrationPoints
    | TooManyCoarsePoints
    | TooManyFinePoints
  {
    /** The numeric value the C functions return. */
    function Code(): int {
      match this
      case Success => 0
      case NeedCoarseCalibration => -1
      case NotEnoughCalibrationPoints => -2
      case TooManyCoarsePoints => -3
      case TooManyFinePoints => -4
    }
  }

  datatype Option<T> = None | Some(value: T)

  /** `Calibration`: the coefficients (A, B, C) of the fitted plane
      A x + B y + C z + D = 0; D is not stored. */
  datatype Calibration = Calibration(planeA: real, planeB: real, planeC: real)
  {
    function Normal(): Point {
      Point(planeA, planeB, planeC)
    }
  }

  /** The calibration whose plane has the given normal. */
  function FromNormal(n: Point): (r: Calibration)
    ensures r.Normal() == n
  {
    Calibration(n.x, n.y, n.z)
  }


  /** One call of `addCalibrationPoint`: a reading and the optional heading
      passed by pointer (`None` for a NULL pointer). */
  datatype Reading = Reading(sensorData: SensorData, magneticHeading: Option<real>)

  /** The entry `addCalibrationPoint` stores for a reading: a missing heading
      is recorded as -1. */
  function Stored(reading: Reading): (r: CtxPoint)
    ensures r.sensorData == reading.sensorData
    ensures reading.magneticHeading.Some? ==> r.magneticHeading == reading.magneticHeading.value
    ensures reading.magneticHeading.None? ==> r.magneticHeading == -1.0
  {
    CtxPoint(reading.sensorData,
             match reading.magneticHeading
             case None => -1.0
             case Some(h) => h)
  }

  /** The status a context operation returns and the context it leaves. */
  datatype Outcome = Outcome(status: ErrorCode, ctx: CalibrationContext)

  /** `startCalibration`: empties the context and returns `E_SUCCESS`. The
      buffer is left as it was; its stale entries are no longer live. */
  function StartCalibration(ctx: CalibrationContext): (r: Outcome)
    requires |ctx.points| == MaxSensorPoints
    ensures r.status == Success
    ensures r.ctx.Valid()
    ensures Live(r.ctx) == []
    ensures r.ctx.points == ctx.points
  {
    Outcome(Success, ctx.(pointCount := 0))
  }

  /** `addCalibrationPoint`: appends a reading, or refuses with
      `E_TOO_MANY_COARSE_POINTS` when the buffer is full. */
  function AddCalibrationPoint(ctx: CalibrationContext, reading: Reading): (r: Outcome)
    requires ctx.Valid()
    ensures r.ctx.Valid()
    ensures r.status == Success || r.status == TooManyCoarsePoints
    ensures r.status == TooManyCoarsePoints <==> ctx.pointCount == MaxSensorPoints
    ensures r.status == TooManyCoarsePoints ==> r.ctx == ctx
    ensures r.status == Success ==>
      && r.ctx.pointCount == ctx.pointCount + 1
      && r.ctx.points[ctx.pointCount] == Stored(reading)
      && Live(r.ctx) == Live(ctx) + [Stored(reading)]
      && (forall i :: 0 <= i < MaxSensorPoints && i != ctx.pointCount ==>
            r.ctx.points[i] == ctx.points[i])
  {
    if ctx.pointCount == MaxSensorPoints then
      Outcome(TooManyCoarsePoints, ctx)
    else
      var r := ctx.(points := ctx.points[ctx.pointCount := Stored(reading)],
                    pointCount := ctx.pointCount + 1);
      assert Live(r) == Live(ctx) + [Stored(reading)];
      Outcome(Success, r)
  }

  /** A sequence of `addCalibrationPoint` calls, with the status of each. */
  datatype Session = Session(ctx: CalibrationContext, statuses: seq<ErrorCode>)

  function AddAll(ctx: CalibrationContext, readings: seq<Reading>): Session
    requires ctx.Valid()
    decreases |readings|
  {
    if |readings| == 0 then Session(ctx, [])
    else
      var first := AddCalibrationPoint(ctx, readings[0]);
      var rest := AddAll(first.ctx, readings[1..]);
      Session(rest.ctx, [first.status] + rest.statuses)
  }

  function Min(a: int, b: int): int {
    if a <= b then a else b
  }

  /** Adding readings one by one keeps the first `MAX_SENSOR_POINTS` of them
      in order after the entries already live; each add succeeds exactly
      while there is room, and a refused add changes nothing. */
  lemma {:induction false} AddAllKeepsPrefix(ctx: CalibrationContext, readings: seq<Reading>)
    requires ctx.Valid()
    ensures AddAll(ctx, readings).ctx.Valid()
    ensures AddAll(ctx, readings).ctx.pointCount
            == Min(ctx.pointCount + |readings|, MaxSensorPoints)
    ensures |AddAll(ctx, readings).statuses| == |readings|
    ensures forall k :: 0 <= k < |readings| ==>
              (AddAll(ctx, readings).statuses[k] == Success
               <==> ctx.pointCount + k < MaxSensorPoints)
    ensures forall k :: 0 <= k < |readings| ==>
              (AddAll(ctx, readings).statuses[k] != Success
               ==> AddAll(ctx, readings).statuses[k] == TooManyCoarsePoints)
    ensures Live(AddAll(ctx, readings).ctx)[..ctx.pointCount] == Live(ctx)
    ensures forall k :: 0 <= k < |readings| && ctx.pointCount + k < MaxSensorPoints ==>
              Live(AddAll(ctx, readings).ctx)[ctx.pointCount + k] == Stored(readings[k])
    decreases |readings|
  {
    if |readings| > 0 {
      var first := AddCalibrationPoint(ctx, readings[0]);
      var rest := readings[1..];
      AddAllKeepsPrefix(first.ctx, rest);
      var s := AddAll(ctx, readings);
      var t := AddAll(first.ctx, rest);
      assert s.ctx == t.ctx;
      assert s.statuses == [first.status] + t.statuses;
      forall k | 0 <= k < |readings|
        ensures s.statuses[k] == Success <==> ctx.pointCount + k < MaxSensorPoints
        ensures s.statuses[k] != Success ==> s.statuses[k] == TooManyCoarsePoints
      {
        if k > 0 {
          assert s.statuses[k] == t.statuses[k - 1];
          assert rest[k - 1] == readings[k];
        }
      }
      if first.status == Success {
        assert Live(first.ctx)[..ctx.pointCount] == Live(ctx);
        assert Live(s.ctx)[..first.ctx.pointCount] == Live(first.ctx);
        forall k | 0 <= k < |readings| && ctx.pointCount + k < MaxSensorPoints
          ensures Live(s.ctx)[ctx.pointCount + k] == Stored(readings[k])
        {
          if k == 0 {
            assert Live(s.ctx)[ctx.pointCount] == Live(first.ctx)[ctx.pointCount];
          } else {
            assert rest[k - 1] == readings[k];
          }
        }
      }
    }
  }

  /** From a freshly started context, the live entries are exactly the first
      `MAX_SENSOR_POINTS` readings, stored in order. */
  lemma CalibrationSession(ctx: CalibrationContext, readings: seq<Reading>)
    requires |ctx.points| == MaxSensorPoints
    ensures AddAll(StartCalibration(ctx).ctx, readings).ctx.Valid()
    ensures |Live(AddAll(StartCalibration(ctx).ctx, readings).ctx)|
            == Min(|readings|, MaxSensorPoints)
    ensures forall k :: 0 <= k < Min(|readings|, MaxSensorPoints) ==>
              Live(AddAll(StartCalibration(ctx).ctx, readings).ctx)[k] == Stored(readings[k])
    ensures |AddAll(StartCalibration(ctx).ctx, readings).statuses| == |readings|
    ensures forall k :: 0 <= k < |readings| ==>
              (AddAll(StartCalibration(ctx).ctx, readings).statuses[k] == Success
               <==> k < MaxSensorPoints)
  {
    AddAllKeepsPrefix(StartCalibration(ctx).ctx, readings);
  }
}
