/** A model of a fitness tracker's workout calculators: a base training
    reading, three concrete workouts (running, sports walking, swimming)
    that derive distance, mean speed and spent calories from it, the record
    that collects those results, and the dispatcher that builds a workout
    from a type code and a list of positional readings.

    Readings are exact `real` numbers. Every failure the program raises is
    an `Err` value: an unknown type code, a reading list of the wrong
    length, the calorie formula missing on the base class, and a division
    by zero. */
module Homework {

  /** The failures the program raises. */
  datatype Error =
    | UnknownType(code: string)                  // the dispatcher's lookup miss
    | ArityMismatch(expected: nat, given: nat)   // wrong number of positional readings
    | NotImplemented                             // calories asked of the base training
    | ZeroDivision                               // `/` or `//` by zero

  datatype Result<+T> = Ok(value: T) | Err(error: Error) {
    predicate IsFailure() { Err? }

    function PropagateFailure<U>(): Result<U>
      requires Err?
    {
      Err(error)
    }

    function Extract(): T
      requires Ok?
    {
      value
    }
  }

  // Constants of the calculators.
  const M_IN_KM: real := 1000.0
  const LEN_STEP: real := 0.65           // metres per step, on land
  const SWIM_LEN_STEP: real := 1.38      // metres per stroke, in the pool
  const MIN_IN_H: real := 60.0
  const RUN_COEF_1: real := 18.0
  const RUN_COEF_2: real := 20.0
  const WALK_COEF_1: real := 0.035
  const WALK_COEF_2: real := 0.029
  const SWIM_SPEED_SHIFT: real := 1.1
  const SWIM_MULTIPLIER: real := 2.0

  /** One training reading. `Base` is the base class, which has no calorie
      formula of its own; the other variants are the concrete workouts. The
      first three fields are the step or stroke count, the duration in hours
      and the weight in kilograms. */
  datatype Training =
    | Base(action: real, duration: real, weight: real)
    | Running(action: real, duration: real, weight: real)
    | SportsWalking(action: real, duration: real, weight: real, height: real)
    | Swimming(action: real, duration: real, weight: real, lengthPool: real, countPool: real)

  /** The record of computed results for one training. */
  datatype InfoMessage = InfoMessage(
    trainingType: string,
    duration: real,
    distance: real,
    speed: real,
    calories: real)

  /** The class name of a training, as the record reports it. */
  function TypeName(t: Training): (name: string)
    ensures name in {"Training", "Running", "SportsWalking", "Swimming"}
    ensures name == "Training" <==> t.Base?
  {
    match t
    case Base(_, _, _) => "Training"
    case Running(_, _, _) => "Running"
    case SportsWalking(_, _, _, _) => "SportsWalking"
    case Swimming(_, _, _, _, _) => "Swimming"
  }

  /** The length of one step or stroke in metres; swimming overrides it. */
  function LenStep(t: Training): (metres: real)
    ensures metres > 0.0
    ensures metres == SWIM_LEN_STEP <==> t.Swimming?
  {
    if t.Swimming? then SWIM_LEN_STEP else LEN_STEP
  }

  /** Distance in kilometres. Never fails. */
  function Distance(t: Training): (km: real)
    ensures km * M_IN_KM == t.action * LenStep(t)
  {
    t.action * LenStep(t) / M_IN_KM
  }

  /** Mean speed in km/h. Swimming measures it from the pool's length and
      the number of lengths, every other training from the distance. */
  function MeanSpeed(t: Training): (r: Result<real>)
    ensures r.Ok? <==> t.duration != 0.0
    ensures r.Err? ==> r.error == ZeroDivision
    ensures r.Ok? && !t.Swimming? ==> r.value * t.duration == Distance(t)
    ensures r.Ok? && t.Swimming? ==> r.value * t.duration * M_IN_KM == t.lengthPool * t.countPool
  {
    if t.duration == 0.0 then Err(ZeroDivision)
    else if t.Swimming? then Ok(t.lengthPool * t.countPool / M_IN_KM / t.duration)
    else Ok(Distance(t) / t.duration)
  }

  /** The square `x ** 2`. */
  function Square(x: real): real
  {
    x * x
  }

  /** Floor division `a // b`: the quotient rounded toward negative infinity. */
  function FloorDiv(a: real, b: real): (r: Result<int>)
    ensures r.Ok? <==> b != 0.0
    ensures r.Err? ==> r.error == ZeroDivision
    ensures r.Ok? ==> r.value as real <= a / b < r.value as real + 1.0
  {
    if b == 0.0 then Err(ZeroDivision) else Ok((a / b).Floor)
  }

  /** Calories spent, in kcal. The base training has no formula. */
  function SpentCalories(t: Training): (r: Result<real>)
    ensures r.Ok? <==> !t.Base? && t.duration != 0.0 && (t.SportsWalking? ==> t.height != 0.0)
    ensures t.Base? ==> r == Err(NotImplemented)
    ensures !t.Base? && r.Err? ==> r.error == ZeroDivision
  {
    match t
    case Base(_, _, _) => Err(NotImplemented)
    case Running(_, duration, weight) =>
      var speed :- MeanSpeed(t);
      Ok((RUN_COEF_1 * speed - RUN_COEF_2) * weight / M_IN_KM * (duration * MIN_IN_H))
    case SportsWalking(_, duration, weight, height) =>
      var speed :- MeanSpeed(t);
      var quotient :- FloorDiv(Square(speed), height);
      Ok((WALK_COEF_1 * weight + quotient as real * WALK_COEF_2 * weight) * (duration * MIN_IN_H))
    case Swimming(_, _, weight, _, _) =>
      var speed :- MeanSpeed(t);
      Ok((speed + SWIM_SPEED_SHIFT) * SWIM_MULTIPLIER * weight)
  }

  /** The record for one training. Its fields are computed in order, so a
      zero duration reports the division by zero before the base class's
      missing calorie formula. */
  function ShowTrainingInfo(t: Training): (r: Result<InfoMessage>)
    ensures r.Ok? <==> SpentCalories(t).Ok?
    ensures t.Base? ==> r.Err?
    ensures r.Err? ==> r.error == (if t.duration == 0.0 then ZeroDivision else SpentCalories(t).error)
    ensures r.Ok? ==> r.value.trainingType == TypeName(t) && r.value.duration == t.duration
  {
    var distance := Distance(t);
    var speed :- MeanSpeed(t);
    var calories :- SpentCalories(t);
    Ok(InfoMessage(TypeName(t), t.duration, distance, speed, calories))
  }

  /** The constructors the dispatcher can call. */
  datatype Kind = SwimmingKind | RunningKind | WalkingKind

  /** The dispatcher's fixed table from type code to constructor. */
  const SPORT_TYPE_REF: map<string, Kind> :=
    map["SWM" := SwimmingKind, "RUN" := RunningKind, "WLK" := WalkingKind]

  /** The number of positional parameters of each constructor. */
  function Arity(k: Kind): (n: nat)
    ensures 3 <= n <= 5
    ensures k == SwimmingKind <==> n == 5
  {
    match k
    case SwimmingKind => 5
    case RunningKind => 3
    case WalkingKind => 4
  }

  /** The constructor arguments of a training, in declaration order. */
  function Fields(t: Training): seq<real>
  {
    match t
    case Base(a, d, w) => [a, d, w]
    case Running(a, d, w) => [a, d, w]
    case SportsWalking(a, d, w, h) => [a, d, w, h]
    case Swimming(a, d, w, l, c) => [a, d, w, l, c]
  }

  /** The type code under which the dispatcher builds a concrete training. */
  function Code(t: Training): string
    requires !t.Base?
  {
    match t
    case Running(_, _, _) => "RUN"
    case SportsWalking(_, _, _, _) => "WLK"
    case Swimming(_, _, _, _, _) => "SWM"
  }

  /** Calls constructor `k` with `data` as its positional arguments. */
  function Construct(k: Kind, data: seq<real>): (r: Result<Training>)
    ensures r.Ok? <==> |data| == Arity(k)
    ensures r.Err? ==> r.error == ArityMismatch(Arity(k), |data|)
    ensures r.Ok? ==> Fields(r.value) == data && !r.value.Base?
  {
    if |data| != Arity(k) then Err(ArityMismatch(Arity(k), |data|))
    else
      match k
      case SwimmingKind => Ok(Swimming(data[0], data[1], data[2], data[3], data[4]))
      case RunningKind => Ok(Running(data[0], data[1], data[2]))
      case WalkingKind => Ok(SportsWalking(data[0], data[1], data[2], data[3]))
  }

  /** Builds the training that `code` names from the positional readings. */
  function ReadPackage(code: string, data: seq<real>): (r: Result<Training>)
    ensures r.Ok? <==> (code == "SWM" && |data| == 5) || (code == "RUN" && |data| == 3)
                       || (code == "WLK" && |data| == 4)
    ensures code !in {"SWM", "RUN", "WLK"} <==> r == Err(UnknownType(code))
    ensures r.Ok? ==> !r.value.Base? && Fields(r.value) == data && Code(r.value) == code
    ensures code == "SWM" && r.Ok? ==> r.value.Swimming?
    ensures code == "RUN" && r.Ok? ==> r.value.Running?
    ensures code == "WLK" && r.Ok? ==> r.value.SportsWalking?
    ensures code == "SWM" && |data| != 5 ==> r == Err(ArityMismatch(5, |data|))
    ensures code == "RUN" && |data| != 3 ==> r == Err(ArityMismatch(3, |data|))
    ensures code == "WLK" && |data| != 4 ==> r == Err(ArityMismatch(4, |data|))
  {
    if code in SPORT_TYPE_REF then Construct(SPORT_TYPE_REF[code], data)
    else Err(UnknownType(code))
  }

  // Properties of the calculators.

  /** The record carries the training's own class name and duration and
      exactly the three computed values. */
  lemma InfoMessageCarriesResults(t: Training)
    requires ShowTrainingInfo(t).Ok?
    ensures MeanSpeed(t).Ok? && SpentCalories(t).Ok?
    ensures ShowTrainingInfo(t).value
            == InfoMessage(TypeName(t), t.duration, Distance(t), MeanSpeed(t).value, SpentCalories(t).value)
  {
  }

  /** Running calories, written in the raw readings: the mean speed's
      division by the duration cancels against the duration factor. */
  lemma RunningCaloriesClosedForm(t: Training)
    requires t.Running? && t.duration != 0.0
    ensures SpentCalories(t) == Ok(t.weight * (0.000702 * t.action - 1.2 * t.duration))
  {
    var speed := MeanSpeed(t).value;
    assert speed * t.duration == t.action * 0.65 / 1000.0;
    assert SpentCalories(t).value
           == (RUN_COEF_1 * speed - RUN_COEF_2) * t.weight / M_IN_KM * (t.duration * MIN_IN_H);
    calc {
      (RUN_COEF_1 * speed - RUN_COEF_2) * t.weight / M_IN_KM * (t.duration * MIN_IN_H);
      t.weight * 0.06 * (18.0 * (speed * t.duration) - 20.0 * t.duration);
      t.weight * 0.06 * (18.0 * (t.action * 0.65 / 1000.0) - 20.0 * t.duration);
      t.weight * (0.000702 * t.action - 1.2 * t.duration);
    }
  }

  /** Sports walking calories for any integer `k` that is the floor of the
      squared mean speed over the height. */
  lemma WalkingCaloriesFloor(t: Training, k: int)
    requires t.SportsWalking? && t.duration != 0.0 && t.height != 0.0
    requires (k as real) <= Square(MeanSpeed(t).value) / t.height < (k as real) + 1.0
    ensures SpentCalories(t).Ok?
    ensures SpentCalories(t).value
            == (0.035 * t.weight + k as real * 0.029 * t.weight) * (t.duration * 60.0)
  {
  }

  /** A walk whose squared distance stays below the height times the
      squared duration burns the weight term only: the floored quotient is
      zero. */
  lemma SlowWalkCalories(t: Training)
    requires t.SportsWalking? && t.duration != 0.0 && t.height > 0.0
    requires Square(Distance(t)) < t.height * Square(t.duration)
    ensures SpentCalories(t).Ok?
    ensures SpentCalories(t).value == 2.1 * t.weight * t.duration
  {
    var speed := MeanSpeed(t).value;
    assert Square(speed) * Square(t.duration) == Square(Distance(t)) by {
      assert speed * t.duration == Distance(t);
    }
    assert Square(speed) < t.height;
    QuotientBelowOne(Square(speed), t.height);
    WalkingCaloriesFloor(t, 0);
  }

  /** The quotient rounds toward negative infinity, not toward zero: a
      squared speed over a (negative) height strictly between -1 and 0
      floors to -1, so the height term subtracts calories. */
  lemma NegativeQuotientFloorsDown(t: Training)
    requires t.SportsWalking? && t.duration != 0.0 && t.height != 0.0
    requires -1.0 < Square(MeanSpeed(t).value) / t.height < 0.0
    ensures SpentCalories(t).Ok?
    ensures SpentCalories(t).value == 0.36 * t.weight * t.duration
  {
    WalkingCaloriesFloor(t, -1);
  }

  /** The same rounding stated on the readings: with a negative height
      and a non-zero distance whose square stays below minus the height
      times the squared duration, the quotient floors to -1. */
  lemma NegativeHeightFloorsDown(t: Training)
    requires t.SportsWalking? && t.duration != 0.0 && t.height < 0.0
    requires 0.0 < Square(Distance(t)) < -t.height * Square(t.duration)
    ensures SpentCalories(t).Ok?
    ensures SpentCalories(t).value == 0.36 * t.weight * t.duration
  {
    var speed := MeanSpeed(t).value;
    assert Square(speed) * Square(t.duration) == Square(Distance(t)) by {
      assert speed * t.duration == Distance(t);
    }
    assert 0.0 < Square(speed) < -t.height;
    var q := Square(speed) / (-t.height);
    QuotientBelowOne(Square(speed), -t.height);
    assert 0.0 < q < 1.0;
    assert Square(speed) / t.height == -q;
    NegativeQuotientFloorsDown(t);
  }

  /** A non-negative number below a positive one divides to less than 1. */
  lemma QuotientBelowOne(a: real, b: real)
    requires 0.0 <= a < b
    ensures 0.0 <= a / b < 1.0
  {
  }

  /** A swimming reading's stroke count moves its distance and nothing
      else: mean speed and calories come from the pool alone. */
  lemma SwimmingStrokesOnlyMoveDistance(t: Training, strokes: real)
    requires t.Swimming?
    ensures var u := Swimming(strokes, t.duration, t.weight, t.lengthPool, t.countPool);
      && Distance(u) - Distance(t) == (strokes - t.action) * 1.38 / 1000.0
      && MeanSpeed(u) == MeanSpeed(t)
      && SpentCalories(u) == SpentCalories(t)
  {
    var u := Swimming(strokes, t.duration, t.weight, t.lengthPool, t.countPool);
    if t.duration != 0.0 {
      assert MeanSpeed(u).value == MeanSpeed(t).value;
      assert SpentCalories(u).value == SpentCalories(t).value;
    }
  }

  /** Swimming calories in the pool readings: twice the weight times the
      pool speed plus 1.1. */
  lemma SwimmingCaloriesFromPool(t: Training)
    requires t.Swimming? && t.duration != 0.0
    ensures SpentCalories(t).Ok?
    ensures SpentCalories(t).value * t.duration * 1000.0
            == 2.0 * t.weight * (t.lengthPool * t.countPool + 1100.0 * t.duration)
  {
  }

  // Properties of the dispatcher.

  /** Every concrete training is what the dispatcher builds from its own
      code and its constructor arguments. */
  lemma ReadPackageRoundTrip(t: Training)
    requires !t.Base?
    ensures ReadPackage(Code(t), Fields(t)) == Ok(t)
  {
  }

  /** From a dispatched package to its record: the record exists exactly
      when the duration is non-zero and, for a walk, the height is too. */
  lemma PackageReport(code: string, data: seq<real>)
    requires ReadPackage(code, data).Ok?
    ensures ShowTrainingInfo(ReadPackage(code, data).value).Ok?
            <==> data[1] != 0.0 && (code == "WLK" ==> data[3] != 0.0)
  {
  }

  // The program's demonstration packages.

  /** The first demonstration package has an unknown code, so the
      dispatcher fails on it before any computation. */
  lemma DemoUnknownCode()
    ensures ReadPackage("SWM1", [720.0, 1.0, 80.0, 25.0, 40.0]) == Err(UnknownType("SWM1"))
  {
  }

  lemma DemoRunning()
    ensures ReadPackage("RUN", [15000.0, 1.0, 75.0]) == Ok(Running(15000.0, 1.0, 75.0))
    ensures ShowTrainingInfo(Running(15000.0, 1.0, 75.0))
            == Ok(InfoMessage("Running", 1.0, 9.75, 9.75, 699.75))
  {
  }

  lemma DemoWalking()
    ensures ReadPackage("WLK", [9000.0, 1.0, 75.0, 180.0]) == Ok(SportsWalking(9000.0, 1.0, 75.0, 180.0))
    ensures ShowTrainingInfo(SportsWalking(9000.0, 1.0, 75.0, 180.0))
            == Ok(InfoMessage("SportsWalking", 1.0, 5.85, 5.85, 157.5))
  {
  }

  lemma DemoSwimming()
    ensures ReadPackage("SWM", [720.0, 1.0, 80.0, 25.0, 40.0]) == Ok(Swimming(720.0, 1.0, 80.0, 25.0, 40.0))
    ensures ShowTrainingInfo(Swimming(720.0, 1.0, 80.0, 25.0, 40.0))
            == Ok(InfoMessage("Swimming", 1.0, 0.9936, 1.0, 336.0))
  {
  }
}
