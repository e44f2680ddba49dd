/**
  A model of the workout calculator in hw_python_oop-master/homework.py.

  Three kinds of training (running, sports walking, swimming) compute the
  distance covered, the mean speed and the calories spent from the readings
  of a sensor. `ShowTrainingInfo` bundles the three values into an
  `InfoMessage`, and `ReadPackage` turns a workout code and a positional
  list of readings into a training.

  Numbers are exact reals: the source's floating point rounding is not
  modelled. Every reading, including the step count and the number of pool
  lengths, is a real, so that a list of readings binds to the fields with
  nothing lost.
 */
module Homework {

  // ---------------------------------------------------------------------
  // Constants
  // ---------------------------------------------------------------------

  /** Length of one step, in metres. */
  const StepLength: real := 0.65
  /** Metres in a kilometre. */
  const MetersInKm: real := 1000.0
  /** Running: calories grow by this much per km/h of mean speed ... */
  const RunSpeedMultiplier: real := 18.0
  /** ... plus this fixed shift. */
  const RunSpeedShift: real := 1.79
  /** Minutes in an hour. */
  const MinutesInHour: real := 60.0

  /** Sports walking: factor that turns km/h into m/s (1000 / 3600). */
  const KmhToMs: real := 1000.0 / 3600.0
  /** Sports walking: divisor of the speed-squared-per-height term. */
  const WalkHeightDivisor: real := 100.0
  /** Sports walking: weight coefficient of the inner term. */
  const WalkWeightCoeff: real := 0.035
  /** Sports walking: outer calorie coefficient. */
  const WalkCalorieCoeff: real := 0.029

  /** Swimming: offset added to the mean speed. */
  const SwimSpeedShift: real := 1.1
  /** Swimming: multiplier of the shifted speed. */
  const SwimMultiplier: real := 2.0

  // ---------------------------------------------------------------------
  // Data model
  // ---------------------------------------------------------------------

  /** One training. `action` counts steps (or strokes), `duration` is in
      hours, `weight` in kilograms, `height` in centimetres, `lengthPool`
      in metres and `countPool` the number of pool lengths swum. */
  datatype Training =
    | Running(action: real, duration: real, weight: real)
    | SportsWalking(action: real, duration: real, weight: real, height: real)
    | Swimming(action: real, duration: real, weight: real, lengthPool: real, countPool: real)

  /** The record `show_training_info` returns. */
  datatype InfoMessage = InfoMessage(
    trainingType: string,
    duration: real,
    distance: real,
    speed: real,
    calories: real)

  /** The three entries of the factory's dispatch table. */
  datatype Kind = RunningKind | WalkingKind | SwimmingKind

  /** Why `ReadPackage` fails: the code is not a key of the dispatch table
      (a lookup error), or the list of readings does not have as many
      entries as the chosen constructor has parameters (an argument-count
      error). The counts stand for Python's `TypeError` message, which
      words the mismatch differently. */
  datatype PackageError =
    | UnknownWorkoutType(code: string)
    | WrongArgumentCount(expected: nat, given: nat)

  datatype Result<T> = Success(value: T) | Failure(error: PackageError)

  /** The values a calorie formula can be computed on: the mean speed divides
      by the duration, and the walking formula also divides by the height.
      The source does not guard either division. */
  predicate Computable(t: Training) {
    t.duration != 0.0 && (t.SportsWalking? ==> t.height != 0.0)
  }

  // ---------------------------------------------------------------------
  // Distance, speed, calories
  // ---------------------------------------------------------------------

  /** Distance in km. Running and sports walking inherit the step-based
      formula; swimming overrides it with pool length times lengths swum. */
  function Distance(t: Training): (r: real)
    ensures !t.Swimming? ==> r * MetersInKm == t.action * StepLength
    ensures t.Swimming? ==> r * MetersInKm == t.lengthPool * t.countPool
  {
    match t
    case Swimming(_, _, _, lengthPool, countPool) => lengthPool * countPool / MetersInKm
    case _ => t.action * StepLength / MetersInKm
  }

  /** Mean speed in km/h: the variant's own distance over the duration. */
  function MeanSpeed(t: Training): (r: real)
    requires t.duration != 0.0
    ensures r * t.duration == Distance(t)
  {
    Distance(t) / t.duration
  }

  /** Calories spent, by the formula each variant overrides. For running and
      swimming the duration cancels against the mean speed, leaving a form
      linear in the step count (running) or in pool length times lengths
      swum (swimming), which does not mention the step count at all. */
  function SpentCalories(t: Training): (r: real)
    requires Computable(t)
    ensures t.Running? ==> r == (0.000702 * t.action + 0.1074 * t.duration) * t.weight
    ensures t.Swimming? ==>
      r == (0.002 * t.lengthPool * t.countPool + 2.2 * t.duration) * t.weight
  {
    var speed := MeanSpeed(t);
    match t
    case Running(_, duration, weight) =>
      (RunSpeedMultiplier * speed + RunSpeedShift) * weight / MetersInKm * duration * MinutesInHour
    case SportsWalking(_, duration, weight, height) =>
      var ms := speed * KmhToMs;
      var calories := ms * ms / height / WalkHeightDivisor;
      var calories' := calories + WalkWeightCoeff * weight;
      calories' * WalkCalorieCoeff * weight * duration * MinutesInHour
    case Swimming(_, duration, weight, _, _) =>
      (speed + SwimSpeedShift) * SwimMultiplier * weight * duration
  }

  /** The class name the source reads off the object. */
  function TypeName(t: Training): (r: string)
    ensures r == "Running" <==> t.Running?
    ensures r == "SportsWalking" <==> t.SportsWalking?
    ensures r == "Swimming" <==> t.Swimming?
  {
    match t
    case Running(_, _, _) => "Running"
    case SportsWalking(_, _, _, _) => "SportsWalking"
    case Swimming(_, _, _, _, _) => "Swimming"
  }

  /** The template method shared by every variant. */
  function ShowTrainingInfo(t: Training): (r: InfoMessage)
    requires Computable(t)
    ensures r.trainingType == TypeName(t)
    ensures r.duration == t.duration
    ensures r.distance == Distance(t)
    ensures r.speed * r.duration == r.distance
    ensures r.calories == SpentCalories(t)
  {
    InfoMessage(TypeName(t), t.duration, Distance(t), MeanSpeed(t), SpentCalories(t))
  }

  // ---------------------------------------------------------------------
  // The factory
  // ---------------------------------------------------------------------

  /** The dispatch table of `read_package`. */
  const TrainingTypes: map<string, Kind> :=
    map["SWM" := SwimmingKind, "RUN" := RunningKind, "WLK" := WalkingKind]

  /** Number of positional parameters of each constructor. */
  function Arity(k: Kind): nat {
    match k
    case RunningKind => 3
    case WalkingKind => 4
    case SwimmingKind => 5
  }

  function KindOf(t: Training): Kind {
    match t
    case Running(_, _, _) => RunningKind
    case SportsWalking(_, _, _, _) => WalkingKind
    case Swimming(_, _, _, _, _) => SwimmingKind
  }

  /** The code under which the dispatch table lists a training's variant. */
  function CodeOf(t: Training): string {
    match t
    case Running(_, _, _) => "RUN"
    case SportsWalking(_, _, _, _) => "WLK"
    case Swimming(_, _, _, _, _) => "SWM"
  }

  /** The constructor parameters of a training, in positional order. */
  function Fields(t: Training): (r: seq<real>)
    ensures |r| == Arity(KindOf(t))
  {
    match t
    case Running(a, d, w) => [a, d, w]
    case SportsWalking(a, d, w, h) => [a, d, w, h]
    case Swimming(a, d, w, l, c) => [a, d, w, l, c]
  }

  /** Calls the constructor of kind `k` with `data` as positional arguments. */
  function Construct(k: Kind, data: seq<real>): (r: Result<Training>)
    ensures r.Success? <==> |data| == Arity(k)
    ensures r.Failure? ==> r.error == WrongArgumentCount(Arity(k), |data|)
    ensures r.Success? ==> KindOf(r.value) == k && Fields(r.value) == data
  {
    if |data| != Arity(k) then Failure(WrongArgumentCount(Arity(k), |data|))
    else match k
      case RunningKind => Success(Running(data[0], data[1], data[2]))
      case WalkingKind => Success(SportsWalking(data[0], data[1], data[2], data[3]))
      case SwimmingKind => Success(Swimming(data[0], data[1], data[2], data[3], data[4]))
  }

  /** Looks the code up in the dispatch table, then binds the readings by
      position. The lookup happens first, so an unknown code is reported as
      such whatever the length of the readings. */
  function ReadPackage(workoutType: string, data: seq<real>): (r: Result<Training>)
    ensures workoutType !in TrainingTypes ==> r == Failure(UnknownWorkoutType(workoutType))
    ensures workoutType in TrainingTypes && |data| != Arity(TrainingTypes[workoutType]) ==>
      r == Failure(WrongArgumentCount(Arity(TrainingTypes[workoutType]), |data|))
    ensures r.Success? <==>
      workoutType in TrainingTypes && |data| == Arity(TrainingTypes[workoutType])
    ensures r.Success? ==> CodeOf(r.value) == workoutType && Fields(r.value) == data
  {
    if workoutType !in TrainingTypes then Failure(UnknownWorkoutType(workoutType))
    else Construct(TrainingTypes[workoutType], data)
  }

  // ---------------------------------------------------------------------
  // Properties of the factory
  // ---------------------------------------------------------------------

  /** Exactly three codes are recognised, each with its own arity. */
  lemma KnownCodes(code: string, data: seq<real>)
    ensures ReadPackage(code, data).Success? <==>
      (code == "RUN" && |data| == 3) || (code == "WLK" && |data| == 4) || (code == "SWM" && |data| == 5)
  {
  }

  /** Building a training from its own code and fields gives it back. */
  lemma ReadPackageRoundTrip(t: Training)
    ensures ReadPackage(CodeOf(t), Fields(t)) == Success(t)
  {
  }

  /** The factory reaches every training: each variant, with any field
      values, comes out of some package. */
  lemma ReadPackageOnto(t: Training)
    ensures exists code, data :: ReadPackage(code, data) == Success(t)
  {
    ReadPackageRoundTrip(t);
  }

  /** Every code of the dispatch table accepts some list of readings. */
  lemma KnownCodeAccepts(code: string)
    requires code in TrainingTypes
    ensures exists data :: ReadPackage(code, data).Success?
  {
    var data := seq(Arity(TrainingTypes[code]), _ => 0.0);
    assert ReadPackage(code, data).Success?;
  }

  /** The label of the record is the class the code selects. */
  lemma LabelOfCode(code: string, data: seq<real>)
    requires ReadPackage(code, data).Success?
    ensures TypeName(ReadPackage(code, data).value) ==
      if code == "RUN" then "Running" else if code == "WLK" then "SportsWalking" else "Swimming"
  {
  }

  // ---------------------------------------------------------------------
  // Properties of distance and speed
  // ---------------------------------------------------------------------

  /** Running and walking cover 0.65 m per step. */
  lemma StepDistance(t: Training)
    requires !t.Swimming?
    ensures Distance(t) * MetersInKm == t.action * StepLength
    ensures Distance(t) == t.action * 13.0 / 20000.0
  {
  }

  /** Swimming covers pool length times lengths swum, whatever the step count. */
  lemma SwimDistance(t: Training)
    requires t.Swimming?
    ensures Distance(t) * MetersInKm == t.lengthPool * t.countPool
  {
  }

  /** The step count plays no part in any swimming figure: two swims that
      differ only in it report the same record. */
  lemma SwimIgnoresAction(a1: real, a2: real, d: real, w: real, l: real, c: real)
    requires d != 0.0
    ensures ShowTrainingInfo(Swimming(a1, d, w, l, c)) == ShowTrainingInfo(Swimming(a2, d, w, l, c))
  {
  }

  /** Mean speed is the variant's distance over the duration, for every
      variant (swimming uses its overridden distance). */
  lemma SpeedIsDistanceOverDuration(t: Training)
    requires t.duration != 0.0
    ensures MeanSpeed(t) == Distance(t) / t.duration
    ensures t.Swimming? ==> MeanSpeed(t) == t.lengthPool * t.countPool / MetersInKm / t.duration
    ensures !t.Swimming? ==> MeanSpeed(t) == t.action * StepLength / MetersInKm / t.duration
  {
  }

  // ---------------------------------------------------------------------
  // Properties of the calorie formulas
  // ---------------------------------------------------------------------

  /** With a non-negative step count and weight and a positive duration,
      running never reports negative calories. */
  lemma RunningCaloriesNonNegative(a: real, d: real, w: real)
    requires a >= 0.0 && d > 0.0 && w >= 0.0
    ensures SpentCalories(Running(a, d, w)) >= 0.0
  {
  }

  /** More steps in the same time never burn fewer calories. */
  lemma RunningCaloriesMonotone(a1: real, a2: real, d: real, w: real)
    requires a1 <= a2 && d != 0.0 && w >= 0.0
    ensures SpentCalories(Running(a1, d, w)) <= SpentCalories(Running(a2, d, w))
  {
  }

  /** Swimming calories are non-negative for a non-negative distance and
      weight and a positive duration. */
  lemma SwimmingCaloriesNonNegative(t: Training)
    requires t.Swimming? && t.duration > 0.0 && t.weight >= 0.0
    requires t.lengthPool >= 0.0 && t.countPool >= 0.0
    ensures SpentCalories(t) >= 0.0
  {
    assert t.lengthPool * t.countPool >= 0.0;
  }

  /** The walking formula, stated on the speed in m/s: a height-scaled
      speed-squared term plus a weight term, times 1.74 times weight times
      duration. */
  lemma WalkingCaloriesForm(t: Training)
    requires t.SportsWalking? && Computable(t)
    ensures var ms := MeanSpeed(t) * 1000.0 / 3600.0;
      SpentCalories(t) == (ms * ms / t.height / 100.0 + 0.035 * t.weight) * 1.74 * t.weight * t.duration
  {
  }

  /** Sports walking never reports negative calories for a positive
      duration and height and a non-negative weight, whatever the step
      count. */
  lemma WalkingCaloriesNonNegative(t: Training)
    requires t.SportsWalking? && t.duration > 0.0 && t.height > 0.0 && t.weight >= 0.0
    ensures SpentCalories(t) >= 0.0
  {
    var ms := MeanSpeed(t) * KmhToMs;
    var inner := ms * ms / t.height / WalkHeightDivisor + WalkWeightCoeff * t.weight;
    assert ms * ms >= 0.0;
    assert inner >= 0.0;
    assert SpentCalories(t) == inner * (WalkCalorieCoeff * MinutesInHour) * (t.weight * t.duration);
    assert t.weight * t.duration >= 0.0;
  }

  /** Walking more steps in the same time never burns fewer calories. */
  lemma WalkingCaloriesMonotone(a1: real, a2: real, d: real, w: real, h: real)
    requires 0.0 <= a1 <= a2 && d > 0.0 && w >= 0.0 && h > 0.0
    ensures SpentCalories(SportsWalking(a1, d, w, h)) <= SpentCalories(SportsWalking(a2, d, w, h))
  {
    var ms1 := MeanSpeed(SportsWalking(a1, d, w, h)) * KmhToMs;
    var ms2 := MeanSpeed(SportsWalking(a2, d, w, h)) * KmhToMs;
    WalkingSpeedMonotone(a1, a2, d, w, h);
    ScaleMonotone(ms1, ms2, ms1);
    ScaleMonotone(ms1, ms2, ms2);
    var k := WalkCalorieCoeff * w * d * MinutesInHour;
    assert k >= 0.0 by { ScaleMonotone(0.0, w * d, WalkCalorieCoeff * MinutesInHour); }
    var i1 := ms1 * ms1 / h / WalkHeightDivisor + WalkWeightCoeff * w;
    var i2 := ms2 * ms2 / h / WalkHeightDivisor + WalkWeightCoeff * w;
    assert i1 <= i2 by { ScaleMonotone(ms1 * ms1, ms2 * ms2, 1.0 / (h * WalkHeightDivisor)); }
    ScaleMonotone(i1, i2, k);
  }

  /** Over the same duration, more steps give a higher speed in m/s. */
  lemma WalkingSpeedMonotone(a1: real, a2: real, d: real, w: real, h: real)
    requires 0.0 <= a1 <= a2 && d > 0.0
    ensures 0.0 <= MeanSpeed(SportsWalking(a1, d, w, h)) * KmhToMs
    ensures MeanSpeed(SportsWalking(a1, d, w, h)) * KmhToMs <= MeanSpeed(SportsWalking(a2, d, w, h)) * KmhToMs
  {
    ScaleMonotone(0.0, a1, StepLength / MetersInKm / d * KmhToMs);
    ScaleMonotone(a1, a2, StepLength / MetersInKm / d * KmhToMs);
  }

  /** Multiplying by a non-negative factor keeps the order. */
  lemma ScaleMonotone(x: real, y: real, k: real)
    requires x <= y && k >= 0.0
    ensures x * k <= y * k
  {
    assert y * k - x * k == (y - x) * k;
  }

  // ---------------------------------------------------------------------
  // The sample packages of the source's driver
  // ---------------------------------------------------------------------

  /** 'SWM' with [720, 1, 80, 25, 40]: 1 km in an hour, 336 kcal. */
  lemma SampleSwimming()
    ensures ReadPackage("SWM", [720.0, 1.0, 80.0, 25.0, 40.0]) == Success(Swimming(720.0, 1.0, 80.0, 25.0, 40.0))
    ensures ShowTrainingInfo(Swimming(720.0, 1.0, 80.0, 25.0, 40.0)) ==
      InfoMessage("Swimming", 1.0, 1.0, 1.0, 336.0)
  {
  }

  /** 'RUN' with [15000, 1, 75]: 9.75 km in an hour, 797.805 kcal. */
  lemma SampleRunning()
    ensures ReadPackage("RUN", [15000.0, 1.0, 75.0]) == Success(Running(15000.0, 1.0, 75.0))
    ensures ShowTrainingInfo(Running(15000.0, 1.0, 75.0)) ==
      InfoMessage("Running", 1.0, 9.75, 9.75, 797.805)
  {
  }

  /** 'WLK' with [9000, 1, 75, 180]: 5.85 km in an hour, 87700901/256000 kcal. */
  lemma SampleWalking()
    ensures ReadPackage("WLK", [9000.0, 1.0, 75.0, 180.0]) == Success(SportsWalking(9000.0, 1.0, 75.0, 180.0))
    ensures ShowTrainingInfo(SportsWalking(9000.0, 1.0, 75.0, 180.0)) ==
      InfoMessage("SportsWalking", 1.0, 5.85, 5.85, 87700901.0 / 256000.0)
  {
  }
}
