# Fitness tracker calculator, modelled in Dafny

`homework.dfy` models `hw_python_oop-master/homework.py`, a small fitness
tracker module. A sensor package (a workout code and a list of readings)
is turned by `read_package` into one of three trainings — `Running`,
`SportsWalking` or `Swimming` — and each training reports its distance
(km), mean speed (km/h) and calories spent (kcal) in an `InfoMessage`
built by the template method `show_training_info`.

The model is pure, like the source: the class hierarchy becomes the
datatype `Training` with one constructor per subclass, and every method
becomes a function over it.

- `Distance` takes the inherited step formula (`action * 0.65 / 1000`)
  for running and walking and the overriding pool formula
  (`length_pool * count_pool / 1000`) for swimming.
- `MeanSpeed` divides the variant's own distance by the duration.
- `SpentCalories` holds the three calorie formulas.
- `ShowTrainingInfo` builds the record, tagged with the class name.
- `ReadPackage` looks the code up in the dispatch table `TrainingTypes`
  (`'SWM'`, `'RUN'`, `'WLK'`), then binds the readings by position. It
  returns a `Result` whose failures are the source's two errors: an
  unknown code (the dictionary's lookup error) and a wrong number of
  readings (the constructor call's argument-count error). The
  `WrongArgumentCount(expected, given)` payload abstracts Python's
  `TypeError` message, which names the missing parameter or counts `self`
  among the arguments rather than carrying these two numbers. The lookup comes
  first, so an unknown code is reported whatever the number of readings.

Numbers are exact `real`s. Every reading is a `real`, including the step
count and the number of pool lengths, so a list of readings binds to the
fields exactly and `ReadPackage` can be proved to invert `CodeOf`/`Fields`.

A zero duration (or a zero height when walking) makes the source raise
`ZeroDivisionError`; the model requires those values to be non-zero, as the
predicate `Computable`.

## Model

| member | source | states |
|---|---|---|
| Homework.Distance | hw_python_oop-master/homework.py:36-39 | the distance in metres is steps times 0.65 for running and walking; the swimming override (homework.py:85-87) makes it pool length times lengths swum (see also `StepDistance`, `SwimDistance`) |
| Homework.MeanSpeed | hw_python_oop-master/homework.py:41-44 | the mean speed times the duration is the variant's own distance (so swimming uses the overridden distance); requires a non-zero duration |
| Homework.SpeedIsDistanceOverDuration | hw_python_oop-master/homework.py:36-44 | for every variant the speed is its distance over the duration, spelled out as the step formula for running and walking and the pool formula for swimming |
| Homework.StepDistance | hw_python_oop-master/homework.py:36-39 | running and walking cover 0.65 m per step: the distance in km is action * 13 / 20000 |
| Homework.SwimDistance | hw_python_oop-master/homework.py:85-87 | swimming distance in metres is pool length times lengths swum |
| Homework.SwimIgnoresAction | hw_python_oop-master/homework.py:78-90 | two swims that differ only in the step count produce the same record: distance, speed and calories ignore it |
| Homework.RunningCaloriesNonNegative | hw_python_oop-master/homework.py:59-63 | non-negative steps and weight and a positive duration give non-negative calories |
| Homework.RunningCaloriesMonotone | hw_python_oop-master/homework.py:59-63 | with a non-negative weight, more steps in the same time never give fewer calories |
| Homework.SpentCalories | hw_python_oop-master/homework.py:59-90 | the three overrides of `get_spent_calories` (lines 59-63, 72-75, 89-90): running calories equal (0.000702 * steps + 0.1074 * hours) * weight and swimming calories equal (0.002 * pool length * lengths + 2.2 * hours) * weight, the duration cancelling against the speed; the walking formula is stated by `WalkingCaloriesForm` |
| Homework.WalkingCaloriesForm | hw_python_oop-master/homework.py:72-75 | walking calories are (v^2 / height / 100 + 0.035 * weight) * 1.74 * weight * duration with v the speed in m/s (km/h * 1000 / 3600) |
| Homework.WalkingSpeedMonotone | hw_python_oop-master/homework.py:73-73 | for non-negative step counts and a positive duration the m/s speed is non-negative and grows with the step count |
| Homework.WalkingCaloriesNonNegative | hw_python_oop-master/homework.py:72-75 | a positive duration and height and a non-negative weight give non-negative calories, whatever the step count |
| Homework.WalkingCaloriesMonotone | hw_python_oop-master/homework.py:72-75 | for non-negative step counts, with positive duration and height and non-negative weight, more steps never give fewer calories |
| Homework.SwimmingCaloriesNonNegative | hw_python_oop-master/homework.py:89-90 | non-negative pool length, lengths and weight with a positive duration give non-negative calories |
| Homework.TypeName | hw_python_oop-master/homework.py:52-52 | the label is "Running", "SportsWalking" or "Swimming" exactly when the training is of that class |
| Homework.ShowTrainingInfo | hw_python_oop-master/homework.py:50-54 | the record carries the class name, the training's own duration, its distance, a speed that times the duration gives that distance, and its calories |
| Homework.ReadPackage | hw_python_oop-master/homework.py:93-100 | an unknown code fails with a lookup error; a known code with the wrong number of readings fails with an argument-count error, abstracted as the expected and given counts; it succeeds exactly when the code is known and the count matches, and then the training's code and positional fields are the code and readings given |
| Homework.Construct | hw_python_oop-master/homework.py:100-100 | the positional call succeeds exactly when the readings number the constructor's parameters, and then yields that class with the readings as its fields in order; otherwise it fails with an argument-count error, abstracted as the expected and given counts |
| Homework.KnownCodes | hw_python_oop-master/homework.py:95-100 | a package is accepted exactly for 'RUN' with 3 readings, 'WLK' with 4 and 'SWM' with 5 |
| Homework.ReadPackageRoundTrip | hw_python_oop-master/homework.py:93-100 | every training is rebuilt unchanged from its own code and fields |
| Homework.ReadPackageOnto | hw_python_oop-master/homework.py:93-100 | every training, of every variant and with any field values, is produced by some package |
| Homework.KnownCodeAccepts | hw_python_oop-master/homework.py:95-100 | each of 'SWM', 'RUN' and 'WLK' accepts some list of readings |
| Homework.LabelOfCode | hw_python_oop-master/homework.py:95-99 | 'RUN' produces a record labelled Running, 'WLK' SportsWalking and 'SWM' Swimming |
| Homework.SampleSwimming | hw_python_oop-master/homework.py:111-111 | the driver's swim package gives 1 km, 1 km/h and 336 kcal |
| Homework.SampleRunning | hw_python_oop-master/homework.py:112-112 | the driver's run package gives 9.75 km, 9.75 km/h and 797.805 kcal |
| Homework.SampleWalking | hw_python_oop-master/homework.py:113-113 | the driver's walk package gives 5.85 km, 5.85 km/h and 87700901/256000 (about 342.58) kcal |

## Left out

- `InfoMessage.get_message` (homework.py:21-26): it formats floats to two decimals and prints; string formatting and output are not modelled.
- `main` and the `__main__` loop (homework.py:103-117): console glue; its three sample packages appear only as the lemmas `SampleSwimming`, `SampleRunning` and `SampleWalking`.
- The base class `Training` on its own: its `get_spent_calories` returns `None`, and `read_package` never builds it, so `Training` has no constructor for it.
- SpentCalories: its own contract gives the running and swimming formulas only; the walking formula is stated by the lemma `WalkingCaloriesForm`, and walking's sign and growth by `WalkingCaloriesNonNegative` and `WalkingCaloriesMonotone`, because the solver does not settle the walking clause inside the function.
- Floating point: arithmetic is exact over the reals, so results differ from the source's by rounding, and float overflow is not modelled: neither `inf` results nor the `OverflowError` raised by `**` in the walking formula (homework.py:73) or by converting a huge integer reading to float (homework.py:38).
- Division by zero: the source raises `ZeroDivisionError` for a zero duration (or a zero height when walking); the model excludes those inputs with `Computable` instead of modelling the exception.
- `LEN_STROKE` (homework.py:6) is never used, and the second `LEN_STEP` (homework.py:5) repeats the first with the same value.
- The `int` annotations on `action` and on the record's `duration` are not enforced by Python; the model uses `real` throughout.
- Readings of a non-numeric type: the model's readings are all numbers, so the source's failures on, say, a string reading are out of its reach.
- Repeated calls returning the same values holds by construction, since every operation is a function.
