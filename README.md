# Workout calculators

A Dafny model of `homework.py`, a small fitness-tracker module. A base
`Training` holds a step or stroke count, a duration in hours and a weight in
kilograms; `Running`, `SportsWalking` (plus a height) and `Swimming` (plus a
pool length and a number of lengths) derive distance in km, mean speed in
km/h and calories in kcal from it. `show_training_info` collects those into
an `InfoMessage` record, and `read_package` builds a workout from a type code
(`SWM`, `RUN`, `WLK`) and a list of positional readings.

Everything is in one module, `Homework` (`homework.dfy`):

- `Training` is a datatype with one constructor per class; `Base` stands for
  the base class itself. `InfoMessage` is a plain record.
- Readings are modelled as exact `real` numbers, because the Python type
  hints are not enforced at run time.
- Each failure the program raises is an `Err` of the `Result` datatype:
  `UnknownType(code)` for the `KeyError` in `read_package`,
  `ArityMismatch(expected, given)` for calling a constructor with the wrong
  number of readings, `NotImplemented` for calories on the base class, and
  `ZeroDivision` for `/` or `//` by zero. Python raises `ZeroDivisionError`
  for float division too. So a zero duration or height is an error result,
  not a precondition.
- The evaluation order of `show_training_info` is kept. With a zero
  duration the base class reports the division by zero from
  `get_mean_speed` before it reaches its missing calorie formula.
- `//` is modelled as the floor of the exact quotient (`FloorDiv`), which
  rounds toward negative infinity as Python does.
- `type(self).__name__` is a fixed name per variant (`TypeName`).

The running demonstration reading (15000 steps, 1 h, 75 kg) gives 699.75 kcal
by homework.py:53-56 (`DemoRunning`).

## Model

| member | source | states |
|---|---|---|
| `Homework.TypeName` | homework.py:47 | definition: the fixed class name per variant (`type(self).__name__`); it is "Training" exactly for the base class and one of the four class names otherwise |
| `Homework.LenStep` | homework.py:23-76 | definition: `LEN_STEP`, 0.65 m on the base class and inherited by running and walking (line 23), overridden to 1.38 m by swimming (line 76); positive, and 1.38 exactly for swimming |
| `Homework.Arity` | homework.py:27-79 | definition: the number of positional parameters of each constructor, 3 for running (lines 27-31), 4 for walking (lines 61-62), 5 for swimming (lines 78-79) |
| `Homework.Distance` | homework.py:36-37 | the distance in km, times 1000, is the step count times the variant's step length (0.65 m, or 1.38 m for swimming); it never fails |
| `Homework.MeanSpeed` | homework.py:39-86 | fails with a division by zero exactly when the duration is zero; otherwise speed times duration is the distance (base formula, lines 39-40), and for swimming (override, lines 84-86) speed times duration times 1000 is pool length times number of lengths |
| `Homework.FloorDiv` | homework.py:70 | `a // b` fails exactly when `b` is zero; otherwise it is the integer `k` with `k <= a / b < k + 1` |
| `Homework.SpentCalories` | homework.py:42-89 | the base class (lines 42-44) always fails with `NotImplemented`; a concrete workout (overrides at lines 53-56, 66-72, 88-89) succeeds exactly when the duration is non-zero and, for a walk, the height is non-zero, and otherwise fails with a division by zero |
| `Homework.ShowTrainingInfo` | homework.py:46-49 | a record exists exactly when the calories can be computed, so never for the base class; the error is the division by zero when the duration is zero, else the calorie error; the record names the variant and carries its own duration |
| `Homework.InfoMessageCarriesResults` | homework.py:46-49 | a record carries exactly the variant's name, its duration, its distance, its mean speed and its calories |
| `Homework.RunningCaloriesClosedForm` | homework.py:53-56 | running calories equal `weight * (0.000702 * action - 1.2 * duration)`, which is `(18 * speed - 20) * weight / 1000 * (duration * 60)` with the speed written out |
| `Homework.WalkingCaloriesFloor` | homework.py:66-72 | for any integer `k` with `k <= speed^2 / height < k + 1`, walking calories equal `(0.035 * weight + k * 0.029 * weight) * (duration * 60)` |
| `Homework.SlowWalkCalories` | homework.py:66-72 | when distance squared is below height times duration squared (positive height), the floored quotient is 0 and the calories are `2.1 * weight * duration` |
| `Homework.NegativeQuotientFloorsDown` | homework.py:70 | a quotient strictly between -1 and 0 floors to -1, not to 0, so the calories are `0.36 * weight * duration` |
| `Homework.NegativeHeightFloorsDown` | homework.py:66-72 | stated on the readings: with a negative height and `0 < distance^2 < -height * duration^2`, the quotient floors to -1 and the calories are `0.36 * weight * duration` |
| `Homework.SwimmingStrokesOnlyMoveDistance` | homework.py:75-86 | changing a swim's stroke count changes its distance by the change times 1.38 / 1000 and leaves its mean speed and calories unchanged |
| `Homework.SwimmingCaloriesFromPool` | homework.py:84-89 | swimming calories times duration times 1000 equal `2 * weight * (length_pool * count_pool + 1100 * duration)` |
| `Homework.Construct` | homework.py:96 | calling a constructor succeeds exactly when the reading count equals its arity (5, 3 or 4), binds the readings in parameter order, and otherwise fails with `ArityMismatch(arity, count)` |
| `Homework.ReadPackage` | homework.py:92-97 | `SWM` builds a swim from 5 readings, `RUN` a run from 3, `WLK` a walk from 4, binding them in order; any other code fails with `UnknownType` carrying that code; a known code with the wrong count fails with `ArityMismatch`; it never builds the base class |
| `Homework.ReadPackageRoundTrip` | homework.py:92-97 | every concrete workout is what the dispatcher builds from its own code and its constructor arguments |
| `Homework.PackageReport` | homework.py:92-97 | a dispatched package yields a record exactly when its duration reading is non-zero and, for `WLK`, its height reading is non-zero |
| `Homework.DemoUnknownCode` | homework.py:110 | the first demonstration package, code `SWM1`, fails with `UnknownType("SWM1")` |
| `Homework.DemoRunning` | homework.py:111 | `RUN` with 15000, 1, 75 gives distance 9.75, speed 9.75, calories 699.75 |
| `Homework.DemoWalking` | homework.py:112 | `WLK` with 9000, 1, 75, 180 gives distance 5.85, speed 5.85, calories 157.5 |
| `Homework.DemoSwimming` | homework.py:110 | `SWM` with the first package's readings 720, 1, 80, 25, 40 gives distance 0.9936, speed 1.0, calories 336.0 |

## Left out

- `InfoMessage.get_message` (homework.py:13-18): text rendering with Python's `:.3f` float formatting, which has no meaning over exact reals.
- `main` and the `__main__` driver (homework.py:100-117): console printing and a demonstration loop. As written the loop stops at its first package, because `read_package` raises `KeyError` for `SWM1` and nothing catches it; the `workout_type` branch in `main` is unreachable for the same reason. `DemoUnknownCode` records the first fact.
- IEEE-754 floating point: rounding, overflow, and the float result of `//`. The model computes with exact reals, so the demonstration values are exact.
- Python typing: readings that are not numbers, and the difference between `int` and `float` readings.
- Reflection: `type(self).__name__` is a fixed name per variant; user-defined subclasses are not modelled.
- Exception details: the exception classes and their message texts are reduced to the four `Error` constructors.
