# Workout statistics (hw_python_oop) in Dafny

A model of `homework.py`. It is a fitness calculator with a base `Training` and
three workout kinds: `Running`, `SportsWalking` and `Swimming`. Each kind
computes distance (km), mean speed (km/h) and calories spent from the readings
of one workout. `read_package` turns a tag (`'RUN'`, `'WLK'`, `'SWM'`) and a flat
list of readings into a workout. `show_training_info` packs the results into an
`InfoMessage`.

The code has no state, so the model is one module, `Homework` (`homework.dfy`),
written with datatypes, functions and lemmas:

- `Kind` is `Base | Running | Walking(height) | Swimming(lengthPool, countPool)`.
  `Training` holds a kind plus `action`, `duration` and `weight`.
  `InfoMessage` holds the five fields of the summary.
- `Distance`, `MeanSpeed` and `Calories` are the per-kind formulas. They work
  over exact `real` arithmetic. Python's float `//` becomes `FloorDiv`, which
  is `(x / h).Floor`. The base kind's `pass` becomes `None`.
- `ReadPackage` is the dispatcher. It returns `Err(UnknownKind)` where Python
  raises `KeyError`. It returns `Err(ArityMismatch)` where Python's
  `*data` call raises `TypeError`. `Package` is its inverse.

`SamplePackages` proves, over exact reals, the values the program's own sample
packages give (homework.py:164-168): calories 699.75 for running, 157.5 for walking and
336.0 for swimming.

## Model

| member | source | states |
|---|---|---|
| `Homework.Distance` | homework.py:42-44 | distance × 1000 = action × step length, where the step is 1.38 for swimming and 0.65 otherwise; a non-negative action gives a non-negative distance |
| `Homework.DistanceInherited` | homework.py:68-70 | running, walking and the base kind share one distance, action × 0.65 / 1000, whatever the kind-specific fields |
| `Homework.MeanSpeed` | homework.py:46-48 | for every kind but swimming, speed × duration = distance; for swimming, speed × duration × 1000 = pool length × pool count (the override at lines 134-137) |
| `Homework.SwimmingIgnoresAction` | homework.py:134-141 | two swimming workouts that differ only in `action` have equal speed and equal calories |
| `Homework.FloorDiv` | homework.py:105-106 | `x // h` is a whole number q with q·h ≤ x < (q+1)·h for h > 0, and the mirrored bounds for h < 0 |
| `Homework.Calories` | homework.py:50-141 | there is a calorie value exactly when the kind is not the abstract base (`pass` at lines 50-52); otherwise it is the kind's own formula applied to the mean speed: `RunningCalories` (lines 72-78), `WalkingCalories` with floor division (lines 100-107), `SwimmingCalories` (lines 139-141); the base kind needs no non-zero duration |
| `Homework.RunningCaloriesClosedForm` | homework.py:72-78 | running calories = (0.0117 × action − 20 × duration) × weight × 0.06, i.e. the formula with speed × duration replaced by the distance |
| `Homework.WalkingSlowCalories` | homework.py:100-107 | when speed² < height, the floored term is 0 and walking calories = 0.035 × weight × duration × 60 |
| `Homework.WalkingFloorDeficit` | homework.py:104-107 | for positive height, weight and duration, walking calories are at most the formula with true division and fall short of it by less than one step of the floored term, `WalkingStep` = 0.029 × weight × duration × 60 |
| `Homework.SwimmingCaloriesClosedForm` | homework.py:139-141 | swimming calories × duration = (pool length × pool count / 1000 + 1.1 × duration) × 2 × weight |
| `Homework.ShowTrainingInfo` | homework.py:54-61 | the summary carries the kind's `NAME_OF_TRAINING`, the workout's own duration, the kind's distance, a speed consistent with that distance and duration, and calories that are `None` exactly for the base kind |
| `Homework.ReadPackage` | homework.py:147-154 | succeeds exactly for `SWM` with 5 readings, `RUN` with 3 and `WLK` with 4; fails with `UnknownKind` exactly for any other tag; fails with `ArityMismatch(tag, expected, given)` for a known tag with the wrong count of readings (Python's `TypeError`); assigns action, duration, weight, then height or pool length and count, in that order |
| `Homework.Package` | homework.py:149-153 | every concrete workout has a package whose tag is in the dispatch table and whose length is that tag's arity |
| `Homework.ReadPackageRoundTrip` | homework.py:147-154 | reading a concrete workout's package gives back that workout |
| `Homework.PackageOfRead` | homework.py:147-154 | a package that reads successfully never yields the base kind, and it is the package of the workout it yields: no reading is lost or invented |
| `Homework.UnknownTagRefused` | homework.py:154 | every tag outside the dispatch table is refused with `UnknownKind(tag)`, whatever the readings |
| `Homework.SamplePackages` | homework.py:164-168 | over exact reals, the three sample packages give distance/speed/calories 9.75/9.75/699.75 (running), 5.85/5.85/157.5 (walking) and 0.9936/1.0/336.0 (swimming) |

## Left out

- `main` and the `__main__` loop (homework.py:157-172) only print to standard output.
- `InfoMessage.get_message` (homework.py:18-23) renders the fields with `.3f` float formatting. That has no exact counterpart over `real`, so `InfoMessage` is kept as a record of its five fields.
- IEEE-754 floating point is not modelled. The formulas are exact over `real`, so float rounding in `*`, `/` and `//` is not captured.
- `MeanSpeed`: requires a non-zero duration. Python raises `ZeroDivisionError` there instead.
- `Calories`: for the three concrete kinds, requires a non-zero duration, and a non-zero height for walking (predicate `Computable`), where Python raises `ZeroDivisionError`. The base kind has no requirement: it divides by nothing and gives `None`.
- `ShowTrainingInfo`: requires `Computable` for every kind, the base kind included, because the mean speed it reports divides by the duration (homework.py:59); Python raises `ZeroDivisionError` there.
- `ReadPackage`: takes readings as `seq<real>`. A non-numeric reading, and the `TypeError` it would raise later, cannot be expressed.
- The `action` field is typed `int` in the code, but nothing checks that. It is a `real` here, like the other readings.
- Python's class hierarchy, dynamic dispatch, the `super()` pass-through overrides and `*data` unpacking are language mechanics. Only their effect is modelled: the per-kind formula chosen by `Kind`, and the arity check in `ReadPackage`.
