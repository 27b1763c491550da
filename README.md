# Workout statistics: a Dafny model

This project models the fitness-tracker module `homework.py`. Sensor packages
arrive as a short workout code (`SWM`, `RUN`, `WLK`) and a positional list of
readings. The code selects one of three training variants: `Swimming`,
`Running` or `SportsWalking`. The readings become the variant's constructor
arguments: the action count (steps or strokes), the duration in hours and the
weight in kg; walking adds the height, and swimming adds the pool length and
the number of lengths swum. Each training computes:

- its distance in km: action count times step length, over 1000;
- its mean speed in km/h;
- the calories it burned, by a formula of its own.

The summary (`InfoMessage`) bundles these values with the class name.

The model is pure, as the source is. Records are built once and never
changed, and every computation is a single arithmetic expression.

- `Workouts` (workouts.dfy) holds the constants and the `Training` datatype,
  one constructor per class. It also holds the `InfoMessage` datatype and
  the functions `Distance`, `MeanSpeed`, `SpentCalories` and
  `ShowTrainingInfo`. Each `match` arm is the variant's own method: base
  behaviour or its override.
- `WorkoutProperties` (properties.dfy) holds what the formulas guarantee. It
  covers signs, dependence on the readings, and how the variants relate.
- `Packages` (packages.dfy) holds the code table and `ReadPackage`. It
  returns a `Result`: an error for an unknown code, and an error for a data
  list whose length does not match the constructor.
- `Samples` (samples.dfy) holds the driver's sample packages and their exact
  values.

Every quantity is a Dafny `real`, so the formulas hold exactly. The operator
grouping follows the source, because grouping matters for reals too when
division is involved. In the walking formula, the 0.01 cm-to-m factor is
applied after dividing by the height, exactly as the source writes it.

The model follows the code's own values and behaviour:

- The running sample `RUN [15000, 1, 75]` burns 797.805 kcal.
- The walking label is the class name `SportsWalking`.
- A data list of the wrong length makes the constructor raise `TypeError`;
  the model returns `ArgumentCount` for it.

## Model

| member | source | states |
|---|---|---|
| `Workouts.Distance` | homework.py:28-40 | the distance in km, times 1000, equals the action count times the step length (0.65 m; swimming overrides it with 1.38 m, homework.py:84); it is non-negative when the action count is |
| `Workouts.MeanSpeed` | homework.py:42-43 | speed times duration is the distance the speed is measured over: the step-based distance for running and walking, the pool length times the number of lengths, over 1000, for swimming (homework.py:94-95), so swimming speed never reads the stroke count; requires a non-zero duration, the divisor here |
| `Workouts.TypeName` | homework.py:49 | the label is `Running`, `SportsWalking` or `Swimming` exactly for the record of that class |
| `Workouts.StepLength` | homework.py:28-29 | the step length is positive; it is the base 0.65 m exactly for running and walking, and swimming's override 1.38 m (homework.py:84) exactly for swimming |
| `Workouts.SpentCalories` | homework.py:59-100 | each variant's own calorie formula, with the source's constants and grouping (running :59-62, walking :75-79, swimming :97-100); every formula gives zero for zero weight. The lemmas below prove: positive calories for positive readings (`RunningCaloriesPositive`, `SwimmingCaloriesPositive`, `ResultsPositive`), running calories rising with the step count (`RunningCaloriesGrowWithSteps`), swimming calories independent of the stroke count (`SwimmingIgnoresAction`), and walking calories bounded below by the weight term (`WalkingCaloriesAtLeastWeightTerm`); its requires asks for a non-zero duration and, for walking, a non-zero height, the divisors of these formulas |
| `Workouts.ShowTrainingInfo` | homework.py:48-51 | the summary carries the class name, the unchanged duration, and the distance, speed and calories of the variant's own methods |
| `WorkoutProperties.StepVariantsShareDistanceAndSpeed` | homework.py:39-43 | running and sports walking with equal steps and duration have equal distance and speed, and speed times duration is that distance |
| `WorkoutProperties.SwimmingIgnoresAction` | homework.py:94-100 | two swims differing only in stroke count have equal mean speed and equal calories; their distances are equal exactly when their stroke counts are |
| `WorkoutProperties.RunningCaloriesPositive` | homework.py:56-62 | with a non-negative step count and positive duration and weight, the running speed is non-negative and the calories are positive |
| `WorkoutProperties.RunningCaloriesGrowWithSteps` | homework.py:59-62 | at equal duration and weight, more steps never burn fewer calories, and strictly more steps burn strictly more |
| `WorkoutProperties.StepSpeedZero` | homework.py:39-43 | a running or walking speed is zero exactly when the step count is zero |
| `WorkoutProperties.WalkingSpeedTerm` | homework.py:76-78 | the speed part of the walking formula is non-negative for a positive height and weight, and zero exactly at zero speed |
| `WorkoutProperties.WalkingCaloriesAtLeastWeightTerm` | homework.py:75-79 | for positive duration, weight and height, walking calories are at least the weight term 0.035·weight·duration·60; they equal it exactly when no step was taken, so they are positive for any step count |
| `WorkoutProperties.SwimmingCaloriesPositive` | homework.py:94-100 | with positive duration, weight, pool length and number of lengths, the swimming speed and calories are positive, whatever the stroke count |
| `WorkoutProperties.ResultsPositive` | homework.py:39-100 | for readings a real training produces, every variant can be computed and gives a non-negative distance and speed and positive calories |
| `WorkoutProperties.TypeNameIdentifiesVariant` | homework.py:49 | two summaries have the same label exactly when they come from the same variant |
| `Packages.Lookup` | homework.py:103-107 | the table maps a code to a variant exactly when it is that variant's code, `SWM`, `RUN` or `WLK` |
| `Packages.Arguments` | homework.py:33-36 | a record's positional arguments follow the constructor signatures (base homework.py:33-36, walking :70-73, swimming :88-92): they number 3, 4 or 5 for running, walking or swimming, and begin with action, duration and weight |
| `Packages.Construct` | homework.py:113 | building a variant from a list of the right length gives a record of that variant whose arguments are that list |
| `Packages.ReadPackage` | homework.py:110-114 | an unknown code fails with `UnknownWorkoutType`; a known code with a list of the wrong length fails with `ArgumentCount`; otherwise it succeeds, with a record whose code and arguments are exactly those given |
| `Packages.ReadPackageRoundTrip` | homework.py:110-114 | reading a record's own code and arguments returns that record |
| `Packages.ReadPackageInjective` | homework.py:110-114 | two successful reads give the same record exactly when code and data are the same |
| `Samples.SwimmingPackage` | homework.py:124 | `SWM [720, 1, 80, 25, 40]` gives distance 0.9936 km, speed 1 km/h and 336 kcal |
| `Samples.RunningPackage` | homework.py:125 | `RUN [15000, 1, 75]` gives distance and speed 9.75 and 797.805 kcal |
| `Samples.WalkingPackage` | homework.py:126 | `WLK [9000, 1, 75, 180]` gives distance and speed 5.85 and 157.50089320725 kcal |
| `Samples.ExtraRunningCalories` | homework.py:133-134 | a run of 1206 steps over 12 h at 6 kg burns 12.812472 kcal |
| `Samples.UnknownCodeRefused` | homework.py:112-114 | `XYZ`, and the lower-case `swm`, are refused whatever the data |

## Left out

- Rendering the summary as text (`InfoMessage.get_message`, homework.py:17-22): it is float-to-decimal formatting with three decimals. The model keeps the message's fields only.
- IEEE-754 double rounding: all quantities are exact reals, so the model states the formulas' exact values, not the floats the program prints.
- The driver (`main`, the `__main__` loop and its `print` calls, homework.py:117-134): it is output only. Its sample packages appear as lemmas in `Samples`.
- The base `Training.get_spent_calories`, which returns `None` (homework.py:45-46): every variant overrides it, and no base record can be built through the code table.
- The `int` annotation of `action`: Python does not enforce it, so the action count is a real like every other reading.
- Non-numeric entries in a data list: the model's data list holds numbers only.
- The exception types and messages: a Python `Exception` for an unknown code and a `TypeError` for a wrong-length list become the two `Error` constructors.
- `Workouts.MeanSpeed` requires a non-zero duration: the source raises `ZeroDivisionError` there, and the model does not describe that failure.
- `Workouts.SpentCalories` requires a non-zero duration and, for walking, a non-zero height: the source raises `ZeroDivisionError` there, and the model does not describe that failure.
- `Workouts.ShowTrainingInfo` requires what `Workouts.SpentCalories` requires, for the same reason.
