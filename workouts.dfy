/**
 * The three training variants, the quantities each one computes from its
 * sensor readings (distance, mean speed, calories) and the summary message
 * that bundles them. Every quantity is an exact `real`.
 */
module Workouts {

  // Module-level unit-conversion constants.
  const KmhInMs: real := 0.06
  const SmInM: real := 0.01

  // Constants of the base training: step length in metres, metres in a
  // kilometre, minutes in an hour.
  const LenStep: real := 0.65
  const MInKm: real := 1000.0
  const HoursInMinutes: real := 60.0

  // Running calorie coefficients.
  const RunSpeedMultiplier: real := 18.0
  const RunSpeedShift: real := 1.79

  // Sports-walking calorie coefficients.
  const WalkWeightFactor: real := 0.035
  const WalkSpeedFactor: real := 0.029

  // Swimming overrides the stroke length and has its own coefficients.
  const SwimLenStep: real := 1.38
  const SwimSpeedShift: real := 1.1
  const SwimFactor: real := 2.0

  /**
   * A training record: the raw readings it was constructed from, in the
   * order of the constructor's parameters. `action` counts steps or strokes.
   */
  datatype Training =
    | Running(action: real, duration: real, weight: real)
    | SportsWalking(action: real, duration: real, weight: real, height: real)
    | Swimming(action: real, duration: real, weight: real, lengthPool: real, countPool: real)

  /** The summary of one training. */
  datatype InfoMessage = InfoMessage(
    trainingType: string,
    duration: real,
    distance: real,
    speed: real,
    calories: real)

  /** The name of the record's class, used as the summary's label. */
  function TypeName(t: Training): (name: string)
    ensures name == "Running" <==> t.Running?
    ensures name == "SportsWalking" <==> t.SportsWalking?
    ensures name == "Swimming" <==> t.Swimming?
  {
    match t
    case Running(_, _, _) => "Running"
    case SportsWalking(_, _, _, _) => "SportsWalking"
    case Swimming(_, _, _, _, _) => "Swimming"
  }

  /** Length of one step (or stroke) in metres: swimming overrides the base length. */
  function StepLength(t: Training): (m: real)
    ensures m > 0.0
    ensures m == SwimLenStep <==> t.Swimming?
    ensures m == LenStep <==> !t.Swimming?
  {
    if t.Swimming? then SwimLenStep else LenStep
  }

  /** Distance covered, in kilometres: steps times step length, in metres, over 1000. */
  function Distance(t: Training): (km: real)
    ensures km * MInKm == t.action * StepLength(t)
    ensures t.action >= 0.0 ==> km >= 0.0
  {
    t.action * StepLength(t) / MInKm
  }

  /** Kilometres actually swum: pool length times number of lengths, over 1000. */
  function PoolDistance(t: Training): real
    requires t.Swimming?
  {
    t.lengthPool * t.countPool / MInKm
  }

  /** The distance a training's mean speed is measured over. */
  function SpeedDistance(t: Training): real
  {
    if t.Swimming? then PoolDistance(t) else Distance(t)
  }

  /**
   * Mean speed in km/h. Running and walking divide the step-based distance
   * by the duration; swimming overrides this and uses the pool distance.
   * A zero duration is a division by zero in the source.
   */
  function MeanSpeed(t: Training): (kmh: real)
    requires t.duration != 0.0
    ensures kmh * t.duration == SpeedDistance(t)
  {
    match t
    case Swimming(_, duration, _, lengthPool, countPool) =>
      (lengthPool * countPool / MInKm) / duration
    case _ =>
      Distance(t) / t.duration
  }

  /** What the calorie formulas divide by is non-zero. */
  predicate Computable(t: Training)
  {
    && t.duration != 0.0
    && (t.SportsWalking? ==> t.height != 0.0)
  }

  /** A product of two factors, named so that the lemmas about signs of products can mention it. */
  function Product(a: real, b: real): real
  {
    a * b
  }

  /** The `**2` of the walking formula. */
  function Square(x: real): real
  {
    Product(x, x)
  }

  /**
   * Calories spent, in kcal, by the variant's own formula. Every formula
   * is proportional to the weight, so a weightless training burns nothing.
   */
  function SpentCalories(t: Training): (kcal: real)
    requires Computable(t)
    ensures t.weight == 0.0 ==> kcal == 0.0
  {
    match t
    case Running(_, duration, weight) =>
      (RunSpeedMultiplier * MeanSpeed(t) + RunSpeedShift) * weight / MInKm
      * duration * HoursInMinutes
    case SportsWalking(_, duration, weight, height) =>
      ((WalkWeightFactor * weight)
       + (Square(MeanSpeed(t) * KmhInMs) / height * SmInM) * WalkSpeedFactor * weight)
      * duration * HoursInMinutes
    case Swimming(_, duration, weight, _, _) =>
      (MeanSpeed(t) + SwimSpeedShift) * SwimFactor * weight * duration
  }

  /**
   * The summary of a training: its class name, its duration unchanged, and
   * the distance, speed and calories its own formulas give.
   */
  function ShowTrainingInfo(t: Training): (msg: InfoMessage)
    requires Computable(t)
    ensures msg.trainingType == TypeName(t)
    ensures msg.duration == t.duration
    ensures msg.distance == Distance(t)
    ensures msg.speed == MeanSpeed(t)
    ensures msg.calories == SpentCalories(t)
  {
    InfoMessage(TypeName(t), t.duration, Distance(t), MeanSpeed(t), SpentCalories(t))
  }
}
