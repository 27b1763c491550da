/**
 * Properties of the training formulas: how they depend on the readings,
 * and their signs for physically meaningful readings.
 */
module WorkoutProperties {
  import opened Workouts

  /** Readings a real training produces: no negative counts, positive measures. */
  predicate PositiveReadings(t: Training)
  {
    && t.action >= 0.0
    && t.duration > 0.0
    && t.weight > 0.0
    && (t.SportsWalking? ==> t.height > 0.0)
    && (t.Swimming? ==> t.lengthPool > 0.0 && t.countPool > 0.0)
  }

  // The sign and monotonicity helpers below, and the calls to them in the
  // lemmas that follow, spell out the nonlinear steps; Z3's support for
  // nonlinear real arithmetic is incomplete, so they are kept for solver
  // stability even where it finds a proof without them.

  lemma ProductPositive(a: real, b: real)
    requires a > 0.0 && b > 0.0
    ensures a * b > 0.0
    ensures Product(a, b) > 0.0
  {
  }

  lemma ProductNonNegative(a: real, b: real)
    requires a >= 0.0 && b >= 0.0
    ensures a * b >= 0.0
  {
  }

  lemma ProductOfNegatives(a: real, b: real)
    requires a < 0.0 && b < 0.0
    ensures Product(a, b) > 0.0
  {
  }

  lemma ProductWithZero(a: real, b: real)
    requires a == 0.0
    ensures Product(a, b) == 0.0
  {
  }

  /** A square is never negative, and zero only for zero (a helper for the walking formula). */
  lemma SquareSign(x: real)
    ensures Square(x) >= 0.0
    ensures Square(x) == 0.0 <==> x == 0.0
  {
    if x < 0.0 {
      ProductOfNegatives(x, x);
    } else if x > 0.0 {
      ProductPositive(x, x);
    } else {
      ProductWithZero(x, x);
    }
  }

  lemma QuotientMonotone(a: real, b: real, c: real)
    requires a <= b && c > 0.0
    ensures a / c <= b / c
    ensures a < b ==> a / c < b / c
  {
  }

  lemma ProductMonotone(a: real, b: real, c: real)
    requires a <= b && c > 0.0
    ensures a * c <= b * c
    ensures a < b ==> a * c < b * c
  {
    ProductNonNegative(b - a, c);
    if a < b {
      ProductPositive(b - a, c);
    }
  }

  /** Running and sports walking share the base step formula for distance and speed. */
  lemma StepVariantsShareDistanceAndSpeed(run: Training, walk: Training)
    requires run.Running? && walk.SportsWalking?
    requires run.action == walk.action && run.duration == walk.duration
    requires run.duration != 0.0
    ensures Distance(run) == Distance(walk)
    ensures MeanSpeed(run) == MeanSpeed(walk)
    ensures MeanSpeed(run) * run.duration == Distance(run)
  {
  }

  /**
   * Swimming's mean speed, and so its calories, ignore the stroke count:
   * two swims that differ only in `action` have equal speed and calories,
   * while their step-based distances differ.
   */
  lemma SwimmingIgnoresAction(s1: Training, s2: Training)
    requires s1.Swimming? && s2.Swimming?
    requires s1.duration == s2.duration && s1.duration != 0.0
    requires s1.weight == s2.weight
    requires s1.lengthPool == s2.lengthPool && s1.countPool == s2.countPool
    ensures MeanSpeed(s1) == MeanSpeed(s2)
    ensures SpentCalories(s1) == SpentCalories(s2)
    ensures Distance(s1) == Distance(s2) <==> s1.action == s2.action
  {
    assert MeanSpeed(s1) * s1.duration == MeanSpeed(s2) * s1.duration;
    if Distance(s1) == Distance(s2) {
      assert s1.action * SwimLenStep == s2.action * SwimLenStep;
    }
  }

  /** Running calories are positive whenever the running readings are. */
  lemma RunningCaloriesPositive(t: Training)
    requires t.Running? && PositiveReadings(t)
    ensures MeanSpeed(t) >= 0.0
    ensures SpentCalories(t) > 0.0
  {
    var v := MeanSpeed(t);
    assert v >= 0.0 by {
      if v < 0.0 {
        ProductMonotone(v, 0.0, t.duration);
      }
    }
    var rate := RunSpeedMultiplier * v + RunSpeedShift;
    ProductPositive(rate, t.weight);
    ProductPositive(rate * t.weight / MInKm, t.duration);
  }

  /** The walking speed term is never negative, and zero exactly at zero speed. */
  lemma WalkingSpeedTerm(v: real, height: real, weight: real)
    requires height > 0.0 && weight > 0.0
    ensures Square(v * KmhInMs) / height * SmInM * WalkSpeedFactor * weight >= 0.0
    ensures Square(v * KmhInMs) / height * SmInM * WalkSpeedFactor * weight == 0.0 <==> v == 0.0
  {
    var sq := Square(v * KmhInMs);
    SquareSign(v * KmhInMs);
    var c := sq / height * SmInM * WalkSpeedFactor;
    ProductNonNegative(sq / height, SmInM * WalkSpeedFactor);
    assert c >= 0.0;
    ProductNonNegative(c, weight);
    if v != 0.0 {
      ProductPositive(sq / height, SmInM * WalkSpeedFactor);
      ProductPositive(c, weight);
    }
  }

  /** A step variant's speed is zero exactly when no step was taken. */
  lemma StepSpeedZero(t: Training)
    requires !t.Swimming? && t.duration != 0.0
    ensures MeanSpeed(t) == 0.0 <==> t.action == 0.0
  {
    assert MeanSpeed(t) * t.duration == Distance(t);
    assert Distance(t) * MInKm == t.action * LenStep;
  }

  /**
   * Walking calories are positive for any step count: the speed term is a
   * square, so the calories are at least the weight term, and exactly it
   * when no step was taken.
   */
  lemma WalkingCaloriesAtLeastWeightTerm(t: Training)
    requires t.SportsWalking?
    requires t.duration > 0.0 && t.weight > 0.0 && t.height > 0.0
    ensures SpentCalories(t) >= WalkWeightFactor * t.weight * t.duration * HoursInMinutes
    ensures SpentCalories(t) == WalkWeightFactor * t.weight * t.duration * HoursInMinutes
            <==> t.action == 0.0
    ensures SpentCalories(t) > 0.0
  {
    var v := MeanSpeed(t);
    var extra := Square(v * KmhInMs) / t.height * SmInM * WalkSpeedFactor * t.weight;
    var base := WalkWeightFactor * t.weight;
    var time := t.duration * HoursInMinutes;
    assert SpentCalories(t) == (base + extra) * t.duration * HoursInMinutes;
    assert SpentCalories(t) == (base + extra) * time;
    assert base * t.duration * HoursInMinutes == base * time;
    WalkingSpeedTerm(v, t.height, t.weight);
    StepSpeedZero(t);
    ProductMonotone(base, base + extra, time);
    ProductPositive(base, time);
  }

  /** Swimming calories are positive for positive measures, whatever the stroke count. */
  lemma SwimmingCaloriesPositive(t: Training)
    requires t.Swimming?
    requires t.duration > 0.0 && t.weight > 0.0 && t.lengthPool > 0.0 && t.countPool > 0.0
    ensures MeanSpeed(t) > 0.0
    ensures SpentCalories(t) > 0.0
  {
    ProductPositive(t.lengthPool, t.countPool);
    var v := MeanSpeed(t);
    assert v > 0.0 by {
      if v <= 0.0 {
        ProductMonotone(v, 0.0, t.duration);
      }
    }
    ProductPositive((v + SwimSpeedShift) * SwimFactor, t.weight);
    ProductPositive((v + SwimSpeedShift) * SwimFactor * t.weight, t.duration);
  }

  /** For real readings every variant reports a non-negative distance and speed and positive calories. */
  lemma ResultsPositive(t: Training)
    requires PositiveReadings(t)
    ensures Computable(t)
    ensures Distance(t) >= 0.0
    ensures MeanSpeed(t) >= 0.0
    ensures SpentCalories(t) > 0.0
  {
    match t
    case Running(_, _, _) =>
      RunningCaloriesPositive(t);
    case SportsWalking(_, _, _, _) =>
      WalkingCaloriesAtLeastWeightTerm(t);
      assert MeanSpeed(t) >= 0.0 by {
        var v := MeanSpeed(t);
        if v < 0.0 {
          ProductMonotone(v, 0.0, t.duration);
        }
      }
    case Swimming(_, _, _, _, _) =>
      SwimmingCaloriesPositive(t);
  }

  /** More steps in the same time and at the same weight burn more calories when running. */
  lemma RunningCaloriesGrowWithSteps(t1: Training, t2: Training)
    requires t1.Running? && t2.Running?
    requires t1.duration == t2.duration && t1.duration > 0.0
    requires t1.weight == t2.weight && t1.weight > 0.0
    requires t1.action <= t2.action
    ensures SpentCalories(t1) <= SpentCalories(t2)
    ensures t1.action < t2.action ==> SpentCalories(t1) < SpentCalories(t2)
  {
    var d := t1.duration;
    var v1, v2 := MeanSpeed(t1), MeanSpeed(t2);
    ProductMonotone(t1.action, t2.action, LenStep);
    QuotientMonotone(t1.action * LenStep, t2.action * LenStep, MInKm);
    QuotientMonotone(Distance(t1), Distance(t2), d);
    assert v1 == Distance(t1) / d && v2 == Distance(t2) / d;
    var r1 := RunSpeedMultiplier * v1 + RunSpeedShift;
    var r2 := RunSpeedMultiplier * v2 + RunSpeedShift;
    ProductMonotone(r1, r2, t1.weight / MInKm * d * HoursInMinutes);
    assert SpentCalories(t1) == r1 * (t1.weight / MInKm * d * HoursInMinutes);
    assert SpentCalories(t2) == r2 * (t1.weight / MInKm * d * HoursInMinutes);
  }

  /** The summary's label tells the variants apart. */
  lemma TypeNameIdentifiesVariant(t1: Training, t2: Training)
    ensures TypeName(t1) == TypeName(t2)
            <==> (t1.Running? && t2.Running?)
                 || (t1.SportsWalking? && t2.SportsWalking?)
                 || (t1.Swimming? && t2.Swimming?)
  {
    assert "Running"[0] != "SportsWalking"[0];
    assert "Swimming"[1] != "SportsWalking"[1];
    assert "Running"[0] != "Swimming"[0];
  }
}
