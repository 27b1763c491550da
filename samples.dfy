/**
 * The packages of the program's driver, read and summarised, with the
 * values the formulas give for them (exact, before any float rounding).
 */
module Samples {
  import opened Workouts
  import opened Packages

  lemma SwimmingPackage()
    ensures ReadPackage("SWM", [720.0, 1.0, 80.0, 25.0, 40.0]).Ok?
    ensures var t := ReadPackage("SWM", [720.0, 1.0, 80.0, 25.0, 40.0]).value;
            Computable(t) && ShowTrainingInfo(t) == InfoMessage("Swimming", 1.0, 0.9936, 1.0, 336.0)
  {
  }

  lemma RunningPackage()
    ensures ReadPackage("RUN", [15000.0, 1.0, 75.0]).Ok?
    ensures var t := ReadPackage("RUN", [15000.0, 1.0, 75.0]).value;
            Computable(t) && ShowTrainingInfo(t) == InfoMessage("Running", 1.0, 9.75, 9.75, 797.805)
  {
  }

  lemma WalkingPackage()
    ensures ReadPackage("WLK", [9000.0, 1.0, 75.0, 180.0]).Ok?
    ensures var t := ReadPackage("WLK", [9000.0, 1.0, 75.0, 180.0]).value;
            Computable(t)
            && ShowTrainingInfo(t) == InfoMessage("SportsWalking", 1.0, 5.85, 5.85, 157.50089320725)
  {
  }

  /** The extra run the driver prints the calories of. */
  lemma ExtraRunningCalories()
    ensures SpentCalories(Running(1206.0, 12.0, 6.0)) == 12.812472
  {
  }

  /** A code outside the table is refused whatever the data. */
  lemma UnknownCodeRefused(data: seq<real>)
    ensures ReadPackage("XYZ", data) == Err(UnknownWorkoutType("XYZ"))
    ensures ReadPackage("swm", data).Err?
  {
  }
}
