/**
 * Reading a sensor package: a workout code selects the training variant
 * and the positional data list supplies its constructor's arguments.
 */
module Packages {
  import opened Workouts

  /** The variants the code table knows. */
  datatype Kind = Swim | Run | Walk

  /** Why a package could not be read. */
  datatype Error =
    | UnknownWorkoutType(code: string)
    | ArgumentCount(expected: nat, given: nat)

  datatype Result<T> = Ok(value: T) | Err(error: Error)

  datatype Option<T> = None | Some(value: T)

  /** The code the table uses for each variant. */
  function CodeOf(k: Kind): string
  {
    match k
    case Swim => "SWM"
    case Run => "RUN"
    case Walk => "WLK"
  }

  /** The code table: a code is known exactly when it is some variant's code. */
  function Lookup(code: string): (k: Option<Kind>)
    ensures forall kind: Kind :: k == Some(kind) <==> CodeOf(kind) == code
  {
    if code == "SWM" then Some(Swim)
    else if code == "RUN" then Some(Run)
    else if code == "WLK" then Some(Walk)
    else None
  }

  /** How many positional arguments each variant's constructor takes. */
  function Arity(k: Kind): nat
  {
    match k
    case Swim => 5
    case Run => 3
    case Walk => 4
  }

  /** The variant a training record belongs to. */
  function KindOf(t: Training): Kind
  {
    match t
    case Swimming(_, _, _, _, _) => Swim
    case Running(_, _, _) => Run
    case SportsWalking(_, _, _, _) => Walk
  }

  /** The constructor arguments of a record, in parameter order. */
  function Arguments(t: Training): (data: seq<real>)
    ensures |data| == Arity(KindOf(t))
    ensures data[..3] == [t.action, t.duration, t.weight]
  {
    match t
    case Swimming(action, duration, weight, lengthPool, countPool) =>
      [action, duration, weight, lengthPool, countPool]
    case Running(action, duration, weight) =>
      [action, duration, weight]
    case SportsWalking(action, duration, weight, height) =>
      [action, duration, weight, height]
  }

  /** Calls the variant's constructor with the data as positional arguments. */
  function Construct(k: Kind, data: seq<real>): (t: Training)
    requires |data| == Arity(k)
    ensures KindOf(t) == k && Arguments(t) == data
  {
    match k
    case Swim => Swimming(data[0], data[1], data[2], data[3], data[4])
    case Run => Running(data[0], data[1], data[2])
    case Walk => SportsWalking(data[0], data[1], data[2], data[3])
  }

  /**
   * Reads one package. An unknown code fails before anything is built; a
   * known code with a data list of the wrong length fails in the constructor.
   */
  function ReadPackage(workoutType: string, data: seq<real>): (r: Result<Training>)
    ensures Lookup(workoutType) == None ==> r == Err(UnknownWorkoutType(workoutType))
    ensures forall k: Kind :: CodeOf(k) == workoutType && |data| != Arity(k)
              ==> r == Err(ArgumentCount(Arity(k), |data|))
    ensures r.Ok? <==> exists k: Kind :: CodeOf(k) == workoutType && |data| == Arity(k)
    ensures r.Ok? ==> CodeOf(KindOf(r.value)) == workoutType && Arguments(r.value) == data
  {
    match Lookup(workoutType)
    case None => Err(UnknownWorkoutType(workoutType))
    case Some(k) =>
      if |data| == Arity(k) then Ok(Construct(k, data))
      else Err(ArgumentCount(Arity(k), |data|))
  }

  /** Reading back a record's own code and arguments rebuilds that record. */
  lemma ReadPackageRoundTrip(t: Training)
    ensures ReadPackage(CodeOf(KindOf(t)), Arguments(t)) == Ok(t)
  {
    assert Lookup(CodeOf(KindOf(t))) == Some(KindOf(t));
  }

  /** A record read from a package is exactly one the package determines. */
  lemma ReadPackageInjective(code1: string, data1: seq<real>, code2: string, data2: seq<real>)
    requires ReadPackage(code1, data1).Ok? && ReadPackage(code2, data2).Ok?
    ensures ReadPackage(code1, data1) == ReadPackage(code2, data2) <==> code1 == code2 && data1 == data2
  {
  }
}
