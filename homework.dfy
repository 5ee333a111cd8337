/** Workout statistics: a base training kind and its three concrete variants
    (running, sports walking, swimming), each with its own distance, mean
    speed and calorie formulas, the tag dispatcher that builds a workout from
    a flat package of sensor readings, and the summary record of one workout.
    Arithmetic is exact over `real`. */
module Homework {

  datatype Option<T> = None | Some(value: T)

  /** Why a sensor package could not be turned into a workout. */
  datatype PackageError =
    | UnknownKind(tag: string)                          // the tag is not in the dispatch table
    | ArityMismatch(tag: string, expected: nat, given: nat) // the constructor got the wrong number of readings

  datatype Result<T> = Ok(value: T) | Err(error: PackageError)

  /** The kind of a workout with the fields only that kind carries.
      `Base` is the abstract training, which has no calorie formula. */
  datatype Kind =
    | Base
    | Running
    | Walking(height: real)
    | Swimming(lengthPool: real, countPool: real)

  /** One workout: its kind, the number of actions (steps or strokes),
      its duration in hours and the athlete's weight. */
  datatype Training = Training(kind: Kind, action: real, duration: real, weight: real)

  /** The summary of one workout (its five fields, not their rendering). */
  datatype InfoMessage = InfoMessage(
    trainingType: string,
    duration: real,
    distance: real,
    speed: real,
    calories: Option<real>)

  const LenStep: real := 0.65
  const SwimmingLenStep: real := 1.38
  const MInKm: real := 1000.0
  /** Minutes per hour, under the name the program gives it. */
  const HoursPerMinute: real := 60.0

  /** The step length in metres: inherited by running and walking,
      overridden by swimming. */
  function StepLength(k: Kind): real
  {
    if k.Swimming? then SwimmingLenStep else LenStep
  }

  function NameOfTraining(k: Kind): string
  {
    match k
    case Base => "Training"
    case Running => "Running"
    case Walking(_) => "SportsWalking"
    case Swimming(_, _) => "Swimming"
  }

  /** The divisions a formula makes are by non-zero values. */
  predicate Computable(t: Training)
  {
    t.duration != 0.0 && (t.kind.Walking? ==> t.kind.height != 0.0)
  }

  // ---------------------------------------------------------------------------
  // Real arithmetic
  //
  // Monotonicity of multiplication appears in three shapes: on raw products
  // (MulMonotone, MulStrictMonotone), on Times terms (TimesMonotone,
  // TimesStrictMonotone) and with the product already named (ScaledBelow,
  // ScaledAbove). The solver could prove each without help; they exist so
  // that every caller receives the fact on the very terms it uses, which
  // keeps the nonlinear proofs stable across solver seeds.
  // ---------------------------------------------------------------------------

  lemma MulMonotone(a: real, b: real, h: real)
    requires a <= b && 0.0 <= h
    ensures a * h <= b * h
  {
    assert b * h - a * h == (b - a) * h;
  }

  lemma MulStrictMonotone(a: real, b: real, h: real)
    requires a < b && 0.0 < h
    ensures a * h < b * h
  {
    assert b * h - a * h == (b - a) * h;
  }

  /** A product kept behind a name. Facts that cross a lemma call are stated
      on Times terms: the solver matches those by congruence, whereas it does
      not reliably relate a variable to a raw product. */
  function Times(a: real, b: real): real
  {
    a * b
  }

  lemma TimesMonotone(a: real, b: real, k: real)
    requires a <= b && 0.0 < k
    ensures Times(a, k) <= Times(b, k)
  {
    MulMonotone(a, b, k);
  }

  lemma TimesStrictMonotone(a: real, b: real, k: real)
    requires a < b && 0.0 < k
    ensures Times(a, k) < Times(b, k)
  {
    MulStrictMonotone(a, b, k);
  }

  lemma TimesSuccessor(q: real, k: real)
    ensures Times(q + 1.0, k) == Times(q, k) + k
  {
    assert (q + 1.0) * k == q * k + k;
  }

  // ---------------------------------------------------------------------------
  // Formulas
  // ---------------------------------------------------------------------------

  /** Distance in kilometres: actions times step length, from metres to
      kilometres. One formula for every kind; only the step length differs. */
  function Distance(t: Training): (d: real)
    ensures d * 1000.0 == t.action * (if t.kind.Swimming? then 1.38 else 0.65)
    ensures 0.0 <= t.action ==> 0.0 <= d
  {
    t.action * StepLength(t.kind) / MInKm
  }

  /** Mean speed in km/h. Swimming replaces distance by the pool length times
      the number of pool crossings and so does not look at the actions. */
  function MeanSpeed(t: Training): (s: real)
    requires t.duration != 0.0
    ensures !t.kind.Swimming? ==> s * t.duration == Distance(t)
    ensures t.kind.Swimming? ==> s * t.duration * 1000.0 == t.kind.lengthPool * t.kind.countPool
  {
    match t.kind
    case Swimming(lengthPool, countPool) => lengthPool * countPool / MInKm / t.duration
    case _ => Distance(t) / t.duration
  }

  /** Python's float floor division `x // h` on exact reals: the whole
      number of times `h` goes into `x`, rounded down. */
  function FloorDiv(x: real, h: real): (q: real)
    requires h != 0.0
    ensures q.Floor as real == q
    ensures 0.0 < h ==> q * h <= x < (q + 1.0) * h
    ensures h < 0.0 ==> (q + 1.0) * h < x <= q * h
  {
    FloorDivBounds(x, h, (x / h).Floor as real);
    (x / h).Floor as real
  }

  lemma FloorDivBounds(x: real, h: real, q: real)
    requires h != 0.0 && q == (x / h).Floor as real
    ensures 0.0 < h ==> q * h <= x < (q + 1.0) * h
    ensures h < 0.0 ==> (q + 1.0) * h < x <= q * h
  {
    var f := x / h;
    assert f * h == x;
    ScaledFloorBounds(q, f, h, x);
  }

  lemma ScaledFloorBounds(q: real, f: real, h: real, x: real)
    requires q <= f < q + 1.0 && f * h == x
    ensures 0.0 < h ==> q * h <= x < (q + 1.0) * h
    ensures h < 0.0 ==> (q + 1.0) * h < x <= q * h
  {
    if 0.0 < h {
      ScaledBelow(q, f, h, x);
      ScaledAbove(f, q + 1.0, h, x);
    } else if h < 0.0 {
      ScaledBelow(q, f, -h, -x);
      ScaledAbove(f, q + 1.0, -h, -x);
    }
  }

  lemma ScaledBelow(a: real, f: real, h: real, x: real)
    requires a <= f && f * h == x && 0.0 < h
    ensures a * h <= x
  {
    MulMonotone(a, f, h);
  }

  lemma ScaledAbove(f: real, b: real, h: real, x: real)
    requires f < b && f * h == x && 0.0 < h
    ensures x < b * h
  {
    MulStrictMonotone(f, b, h);
  }

  /** Running: (18 * speed - 20) * weight / 1000 * duration * 60. */
  function RunningCalories(speed: real, weight: real, duration: real): real
  {
    (18.0 * speed - 20.0) * weight / MInKm * duration * HoursPerMinute
  }

  /** Sports walking: (0.035 * weight + (speed ** 2 // height) * 0.029 * weight)
      * duration * 60, with Python's floor division. */
  function WalkingCalories(speed: real, weight: real, duration: real, height: real): real
    requires height != 0.0
  {
    WalkingFormula(FloorDiv(speed * speed, height), weight, duration)
  }

  /** The walking formula with true division where the program floors;
      the reference the floored formula is measured against. */
  function UnflooredWalkingCalories(speed: real, weight: real, duration: real, height: real): real
    requires height != 0.0
  {
    WalkingFormula(speed * speed / height, weight, duration)
  }

  /** The walking formula around its speed term: (0.035 * weight + term *
      0.029 * weight) * duration * 60. */
  function WalkingFormula(term: real, weight: real, duration: real): real
  {
    (0.035 * weight + term * 0.029 * weight) * duration * HoursPerMinute
  }

  /** What one unit of the speed term adds to the walking formula:
      0.029 * weight * duration * 60. */
  function WalkingStep(weight: real, duration: real): real
  {
    0.029 * weight * duration * HoursPerMinute
  }

  /** Swimming: (speed + 1.1) * 2 * weight. */
  function SwimmingCalories(speed: real, weight: real): real
  {
    (speed + 1.1) * 2.0 * weight
  }

  /** Calories spent, from the kind's own formula applied to the mean speed;
      the abstract base kind has no formula. */
  function Calories(t: Training): (c: Option<real>)
    requires t.kind.Base? || Computable(t)
    ensures c.None? <==> t.kind.Base?
    ensures t.kind.Running? ==> c == Some(RunningCalories(MeanSpeed(t), t.weight, t.duration))
    ensures t.kind.Walking? ==> c == Some(WalkingCalories(MeanSpeed(t), t.weight, t.duration, t.kind.height))
    ensures t.kind.Swimming? ==> c == Some(SwimmingCalories(MeanSpeed(t), t.weight))
  {
    match t.kind
    case Base => None
    case Running => Some(RunningCalories(MeanSpeed(t), t.weight, t.duration))
    case Walking(height) => Some(WalkingCalories(MeanSpeed(t), t.weight, t.duration, height))
    case Swimming(_, _) => Some(SwimmingCalories(MeanSpeed(t), t.weight))
  }

  /** The summary of a workout, built from the workout's own values. */
  function ShowTrainingInfo(t: Training): (m: InfoMessage)
    requires Computable(t)
    ensures m.trainingType == NameOfTraining(t.kind)
    ensures m.duration == t.duration
    ensures m.distance * 1000.0 == t.action * (if t.kind.Swimming? then 1.38 else 0.65)
    ensures !t.kind.Swimming? ==> m.speed * m.duration == m.distance
    ensures t.kind.Swimming? ==> m.speed * m.duration * 1000.0 == t.kind.lengthPool * t.kind.countPool
    ensures m.calories.None? <==> t.kind.Base?
    ensures m.speed == MeanSpeed(t) && m.calories == Calories(t)
  {
    InfoMessage(NameOfTraining(t.kind), t.duration, Distance(t), MeanSpeed(t), Calories(t))
  }

  // ---------------------------------------------------------------------------
  // Dispatcher
  // ---------------------------------------------------------------------------

  /** The dispatch table: tag -> number of readings its constructor takes. */
  const Arity: map<string, nat> := map["SWM" := 5, "RUN" := 3, "WLK" := 4]

  /** Builds the workout a tag names from its readings, taken positionally:
      action, duration, weight, then the kind's own fields. */
  function ReadPackage(tag: string, data: seq<real>): (r: Result<Training>)
    ensures r.Ok? <==> (tag == "SWM" && |data| == 5) || (tag == "RUN" && |data| == 3)
                       || (tag == "WLK" && |data| == 4)
    ensures r == Err(UnknownKind(tag)) <==> tag != "SWM" && tag != "RUN" && tag != "WLK"
    ensures tag in Arity && |data| != Arity[tag] ==> r == Err(ArityMismatch(tag, Arity[tag], |data|))
    ensures r.Ok? ==> r.value.action == data[0] && r.value.duration == data[1]
                      && r.value.weight == data[2]
    ensures r.Ok? && tag == "RUN" ==> r.value.kind == Running
    ensures r.Ok? && tag == "WLK" ==> r.value.kind == Walking(data[3])
    ensures r.Ok? && tag == "SWM" ==> r.value.kind == Swimming(data[3], data[4])
  {
    if tag !in Arity then
      Err(UnknownKind(tag))
    else if |data| != Arity[tag] then
      Err(ArityMismatch(tag, Arity[tag], |data|))
    else
      var kind := match tag
        case "RUN" => Running
        case "WLK" => Walking(data[3])
        case _ => Swimming(data[3], data[4]);
      Ok(Training(kind, data[0], data[1], data[2]))
  }

  /** The package a concrete workout is read from: the inverse of ReadPackage. */
  function Package(t: Training): (p: (string, seq<real>))
    requires !t.kind.Base?
    ensures p.0 in Arity && |p.1| == Arity[p.0]
  {
    match t.kind
    case Running => ("RUN", [t.action, t.duration, t.weight])
    case Walking(height) => ("WLK", [t.action, t.duration, t.weight, height])
    case Swimming(lengthPool, countPool) =>
      ("SWM", [t.action, t.duration, t.weight, lengthPool, countPool])
  }

  // ---------------------------------------------------------------------------
  // Properties
  // ---------------------------------------------------------------------------

  /** Every concrete workout is read back from its own package. */
  lemma ReadPackageRoundTrip(t: Training)
    requires !t.kind.Base?
    ensures ReadPackage(Package(t).0, Package(t).1) == Ok(t)
  {
  }

  /** Every package that reads successfully is the package of what it reads,
      so the dispatcher loses no reading and invents none. */
  lemma {:induction false} PackageOfRead(tag: string, data: seq<real>)
    requires ReadPackage(tag, data).Ok?
    ensures !ReadPackage(tag, data).value.kind.Base?
    ensures Package(ReadPackage(tag, data).value) == (tag, data)
  {
    var t := ReadPackage(tag, data).value;
    if tag == "RUN" {
      assert data == [data[0], data[1], data[2]];
    } else if tag == "WLK" {
      assert data == [data[0], data[1], data[2], data[3]];
    } else {
      assert data == [data[0], data[1], data[2], data[3], data[4]];
    }
  }

  /** Running, walking and the base kind share the inherited distance. */
  lemma DistanceInherited(t: Training, k: Kind)
    requires !t.kind.Swimming? && !k.Swimming?
    ensures Distance(t.(kind := k)) == Distance(t) == t.action * 0.65 / 1000.0
  {
  }

  /** Swimming speed and calories ignore the number of strokes. */
  lemma SwimmingIgnoresAction(t: Training, action: real)
    requires t.kind.Swimming? && t.duration != 0.0
    ensures MeanSpeed(t.(action := action)) == MeanSpeed(t)
    ensures Calories(t.(action := action)) == Calories(t)
  {
  }

  /** Running calories in terms of the readings alone:
      (18 * 0.65 / 1000 * action - 20 * duration) * weight * 60 / 1000. */
  lemma RunningCaloriesClosedForm(t: Training)
    requires t.kind.Running? && t.duration != 0.0
    ensures Calories(t) == Some((0.0117 * t.action - 20.0 * t.duration) * t.weight * 0.06)
  {
    var s := MeanSpeed(t);
    assert s * t.duration * 1000.0 == t.action * 0.65;
    RunningFormula(s, t.action, t.weight, t.duration);
    assert Calories(t) == Some(RunningCalories(s, t.weight, t.duration));
    assert RunningCalories(s, t.weight, t.duration) == (0.0117 * t.action - 20.0 * t.duration) * t.weight * 0.06;
  }

  /** The running formula once speed times duration is the distance. */
  lemma RunningFormula(s: real, a: real, w: real, d: real)
    requires s * d * 1000.0 == a * 0.65
    ensures RunningCalories(s, w, d) == (0.0117 * a - 20.0 * d) * w * 0.06
  {
    calc {
      RunningCalories(s, w, d);
      (18.0 * s - 20.0) * w / 1000.0 * d * 60.0;
      (18.0 * (s * d) - 20.0 * d) * w * 0.06;
      { assert 18.0 * (s * d) == 0.0117 * a; }
      (0.0117 * a - 20.0 * d) * w * 0.06;
    }
  }

  /** Swimming calories in terms of the readings alone, without the
      division by the duration: calories * duration
      == (length_pool * count_pool / 1000 + 1.1 * duration) * 2 * weight. */
  lemma SwimmingCaloriesClosedForm(t: Training)
    requires t.kind.Swimming? && t.duration != 0.0
    ensures Calories(t).Some?
    ensures Calories(t).value * t.duration
            == (t.kind.lengthPool * t.kind.countPool / 1000.0 + 1.1 * t.duration) * 2.0 * t.weight
  {
    var s := MeanSpeed(t);
    assert s * t.duration * 1000.0 == t.kind.lengthPool * t.kind.countPool;
    assert Calories(t) == Some(SwimmingCalories(s, t.weight));
    SwimmingFormula(s, t.kind.lengthPool * t.kind.countPool, t.weight, t.duration);
  }

  /** The swimming formula once speed times duration is the pool distance. */
  lemma SwimmingFormula(s: real, p: real, w: real, d: real)
    requires s * d * 1000.0 == p
    ensures SwimmingCalories(s, w) * d == (p / 1000.0 + 1.1 * d) * 2.0 * w
  {
    calc {
      SwimmingCalories(s, w) * d;
      (s * d + 1.1 * d) * 2.0 * w;
      { assert s * d == p / 1000.0; }
      (p / 1000.0 + 1.1 * d) * 2.0 * w;
    }
  }

  /** Walking below the speed threshold: when the squared speed is under the
      height, the floored term vanishes and only the weight term is left. */
  lemma WalkingSlowCalories(t: Training)
    requires t.kind.Walking? && t.duration != 0.0
    requires MeanSpeed(t) * MeanSpeed(t) < t.kind.height
    ensures Calories(t) == Some(0.035 * t.weight * t.duration * 60.0)
  {
    var s := MeanSpeed(t);
    assert Calories(t) == Some(WalkingCalories(s, t.weight, t.duration, t.kind.height));
    WalkingSlowFormula(s, t.weight, t.duration, t.kind.height);
    assert WalkingCalories(s, t.weight, t.duration, t.kind.height) == 0.035 * t.weight * t.duration * 60.0;
    assert Calories(t) == Some(0.035 * t.weight * t.duration * 60.0);
  }

  /** The walking formula when speed ** 2 < height. */
  lemma WalkingSlowFormula(s: real, w: real, d: real, h: real)
    requires s * s < h
    ensures WalkingCalories(s, w, d, h) == 0.035 * w * d * 60.0
  {
    SquareNonNegative(s);
    FloorDivZero(s * s, h);
  }

  lemma SquareNonNegative(s: real)
    ensures 0.0 <= s * s
  {
    if s < 0.0 {
      MulStrictMonotone(s, 0.0, -s);
    }
  }

  /** x // h is 0 when 0 <= x < h. */
  lemma FloorDivZero(x: real, h: real)
    requires 0.0 <= x < h
    ensures FloorDiv(x, h) == 0.0
  {
    var q := FloorDiv(x, h);
    if q < 0.0 {
      ScaledBelow(q + 1.0, 0.0, h, 0.0);
    } else if q > 0.0 {
      ScaledBelow(1.0, q, h, q * h);
    }
  }

  /** Walking calories fall short of the unfloored formula by less than one
      step of the floored term, 0.029 * weight * duration * 60. */
  lemma WalkingFloorDeficit(t: Training)
    requires t.kind.Walking? && 0.0 < t.kind.height
    requires 0.0 < t.duration && 0.0 < t.weight
    ensures var exact := UnflooredWalkingCalories(MeanSpeed(t), t.weight, t.duration, t.kind.height);
            exact - WalkingStep(t.weight, t.duration) < Calories(t).value <= exact
  {
    var s := MeanSpeed(t);
    assert Calories(t) == Some(WalkingCalories(s, t.weight, t.duration, t.kind.height));
    WalkingDeficit(s, t.kind.height, t.weight, t.duration);
  }

  lemma WalkingDeficit(s: real, h: real, w: real, d: real)
    requires 0.0 < h && 0.0 < w && 0.0 < d
    ensures var exact := UnflooredWalkingCalories(s, w, d, h);
            exact - WalkingStep(w, d) < WalkingCalories(s, w, d, h) <= exact
  {
    FloorDivQuotient(s * s, h);
    WalkingFormulaGap(FloorDiv(s * s, h), s * s / h, w, d);
  }

  lemma FloorDivQuotient(x: real, h: real)
    requires h != 0.0
    ensures FloorDiv(x, h) <= x / h < FloorDiv(x, h) + 1.0
  {
  }

  /** Lowering the speed term by less than one lowers the walking formula by
      less than one step and never raises it. */
  lemma WalkingFormulaGap(q: real, f: real, w: real, d: real)
    requires q <= f < q + 1.0 && 0.0 < w && 0.0 < d
    ensures WalkingFormula(f, w, d) - WalkingStep(w, d) < WalkingFormula(q, w, d) <= WalkingFormula(f, w, d)
  {
    WalkingExpanded(q, w, d);
    WalkingExpanded(f, w, d);
    StepPositive(w, d);
    TimesMonotone(q, f, WalkingStep(w, d));
    TimesStrictMonotone(f, q + 1.0, WalkingStep(w, d));
    TimesSuccessor(q, WalkingStep(w, d));
  }

  lemma WalkingExpanded(g: real, w: real, d: real)
    ensures WalkingFormula(g, w, d) == 0.035 * w * d * HoursPerMinute + Times(g, WalkingStep(w, d))
  {
    assert Times(g, WalkingStep(w, d)) == g * (0.029 * w * d * HoursPerMinute);
  }

  lemma StepPositive(w: real, d: real)
    requires 0.0 < w && 0.0 < d
    ensures 0.0 < WalkingStep(w, d)
  {
    assert 0.0 < w * d;
  }

  /** The three sample packages the program ships with. */
  lemma SamplePackages()
    ensures ReadPackage("RUN", [15000.0, 1.0, 75.0]).Ok?
    ensures ShowTrainingInfo(ReadPackage("RUN", [15000.0, 1.0, 75.0]).value)
            == InfoMessage("Running", 1.0, 9.75, 9.75, Some(699.75))
    ensures ReadPackage("WLK", [9000.0, 1.0, 75.0, 180.0]).Ok?
    ensures ShowTrainingInfo(ReadPackage("WLK", [9000.0, 1.0, 75.0, 180.0]).value)
            == InfoMessage("SportsWalking", 1.0, 5.85, 5.85, Some(157.5))
    ensures ReadPackage("SWM", [720.0, 1.0, 80.0, 25.0, 40.0]).Ok?
    ensures ShowTrainingInfo(ReadPackage("SWM", [720.0, 1.0, 80.0, 25.0, 40.0]).value)
            == InfoMessage("Swimming", 1.0, 0.9936, 1.0, Some(336.0))
  {
    var walk := ReadPackage("WLK", [9000.0, 1.0, 75.0, 180.0]).value;
    assert MeanSpeed(walk) == 5.85;
    WalkingSlowCalories(walk);
  }

  /** A tag outside the dispatch table is refused whatever the readings. */
  lemma UnknownTagRefused(tag: string, data: seq<real>)
    requires tag !in Arity
    ensures ReadPackage(tag, data) == Err(UnknownKind(tag))
  {
  }
}
