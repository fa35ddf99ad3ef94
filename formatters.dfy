/**
  The presentation formatters (src/utils/formatters.ts): API records are
  copied into the shapes the tools return, a few fields renamed on the way,
  and a workout's start and end times become a duration text "Xh Ym Zs".
  A formatted record reaches the client as JSON, where an undefined field is
  omitted and a null one is written as null.
 */
module Formatters {
  import opened Wrappers
  import opened Text
  import opened Json

  /** A field typed `T | null | undefined`: absent, null, or a value. */
  datatype Nullable<+T> = Missing | Nil | Given(value: T)

  /**
    A time argument of calculateDuration as `new Date(...)` reads it: falsy
    (undefined, null, "" or 0 — what `startTime || ""` leaves falsy), a string
    that denotes no date, or a valid instant in milliseconds since the epoch.
   */
  datatype TimeArg = Falsy | Unparsable | At(ms: int)

  /** A set of an exercise, as the API returns it (shared by workouts and routines). */
  datatype ApiSet = ApiSet(
    index: Option<int>, setType: Option<string>, weightKg: Nullable<int>, reps: Nullable<int>,
    distanceMeters: Nullable<int>, durationSeconds: Nullable<int>, rpe: Nullable<int>,
    customMetric: Nullable<int>)

  datatype ApiExercise = ApiExercise(
    index: Option<int>, title: Option<string>, notes: Nullable<string>,
    exerciseTemplateId: Option<string>, supersetsId: Nullable<int>, sets: Option<seq<ApiSet>>)

  datatype ApiWorkout = ApiWorkout(
    id: Option<string>, title: Option<string>, description: Nullable<string>,
    startTime: TimeArg, endTime: TimeArg, createdAt: Option<string>,
    exercises: Option<seq<ApiExercise>>)

  datatype ApiRoutine = ApiRoutine(
    id: Option<string>, title: Option<string>, folderId: Nullable<int>,
    createdAt: Option<string>, updatedAt: Option<string>, exercises: Option<seq<ApiExercise>>)

  datatype ApiRoutineFolder = ApiRoutineFolder(
    id: Option<int>, title: Option<string>, createdAt: Option<string>, updatedAt: Option<string>)

  datatype ApiExerciseTemplate = ApiExerciseTemplate(
    id: Option<string>, title: Option<string>, templateType: Option<string>,
    primaryMuscleGroup: Option<string>, secondaryMuscleGroups: Option<seq<string>>,
    isCustom: Option<bool>)

  datatype FormattedWorkoutSet = FormattedWorkoutSet(
    setType: Option<string>, weight: Nullable<int>, reps: Nullable<int>, distance: Nullable<int>,
    duration: Nullable<int>, rpe: Nullable<int>, customMetric: Nullable<int>)

  datatype FormattedWorkoutExercise = FormattedWorkoutExercise(
    name: Option<string>, notes: Nullable<string>, sets: Option<seq<FormattedWorkoutSet>>)

  datatype FormattedWorkout = FormattedWorkout(
    id: Option<string>, date: Option<string>, name: Option<string>, description: Nullable<string>,
    duration: string, exercises: Option<seq<FormattedWorkoutExercise>>)

  datatype FormattedRoutineSet = FormattedRoutineSet(
    index: Option<int>, setType: Option<string>, weight: Nullable<int>, reps: Nullable<int>,
    distance: Nullable<int>, duration: Nullable<int>, customMetric: Nullable<int>)

  datatype FormattedRoutineExercise = FormattedRoutineExercise(
    name: Option<string>, index: Option<int>, exerciseTemplateId: Option<string>,
    notes: Nullable<string>, supersetId: Nullable<int>, sets: Option<seq<FormattedRoutineSet>>)

  datatype FormattedRoutine = FormattedRoutine(
    id: Option<string>, title: Option<string>, folderId: Nullable<int>, createdAt: Option<string>,
    updatedAt: Option<string>, exercises: Option<seq<FormattedRoutineExercise>>)

  datatype FormattedRoutineFolder = FormattedRoutineFolder(
    id: Option<int>, title: Option<string>, createdAt: Option<string>, updatedAt: Option<string>)

  datatype FormattedExerciseTemplate = FormattedExerciseTemplate(
    id: Option<string>, title: Option<string>, templateType: Option<string>,
    primaryMuscleGroup: Option<string>, secondaryMuscleGroups: Option<seq<string>>,
    isCustom: Option<bool>)

  // ---------------------------------------------------------------------
  // calculateDuration

  const UnknownDuration := "Unknown duration"
  const NegativeDuration := "Invalid duration " + "(end time before start time)"

  /** A number followed by its unit letter, as in `${minutes}m`. */
  function Unit(n: nat, unit: char): string {
    NatToString(n) + [unit]
  }

  /** The template `${hours}h ${minutes}m ${seconds}s`. */
  function HmsText(h: nat, m: nat, s: nat): string {
    Unit(h, 'h') + (" " + (Unit(m, 'm') + (" " + Unit(s, 's'))))
  }

  /** What calculateDuration measures: no usable times, a negative span, or hours, minutes and seconds. */
  datatype Elapsed = Unknown | Negative | Span(hours: nat, minutes: nat, seconds: nat)

  /**
    The measurement: unknown unless both times are valid instants, negative
    when the end precedes the start, and otherwise the whole hours, the
    minutes past the hour and the seconds past the minute.
   */
  function Measure(start: TimeArg, end: TimeArg): Elapsed {
    if !start.At? || !end.At? then Unknown
    else if end.ms - start.ms < 0 then Negative
    else
      var d := end.ms - start.ms;
      Span(d / 3600000, d % 3600000 / 60000, d % 60000 / 1000)
  }

  function ElapsedText(e: Elapsed): string {
    match e
    case Unknown => UnknownDuration
    case Negative => NegativeDuration
    case Span(h, m, s) => HmsText(h, m, s)
  }

  /**
    `calculateDuration(start, end)`: "Unknown duration" without two valid
    instants, the negative-duration text when the end comes first, and
    otherwise a duration text, which is neither of the two.
   */
  function CalculateDuration(start: TimeArg, end: TimeArg): (r: string)
    ensures !start.At? || !end.At? ==> r == UnknownDuration
    ensures start.At? && end.At? && end.ms < start.ms ==> r == NegativeDuration
    ensures start.At? && end.At? && start.ms <= end.ms ==> r != UnknownDuration && r != NegativeDuration
  {
    var e := Measure(start, end);
    if e.Span? then
      HmsTextIsNoSentinel(e.hours, e.minutes, e.seconds);
      ElapsedText(e)
    else ElapsedText(e)
  }

  /** A duration text starts with a digit, so it is never one of the two sentinels. */
  lemma HmsTextIsNoSentinel(h: nat, m: nat, s: nat)
    ensures HmsText(h, m, s) != UnknownDuration && HmsText(h, m, s) != NegativeDuration
  {
    assert HmsText(h, m, s)[0] == NatToString(h)[0];
  }

  /** Different measurements are rendered as different texts. */
  lemma ElapsedTextInjective(e1: Elapsed, e2: Elapsed)
    requires ElapsedText(e1) == ElapsedText(e2)
    ensures e1 == e2
  {
    assert UnknownDuration[0] != NegativeDuration[0];
    match e1
    case Span(h1, m1, s1) =>
      HmsTextIsNoSentinel(h1, m1, s1);
      if e2.Span? {
        HmsTextInjective(h1, m1, s1, e2.hours, e2.minutes, e2.seconds);
      }
    case _ =>
      if e2.Span? {
        HmsTextIsNoSentinel(e2.hours, e2.minutes, e2.seconds);
      }
  }

  /**
    The three outcomes: "Unknown duration" exactly when a time is falsy or
    not a date, the negative-duration text exactly when both are instants and
    the end comes first, and a duration text otherwise.
   */
  lemma DurationOutcomes(start: TimeArg, end: TimeArg)
    ensures CalculateDuration(start, end) == UnknownDuration <==> !start.At? || !end.At?
    ensures CalculateDuration(start, end) == NegativeDuration <==> start.At? && end.At? && end.ms < start.ms
  {
    var e := Measure(start, end);
    if ElapsedText(e) == UnknownDuration {
      ElapsedTextInjective(e, Unknown);
    }
    if ElapsedText(e) == NegativeDuration {
      ElapsedTextInjective(e, Negative);
    }
  }

  /** Euclidean division by a positive divisor has exactly one quotient and remainder. */
  lemma DivModUnique(x: int, b: int, q: int, r: int)
    requires 0 < b && 0 <= r < b && x == b * q + r
    ensures x / b == q && x % b == r
  {
    var q0 := x / b;
    if q0 < q {
      MulAtLeast(b, q - q0);
      assert false;
    } else if q < q0 {
      MulAtLeast(b, q0 - q);
      assert false;
    }
  }

  lemma MulAtLeast(b: int, k: int)
    requires b > 0 && k >= 1
    ensures b * k >= b
  {
  }

  /**
    The parts calculateDuration prints are the hours, minutes and seconds of
    the whole seconds elapsed: minutes and seconds are below 60 and together
    with the hours they add up to the elapsed whole seconds.
   */
  lemma DurationParts(d: nat)
    ensures d % 3600000 / 60000 < 60 && d % 60000 / 1000 < 60
    ensures 3600 * (d / 3600000) + 60 * (d % 3600000 / 60000) + d % 60000 / 1000 == d / 1000
  {
    var h, r1 := d / 3600000, d % 3600000;
    var m, r2 := r1 / 60000, r1 % 60000;
    var s, r3 := r2 / 1000, r2 % 1000;
    assert d == 3600000 * h + r1 && r1 == 60000 * m + r2 && r2 == 1000 * s + r3;
    DivModUnique(d, 60000, 60 * h + m, r2);
    DivModUnique(d, 1000, 3600 * h + 60 * m + s, r3);
  }

  /** Conversely, any such decomposition of the whole seconds is the one calculateDuration computes. */
  lemma DurationPartsUnique(d: nat, h: nat, m: nat, s: nat)
    requires m < 60 && s < 60 && 3600 * h + 60 * m + s == d / 1000
    ensures d / 3600000 == h && d % 3600000 / 60000 == m && d % 60000 / 1000 == s
  {
    var r0 := d % 1000;
    assert d == 1000 * (d / 1000) + r0;
    DivModUnique(d, 3600000, h, 60000 * m + 1000 * s + r0);
    DivModUnique(60000 * m + 1000 * s + r0, 60000, m, 1000 * s + r0);
    DivModUnique(d, 60000, 60 * h + m, 1000 * s + r0);
    DivModUnique(1000 * s + r0, 1000, s, r0);
  }

  /**
    For a non-negative elapsed time the text is `{h}h {m}m {s}s` for the one
    decomposition of the elapsed whole seconds into hours, minutes below 60
    and seconds below 60.
   */
  lemma DurationText(start: int, end: int, h: nat, m: nat, s: nat)
    requires end - start >= 0
    requires m < 60 && s < 60 && 3600 * h + 60 * m + s == (end - start) / 1000
    ensures Measure(At(start), At(end)) == Span(h, m, s)
    ensures CalculateDuration(At(start), At(end)) == HmsText(h, m, s)
  {
    DurationPartsUnique(end - start, h, m, s);
  }

  /** Equal start and end times give "0h 0m 0s". */
  lemma SameInstantIsZero(t: int)
    ensures CalculateDuration(At(t), At(t)) == "0h 0m 0s"
  {
    DurationText(t, t, 0, 0, 0);
  }

  /** The hours, minutes and seconds can be read back from a duration text. */
  lemma HmsTextInjective(h1: nat, m1: nat, s1: nat, h2: nat, m2: nat, s2: nat)
    requires HmsText(h1, m1, s1) == HmsText(h2, m2, s2)
    ensures h1 == h2 && m1 == m2 && s1 == s2
  {
    var x1, x2 := " " + (Unit(m1, 'm') + (" " + Unit(s1, 's'))), " " + (Unit(m2, 'm') + (" " + Unit(s2, 's')));
    DigitsThenSeparator(NatToString(h1), x1, NatToString(h2), x2, 'h');
    NatToStringInjective(h1, h2);
    var y1, y2 := " " + Unit(s1, 's'), " " + Unit(s2, 's');
    assert Unit(m1, 'm') + y1 == x1[1..] == x2[1..] == Unit(m2, 'm') + y2;
    DigitsThenSeparator(NatToString(m1), y1, NatToString(m2), y2, 'm');
    NatToStringInjective(m1, m2);
    assert Unit(s1, 's') + [] == y1[1..] == y2[1..] == Unit(s2, 's') + [];
    DigitsThenSeparator(NatToString(s1), [], NatToString(s2), [], 's');
    NatToStringInjective(s1, s2);
  }

  /**
    Two non-negative elapsed times print the same text exactly when they
    contain the same number of whole seconds.
   */
  lemma DurationTextsAgree(start1: int, end1: int, start2: int, end2: int)
    requires end1 - start1 >= 0 && end2 - start2 >= 0
    ensures CalculateDuration(At(start1), At(end1)) == CalculateDuration(At(start2), At(end2))
        <==> (end1 - start1) / 1000 == (end2 - start2) / 1000
  {
    var d1, d2 := end1 - start1, end2 - start2;
    var h, m, s := d1 / 3600000, d1 % 3600000 / 60000, d1 % 60000 / 1000;
    DurationParts(d1);
    assert Measure(At(start1), At(end1)) == Span(h, m, s);
    DurationParts(d2);
    var e2 := Measure(At(start2), At(end2));
    assert e2 == Span(d2 / 3600000, d2 % 3600000 / 60000, d2 % 60000 / 1000);
    if ElapsedText(Span(h, m, s)) == ElapsedText(e2) {
      ElapsedTextInjective(Span(h, m, s), e2);
    }
    if d1 / 1000 == d2 / 1000 {
      DurationText(start2, end2, h, m, s);
    }
  }

  // ---------------------------------------------------------------------
  // The format* functions

  function FormatWorkoutSet(s: ApiSet): FormattedWorkoutSet {
    FormattedWorkoutSet(s.setType, s.weightKg, s.reps, s.distanceMeters, s.durationSeconds, s.rpe, s.customMetric)
  }

  function FormatWorkoutExercise(e: ApiExercise): FormattedWorkoutExercise {
    FormattedWorkoutExercise(e.title, e.notes,
      match e.sets
      case None => None
      case Some(ss) => Some(seq(|ss|, i requires 0 <= i < |ss| => FormatWorkoutSet(ss[i]))))
  }

  /** The same list shape: both absent, or both present with the same length. */
  predicate SameShape<A, B>(a: Option<seq<A>>, b: Option<seq<B>>) {
    (a.Some? <==> b.Some?) && (a.Some? ==> |a.value| == |b.value|)
  }

  /**
    `formatWorkout(workout)`: as many exercises as the workout, each with as
    many sets, and the duration measured from the start and end times.
   */
  function FormatWorkout(w: ApiWorkout): (r: FormattedWorkout)
    ensures r.duration == CalculateDuration(w.startTime, w.endTime)
    ensures SameShape(w.exercises, r.exercises)
    ensures w.exercises.Some? ==> forall i :: 0 <= i < |w.exercises.value| ==>
      SameShape(w.exercises.value[i].sets, r.exercises.value[i].sets)
  {
    FormattedWorkout(w.id, w.createdAt, w.title, w.description, CalculateDuration(w.startTime, w.endTime),
      match w.exercises
      case None => None
      case Some(es) => Some(seq(|es|, i requires 0 <= i < |es| => FormatWorkoutExercise(es[i]))))
  }

  /**
    formatWorkout's renames, at each position: the workout's createdAt and
    title become date and name, each exercise's title its name, and each
    set's weightKg, distanceMeters and durationSeconds its weight, distance
    and duration.
   */
  lemma FormatWorkoutFields(w: ApiWorkout)
    ensures FormatWorkout(w).date == w.createdAt && FormatWorkout(w).name == w.title
    ensures w.exercises.Some? ==>
      var es, fs := w.exercises.value, FormatWorkout(w).exercises.value;
      forall i :: 0 <= i < |es| ==>
        && fs[i].name == es[i].title
        && (es[i].sets.Some? ==>
              forall j :: 0 <= j < |es[i].sets.value| ==>
                var a, b := es[i].sets.value[j], fs[i].sets.value[j];
                b.weight == a.weightKg && b.distance == a.distanceMeters && b.duration == a.durationSeconds)
  {
  }

  function FormatRoutineSet(s: ApiSet): FormattedRoutineSet {
    FormattedRoutineSet(s.index, s.setType, s.weightKg, s.reps, s.distanceMeters, s.durationSeconds, s.customMetric)
  }

  function FormatRoutineExercise(e: ApiExercise): FormattedRoutineExercise {
    FormattedRoutineExercise(e.title, e.index, e.exerciseTemplateId, e.notes, e.supersetsId,
      match e.sets
      case None => None
      case Some(ss) => Some(seq(|ss|, i requires 0 <= i < |ss| => FormatRoutineSet(ss[i]))))
  }

  /** `formatRoutine(routine)`: as many exercises as the routine, each with as many sets. */
  function FormatRoutine(r: ApiRoutine): (f: FormattedRoutine)
    ensures SameShape(r.exercises, f.exercises)
    ensures r.exercises.Some? ==> forall i :: 0 <= i < |r.exercises.value| ==>
      SameShape(r.exercises.value[i].sets, f.exercises.value[i].sets)
  {
    FormattedRoutine(r.id, r.title, r.folderId, r.createdAt, r.updatedAt,
      match r.exercises
      case None => None
      case Some(es) => Some(seq(|es|, i requires 0 <= i < |es| => FormatRoutineExercise(es[i]))))
  }

  /**
    formatRoutine's renames that matter to a reader: each exercise's
    supersetsId becomes supersetId, and the `index` of every exercise and of
    every set is kept at its position.
   */
  lemma FormatRoutineFields(r: ApiRoutine)
    ensures r.exercises.Some? ==>
      var es, fs := r.exercises.value, FormatRoutine(r).exercises.value;
      forall i :: 0 <= i < |es| ==>
        && fs[i].supersetId == es[i].supersetsId && fs[i].index == es[i].index
        && (es[i].sets.Some? ==>
              forall j :: 0 <= j < |es[i].sets.value| ==> fs[i].sets.value[j].index == es[i].sets.value[j].index)
  {
  }

  /** `formatRoutineFolder(folder)`: a copy that loses nothing, so the folder can be rebuilt from it. */
  function FormatRoutineFolder(f: ApiRoutineFolder): (r: FormattedRoutineFolder)
    ensures ApiRoutineFolder(r.id, r.title, r.createdAt, r.updatedAt) == f
  {
    FormattedRoutineFolder(f.id, f.title, f.createdAt, f.updatedAt)
  }

  /**
    `formatExerciseTemplate(template)`: a copy that loses nothing, so the
    template can be rebuilt from it.
   */
  function FormatExerciseTemplate(t: ApiExerciseTemplate): (r: FormattedExerciseTemplate)
    ensures ApiExerciseTemplate(r.id, r.title, r.templateType, r.primaryMuscleGroup, r.secondaryMuscleGroups, r.isCustom) == t
  {
    FormattedExerciseTemplate(t.id, t.title, t.templateType, t.primaryMuscleGroup, t.secondaryMuscleGroups, t.isCustom)
  }

  // ---------------------------------------------------------------------
  // The JSON the formatted records serialise to

  /** An object literal's `key: value` where the value may be undefined (then JSON omits the key). */
  function OptField<T>(key: string, v: Option<T>, f: T -> Json): seq<Member> {
    if v.Some? then [Member(key, f(v.value))] else []
  }

  /** An object literal's `key: value` where the value may be undefined or null. */
  function NullableField<T>(key: string, v: Nullable<T>, f: T -> Json): seq<Member> {
    match v
    case Missing => []
    case Nil => [Member(key, Null)]
    case Given(x) => [Member(key, f(x))]
  }

  function ListJson<T>(xs: seq<T>, f: T -> Json): Json {
    Arr(seq(|xs|, i requires 0 <= i < |xs| => f(xs[i])))
  }

  function StrJson(s: string): Json { Str(s) }
  function NumJson(n: int): Json { Num(n) }
  function BoolJson(b: bool): Json { Bool(b) }
  function StrListJson(ss: seq<string>): Json { ListJson(ss, StrJson) }

  function WorkoutSetJson(s: FormattedWorkoutSet): Json {
    Obj(OptField("type", s.setType, StrJson) + NullableField("weight", s.weight, NumJson)
      + NullableField("reps", s.reps, NumJson) + NullableField("distance", s.distance, NumJson)
      + NullableField("duration", s.duration, NumJson) + NullableField("rpe", s.rpe, NumJson)
      + NullableField("customMetric", s.customMetric, NumJson))
  }

  function WorkoutSetListJson(ss: seq<FormattedWorkoutSet>): Json { ListJson(ss, WorkoutSetJson) }

  function WorkoutExerciseJson(e: FormattedWorkoutExercise): Json {
    Obj(OptField("name", e.name, StrJson) + NullableField("notes", e.notes, StrJson)
      + OptField("sets", e.sets, WorkoutSetListJson))
  }

  function WorkoutExerciseListJson(es: seq<FormattedWorkoutExercise>): Json { ListJson(es, WorkoutExerciseJson) }

  function WorkoutJson(w: FormattedWorkout): Json {
    Obj(OptField("id", w.id, StrJson) + OptField("date", w.date, StrJson) + OptField("name", w.name, StrJson)
      + NullableField("description", w.description, StrJson) + [Member("duration", Str(w.duration))]
      + OptField("exercises", w.exercises, WorkoutExerciseListJson))
  }

  function RoutineSetJson(s: FormattedRoutineSet): Json {
    Obj(OptField("index", s.index, NumJson) + OptField("type", s.setType, StrJson)
      + NullableField("weight", s.weight, NumJson) + NullableField("reps", s.reps, NumJson)
      + NullableField("distance", s.distance, NumJson) + NullableField("duration", s.duration, NumJson)
      + NullableField("customMetric", s.customMetric, NumJson))
  }

  function RoutineSetListJson(ss: seq<FormattedRoutineSet>): Json { ListJson(ss, RoutineSetJson) }

  function RoutineExerciseJson(e: FormattedRoutineExercise): Json {
    Obj(OptField("name", e.name, StrJson) + OptField("index", e.index, NumJson)
      + OptField("exerciseTemplateId", e.exerciseTemplateId, StrJson) + NullableField("notes", e.notes, StrJson)
      + NullableField("supersetId", e.supersetId, NumJson) + OptField("sets", e.sets, RoutineSetListJson))
  }

  function RoutineExerciseListJson(es: seq<FormattedRoutineExercise>): Json { ListJson(es, RoutineExerciseJson) }

  function RoutineJson(r: FormattedRoutine): Json {
    Obj(OptField("id", r.id, StrJson) + OptField("title", r.title, StrJson)
      + NullableField("folderId", r.folderId, NumJson) + OptField("createdAt", r.createdAt, StrJson)
      + OptField("updatedAt", r.updatedAt, StrJson) + OptField("exercises", r.exercises, RoutineExerciseListJson))
  }

  function RoutineFolderJson(f: FormattedRoutineFolder): Json {
    Obj(OptField("id", f.id, NumJson) + OptField("title", f.title, StrJson)
      + OptField("createdAt", f.createdAt, StrJson) + OptField("updatedAt", f.updatedAt, StrJson))
  }

  function ExerciseTemplateJson(t: FormattedExerciseTemplate): Json {
    Obj(OptField("id", t.id, StrJson) + OptField("title", t.title, StrJson)
      + OptField("type", t.templateType, StrJson) + OptField("primaryMuscleGroup", t.primaryMuscleGroup, StrJson)
      + OptField("secondaryMuscleGroups", t.secondaryMuscleGroups, StrListJson)
      + OptField("isCustom", t.isCustom, BoolJson))
  }
}
