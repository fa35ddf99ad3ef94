/**
  The upstream Hevy API as the tool handlers see it. The HTTP client is an
  oracle: each endpoint is a function from its request to a reply, which is
  either the response data (possibly absent) or the value it throws. Request
  bodies carry the API's snake_case fields; a field the handlers set to
  `null` is None.
 */
module HevyApi {
  import opened Wrappers
  import opened Json
  import opened ResponseFormatter
  import opened ErrorHandler
  import opened Formatters

  /** What an awaited client call gives: its data, or the error it rejects with. */
  datatype Reply<+T> = Ok(value: T) | Fails(error: Thrown)

  /** Query parameters of the paginated list endpoints. */
  datatype Paging = Paging(page: int, pageSize: int)

  // Response pages (only the fields the handlers read)
  datatype WorkoutsPage = WorkoutsPage(workouts: Option<seq<ApiWorkout>>)
  datatype WorkoutCount = WorkoutCount(workoutCount: Option<int>)
  datatype EventsPage = EventsPage(events: Option<seq<Json>>)
  datatype TemplatesPage = TemplatesPage(exerciseTemplates: Option<seq<ApiExerciseTemplate>>)
  datatype HistoryPage = HistoryPage(exerciseHistory: Option<seq<Json>>)
  datatype RoutinesPage = RoutinesPage(routines: Option<seq<ApiRoutine>>)

  /** `{ type, weight_kg, reps, distance_meters, duration_seconds, rpe, custom_metric }` of a workout set. */
  datatype WorkoutSetBody = WorkoutSetBody(
    setType: string, weightKg: Option<int>, reps: Option<int>, distanceMeters: Option<int>,
    durationSeconds: Option<int>, rpe: Option<int>, customMetric: Option<int>)

  datatype WorkoutExerciseBody = WorkoutExerciseBody(
    exerciseTemplateId: string, supersetId: Option<int>, notes: Option<string>, sets: seq<WorkoutSetBody>)

  /** The `workout` of `{ workout: { title, description, start_time, end_time, is_private, exercises } }`. */
  datatype WorkoutBody = WorkoutBody(
    title: string, description: Option<string>, startTime: string, endTime: string,
    isPrivate: bool, exercises: seq<WorkoutExerciseBody>)

  /** `{ type, weight_kg, reps, distance_meters, duration_seconds, custom_metric }` of a routine set. */
  datatype RoutineSetBody = RoutineSetBody(
    setType: string, weightKg: Option<int>, reps: Option<int>, distanceMeters: Option<int>,
    durationSeconds: Option<int>, customMetric: Option<int>)

  datatype RoutineExerciseBody = RoutineExerciseBody(
    exerciseTemplateId: string, supersetId: Option<int>, restSeconds: Option<int>, notes: Option<string>,
    sets: seq<RoutineSetBody>)

  /** The `routine` of a create request: `{ title, folder_id, notes, exercises }`. */
  datatype RoutinePostBody = RoutinePostBody(
    title: string, folderId: Option<int>, notes: string, exercises: seq<RoutineExerciseBody>)

  /**
    The `routine` of an update request: `{ title, notes?, exercises? }`; a None
    field is absent from the body (get-routine sends the title alone).
   */
  datatype RoutinePutBody = RoutinePutBody(
    title: string, notes: Option<string>, exercises: Option<seq<RoutineExerciseBody>>)

  /** The query of the exercise-history endpoint; a None date is not sent. */
  datatype HistoryQuery = HistoryQuery(startDate: Option<string>, endDate: Option<string>)

  /** The `exercise` of `{ exercise: { title, exercise_type, equipment_category, muscle_group, other_muscles } }`. */
  datatype TemplateBody = TemplateBody(
    title: string, exerciseType: string, equipmentCategory: string, muscleGroup: string,
    otherMuscles: seq<string>)

  /** The `webhook` of `{ webhook: { url, events } }`. */
  datatype WebhookBody = WebhookBody(url: string, events: seq<string>)

  /** The client the handlers call; every endpoint is an opaque function of its request. */
  datatype HevyClient = HevyClient(
    getWorkouts: Paging -> Reply<Option<WorkoutsPage>>,
    getWorkout: string -> Reply<Option<ApiWorkout>>,
    getWorkoutCount: () -> Reply<Option<WorkoutCount>>,
    getWorkoutEvents: (Paging, string) -> Reply<Option<EventsPage>>,
    createWorkout: WorkoutBody -> Reply<Option<ApiWorkout>>,
    updateWorkout: (string, WorkoutBody) -> Reply<Option<ApiWorkout>>,
    getExerciseTemplates: Paging -> Reply<Option<TemplatesPage>>,
    getExerciseTemplate: string -> Reply<Option<ApiExerciseTemplate>>,
    getExerciseHistory: (string, HistoryQuery) -> Reply<Option<HistoryPage>>,
    createExerciseTemplate: TemplateBody -> Reply<Option<Json>>,
    getRoutines: Paging -> Reply<Option<RoutinesPage>>,
    createRoutine: RoutinePostBody -> Reply<Option<ApiRoutine>>,
    updateRoutine: (string, RoutinePutBody) -> Reply<Option<ApiRoutine>>,
    getWebhookSubscription: () -> Reply<Option<Json>>,
    createWebhookSubscription: WebhookBody -> Reply<Option<Json>>,
    deleteWebhookSubscription: () -> Reply<Option<Json>>)

  /** `a ?? b`: the first operand unless it is null or undefined. */
  function Coalesce<T>(a: Nullable<T>, b: Nullable<T>): (r: Nullable<T>)
    ensures a.Given? ==> r == a
    ensures !a.Given? ==> r == b
  {
    if a.Given? then a else b
  }

  /** `a ?? null`, a null result written as None. */
  function OrNull<T>(a: Nullable<T>): (r: Option<T>)
    ensures r.Some? <==> a.Given?
    ensures r.Some? ==> r.value == a.value
  {
    if a.Given? then Some(a.value) else None
  }

  /** `n || null` for an optional number: 0 is falsy and becomes null too. */
  function NumOrNull(n: Option<int>): (r: Option<int>)
    ensures r.Some? <==> n.Some? && n.value != 0
    ensures r.Some? ==> r.value == n.value
  {
    if n.Some? && n.value != 0 then n else None
  }

  /** `n || null` for a number that may also be null. */
  function NullableNumOrNull(n: Nullable<int>): (r: Option<int>)
    ensures r.Some? <==> n.Given? && n.value != 0
    ensures r.Some? ==> r.value == n.value
  {
    if n.Given? && n.value != 0 then Some(n.value) else None
  }

  /** `s || null` for an optional string: "" is falsy and becomes null too. */
  function StrOrNull(s: Option<string>): (r: Option<string>)
    ensures r.Some? <==> s.Some? && s.value != ""
    ensures r.Some? ==> r.value == s.value
  {
    if s.Some? && s.value != "" then s else None
  }

  /** The TypeError a property read on a null client raises. */
  function NullPropertyRead(property: string): Thrown {
    Error("TypeError", "Cannot read properties of null (reading '" + property + "')", [])
  }

  /** `[context] Error: Cannot read properties of null (reading 'property')`, flagged as an error. */
  function NullClientEnvelope(context: string, property: string): Envelope {
    Envelope([ContentItem("text", "[" + context + "] Error: " + NullPropertyRead(property).message)], Some(true))
  }

  /** The wrapper reports a null-client TypeError with its message verbatim. */
  lemma NullClientText(context: string, property: string)
    requires context != ""
    ensures WithErrorHandling(Threw(NullPropertyRead(property)), context) == NullClientEnvelope(context, property)
    ensures NullPropertyRead(property).message == "Cannot read properties of null (reading '" + property + "')"
  {
    assert ResponseData(NullPropertyRead(property)).None? by {
      assert !HasKey([], "response");
    }
  }
}
