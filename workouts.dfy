/**
  The six workout tools (src/tools/workouts.ts). Each handler checks that it
  has a client, calls one endpoint and turns its data into a success
  envelope; the registered tool is the handler behind withErrorHandling.
  Arguments are the values the tool's schema admits: fields with a schema
  default are None when the caller left them out, and the schema's bounds
  are the handlers' preconditions.
 */
module WorkoutTools {
  import opened Wrappers
  import opened Json
  import opened ResponseFormatter
  import opened ErrorHandler
  import opened Formatters
  import opened HevyApi

  // ---------------------------------------------------------------------
  // Arguments and their schemas

  datatype GetWorkoutsArgs = GetWorkoutsArgs(page: Option<int>, pageSize: Option<int>)
  datatype GetWorkoutArgs = GetWorkoutArgs(workoutId: string)
  datatype GetWorkoutEventsArgs = GetWorkoutEventsArgs(page: Option<int>, pageSize: Option<int>, since: Option<string>)

  datatype WorkoutSetArgs = WorkoutSetArgs(
    setType: Option<string>, weight: Nullable<int>, weightKg: Nullable<int>, reps: Nullable<int>,
    distance: Nullable<int>, distanceMeters: Nullable<int>, duration: Nullable<int>,
    durationSeconds: Nullable<int>, rpe: Nullable<int>, customMetric: Nullable<int>)

  datatype WorkoutExerciseArgs = WorkoutExerciseArgs(
    exerciseTemplateId: string, supersetId: Nullable<int>, notes: Nullable<string>, sets: seq<WorkoutSetArgs>)

  /** The arguments of create-workout; update-workout adds the workout's id. */
  datatype WorkoutArgs = WorkoutArgs(
    title: string, description: Nullable<string>, startTime: string, endTime: string,
    isPrivate: Option<bool>, exercises: seq<WorkoutExerciseArgs>)

  /** `page` at least 1 and `pageSize` between 1 and `maxSize`, when given. */
  predicate ValidPaging(page: Option<int>, pageSize: Option<int>, maxSize: int) {
    (page.Some? ==> page.value >= 1) && (pageSize.Some? ==> 1 <= pageSize.value <= maxSize)
  }

  /** The paging sent upstream: the schema defaults are page 1 and page size 5. */
  function PagingOf(page: Option<int>, pageSize: Option<int>): Paging {
    Paging(page.GetOr(1), pageSize.GetOr(5))
  }

  const DefaultSince := "1970-01-01T00:00:00Z"

  const SetTypes: seq<string> := ["warmup", "normal", "failure", "dropset"]

  /** The shape the date-time regex admits: `DDDD-DD-DDTDD:DD:DDZ` with ASCII digits for D. */
  const IsoPattern := "DDDD-DD-DDTDD:DD:DDZ"

  predicate IsIsoInstant(s: string) {
    |s| == |IsoPattern| && forall i :: 0 <= i < |s| ==> if IsoPattern[i] == 'D' then '0' <= s[i] <= '9' else s[i] == IsoPattern[i]
  }

  predicate ValidSetArgs(s: WorkoutSetArgs) {
    s.setType.Some? ==> s.setType.value in SetTypes
  }

  predicate ValidExerciseArgs(e: WorkoutExerciseArgs) {
    e.exerciseTemplateId != "" && forall j :: 0 <= j < |e.sets| ==> ValidSetArgs(e.sets[j])
  }

  predicate ValidWorkoutArgs(a: WorkoutArgs) {
    && a.title != "" && IsIsoInstant(a.startTime) && IsIsoInstant(a.endTime)
    && forall i :: 0 <= i < |a.exercises| ==> ValidExerciseArgs(a.exercises[i])
  }

  // ---------------------------------------------------------------------
  // Request bodies

  /** One set of the request body; the schema's set type default is "normal". */
  function SetPayload(s: WorkoutSetArgs): (p: WorkoutSetBody)
    ensures p.weightKg.Some? <==> s.weight.Given? || s.weightKg.Given?
    ensures p.weightKg.Some? ==> p.weightKg.value == if s.weight.Given? then s.weight.value else s.weightKg.value
    ensures p.distanceMeters.Some? <==> s.distance.Given? || s.distanceMeters.Given?
    ensures p.distanceMeters.Some? ==>
      p.distanceMeters.value == if s.distance.Given? then s.distance.value else s.distanceMeters.value
    ensures p.durationSeconds.Some? <==> s.duration.Given? || s.durationSeconds.Given?
    ensures p.durationSeconds.Some? ==>
      p.durationSeconds.value == if s.duration.Given? then s.duration.value else s.durationSeconds.value
    ensures p.reps.Some? <==> s.reps.Given?
    ensures p.reps.Some? ==> p.reps.value == s.reps.value
    ensures p.rpe.Some? <==> s.rpe.Given?
    ensures p.rpe.Some? ==> p.rpe.value == s.rpe.value
    ensures p.customMetric.Some? <==> s.customMetric.Given?
    ensures p.customMetric.Some? ==> p.customMetric.value == s.customMetric.value
    ensures p.setType == s.setType.GetOr("normal")
  {
    WorkoutSetBody(s.setType.GetOr("normal"), OrNull(Coalesce(s.weight, s.weightKg)), OrNull(s.reps),
      OrNull(Coalesce(s.distance, s.distanceMeters)), OrNull(Coalesce(s.duration, s.durationSeconds)),
      OrNull(s.rpe), OrNull(s.customMetric))
  }

  /** One exercise of the body: superset id and notes `?? null`, the sets mapped in order. */
  function ExercisePayload(e: WorkoutExerciseArgs): (x: WorkoutExerciseBody)
    ensures x.exerciseTemplateId == e.exerciseTemplateId
    ensures x.supersetId.Some? <==> e.supersetId.Given?
    ensures x.supersetId.Some? ==> x.supersetId.value == e.supersetId.value
    ensures x.notes.Some? <==> e.notes.Given?
    ensures x.notes.Some? ==> x.notes.value == e.notes.value
    ensures |x.sets| == |e.sets| && forall j :: 0 <= j < |e.sets| ==> x.sets[j] == SetPayload(e.sets[j])
  {
    WorkoutExerciseBody(e.exerciseTemplateId, OrNull(e.supersetId), OrNull(e.notes),
      seq(|e.sets|, j requires 0 <= j < |e.sets| => SetPayload(e.sets[j])))
  }

  /** The `workout` both create-workout and update-workout send; the privacy default is false. */
  function WorkoutPayload(a: WorkoutArgs): (b: WorkoutBody)
    ensures b.title == a.title && b.startTime == a.startTime && b.endTime == a.endTime
    ensures b.isPrivate <==> a.isPrivate == Some(true)
    ensures b.description.None? <==> !a.description.Given? || a.description.value == ""
    ensures b.description.Some? ==> b.description.value == a.description.value
    ensures |b.exercises| == |a.exercises|
    ensures forall i :: 0 <= i < |a.exercises| ==> b.exercises[i] == ExercisePayload(a.exercises[i])
  {
    WorkoutBody(a.title,
      if a.description.Given? && a.description.value != "" then Some(a.description.value) else None,
      a.startTime, a.endTime, a.isPrivate.GetOr(false),
      seq(|a.exercises|, i requires 0 <= i < |a.exercises| => ExercisePayload(a.exercises[i])))
  }

  /**
    Each measurement prefers the short argument name and falls back to the
    long one, null only when both are null or absent; reps, rpe and the
    custom metric are null when absent. A zero is sent as a zero.
   */
  lemma SetPayloadFields(s: WorkoutSetArgs)
    ensures var p := SetPayload(s);
      && (p.weightKg.Some? <==> s.weight.Given? || s.weightKg.Given?)
      && (s.weight.Given? ==> p.weightKg == Some(s.weight.value))
      && (!s.weight.Given? && s.weightKg.Given? ==> p.weightKg == Some(s.weightKg.value))
      && (p.distanceMeters.Some? <==> s.distance.Given? || s.distanceMeters.Given?)
      && (s.distance.Given? ==> p.distanceMeters == Some(s.distance.value))
      && (!s.distance.Given? && s.distanceMeters.Given? ==> p.distanceMeters == Some(s.distanceMeters.value))
      && (p.durationSeconds.Some? <==> s.duration.Given? || s.durationSeconds.Given?)
      && (s.duration.Given? ==> p.durationSeconds == Some(s.duration.value))
      && (!s.duration.Given? && s.durationSeconds.Given? ==> p.durationSeconds == Some(s.durationSeconds.value))
      && (p.reps.Some? <==> s.reps.Given?) && (s.reps.Given? ==> p.reps == Some(s.reps.value))
      && (p.rpe.Some? <==> s.rpe.Given?) && (s.rpe.Given? ==> p.rpe == Some(s.rpe.value))
      && (p.customMetric.Some? <==> s.customMetric.Given?)
      && (s.customMetric.Given? ==> p.customMetric == Some(s.customMetric.value))
      && (s.setType.Some? ==> p.setType == s.setType.value) && (s.setType.None? ==> p.setType == "normal")
  {
  }

  /**
    The body keeps the exercises and each exercise's sets in count and order,
    copies the title, times and privacy flag, and sends a missing, null or
    empty description, and a missing or null superset id or note, as null.
   */
  lemma WorkoutPayloadShape(a: WorkoutArgs)
    ensures var b := WorkoutPayload(a);
      && b.title == a.title && b.startTime == a.startTime && b.endTime == a.endTime
      && b.isPrivate == (a.isPrivate == Some(true))
      && (b.description.None? <==> !a.description.Given? || a.description.value == "")
      && (b.description.Some? ==> b.description.value == a.description.value)
      && |b.exercises| == |a.exercises|
      && forall i :: 0 <= i < |a.exercises| ==>
           var e, x := a.exercises[i], b.exercises[i];
           && x.exerciseTemplateId == e.exerciseTemplateId
           && (x.supersetId.None? <==> !e.supersetId.Given?)
           && (x.notes.None? <==> !e.notes.Given?)
           && |x.sets| == |e.sets|
           && forall j :: 0 <= j < |e.sets| ==> x.sets[j] == SetPayload(e.sets[j])
  {
  }

  // ---------------------------------------------------------------------
  // Handlers

  const NoWorkoutsFound := "No workouts found for the specified parameters"
  const CreateFailed := "Failed to create workout: Server returned no data"

  /** What every handler promises of a completed call: one text item and no error flag. */
  predicate Succeeds(o: Outcome) {
    o.Returned? ==> SingleText(o.response) && o.response.isError.None?
  }

  /** The guard every workout handler starts with. */
  const Unconfigured := Threw(NewError(ClientNotInitialized))

  function WorkoutsJson(ws: seq<ApiWorkout>): Json {
    Arr(seq(|ws|, i requires 0 <= i < |ws| => WorkoutJson(FormatWorkout(ws[i]))))
  }

  /** Handler of get-workouts. */
  function GetWorkouts(client: Option<HevyClient>, args: GetWorkoutsArgs): (r: Outcome)
    requires ValidPaging(args.page, args.pageSize, 10)
    ensures Succeeds(r)
    ensures client.None? ==> r == Unconfigured
    ensures client.Some? && client.value.getWorkouts(PagingOf(args.page, args.pageSize)).Fails? ==>
      r == Threw(client.value.getWorkouts(PagingOf(args.page, args.pageSize)).error)
  {
    if client.None? then Unconfigured
    else
      match client.value.getWorkouts(PagingOf(args.page, args.pageSize))
      case Fails(e) => Threw(e)
      case Ok(data) =>
        var workouts := if data.Some? && data.value.workouts.Some? then data.value.workouts.value else [];
        if |workouts| == 0 then Returned(CreateEmptyResponse(Some(NoWorkoutsFound)))
        else Returned(CreateJsonResponse(WorkoutsJson(workouts), None))
  }

  /** Handler of get-workout. */
  function GetWorkout(client: Option<HevyClient>, args: GetWorkoutArgs): (r: Outcome)
    requires args.workoutId != ""
    ensures Succeeds(r)
    ensures client.None? ==> r == Unconfigured
    ensures client.Some? && client.value.getWorkout(args.workoutId).Fails? ==>
      r == Threw(client.value.getWorkout(args.workoutId).error)
  {
    if client.None? then Unconfigured
    else
      match client.value.getWorkout(args.workoutId)
      case Fails(e) => Threw(e)
      case Ok(data) =>
        if data.None? then Returned(CreateEmptyResponse(Some("Workout with ID " + args.workoutId + " not found")))
        else Returned(CreateJsonResponse(WorkoutJson(FormatWorkout(data.value)), None))
  }

  /** `data ? data.workoutCount || 0 : 0`. */
  function CountOf(data: Option<WorkoutCount>): int {
    if data.Some? && data.value.workoutCount.Some? then data.value.workoutCount.value else 0
  }

  /** Handler of get-workout-count. */
  function GetWorkoutCount(client: Option<HevyClient>): (r: Outcome)
    ensures Succeeds(r)
    ensures client.None? ==> r == Unconfigured
    ensures client.Some? && client.value.getWorkoutCount().Fails? ==> r == Threw(client.value.getWorkoutCount().error)
  {
    if client.None? then Unconfigured
    else
      match client.value.getWorkoutCount()
      case Fails(e) => Threw(e)
      case Ok(data) => Returned(CreateJsonResponse(Obj([Member("count", Num(CountOf(data)))]), None))
  }

  /** Handler of get-workout-events. */
  function GetWorkoutEvents(client: Option<HevyClient>, args: GetWorkoutEventsArgs): (r: Outcome)
    requires ValidPaging(args.page, args.pageSize, 10)
    ensures Succeeds(r)
    ensures client.None? ==> r == Unconfigured
    ensures client.Some? && client.value.getWorkoutEvents(PagingOf(args.page, args.pageSize), args.since.GetOr(DefaultSince)).Fails? ==>
      r == Threw(client.value.getWorkoutEvents(PagingOf(args.page, args.pageSize), args.since.GetOr(DefaultSince)).error)
  {
    if client.None? then Unconfigured
    else
      var since := args.since.GetOr(DefaultSince);
      match client.value.getWorkoutEvents(PagingOf(args.page, args.pageSize), since)
      case Fails(e) => Threw(e)
      case Ok(data) =>
        var events := if data.Some? && data.value.events.Some? then data.value.events.value else [];
        if |events| == 0 then
          Returned(CreateEmptyResponse(Some("No workout events found for the specified parameters since " + since)))
        else Returned(CreateJsonResponse(Arr(events), None))
  }

  /** The options create-workout and update-workout pass: `{ pretty: true, indent: 2 }`. */
  const Pretty := Some(JsonFormatOptions(Some(true), Some(2)))

  /** Handler of create-workout. */
  function CreateWorkout(client: Option<HevyClient>, args: WorkoutArgs): (r: Outcome)
    requires ValidWorkoutArgs(args)
    ensures Succeeds(r)
    ensures client.None? ==> r == Unconfigured
    ensures client.Some? && client.value.createWorkout(WorkoutPayload(args)).Fails? ==>
      r == Threw(client.value.createWorkout(WorkoutPayload(args)).error)
  {
    if client.None? then Unconfigured
    else
      match client.value.createWorkout(WorkoutPayload(args))
      case Fails(e) => Threw(e)
      case Ok(data) =>
        if data.None? then Returned(CreateEmptyResponse(Some(CreateFailed)))
        else Returned(CreateJsonResponse(WorkoutJson(FormatWorkout(data.value)), Pretty))
  }

  /** Handler of update-workout. */
  function UpdateWorkout(client: Option<HevyClient>, workoutId: string, args: WorkoutArgs): (r: Outcome)
    requires workoutId != "" && ValidWorkoutArgs(args)
    ensures Succeeds(r)
    ensures client.None? ==> r == Unconfigured
    ensures client.Some? && client.value.updateWorkout(workoutId, WorkoutPayload(args)).Fails? ==>
      r == Threw(client.value.updateWorkout(workoutId, WorkoutPayload(args)).error)
  {
    if client.None? then Unconfigured
    else
      match client.value.updateWorkout(workoutId, WorkoutPayload(args))
      case Fails(e) => Threw(e)
      case Ok(data) =>
        if data.None? then Returned(CreateEmptyResponse(Some("Failed to update workout with ID " + workoutId)))
        else Returned(CreateJsonResponse(WorkoutJson(FormatWorkout(data.value)), Pretty))
  }

  // ---------------------------------------------------------------------
  // Properties of the registered tools

  /**
    Without a client every workout tool answers with the error envelope of
    the guard, under its own context; update-workout's context is
    "update-workout-operation".
   */
  lemma WorkoutToolsNeedClient(a1: GetWorkoutsArgs, a2: GetWorkoutArgs, a4: GetWorkoutEventsArgs,
                               a5: WorkoutArgs, id: string, a6: WorkoutArgs)
    requires ValidPaging(a1.page, a1.pageSize, 10) && a2.workoutId != "" && ValidPaging(a4.page, a4.pageSize, 10)
    requires ValidWorkoutArgs(a5) && id != "" && ValidWorkoutArgs(a6)
    ensures WithErrorHandling(GetWorkouts(None, a1), "get-workouts") == GuardEnvelope("get-workouts")
    ensures WithErrorHandling(GetWorkout(None, a2), "get-workout") == GuardEnvelope("get-workout")
    ensures WithErrorHandling(GetWorkoutCount(None), "get-workout-count") == GuardEnvelope("get-workout-count")
    ensures WithErrorHandling(GetWorkoutEvents(None, a4), "get-workout-events") == GuardEnvelope("get-workout-events")
    ensures WithErrorHandling(CreateWorkout(None, a5), "create-workout") == GuardEnvelope("create-workout")
    ensures WithErrorHandling(UpdateWorkout(None, id, a6), "update-workout-operation")
         == GuardEnvelope("update-workout-operation")
  {
    ClientGuardText("get-workouts");
    ClientGuardText("get-workout");
    ClientGuardText("get-workout-count");
    ClientGuardText("get-workout-events");
    ClientGuardText("create-workout");
    ClientGuardText("update-workout-operation");
  }

  /** The error envelope `[context] Error: API client not initialized. Please provide HEVY_API_KEY.` */
  function GuardEnvelope(context: string): Envelope {
    Envelope([ContentItem("text", "[" + context + "] Error: " + ClientNotInitialized)], Some(true))
  }

  /** get-workout without data answers, without an error flag, that the workout was not found. */
  lemma MissingWorkoutMessage(client: HevyClient, workoutId: string)
    requires workoutId != "" && client.getWorkout(workoutId) == Ok(None)
    ensures SuccessWithText(WithErrorHandling(GetWorkout(Some(client), GetWorkoutArgs(workoutId)), "get-workout"),
                            "Workout with ID " + workoutId + " not found")
  {
  }

  /**
    An empty result gives the fixed "nothing found" messages, the events one
    naming the `since` actually sent (the default when none was given).
   */
  lemma EmptyListMessages(client: HevyClient, a1: GetWorkoutsArgs, a4: GetWorkoutEventsArgs)
    requires ValidPaging(a1.page, a1.pageSize, 10) && ValidPaging(a4.page, a4.pageSize, 10)
    requires client.getWorkouts(PagingOf(a1.page, a1.pageSize)) == Ok(Some(WorkoutsPage(Some([]))))
    requires client.getWorkoutEvents(PagingOf(a4.page, a4.pageSize), a4.since.GetOr(DefaultSince)) == Ok(None)
    ensures SuccessWithText(WithErrorHandling(GetWorkouts(Some(client), a1), "get-workouts"), NoWorkoutsFound)
    ensures SuccessWithText(WithErrorHandling(GetWorkoutEvents(Some(client), a4), "get-workout-events"),
                            "No workout events found for the specified parameters since " + a4.since.GetOr(DefaultSince))
  {
  }

  /** get-workout-count reports `{ count }`, 0 when there is no data or no (or a zero) workoutCount. */
  lemma CountFallback(client: HevyClient, data: Option<WorkoutCount>)
    requires client.getWorkoutCount() == Ok(data)
    ensures var n := if data.Some? && data.value.workoutCount.Some? then data.value.workoutCount.value else 0;
      SuccessWithText(WithErrorHandling(GetWorkoutCount(Some(client)), "get-workout-count"),
                      JsonText(Obj([Member("count", Num(n))]), None))
    ensures data.None? || data.value.workoutCount.None? || data.value.workoutCount == Some(0) ==>
      SuccessWithText(WithErrorHandling(GetWorkoutCount(Some(client)), "get-workout-count"),
                      JsonText(Obj([Member("count", Num(0))]), None))
  {
  }

  /** Leaving out page and pageSize is the same as asking for page 1 of size 5. */
  lemma PagingDefaults(client: Option<HevyClient>, since: Option<string>)
    ensures GetWorkouts(client, GetWorkoutsArgs(None, None)) == GetWorkouts(client, GetWorkoutsArgs(Some(1), Some(5)))
    ensures GetWorkoutEvents(client, GetWorkoutEventsArgs(None, None, None))
         == GetWorkoutEvents(client, GetWorkoutEventsArgs(Some(1), Some(5), Some(DefaultSince)))
  {
  }

  /** Every registered workout tool answers with one text item, flagged as an error exactly when its handler threw. */
  lemma WorkoutToolEnvelopes(client: Option<HevyClient>, a1: GetWorkoutsArgs, a2: GetWorkoutArgs)
    requires ValidPaging(a1.page, a1.pageSize, 10) && a2.workoutId != ""
    ensures SingleText(WithErrorHandling(GetWorkouts(client, a1), "get-workouts"))
    ensures WithErrorHandling(GetWorkouts(client, a1), "get-workouts").isError == Some(true)
        <==> GetWorkouts(client, a1).Threw?
    ensures SingleText(WithErrorHandling(GetWorkout(client, a2), "get-workout"))
    ensures WithErrorHandling(GetWorkout(client, a2), "get-workout").isError == Some(true)
        <==> GetWorkout(client, a2).Threw?
  {
    WrappedOutcomeShape(GetWorkouts(client, a1), "get-workouts");
    WrappedOutcomeShape(GetWorkout(client, a2), "get-workout");
  }
}
