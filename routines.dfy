/**
  The four routine tools (src/tools/routines.ts). Unlike the workout and
  template tools they have no client guard: registered with a null client,
  each fails on the property read of its client method, and the wrapper turns
  that TypeError into an error envelope. Optional values are mapped with
  `|| null`, so a 0 or an empty string is sent as null as well.
 */
module RoutineTools {
  import opened Wrappers
  import opened Json
  import opened ResponseFormatter
  import opened ErrorHandler
  import opened Formatters
  import opened HevyApi
  import opened WorkoutTools

  datatype GetRoutinesArgs = GetRoutinesArgs(page: Option<int>, pageSize: Option<int>)
  datatype GetRoutineArgs = GetRoutineArgs(routineId: string)

  datatype RoutineSetArgs = RoutineSetArgs(
    setType: Option<string>, weightKg: Option<int>, reps: Option<int>, distanceMeters: Option<int>,
    durationSeconds: Option<int>, customMetric: Option<int>)

  datatype RoutineExerciseArgs = RoutineExerciseArgs(
    exerciseTemplateId: string, supersetId: Nullable<int>, restSeconds: Option<int>, notes: Option<string>,
    sets: seq<RoutineSetArgs>)

  datatype CreateRoutineArgs = CreateRoutineArgs(
    title: string, folderId: Nullable<int>, notes: Option<string>, exercises: seq<RoutineExerciseArgs>)

  datatype UpdateRoutineArgs = UpdateRoutineArgs(
    routineId: string, title: string, notes: Option<string>, exercises: seq<RoutineExerciseArgs>)

  predicate ValidRoutineExerciseArgs(e: RoutineExerciseArgs) {
    && e.exerciseTemplateId != "" && (e.restSeconds.Some? ==> e.restSeconds.value >= 0)
    && forall j :: 0 <= j < |e.sets| ==> e.sets[j].setType.Some? ==> e.sets[j].setType.value in SetTypes
  }

  predicate ValidRoutineExercises(es: seq<RoutineExerciseArgs>) {
    forall i :: 0 <= i < |es| ==> ValidRoutineExerciseArgs(es[i])
  }

  // ---------------------------------------------------------------------
  // Request bodies

  /** One set of a routine body: each number `|| null`, the type "normal" when left out. */
  function RoutineSetPayload(s: RoutineSetArgs): (p: RoutineSetBody)
    ensures p.weightKg.Some? <==> s.weightKg.Some? && s.weightKg.value != 0
    ensures p.reps.Some? <==> s.reps.Some? && s.reps.value != 0
    ensures p.distanceMeters.Some? <==> s.distanceMeters.Some? && s.distanceMeters.value != 0
    ensures p.durationSeconds.Some? <==> s.durationSeconds.Some? && s.durationSeconds.value != 0
    ensures p.customMetric.Some? <==> s.customMetric.Some? && s.customMetric.value != 0
    ensures p.weightKg.Some? ==> p.weightKg == s.weightKg
    ensures p.reps.Some? ==> p.reps == s.reps
    ensures p.distanceMeters.Some? ==> p.distanceMeters == s.distanceMeters
    ensures p.durationSeconds.Some? ==> p.durationSeconds == s.durationSeconds
    ensures p.customMetric.Some? ==> p.customMetric == s.customMetric
    ensures p.setType == s.setType.GetOr("normal")
  {
    RoutineSetBody(s.setType.GetOr("normal"), NumOrNull(s.weightKg), NumOrNull(s.reps),
      NumOrNull(s.distanceMeters), NumOrNull(s.durationSeconds), NumOrNull(s.customMetric))
  }

  /** One exercise of a routine body: superset, rest and notes `|| null`, the sets mapped in order. */
  function RoutineExercisePayload(e: RoutineExerciseArgs): (x: RoutineExerciseBody)
    ensures x.exerciseTemplateId == e.exerciseTemplateId
    ensures x.supersetId.None? <==> !e.supersetId.Given? || e.supersetId.value == 0
    ensures x.supersetId.Some? ==> x.supersetId.value == e.supersetId.value
    ensures x.restSeconds.None? <==> e.restSeconds.None? || e.restSeconds.value == 0
    ensures x.restSeconds.Some? ==> x.restSeconds == e.restSeconds
    ensures x.notes.None? <==> e.notes.None? || e.notes.value == ""
    ensures x.notes.Some? ==> x.notes == e.notes
    ensures |x.sets| == |e.sets| && forall j :: 0 <= j < |e.sets| ==> x.sets[j] == RoutineSetPayload(e.sets[j])
  {
    RoutineExerciseBody(e.exerciseTemplateId, NullableNumOrNull(e.supersetId), NumOrNull(e.restSeconds),
      StrOrNull(e.notes), seq(|e.sets|, j requires 0 <= j < |e.sets| => RoutineSetPayload(e.sets[j])))
  }

  /** The exercises create-routine and update-routine both send. */
  function RoutineExercisesPayload(es: seq<RoutineExerciseArgs>): (xs: seq<RoutineExerciseBody>)
    ensures |xs| == |es| && forall i :: 0 <= i < |es| ==> xs[i] == RoutineExercisePayload(es[i])
  {
    seq(|es|, i requires 0 <= i < |es| => RoutineExercisePayload(es[i]))
  }

  /** The create body: the folder `|| null`, the notes `|| ""`, the exercises mapped in order. */
  function CreateRoutinePayload(a: CreateRoutineArgs): (b: RoutinePostBody)
    ensures b.title == a.title
    ensures b.folderId.None? <==> !a.folderId.Given? || a.folderId.value == 0
    ensures b.folderId.Some? ==> b.folderId.value == a.folderId.value
    ensures b.notes == a.notes.GetOr("")
    ensures b.exercises == RoutineExercisesPayload(a.exercises)
  {
    RoutinePostBody(a.title, NullableNumOrNull(a.folderId), a.notes.GetOr(""), RoutineExercisesPayload(a.exercises))
  }

  /** The update body: title, notes (empty when absent) and exercises, and no folder. */
  function UpdateRoutinePayload(a: UpdateRoutineArgs): (b: RoutinePutBody)
    ensures b.title == a.title && b.notes == Some(a.notes.GetOr(""))
    ensures b.exercises == Some(RoutineExercisesPayload(a.exercises))
  {
    RoutinePutBody(a.title, Some(a.notes.GetOr("")), Some(RoutineExercisesPayload(a.exercises)))
  }

  /** The minimal body get-routine sends to read a routine: an empty title alone. */
  const ProbeBody := RoutinePutBody("", None, None)

  /**
    The two mappings differ on zero: a workout set sends a weight of 0 kg,
    a routine set sends it as null.
   */
  lemma ZeroWeightDiffers(ws: WorkoutSetArgs, rs: RoutineSetArgs)
    requires ws.weight == Given(0) && rs.weightKg == Some(0)
    ensures SetPayload(ws).weightKg == Some(0)
    ensures RoutineSetPayload(rs).weightKg == None
  {
  }

  /**
    Both bodies keep the exercises and their sets in count and order; the
    folder, and each exercise's superset id and rest, are null when absent,
    null or 0 and sent as given otherwise; the notes are "" when absent, and
    an exercise's notes are null when absent or empty.
   */
  lemma RoutinePayloadShape(c: CreateRoutineArgs, u: UpdateRoutineArgs)
    ensures var b := CreateRoutinePayload(c);
      && b.title == c.title
      && (b.folderId.None? <==> !c.folderId.Given? || c.folderId.value == 0)
      && (b.folderId.Some? ==> b.folderId.value == c.folderId.value)
      && b.notes == c.notes.GetOr("")
      && (b.notes == "" <==> c.notes.None? || c.notes.value == "")
      && |b.exercises| == |c.exercises|
      && forall i :: 0 <= i < |c.exercises| ==>
           var e, x := c.exercises[i], b.exercises[i];
           && x.exerciseTemplateId == e.exerciseTemplateId && |x.sets| == |e.sets|
           && (x.supersetId.None? <==> !e.supersetId.Given? || e.supersetId.value == 0)
           && (x.supersetId.Some? ==> x.supersetId.value == e.supersetId.value)
           && (x.restSeconds.None? <==> e.restSeconds.None? || e.restSeconds.value == 0)
           && (x.restSeconds.Some? ==> x.restSeconds == e.restSeconds)
           && (x.notes.None? <==> e.notes.None? || e.notes.value == "")
           && (x.notes.Some? ==> x.notes == e.notes)
           && forall j :: 0 <= j < |e.sets| ==> x.sets[j] == RoutineSetPayload(e.sets[j])
    ensures var b := UpdateRoutinePayload(u);
      && b.title == u.title && b.notes == Some(u.notes.GetOr("")) && b.exercises.Some?
      && b.exercises.value == CreateRoutinePayload(CreateRoutineArgs(u.title, Missing, u.notes, u.exercises)).exercises
  {
  }

  // ---------------------------------------------------------------------
  // Handlers

  const NoRoutinesFound := "No routines found for the specified parameters"
  const CreateRoutineFailed := "Failed to create routine: Server returned no data"

  function RoutinesJson(rs: seq<ApiRoutine>): Json {
    Arr(seq(|rs|, i requires 0 <= i < |rs| => RoutineJson(FormatRoutine(rs[i]))))
  }

  /** Handler of get-routines. */
  function GetRoutines(client: Option<HevyClient>, args: GetRoutinesArgs): (r: Outcome)
    requires ValidPaging(args.page, args.pageSize, 10)
    ensures Succeeds(r)
    ensures client.None? ==> r == Threw(NullPropertyRead("getRoutines"))
    ensures client.Some? && client.value.getRoutines(PagingOf(args.page, args.pageSize)).Fails? ==>
      r == Threw(client.value.getRoutines(PagingOf(args.page, args.pageSize)).error)
  {
    if client.None? then Threw(NullPropertyRead("getRoutines"))
    else
      match client.value.getRoutines(PagingOf(args.page, args.pageSize))
      case Fails(e) => Threw(e)
      case Ok(data) =>
        var routines := if data.Some? && data.value.routines.Some? then data.value.routines.value else [];
        if |routines| == 0 then Returned(CreateEmptyResponse(Some(NoRoutinesFound)))
        else Returned(CreateJsonResponse(RoutinesJson(routines), None))
  }

  /** Handler of get-routine: it reads the routine by sending an update with the probe body. */
  function GetRoutine(client: Option<HevyClient>, args: GetRoutineArgs): (r: Outcome)
    requires args.routineId != ""
    ensures Succeeds(r)
    ensures client.None? ==> r == Threw(NullPropertyRead("updateRoutine"))
    ensures client.Some? && client.value.updateRoutine(args.routineId, ProbeBody).Fails? ==>
      r == Threw(client.value.updateRoutine(args.routineId, ProbeBody).error)
  {
    if client.None? then Threw(NullPropertyRead("updateRoutine"))
    else
      match client.value.updateRoutine(args.routineId, ProbeBody)
      case Fails(e) => Threw(e)
      case Ok(data) =>
        if data.None? then Returned(CreateEmptyResponse(Some("Routine with ID " + args.routineId + " not found")))
        else Returned(CreateJsonResponse(RoutineJson(FormatRoutine(data.value)), None))
  }

  /** Handler of create-routine. */
  function CreateRoutine(client: Option<HevyClient>, args: CreateRoutineArgs): (r: Outcome)
    requires args.title != "" && ValidRoutineExercises(args.exercises)
    ensures Succeeds(r)
    ensures client.None? ==> r == Threw(NullPropertyRead("createRoutine"))
    ensures client.Some? && client.value.createRoutine(CreateRoutinePayload(args)).Fails? ==>
      r == Threw(client.value.createRoutine(CreateRoutinePayload(args)).error)
  {
    if client.None? then Threw(NullPropertyRead("createRoutine"))
    else
      match client.value.createRoutine(CreateRoutinePayload(args))
      case Fails(e) => Threw(e)
      case Ok(data) =>
        if data.None? then Returned(CreateEmptyResponse(Some(CreateRoutineFailed)))
        else Returned(CreateJsonResponse(RoutineJson(FormatRoutine(data.value)), Pretty))
  }

  /** Handler of update-routine. */
  function UpdateRoutine(client: Option<HevyClient>, args: UpdateRoutineArgs): (r: Outcome)
    requires args.routineId != "" && args.title != "" && ValidRoutineExercises(args.exercises)
    ensures Succeeds(r)
    ensures client.None? ==> r == Threw(NullPropertyRead("updateRoutine"))
    ensures client.Some? && client.value.updateRoutine(args.routineId, UpdateRoutinePayload(args)).Fails? ==>
      r == Threw(client.value.updateRoutine(args.routineId, UpdateRoutinePayload(args)).error)
  {
    if client.None? then Threw(NullPropertyRead("updateRoutine"))
    else
      match client.value.updateRoutine(args.routineId, UpdateRoutinePayload(args))
      case Fails(e) => Threw(e)
      case Ok(data) =>
        if data.None? then Returned(CreateEmptyResponse(Some("Failed to update routine with ID " + args.routineId)))
        else Returned(CreateJsonResponse(RoutineJson(FormatRoutine(data.value)), Pretty))
  }

  // ---------------------------------------------------------------------
  // Properties of the registered tools

  /**
    Without a client a routine tool reports the TypeError of reading its
    client method, as an error envelope under its own context.
   */
  lemma RoutineToolsWithoutClient(a1: GetRoutinesArgs, a2: GetRoutineArgs, c: CreateRoutineArgs, u: UpdateRoutineArgs)
    requires ValidPaging(a1.page, a1.pageSize, 10) && a2.routineId != ""
    requires c.title != "" && ValidRoutineExercises(c.exercises)
    requires u.routineId != "" && u.title != "" && ValidRoutineExercises(u.exercises)
    ensures WithErrorHandling(GetRoutines(None, a1), "get-routines") == NullClientEnvelope("get-routines", "getRoutines")
    ensures WithErrorHandling(GetRoutine(None, a2), "get-routine") == NullClientEnvelope("get-routine", "updateRoutine")
    ensures WithErrorHandling(CreateRoutine(None, c), "create-routine")
         == NullClientEnvelope("create-routine", "createRoutine")
    ensures WithErrorHandling(UpdateRoutine(None, u), "update-routine")
         == NullClientEnvelope("update-routine", "updateRoutine")
  {
    NullClientText("get-routines", "getRoutines");
    NullClientText("get-routine", "updateRoutine");
    NullClientText("create-routine", "createRoutine");
    NullClientText("update-routine", "updateRoutine");
  }

  /** The "nothing there" answers of the four routine tools. */
  lemma RoutineEmptyMessages(client: HevyClient, a1: GetRoutinesArgs, a2: GetRoutineArgs, c: CreateRoutineArgs,
                             u: UpdateRoutineArgs)
    requires ValidPaging(a1.page, a1.pageSize, 10) && a2.routineId != ""
    requires c.title != "" && ValidRoutineExercises(c.exercises)
    requires u.routineId != "" && u.title != "" && ValidRoutineExercises(u.exercises)
    requires client.getRoutines(PagingOf(a1.page, a1.pageSize)) == Ok(Some(RoutinesPage(None)))
    requires client.updateRoutine(a2.routineId, ProbeBody) == Ok(None)
    requires client.createRoutine(CreateRoutinePayload(c)) == Ok(None)
    requires client.updateRoutine(u.routineId, UpdateRoutinePayload(u)) == Ok(None)
    ensures SuccessWithText(WithErrorHandling(GetRoutines(Some(client), a1), "get-routines"), NoRoutinesFound)
    ensures SuccessWithText(WithErrorHandling(GetRoutine(Some(client), a2), "get-routine"),
                            "Routine with ID " + a2.routineId + " not found")
    ensures SuccessWithText(WithErrorHandling(CreateRoutine(Some(client), c), "create-routine"), CreateRoutineFailed)
    ensures SuccessWithText(WithErrorHandling(UpdateRoutine(Some(client), u), "update-routine"),
                            "Failed to update routine with ID " + u.routineId)
  {
  }
}
