/**
  The four exercise-template tools (src/tools/templates.ts): list, fetch one,
  read the history of one, and create a custom template. Like the workout
  tools, each throws the client sentinel when it has no client.
 */
module TemplateTools {
  import opened Wrappers
  import opened Json
  import opened ResponseFormatter
  import opened ErrorHandler
  import opened Formatters
  import opened HevyApi
  import opened WorkoutTools

  datatype GetTemplatesArgs = GetTemplatesArgs(page: Option<int>, pageSize: Option<int>)
  datatype GetTemplateArgs = GetTemplateArgs(exerciseTemplateId: string)
  datatype GetHistoryArgs = GetHistoryArgs(exerciseTemplateId: string, startDate: Option<string>, endDate: Option<string>)

  /** The arguments of create-exercise-template; `otherMuscles` is None when left out (schema default `[]`). */
  datatype CreateTemplateArgs = CreateTemplateArgs(
    title: string, exerciseType: string, equipmentCategory: string, muscleGroup: string,
    otherMuscles: Option<seq<string>>)

  const ExerciseTypes: seq<string> := ["weight_reps", "reps_only", "bodyweight_reps", "bodyweight_assisted_reps",
    "duration", "weight_duration", "distance_duration", "short_distance_weight"]

  const EquipmentCategories: seq<string> := ["none", "barbell", "dumbbell", "kettlebell", "machine", "plate",
    "resistance_band", "suspension", "other"]

  const MuscleGroups: seq<string> := ["abdominals", "shoulders", "biceps", "triceps", "forearms", "quadriceps",
    "hamstrings", "calves", "glutes", "abductors", "adductors", "lats", "upper_back", "traps", "lower_back",
    "chest", "cardio", "neck", "full_body", "other"]

  predicate ValidCreateTemplateArgs(a: CreateTemplateArgs) {
    && a.title != "" && a.exerciseType in ExerciseTypes && a.equipmentCategory in EquipmentCategories
    && a.muscleGroup in MuscleGroups
    && (a.otherMuscles.Some? ==> forall i :: 0 <= i < |a.otherMuscles.value| ==> a.otherMuscles.value[i] in MuscleGroups)
  }

  /** The history query: each date is sent only when it is a non-empty string. */
  function HistoryQueryOf(a: GetHistoryArgs): (q: HistoryQuery)
    ensures q.startDate.Some? <==> a.startDate.Some? && a.startDate.value != ""
    ensures q.endDate.Some? <==> a.endDate.Some? && a.endDate.value != ""
    ensures q.startDate.Some? ==> q.startDate == a.startDate
    ensures q.endDate.Some? ==> q.endDate == a.endDate
  {
    HistoryQuery(StrOrNull(a.startDate), StrOrNull(a.endDate))
  }

  /** The `exercise` create-exercise-template sends; every argument is passed through under its API name. */
  function TemplatePayload(a: CreateTemplateArgs): (b: TemplateBody)
    ensures b.title == a.title && b.exerciseType == a.exerciseType
    ensures b.equipmentCategory == a.equipmentCategory && b.muscleGroup == a.muscleGroup
    ensures a.otherMuscles.None? ==> b.otherMuscles == []
    ensures a.otherMuscles.Some? ==> b.otherMuscles == a.otherMuscles.value
  {
    TemplateBody(a.title, a.exerciseType, a.equipmentCategory, a.muscleGroup, a.otherMuscles.GetOr([]))
  }

  const NoTemplatesFound := "No exercise templates found for the specified parameters"
  const TemplateCreated := "Exercise template created successfully"

  function TemplatesJson(ts: seq<ApiExerciseTemplate>): Json {
    Arr(seq(|ts|, i requires 0 <= i < |ts| => ExerciseTemplateJson(FormatExerciseTemplate(ts[i]))))
  }

  /** Handler of get-exercise-templates. */
  function GetExerciseTemplates(client: Option<HevyClient>, args: GetTemplatesArgs): (r: Outcome)
    requires ValidPaging(args.page, args.pageSize, 100)
    ensures Succeeds(r)
    ensures client.None? ==> r == Unconfigured
    ensures client.Some? && client.value.getExerciseTemplates(PagingOf(args.page, args.pageSize)).Fails? ==>
      r == Threw(client.value.getExerciseTemplates(PagingOf(args.page, args.pageSize)).error)
  {
    if client.None? then Unconfigured
    else
      match client.value.getExerciseTemplates(PagingOf(args.page, args.pageSize))
      case Fails(e) => Threw(e)
      case Ok(data) =>
        var templates := if data.Some? && data.value.exerciseTemplates.Some? then data.value.exerciseTemplates.value else [];
        if |templates| == 0 then Returned(CreateEmptyResponse(Some(NoTemplatesFound)))
        else Returned(CreateJsonResponse(TemplatesJson(templates), None))
  }

  /** Handler of get-exercise-template. */
  function GetExerciseTemplate(client: Option<HevyClient>, args: GetTemplateArgs): (r: Outcome)
    requires args.exerciseTemplateId != ""
    ensures Succeeds(r)
    ensures client.None? ==> r == Unconfigured
    ensures client.Some? && client.value.getExerciseTemplate(args.exerciseTemplateId).Fails? ==>
      r == Threw(client.value.getExerciseTemplate(args.exerciseTemplateId).error)
  {
    if client.None? then Unconfigured
    else
      match client.value.getExerciseTemplate(args.exerciseTemplateId)
      case Fails(e) => Threw(e)
      case Ok(data) =>
        if data.None? then
          Returned(CreateEmptyResponse(Some("Exercise template with ID " + args.exerciseTemplateId + " not found")))
        else Returned(CreateJsonResponse(ExerciseTemplateJson(FormatExerciseTemplate(data.value)), None))
  }

  /**
    Handler of get-exercise-history; `formatEntry` stands for the history
    entry formatter, which is not part of this model.
   */
  function GetExerciseHistory(client: Option<HevyClient>, formatEntry: Json -> Json, args: GetHistoryArgs): (r: Outcome)
    requires args.exerciseTemplateId != ""
    ensures Succeeds(r)
    ensures client.None? ==> r == Unconfigured
    ensures client.Some? && client.value.getExerciseHistory(args.exerciseTemplateId, HistoryQueryOf(args)).Fails? ==>
      r == Threw(client.value.getExerciseHistory(args.exerciseTemplateId, HistoryQueryOf(args)).error)
  {
    if client.None? then Unconfigured
    else
      match client.value.getExerciseHistory(args.exerciseTemplateId, HistoryQueryOf(args))
      case Fails(e) => Threw(e)
      case Ok(data) =>
        var history := if data.Some? && data.value.exerciseHistory.Some? then data.value.exerciseHistory.value else [];
        if |history| == 0 then
          Returned(CreateEmptyResponse(Some("No exercise history found for template " + args.exerciseTemplateId)))
        else Returned(CreateJsonResponse(ListJson(history, formatEntry), None))
  }

  /** `{ id: response?.id, message }`: the id is left out when the response has none. */
  function CreatedJson(response: Option<Json>): (j: Json)
    ensures j.Obj? && 1 <= |j.members| <= 2
    ensures j.members[|j.members| - 1] == Member("message", Str(TemplateCreated))
    ensures |j.members| == 2 <==> response.Some? && Prop(response.value, "id").Some?
    ensures |j.members| == 2 ==> j.members[0] == Member("id", Prop(response.value, "id").value)
  {
    var id := if response.Some? then Prop(response.value, "id") else None;
    Obj((if id.Some? then [Member("id", id.value)] else []) + [Member("message", StrJson(TemplateCreated))])
  }

  /** Handler of create-exercise-template. */
  function CreateExerciseTemplate(client: Option<HevyClient>, args: CreateTemplateArgs): (r: Outcome)
    requires ValidCreateTemplateArgs(args)
    ensures Succeeds(r)
    ensures client.None? ==> r == Unconfigured
    ensures client.Some? && client.value.createExerciseTemplate(TemplatePayload(args)).Fails? ==>
      r == Threw(client.value.createExerciseTemplate(TemplatePayload(args)).error)
    ensures client.Some? && client.value.createExerciseTemplate(TemplatePayload(args)).Ok? ==>
      r == Returned(CreateJsonResponse(CreatedJson(client.value.createExerciseTemplate(TemplatePayload(args)).value), None))
  {
    if client.None? then Unconfigured
    else
      match client.value.createExerciseTemplate(TemplatePayload(args))
      case Fails(e) => Threw(e)
      case Ok(response) => Returned(CreateJsonResponse(CreatedJson(response), None))
  }

  /**
    The confirmation always ends with the success message, and carries the
    id exactly when the response is an object that has one.
   */
  lemma CreatedJsonShape(response: Option<Json>)
    ensures var j := CreatedJson(response);
      && j.Obj? && |j.members| >= 1 && j.members[|j.members| - 1] == Member("message", Str(TemplateCreated))
      && (HasKey(j.members, "id") <==> response.Some? && Prop(response.value, "id").Some?)
      && (HasKey(j.members, "id") ==> Get(j.members, "id") == Prop(response.value, "id"))
  {
    var j := CreatedJson(response);
    assert "message"[0] != "id"[0];
    if !(response.Some? && Prop(response.value, "id").Some?) {
      assert j.members == [Member("message", Str(TemplateCreated))];
      assert !HasKey(j.members, "id") by {
        forall i | 0 <= i < |j.members| ensures j.members[i].key != "id" {
          assert j.members[i].key == "message";
        }
      }
    } else {
      var id := Prop(response.value, "id").value;
      assert j.members == [Member("id", id), Member("message", Str(TemplateCreated))];
      assert j.members[0].key == "id";
      assert Get(j.members, "id") == Some(id);
    }
  }

  /** Without a client every template tool answers with the guard's error envelope under its own context. */
  lemma TemplateToolsNeedClient(a1: GetTemplatesArgs, a2: GetTemplateArgs, f: Json -> Json, a3: GetHistoryArgs,
                                a4: CreateTemplateArgs)
    requires ValidPaging(a1.page, a1.pageSize, 100) && a2.exerciseTemplateId != "" && a3.exerciseTemplateId != ""
    requires ValidCreateTemplateArgs(a4)
    ensures WithErrorHandling(GetExerciseTemplates(None, a1), "get-exercise-templates")
         == GuardEnvelope("get-exercise-templates")
    ensures WithErrorHandling(GetExerciseTemplate(None, a2), "get-exercise-template")
         == GuardEnvelope("get-exercise-template")
    ensures WithErrorHandling(GetExerciseHistory(None, f, a3), "get-exercise-history")
         == GuardEnvelope("get-exercise-history")
    ensures WithErrorHandling(CreateExerciseTemplate(None, a4), "create-exercise-template")
         == GuardEnvelope("create-exercise-template")
  {
    ClientGuardText("get-exercise-templates");
    ClientGuardText("get-exercise-template");
    ClientGuardText("get-exercise-history");
    ClientGuardText("create-exercise-template");
  }

  /** The "nothing found" answers of the three read tools. */
  lemma TemplateEmptyMessages(client: HevyClient, f: Json -> Json, a1: GetTemplatesArgs, a2: GetTemplateArgs,
                              a3: GetHistoryArgs)
    requires ValidPaging(a1.page, a1.pageSize, 100) && a2.exerciseTemplateId != "" && a3.exerciseTemplateId != ""
    requires client.getExerciseTemplates(PagingOf(a1.page, a1.pageSize)) == Ok(None)
    requires client.getExerciseTemplate(a2.exerciseTemplateId) == Ok(None)
    requires client.getExerciseHistory(a3.exerciseTemplateId, HistoryQueryOf(a3)) == Ok(Some(HistoryPage(Some([]))))
    ensures SuccessWithText(WithErrorHandling(GetExerciseTemplates(Some(client), a1), "get-exercise-templates"),
                            NoTemplatesFound)
    ensures SuccessWithText(WithErrorHandling(GetExerciseTemplate(Some(client), a2), "get-exercise-template"),
                            "Exercise template with ID " + a2.exerciseTemplateId + " not found")
    ensures SuccessWithText(WithErrorHandling(GetExerciseHistory(Some(client), f, a3), "get-exercise-history"),
                            "No exercise history found for template " + a3.exerciseTemplateId)
  {
  }
}
