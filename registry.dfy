/**
  Tool registration (the register*Tools functions of src/tools/). The MCP
  server keeps a map from tool name to registered tool; registering adds or
  replaces entries by name. A registered tool is its handler closed over the
  client it was registered with: `kind` says which handler, `client` the
  captured client, and `Handle` runs it behind withErrorHandling.
 */
module ToolRegistry {
  import opened Wrappers
  import opened Json
  import opened ResponseFormatter
  import opened ErrorHandler
  import opened HevyApi
  import opened WorkoutTools
  import opened TemplateTools
  import opened RoutineTools
  import opened WebhookTools

  datatype ToolKind =
    | GetWorkoutsTool | GetWorkoutTool | GetWorkoutCountTool | GetWorkoutEventsTool
    | CreateWorkoutTool | UpdateWorkoutTool
    | GetExerciseTemplatesTool | GetExerciseTemplateTool | GetExerciseHistoryTool | CreateExerciseTemplateTool
    | GetRoutinesTool | GetRoutineTool | CreateRoutineTool | UpdateRoutineTool
    | GetWebhookSubscriptionTool | CreateWebhookSubscriptionTool | DeleteWebhookSubscriptionTool

  /** The arguments of a tool call, one variant per argument schema. */
  datatype ToolArgs =
    | NoArgs
    | WorkoutsQuery(workoutsArgs: GetWorkoutsArgs)
    | WorkoutQuery(workoutArgs: GetWorkoutArgs)
    | EventsQuery(eventsArgs: GetWorkoutEventsArgs)
    | NewWorkout(workout: WorkoutArgs)
    | WorkoutUpdate(workoutId: string, update: WorkoutArgs)
    | TemplatesQuery(templatesArgs: GetTemplatesArgs)
    | TemplateQuery(templateArgs: GetTemplateArgs)
    | HistoryRequest(historyArgs: GetHistoryArgs)
    | NewTemplate(template: CreateTemplateArgs)
    | RoutinesQuery(routinesArgs: GetRoutinesArgs)
    | RoutineQuery(routineArgs: GetRoutineArgs)
    | NewRoutine(routine: CreateRoutineArgs)
    | RoutineUpdate(routineUpdate: UpdateRoutineArgs)
    | NewWebhook(webhook: CreateWebhookArgs)

  /** The name a tool is registered under. */
  function Name(k: ToolKind): string {
    match k
    case GetWorkoutsTool => "get-workouts"
    case GetWorkoutTool => "get-workout"
    case GetWorkoutCountTool => "get-workout-count"
    case GetWorkoutEventsTool => "get-workout-events"
    case CreateWorkoutTool => "create-workout"
    case UpdateWorkoutTool => "update-workout"
    case GetExerciseTemplatesTool => "get-exercise-templates"
    case GetExerciseTemplateTool => "get-exercise-template"
    case GetExerciseHistoryTool => "get-exercise-history"
    case CreateExerciseTemplateTool => "create-exercise-template"
    case GetRoutinesTool => "get-routines"
    case GetRoutineTool => "get-routine"
    case CreateRoutineTool => "create-routine"
    case UpdateRoutineTool => "update-routine"
    case GetWebhookSubscriptionTool => "get-webhook-subscription"
    case CreateWebhookSubscriptionTool => "create-webhook-subscription"
    case DeleteWebhookSubscriptionTool => "delete-webhook-subscription"
  }

  /** The context a tool's handler is wrapped with: its name, except for update-workout. */
  function ContextOf(k: ToolKind): (c: string)
    ensures c != ""
    ensures k != UpdateWorkoutTool ==> c == Name(k)
  {
    if k == UpdateWorkoutTool then "update-workout-operation" else Name(k)
  }

  /** The arguments a tool's schema admits. */
  predicate Admits(k: ToolKind, a: ToolArgs) {
    match k
    case GetWorkoutsTool => a.WorkoutsQuery? && ValidPaging(a.workoutsArgs.page, a.workoutsArgs.pageSize, 10)
    case GetWorkoutTool => a.WorkoutQuery? && a.workoutArgs.workoutId != ""
    case GetWorkoutCountTool => a.NoArgs?
    case GetWorkoutEventsTool => a.EventsQuery? && ValidPaging(a.eventsArgs.page, a.eventsArgs.pageSize, 10)
    case CreateWorkoutTool => a.NewWorkout? && ValidWorkoutArgs(a.workout)
    case UpdateWorkoutTool => a.WorkoutUpdate? && a.workoutId != "" && ValidWorkoutArgs(a.update)
    case GetExerciseTemplatesTool =>
      a.TemplatesQuery? && ValidPaging(a.templatesArgs.page, a.templatesArgs.pageSize, 100)
    case GetExerciseTemplateTool => a.TemplateQuery? && a.templateArgs.exerciseTemplateId != ""
    case GetExerciseHistoryTool => a.HistoryRequest? && a.historyArgs.exerciseTemplateId != ""
    case CreateExerciseTemplateTool => a.NewTemplate? && ValidCreateTemplateArgs(a.template)
    case GetRoutinesTool => a.RoutinesQuery? && ValidPaging(a.routinesArgs.page, a.routinesArgs.pageSize, 10)
    case GetRoutineTool => a.RoutineQuery? && a.routineArgs.routineId != ""
    case CreateRoutineTool => a.NewRoutine? && a.routine.title != "" && ValidRoutineExercises(a.routine.exercises)
    case UpdateRoutineTool =>
      && a.RoutineUpdate? && a.routineUpdate.routineId != "" && a.routineUpdate.title != ""
      && ValidRoutineExercises(a.routineUpdate.exercises)
    case GetWebhookSubscriptionTool => a.NoArgs?
    case CreateWebhookSubscriptionTool => a.NewWebhook?
    case DeleteWebhookSubscriptionTool => a.NoArgs?
  }

  /** A registered tool: which handler, and the client captured when it was registered. */
  datatype RegisteredTool = RegisteredTool(kind: ToolKind, client: Option<HevyClient>)

  predicate IsWorkoutKind(k: ToolKind) {
    k.GetWorkoutsTool? || k.GetWorkoutTool? || k.GetWorkoutCountTool? || k.GetWorkoutEventsTool?
    || k.CreateWorkoutTool? || k.UpdateWorkoutTool?
  }

  predicate IsTemplateKind(k: ToolKind) {
    k.GetExerciseTemplatesTool? || k.GetExerciseTemplateTool? || k.GetExerciseHistoryTool? || k.CreateExerciseTemplateTool?
  }

  predicate IsRoutineKind(k: ToolKind) {
    k.GetRoutinesTool? || k.GetRoutineTool? || k.CreateRoutineTool? || k.UpdateRoutineTool?
  }

  /** The handlers of registerWorkoutTools. */
  function WorkoutToolBody(k: ToolKind, client: Option<HevyClient>, a: ToolArgs): (r: Outcome)
    requires IsWorkoutKind(k) && Admits(k, a)
    ensures Succeeds(r)
    ensures client.None? ==> r == Unconfigured
  {
    match k
    case GetWorkoutsTool => GetWorkouts(client, a.workoutsArgs)
    case GetWorkoutTool => GetWorkout(client, a.workoutArgs)
    case GetWorkoutCountTool => GetWorkoutCount(client)
    case GetWorkoutEventsTool => GetWorkoutEvents(client, a.eventsArgs)
    case CreateWorkoutTool => CreateWorkout(client, a.workout)
    case UpdateWorkoutTool => UpdateWorkout(client, a.workoutId, a.update)
  }

  /** The handlers of registerTemplateTools. */
  function TemplateToolBody(k: ToolKind, client: Option<HevyClient>, formatEntry: Json -> Json, a: ToolArgs): (r: Outcome)
    requires IsTemplateKind(k) && Admits(k, a)
    ensures Succeeds(r)
    ensures client.None? ==> r == Unconfigured
  {
    match k
    case GetExerciseTemplatesTool => GetExerciseTemplates(client, a.templatesArgs)
    case GetExerciseTemplateTool => GetExerciseTemplate(client, a.templateArgs)
    case GetExerciseHistoryTool => GetExerciseHistory(client, formatEntry, a.historyArgs)
    case CreateExerciseTemplateTool => CreateExerciseTemplate(client, a.template)
  }

  /** The handlers of registerRoutineTools. */
  function RoutineToolBody(k: ToolKind, client: Option<HevyClient>, a: ToolArgs): (r: Outcome)
    requires IsRoutineKind(k) && Admits(k, a)
    ensures Succeeds(r)
    ensures client.None? ==> r == Threw(NullPropertyRead(ClientMethod(k)))
  {
    match k
    case GetRoutinesTool => GetRoutines(client, a.routinesArgs)
    case GetRoutineTool => GetRoutine(client, a.routineArgs)
    case CreateRoutineTool => CreateRoutine(client, a.routine)
    case UpdateRoutineTool => UpdateRoutine(client, a.routineUpdate)
  }

  /** The handlers of registerWebhookTools. */
  function WebhookToolBody(k: ToolKind, client: Option<HevyClient>, a: ToolArgs): (r: Outcome)
    requires !IsWorkoutKind(k) && !IsTemplateKind(k) && !IsRoutineKind(k) && Admits(k, a)
    ensures Succeeds(r)
    ensures client.None? ==> r == Threw(NullPropertyRead(ClientMethod(k)))
  {
    match k
    case GetWebhookSubscriptionTool => GetWebhookSubscription(client)
    case CreateWebhookSubscriptionTool => CreateWebhookSubscription(client, a.webhook)
    case DeleteWebhookSubscriptionTool => DeleteWebhookSubscription(client)
  }

  /** What the handler of `k` does with `client` on admitted arguments, before the wrapper. */
  function Body(k: ToolKind, client: Option<HevyClient>, formatEntry: Json -> Json, a: ToolArgs): (r: Outcome)
    requires Admits(k, a)
    ensures Succeeds(r)
    ensures client.None? && Guarded(k) ==> r == Unconfigured
    ensures client.None? && !Guarded(k) ==> r == Threw(NullPropertyRead(ClientMethod(k)))
  {
    if IsWorkoutKind(k) then WorkoutToolBody(k, client, a)
    else if IsTemplateKind(k) then TemplateToolBody(k, client, formatEntry, a)
    else if IsRoutineKind(k) then RoutineToolBody(k, client, a)
    else WebhookToolBody(k, client, a)
  }

  /**
    Calling a registered tool: whatever its handler does, the caller gets one
    text item, flagged as an error exactly when the handler threw.
   */
  function Handle(t: RegisteredTool, formatEntry: Json -> Json, a: ToolArgs): (r: Envelope)
    requires Admits(t.kind, a)
    ensures SingleText(r)
    ensures r.isError == Some(true) <==> Body(t.kind, t.client, formatEntry, a).Threw?
    ensures Body(t.kind, t.client, formatEntry, a).Returned? ==> r == Body(t.kind, t.client, formatEntry, a).response
  {
    var outcome := Body(t.kind, t.client, formatEntry, a);
    WrappedOutcomeShape(outcome, ContextOf(t.kind));
    WithErrorHandling(outcome, ContextOf(t.kind))
  }

  /** The tools of one registration function, in registration order. */
  const WorkoutKinds: seq<ToolKind> := [GetWorkoutsTool, GetWorkoutTool, GetWorkoutCountTool, GetWorkoutEventsTool,
    CreateWorkoutTool, UpdateWorkoutTool]
  const TemplateKinds: seq<ToolKind> := [GetExerciseTemplatesTool, GetExerciseTemplateTool, GetExerciseHistoryTool,
    CreateExerciseTemplateTool]
  const RoutineKinds: seq<ToolKind> := [GetRoutinesTool, GetRoutineTool, CreateRoutineTool, UpdateRoutineTool]
  const WebhookKinds: seq<ToolKind> := [GetWebhookSubscriptionTool, CreateWebhookSubscriptionTool,
    DeleteWebhookSubscriptionTool]

  /** The guarded tools: the workout and template ones check for a client before anything else. */
  predicate Guarded(k: ToolKind) {
    IsWorkoutKind(k) || IsTemplateKind(k)
  }

  /** The client method an unguarded tool reads first. */
  function ClientMethod(k: ToolKind): string {
    match k
    case GetRoutinesTool => "getRoutines"
    case CreateRoutineTool => "createRoutine"
    case GetWebhookSubscriptionTool => "getWebhookSubscription"
    case CreateWebhookSubscriptionTool => "createWebhookSubscription"
    case DeleteWebhookSubscriptionTool => "deleteWebhookSubscription"
    case _ => "updateRoutine"
  }

  /** `registerXTools(server, client)` as the entries it adds, one `server.tool` call per kind in order. */
  function Entries(kinds: seq<ToolKind>, client: Option<HevyClient>): map<string, RegisteredTool> {
    if kinds == [] then map[]
    else Entries(kinds[..|kinds| - 1], client)[Name(kinds[|kinds| - 1]) := RegisteredTool(kinds[|kinds| - 1], client)]
  }

  /** The tools after the four registration functions ran, in start-up order, on top of `before`. */
  function AfterCoreRegistration(before: map<string, RegisteredTool>, client: Option<HevyClient>): map<string, RegisteredTool> {
    before + Entries(WorkoutKinds, client) + Entries(RoutineKinds, client) + Entries(TemplateKinds, client)
      + Entries(WebhookKinds, client)
  }

  class McpServer {
    /** The registered tools by name. */
    var tools: map<string, RegisteredTool>
    /** The formatter of exercise-history entries, which is not part of this model. */
    const formatHistoryEntry: Json -> Json

    constructor (formatHistoryEntry: Json -> Json)
      ensures tools == map[] && this.formatHistoryEntry == formatHistoryEntry
    {
      tools := map[];
      this.formatHistoryEntry := formatHistoryEntry;
    }

    /** `server.tool(name, ..., handler)`: the name now maps to this tool. */
    method Tool(name: string, t: RegisteredTool)
      modifies this
      ensures tools == old(tools)[name := t]
    {
      tools := tools[name := t];
    }

    /** Registers each kind under its name, capturing `client`; later entries of `kinds` win. */
    method RegisterAll(kinds: seq<ToolKind>, client: Option<HevyClient>)
      modifies this
      ensures tools == old(tools) + Entries(kinds, client)
    {
      var i := 0;
      while i < |kinds|
        invariant 0 <= i <= |kinds|
        invariant tools == old(tools) + Entries(kinds[..i], client)
      {
        assert kinds[..i + 1][..i] == kinds[..i];
        Tool(Name(kinds[i]), RegisteredTool(kinds[i], client));
        i := i + 1;
      }
      assert kinds[..i] == kinds;
    }

    method RegisterWorkoutTools(client: Option<HevyClient>)
      modifies this
      ensures tools == old(tools) + Entries(WorkoutKinds, client)
    {
      RegisterAll(WorkoutKinds, client);
    }

    method RegisterTemplateTools(client: Option<HevyClient>)
      modifies this
      ensures tools == old(tools) + Entries(TemplateKinds, client)
    {
      RegisterAll(TemplateKinds, client);
    }

    method RegisterRoutineTools(client: Option<HevyClient>)
      modifies this
      ensures tools == old(tools) + Entries(RoutineKinds, client)
    {
      RegisterAll(RoutineKinds, client);
    }

    method RegisterWebhookTools(client: Option<HevyClient>)
      modifies this
      ensures tools == old(tools) + Entries(WebhookKinds, client)
    {
      RegisterAll(WebhookKinds, client);
    }

    /**
      The registrations at start-up, in their order: workouts, routines,
      templates, then webhooks, all with the same (possibly absent) client.
     */
    method RegisterCoreTools(client: Option<HevyClient>)
      modifies this
      ensures tools == AfterCoreRegistration(old(tools), client)
    {
      RegisterWorkoutTools(client);
      RegisterRoutineTools(client);
      RegisterTemplateTools(client);
      RegisterWebhookTools(client);
    }

    /** A call of a registered tool. */
    function Call(name: string, a: ToolArgs): Envelope
      reads this
      requires name in tools && Admits(tools[name].kind, a)
    {
      Handle(tools[name], formatHistoryEntry, a)
    }
  }

  /** Distinct tools have distinct names. */
  lemma NameInjective(k1: ToolKind, k2: ToolKind)
    requires Name(k1) == Name(k2)
    ensures k1 == k2
  {
  }

  /**
    The entries of a registration: each kind of the list is registered under
    its own name with the given client, and no other name is added.
   */
  lemma {:induction false} EntriesLookup(kinds: seq<ToolKind>, client: Option<HevyClient>, k: ToolKind)
    ensures Name(k) in Entries(kinds, client) <==> k in kinds
    ensures k in kinds ==> Entries(kinds, client)[Name(k)] == RegisteredTool(k, client)
    decreases |kinds|
  {
    if kinds != [] {
      var init, last := kinds[..|kinds| - 1], kinds[|kinds| - 1];
      assert kinds == init + [last];
      EntriesLookup(init, client, k);
      if Name(k) == Name(last) {
        NameInjective(k, last);
      }
    }
  }

  /** Every name in the entries belongs to one of the kinds registered. */
  lemma {:induction false} EntriesNames(kinds: seq<ToolKind>, client: Option<HevyClient>, name: string)
    requires name in Entries(kinds, client)
    ensures exists k :: k in kinds && Name(k) == name
    decreases |kinds|
  {
    var init, last := kinds[..|kinds| - 1], kinds[|kinds| - 1];
    assert kinds == init + [last];
    if name != Name(last) {
      EntriesNames(init, client, name);
    }
  }

  /** Every tool belongs to exactly one of the four registration functions. */
  lemma KindGroups(k: ToolKind)
    ensures (k in WorkoutKinds) || (k in RoutineKinds) || (k in TemplateKinds) || (k in WebhookKinds)
    ensures Guarded(k) <==> k in WorkoutKinds || k in TemplateKinds
  {
  }

  /**
    After the start-up registrations every one of the seventeen tools is
    registered under its own name with the client given, and no other name
    is added.
   */
  lemma CoreToolsRegistered(before: map<string, RegisteredTool>, client: Option<HevyClient>, k: ToolKind, name: string)
    ensures var after := AfterCoreRegistration(before, client);
      Name(k) in after && after[Name(k)] == RegisteredTool(k, client)
    ensures name in AfterCoreRegistration(before, client) ==> name in before || exists k' :: Name(k') == name
  {
    KindGroups(k);
    EntriesLookup(WorkoutKinds, client, k);
    EntriesLookup(RoutineKinds, client, k);
    EntriesLookup(TemplateKinds, client, k);
    EntriesLookup(WebhookKinds, client, k);
    if name in Entries(WebhookKinds, client) {
      EntriesNames(WebhookKinds, client, name);
    } else if name in Entries(TemplateKinds, client) {
      EntriesNames(TemplateKinds, client, name);
    } else if name in Entries(RoutineKinds, client) {
      EntriesNames(RoutineKinds, client, name);
    } else if name in Entries(WorkoutKinds, client) {
      EntriesNames(WorkoutKinds, client, name);
    }
  }

  /**
    The first-request callback of src/index.ts registers the tools again
    with the client built from the key. That callback never runs (the
    configuration has no transport mode and the HTTP server throws), so this
    lemma describes what a second registration would do, read as
    replacement: the names stay the same and every tool uses the new client.
   */
  lemma ReRegistrationRebinds(client: HevyClient)
    ensures var first := AfterCoreRegistration(map[], None);
      var second := AfterCoreRegistration(first, Some(client));
      && second.Keys == first.Keys
      && forall k :: Name(k) in second && second[Name(k)] == RegisteredTool(k, Some(client))
  {
    var first := AfterCoreRegistration(map[], None);
    var second := AfterCoreRegistration(first, Some(client));
    forall k
      ensures Name(k) in second && second[Name(k)] == RegisteredTool(k, Some(client))
    {
      CoreToolsRegistered(first, Some(client), k, "");
    }
    forall name | name in second
      ensures name in first
    {
      CoreToolsRegistered(first, Some(client), GetWorkoutsTool, name);
      if name !in first {
        var k :| Name(k) == name;
        CoreToolsRegistered(map[], None, k, name);
      }
    }
  }

  /**
    Called without a client, a guarded tool answers with the guard's error
    envelope and an unguarded one with the TypeError of reading its client
    method, each under the tool's context.
   */
  lemma NullClientAnswers(k: ToolKind, formatEntry: Json -> Json, a: ToolArgs)
    requires Admits(k, a)
    ensures Guarded(k) ==> Handle(RegisteredTool(k, None), formatEntry, a) == GuardEnvelope(ContextOf(k))
    ensures !Guarded(k) ==>
      Handle(RegisteredTool(k, None), formatEntry, a) == NullClientEnvelope(ContextOf(k), ClientMethod(k))
  {
    if Guarded(k) {
      ClientGuardText(ContextOf(k));
    } else {
      NullClientText(ContextOf(k), ClientMethod(k));
    }
  }
}
