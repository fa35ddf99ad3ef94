# hevy-mcp core, modelled in Dafny

hevy-mcp is a Model Context Protocol (MCP) server that exposes the Hevy
fitness API as tools. This project models its core and proves properties of
the model:

- **Stdio transport.** The lenient stdio transport splits the byte stream
  into lines. It normalises `"params": null`, drops malformed messages
  (counting them, with at most five diagnostics), and frames every outgoing
  message as one JSON line.
- **Responses and errors.** The response helpers and the error handler build
  the MCP content envelopes. The error handler takes the message from an
  upstream error body, classifies errors as network, validation, not-found,
  API or unknown, and prefixes the message with the tool context.
- **Configuration.** `parseConfig` looks for the API key on the command line
  and falls back to the environment value.
- **Formatters.** The formatters turn Hevy API records into the shapes the
  tools return, and `calculateDuration` prints a duration.
- **Tools.** The seventeen workout, exercise-template, routine and webhook
  tools are pure handler functions of an optional client and the typed
  arguments. Each one is registered under its name in the server's tool
  table and runs behind `withErrorHandling`.
- **OpenAPI fixer.** `scripts/openapi-spec.js` repairs the upstream OpenAPI
  document through a series of fixes:
  - hoisting `required: true`;
  - repairing `type: "enum"`;
  - wrapping `$ref` siblings in `allOf`;
  - adding missing parameter schemas;
  - repairing two examples;
  - setting default servers;
  - adding global tags;
  - generating operation ids.

JSON values are a `Json` datatype. Objects are ordered member lists, kept
in insertion order. JavaScript orders integer-like keys differently (see
"Left out"). The TypeErrors the strict-mode script can raise
(reading a property of `null`, iterating a non-iterable, calling `push` or
`map` on a non-array, assigning a property on a primitive) are modelled as
`Result` failures that carry the message.

The code that changes state is imperative Dafny:
- `ReadBuffer` and `LenientStdioServerTransport` are classes.
- The MCP server's tool table is a `map` field of `McpServer`.
- Every loop of the OpenAPI script is a `method` with a `while` loop.

Each such method is proved equal to a recursive specification function, and
the properties are proved about those functions.

Files:
- `wrappers.dfy`: `Option` and `Result`.
- `text.dfy`: ASCII case mapping, substring search, decimal printing.
- `json.dfy`: the `Json` value, member lookup and update, and `JSON.stringify` in compact and indented form.
- `stdio_transport.dfy`: `src/utils/stdioTransport.ts`.
- `response_formatter.dfy`: `src/utils/response-formatter.ts`.
- `error_handler.dfy`: `src/utils/error-handler.ts`.
- `config.dfy`: `src/utils/config.ts`.
- `formatters.dfy`: `src/utils/formatters.ts`.
- `hevy_api.dfy`: the upstream client as seen by the tools, the request bodies, and the JavaScript `??` and `||` defaults.
- `workouts.dfy`, `templates.dfy`, `routines.dfy`, `webhooks.dfy`: the tool handlers of `src/tools/`.
- `registry.dfy`: tool registration and the start-up sequence of `src/index.ts`.
  `HevyConfig` has no `transportMode`, so both transport tests in `src/index.ts` are
  false and the server always serves stdio. With an API key the client is built
  (src/index.ts:46-48). Without one, src/index.ts:49-53 logs that it is starting
  in HTTP mode and waiting for a key, and the tools are then served over stdio
  with no client: `ToolRegistry.NullClientAnswers` states what they answer.
- `openapi_tree.dfy`: shared JSON-tree helpers of the script.
- `openapi_required.dfy`, `openapi_enum.dfy`, `openapi_refs.dfy`, `openapi_params.dfy`, `openapi_examples.dfy`, `openapi_tags.dfy`, `openapi_ids.dfy`: one fixer each.
- `openapi_spec.dfy`: `fixOpenAPISpec`.

## Model

| member | source | states |
|---|---|---|
| StdioTransport.LineEnd | src/utils/stdioTransport.ts:21-24 | `indexOf("\n")`: -1, or an index inside the buffer that holds a line feed |
| StdioTransport.LineEndIsFirst | src/utils/stdioTransport.ts:21-24 | the index is -1 exactly when there is no line feed; otherwise no line feed comes before it |
| StdioTransport.LineEndUnique | src/utils/stdioTransport.ts:21-24 | a position holding a line feed with none before it is the index `indexOf` returns |
| StdioTransport.StripCR | src/utils/stdioTransport.ts:26 | one trailing carriage return is removed, and nothing else changes |
| StdioTransport.AfterFirstLine | src/utils/stdioTransport.ts:27 | taking a line always shortens the buffer |
| StdioTransport.Remainder | src/utils/stdioTransport.ts:111-116 | what is left after all lines are read holds no line feed |
| StdioTransport.NoLineFeedNoLines | src/utils/stdioTransport.ts:16-29 | a buffer without a line feed yields no lines and stays as it is |
| StdioTransport.LineTaken | src/utils/stdioTransport.ts:111-116 | reading one line and then the rest gives the same lines and remainder as reading all lines |
| StdioTransport.LinesAppend | src/utils/stdioTransport.ts:12-29 | the lines of a + b are the lines of a, then the lines of a's remainder followed by b |
| StdioTransport.LinesOfTerminated | src/utils/stdioTransport.ts:21-27 | the text before the first line feed, without its CR, is the first line |
| StdioTransport.ChunkBoundaryIndependence | src/utils/stdioTransport.ts:85-88 | feeding chunks one by one yields the same lines and remainder as feeding their concatenation |
| StdioTransport.ReadBuffer.constructor | src/utils/stdioTransport.ts:9-10 | a new buffer is empty |
| StdioTransport.ReadBuffer.Append | src/utils/stdioTransport.ts:12-14 | the chunk is appended to the buffer |
| StdioTransport.ReadBuffer.ReadLine | src/utils/stdioTransport.ts:16-29 | null and no change without a line feed; otherwise the first line, CR stripped, with the buffer advanced past the line feed |
| StdioTransport.ReadBuffer.Clear | src/utils/stdioTransport.ts:31-33 | the buffer becomes empty |
| StdioTransport.NormalizeParams | src/utils/stdioTransport.ts:44-51 | an object whose `params` is null gets `params: {}`; every other value is unchanged |
| StdioTransport.NormalizeParamsIdempotent | src/utils/stdioTransport.ts:44-51 | normalising twice is normalising once |
| StdioTransport.Deserialize | src/utils/stdioTransport.ts:36-59 | a line that does not parse, or whose normalised value fails the schema, gives null; otherwise the schema's result on the normalised value |
| StdioTransport.Dropped | src/utils/stdioTransport.ts:120-121 | at most one drop per line |
| StdioTransport.AcceptedPlusDropped | src/utils/stdioTransport.ts:111-138 | every line is either delivered or counted as invalid |
| StdioTransport.AcceptedAppend | src/utils/stdioTransport.ts:111-138 | the delivered messages and the drop count of concatenated line lists add up |
| StdioTransport.AcceptedSnoc | src/utils/stdioTransport.ts:118-137 | one more line adds its message to the delivered list, or adds 1 to the invalid count |
| StdioTransport.BadLineSkipped | src/utils/stdioTransport.ts:120-127 | a malformed line between others is skipped: the others are delivered in order and the count rises by one |
| StdioTransport.EncodeChar | src/utils/stdioTransport.ts:156-157 | UTF-8: 1 to 4 bytes; ASCII is one byte; no byte of a non-ASCII character is below 0x80 |
| StdioTransport.EncodeAppend | src/utils/stdioTransport.ts:156-157 | UTF-8 encoding distributes over concatenation |
| StdioTransport.EncodeAvoids | src/utils/stdioTransport.ts:156-157 | an ASCII byte occurs in an encoding only where that character occurs in the text |
| StdioTransport.FramesAppend | src/utils/stdioTransport.ts:154-157 | one more send appends exactly one frame |
| StdioTransport.Payloads | src/utils/stdioTransport.ts:156 | one payload per message: the UTF-8 encoding of its JSON |
| StdioTransport.FrameShape | src/utils/stdioTransport.ts:156 | a frame is the message's JSON followed by a line feed; the JSON has no line feed and no trailing CR |
| StdioTransport.FramesRoundTrip | src/utils/stdioTransport.ts:16-29 | reading back what `send` wrote gives each message's JSON as one line, with nothing left over |
| StdioTransport.LenientStdioServerTransport.constructor | src/utils/stdioTransport.ts:69-97 | not started, not listening, nothing delivered or written, count 0 |
| StdioTransport.LenientStdioServerTransport.Start | src/utils/stdioTransport.ts:99-109 | a second start fails with "already started" and changes nothing; the first one starts listening |
| StdioTransport.LenientStdioServerTransport.ProcessReadBuffer | src/utils/stdioTransport.ts:111-139 | every complete line is consumed: valid messages are delivered in order, invalid ones counted, diagnostics capped at 5, the remainder kept |
| StdioTransport.LenientStdioServerTransport.HandleLine | src/utils/stdioTransport.ts:118-137 | one line is delivered or counted |
| StdioTransport.LenientStdioServerTransport.OnData | src/utils/stdioTransport.ts:85-88 | a chunk is appended, then every complete line of the joined buffer is processed |
| StdioTransport.LenientStdioServerTransport.Close | src/utils/stdioTransport.ts:141-152 | stops listening, clears the buffer, calls onclose once; the count is kept |
| StdioTransport.LenientStdioServerTransport.Send | src/utils/stdioTransport.ts:154-164 | writes the message's JSON and a line feed, and nothing else |
| Json.CompactHasNoLineBreak | src/utils/stdioTransport.ts:156 | `JSON.stringify` without indentation never produces a line feed or CR |
| Json.StringifyIndented | src/utils/response-formatter.ts:36-38 | an indentation of 0 or less gives the compact form |
| Json.Stringify | src/utils/stdioTransport.ts:156 | compact `JSON.stringify` output holds no line feed and no CR |
| Json.Serialize | src/utils/response-formatter.ts:34-35 | the output is never empty; objects are enclosed in braces, arrays in brackets and strings in quotes |
| ResponseFormatter.CreateJsonResponse | src/utils/response-formatter.ts:29-45 | one text item holding the JSON (pretty with the given indent, else compact), without an error flag |
| ResponseFormatter.CreateTextResponse | src/utils/response-formatter.ts:53-62 | one text item holding the message, without an error flag |
| ResponseFormatter.CreateEmptyResponse | src/utils/response-formatter.ts:70-81 | one text item with the message, "No data found" when none is given |
| ResponseFormatter.JsonTextDefaults | src/utils/response-formatter.ts:31-38 | no options means pretty with indent 2; pretty unset or false means compact; pretty without an indent means compact |
| ResponseFormatter.ExplicitDefaultOptions | src/utils/response-formatter.ts:31 | passing the defaults explicitly is the same as passing none |
| ErrorHandler.ErrorMessage | src/utils/error-handler.ts:47-60 | a non-empty string body is used verbatim; an object or array body is its JSON; otherwise the error's own message |
| ErrorHandler.ClassifierPriority | src/utils/error-handler.ts:96-138 | each error type is chosen exactly when its signs show and no higher tier's do (network, validation, not found, API, unknown) |
| ErrorHandler.DetermineErrorType | src/utils/error-handler.ts:96-138 | a network error exactly when the network signs show; validation, not-found and API errors only when their own signs show |
| ErrorHandler.NetworkTermsWin | src/utils/error-handler.ts:100-109 | a message that mentions timeout, network or fetch is a network error |
| ErrorHandler.NotFoundNeedsMessagePhrase | src/utils/error-handler.ts:120-126 | not-found is decided by the message alone, and only when the name has no network or validation sign |
| ErrorHandler.NameIgnoredOutsideNameTiers | src/utils/error-handler.ts:96-138 | names without network, fetch, timeout, validation or api classify alike |
| ErrorHandler.ClassificationIgnoresCase | src/utils/error-handler.ts:97-98 | the letter case of the message does not matter |
| ErrorHandler.CreateErrorResponse | src/utils/error-handler.ts:42-91 | one text item flagged as an error: "[context] Error: …", or "Error: …" without a context |
| ErrorHandler.WithErrorHandling | src/utils/error-handler.ts:151-162 | the handler's response when it returns; the error envelope under the context when it throws |
| ErrorHandler.WrappedOutcomeShape | src/utils/error-handler.ts:151-162 | a wrapped handler always answers with one text item, flagged as an error exactly when it threw |
| ErrorHandler.ClientGuardText | src/utils/error-handler.ts:76-89 | the missing-client guard yields "[context] Error: API client not initialized…" |
| Config.MatchPrefix | src/utils/config.ts:18-31 | a match exactly when the argument starts with the prefix in any case and continues with non-empty text on one line; the key is that text |
| Config.MatchAny | src/utils/config.ts:18-31 | a matched key is never empty |
| Config.FirstCliKey | src/utils/config.ts:23-32 | a key found on the command line is never empty |
| Config.ParseConfig | src/utils/config.ts:13-40 | the key is the first command-line match, else a non-empty environment value, else "" |
| Config.ApiKeyOf | src/utils/config.ts:23-35 | a command-line key is the result; without one, a non-empty result is the environment value; "" exactly when there is neither |
| Config.CliKeyWins | src/utils/config.ts:23-35 | a command-line key takes precedence over the environment |
| Config.FirstMatchWins | src/utils/config.ts:23-32 | the first matching argument decides, whatever follows it |
| Config.EachFormAccepted | src/utils/config.ts:18-22 | each of the three argument forms, in any letter case, yields its key |
| Config.EmptyValueFallsBack | src/utils/config.ts:18-35 | an argument with nothing after the prefix is ignored |
| Config.NoKeyIsEmpty | src/utils/config.ts:33-39 | no argument and no non-empty environment value gives "" |
| Formatters.DurationOutcomes | src/utils/formatters.ts:192-223 | "Unknown duration" exactly when a time is missing or invalid; the negative text exactly when the end precedes the start |
| Formatters.CalculateDuration | src/utils/formatters.ts:192-223 | a missing or invalid time gives "Unknown duration"; an end before the start gives the negative text; otherwise neither sentinel |
| Formatters.DurationText | src/utils/formatters.ts:214-218 | a non-negative span prints as `{h}h {m}m {s}s`, with minutes and seconds below 60 |
| Formatters.DurationParts | src/utils/formatters.ts:214-216 | the printed hours, minutes and seconds add up to the elapsed whole seconds |
| Formatters.DurationPartsUnique | src/utils/formatters.ts:214-216 | that decomposition is the only one |
| Formatters.SameInstantIsZero | src/utils/formatters.ts:192-223 | equal times print "0h 0m 0s" |
| Formatters.HmsTextIsNoSentinel | src/utils/formatters.ts:203-218 | a duration text is never one of the two sentinel texts |
| Formatters.HmsTextInjective | src/utils/formatters.ts:218 | hours, minutes and seconds can be read back from the text |
| Formatters.ElapsedTextInjective | src/utils/formatters.ts:196-218 | different measurements print differently |
| Formatters.DurationTextsAgree | src/utils/formatters.ts:209-218 | two non-negative spans print alike exactly when they hold the same whole seconds |
| Formatters.FormatWorkoutFields | src/utils/formatters.ts:109-132 | `created_at` becomes `date` and `title` becomes `name`, for the workout and for each exercise; each set's `weight_kg`, `distance_meters` and `duration_seconds` become `weight`, `distance` and `duration` |
| Formatters.FormatRoutineFields | src/utils/formatters.ts:140-166 | each exercise's `supersets_id` becomes `supersetId`; exercise and set indexes are kept at their positions |
| Formatters.FormatWorkout | src/utils/formatters.ts:109-132 | the duration is calculateDuration of the start and end times; exercises, and each exercise's sets, are kept in count and order, and absent lists stay absent |
| Formatters.FormatRoutine | src/utils/formatters.ts:140-166 | exercises, and each exercise's sets, are kept in count and order, and absent lists stay absent |
| Formatters.FormatRoutineFolder | src/utils/formatters.ts:174-183 | a folder is copied field for field: reading its four fields back gives the input |
| Formatters.FormatExerciseTemplate | src/utils/formatters.ts:231-242 | a template is copied field for field under the formatter's names: reading its six fields back gives the input |
| HevyApi.Coalesce | src/tools/workouts.ts:203 | `a ?? b`: the first value given |
| HevyApi.OrNull | src/tools/workouts.ts:199-208 | `x ?? null`: present exactly when given |
| HevyApi.NumOrNull | src/tools/routines.ts:133-144 | `n \|\| null`: present exactly when given and not 0 |
| HevyApi.NullableNumOrNull | src/tools/routines.ts:117 | `n \|\| null` for a nullable number |
| HevyApi.StrOrNull | src/tools/routines.ts:128 | `s \|\| null`: present exactly when non-empty |
| HevyApi.NullClientText | src/tools/routines.ts:41 | calling a method on the absent client reports "Cannot read properties of null (reading 'm')" under the context |
| WorkoutTools.SetPayloadFields | src/tools/workouts.ts:201-209 | each measure prefers the short name, then the long one, else null; a zero passes through; type defaults to "normal" |
| WorkoutTools.SetPayload | src/tools/workouts.ts:202-210 | each measure is the short name's value, else the long name's, null only when both are missing; reps, rpe and custom metric are null exactly when missing; a zero is sent; the type defaults to "normal" |
| WorkoutTools.ExercisePayload | src/tools/workouts.ts:197-211 | the template id is copied; superset id and notes are null exactly when missing and otherwise sent as given; the sets are mapped one for one, in order |
| WorkoutTools.WorkoutPayload | src/tools/workouts.ts:190-212 | title and times are copied; the description is null exactly when missing or empty; private only when set to true; the exercises are mapped one for one, in order |
| WorkoutTools.WorkoutPayloadShape | src/tools/workouts.ts:190-212 | title and times copied; empty description becomes null; private defaults to false; exercises and sets kept in order |
| WorkoutTools.GetWorkouts | src/tools/workouts.ts:26-59 | guard without client; upstream errors propagate; success is one untagged text item |
| WorkoutTools.GetWorkout | src/tools/workouts.ts:62-87 | guard without client; upstream errors propagate; success is one untagged text item |
| WorkoutTools.GetWorkoutCount | src/tools/workouts.ts:90-106 | guard without client; upstream errors propagate; success is one untagged text item |
| WorkoutTools.GetWorkoutEvents | src/tools/workouts.ts:109-143 | guard without client; an upstream error propagates to the wrapper; success is one untagged text item |
| WorkoutTools.CreateWorkout | src/tools/workouts.ts:146-229 | guard without client; the payload's upstream error propagates; success is one untagged text item |
| WorkoutTools.UpdateWorkout | src/tools/workouts.ts:232-323 | guard without client; the payload's upstream error propagates; success is one untagged text item |
| WorkoutTools.WorkoutToolsNeedClient | src/tools/workouts.ts:37-41 | without a client every workout tool answers with the guard error under its context (update-workout under "update-workout-operation") |
| WorkoutTools.MissingWorkoutMessage | src/tools/workouts.ts:80-82 | no data answers "Workout with ID … not found", without an error flag |
| WorkoutTools.EmptyListMessages | src/tools/workouts.ts:51-55 | an empty list answers the tool's no-data messages, the events one naming the `since` date |
| WorkoutTools.CountFallback | src/tools/workouts.ts:100-104 | the count is the reported number, else 0 |
| WorkoutTools.PagingDefaults | src/tools/workouts.ts:27-28 | omitted paging means page 1 of size 5, and omitted `since` means the epoch |
| WorkoutTools.WorkoutToolEnvelopes | src/tools/workouts.ts:36-58 | the wrapped tools answer one text item, flagged exactly when the handler threw |
| TemplateTools.HistoryQueryOf | src/tools/templates.ts:129-133 | each date is sent only when it is a non-empty string |
| TemplateTools.GetExerciseTemplates | src/tools/templates.ts:29-67 | guard without client; upstream errors propagate; success is one untagged text item |
| TemplateTools.GetExerciseTemplate | src/tools/templates.ts:70-99 | guard without client; upstream errors propagate; success is one untagged text item |
| TemplateTools.GetExerciseHistory | src/tools/templates.ts:102-148 | guard without client; the history query's upstream error propagates; success is one untagged text item |
| TemplateTools.CreateExerciseTemplate | src/tools/templates.ts:151-260 | guard without client; upstream errors propagate; success is the JSON of `{id, message}` |
| TemplateTools.CreatedJsonShape | src/tools/templates.ts:255-258 | `id` is present exactly when the response has one, and the message comes last |
| TemplateTools.TemplatePayload | src/tools/templates.ts:246-254 | every argument is sent under its API name; other muscles default to [] |
| TemplateTools.CreatedJson | src/tools/templates.ts:255-258 | an object of one or two members: `id` first exactly when the response has one, then the success message |
| TemplateTools.TemplateToolsNeedClient | src/tools/templates.ts:42-46 | without a client every template tool answers with the guard error under its name |
| TemplateTools.TemplateEmptyMessages | src/tools/templates.ts:59-63 | no data answers each tool's not-found or empty message |
| RoutineTools.RoutineSetPayload | src/tools/routines.ts:129-144 | every number is null exactly when missing or 0, and otherwise sent as given; the type defaults to "normal" |
| RoutineTools.RoutineExercisePayload | src/tools/routines.ts:120-146 | the template id is copied; superset id and rest are null exactly when missing or 0, notes exactly when missing or empty, and otherwise each is sent as given; the sets are mapped one for one, in order |
| RoutineTools.CreateRoutinePayload | src/tools/routines.ts:115-148 | the title is copied; the folder is null exactly when missing or 0 and otherwise sent as given; the notes are the argument or ""; the exercises are mapped one for one, in order |
| RoutineTools.UpdateRoutinePayload | src/tools/routines.ts:196-231 | the title is copied; the notes are the argument or ""; the exercises are mapped as for create; no folder is sent |
| RoutineTools.ZeroWeightDiffers | src/tools/routines.ts:133-134 | a zero weight is kept by the workout tools but dropped by the routine tools |
| RoutineTools.RoutinePayloadShape | src/tools/routines.ts:114-149 | in the create body the folder and each exercise's superset id, rest and notes are null exactly when missing, null, 0 or empty, and otherwise sent as given; the notes are the argument or ""; exercises and sets keep count and order; the update body has the same exercises, the same notes and no folder |
| RoutineTools.GetRoutines | src/tools/routines.ts:33-58 | with no client, a TypeError reading `getRoutines`; upstream errors propagate |
| RoutineTools.GetRoutine | src/tools/routines.ts:61-82 | reads through `updateRoutine` with the empty-title probe body; with no client, a TypeError |
| RoutineTools.CreateRoutine | src/tools/routines.ts:85-164 | with no client, a TypeError reading `createRoutine`; the payload's upstream error propagates |
| RoutineTools.UpdateRoutine | src/tools/routines.ts:167-245 | with no client, a TypeError reading `updateRoutine`; the payload's upstream error propagates |
| RoutineTools.RoutineToolsWithoutClient | src/tools/routines.ts:28-31 | without a client each routine tool answers the null-read error under its name |
| RoutineTools.RoutineEmptyMessages | src/tools/routines.ts:50-54 | no data answers each tool's not-found or failure message |
| WebhookTools.DataOrMessage | src/tools/webhooks.ts:25-29 | falsy data gives the message; truthy data its pretty JSON |
| WebhookTools.WebhookPayload | src/tools/webhooks.ts:41-46 | the url and events are sent exactly as given |
| WebhookTools.GetWebhookSubscription | src/tools/webhooks.ts:19-30 | with no client, a TypeError; upstream errors propagate |
| WebhookTools.CreateWebhookSubscription | src/tools/webhooks.ts:33-52 | with no client, a TypeError; upstream errors propagate |
| WebhookTools.DeleteWebhookSubscription | src/tools/webhooks.ts:55-66 | with no client, a TypeError; upstream errors propagate |
| WebhookTools.WebhookReplies | src/tools/webhooks.ts:23-64 | for each of the three tools, truthy data is answered with its JSON indented by two; no data, or falsy data, with the tool's fixed message |
| WebhookTools.WebhookToolsWithoutClient | src/tools/webhooks.ts:14-18 | without a client each webhook tool answers the null-read error under its name |
| ToolRegistry.ContextOf | src/tools/workouts.ts:322 | the wrapper context is the tool's name, except "update-workout-operation" |
| ToolRegistry.WorkoutToolBody | src/tools/workouts.ts:32-323 | a return is one text item without an error flag; without a client it throws the guard error |
| ToolRegistry.TemplateToolBody | src/tools/templates.ts:29-260 | a return is one text item without an error flag; without a client it throws the guard error |
| ToolRegistry.RoutineToolBody | src/tools/routines.ts:33-245 | a return is one text item without an error flag; without a client it throws the null-read TypeError |
| ToolRegistry.WebhookToolBody | src/tools/webhooks.ts:19-66 | a return is one text item without an error flag; without a client it throws the null-read TypeError |
| ToolRegistry.Body | src/tools/workouts.ts:21-24 | a return is one text item without an error flag; without a client guarded tools throw the guard error and unguarded ones the null-read TypeError |
| ToolRegistry.Handle | src/utils/error-handler.ts:151-162 | every call answers one text item, flagged exactly when the handler threw, and passes returned responses through |
| ToolRegistry.McpServer.constructor | src/index.ts:58-62 | no tools before registration |
| ToolRegistry.McpServer.Tool | src/tools/workouts.ts:32-59 | `server.tool` binds the name to the tool |
| ToolRegistry.McpServer.RegisterAll | src/tools/workouts.ts:21-324 | each kind is registered under its name, in order |
| ToolRegistry.McpServer.RegisterWorkoutTools | src/tools/workouts.ts:21-324 | the six workout tools are added |
| ToolRegistry.McpServer.RegisterTemplateTools | src/tools/templates.ts:24-261 | the four template tools are added |
| ToolRegistry.McpServer.RegisterRoutineTools | src/tools/routines.ts:28-246 | the four routine tools are added |
| ToolRegistry.McpServer.RegisterWebhookTools | src/tools/webhooks.ts:14-67 | the three webhook tools are added |
| ToolRegistry.McpServer.RegisterCoreTools | src/index.ts:58-62 | the start-up order: workouts, routines, templates, webhooks, all with the same client |
| ToolRegistry.NameInjective | src/tools/workouts.ts:33 | no two tools share a name |
| ToolRegistry.EntriesLookup | src/tools/workouts.ts:32-323 | exactly the listed kinds are registered, each under its own name with the given client |
| ToolRegistry.EntriesNames | src/tools/workouts.ts:32-323 | every registered name belongs to a listed kind |
| ToolRegistry.KindGroups | src/index.ts:58-62 | every tool belongs to one group; the guarded ones are the workout and template tools |
| ToolRegistry.CoreToolsRegistered | src/index.ts:58-62 | after start-up all seventeen tools are registered with the client, and nothing else is added |
| ToolRegistry.ReRegistrationRebinds | src/index.ts:78-85 | the unreachable first-request callback, read as replacement: a second registration with the key's client keeps the same names and rebinds every tool to the new client |
| ToolRegistry.NullClientAnswers | src/index.ts:58-62 | without a client, guarded tools answer the guard error and unguarded ones the null-read error |
| OpenApiTree.Children | scripts/openapi-spec.js:47 | `Object.entries` values are smaller than their container |
| OpenApiTree.WithChildren | scripts/openapi-spec.js:47-51 | writing the entry values back keeps keys and kind |
| OpenApiTree.WithOwnChildren | scripts/openapi-spec.js:47-51 | writing back unchanged entry values gives the same value |
| OpenApiTree.Collect | scripts/openapi-spec.js:47-51 | the loop succeeds exactly when every step does, keeping the values in order; else it fails with some step's error |
| OpenApiTree.CollectStopsAt | scripts/openapi-spec.js:47-51 | the first failing step's error is the loop's error |
| OpenApiTree.DedupContents | scripts/openapi-spec.js:76 | `[...new Set(xs)]` has the same members, with no primitive twice |
| OpenApiTree.Dedup | scripts/openapi-spec.js:76 | `[...new Set(xs)]` is never longer than xs and holds no primitive twice |
| OpenApiTree.DedupKeepsPrefix | scripts/openapi-spec.js:75-76 | a list without repeats stays in front when more names are pushed |
| OpenApiTree.DedupOfDistinct | scripts/openapi-spec.js:76 | a list without repeats is unchanged |
| OpenApiTree.ReplaceAt | scripts/openapi-spec.js:191-202 | writing at a path leaves that value there |
| OpenApiTree.ReplaceAtFrame | scripts/openapi-spec.js:188-208 | writing at one path leaves every path not below or above it unchanged |
| OpenApiRequired.AddRequired | scripts/openapi-spec.js:73-77 | `push` fails only on a truthy non-array `required` |
| OpenApiRequired.FixSchema | scripts/openapi-spec.js:54-99 | non-objects are unchanged; objects stay objects; the only error is the failing `push` |
| OpenApiRequired.ChildrenFixed | scripts/openapi-spec.js:60-71 | succeeds with one fixed value per entry |
| OpenApiRequired.FixedMembers | scripts/openapi-spec.js:57-98 | fixing the members of a schema fails only through a failing `push` |
| OpenApiRequired.FixMember | scripts/openapi-spec.js:57-98 | only `properties`, `items`, the combinator keywords and `additionalProperties` are walked; every other member is unchanged |
| OpenApiRequired.Finish | scripts/openapi-spec.js:73-77 | after the walk, `required` is updated and the only possible error is the failing `push` |
| OpenApiRequired.AllRequiredFixed | scripts/openapi-spec.js:46-52 | fixing every schema fails only through a failing `push` |
| OpenApiRequired.MarkedNamesExact | scripts/openapi-spec.js:60-64 | the hoisted names are exactly the keys of the properties marked `required: true` |
| OpenApiRequired.FixedIsClean | scripts/openapi-spec.js:54-99 | after the walk, no reachable property schema says `required: true` |
| OpenApiRequired.FinishReads | scripts/openapi-spec.js:73-77 | only `required` can change, and only into the old list plus the names, without repeats |
| OpenApiRequired.FixedFrame | scripts/openapi-spec.js:54-99 | members the walk does not visit are unchanged |
| OpenApiRequired.RequiredHoisted | scripts/openapi-spec.js:73-77 | marked names are appended to the existing list (or a new one) and repeats are removed |
| OpenApiRequired.RequiredUntouched | scripts/openapi-spec.js:73 | `required` is unchanged when no property is marked |
| OpenApiRequired.RequiredListContents | scripts/openapi-spec.js:73-77 | the new list holds exactly the old entries and the names, no primitive twice, the old order first |
| OpenApiRequired.RequiredCrash | scripts/openapi-spec.js:74-75 | a truthy non-array `required` with marked properties makes the walk throw |
| OpenApiRequired.FinishFails | scripts/openapi-spec.js:74-75 | pushing into a truthy `required` that is not an array throws |
| OpenApiRequired.FixSchemaSteps | scripts/openapi-spec.js:54-99 | a walk that succeeds fixes the members first and then updates `required` |
| OpenApiRequired.ListContents | scripts/openapi-spec.js:75-76 | deduplicating old entries plus names keeps every name and every old entry, adds nothing else, has no primitive twice, and keeps an old list without repeats in front |
| OpenApiRequired.RequiredPassesThrough | scripts/openapi-spec.js:57-98 | walking the members leaves `required` itself unchanged |
| OpenApiRequired.FixSchemaRequired | scripts/openapi-spec.js:54-99 | the recursive walk computes FixSchema |
| OpenApiRequired.FixEntries | scripts/openapi-spec.js:60-71 | the loop over the entries computes ChildrenFixed |
| OpenApiRequired.FixEntry | scripts/openapi-spec.js:60-71 | one step of the entry loop computes that entry's FixedChild |
| OpenApiRequired.FixMemberRequired | scripts/openapi-spec.js:80-98 | the dispatch on a member's key computes FixMember |
| OpenApiRequired.HoistedPropertyNames | scripts/openapi-spec.js:58-64 | the loop collects the marked names |
| OpenApiRequired.FixInvalidRequiredProperties | scripts/openapi-spec.js:46-52 | the loop over the schemas computes AllRequiredFixed |
| OpenApiEnum.InferredType | scripts/openapi-spec.js:107-108 | "number" exactly when the first enum value is a number, otherwise "string" |
| OpenApiEnum.EnumFixed | scripts/openapi-spec.js:106-113 | an enum schema gets the inferred type and nothing else changes; other schemas are unchanged |
| OpenApiEnum.AllEnumsFixed | scripts/openapi-spec.js:104-115 | keys and kind are kept, and no schema says `type: "enum"` afterwards |
| OpenApiEnum.FixInvalidEnumTypes | scripts/openapi-spec.js:104-115 | the loop computes AllEnumsFixed |
| OpenApiEnum.EnumEntries | scripts/openapi-spec.js:104-115 | each entry is fixed as EnumFixed says, keys kept |
| OpenApiEnum.EnumFixIdempotent | scripts/openapi-spec.js:104-115 | no `type: "enum"` remains, so a second pass changes nothing |
| OpenApiRefs.RefsFixed | scripts/openapi-spec.js:128-158 | non-objects are unchanged; objects keep their keys |
| OpenApiRefs.AllRefsFixed | scripts/openapi-spec.js:120-126 | keys and kind are kept, and afterwards no schema has a property schema with a `$ref` beside other members |
| OpenApiRefs.RefMember | scripts/openapi-spec.js:131-157 | only `properties`, `items` and the `allOf`/`oneOf`/`anyOf` arrays change |
| OpenApiRefs.Wrapped | scripts/openapi-spec.js:134-138 | one `allOf` member holding `[{$ref}, rest]`, where rest has no `$ref` and every other member of the schema |
| OpenApiRefs.RefsFrame | scripts/openapi-spec.js:128-158 | other members are unchanged |
| OpenApiRefs.WalkedIsClean | scripts/openapi-spec.js:128-158 | afterwards no reachable property schema has a `$ref` sibling |
| OpenApiRefs.WalkedPropertyHasNoSiblings | scripts/openapi-spec.js:128-158 | a schema without `$ref` siblings still has none after the walk |
| OpenApiRefs.MemberIsClean | scripts/openapi-spec.js:131-157 | every walked member is clean afterwards: no property schema keeps a `$ref` beside other members |
| OpenApiRefs.PropertyIsClean | scripts/openapi-spec.js:134-143 | a property schema is an `allOf` wrapper or has no `$ref` siblings after its fix |
| OpenApiRefs.FixRefSiblings | scripts/openapi-spec.js:120-126 | the loop computes AllRefsFixed |
| OpenApiRefs.FixRefSiblingsRecursive | scripts/openapi-spec.js:128-158 | the recursive walk computes RefsFixed |
| OpenApiRefs.FixRefMembers | scripts/openapi-spec.js:131-157 | the loop over the schema's members computes RefMember for each |
| OpenApiRefs.FixRefMember | scripts/openapi-spec.js:131-157 | the dispatch on a member's key computes RefMember |
| OpenApiRefs.FixRefProperties | scripts/openapi-spec.js:131-145 | the loop over the properties computes RefProperty for each |
| OpenApiRefs.FixRefProperty | scripts/openapi-spec.js:133-143 | one property's wrap and walk compute RefProperty |
| OpenApiRefs.FixRefList | scripts/openapi-spec.js:151-157 | the loop over a keyword's array walks each element |
| OpenApiParams.DefaultSchema | scripts/openapi-spec.js:171-175 | type "string", with format "uuid" only for header parameters |
| OpenApiParams.ParamFixed | scripts/openapi-spec.js:170-179 | a parameter without a schema gets the default, and nothing else changes; null and primitives throw |
| OpenApiParams.ParamsFixed | scripts/openapi-spec.js:169-180 | an array is fixed element by element; a string or non-iterable throws |
| OpenApiParams.OperationFixed | scripts/openapi-spec.js:166-168 | only the visited method changes |
| OpenApiParams.PathItemFixed | scripts/openapi-spec.js:164-166 | a null path item throws; non-objects are unchanged |
| OpenApiParams.PathsFixed | scripts/openapi-spec.js:163-183 | truthiness is kept |
| OpenApiParams.PathsFixedHaveSchemas | scripts/openapi-spec.js:163-183 | afterwards every visited parameter has a schema or content |
| OpenApiParams.ParamsFixedHaveSchemas | scripts/openapi-spec.js:169-180 | afterwards every parameter object has a schema or content |
| OpenApiParams.OperationFixedSchemas | scripts/openapi-spec.js:166-180 | fixing one method gives it schemas and keeps those already present |
| OpenApiParams.OperationsFixedSchemas | scripts/openapi-spec.js:165-181 | after the loop every method has schemas: the visited ones and those that already had them |
| OpenApiParams.FixParameters | scripts/openapi-spec.js:169-180 | the loop computes ParamsFixed |
| OpenApiParams.FixParameter | scripts/openapi-spec.js:170-179 | one step of the parameter loop computes ParamFixed |
| OpenApiParams.FixParameterList | scripts/openapi-spec.js:169-180 | the loop over a parameter array stops at the first throw and otherwise gives each fixed parameter in order |
| OpenApiParams.FixOperation | scripts/openapi-spec.js:166-180 | one method's step computes OperationFixed |
| OpenApiParams.FixOperations | scripts/openapi-spec.js:165-181 | the loop over the methods computes OperationsFixed |
| OpenApiParams.FixPathItems | scripts/openapi-spec.js:164-182 | the loop over the path items stops at the first throw and otherwise gives each fixed item in order |
| OpenApiParams.FixPathItem | scripts/openapi-spec.js:165-181 | the loop over the methods computes PathItemFixed |
| OpenApiParams.FixMissingParameterSchemas | scripts/openapi-spec.js:163-183 | the loop computes PathsFixed |
| OpenApiExamples.WithoutRpeExample | scripts/openapi-spec.js:189-195 | the null `rpe` example is deleted; the rest of `rpe` is unchanged |
| OpenApiExamples.WithStringRestExample | scripts/openapi-spec.js:197-207 | the numeric example becomes its decimal string |
| OpenApiExamples.RepairsAreIndependent | scripts/openapi-spec.js:188-208 | the first repair does not affect the second's condition or value |
| OpenApiExamples.ExamplesRepaired | scripts/openapi-spec.js:188-208 | both repairs take effect; the schemas are unchanged when neither applies |
| OpenApiExamples.ExamplesFixed | scripts/openapi-spec.js:188-208 | a null `rpe` example is gone afterwards; the schemas are unchanged when neither repair applies |
| OpenApiExamples.RestRepairKeepsRpe | scripts/openapi-spec.js:197-207 | the `rest_seconds` repair leaves the `rpe` example unchanged |
| OpenApiTags.TagValues | scripts/openapi-spec.js:220 | `for...of`: array elements or string characters; anything else throws |
| OpenApiTags.PathsOf | scripts/openapi-spec.js:216 | `spec.paths \|\| {}` |
| OpenApiTags.TagList | scripts/openapi-spec.js:218-220 | `op.tags \|\| []` |
| OpenApiTags.NameOf | scripts/openapi-spec.js:226 | `t.name`: null throws; an object gives its name when defined |
| OpenApiTags.TagEntry | scripts/openapi-spec.js:230 | `{name: tag, description: "<tag> operations"}` |
| OpenApiTags.GlobalTagsFixed | scripts/openapi-spec.js:213-234 | only `tags` changes |
| OpenApiTags.NamesExact | scripts/openapi-spec.js:226 | the names are exactly those of object entries |
| OpenApiTags.AddedExact | scripts/openapi-spec.js:228-233 | every used, unnamed tag gets an entry, and there are no other entries |
| OpenApiTags.TagsCovered | scripts/openapi-spec.js:213-234 | afterwards every used tag is named by an entry |
| OpenApiTags.TagsKept | scripts/openapi-spec.js:225-233 | existing entries stay first and unchanged; every added entry is for a used tag not yet named |
| OpenApiTags.AddToSet | scripts/openapi-spec.js:220 | adding to the Set equals deduplicating the whole list |
| OpenApiTags.UsedTags | scripts/openapi-spec.js:214-223 | collecting the used tags throws exactly when walking the paths does; the result has no tag twice |
| OpenApiTags.PathItemTagList | scripts/openapi-spec.js:216-222 | the loop over a path item's methods computes its used tags |
| OpenApiTags.MethodTagsStop | scripts/openapi-spec.js:216-222 | a throw on one method ends the path item's loop with that error |
| OpenApiTags.AllTagsStop | scripts/openapi-spec.js:214-223 | a throw on one path item ends the loop over the paths with that error |
| OpenApiTags.NamesStop | scripts/openapi-spec.js:226 | a throw reading one tag's name ends the map with that error |
| OpenApiTags.FixMissingGlobalTags | scripts/openapi-spec.js:213-234 | the loops compute GlobalTagsFixed |
| OpenApiTags.ExistingNames | scripts/openapi-spec.js:226 | the map over `spec.tags` computes Names |
| OpenApiOperationIds.ParameterPathId | scripts/openapi-spec.js:246-259 | `/a/b/{c}` gives the method, then A, B and the lower-cased c, each capitalised |
| OpenApiOperationIds.StripSlash | scripts/openapi-spec.js:247 | one leading "/" is removed, and nothing else changes |
| OpenApiOperationIds.WordRun | scripts/openapi-spec.js:248 | the length of the longest leading run of `\w` characters |
| OpenApiOperationIds.LowerParams | scripts/openapi-spec.js:248 | never lengthens the text, and leaves a text without `{` unchanged |
| OpenApiOperationIds.Split | scripts/openapi-spec.js:249 | at least one part, and no part holds a "/" |
| OpenApiOperationIds.CapitalizedParts | scripts/openapi-spec.js:250-255 | parts without "/" join to text without "/" |
| OpenApiOperationIds.BracedWord | scripts/openapi-spec.js:248 | a positive result means that `{`, that many word characters and `}` start the text |
| OpenApiOperationIds.Capitalize | scripts/openapi-spec.js:254-259 | the first character is upper-cased and the rest kept |
| OpenApiOperationIds.Camel | scripts/openapi-spec.js:251 | camel-casing never lengthens the text and leaves a text without "_" unchanged |
| OpenApiOperationIds.OperationId | scripts/openapi-spec.js:246-259 | the id starts with the method name |
| OpenApiOperationIds.IdOfParts | scripts/openapi-spec.js:246-259 | a path of three plain segments gives the method followed by each segment capitalised |
| OpenApiOperationIds.ParameterPathParts | scripts/openapi-spec.js:246-250 | `/a/b/{c}` splits into a, b and the lower-cased c, which has no "/", "{" or "_" |
| OpenApiOperationIds.OperationIdExample | scripts/openapi-spec.js:238 | GET /v1/workouts/{workoutId} gives getV1WorkoutsWorkoutid |
| OpenApiOperationIds.SplitJoin | scripts/openapi-spec.js:249 | splitting at "/" and joining again gives the text back |
| OpenApiOperationIds.UnderscoreIsCapitalized | scripts/openapi-spec.js:251 | `_x` becomes the upper case of x |
| OpenApiOperationIds.OperationIdShape | scripts/openapi-spec.js:246-259 | an id is the method followed by text without "/" |
| OpenApiOperationIds.IdAssigned | scripts/openapi-spec.js:243-259 | a skipped operation is unchanged; an object gets the id; a primitive throws; other members are unchanged |
| OpenApiOperationIds.IdsAssignedAt | scripts/openapi-spec.js:242-263 | each method's result depends only on its own operation, and any throw stops the loop |
| OpenApiOperationIds.IdsAssignedSucceeds | scripts/openapi-spec.js:242-263 | the loop succeeds when every method's step does |
| OpenApiOperationIds.PathItemIds | scripts/openapi-spec.js:241-264 | a null path item throws; other non-objects are unchanged; objects stay objects |
| OpenApiOperationIds.IdSteps | scripts/openapi-spec.js:240-265 | one PathItemIds result per path, under its own name |
| OpenApiOperationIds.PathsIds | scripts/openapi-spec.js:240-265 | the paths stay truthy or falsy as they were |
| OpenApiOperationIds.OperationIdGenerated | scripts/openapi-spec.js:240-265 | every operation without an id gets the derived one; the rest are unchanged |
| OpenApiOperationIds.PathItemIdsFails | scripts/openapi-spec.js:241-264 | throws exactly for a null path item or a primitive operation without an id |
| OpenApiOperationIds.AssignOperationIds | scripts/openapi-spec.js:242-263 | the loop over the methods computes PathItemIds |
| OpenApiOperationIds.GenerateOperationIds | scripts/openapi-spec.js:240-265 | the loop computes PathsIds |
| OpenApiOperationIds.AssignEntryIds | scripts/openapi-spec.js:241-264 | one step of the paths loop computes that path's IdSteps entry |
| OpenApiSpec.SchemasOf | scripts/openapi-spec.js:24 | `components.schemas`, or `{}` when absent or falsy |
| OpenApiSpec.WithSchemas | scripts/openapi-spec.js:24-28 | the fixed schemas are written back only where they came from |
| OpenApiSpec.WithPaths | scripts/openapi-spec.js:26-28 | the fixed paths are written back only when the spec has truthy paths; other members are unchanged |
| OpenApiSpec.ServersFixed | scripts/openapi-spec.js:30-35 | falsy servers, or servers whose `length` is 0 (an empty array or an object with `length: 0`), become the Hevy server; otherwise unchanged |
| OpenApiSpec.NeedsServers | scripts/openapi-spec.js:30 | absent servers need the default, and the default does not |
| OpenApiSpec.ZeroLengthServersReplaced | scripts/openapi-spec.js:30-35 | an empty array, or an object whose `length` is 0, is replaced by the Hevy server |
| OpenApiSpec.Prepared | scripts/openapi-spec.js:24-35 | afterwards the servers need no default; truthy paths hold the fixed paths; members other than components, paths and servers are unchanged |
| OpenApiSpec.SchemaFixes | scripts/openapi-spec.js:24-28 | the schema fixes fail exactly when the `required` fix does |
| OpenApiSpec.SpecFixed | scripts/openapi-spec.js:19-41 | null throws; an array is unchanged; other primitives throw; objects are fixed in order |
| OpenApiSpec.ObjectSpecFixed | scripts/openapi-spec.js:20-40 | an object spec stays an object |
| OpenApiSpec.SpecStages | scripts/openapi-spec.js:24-38 | a finished run is the last stage's result; the tags stage changes only `tags`; truthy paths stay truthy |
| OpenApiSpec.MemberKept | scripts/openapi-spec.js:24-38 | each member is changed only by the stage that owns it |
| OpenApiSpec.SchemasSurvive | scripts/openapi-spec.js:24-38 | the later stages keep `components.schemas` |
| OpenApiSpec.SpecResult | scripts/openapi-spec.js:19-41 | schemas, paths and servers end up in place (servers falsy or of length 0 become the Hevy server, others are kept); members no fix touches are unchanged |
| OpenApiSpec.ServersDefaulted | scripts/openapi-spec.js:30-35 | afterwards the servers are never falsy or of length 0: the Hevy server replaces such servers, and other servers are kept |
| OpenApiSpec.FixOpenApiSpec | scripts/openapi-spec.js:19-41 | the sequence of fixers computes SpecFixed |

## Left out

- I/O and streams: process.stdin/stdout, the `drain` wait, listener counts and `pause` are left out. `send` is modelled as appending bytes.
- Transport callbacks: `onmessage` appends to the delivered list, so it cannot throw. The `catch` that forwards such throws to `onerror` (src/utils/stdioTransport.ts:131-136) and the stdin `error` listener are left out. `onclose` is counted.
- Logging: `console.log`/`console.error` output is left out. Only the number of capped diagnostics is kept.
- `JSON.parse`, UTF-8 decoding and the MCP message schema are function parameters, because the model cannot see their implementations.
- StdioTransport.Accepted: any value the schema parameter returns is delivered, even a falsy one. The source drops a falsy result (`if (!message)`, src/utils/stdioTransport.ts:120). The JSON-RPC message schema only ever yields objects, so this case does not arise there.
- Circular error bodies: `Json` values are finite trees, so a self-referencing `response.data` cannot be expressed. On such a body `JSON.stringify` (src/utils/error-handler.ts:57) throws and nothing catches it, so `createErrorResponse` is not claimed never to throw.
- `assertApiKey` and `process.exit` are left out: exiting the process is not a value.
- `calculateDuration` date parsing: times are an abstract valid-instant-or-invalid value.
- Fractional numbers: all numbers are integers.
- The zod schemas are preconditions on the handlers' arguments (`requires`), not modelled validation errors.
- `formatExerciseHistoryEntry` is not part of this model, because src/utils/formatters.ts does not define it, although src/tools/templates.ts:7 imports it. It is a function parameter.
- The folders tools, the HTTP server, `src/cli.ts` and the Kubb-generated client are not part of this model.
- The SDK's handling of a duplicate `server.tool` name is not visible. Re-registration is modelled as replacement.
- ToolRegistry.ReRegistrationRebinds: src/index.ts:76-86 never runs. `HevyConfig` (src/utils/config.ts:1-3) has no `transportMode`, so the test at src/index.ts:66 is always false, and `createHttpServer` (src/utils/httpServer.ts:5-9) throws before it could call back. The lemma describes a hypothetical second registration, read as replacement, and not behaviour the program shows.
- The exact bodies of the upstream Hevy responses: the client is a function-typed oracle.
- In-place updates of the OpenAPI document are modelled on values, and object keys are assumed distinct. The deep copy `JSON.parse(JSON.stringify(spec))` is taken as identity.
- The checks of one schema in the `required` and `$ref` walks are applied member by member, since each check reads and writes only its own member.
- The `delete propSchema.required` done by the caller is done by the callee.
- A property set on an array is lost in JSON, so such arrays are left unchanged.
- `fetchSpecFromHevy`, `main` and `writeFileSync` are left out (network and file I/O).
- OpenApiExamples.ExamplesFixed is a function only, because the source has no loop there.
- Key order: JavaScript visits integer-like keys (such as `"0"` or `"200"`) first, in ascending numeric order, then the other keys in insertion order. The model keeps plain insertion order for all keys. Where such keys occur, this changes the order in which `Object.entries` walks them, so it changes the order of names the `required` hoist appends and of tag entries the tags fix adds. It also changes the order of members in `JSON.stringify` output.
- Case mapping is ASCII only; `\w` in the regular expressions is ASCII.
