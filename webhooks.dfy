/**
  The three webhook-subscription tools (src/tools/webhooks.ts). They pass the
  API's data through unformatted and, like the routine tools, have no client
  guard. A falsy reply (absent, null, false, 0 or "") counts as no data.
 */
module WebhookTools {
  import opened Wrappers
  import opened Json
  import opened ResponseFormatter
  import opened ErrorHandler
  import opened HevyApi

  datatype CreateWebhookArgs = CreateWebhookArgs(url: string, events: seq<string>)

  const NoSubscription := "No webhook subscription found"
  const CreateWebhookFailed := "Failed to create webhook subscription"
  const DeleteWebhookFailed := "Failed to delete webhook subscription"

  /** `if (!data) createEmptyResponse(message) else createJsonResponse(data)`. */
  function DataOrMessage(data: Option<Json>, message: string): (r: Envelope)
    ensures data.None? || !Truthy(data.value) ==> SuccessWithText(r, message)
    ensures data.Some? && Truthy(data.value) ==> SuccessWithText(r, JsonText(data.value, None))
  {
    if data.None? || !Truthy(data.value) then CreateEmptyResponse(Some(message))
    else CreateJsonResponse(data.value, None)
  }

  /** The body create-webhook-subscription sends: the url and events exactly as given. */
  function WebhookPayload(a: CreateWebhookArgs): (b: WebhookBody)
    ensures b.url == a.url && b.events == a.events
  {
    WebhookBody(a.url, a.events)
  }

  /** Handler of get-webhook-subscription. */
  function GetWebhookSubscription(client: Option<HevyClient>): (r: Outcome)
    ensures r.Returned? ==> SingleText(r.response) && r.response.isError.None?
    ensures client.None? ==> r == Threw(NullPropertyRead("getWebhookSubscription"))
    ensures client.Some? && client.value.getWebhookSubscription().Fails? ==>
      r == Threw(client.value.getWebhookSubscription().error)
  {
    if client.None? then Threw(NullPropertyRead("getWebhookSubscription"))
    else
      match client.value.getWebhookSubscription()
      case Fails(e) => Threw(e)
      case Ok(data) => Returned(DataOrMessage(data, NoSubscription))
  }

  /** Handler of create-webhook-subscription. */
  function CreateWebhookSubscription(client: Option<HevyClient>, args: CreateWebhookArgs): (r: Outcome)
    ensures r.Returned? ==> SingleText(r.response) && r.response.isError.None?
    ensures client.None? ==> r == Threw(NullPropertyRead("createWebhookSubscription"))
    ensures client.Some? && client.value.createWebhookSubscription(WebhookPayload(args)).Fails? ==>
      r == Threw(client.value.createWebhookSubscription(WebhookPayload(args)).error)
  {
    if client.None? then Threw(NullPropertyRead("createWebhookSubscription"))
    else
      match client.value.createWebhookSubscription(WebhookPayload(args))
      case Fails(e) => Threw(e)
      case Ok(data) => Returned(DataOrMessage(data, CreateWebhookFailed))
  }

  /** Handler of delete-webhook-subscription. */
  function DeleteWebhookSubscription(client: Option<HevyClient>): (r: Outcome)
    ensures r.Returned? ==> SingleText(r.response) && r.response.isError.None?
    ensures client.None? ==> r == Threw(NullPropertyRead("deleteWebhookSubscription"))
    ensures client.Some? && client.value.deleteWebhookSubscription().Fails? ==>
      r == Threw(client.value.deleteWebhookSubscription().error)
  {
    if client.None? then Threw(NullPropertyRead("deleteWebhookSubscription"))
    else
      match client.value.deleteWebhookSubscription()
      case Fails(e) => Threw(e)
      case Ok(data) => Returned(DataOrMessage(data, DeleteWebhookFailed))
  }

  /**
    Truthy data from any of the three endpoints is answered with its JSON
    (indented by two spaces); no data, or falsy data, with the tool's fixed
    message.
   */
  lemma WebhookReplies(client: HevyClient, args: CreateWebhookArgs)
    ensures var reply := client.getWebhookSubscription();
      reply.Ok? && reply.value.Some? && Truthy(reply.value.value) ==>
        SuccessWithText(WithErrorHandling(GetWebhookSubscription(Some(client)), "get-webhook-subscription"),
                        StringifyIndented(reply.value.value, 2))
    ensures var reply := client.getWebhookSubscription();
      reply.Ok? && (reply.value.None? || !Truthy(reply.value.value)) ==>
        SuccessWithText(WithErrorHandling(GetWebhookSubscription(Some(client)), "get-webhook-subscription"),
                        NoSubscription)
    ensures var reply := client.createWebhookSubscription(WebhookBody(args.url, args.events));
      reply.Ok? && reply.value.Some? && Truthy(reply.value.value) ==>
        SuccessWithText(WithErrorHandling(CreateWebhookSubscription(Some(client), args), "create-webhook-subscription"),
                        StringifyIndented(reply.value.value, 2))
    ensures var reply := client.createWebhookSubscription(WebhookBody(args.url, args.events));
      reply.Ok? && (reply.value.None? || !Truthy(reply.value.value)) ==>
        SuccessWithText(WithErrorHandling(CreateWebhookSubscription(Some(client), args), "create-webhook-subscription"),
                        CreateWebhookFailed)
    ensures var reply := client.deleteWebhookSubscription();
      reply.Ok? && reply.value.Some? && Truthy(reply.value.value) ==>
        SuccessWithText(WithErrorHandling(DeleteWebhookSubscription(Some(client)), "delete-webhook-subscription"),
                        StringifyIndented(reply.value.value, 2))
    ensures var reply := client.deleteWebhookSubscription();
      reply.Ok? && (reply.value.None? || !Truthy(reply.value.value)) ==>
        SuccessWithText(WithErrorHandling(DeleteWebhookSubscription(Some(client)), "delete-webhook-subscription"),
                        DeleteWebhookFailed)
  {
  }

  /** Without a client each webhook tool reports the TypeError of reading its client method. */
  lemma WebhookToolsWithoutClient(args: CreateWebhookArgs)
    ensures WithErrorHandling(GetWebhookSubscription(None), "get-webhook-subscription")
         == NullClientEnvelope("get-webhook-subscription", "getWebhookSubscription")
    ensures WithErrorHandling(CreateWebhookSubscription(None, args), "create-webhook-subscription")
         == NullClientEnvelope("create-webhook-subscription", "createWebhookSubscription")
    ensures WithErrorHandling(DeleteWebhookSubscription(None), "delete-webhook-subscription")
         == NullClientEnvelope("delete-webhook-subscription", "deleteWebhookSubscription")
  {
    NullClientText("get-webhook-subscription", "getWebhookSubscription");
    NullClientText("create-webhook-subscription", "createWebhookSubscription");
    NullClientText("delete-webhook-subscription", "deleteWebhookSubscription");
  }
}
