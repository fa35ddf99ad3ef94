/**
  The MCP tool response envelope and the three success builders
  (src/utils/response-formatter.ts). A success envelope holds exactly one
  content item of kind "text" and carries no isError flag.
 */
module ResponseFormatter {
  import opened Wrappers
  import opened Json

  datatype ContentItem = ContentItem(kind: string, text: string)

  /** `{ content: [...], isError?: boolean }`; `isError` is None when the field is absent. */
  datatype Envelope = Envelope(content: seq<ContentItem>, isError: Option<bool>)

  /** The shape every builder produces: exactly one item, of kind "text". */
  predicate SingleText(e: Envelope) {
    |e.content| == 1 && e.content[0].kind == "text"
  }

  /** A success envelope whose only text is `t`. */
  predicate SuccessWithText(e: Envelope, t: string) {
    SingleText(e) && e.isError.None? && e.content[0].text == t
  }

  /** `{ pretty?: boolean, indent?: number }`. */
  datatype JsonFormatOptions = JsonFormatOptions(pretty: Option<bool>, indent: Option<int>)

  /** The options used when the caller passes none. */
  const DefaultJsonOptions := JsonFormatOptions(Some(true), Some(2))

  /**
    The JSON text `createJsonResponse(data, options)` puts in its envelope:
    the indented form when `pretty` is set (an absent indent serialises
    compactly), the compact form otherwise.
   */
  function JsonText(data: Json, options: Option<JsonFormatOptions>): string {
    var opts := options.GetOr(DefaultJsonOptions);
    if opts.pretty == Some(true) then
      match opts.indent
      case Some(n) => StringifyIndented(data, n)
      case None => Stringify(data)
    else Stringify(data)
  }

  function CreateJsonResponse(data: Json, options: Option<JsonFormatOptions>): (r: Envelope)
    ensures SuccessWithText(r, JsonText(data, options))
  {
    Envelope([ContentItem("text", JsonText(data, options))], None)
  }

  function CreateTextResponse(message: string): (r: Envelope)
    ensures SuccessWithText(r, message)
  {
    Envelope([ContentItem("text", message)], None)
  }

  /** The message used when `createEmptyResponse` gets none. */
  const NoDataFound := "No data found"

  function CreateEmptyResponse(message: Option<string>): (r: Envelope)
    ensures SuccessWithText(r, message.GetOr(NoDataFound))
  {
    Envelope([ContentItem("text", message.GetOr(NoDataFound))], None)
  }

  /** Without options the JSON is indented by two spaces; with `pretty: false` it is compact. */
  lemma JsonTextDefaults(data: Json, indent: Option<int>)
    ensures JsonText(data, None) == StringifyIndented(data, 2)
    ensures JsonText(data, Some(JsonFormatOptions(Some(false), indent))) == Stringify(data)
    ensures JsonText(data, Some(JsonFormatOptions(None, indent))) == Stringify(data)
    ensures JsonText(data, Some(JsonFormatOptions(Some(true), None))) == Stringify(data)
  {
  }

  /** Passing `{ pretty: true, indent: 2 }` explicitly is the same as passing nothing. */
  lemma ExplicitDefaultOptions(data: Json)
    ensures CreateJsonResponse(data, Some(DefaultJsonOptions)) == CreateJsonResponse(data, None)
  {
  }
}
