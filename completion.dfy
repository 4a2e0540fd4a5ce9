/** The wire shapes of the chat-completion API as chatgpt.go uses them:
    the decoded reply (`ChatCompletionResponse`, `Arguments`) and the
    request body that `getQueryString` / `getSummaryString` build as a
    `map[string]interface{}` literal, here given a fixed record shape. */
module Completion {
  import opened Wrappers

  /** A decoded JSON value of Go type `interface{}`. Numbers keep their
      literal text: no floating point is modelled. */
  datatype Dynamic =
    | Null
    | Bool(b: bool)
    | Number(literal: string)
    | Str(s: string)
    | Array(items: seq<Dynamic>)
    | Object(members: seq<(string, Dynamic)>)

  /** The JSON object carried, as a string, in `function_call.arguments`. */
  datatype Arguments = Arguments(keyword: string)

  /** `function_call`: name of the function to call and its arguments,
      themselves a JSON text. */
  datatype FunctionCall = FunctionCall(name: string, arguments: string)

  datatype ReplyMessage = ReplyMessage(role: string, content: Dynamic, functionCall: FunctionCall)

  datatype Choice = Choice(index: int, message: ReplyMessage, finishReason: string)

  datatype Usage = Usage(promptTokens: int, completionTokens: int, totalTokens: int)

  /** `ChatCompletionResponse`; `created` is a Go int64, kept unbounded
      because the model never computes with it. */
  datatype ChatCompletionResponse = ChatCompletionResponse(
    id: string,
    object: string,
    created: int,
    model: string,
    choices: seq<Choice>,
    usage: Usage)

  /** One entry of the request's `messages`. `content == None` is an
      explicit JSON null; `name == None` and `functionCall == None` mean
      the key is not written at all. */
  datatype Turn = Turn(
    role: string,
    content: Option<string>,
    name: Option<string>,
    functionCall: Option<FunctionCall>)

  datatype PropertySchema = PropertySchema(typ: string, description: string)

  /** The JSON-schema object under `parameters`. */
  datatype Parameters = Parameters(
    typ: string,
    properties: map<string, PropertySchema>,
    required: seq<string>)

  /** One entry of the request's `functions`. */
  datatype FunctionDecl = FunctionDecl(name: string, description: string, parameters: Parameters)

  /** A chat-completion request body. */
  datatype ChatRequest = ChatRequest(model: string, messages: seq<Turn>, functions: seq<FunctionDecl>)
}
