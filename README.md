# LINE travel bot: routing, function-call orchestration and POI rendering

This project models the decision and assembly layer of a LINE chat bot
that recommends travel destinations. The bot receives webhook events. It
passes text messages to a chat-completion model that declares one
function, `search_poi(keyword)`. It sends the extracted keyword to a
point-of-interest (POI) search service. A second, summary turn of the model
then turns the search result into text. The reply is that text alone when
nothing was found, and a flex carousel of the POIs followed by the text
otherwise.

Every remote call is a parameter of the model:

- `Services.chat` stands for `OpenAIChatFuncCall`.
- `Services.searchPoi` stands for `SearchPOI`.
- The client argument of `GptCompleteContext` stands for the go-openai client.

The first two map their request to Go's `([]byte, error)` pair
(`RemoteResult`). The go-openai client maps its request to the contents of
the choices or an error message (`CompletionResult`).
Every JSON decode (`json.Unmarshal`) is a field of `Decoders` that either
gives a value or fails. The model returns each reply together with the list
of remote calls it made, so statements such as "no second search" can be
written down. The project is one file per module:

- `strings.dfy`: `Strings`, the Go `strings` functions the bot uses.
- `poi.dfy`: `Poi`, the search reply shape.
- `completion.dfy`: `Completion`, the request and reply shapes of the chat-completion API.
- `tools.dfy`: `Tools`, the decode-with-default helpers of tools.go.
- `chatgpt.dfy`: `ChatGpt`, the request builders, `gptFuncCall` and `gptCompleteContext`.
- `bot.dfy`: `Bot`, bot.go.
- `wrappers.dfy`: `Wrappers`, an `Option` type.

Behaviour of the code that the model keeps:

- A POI search is issued even when the keyword is "" (chatgpt.go:90-91).
- When no POI is found there is no rewrite turn and no second search. The not-found prompt is put in front of the text, and the summary turn runs on the empty result (bot.go:60-68; the rewrite at bot.go:61-63 is commented out).
- A group or room message must contain `:gpt` (bot.go:36-40).
- The assistant turn of the summary transcript replays the bare keyword as `function_call.arguments`, not the JSON arguments the model produced (chatgpt.go:165-168, bot.go:65 and 71).
- Errors are not typed. A failed summary call sends nothing (bot.go:65-74). A summary reply with no choices panics at `Choices[0]` (bot.go:80); the model shows this as the `Panicked` reply. Nothing in the bot recovers the panic; it unwinds `callbackHandler` (the HTTP server catches it), so the webhook loop ends there and later events of the batch are not handled. A content that is not a string becomes an empty reply text.

## Model

| member | source | states |
|---|---|---|
| `Strings.Contains` | bot.go:38 | `strings.Contains`: some position holds the pattern; the empty pattern occurs in every text, as in Go, and a pattern longer than the text never occurs. `Strings.OccurrenceIsContained` is the lemma that an occurrence makes the text contain it |
| `Strings.TrimPrefix` | bot.go:53 | the result is the text with one leading `:gpt` removed (text == prefix + result), or the text unchanged when it does not start with it |
| `Strings.TrimPrefixOnce` | bot.go:53 | only one copy of the prefix is removed, even when the rest starts with it again |
| `Strings.TrimPrefixKeepsLaterOccurrences` | bot.go:53 | any occurrence other than the stripped leading one survives, shifted by the prefix length |
| `Bot.StrippedKeepsOtherTriggers` | bot.go:53 | a `:gpt` anywhere but at the start is still in the text handed to the assistant |
| `Tools.HandlePOIResponse` | tools.go:9-17 | the decoded POI reply, or an empty POI list when decoding fails |
| `Tools.HandleArgument` | tools.go:19-27 | the decoded arguments, or the empty keyword when decoding fails |
| `Tools.HandleFuncCallResponse` | tools.go:29-37 | the decoded completion reply, or the zero reply with no choices when decoding fails |
| `Tools.NonJsonDecodesToZero` | tools.go:9-37 | with a decoder that rejects non-JSON text, such a text yields no POIs, an empty keyword and no choices |
| `Tools.InterfaceToString` | tools.go:39-45 | no error iff the value is a string, and then that string; "" and the fixed error for every other value, null included |
| `ChatGpt.GetQueryString` | chatgpt.go:126-152 | model gpt-4o, exactly one user turn carrying the text, exactly the `search_poi` declaration with a required string `keyword`, and a well-formed function-calling transcript |
| `ChatGpt.GetSummaryString` | chatgpt.go:154-193 | exactly three turns: user with the text; assistant with null content calling `search_poi` with the given arguments; function `search_poi` with the result. Same single declaration, and well-formed |
| `ChatGpt.SummaryExtendsQuery` | chatgpt.go:126-193 | the summary transcript opens with the extraction transcript of the same text, with the same model and declarations |
| `ChatGpt.GptFuncCall` | chatgpt.go:73-93 | the first remote call is the extraction request for the text; at most two calls and at most one POI search |
| `ChatGpt.ExtractCallFails` | chatgpt.go:77-80 | a failed chat call yields ("", "") and no POI search |
| `ChatGpt.ExtractNoChoices` | chatgpt.go:82-88 | a reply with no choices yields the sentinel pair ("無 keyword", "資料有誤，請重新查詢") and no POI search |
| `ChatGpt.ExtractSearchesKeyword` | chatgpt.go:89-92 | otherwise the keyword is the one decoded from choice 0's arguments ("" when they do not decode); the POI service is asked for exactly that keyword; its body is returned whatever its error |
| `ChatGpt.CompleteContextRequest` | chatgpt.go:49-57 | the plain completion request: gpt-3.5-turbo, one user turn, no functions, well-formed |
| `ChatGpt.GptCompleteContext` | chatgpt.go:44-71 | "Err: " followed by the client error, or the content of the first choice |
| `Bot.IsGroupEvent` | bot.go:109-111 | true iff the group id or the room id is non-empty |
| `Bot.ShouldHandle` | bot.go:31-44 | a text message event, which in a group or room must contain `:gpt`; every 1:1 text message passes |
| `Bot.GetGroupId` | bot.go:109-121 | non-empty iff the event is a group or room event; the group id when present, else the room id |
| `Bot.RoutingRule` | bot.go:30-47 | non-message events and non-text messages are ignored; a 1:1 text always goes through; a group or room text goes through iff it contains `:gpt` |
| `Bot.Routed` | bot.go:30-47 | the events that pass the dispatch rule, in order; all of them pass it, and they are no more than the batch |
| `Bot.RoutedMembers` | bot.go:30-47 | an event passes the dispatch filter iff it is in the batch and meets the dispatch rule |
| `Bot.CallbackHandler` | bot.go:30-47 | the loop over the events produces exactly the handlings of the specification `Deliveries`, in event order, and stops after the first that panics; a `NoReply` handling sends nothing |
| `Bot.DeliveriesFollowRouting` | bot.go:30-47 | one handling per event that passes the dispatch rule, in order, answering its reply token with the handling of its text, up to and including the first that panics; no handling before the last panics, and when some routed events get no handling the last one did panic |
| `Bot.HandleEvent` | bot.go:31-45 | the loop body for one event hands the text to the handler exactly when the dispatch rule holds, and gives that handling |
| `Bot.PanicStopsBatch` | bot.go:30-47 | once a prefix of the batch has panicked, the later events add no handling and no remote call |
| `Bot.BubbleFor` | bot.go:137-192 | nickname line is the first nickname or else the name; hero image is the cover photo or else the not-found image, so never empty; the button opens the POI page |
| `Bot.GetPoisFlexBubble` | bot.go:129-195 | one bubble per record, in record order, each the bubble of that record; none for no records |
| `Bot.ColumnFor` | bot.go:204-211 | a carousel column: cover photo as is, name as title, first nickname as text, button to the POI page |
| `Bot.GetPoisCarouseTemplate` | bot.go:197-216 | no template iff there are no records, else one column per record in order; requires every record to have a nickname (the source indexes `Nickname[0]` unguarded) |
| `Bot.HandleGpt` | bot.go:50-107 | the step-by-step handler, with its `gptMsg` flag, produces exactly the reply and calls of the specification `Respond` |
| `Bot.OneSummaryTurn` | bot.go:54-75 | the calls are the extraction's calls followed by one summary call; at most one POI search; the first call is the extraction request for the stripped text |
| `Bot.NotFoundBranch` | bot.go:60-85 | no POIs: the summary user turn is the not-found prompt followed by the text, and the reply, if any, is text only |
| `Bot.FoundBranch` | bot.go:69-96 | some POIs: the summary user turn is the text, and the reply, if any, is the flex carousel of one bubble per POI in order, followed by text |
| `Bot.SummaryRestatesQueryIffFound` | bot.go:60-75 | the summary user turn equals the extraction user turn iff POIs were found |
| `Bot.SummarySuccessReplies` | bot.go:77-96 | a summary call that succeeds and decodes to some choice always replies: `TextOnly` of the summary text when no POI was found, else the carousel of one bubble per POI followed by the summary text |
| `Bot.NoReplyIffSummaryFails` | bot.go:65-96 | nothing is sent exactly when the summary call fails |
| `Bot.SummaryFailureSendsNothing` | bot.go:65-74 | a failed summary call sends no reply |
| `Bot.SummaryWithoutChoicesPanics` | bot.go:78-80 | a summary reply with no choices, whether undecodable or a decodable object such as an API error, reaches the unguarded `Choices[0]` |
| `Bot.ReplyTextIsContent` | bot.go:80-96 | the text sent is choice 0's content when it is a string, and "" otherwise |
| `Bot.ExtractFailureFallsBack` | bot.go:54-68 | with a decoder that rejects non-JSON text, a failed extraction call or one with no choices leads to the not-found branch, no POI search and no carousel |
| `Bot.FailedSearchFallsBack` | chatgpt.go:91-92 | with a decoder that rejects non-JSON text, a POI search that fails with a nil body (poi.go:38-45) leads to the not-found prompt and no carousel |
| `Bot.EmptyKeywordStillSearched` | chatgpt.go:89-92 | arguments that do not decode give the keyword "", and the POI service is still asked for "" |

## Left out

- Webhook parsing and the status codes for a bad signature (bot.go:19-28): HTTP plumbing. `CallbackHandler` starts from the parsed events.
- `OpenAIChatFuncCall`, `SearchPOI` and the go-openai client call: network I/O. They are the parameters `Services.chat`, `Services.searchPoi` and the client of `GptCompleteContext`. That a failed `OpenAIChatFuncCall` returns a nil body is not modelled, because the code never reads that body after an error (chatgpt.go:77-80).
- The body of a failing `SearchPOI` is left unconstrained: it is nil for `ErrMarshal` and `ErrRequest` (poi.go:38-45), but whatever `io.ReadAll` had read when reading fails (poi.go:48). `gptFuncCall` keeps that body and ignores the error (chatgpt.go:91-92). `Bot.FailedSearchFallsBack` covers the nil case.
- Remote replies are modelled as a function of the request: the same request always gets the same reply, so two events with the same text in one batch get the same handling. The real services need not behave that way, and no stated property depends on it.
- JSON marshalling and unmarshalling: each decode is an abstract partial function. `RejectsNonJson` states the only property of `encoding/json` used: a text that cannot start a JSON value is rejected.
- `[]byte` and `string` are both modelled as `string`, because the code converts between them without change. A Dafny string is a sequence of Unicode code points, while Go's `strings.Contains` and `strings.TrimPrefix` work on bytes; for the ASCII trigger `:gpt` on valid UTF-8 text, which LINE delivers, the results are the same.
- Sending the reply (`bot.ReplyMessage(...).Do()`), `sendCarouselMessage`, and the logging of a send or marshal failure: LINE SDK I/O. The model returns the reply that would be sent.
- Flex styling (weights, sizes, aspect ratio, bubble size): SDK rendering detail. A bubble keeps only its texts, image URL and button.
- `GetPoisFlexBubble`: does not distinguish Go's nil slice from an empty one.
- Logging, the package globals (`bot`, `client`, `apiKey`, `httpClient`) and the endpoint URLs: configuration and I/O.
- The declaration of `GPT_ACTIONS` is not part of this model: `GptAction` has the one case `handleGPT` handles and a catch-all.
- `GptCompleteContext`: requires a successful client reply to have a choice, because the source indexes `Choices[0]` unguarded. No caller in the code reaches it; its one call is commented out.
- Concurrency and floating point do not occur. JSON numbers keep their literal text.
