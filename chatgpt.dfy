/** The chat-completion side of the bot (chatgpt.go): the two request
    builders, the keyword-extraction step `gptFuncCall` and the plain
    completion `gptCompleteContext`. The HTTP call `OpenAIChatFuncCall`,
    the POI service call `SearchPOI` and the go-openai client are not
    modelled: each is a parameter that maps the request it is given to
    what Go hands back. */
module ChatGpt {
  import opened Wrappers
  import opened Completion
  import opened Tools

  const Gpt4o := "gpt-4o"
  const Gpt35Turbo := "gpt-3.5-turbo"
  const SearchPoiName := "search_poi"

  /** Sentinel pair returned when the extraction reply has no choices. */
  const NoKeyword := "無 keyword"
  const BadData := "資料有誤，請重新查詢"

  /** The one function every request declares. */
  const SearchPoiFunction := FunctionDecl(
    SearchPoiName,
    "Get the keyword about travel information",
    Parameters(
      "object",
      map["keyword" := PropertySchema("string", "The city and state, e.g. San Francisco, CA")],
      ["keyword"]))

  /** Go's `([]byte, error)` result of a remote call. */
  datatype RemoteResult = RemoteResult(body: string, err: Option<string>)

  /** The remote collaborators: the function-calling chat endpoint and the
      POI search endpoint (called with the keyword). */
  datatype Services = Services(
    chat: ChatRequest -> RemoteResult,
    searchPoi: string -> RemoteResult)

  /** One outbound remote call, in the order they are made. */
  datatype Call = ChatCall(request: ChatRequest) | PoiSearch(keyword: string)

  /** Number of POI searches among `calls`. */
  function Searches(calls: seq<Call>): (n: nat)
    ensures n <= |calls|
  {
    if calls == [] then 0
    else Searches(calls[..|calls| - 1]) + (if calls[|calls| - 1].PoiSearch? then 1 else 0)
  }

  lemma {:induction false} SearchesAppend(a: seq<Call>, b: seq<Call>)
    ensures Searches(a + b) == Searches(a) + Searches(b)
    decreases |b|
  {
    if b == [] {
      assert a + b == a;
    } else {
      var b' := b[..|b| - 1];
      assert (a + b)[..|a + b| - 1] == a + b';
      SearchesAppend(a, b');
    }
  }

  /** Whether `n` is the name of a function `r` declares. */
  ghost predicate Declares(r: ChatRequest, n: string)
  {
    exists j | 0 <= j < |r.functions| :: r.functions[j].name == n
  }

  /** The function-calling transcript rules of the chat-completion API,
      stated independently of the builders: a non-empty transcript that
      opens with a user turn; known roles only; a `function_call` only on an
      assistant turn and naming a declared function; a function turn
      carries a name and answers the assistant call just before it; a
      `name` key only on function turns; a null content only on an
      assistant turn that makes a call; declared functions have distinct
      names. */
  ghost predicate WellFormed(r: ChatRequest)
  {
    && |r.messages| >= 1
    && r.messages[0].role == "user"
    && (forall i | 0 <= i < |r.messages| ::
          r.messages[i].role in {"system", "user", "assistant", "function"})
    && (forall i | 0 <= i < |r.messages| :: r.messages[i].functionCall.Some? ==>
          r.messages[i].role == "assistant" && Declares(r, r.messages[i].functionCall.value.name))
    && (forall i | 0 <= i < |r.messages| :: r.messages[i].role == "function" ==>
          && 0 < i
          && r.messages[i].name.Some?
          && r.messages[i - 1].functionCall.Some?
          && r.messages[i - 1].functionCall.value.name == r.messages[i].name.value)
    && (forall i | 0 <= i < |r.messages| :: r.messages[i].name.Some? ==> r.messages[i].role == "function")
    && (forall i | 0 <= i < |r.messages| :: r.messages[i].content.None? ==>
          r.messages[i].role == "assistant" && r.messages[i].functionCall.Some?)
    && (forall j, k | 0 <= j < k < |r.functions| :: r.functions[j].name != r.functions[k].name)
  }

  /** The request declares exactly one function, `search_poi`, taking an
      object whose one required property `keyword` is a string. */
  ghost predicate DeclaresOnlySearchPoi(r: ChatRequest)
  {
    && |r.functions| == 1
    && r.functions[0].name == SearchPoiName
    && r.functions[0].parameters.typ == "object"
    && "keyword" in r.functions[0].parameters.properties
    && r.functions[0].parameters.properties["keyword"].typ == "string"
    && r.functions[0].parameters.required == ["keyword"]
  }

  /** A user turn with text `content`. */
  function UserTurn(content: string): Turn
  {
    Turn("user", Some(content), None, None)
  }

  /** `getQueryString`: the one-turn extraction request. */
  function GetQueryString(msg: string): (r: ChatRequest)
    ensures r.model == Gpt4o
    ensures |r.messages| == 1 && r.messages[0].role == "user" && r.messages[0].content == Some(msg)
    ensures DeclaresOnlySearchPoi(r)
    ensures WellFormed(r)
  {
    ChatRequest(Gpt4o, [UserTurn(msg)], [SearchPoiFunction])
  }

  /** `getSummaryString`: the three-turn summary transcript that replays
      the user's text, the assistant's `search_poi` call with `arg` as its
      arguments, and the function's answer `result`. */
  function GetSummaryString(msg: string, arg: string, result: string): (r: ChatRequest)
    ensures r.model == Gpt4o
    ensures |r.messages| == 3
    ensures r.messages[0].role == "user" && r.messages[0].content == Some(msg)
    ensures r.messages[1].role == "assistant" && r.messages[1].content.None?
    ensures r.messages[1].functionCall == Some(FunctionCall(SearchPoiName, arg))
    ensures r.messages[2].role == "function" && r.messages[2].name == Some(SearchPoiName)
    ensures r.messages[2].content == Some(result)
    ensures DeclaresOnlySearchPoi(r)
    ensures WellFormed(r)
  {
    var r := ChatRequest(
      Gpt4o,
      [ UserTurn(msg),
        Turn("assistant", None, None, Some(FunctionCall(SearchPoiName, arg))),
        Turn("function", Some(result), Some(SearchPoiName), None) ],
      [SearchPoiFunction]);
    assert Declares(r, SearchPoiName) by { assert r.functions[0].name == SearchPoiName; }
    r
  }

  /** The summary transcript continues the extraction transcript of the
      same text: same model, same declarations, same opening turn. */
  lemma SummaryExtendsQuery(msg: string, arg: string, result: string)
    ensures GetSummaryString(msg, arg, result).messages[..1] == GetQueryString(msg).messages
    ensures GetSummaryString(msg, arg, result).functions == GetQueryString(msg).functions
    ensures GetSummaryString(msg, arg, result).model == GetQueryString(msg).model
  {
  }

  /** What `gptFuncCall` returns, with the remote calls it made. */
  datatype Extraction = Extraction(keyword: string, poiJson: string, calls: seq<Call>)

  /** `gptFuncCall`: ask the model for a `search_poi` keyword, then search
      for it. A failed chat call yields ("", "") and no search; a reply with
      no choices yields the sentinel pair and no search; otherwise the POI
      service is asked for the decoded keyword, even "", and its body is
      returned whatever its error. */
  function GptFuncCall(msg: string, svc: Services, dec: Decoders): (x: Extraction)
    ensures 1 <= |x.calls| <= 2 && x.calls[0] == ChatCall(GetQueryString(msg))
    ensures Searches(x.calls) <= 1
  {
    var query := GetQueryString(msg);
    var result := svc.chat(query);
    if result.err.Some? then
      Extraction("", "", [ChatCall(query)])
    else
      var catResponse := HandleFuncCallResponse(result.body, dec);
      if |catResponse.choices| == 0 then
        Extraction(NoKeyword, BadData, [ChatCall(query)])
      else
        var arg := HandleArgument(catResponse.choices[0].message.functionCall.arguments, dec);
        var calls := [ChatCall(query), PoiSearch(arg.keyword)];
        assert calls[..1] == [ChatCall(query)];
        Extraction(arg.keyword, svc.searchPoi(arg.keyword).body, calls)
  }

  /** The chat call failed: ("", ""), and the POI service is not asked. */
  lemma ExtractCallFails(msg: string, svc: Services, dec: Decoders)
    requires svc.chat(GetQueryString(msg)).err.Some?
    ensures GptFuncCall(msg, svc, dec) == Extraction("", "", [ChatCall(GetQueryString(msg))])
    ensures Searches(GptFuncCall(msg, svc, dec).calls) == 0
  {
  }

  /** The decoded reply has no choices (undecodable bodies included): the
      sentinel pair, and the POI service is not asked. */
  lemma ExtractNoChoices(msg: string, svc: Services, dec: Decoders)
    requires svc.chat(GetQueryString(msg)).err.None?
    requires HandleFuncCallResponse(svc.chat(GetQueryString(msg)).body, dec).choices == []
    ensures GptFuncCall(msg, svc, dec).keyword == NoKeyword
    ensures GptFuncCall(msg, svc, dec).poiJson == BadData
    ensures Searches(GptFuncCall(msg, svc, dec).calls) == 0
  {
  }

  /** Otherwise the keyword is the one decoded from the first choice's
      function-call arguments ("" when they do not decode), the POI service
      is asked for exactly that keyword, and its body is passed on even
      when the service reported an error. */
  lemma ExtractSearchesKeyword(msg: string, svc: Services, dec: Decoders)
    requires svc.chat(GetQueryString(msg)).err.None?
    requires HandleFuncCallResponse(svc.chat(GetQueryString(msg)).body, dec).choices != []
    ensures var args := HandleFuncCallResponse(svc.chat(GetQueryString(msg)).body, dec)
                          .choices[0].message.functionCall.arguments;
            var x := GptFuncCall(msg, svc, dec);
            && x.keyword == HandleArgument(args, dec).keyword
            && (dec.arguments(args).None? ==> x.keyword == "")
            && x.calls == [ChatCall(GetQueryString(msg)), PoiSearch(x.keyword)]
            && x.poiJson == svc.searchPoi(x.keyword).body
  {
  }

  /** The go-openai client's answer: the contents of the choices, or an
      error message. */
  datatype CompletionResult = Completed(contents: seq<string>) | ClientError(message: string)

  /** The request `gptCompleteContext` sends: one user turn, no functions. */
  function CompleteContextRequest(ori: string): (r: ChatRequest)
    ensures r.model == Gpt35Turbo && r.messages == [UserTurn(ori)] && r.functions == []
    ensures WellFormed(r)
  {
    ChatRequest(Gpt35Turbo, [UserTurn(ori)], [])
  }

  /** `gptCompleteContext`: "Err: " followed by the client's error, or the
      content of the first choice, which the source reads unguarded. */
  function GptCompleteContext(ori: string, complete: ChatRequest -> CompletionResult): (ret: string)
    requires complete(CompleteContextRequest(ori)).Completed? ==>
               complete(CompleteContextRequest(ori)).contents != []
    ensures complete(CompleteContextRequest(ori)).ClientError? ==>
              ret == "Err: " + complete(CompleteContextRequest(ori)).message
    ensures complete(CompleteContextRequest(ori)).Completed? ==>
              ret == complete(CompleteContextRequest(ori)).contents[0]
  {
    match complete(CompleteContextRequest(ori))
    case ClientError(e) => "Err: " + e
    case Completed(contents) => contents[0]
  }
}
