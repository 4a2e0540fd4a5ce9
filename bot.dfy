/** The LINE webhook side of the bot (bot.go): which events reach the
    assistant, how one text becomes a reply, and how POI records become
    flex bubbles or carousel columns. Sending the reply through the LINE
    SDK is not modelled: the model returns the reply that would be sent. */
module Bot {
  import opened Wrappers
  import opened Strings
  import opened Poi
  import opened Completion
  import opened Tools
  import opened ChatGpt

  const ImgNotFound := "https://www.salonlfc.com/wp-content/uploads/2018/01/image-not-found-scaled-1150x647.png"
  const AltTravelFlex := "旅遊小幫手幫你推薦的景點"
  const PromptNotFound := "你是一個想要去旅行社的導遊，你根據以下的對話來推薦台灣行程，如果對話內容跟旅遊無關，請給予旅遊相關的建議。 \n----\n"

  /** Text that must appear in a group or room message, and that is
      removed when it opens the message. */
  const Trigger := ":gpt"

  const FlexButtonLabel := "帶我去"
  const CarouselButtonLabel := "👉 點我打開"

  // ---------------------------------------------------------------------
  // Inbound events

  datatype EventType = MessageEvent | OtherEvent(name: string)

  datatype EventMessage = TextMessage(text: string) | OtherMessage(kind: string) | NoMessage

  /** Where an event comes from; an id the event does not carry is "". */
  datatype Source = Source(userId: string, groupId: string, roomId: string)

  datatype Event = Event(typ: EventType, source: Source, message: EventMessage, replyToken: string)

  /** `isGroupEvent`. */
  predicate IsGroupEvent(src: Source)
    ensures IsGroupEvent(src) <==> !(src.groupId == "" && src.roomId == "")
  {
    src.groupId != "" || src.roomId != ""
  }

  /** `getGroupID`: the group id, else the room id, else "". */
  function GetGroupId(src: Source): (r: string)
    ensures r != "" <==> IsGroupEvent(src)
    ensures src.groupId != "" ==> r == src.groupId
    ensures src.groupId == "" ==> r == src.roomId
  {
    if src.groupId != "" then src.groupId
    else if src.roomId != "" then src.roomId
    else ""
  }

  /** The dispatch rule of `callbackHandler`: a text message, which in a
      group or room must contain the trigger. */
  predicate ShouldHandle(e: Event)
    ensures ShouldHandle(e) ==> e.typ == MessageEvent && e.message.TextMessage?
    ensures ShouldHandle(e) && IsGroupEvent(e.source) ==> Contains(e.message.text, Trigger)
    ensures e.typ == MessageEvent && e.message.TextMessage? && !IsGroupEvent(e.source) ==> ShouldHandle(e)
    ensures e.typ == MessageEvent && e.message.TextMessage? && Contains(e.message.text, Trigger) ==> ShouldHandle(e)
  {
    && e.typ == MessageEvent
    && e.message.TextMessage?
    && (IsGroupEvent(e.source) ==> Contains(e.message.text, Trigger))
  }

  // ---------------------------------------------------------------------
  // POI rendering

  /** The parts of a flex bubble the bot fills in: the name, the nickname
      line, the hero image and the button. */
  datatype Bubble = Bubble(
    name: string,
    nickname: string,
    heroUrl: string,
    buttonLabel: string,
    buttonUri: string)

  /** The bubble for one POI: the first nickname or, when there is none,
      the name; the cover photo or, when it is "", the not-found image. */
  function BubbleFor(p: PoiRecord): (b: Bubble)
    ensures b.name == p.name && b.buttonUri == p.poiUrl && b.buttonLabel == FlexButtonLabel
    ensures p.nickname != [] ==> b.nickname == p.nickname[0]
    ensures p.nickname == [] ==> b.nickname == p.name
    ensures p.coverPhoto != "" ==> b.heroUrl == p.coverPhoto
    ensures p.coverPhoto == "" ==> b.heroUrl == ImgNotFound
    ensures b.heroUrl != ""
  {
    Bubble(
      p.name,
      if |p.nickname| > 0 then p.nickname[0] else p.name,
      if p.coverPhoto != "" then p.coverPhoto else ImgNotFound,
      FlexButtonLabel,
      p.poiUrl)
  }

  /** The bubbles for a list of POIs, one per record, in order. */
  function FlexBubbles(pois: seq<PoiRecord>): (bs: seq<Bubble>)
  {
    seq(|pois|, i requires 0 <= i < |pois| => BubbleFor(pois[i]))
  }

  /** `getPOIsFlexBubble`: nothing for no POIs, else one bubble per record
      in the order of the records. */
  method GetPoisFlexBubble(records: ResponsePOI) returns (columnList: seq<Bubble>)
    ensures |columnList| == |records.pois|
    ensures forall i :: 0 <= i < |records.pois| ==> columnList[i] == BubbleFor(records.pois[i])
  {
    if |records.pois| == 0 {
      return [];
    }
    columnList := [];
    var k := 0;
    while k < |records.pois|
      invariant 0 <= k <= |records.pois|
      invariant |columnList| == k
      invariant forall i :: 0 <= i < k ==> columnList[i] == BubbleFor(records.pois[i])
    {
      var result := records.pois[k];
      var nickN := result.name;
      if |result.nickname| > 0 {
        nickN := result.nickname[0];
      }
      var coverPhoto := ImgNotFound;
      if result.coverPhoto != "" {
        coverPhoto := result.coverPhoto;
      }
      columnList := columnList + [Bubble(result.name, nickN, coverPhoto, FlexButtonLabel, result.poiUrl)];
      k := k + 1;
    }
  }

  datatype UriAction = UriAction(actionLabel: string, uri: string)

  datatype CarouselColumn = CarouselColumn(
    thumbnailImageUrl: string,
    title: string,
    text: string,
    action: UriAction)

  datatype CarouselTemplate = CarouselTemplate(columns: seq<CarouselColumn>)

  /** A carousel column: cover photo as is (no fallback), name as title,
      first nickname as text. */
  function ColumnFor(p: PoiRecord): (c: CarouselColumn)
    requires p.nickname != []
    ensures c.thumbnailImageUrl == p.coverPhoto && c.title == p.name
    ensures c.text == p.nickname[0]
    ensures c.action == UriAction(CarouselButtonLabel, p.poiUrl)
  {
    CarouselColumn(p.coverPhoto, p.name, p.nickname[0], UriAction(CarouselButtonLabel, p.poiUrl))
  }

  /** `getPOIsCarouseTemplate`: no template (nil) for no POIs, else one
      column per record in order. The source reads `Nickname[0]` without a
      length check, so every record must have a nickname. */
  method GetPoisCarouseTemplate(records: ResponsePOI) returns (template: Option<CarouselTemplate>)
    requires forall i :: 0 <= i < |records.pois| ==> records.pois[i].nickname != []
    ensures template.None? <==> records.pois == []
    ensures template.Some? ==> |template.value.columns| == |records.pois|
    ensures template.Some? ==> forall i :: 0 <= i < |records.pois| ==>
              template.value.columns[i] == ColumnFor(records.pois[i])
  {
    if |records.pois| == 0 {
      return None;
    }
    var columnList: seq<CarouselColumn> := [];
    var k := 0;
    while k < |records.pois|
      invariant 0 <= k <= |records.pois|
      invariant |columnList| == k
      invariant forall i :: 0 <= i < k ==> columnList[i] == ColumnFor(records.pois[i])
    {
      var result := records.pois[k];
      var tmpColumn := CarouselColumn(
        result.coverPhoto, result.name, result.nickname[0],
        UriAction(CarouselButtonLabel, result.poiUrl));
      columnList := columnList + [tmpColumn];
      k := k + 1;
    }
    template := Some(CarouselTemplate(columnList));
  }

  // ---------------------------------------------------------------------
  // Handling one text

  /** The `GPT_ACTIONS` selector of `handleGPT`; its declaration is not
      part of this model, and only the function-call action has a case. */
  datatype GptAction = FunctionCallAction | OtherAction(code: int)

  /** What is sent back for one text. `Panicked` stands for the index out
      of range at `catResponse.Choices[0]` when the summary reply has no
      choices. */
  datatype Reply =
    | NoReply
    | Panicked
    | TextOnly(text: string)
    | FlexAndText(altText: string, bubbles: seq<Bubble>, text: string)

  /** The reply together with every remote call made for it, in order. */
  datatype Handling = Handling(reply: Reply, calls: seq<Call>)

  /** The text handed to the assistant. */
  function Stripped(message: string): string
  {
    TrimPrefix(message, Trigger)
  }

  function ExtractFor(message: string, svc: Services, dec: Decoders): Extraction
  {
    GptFuncCall(Stripped(message), svc, dec)
  }

  /** The POIs the reply is built from. */
  function PoisFor(message: string, svc: Services, dec: Decoders): seq<PoiRecord>
  {
    HandlePOIResponse(ExtractFor(message, svc, dec).poiJson, dec).pois
  }

  /** The user turn of the summary request: the not-found prompt in front
      of the text when there are no POIs, the text alone otherwise. */
  function SummaryPrompt(message: string, svc: Services, dec: Decoders): string
  {
    if PoisFor(message, svc, dec) == [] then PromptNotFound + Stripped(message) else Stripped(message)
  }

  function SummaryRequestFor(message: string, svc: Services, dec: Decoders): ChatRequest
  {
    var x := ExtractFor(message, svc, dec);
    GetSummaryString(SummaryPrompt(message, svc, dec), x.keyword, x.poiJson)
  }

  /** The reply text: the first choice's content when it is a string, "". */
  function SummaryText(cat: ChatCompletionResponse): string
    requires cat.choices != []
  {
    InterfaceToString(cat.choices[0].message.content).value
  }

  /** What `handleGPT` does with one text: extract and search, one summary
      turn, then text alone for no POIs or a carousel and text otherwise;
      nothing when the summary call fails. */
  function Respond(action: GptAction, message: string, svc: Services, dec: Decoders): Handling
  {
    match action
    case OtherAction(_) => Handling(NoReply, [])
    case FunctionCallAction =>
      var x := ExtractFor(message, svc, dec);
      var pois := PoisFor(message, svc, dec);
      var request := SummaryRequestFor(message, svc, dec);
      var calls := x.calls + [ChatCall(request)];
      var summary := svc.chat(request);
      if summary.err.Some? then Handling(NoReply, calls)
      else
        var cat := HandleFuncCallResponse(summary.body, dec);
        if cat.choices == [] then Handling(Panicked, calls)
        else if pois == [] then Handling(TextOnly(SummaryText(cat)), calls)
        else Handling(FlexAndText(AltTravelFlex, FlexBubbles(pois), SummaryText(cat)), calls)
  }

  /** `handleGPT`, step by step: `gptMsg` is set to "{}" on the not-found
      branch and later selects the text-only reply. */
  method HandleGpt(action: GptAction, message: string, svc: Services, dec: Decoders)
    returns (h: Handling)
    ensures h == Respond(action, message, svc, dec)
  {
    match action {
      case OtherAction(_) =>
        return Handling(NoReply, []);
      case FunctionCallAction =>
    }
    var msg := TrimPrefix(message, Trigger);
    var x := GptFuncCall(msg, svc, dec);
    var poi := HandlePOIResponse(x.poiJson, dec);
    var gptMsg := "";
    var summary: RemoteResult;
    var request: ChatRequest;
    if |poi.pois| == 0 {
      gptMsg := "{}";
      request := GetSummaryString(PromptNotFound + msg, x.keyword, x.poiJson);
      summary := svc.chat(request);
      if summary.err.Some? {
        return Handling(NoReply, x.calls + [ChatCall(request)]);
      }
    } else {
      request := GetSummaryString(msg, x.keyword, x.poiJson);
      summary := svc.chat(request);
      if summary.err.Some? {
        return Handling(NoReply, x.calls + [ChatCall(request)]);
      }
    }
    var calls := x.calls + [ChatCall(request)];
    var catResponse := HandleFuncCallResponse(summary.body, dec);
    if |catResponse.choices| == 0 {
      return Handling(Panicked, calls);
    }
    var sumMsg := InterfaceToString(catResponse.choices[0].message.content).value;
    if gptMsg != "" {
      h := Handling(TextOnly(sumMsg), calls);
    } else {
      var flexBubble := GetPoisFlexBubble(poi);
      assert flexBubble == FlexBubbles(poi.pois);
      h := Handling(FlexAndText(AltTravelFlex, flexBubble, sumMsg), calls);
    }
  }

  // ---------------------------------------------------------------------
  // The webhook loop

  /** An event handed to the assistant, with what was done for it; for a
      `NoReply` handling nothing is sent. */
  datatype Delivery = Delivery(replyToken: string, handling: Handling)

  /** The events that pass the dispatch rule, in order. */
  function Routed(events: seq<Event>): (rs: seq<Event>)
    ensures |rs| <= |events|
    ensures forall k :: 0 <= k < |rs| ==> ShouldHandle(rs[k])
  {
    if events == [] then []
    else Routed(events[..|events| - 1])
         + (if ShouldHandle(events[|events| - 1]) then [events[|events| - 1]] else [])
  }

  /** `handleGPT` with the function-call action, as a function of the text. */
  function Responder(svc: Services, dec: Decoders): (respond: string -> Handling)
  {
    m => Respond(FunctionCallAction, m, svc, dec)
  }

  /** The deliveries for one event: none, or the handling of its text. */
  function DeliveryFor(e: Event, respond: string -> Handling): seq<Delivery>
  {
    if ShouldHandle(e) then [Delivery(e.replyToken, respond(e.message.text))]
    else []
  }

  /** The last handling panicked: the handler goroutine unwinds and no
      later event of the batch is looked at. */
  predicate EndsInPanic(ds: seq<Delivery>)
  {
    ds != [] && ds[|ds| - 1].handling.reply.Panicked?
  }

  /** The deliveries for a batch of events, in order, up to and including
      the first handling that panics. */
  function Deliveries(events: seq<Event>, respond: string -> Handling): seq<Delivery>
  {
    if events == [] then []
    else
      var earlier := Deliveries(events[..|events| - 1], respond);
      if EndsInPanic(earlier) then earlier
      else earlier + DeliveryFor(events[|events| - 1], respond)
  }

  /** One more event: nothing after a panic, else its deliveries appended. */
  lemma DeliveriesStep(events: seq<Event>, k: nat, respond: string -> Handling)
    requires k < |events|
    ensures Deliveries(events[..k + 1], respond)
              == if EndsInPanic(Deliveries(events[..k], respond)) then Deliveries(events[..k], respond)
                 else Deliveries(events[..k], respond) + DeliveryFor(events[k], respond)
  {
    assert events[..k + 1][..k] == events[..k];
  }

  /** Once a prefix of the batch has panicked, the rest of the batch adds
      nothing. */
  lemma {:induction false} PanicStopsBatch(events: seq<Event>, k: nat, respond: string -> Handling)
    requires k <= |events|
    requires EndsInPanic(Deliveries(events[..k], respond))
    ensures Deliveries(events, respond) == Deliveries(events[..k], respond)
    decreases |events| - k
  {
    if k < |events| {
      var init := events[..|events| - 1];
      assert init[..k] == events[..k];
      PanicStopsBatch(init, k, respond);
    } else {
      assert events[..k] == events;
    }
  }

  /** The body of `callbackHandler`'s loop for one event: text messages
      only, and in a group or room only with the trigger. */
  method HandleEvent(event: Event, svc: Services, dec: Decoders) returns (ds: seq<Delivery>)
    ensures ds == DeliveryFor(event, Responder(svc, dec))
  {
    ds := [];
    if event.typ == MessageEvent {
      match event.message {
        case TextMessage(text) =>
          if IsGroupEvent(event.source) {
            if Contains(text, Trigger) {
              var h := HandleGpt(FunctionCallAction, text, svc, dec);
              ds := [Delivery(event.replyToken, h)];
            }
          } else {
            var h := HandleGpt(FunctionCallAction, text, svc, dec);
            ds := [Delivery(event.replyToken, h)];
          }
        case _ =>
      }
    }
  }

  /** `callbackHandler` once the request is parsed: every event in turn;
      a panic in `handleGPT` ends the loop. */
  method CallbackHandler(events: seq<Event>, svc: Services, dec: Decoders)
    returns (handled: seq<Delivery>)
    ensures handled == Deliveries(events, Responder(svc, dec))
  {
    handled := [];
    for k := 0 to |events|
      invariant handled == Deliveries(events[..k], Responder(svc, dec))
      invariant !EndsInPanic(handled)
    {
      DeliveriesStep(events, k, Responder(svc, dec));
      var ds := HandleEvent(events[k], svc, dec);
      handled := handled + ds;
      if EndsInPanic(handled) {
        PanicStopsBatch(events, k + 1, Responder(svc, dec));
        return;
      }
    }
    assert events[..|events|] == events;
  }

  // ---------------------------------------------------------------------
  // Properties

  /** The dispatch rule case by case: non-message events and non-text
      messages are ignored, a 1:1 text always goes through, a group or room
      text exactly when it contains the trigger. */
  lemma RoutingRule(e: Event)
    ensures e.typ != MessageEvent ==> !ShouldHandle(e)
    ensures !e.message.TextMessage? ==> !ShouldHandle(e)
    ensures e.typ == MessageEvent && e.message.TextMessage? && !IsGroupEvent(e.source) ==> ShouldHandle(e)
    ensures e.typ == MessageEvent && e.message.TextMessage? && IsGroupEvent(e.source) ==>
              (ShouldHandle(e) <==> Contains(e.message.text, Trigger))
    ensures e.typ == MessageEvent && e.message.TextMessage? && GetGroupId(e.source) != "" ==>
              (ShouldHandle(e) <==> Contains(e.message.text, Trigger))
  {
  }

  /** An event reaches the assistant iff it is in the batch and passes the
      dispatch rule. */
  lemma {:induction false} RoutedMembers(events: seq<Event>, e: Event)
    ensures e in Routed(events) <==> e in events && ShouldHandle(e)
    decreases |events|
  {
    if events != [] {
      var init := events[..|events| - 1];
      var last := events[|events| - 1];
      assert events == init + [last];
      RoutedMembers(init, e);
    }
  }

  /** One delivery per event that passes the dispatch rule, in the same
      order, answering that event's reply token with the handling of its
      text, up to and including the first that panics; every routed event
      after that one gets none. */
  lemma {:induction false} DeliveriesFollowRouting(events: seq<Event>, respond: string -> Handling)
    ensures |Deliveries(events, respond)| <= |Routed(events)|
    ensures forall k :: 0 <= k < |Deliveries(events, respond)| ==>
              Deliveries(events, respond)[k]
                == Delivery(Routed(events)[k].replyToken,
                            respond(Routed(events)[k].message.text))
    ensures forall k :: 0 <= k < |Deliveries(events, respond)| - 1 ==>
              !Deliveries(events, respond)[k].handling.reply.Panicked?
    ensures |Deliveries(events, respond)| < |Routed(events)| ==> EndsInPanic(Deliveries(events, respond))
    decreases |events|
  {
    if events != [] {
      var init := events[..|events| - 1];
      var last := events[|events| - 1];
      var d := Deliveries(init, respond);
      DeliveriesFollowRouting(init, respond);
      assert Routed(events) == Routed(init) + (if ShouldHandle(last) then [last] else []);
      if EndsInPanic(d) {
        assert Deliveries(events, respond) == d;
      } else {
        assert |d| == |Routed(init)|;
        assert Deliveries(events, respond) == d + DeliveryFor(last, respond);
      }
    }
  }

  /** A leading trigger is removed once; a second one right after it, or
      one elsewhere in the text, stays. */
  lemma StrippedKeepsOtherTriggers(message: string, i: int)
    requires OccursAt(message, Trigger, i) && i > 0
    ensures Contains(Stripped(message), Trigger)
  {
    if HasPrefix(message, Trigger) {
      // ":gpt" cannot overlap a copy of itself: its ':' appears only first
      assert message[i] == ':' by { assert message[i..i + |Trigger|][0] == Trigger[0]; }
      assert message[1] == 'g' && message[2] == 'p' && message[3] == 't' by {
        assert message[..|Trigger|] == Trigger;
      }
    }
    TrimPrefixKeepsLaterOccurrences(message, Trigger, i);
  }

  /** The handling of a text is the extraction's calls followed by one
      summary call: never a second POI search, never a rewrite turn. */
  lemma OneSummaryTurn(message: string, svc: Services, dec: Decoders)
    ensures Respond(FunctionCallAction, message, svc, dec).calls
              == ExtractFor(message, svc, dec).calls + [ChatCall(SummaryRequestFor(message, svc, dec))]
    ensures Searches(Respond(FunctionCallAction, message, svc, dec).calls) <= 1
    ensures Respond(FunctionCallAction, message, svc, dec).calls[0]
              == ChatCall(GetQueryString(Stripped(message)))
  {
    var x := ExtractFor(message, svc, dec);
    SearchesAppend(x.calls, [ChatCall(SummaryRequestFor(message, svc, dec))]);
  }

  /** No POIs: the summary user turn is the not-found prompt followed by
      the text, and the reply, if any, is text only. */
  lemma NotFoundBranch(message: string, svc: Services, dec: Decoders)
    requires PoisFor(message, svc, dec) == []
    ensures SummaryRequestFor(message, svc, dec).messages[0].content == Some(PromptNotFound + Stripped(message))
    ensures var r := Respond(FunctionCallAction, message, svc, dec).reply;
            r.NoReply? || r.Panicked? || r.TextOnly?
  {
  }

  /** Some POIs: the summary user turn is the text itself, and the reply,
      if any, is the carousel of one bubble per POI followed by text. */
  lemma FoundBranch(message: string, svc: Services, dec: Decoders)
    requires PoisFor(message, svc, dec) != []
    ensures SummaryRequestFor(message, svc, dec).messages[0].content == Some(Stripped(message))
    ensures var r := Respond(FunctionCallAction, message, svc, dec).reply;
            && (r.NoReply? || r.Panicked? || r.FlexAndText?)
            && (r.FlexAndText? ==>
                  && r.altText == AltTravelFlex
                  && |r.bubbles| == |PoisFor(message, svc, dec)|
                  && forall i :: 0 <= i < |r.bubbles| ==> r.bubbles[i] == BubbleFor(PoisFor(message, svc, dec)[i]))
  {
  }

  /** The summary request restates the extraction request's user turn
      exactly when POIs were found. */
  lemma SummaryRestatesQueryIffFound(message: string, svc: Services, dec: Decoders)
    ensures (SummaryRequestFor(message, svc, dec).messages[0] == GetQueryString(Stripped(message)).messages[0])
              <==> (PoisFor(message, svc, dec) != [])
  {
    if PoisFor(message, svc, dec) == [] {
      assert |PromptNotFound + Stripped(message)| != |Stripped(message)|;
    }
  }

  /** A summary call that succeeds and decodes to some choice always
      replies: the text alone when no POI was found, the carousel of the
      POIs followed by the text otherwise. Nothing is sent exactly when the
      summary call fails. */
  lemma SummarySuccessReplies(message: string, svc: Services, dec: Decoders)
    requires svc.chat(SummaryRequestFor(message, svc, dec)).err.None?
    requires HandleFuncCallResponse(svc.chat(SummaryRequestFor(message, svc, dec)).body, dec).choices != []
    ensures var cat := HandleFuncCallResponse(svc.chat(SummaryRequestFor(message, svc, dec)).body, dec);
            Respond(FunctionCallAction, message, svc, dec).reply
              == if PoisFor(message, svc, dec) == [] then TextOnly(SummaryText(cat))
                 else FlexAndText(AltTravelFlex, FlexBubbles(PoisFor(message, svc, dec)), SummaryText(cat))
  {
  }

  /** Nothing is sent exactly when the summary call fails. */
  lemma NoReplyIffSummaryFails(message: string, svc: Services, dec: Decoders)
    ensures (Respond(FunctionCallAction, message, svc, dec).reply.NoReply?)
              <==> (svc.chat(SummaryRequestFor(message, svc, dec)).err.Some?)
  {
  }

  /** A failed summary call sends nothing. */
  lemma SummaryFailureSendsNothing(message: string, svc: Services, dec: Decoders)
    requires svc.chat(SummaryRequestFor(message, svc, dec)).err.Some?
    ensures Respond(FunctionCallAction, message, svc, dec).reply == NoReply
  {
  }

  /** A summary reply with no choices, an undecodable one or an API error
      object among them, reaches the unguarded index. */
  lemma SummaryWithoutChoicesPanics(message: string, svc: Services, dec: Decoders)
    requires svc.chat(SummaryRequestFor(message, svc, dec)).err.None?
    requires HandleFuncCallResponse(svc.chat(SummaryRequestFor(message, svc, dec)).body, dec).choices == []
    ensures Respond(FunctionCallAction, message, svc, dec).reply == Panicked
  {
  }

  /** The text sent is the first choice's content when it is a string and
      "" otherwise, a null content (a function call) included. */
  lemma ReplyTextIsContent(message: string, svc: Services, dec: Decoders)
    ensures var r := Respond(FunctionCallAction, message, svc, dec).reply;
            var cat := HandleFuncCallResponse(svc.chat(SummaryRequestFor(message, svc, dec)).body, dec);
            (r.TextOnly? || r.FlexAndText?) ==>
              && cat.choices != []
              && (cat.choices[0].message.content.Str? ==> r.text == cat.choices[0].message.content.s)
              && (!cat.choices[0].message.content.Str? ==> r.text == "")
  {
  }

  /** With a decoder that rejects non-JSON text, a failed extraction call
      and an extraction reply without choices both fall to the not-found
      branch without any POI search: the empty body and the sentinel text
      decode to no POIs. */
  lemma ExtractFailureFallsBack(message: string, svc: Services, dec: Decoders)
    requires RejectsNonJson(dec)
    requires var result := svc.chat(GetQueryString(Stripped(message)));
             result.err.Some? || HandleFuncCallResponse(result.body, dec).choices == []
    ensures PoisFor(message, svc, dec) == []
    ensures Searches(Respond(FunctionCallAction, message, svc, dec).calls) == 0
    ensures !Respond(FunctionCallAction, message, svc, dec).reply.FlexAndText?
  {
    var x := ExtractFor(message, svc, dec);
    assert x.poiJson == "" || x.poiJson == BadData;
    assert SkipSpace(BadData) == BadData;
    NonJsonDecodesToZero(x.poiJson, dec);
    SearchesAppend(x.calls, [ChatCall(SummaryRequestFor(message, svc, dec))]);
  }

  /** Arguments that do not decode give the empty keyword, and the POI
      service is still asked for it. */
  lemma EmptyKeywordStillSearched(message: string, svc: Services, dec: Decoders)
    requires var result := svc.chat(GetQueryString(Stripped(message)));
             && result.err.None?
             && HandleFuncCallResponse(result.body, dec).choices != []
             && dec.arguments(HandleFuncCallResponse(result.body, dec).choices[0].message.functionCall.arguments).None?
    ensures PoiSearch("") in Respond(FunctionCallAction, message, svc, dec).calls
  {
    ExtractSearchesKeyword(Stripped(message), svc, dec);
    assert Respond(FunctionCallAction, message, svc, dec).calls[1] == PoiSearch("");
  }

  /** A POI search that fails before any data arrives (`ErrMarshal`,
      `ErrRequest`: a nil body) leads, with a decoder that rejects non-JSON
      text, to the not-found branch. */
  lemma FailedSearchFallsBack(message: string, svc: Services, dec: Decoders)
    requires RejectsNonJson(dec)
    requires var k := ExtractFor(message, svc, dec).keyword;
             svc.searchPoi(k).err.Some? && svc.searchPoi(k).body == ""
    requires var result := svc.chat(GetQueryString(Stripped(message)));
             result.err.None? && HandleFuncCallResponse(result.body, dec).choices != []
    ensures PoisFor(message, svc, dec) == []
    ensures SummaryPrompt(message, svc, dec) == PromptNotFound + Stripped(message)
    ensures !Respond(FunctionCallAction, message, svc, dec).reply.FlexAndText?
  {
    ExtractSearchesKeyword(Stripped(message), svc, dec);
    NonJsonDecodesToZero("", dec);
  }
}
