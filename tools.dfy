/** The decode-with-default helpers of tools.go. JSON parsing itself
    (`encoding/json`) is not modelled: each decoder is a parameter that
    either yields a value or fails, and every helper turns a failure into
    the Go zero value of its result type, so no error leaves these helpers. */
module Tools {
  import opened Wrappers
  import opened Poi
  import opened Completion

  /** The three `json.Unmarshal` targets, as partial decoders of a body. */
  datatype Decoders = Decoders(
    poi: string -> Option<ResponsePOI>,
    arguments: string -> Option<Arguments>,
    completion: string -> Option<ChatCompletionResponse>)

  /** JSON insignificant whitespace. */
  predicate IsJsonSpace(c: char)
  {
    c == ' ' || c == '\t' || c == '\n' || c == '\r'
  }

  /** `s` without its leading JSON whitespace. */
  function SkipSpace(s: string): (r: string)
    ensures |r| <= |s|
    ensures r == [] || !IsJsonSpace(r[0])
  {
    if s != [] && IsJsonSpace(s[0]) then SkipSpace(s[1..]) else s
  }

  /** The first significant character of `s` can open a JSON value. */
  predicate MayBeJson(s: string)
  {
    var t := SkipSpace(s);
    t != [] && t[0] in "{[\"-0123456789tfn"
  }

  /** What `encoding/json` guarantees about every target: a text whose
      first significant character cannot open a JSON value (the empty
      text among them) is rejected. */
  ghost predicate RejectsNonJson(dec: Decoders)
  {
    forall s :: !MayBeJson(s) ==>
      dec.poi(s).None? && dec.arguments(s).None? && dec.completion(s).None?
  }

  /** `ResponsePOI{}`. */
  const EmptyPoiResponse := ResponsePOI([])

  /** `Arguments{}`. */
  const ZeroArguments := Arguments("")

  /** `ChatCompletionResponse{}`. */
  const ZeroCompletion := ChatCompletionResponse("", "", 0, "", [], Usage(0, 0, 0))

  /** `handlePOIResponse`: the decoded reply, or no POIs at all. */
  function HandlePOIResponse(json: string, dec: Decoders): (r: ResponsePOI)
    ensures dec.poi(json).Some? ==> r == dec.poi(json).value
    ensures dec.poi(json).None? ==> r.pois == []
  {
    dec.poi(json).GetOr(EmptyPoiResponse)
  }

  /** `handleArgument`: the decoded arguments, or an empty keyword. */
  function HandleArgument(json: string, dec: Decoders): (r: Arguments)
    ensures dec.arguments(json).Some? ==> r == dec.arguments(json).value
    ensures dec.arguments(json).None? ==> r.keyword == ""
  {
    dec.arguments(json).GetOr(ZeroArguments)
  }

  /** `handleFuncCallResponse`: the decoded reply, or one with no choices. */
  function HandleFuncCallResponse(json: string, dec: Decoders): (r: ChatCompletionResponse)
    ensures dec.completion(json).Some? ==> r == dec.completion(json).value
    ensures dec.completion(json).None? ==> r == ZeroCompletion && r.choices == []
  {
    dec.completion(json).GetOr(ZeroCompletion)
  }

  /** A text that is not JSON decodes to the zero value of every target. */
  lemma NonJsonDecodesToZero(json: string, dec: Decoders)
    requires RejectsNonJson(dec)
    requires !MayBeJson(json)
    ensures HandlePOIResponse(json, dec).pois == []
    ensures HandleArgument(json, dec).keyword == ""
    ensures HandleFuncCallResponse(json, dec).choices == []
  {
  }

  /** Go's `(string, error)` pair returned by `interfaceToString`. */
  datatype Converted = Converted(value: string, err: Option<string>)

  const NotAStringError := "the interface value is not a string"

  /** `interfaceToString`: the string held by `v` without error; for every
      other value, JSON null included, "" and an error. */
  function InterfaceToString(v: Dynamic): (r: Converted)
    ensures r.err.None? <==> v.Str?
    ensures v.Str? ==> r.value == v.s
    ensures !v.Str? ==> r.value == "" && r.err == Some(NotAStringError)
  {
    match v
    case Str(s) => Converted(s, None)
    case _ => Converted("", Some(NotAStringError))
  }
}
