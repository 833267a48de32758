/** `generateStoryContent` of generate-story-segment (text-generation.ts, the OpenAI text
    path): the user prompt built from the initial prompt or the chosen option plus the
    previous-segments, visual and narrative context parts, and the checks applied to the
    model's reply.  The API key, the HTTP reply and `JSON.parse` are inputs. */
module TextGeneration {
  import opened Wrappers
  import opened Json
  import opened Text

  /** A text property such as `choiceText` or `segment_text`: absent (`undefined`),
      `null`, or a string. */
  datatype TextValue = Undefined | Null | Text(s: string)

  /** `${x}` of such a property: a string as itself, `null` and `undefined` by name. */
  function Render(x: TextValue): (r: string)
    ensures x.Text? ==> r == x.s
    ensures x.Null? ==> r == "null"
    ensures x.Undefined? ==> r == "undefined"
  {
    match x
    case Undefined => "undefined"
    case Null => "null"
    case Text(s) => s
  }

  // ----- previous-segments context -----

  /** `previousSegments.slice(-3)`: the last three segments, or all of them when fewer. */
  function Recent<T>(segments: seq<T>): (r: seq<T>)
    ensures |r| == if |segments| < 3 then |segments| else 3
    ensures r == segments[|segments| - |r|..]
  {
    if |segments| <= 3 then segments else segments[|segments| - 3..]
  }

  function SegmentLine(position: nat, text: TextValue): string {
    "Segment " + NatToString(position) + ": " + Render(text)
  }

  /** The segments rendered "Segment i: text", numbered from 1 in order. */
  function NumberedLines(texts: seq<TextValue>): (r: seq<string>)
    ensures |r| == |texts|
    ensures forall i :: 0 <= i < |texts| ==> r[i] == SegmentLine(i + 1, texts[i])
  {
    if texts == [] then [] else NumberedLines(texts[..|texts| - 1]) + [SegmentLine(|texts|, texts[|texts| - 1])]
  }

  const ContextHeader: string := "\n\nPREVIOUS STORY CONTEXT:\n"

  /** The context part: empty without previous segments; otherwise the header and the last
      min(3, n) segments' `segment_text`, numbered from 1 and separated by blank lines. */
  function ContextPrompt(previous: Option<seq<TextValue>>): (r: string)
    ensures previous.None? || previous.value == [] ==> r == ""
    ensures previous.Some? && previous.value != [] ==>
              r == ContextHeader + Join(NumberedLines(Recent(previous.value)), "\n\n")
  {
    if previous.Some? && |previous.value| > 0 then
      ContextHeader + Join(NumberedLines(Recent(previous.value)), "\n\n")
    else ""
  }

  /** The window holds the last min(3, n) segments, in their original order, numbered from 1. */
  lemma ContextWindow(previous: seq<TextValue>, i: nat)
    requires i < |Recent(previous)|
    ensures |Recent(previous)| == if |previous| < 3 then |previous| else 3
    ensures NumberedLines(Recent(previous))[i]
         == SegmentLine(i + 1, previous[|previous| - |Recent(previous)| + i])
  {
  }

  // ----- visual context -----

  /** `Object.entries(characters || {})` with string descriptions, in the order JavaScript
      lists them (integer-like names first, ascending, then the rest in insertion order);
      that order is taken as given. */
  type CharacterEntries = seq<(string, string)>

  function EntryTexts(entries: CharacterEntries): (r: seq<string>)
    ensures |r| == |entries|
    ensures forall i :: 0 <= i < |entries| ==> r[i] == entries[i].0 + ": " + entries[i].1
  {
    if entries == [] then []
    else EntryTexts(entries[..|entries| - 1]) + [entries[|entries| - 1].0 + ": " + entries[|entries| - 1].1]
  }

  /** The "name: description" list joined by ", "; never empty when there is an entry. */
  function CharactersText(entries: CharacterEntries): (r: string)
    ensures r == "" <==> entries == []
  {
    if entries == [] then "" else Join(EntryTexts(entries), ", ")
  }

  const CharactersLabel: string := "\n\nCHARACTERS TO MAINTAIN: "
  const SettingLabel: string := "\nSETTING: "
  const StyleLabel: string := "\nART STYLE: "

  datatype Visual = Visual(characters: CharacterEntries, setting: Option<string>, style: Option<string>)

  function Optional(heading: string, value: Option<string>): (r: string)
    ensures Given(value) ==> r == heading + value.value
    ensures !Given(value) ==> r == ""
  {
    if Given(value) then heading + value.value else ""
  }

  /** The CHARACTERS line: present exactly when there is at least one character. */
  function CharactersLine(entries: CharacterEntries): (r: string)
    ensures r != "" <==> entries != []
    ensures r != "" ==> StartsWith(r, CharactersLabel) && r[|CharactersLabel|..] == CharactersText(entries)
  {
    var characters := CharactersText(entries);
    if characters != "" then
      var r := CharactersLabel + characters;
      assert r[..|CharactersLabel|] == CharactersLabel;
      r
    else ""
  }

  /** The visual part: the CHARACTERS line, then a SETTING line and an ART STYLE line iff
      those fields are truthy; nothing without a visual context. */
  function VisualPrompt(vc: Option<Visual>): (r: string)
    ensures vc.None? ==> r == ""
    ensures vc.Some? ==> r == CharactersLine(vc.value.characters) + Optional(SettingLabel, vc.value.setting)
                              + Optional(StyleLabel, vc.value.style)
  {
    if vc.None? then ""
    else CharactersLine(vc.value.characters) + Optional(SettingLabel, vc.value.setting) + Optional(StyleLabel, vc.value.style)
  }

  // ----- narrative context -----

  datatype Narrative = Narrative(summary: Option<string>, currentObjective: Option<string>, arcStage: Option<string>)

  const DefaultSummary: string := "Adventure in progress"
  const DefaultObjective: string := "Continue the adventure"
  const DefaultArcStage: string := "development"

  function NarrativeBlock(summary: string, objective: string, arcStage: string): string {
    "\n\nNARRATIVE CONTEXT:\n- Story Summary: " + summary + "\n- Current Objective: " + objective
    + "\n- Story Arc Stage: " + arcStage
  }

  /** The narrative part, with each missing or empty field replaced by its default. */
  function NarrativePrompt(nc: Option<Narrative>): (r: string)
    ensures nc.None? ==> r == ""
    ensures nc.Some? ==> r == NarrativeBlock(OrText(nc.value.summary, DefaultSummary),
                                              OrText(nc.value.currentObjective, DefaultObjective),
                                              OrText(nc.value.arcStage, DefaultArcStage))
  {
    if nc.None? then ""
    else NarrativeBlock(OrText(nc.value.summary, DefaultSummary), OrText(nc.value.currentObjective, DefaultObjective),
                        OrText(nc.value.arcStage, DefaultArcStage))
  }

  // ----- the user prompt -----

  /** The inputs of `generateStoryContent`, in its declared order. */
  datatype Request = Request(
    initialPrompt: Option<string>,
    choiceText: TextValue,
    storyMode: Option<string>,
    previousSegments: Option<seq<TextValue>>,
    visualContext: Option<Visual>,
    narrativeContext: Option<Narrative>)

  const ContinuePrefix: string := "Continue the story. User chose: \""

  /** The start form when `initialPrompt` is truthy (mode defaulting to 'fantasy'; choice and
      contexts ignored), the continue form with the choice and all three parts otherwise. */
  function UserPrompt(req: Request): (r: string)
    ensures Given(req.initialPrompt) ==>
              r == "Start a new " + OrText(req.storyMode, "fantasy") + " story: \"" + req.initialPrompt.value + "\""
    ensures !Given(req.initialPrompt) ==>
              r == ContinuePrefix + Render(req.choiceText) + "\""
                   + ContextPrompt(req.previousSegments) + VisualPrompt(req.visualContext)
                   + NarrativePrompt(req.narrativeContext)
  {
    if Given(req.initialPrompt) then
      "Start a new " + OrText(req.storyMode, "fantasy") + " story: \"" + req.initialPrompt.value + "\""
    else
      ContinuePrefix + Render(req.choiceText) + "\"" + ContextPrompt(req.previousSegments)
      + VisualPrompt(req.visualContext) + NarrativePrompt(req.narrativeContext)
  }

  /** A start request's prompt does not depend on the choice or on any context. */
  lemma StartIgnoresContext(req: Request, other: Request)
    requires Given(req.initialPrompt) && other.initialPrompt == req.initialPrompt
    requires other.storyMode == req.storyMode
    ensures UserPrompt(req) == UserPrompt(other)
  {
  }

  // ----- the reply -----

  /** The HTTP exchange: it failed to happen, or the reply with `ok`, `status`, the error
      text and the parsed body (`None` when `response.json()` throws). */
  datatype ChatReply = FetchFailed | Reply(ok: bool, status: int, errorText: string, data: Option<Json>)

  /** Whether a property can be read from `v`: it is neither `undefined` nor `null`. */
  predicate Readable(v: Option<Json>) {
    v.Some? && !v.value.JNull?
  }

  /** `data.choices[0].message.content`: `None` when one of the reads throws because `data`,
      `choices`, `choices[0]` or `message` is undefined or null; otherwise the content,
      itself `None` when undefined. */
  function ReplyContent(data: Json): (r: Option<Option<Json>>)
    ensures data.JNull? ==> r.None?
    ensures !Readable(Member(data, "choices")) ==> r.None?
    ensures r.Some? ==> data.JObj?
  {
    var choices := Member(data, "choices");
    if !Readable(choices) then None
    else
      var first := FirstElement(choices.value);
      if !Readable(first) then None
      else
        var message := Member(first.value, "message");
        if !Readable(message) then None
        else Some(Member(message.value, "content"))
  }

  /** The body of a well-formed completion, `{choices: [{message: {content}}]}`. */
  function Completion(content: Json): Json {
    JObj(map["choices" := JArr([JObj(map["message" := JObj(map["content" := content])])])])
  }

  /** A well-formed completion yields its content. */
  lemma CompletionContent(content: Json)
    ensures ReplyContent(Completion(content)) == Some(Some(content))
  {
    var message := JObj(map["content" := content]);
    var first := JObj(map["message" := message]);
    assert Member(Completion(content), "choices") == Some(JArr([first]));
    assert FirstElement(JArr([first])) == Some(first);
    assert Member(first, "message") == Some(message);
    assert Member(message, "content") == Some(content);
  }

  /** A completion whose first choice has no message makes the content read throw. */
  lemma CompletionWithoutMessage()
    ensures ReplyContent(JObj(map["choices" := JArr([JObj(map[])])])).None?
  {
    var first: Json := JObj(map[]);
    assert Member(JObj(map["choices" := JArr([first])]), "choices") == Some(JArr([first]));
    assert FirstElement(JArr([first])) == Some(first);
    assert Member(first, "message").None?;
  }

  /** `JSON.parse(content)` of a truthy content: a string is parsed; any other value is first
      converted to a string, which gives `true` and a number back unchanged and makes an
      object read as "[object Object]". */
  function ParseContent(content: Json, parse: string -> Option<Json>): (r: Option<Json>)
    ensures content.JStr? ==> r == parse(content.s)
    ensures content.JBool? || content.JNum? ==> r == Some(content)
    ensures content.JObj? ==> r == parse("[object Object]")
    ensures content.JArr? ==> r.None?
  {
    match content
    case JStr(s) => parse(s)
    case JObj(_) => parse("[object Object]")
    case JArr(_) => None
    case _ => Some(content)
  }

  datatype GenerationError =
    | MissingApiKey
    | ApiFailed(status: int, errorText: string)
    | EmptyResponse
    | InvalidJson
    | MissingFields
    | ReplyIsNull
    | NetworkError
    | UnreadableBody
    | MalformedReply

  /** The message of an error the function raises itself; `None` for errors raised by the
      runtime (`fetch`, `response.json()`, `JSON.parse`, a property read of undefined or
      null), whose text is not modelled. */
  function Message(e: GenerationError): (m: Option<string>)
    ensures m.Some? ==> m.value != ""
    ensures m.Some? <==> e.MissingApiKey? || e.ApiFailed? || e.EmptyResponse? || e.MissingFields?
  {
    match e
    case MissingApiKey => Some("OpenAI API key not available")
    case ApiFailed(status, text) => Some("OpenAI API failed: " + IntToString(status) + " - " + text)
    case EmptyResponse => Some("OpenAI returned empty response")
    case MissingFields => Some("OpenAI response missing required fields")
    case _ => None
  }

  /** `!parsed.segmentText || !parsed.choices`: both fields must be present and truthy;
      otherwise `missing` is raised, except that a `null` reply throws `nullRead` on the
      property read. */
  function RequireFields<E>(parsed: Json, missing: E, nullRead: E): (r: Result<Json, E>)
    ensures r.Success? <==> Present(Member(parsed, "segmentText")) && Present(Member(parsed, "choices"))
    ensures r.Success? ==> r.value == parsed
    ensures parsed.JNull? ==> r == Failure(nullRead)
    ensures r.Failure? && !parsed.JNull? ==> r.error == missing
  {
    if parsed.JNull? then Failure(nullRead)
    else if !Present(Member(parsed, "segmentText")) || !Present(Member(parsed, "choices")) then Failure(missing)
    else Success(parsed)
  }

  /** What one call sends, if anything, and how it ends. */
  datatype Attempt<E> = Attempt(sent: Option<string>, result: Result<Json, E>)

  /** `generateStoryContent`. */
  function GenerateStoryContent(apiKey: Option<string>, req: Request, reply: ChatReply,
                                parse: string -> Option<Json>): (a: Attempt<GenerationError>)
    ensures !Given(apiKey) <==> a.sent.None?
    ensures !Given(apiKey) ==> a.result == Failure(MissingApiKey)
    ensures Given(apiKey) ==> a.sent == Some(UserPrompt(req))
    ensures Given(apiKey) && reply.FetchFailed? ==> a.result == Failure(NetworkError)
    ensures Given(apiKey) && reply.Reply? && !reply.ok ==> a.result == Failure(ApiFailed(reply.status, reply.errorText))
    ensures Given(apiKey) && reply.Reply? && reply.ok && reply.data.None? ==> a.result == Failure(UnreadableBody)
    ensures (Given(apiKey) && reply.Reply? && reply.ok && reply.data.Some? && ReplyContent(reply.data.value).None?)
              ==> a.result == Failure(MalformedReply)
    ensures (Given(apiKey) && reply.Reply? && reply.ok && reply.data.Some? && ReplyContent(reply.data.value).Some?
             && !Present(ReplyContent(reply.data.value).value)) ==> a.result == Failure(EmptyResponse)
    ensures (Given(apiKey) && reply.Reply? && reply.ok && reply.data.Some? && ReplyContent(reply.data.value).Some?
             && Present(ReplyContent(reply.data.value).value)
             && ParseContent(ReplyContent(reply.data.value).value.value, parse).None?) ==> a.result == Failure(InvalidJson)
    ensures a.result.Success? ==>
              && reply.Reply? && reply.ok && reply.data.Some? && ReplyContent(reply.data.value).Some?
              && Present(ReplyContent(reply.data.value).value)
              && ParseContent(ReplyContent(reply.data.value).value.value, parse) == Some(a.result.value)
              && Present(Member(a.result.value, "segmentText")) && Present(Member(a.result.value, "choices"))
  {
    if !Given(apiKey) then Attempt(None, Failure(MissingApiKey))
    else
      var sent := Some(UserPrompt(req));
      match reply
      case FetchFailed => Attempt(sent, Failure(NetworkError))
      case Reply(ok, status, errorText, data) =>
        if !ok then Attempt(sent, Failure(ApiFailed(status, errorText)))
        else if data.None? then Attempt(sent, Failure(UnreadableBody))
        else match ReplyContent(data.value)
          case None => Attempt(sent, Failure(MalformedReply))
          case Some(content) =>
            if !Present(content) then Attempt(sent, Failure(EmptyResponse))
            else match ParseContent(content.value, parse)
              case None => Attempt(sent, Failure(InvalidJson))
              case Some(parsed) => Attempt(sent, RequireFields(parsed, MissingFields, ReplyIsNull))
  }

  /** A well-formed completion whose content is a string holding a reply with both fields
      succeeds with that reply. */
  lemma WellFormedCompletionSucceeds(apiKey: Option<string>, req: Request, text: string, parsed: Json,
                                     parse: string -> Option<Json>)
    requires Given(apiKey) && text != "" && parse(text) == Some(parsed)
    requires Present(Member(parsed, "segmentText")) && Present(Member(parsed, "choices"))
    ensures GenerateStoryContent(apiKey, req, Reply(true, 200, "", Some(Completion(JStr(text)))), parse).result
            == Success(parsed)
  {
    CompletionContent(JStr(text));
  }
}
