/** `generateStoryWithQwen` of generate-story-segment (ovh-text-service.ts): the educational
    variant of the user prompt, the mapping of HTTP failures to errors, the extraction of
    the generated text, the JSON span taken from it, and the required-field check.  The API
    token, the HTTP reply and `JSON.parse` are inputs. */
module OvhTextService {
  import opened Wrappers
  import opened Json
  import opened Text
  import TextGeneration

  // ----- the user prompt -----

  const ContextHeader: string := "\n\nPREVIOUS STORY CONTEXT:\n"

  /** The narrative context this service reads, including the already rendered
      `previousSegments` text. */
  datatype Narrative = Narrative(
    summary: Option<string>,
    currentObjective: Option<string>,
    arcStage: Option<string>,
    previousSegments: Option<string>)

  datatype Visual = Visual(characters: TextGeneration.CharacterEntries, setting: Option<string>, genre: Option<string>)

  /** The context part comes only from `narrativeContext.previousSegments`, and is empty when
      that is absent or empty. */
  function ContextPrompt(nc: Option<Narrative>): (r: string)
    ensures !(nc.Some? && Given(nc.value.previousSegments)) ==> r == ""
    ensures nc.Some? && Given(nc.value.previousSegments) ==> r == ContextHeader + nc.value.previousSegments.value
  {
    if nc.Some? && Given(nc.value.previousSegments) then ContextHeader + nc.value.previousSegments.value else ""
  }

  const GenreLabel: string := "\nGENRE: "

  /** The visual part: CHARACTERS, SETTING and GENRE lines, each only when present. */
  function VisualPrompt(vc: Option<Visual>): (r: string)
    ensures vc.None? ==> r == ""
    ensures vc.Some? ==> r == TextGeneration.CharactersLine(vc.value.characters)
                              + TextGeneration.Optional(TextGeneration.SettingLabel, vc.value.setting)
                              + TextGeneration.Optional(GenreLabel, vc.value.genre)
  {
    if vc.None? then ""
    else TextGeneration.CharactersLine(vc.value.characters)
         + TextGeneration.Optional(TextGeneration.SettingLabel, vc.value.setting)
         + TextGeneration.Optional(GenreLabel, vc.value.genre)
  }

  const DefaultSummary: string := "Educational adventure in progress"
  const DefaultObjective: string := "Continue the learning adventure"
  const EducationalLine: string := "\n- Educational Focus: Learning through engaging storytelling"

  /** The narrative part with the educational defaults and the fixed educational-focus line. */
  function NarrativePrompt(nc: Option<Narrative>): (r: string)
    ensures nc.None? ==> r == ""
    ensures nc.Some? ==>
              r == TextGeneration.NarrativeBlock(OrText(nc.value.summary, DefaultSummary),
                                                 OrText(nc.value.currentObjective, DefaultObjective),
                                                 OrText(nc.value.arcStage, TextGeneration.DefaultArcStage))
                   + EducationalLine
  {
    if nc.None? then ""
    else TextGeneration.NarrativeBlock(OrText(nc.value.summary, DefaultSummary),
                                       OrText(nc.value.currentObjective, DefaultObjective),
                                       OrText(nc.value.arcStage, TextGeneration.DefaultArcStage))
         + EducationalLine
  }

  /** The inputs of `generateStoryWithQwen`, in its declared order (the client is unused). */
  datatype Request = Request(
    initialPrompt: Option<string>,
    choiceText: TextGeneration.TextValue,
    visualContext: Option<Visual>,
    narrativeContext: Option<Narrative>,
    storyMode: Option<string>)

  const ContinuePrefix: string := "Continue the educational story. User chose: \""

  function UserPrompt(req: Request): (r: string)
    ensures Given(req.initialPrompt) ==>
              r == "Start a new educational " + OrText(req.storyMode, "fantasy") + " story: \""
                   + req.initialPrompt.value + "\""
    ensures !Given(req.initialPrompt) ==>
              r == ContinuePrefix + TextGeneration.Render(req.choiceText) + "\""
                   + ContextPrompt(req.narrativeContext) + VisualPrompt(req.visualContext)
                   + NarrativePrompt(req.narrativeContext)
  {
    if Given(req.initialPrompt) then
      "Start a new educational " + OrText(req.storyMode, "fantasy") + " story: \"" + req.initialPrompt.value + "\""
    else
      ContinuePrefix + TextGeneration.Render(req.choiceText) + "\"" + ContextPrompt(req.narrativeContext)
      + VisualPrompt(req.visualContext) + NarrativePrompt(req.narrativeContext)
  }

  // ----- errors -----

  datatype OvhError =
    | MissingToken
    | AuthenticationFailed
    | RateLimited
    | ServerUnavailable
    | ApiFailed(status: int, errorText: string)
    | EmptyGeneratedText
    | UnparsableReply
    | MissingFields
    | RuntimeError      // a network failure, an unreadable body, a property read of null, or a
                        // string method called on a generated text that is not a string

  /** The message of each error the service raises itself. */
  function Message(e: OvhError): (m: Option<string>)
    ensures m.Some? ==> m.value != ""
    ensures m.None? <==> e.RuntimeError?
  {
    match e
    case MissingToken => Some("OVH API token not available - check Supabase secrets configuration")
    case AuthenticationFailed => Some("OVH authentication failed - invalid API token")
    case RateLimited => Some("OVH rate limit exceeded - please try again later")
    case ServerUnavailable => Some("OVH server error - service temporarily unavailable")
    case ApiFailed(status, text) => Some("OVH Qwen2.5 API failed: " + IntToString(status) + " - " + text)
    case EmptyGeneratedText => Some("OVH Qwen2.5 returned empty response - check API format")
    case UnparsableReply => Some("Failed to parse OVH response as JSON")
    case MissingFields => Some("OVH response missing required fields")
    case RuntimeError => None
  }

  /** The error for a non-OK status: 401, 429 and 5xx each have their own; any other status
      gives the generic error carrying the status and the body text. */
  function StatusError(status: int, errorText: string): (e: OvhError)
    ensures status == 401 <==> e.AuthenticationFailed?
    ensures status == 429 <==> e.RateLimited?
    ensures status >= 500 <==> e.ServerUnavailable?
    ensures status != 401 && status != 429 && status < 500 ==> e == ApiFailed(status, errorText)
  {
    if status == 401 then AuthenticationFailed
    else if status == 429 then RateLimited
    else if status >= 500 then ServerUnavailable
    else ApiFailed(status, errorText)
  }

  // ----- the generated text -----

  /** `data.generated_text || data[0]?.generated_text || ''`; `None` when `data` is null and
      the first property read throws. */
  function GeneratedText(data: Json): (r: Option<Json>)
    ensures data.JNull? <==> r.None?
    ensures r.Some? && Present(Member(data, "generated_text")) ==> r.value == Member(data, "generated_text").value
    ensures r.Some? && !Present(Member(data, "generated_text")) && FirstElement(data).Some?
            && Present(Member(FirstElement(data).value, "generated_text")) ==>
              r.value == Member(FirstElement(data).value, "generated_text").value
    ensures r.Some? && !Truthy(r.value) ==> r.value == JStr("")
  {
    if data.JNull? then None
    else
      var first := FirstElement(data);
      var second := if first.Some? && !first.value.JNull? then Member(first.value, "generated_text") else None;
      Some(Or(Member(data, "generated_text"), Or(second, JStr(""))))
  }

  // ----- the JSON span -----

  /** The index of the first occurrence of `c`. */
  function IndexOf(s: string, c: char): (r: Option<nat>)
    ensures r.Some? ==> r.value < |s| && s[r.value] == c
    ensures r.Some? ==> forall i :: 0 <= i < r.value ==> s[i] != c
    ensures r.None? ==> forall i :: 0 <= i < |s| ==> s[i] != c
  {
    if s == [] then None
    else if s[0] == c then Some(0)
    else
      var rest := IndexOf(s[1..], c);
      if rest.Some? then Some(rest.value + 1) else None
  }

  /** The index of the last occurrence of `c`. */
  function LastIndexOf(s: string, c: char): (r: Option<nat>)
    ensures r.Some? ==> r.value < |s| && s[r.value] == c
    ensures r.Some? ==> forall i :: r.value < i < |s| ==> s[i] != c
    ensures r.None? ==> forall i :: 0 <= i < |s| ==> s[i] != c
  {
    if s == [] then None
    else if s[|s| - 1] == c then Some(|s| - 1)
    else LastIndexOf(s[..|s| - 1], c)
  }

  /** The match of `/\{[\s\S]*\}/`: greedy, so from the first '{' to the last '}' after it;
      `None` when there is no '{', or no '}' after the first one. */
  function JsonSpan(text: string): (r: Option<string>)
    ensures r.Some? ==> && IndexOf(text, '{').Some? && LastIndexOf(text, '}').Some?
                        && IndexOf(text, '{').value <= LastIndexOf(text, '}').value
                        && r.value == text[IndexOf(text, '{').value..LastIndexOf(text, '}').value + 1]
    ensures r.Some? ==> |r.value| >= 2 && r.value[0] == '{' && r.value[|r.value| - 1] == '}'
    ensures r.None? <==> IndexOf(text, '{').None? || LastIndexOf(text, '}').None?
                         || LastIndexOf(text, '}').value < IndexOf(text, '{').value
  {
    var open := IndexOf(text, '{');
    var close := LastIndexOf(text, '}');
    if open.None? || close.None? || close.value < open.value then None
    else
      var span := text[open.value..close.value + 1];
      Some(span)
  }

  /** Surrounding prose without braces does not change the span. */
  lemma {:induction false} JsonSpanIgnoresProse(before: string, body: string, after: string)
    requires |body| >= 2 && body[0] == '{' && body[|body| - 1] == '}'
    requires forall i :: 0 <= i < |before| ==> before[i] != '{'
    requires forall i :: 0 <= i < |after| ==> after[i] != '}'
    ensures JsonSpan(before + body + after) == Some(body)
  {
    var text := before + body + after;
    IndexOfAfterPrefix(before, body + after, '{');
    assert before + (body + after) == text;
    LastIndexOfBeforeSuffix(before + body, after, '}');
    assert text[|before|..|before| + |body|] == body;
  }

  lemma {:induction false} IndexOfAfterPrefix(prefix: string, rest: string, c: char)
    requires forall i :: 0 <= i < |prefix| ==> prefix[i] != c
    requires |rest| > 0 && rest[0] == c
    ensures IndexOf(prefix + rest, c) == Some(|prefix|)
  {
    if prefix != [] {
      assert (prefix + rest)[1..] == prefix[1..] + rest;
      IndexOfAfterPrefix(prefix[1..], rest, c);
    }
  }

  lemma {:induction false} LastIndexOfBeforeSuffix(init: string, suffix: string, c: char)
    requires forall i :: 0 <= i < |suffix| ==> suffix[i] != c
    requires |init| > 0 && init[|init| - 1] == c
    ensures LastIndexOf(init + suffix, c) == Some(|init| - 1)
  {
    if suffix != [] {
      assert (init + suffix)[..|init + suffix| - 1] == init + suffix[..|suffix| - 1];
      LastIndexOfBeforeSuffix(init, suffix[..|suffix| - 1], c);
    } else {
      assert init + suffix == init;
    }
  }

  /** The inner `try`: a text without a span and a span that does not parse both become
      the one parse error. */
  function ParseGenerated(text: string, parse: string -> Option<Json>): (r: Result<Json, OvhError>)
    ensures r.Success? <==> JsonSpan(text).Some? && parse(JsonSpan(text).value).Some?
    ensures r.Success? ==> r.value == parse(JsonSpan(text).value).value
    ensures r.Failure? ==> r.error == UnparsableReply
  {
    match JsonSpan(text)
    case None => Failure(UnparsableReply)
    case Some(span) =>
      match parse(span)
      case None => Failure(UnparsableReply)
      case Some(v) => Success(v)
  }

  // ----- the whole call -----

  /** The HTTP exchange: it failed, or a reply with `ok`, `status`, the error text and the
      parsed body (`None` when `response.json()` throws). */
  datatype HttpReply = FetchFailed | Reply(ok: bool, status: int, errorText: string, data: Option<Json>)

  function GenerateStoryWithQwen(token: Option<string>, req: Request, reply: HttpReply,
                                 parse: string -> Option<Json>): (a: TextGeneration.Attempt<OvhError>)
    ensures !Given(token) <==> a.sent.None?
    ensures !Given(token) ==> a.result == Failure(MissingToken)
    ensures Given(token) ==> a.sent == Some(UserPrompt(req))
    ensures Given(token) && reply.Reply? && !reply.ok ==> a.result == Failure(StatusError(reply.status, reply.errorText))
    ensures (Given(token) && reply.Reply? && reply.ok && reply.data.Some? && GeneratedText(reply.data.value).Some? &&
             !Truthy(GeneratedText(reply.data.value).value)) ==> a.result == Failure(EmptyGeneratedText)
    ensures Given(token) && (reply.FetchFailed? || (reply.ok && reply.data.None?)) ==> a.result == Failure(RuntimeError)
    ensures (Given(token) && reply.Reply? && reply.ok && reply.data.Some? && GeneratedText(reply.data.value).None?)
              ==> a.result == Failure(RuntimeError)
    ensures (Given(token) && reply.Reply? && reply.ok && reply.data.Some? && GeneratedText(reply.data.value).Some? &&
             Truthy(GeneratedText(reply.data.value).value) && !GeneratedText(reply.data.value).value.JStr?) ==>
              a.result == Failure(RuntimeError)
    ensures (Given(token) && reply.Reply? && reply.ok && reply.data.Some? && GeneratedText(reply.data.value).Some? &&
             Truthy(GeneratedText(reply.data.value).value) && GeneratedText(reply.data.value).value.JStr? &&
             ParseGenerated(GeneratedText(reply.data.value).value.s, parse).Failure?) ==>
              a.result == Failure(UnparsableReply)
    ensures a.result.Success? ==>
              && reply.Reply? && reply.ok && reply.data.Some?
              && GeneratedText(reply.data.value).Some? && GeneratedText(reply.data.value).value.JStr?
              && ParseGenerated(GeneratedText(reply.data.value).value.s, parse) == Success(a.result.value)
              && Present(Member(a.result.value, "segmentText")) && Present(Member(a.result.value, "choices"))
  {
    if !Given(token) then TextGeneration.Attempt(None, Failure(MissingToken))
    else
      var sent := Some(UserPrompt(req));
      match reply
      case FetchFailed => TextGeneration.Attempt(sent, Failure(RuntimeError))
      case Reply(ok, status, errorText, data) =>
        if !ok then TextGeneration.Attempt(sent, Failure(StatusError(status, errorText)))
        else if data.None? then TextGeneration.Attempt(sent, Failure(RuntimeError))
        else match GeneratedText(data.value)
          case None => TextGeneration.Attempt(sent, Failure(RuntimeError))
          case Some(generated) =>
            if !Truthy(generated) then TextGeneration.Attempt(sent, Failure(EmptyGeneratedText))
            else if !generated.JStr? then TextGeneration.Attempt(sent, Failure(RuntimeError))
            else match ParseGenerated(generated.s, parse)
              case Failure(e) => TextGeneration.Attempt(sent, Failure(e))
              case Success(parsed) =>
                TextGeneration.Attempt(sent, TextGeneration.RequireFields(parsed, MissingFields, RuntimeError))
  }
}
