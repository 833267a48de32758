/** `useStoryActions`: the story-creation session.  Starting validates the prompt and the
    genre and asks the shared story-generation rate limiter (10 requests per 60000 ms)
    before generating the first segment; a choice appends the next segment; finishing
    appends the ending.  The generated data, the authenticated user, the clock and the
    error handler's message are inputs. */
module StoryActions {
  import opened Wrappers
  import opened Json
  import opened Security
  import opened Store

  type Record = map<string, Json>

  /** The session's `StorySegment`. */
  datatype Segment = Segment(
    storyId: Option<Json>,
    text: Option<Json>,
    imageUrl: Json,
    choices: Json,
    isEnd: Json,
    imageStatus: Option<Json>,
    segmentId: Option<Json>)

  const MaxStarts: int := 10
  const StartWindowMs: int := 60000

  /** A generated segment as the session shows it: a missing image becomes the placeholder,
      missing choices none, a missing end flag false. */
  function FromData(data: Record): (s: Segment)
    ensures s.storyId == Get(data, "story_id") && s.text == Get(data, "segment_text")
    ensures s.segmentId == Get(data, "id") && s.imageStatus == Get(data, "image_generation_status")
    ensures s.imageUrl == Or(Get(data, "image_url"), JStr(Placeholder)) && Truthy(s.imageUrl)
    ensures s.choices == Or(Get(data, "choices"), JArr([]))
    ensures s.isEnd == Or(Get(data, "is_end"), JBool(false))
  {
    Segment(Get(data, "story_id"), Get(data, "segment_text"), Or(Get(data, "image_url"), JStr(Placeholder)),
            Or(Get(data, "choices"), JArr([])), Or(Get(data, "is_end"), JBool(false)),
            Get(data, "image_generation_status"), Get(data, "id"))
  }

  /** The ending as the session shows it: never any choices, always the end. */
  function FromEnding(ending: Record): (s: Segment)
    ensures s.choices == JArr([]) && s.isEnd == JBool(true)
    ensures s.storyId == Get(ending, "story_id") && s.text == Get(ending, "segment_text")
    ensures s.segmentId == Get(ending, "id")
    ensures s.imageUrl == Or(Get(ending, "image_url"), JStr(Placeholder))
    ensures s.imageStatus == Some(Or(Get(ending, "image_generation_status"), JStr("completed")))
  {
    Segment(Get(ending, "story_id"), Get(ending, "segment_text"), Or(Get(ending, "image_url"), JStr(Placeholder)),
            JArr([]), JBool(true), Some(Or(Get(ending, "image_generation_status"), JStr("completed"))),
            Get(ending, "id"))
  }

  /** The start request when both validators accept: the trimmed prompt and the genre. */
  function Validated(prompt: string, mode: string, flagged: bool, skipImage: bool): (r: Option<Request>)
    ensures r.Some? <==> StoryPrompt(prompt, flagged).Success? && StoryGenre(mode).Success?
    ensures r.Some? ==> r.value == StartRequest(StoryPrompt(prompt, flagged).value, StoryGenre(mode).value, skipImage)
  {
    var p := StoryPrompt(prompt, flagged);
    var g := StoryGenre(mode);
    if p.Success? && g.Success? then Some(StartRequest(p.value, g.value, skipImage)) else None
  }

  /** The limiter has room for the user within the window. */
  predicate Admits(requests: map<string, seq<int>>, userId: Option<string>, now: int) {
    |InWindow(Stored(requests, KeyFor(userId)), now, StartWindowMs)| < MaxStarts
  }

  /** The limiter's requests after admitting the user at `now`. */
  function Recorded(requests: map<string, seq<int>>, userId: Option<string>, now: int): (r: map<string, seq<int>>)
    ensures r.Keys == requests.Keys + {KeyFor(userId)}
    ensures r[KeyFor(userId)] == InWindow(Stored(requests, KeyFor(userId)), now, StartWindowMs) + [now]
    ensures forall k :: k in requests && k != KeyFor(userId) ==> r[k] == requests[k]
  {
    requests[KeyFor(userId) := InWindow(Stored(requests, KeyFor(userId)), now, StartWindowMs) + [now]]
  }

  /** `generateSegment(...)`: it throws, or resolves with the saved segment. */
  datatype Generation = GenerationThrew | Generated(data: Record)

  /** `finishStoryMutation.mutateAsync(...)`: it throws, or resolves with a result whose
      `endingSegment` may be missing. */
  datatype FinishReply = FinishThrew | FinishReturned(ending: Option<Record>)

  /** What a handler asked the backend for. */
  datatype Request =
    | StartRequest(prompt: string, genre: string, skipImage: bool)
    | ChoiceRequest(storyId: Option<Json>, parentSegmentId: Option<Json>, choiceText: string, skipImage: bool)
    | FinishRequest(finishedStoryId: Json, skipEnding: bool)

  class StorySession {
    var current: Option<Segment>
    var history: seq<Segment>
    var apiCallsCount: int
    var error: Option<string>
    var generatingStartup: bool
    var generatingChoice: bool
    var generatingEnding: bool
    var showImageSettings: bool
    var generationStarted: bool   // `generationStartedRef.current`
    var limiter: SlidingWindowLimiter   // `storyGenerationRateLimit`

    constructor (limiter: SlidingWindowLimiter)
      ensures this.limiter == limiter && current.None? && history == [] && apiCallsCount == 0 && error.None?
      ensures !generatingStartup && !generatingChoice && !generatingEnding && !showImageSettings && !generationStarted
    {
      this.limiter := limiter;
      current, history, apiCallsCount, error := None, [], 0, None;
      generatingStartup, generatingChoice, generatingEnding := false, false, false;
      showImageSettings, generationStarted := false, false;
    }

    /** `handleStartStory(prompt, mode)`.  `flagged` is the prompt validator's content
        filter, `skipImage` the hook's prop, `userId` the signed-in user, `now` the clock
        reading, `userMessage` the message the error handler derives. */
    method StartStory(prompt: string, mode: string, flagged: bool, skipImage: bool, userId: Option<string>, now: int,
                      generation: Generation, userMessage: string)
      returns (sent: Option<Request>)
      modifies this, limiter
      ensures limiter == old(limiter)
      ensures generatingChoice == old(generatingChoice) && generatingEnding == old(generatingEnding)
      ensures old(generationStarted) && old(current).Some? ==>
                && sent.None? && current == old(current) && history == old(history)
                && apiCallsCount == old(apiCallsCount) && error == old(error)
                && generatingStartup == old(generatingStartup) && showImageSettings == old(showImageSettings)
                && generationStarted == old(generationStarted) && limiter.requests == old(limiter.requests)
      ensures !(old(generationStarted) && old(current).Some?) ==>
                && !generatingStartup
                && (sent.Some? <==> Validated(prompt, mode, flagged, skipImage).Some? && Admits(old(limiter.requests), userId, now))
                && (sent.Some? ==> sent == Validated(prompt, mode, flagged, skipImage))
                && apiCallsCount == old(apiCallsCount) + (if sent.Some? then 1 else 0)
                && limiter.requests == (if sent.Some? then Recorded(old(limiter.requests), userId, now) else old(limiter.requests))
      ensures sent.Some? && generation.Generated? ==>
                && current == Some(FromData(generation.data)) && history == [FromData(generation.data)]
                && error.None? && !showImageSettings && generationStarted == old(generationStarted)
      ensures !(old(generationStarted) && old(current).Some?) && !(sent.Some? && generation.Generated?) ==>
                && current == old(current) && history == old(history)
                && error == Some(userMessage) && showImageSettings && !generationStarted
    {
      sent := None;
      if generationStarted && current.Some? {
        return;
      }
      var request := Validated(prompt, mode, flagged, skipImage);
      if request.None? {
        FailStart(userMessage);
        return;
      }
      sent := Launch(request.value, userId, now, generation, userMessage);
    }

    /** `handleStartStory` once both inputs are valid: the rate limit, then the generation. */
    method Launch(request: Request, userId: Option<string>, now: int, generation: Generation, userMessage: string)
      returns (sent: Option<Request>)
      modifies this, limiter
      ensures limiter == old(limiter)
      ensures generatingChoice == old(generatingChoice) && generatingEnding == old(generatingEnding)
      ensures !generatingStartup
      ensures sent.Some? <==> Admits(old(limiter.requests), userId, now)
      ensures sent.Some? ==> sent == Some(request)
      ensures apiCallsCount == old(apiCallsCount) + (if sent.Some? then 1 else 0)
      ensures limiter.requests == (if sent.Some? then Recorded(old(limiter.requests), userId, now) else old(limiter.requests))
      ensures sent.Some? && generation.Generated? ==>
                && current == Some(FromData(generation.data)) && history == [FromData(generation.data)]
                && error.None? && !showImageSettings && generationStarted == old(generationStarted)
      ensures !(sent.Some? && generation.Generated?) ==>
                && current == old(current) && history == old(history)
                && error == Some(userMessage) && showImageSettings && !generationStarted
    {
      sent := None;
      var allowed := limiter.IsAllowedFor(userId, now, MaxStarts, StartWindowMs);
      if !allowed {
        FailStart(userMessage);
        return;
      }
      sent := Some(request);
      Generate(generation, userMessage);
    }

    /** The admitted part of `handleStartStory`: the call is counted, then the segment
        generated. */
    method Generate(generation: Generation, userMessage: string)
      modifies this
      ensures limiter == old(limiter)
      ensures generatingChoice == old(generatingChoice) && generatingEnding == old(generatingEnding)
      ensures !generatingStartup && apiCallsCount == old(apiCallsCount) + 1
      ensures generation.Generated? ==>
                && current == Some(FromData(generation.data)) && history == [FromData(generation.data)]
                && error.None? && !showImageSettings && generationStarted == old(generationStarted)
      ensures generation.GenerationThrew? ==>
                && current == old(current) && history == old(history)
                && error == Some(userMessage) && showImageSettings && !generationStarted
    {
      error := None;
      generatingStartup := true;
      showImageSettings := false;
      apiCallsCount := apiCallsCount + 1;
      if generation.GenerationThrew? {
        FailStart(userMessage);
        return;
      }
      var segment := FromData(generation.data);
      current := Some(segment);
      history := [segment];
      generatingStartup := false;
    }

    /** The `catch` of `handleStartStory`: validation, the rate limit or the generation threw. */
    method FailStart(userMessage: string)
      modifies this
      ensures error == Some(userMessage) && !generatingStartup && showImageSettings && !generationStarted
      ensures current == old(current) && history == old(history) && apiCallsCount == old(apiCallsCount)
      ensures generatingChoice == old(generatingChoice) && generatingEnding == old(generatingEnding)
      ensures limiter == old(limiter)
    {
      error := Some(userMessage);
      generatingStartup := false;
      showImageSettings := true;
      generationStarted := false;
    }

    /** `handleSelectChoice(choice)`. */
    method SelectChoice(choice: string, skipImage: bool, generation: Generation, userMessage: string) returns (sent: Option<Request>)
      modifies this
      ensures limiter == old(limiter)
      ensures generatingStartup == old(generatingStartup) && generatingEnding == old(generatingEnding)
      ensures showImageSettings == old(showImageSettings) && generationStarted == old(generationStarted)
      ensures old(current).None? ==>
                && sent.None? && current == old(current) && history == old(history)
                && apiCallsCount == old(apiCallsCount) && error == old(error) && generatingChoice == old(generatingChoice)
      ensures old(current).Some? ==>
                && sent == Some(ChoiceRequest(old(current).value.storyId, old(current).value.segmentId, choice, skipImage))
                && apiCallsCount == old(apiCallsCount) + 1 && !generatingChoice
                && (generation.Generated? ==>
                      && current == Some(FromData(generation.data)) && history == old(history) + [FromData(generation.data)]
                      && error.None?)
                && (generation.GenerationThrew? ==>
                      current == old(current) && history == old(history) && error == Some(userMessage))
    {
      sent := None;
      if current.None? {
        return;
      }
      error := None;
      generatingChoice := true;
      apiCallsCount := apiCallsCount + 1;
      sent := Some(ChoiceRequest(current.value.storyId, current.value.segmentId, choice, skipImage));
      if generation.Generated? {
        var segment := FromData(generation.data);
        current := Some(segment);
        history := history + [segment];
        generatingChoice := false;
        return;
      }
      error := Some(userMessage);
      generatingChoice := false;
    }

    /** `handleFinishStory(skipEndingImage)`.  `marked` is the story `markStoryAsCompleted`
        was called for. */
    method FinishStory(skipEndingImage: Option<bool>, reply: FinishReply, userMessage: string)
      returns (sent: Option<Request>, marked: Option<Json>)
      modifies this
      ensures limiter == old(limiter)
      ensures generatingStartup == old(generatingStartup) && generatingChoice == old(generatingChoice)
      ensures apiCallsCount == old(apiCallsCount) && showImageSettings == old(showImageSettings)
      ensures generationStarted == old(generationStarted)
      ensures !(old(current).Some? && Present(old(current).value.storyId)) ==>
                && sent.None? && marked.None? && current == old(current) && history == old(history)
                && error == old(error) && generatingEnding == old(generatingEnding)
      ensures old(current).Some? && Present(old(current).value.storyId) ==>
                var storyId := old(current).value.storyId.value;
                var appended := reply.FinishReturned? && reply.ending.Some?;
                && sent == Some(FinishRequest(storyId, skipEndingImage == Some(true)))
                && !generatingEnding
                && (appended ==>
                      && current == Some(FromEnding(reply.ending.value))
                      && history == old(history) + [FromEnding(reply.ending.value)]
                      && marked == Some(storyId))
                && (!appended ==> current == old(current) && history == old(history) && marked.None?)
                && error == (if reply.FinishThrew? then Some(userMessage) else None)
    {
      sent, marked := None, None;
      if current.None? || !Present(current.value.storyId) {
        return;
      }
      var storyId := current.value.storyId.value;
      error := None;
      generatingEnding := true;
      sent := Some(FinishRequest(storyId, skipEndingImage == Some(true)));
      if reply.FinishThrew? {
        error := Some(userMessage);
        generatingEnding := false;
        return;
      }
      if reply.ending.Some? {
        var ending := FromEnding(reply.ending.value);
        current := Some(ending);
        history := history + [ending];
        marked := Some(storyId);
      }
      generatingEnding := false;
    }
  }

  /** A session from a start followed by choices: with a valid prompt and genre, a fresh
      limiter and every generation succeeding, the history holds the first segment and one
      more per choice, and every choice costs one API call. */
  method SessionScenario(prompt: string, mode: string, userId: Option<string>, now: int,
                         first: Record, next: seq<Record>, choices: seq<string>)
    returns (historyLength: nat, apiCalls: int)
    requires StoryPrompt(prompt, false).Success? && StoryGenre(mode).Success?
    requires |next| == |choices|
    ensures historyLength == |choices| + 1
    ensures apiCalls == |choices| + 1
  {
    var limiter := new SlidingWindowLimiter();
    var session := new StorySession(limiter);
    var sent := session.StartStory(prompt, mode, false, false, userId, now, Generated(first), "");
    var i := 0;
    while i < |choices|
      invariant 0 <= i <= |choices|
      invariant session.current.Some? && |session.history| == i + 1 && session.apiCallsCount == i + 1
      invariant session.limiter == limiter
      modifies session
    {
      sent := session.SelectChoice(choices[i], false, Generated(next[i]), "");
      i := i + 1;
    }
    historyLength, apiCalls := |session.history|, session.apiCallsCount;
  }
}
