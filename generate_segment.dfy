/** The generate-story-segment handler (index.ts): the visual and narrative context derived
    from the previous segments, the audio outcome, the stored `skip_image` flag and the
    condition for scheduling the background image task, and the error response.  The
    audio generator's outcome is an input. */
module GenerateSegment {
  import opened Wrappers
  import opened Json
  import opened Text
  import opened Store

  // ----- context derivation -----

  /** `genre || storyMode || 'fantasy'`: never empty. */
  function ContextGenre(genre: Option<string>, storyMode: Option<string>): (g: string)
    ensures g != ""
    ensures Given(genre) ==> g == genre.value
    ensures !Given(genre) && Given(storyMode) ==> g == storyMode.value
    ensures !Given(genre) && !Given(storyMode) ==> g == "fantasy"
  {
    OrText(genre, OrText(storyMode, "fantasy"))
  }

  const PreviousLimit: nat := 500

  /** The previous segments' texts joined by single spaces, cut to 500 characters. */
  function PreviousSummary(texts: seq<string>): (r: string)
    ensures |r| <= PreviousLimit && |r| <= |Join(texts, " ")|
    ensures r == Join(texts, " ")[..|r|]
    ensures |Join(texts, " ")| <= PreviousLimit ==> r == Join(texts, " ")
    ensures |Join(texts, " ")| > PreviousLimit ==> |r| == PreviousLimit
  {
    Take(Join(texts, " "), PreviousLimit)
  }

  datatype VisualContext = VisualContext(genre: string, characters: seq<string>, setting: string, previousSegments: string)

  /** The visual context: no characters and an empty setting, whatever the story so far. */
  function VisualContextFor(genre: Option<string>, storyMode: Option<string>, texts: seq<string>): (vc: VisualContext)
    ensures vc.genre == ContextGenre(genre, storyMode) && vc.characters == [] && vc.setting == ""
    ensures vc.previousSegments == PreviousSummary(texts)
  {
    VisualContext(ContextGenre(genre, storyMode), [], "", PreviousSummary(texts))
  }

  /** 'Beginning of story' exactly when there is no previous segment. */
  function Summary(previousCount: nat): (s: string)
    ensures s == "Beginning of story" <==> previousCount == 0
    ensures s == "Story in progress" <==> previousCount > 0
  {
    if previousCount > 0 then "Story in progress" else "Beginning of story"
  }

  /** 'setup' for the first segment, 'climax' after more than five, 'development' between. */
  function ArcStage(previousCount: nat): (s: string)
    ensures s == "setup" <==> previousCount == 0
    ensures s == "climax" <==> previousCount > 5
    ensures s == "development" <==> 1 <= previousCount <= 5
  {
    if previousCount == 0 then "setup" else if previousCount > 5 then "climax" else "development"
  }

  function StageRank(stage: string): nat {
    if stage == "setup" then 0 else if stage == "development" then 1 else 2
  }

  /** A longer story is never at an earlier arc stage. */
  lemma ArcStageNeverGoesBack(m: nat, n: nat)
    requires m <= n
    ensures StageRank(ArcStage(m)) <= StageRank(ArcStage(n))
  {
  }

  datatype NarrativeContext = NarrativeContext(summary: string, currentObjective: string, arcStage: string)

  function NarrativeContextFor(previousCount: nat): (nc: NarrativeContext)
    ensures nc.summary == Summary(previousCount) && nc.arcStage == ArcStage(previousCount)
    ensures nc.currentObjective == "Continue the adventure"
  {
    NarrativeContext(Summary(previousCount), "Continue the adventure", ArcStage(previousCount))
  }

  // ----- audio -----

  /** `generateAudio`: it throws, or resolves with null or a result whose `audioUrl` may be
      missing. */
  datatype AudioOutcome = AudioThrew | AudioResolved(result: Option<AudioResult>)
  datatype AudioResult = AudioResult(audioUrl: Option<string>)

  /** The `audioUrl` / `audioStatus` locals after the audio step. */
  method AudioFor(skipAudio: Option<Json>, outcome: AudioOutcome) returns (audioUrl: Option<string>, audioStatus: GenStatus)
    ensures Present(skipAudio) ==> audioUrl.None? && audioStatus == NotStarted
    ensures !Present(skipAudio) ==> audioStatus in {Completed, Failed}
    ensures !Present(skipAudio) ==>
              (audioStatus == Completed <==> outcome.AudioResolved? && outcome.result.Some?)
    ensures audioStatus == Completed ==>
              audioUrl == (if Given(outcome.result.value.audioUrl) then outcome.result.value.audioUrl else None)
    ensures audioStatus != Completed ==> audioUrl.None?
  {
    audioUrl := None;
    audioStatus := NotStarted;
    if !Present(skipAudio) {
      match outcome
      case AudioThrew =>
        audioStatus := Failed;
      case AudioResolved(result) =>
        if result.Some? && Given(result.value.audioUrl) {
          audioUrl := result.value.audioUrl;
        } else {
          audioUrl := None;
        }
        audioStatus := if result.Some? then Completed else Failed;
    }
  }

  // ----- the image flag -----

  /** `skipImage ?? false`: null and an absent field are stored as false. */
  function SavedSkipImage(skipImage: Option<Json>): (v: Json)
    ensures skipImage.None? || skipImage.value.JNull? ==> v == JBool(false)
    ensures skipImage.Some? && !skipImage.value.JNull? ==> v == skipImage.value
  {
    if skipImage.None? || skipImage.value.JNull? then JBool(false) else skipImage.value
  }

  /** `!skipImage && storyResult.imagePrompt`. */
  predicate SchedulesImage(skipImage: Option<Json>, imagePrompt: Option<Json>) {
    !Present(skipImage) && Present(imagePrompt)
  }

  /** The task is scheduled exactly when the stored flag is falsy and there is a prompt. */
  lemma {:induction false} StoredFlagMatchesSchedule(skipImage: Option<Json>, imagePrompt: Option<Json>)
    ensures SchedulesImage(skipImage, imagePrompt) <==> !Truthy(SavedSkipImage(skipImage)) && Present(imagePrompt)
  {
    if skipImage.Some? && !skipImage.value.JNull? {
      assert SavedSkipImage(skipImage) == skipImage.value;
    }
  }

  // ----- the error response -----

  const DefaultError: string := "Story generation failed"

  /** `error.message || 'Story generation failed'`: never empty. */
  function ErrorMessage(message: Option<string>): (r: string)
    ensures r != ""
    ensures Given(message) ==> r == message.value
    ensures !Given(message) ==> r == DefaultError
  {
    OrText(message, DefaultError)
  }
}
