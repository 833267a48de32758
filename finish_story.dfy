/** The finish-story function: it writes a generated ending as a new last segment of the
    story and marks the story completed, and its own image task fills in the ending's image.
    The story-segments query, the ending text the model returns, the image outcome, the id
    the database assigns and every database error are inputs. */
module FinishStory {
  import opened Wrappers
  import opened Json
  import opened Text
  import opened Store

  // ----- the ending record -----

  const EndingChoiceText: string := "End the story"

  /** The prompt the fixed image task is given; it is never empty. */
  const EndingImagePrompt: string := "Epic conclusion scene, cinematic lighting, fantasy illustration style"

  /** `skipImage = false` in the destructuring: only an absent field takes the default. */
  function SkipImage(skipImage: Option<Json>): (v: Json)
    ensures skipImage.None? ==> v == JBool(false)
    ensures skipImage.Some? ==> v == skipImage.value
  {
    if skipImage.None? then JBool(false) else skipImage.value
  }

  /** The row inserted after `parentId`: no choices, marked as the end, the fixed choice
      text, the word count of the ending, and an image status of 'not_started' when images
      are skipped and 'pending' otherwise; audio is 'not_started'. */
  function EndingSegment(storyId: string, parentId: string, text: string, skipImage: Option<Json>): (row: SegmentRow)
    ensures row.storyId == storyId && row.parent == Some(parentId) && row.text == text
    ensures row.choices == [] && row.isEnd && row.triggeringChoice == Some(EndingChoiceText)
    ensures row.wordCount == WordCount(text) && (row.wordCount == 0 <==> AllSpace(text))
    ensures row.imageStatus == (if Truthy(SkipImage(skipImage)) then NotStarted else Pending)
    ensures row.imageUrl.None? && row.audioUrl.None? && row.audioStatus == NotStarted
  {
    SegmentRow(storyId, Some(parentId), text, [], true, Some(EndingChoiceText), WordCount(text), None,
               if Truthy(SkipImage(skipImage)) then NotStarted else Pending, None, NotStarted)
  }

  // ----- the ending prompt -----

  function EndingLead(mode: string): string {
    "Write a satisfying conclusion to this " + mode + " story. \n\nComplete story so far:\n"
  }

  const EndingInstructions: string :=
    "\n\nCreate a proper ending that:\n- Brings the story to a meaningful close\n"
    + "- Resolves the main conflict or journey\n- Provides closure for the characters\n"
    + "- Matches the tone and style of the story\n- Is 100-150 words\n"
    + "- Does NOT include any choices (this is the ending)\n\nWrite only the conclusion segment text."

  /** The ending prompt: the whole story so far, segment texts separated by blank lines,
      between the lead naming the mode and the fixed instructions. */
  function EndingPrompt(mode: string, texts: seq<string>): (r: string)
    ensures StartsWith(r, EndingLead(mode)) && EndsWith(r, EndingInstructions)
    ensures |r| == |EndingLead(mode)| + |Join(texts, "\n\n")| + |EndingInstructions|
    ensures r[|EndingLead(mode)|..|r| - |EndingInstructions|] == Join(texts, "\n\n")
  {
    var lead := EndingLead(mode);
    var r := lead + Join(texts, "\n\n") + EndingInstructions;
    assert r[..|lead|] == lead;
    assert r[|r| - |EndingInstructions|..] == EndingInstructions;
    r
  }

  // ----- the handler -----

  /** A row of the ordered segments query. */
  datatype PriorSegment = PriorSegment(id: string, text: string)

  function Texts(segments: seq<PriorSegment>): (r: seq<string>)
    ensures |r| == |segments| && forall i :: 0 <= i < |segments| ==> r[i] == segments[i].text
  {
    seq(|segments|, i requires 0 <= i < |segments| => segments[i].text)
  }

  /** `generateStoryEnding`: it throws (no API key, a failed request), or resolves with the
      model's content, `None` when that is null or absent. */
  datatype EndingReply = EndingThrew | EndingContent(content: Option<string>)

  /** The database calls of the handler that may report an error. */
  datatype FinishStep = ReadStory | InsertEnding | MarkStoryCompleted

  datatype FinishError =
    | MissingStoryId
    | StoryFetchFailed
    | SegmentsFetchFailed
    | EndingFailed         // thrown by `generateStoryEnding`
    | EmptyEnding
    | InsertFailed

  /** The fixed message of an error, or `None` when the message comes from elsewhere
      (the database error's message, or the error `generateStoryEnding` threw). */
  function Message(e: FinishError): (m: Option<string>)
    ensures m.Some? <==> e in {MissingStoryId, SegmentsFetchFailed, EmptyEnding}
  {
    match e
    case MissingStoryId => Some("Story ID is required")
    case SegmentsFetchFailed => Some("Failed to fetch story segments")
    case EmptyEnding => Some("Failed to generate ending text")
    case _ => None
  }

  datatype FinishResponse = Finished(endingId: string, ending: SegmentRow) | FinishFailed(error: FinishError)

  function StatusCode(r: FinishResponse): (code: nat)
    ensures code == 200 <==> r.Finished?
    ensures r.FinishFailed? ==> code == 500
  {
    if r.Finished? then 200 else 500
  }

  /** `serve` for a POST request.  `segments` is `None` when the query reports an error or
      no data; `newId` is the id the database gives the inserted row.  `prompt` is what was
      sent to the model, and `scheduled` the segment handed to the background image task. */
  method Serve(db: Database, storyId: Option<string>, skipImage: Option<Json>, segments: Option<seq<PriorSegment>>,
               reply: EndingReply, newId: string, failing: set<FinishStep>)
    returns (response: FinishResponse, prompt: Option<string>, scheduled: Option<string>)
    modifies db
    ensures !Given(storyId) ==> response == FinishFailed(MissingStoryId) && prompt.None?
    ensures Given(storyId) && (ReadStory in failing || storyId.value !in old(db.stories)) ==>
              response == FinishFailed(StoryFetchFailed) && prompt.None?
    ensures Given(storyId) && ReadStory !in failing && storyId.value in old(db.stories)
            && (segments.None? || segments.value == []) ==>
              response == FinishFailed(SegmentsFetchFailed) && prompt.None?
    ensures prompt.Some? <==>
              Given(storyId) && ReadStory !in failing && storyId.value in old(db.stories)
              && segments.Some? && segments.value != []
    ensures prompt.Some? ==>
              prompt.value == EndingPrompt(OrText(old(db.stories)[storyId.value].storyMode, "fantasy"),
                                           Texts(segments.value))
    ensures prompt.Some? && reply.EndingThrew? ==> response == FinishFailed(EndingFailed)
    ensures prompt.Some? && reply.EndingContent? && !Given(reply.content) ==> response == FinishFailed(EmptyEnding)
    ensures prompt.Some? && reply.EndingContent? && Given(reply.content)
            && (InsertEnding in failing || newId in old(db.segments)) ==>
              response == FinishFailed(InsertFailed)
    ensures response.FinishFailed? ==> db.State() == old(db.State()) && scheduled.None?
    ensures response.Finished? ==>
              && prompt.Some? && reply.EndingContent? && Given(reply.content)
              && response.endingId == newId && newId !in old(db.segments)
              && response.ending == EndingSegment(storyId.value, segments.value[|segments.value| - 1].id,
                                                  reply.content.value, skipImage)
              && db.segments == old(db.segments)[newId := response.ending]
              && db.stories == (if MarkStoryCompleted in failing then old(db.stories)
                                else WithCompleted(old(db.stories), storyId.value))
    ensures scheduled == (if response.Finished? && !Truthy(SkipImage(skipImage)) then Some(newId) else None)
  {
    prompt, scheduled := None, None;
    if !Given(storyId) {
      return FinishFailed(MissingStoryId), prompt, scheduled;
    }
    var id := storyId.value;
    var story := db.ReadStory(id, ReadStory in failing);
    if story.None? {
      return FinishFailed(StoryFetchFailed), prompt, scheduled;
    }
    if segments.None? || |segments.value| == 0 {
      return FinishFailed(SegmentsFetchFailed), prompt, scheduled;
    }
    var latest := segments.value[|segments.value| - 1];
    prompt := Some(EndingPrompt(OrText(story.value.storyMode, "fantasy"), Texts(segments.value)));
    if reply.EndingThrew? {
      return FinishFailed(EndingFailed), prompt, scheduled;
    }
    if !Given(reply.content) {
      return FinishFailed(EmptyEnding), prompt, scheduled;
    }
    var ending := EndingSegment(id, latest.id, reply.content.value, skipImage);
    var error := db.InsertSegment(newId, ending, InsertEnding in failing);
    if error {
      return FinishFailed(InsertFailed), prompt, scheduled;
    }
    if !Truthy(SkipImage(skipImage)) {
      scheduled := Some(newId);
    }
    // a failure to mark the story completed is only a warning
    error := db.SetCompleted(id, MarkStoryCompleted in failing);
    response := Finished(newId, ending);
  }

  /** A finish that succeeds with every write accepted leaves the story completed and the
      ending as the child of the last segment; the ending has no choices. */
  lemma FinishedStoryIsCompleted(before: Tables, after: Tables, storyId: string, endingId: string, ending: SegmentRow)
    requires storyId in before.stories && after.stories == WithCompleted(before.stories, storyId)
    requires endingId !in before.segments && after.segments == before.segments[endingId := ending]
    ensures after.stories[storyId].isCompleted
    ensures after.segments.Keys == before.segments.Keys + {endingId}
    ensures forall k :: k in before.segments ==> after.segments[k] == before.segments[k]
  {
  }

  // ----- this function's own image task -----

  /** The database calls of the image task that may report an error; none is checked. */
  datatype ImageStep = MarkInProgress | MarkCompleted | MarkCaughtFailed

  /** The image request and upload: some step threw (no API key, a failed request, a failed
      upload), or the image is stored under `url`. */
  datatype EndingImage = ImageThrew | ImageStored(url: string)

  /** The tables after this file's `processImageGeneration`: the specification of
      `ProcessImageGeneration`. */
  function ImageProcessed(t: Tables, segmentId: string, outcome: EndingImage, failing: set<ImageStep>): (r: Tables)
    ensures r.stories == t.stories
    ensures r.segments.Keys == t.segments.Keys
    ensures forall k :: k in t.segments && k != segmentId ==> r.segments[k] == t.segments[k]
    ensures segmentId in t.segments && outcome.ImageStored? && MarkCompleted !in failing ==>
              r.segments[segmentId] == t.segments[segmentId].(imageUrl := Some(outcome.url), imageStatus := Completed)
    ensures segmentId in t.segments && outcome.ImageThrew? && MarkCaughtFailed !in failing ==>
              r.segments[segmentId] == t.segments[segmentId].(imageStatus := Failed)
  {
    var started := if MarkInProgress in failing then t.segments else WithImageStatus(t.segments, segmentId, InProgress);
    match outcome
    case ImageThrew =>
      t.(segments := if MarkCaughtFailed in failing then started else WithImageStatus(started, segmentId, Failed))
    case ImageStored(url) =>
      t.(segments := if MarkCompleted in failing then started else WithImage(started, segmentId, url))
  }

  /** `processImageGeneration(segmentId, storyId, imagePrompt, ...)` of finish-story. */
  method ProcessImageGeneration(db: Database, segmentId: string, storyId: string, outcome: EndingImage,
                                failing: set<ImageStep>)
    modifies db
    ensures db.State() == ImageProcessed(old(db.State()), segmentId, outcome, failing)
  {
    var error := db.SetImageStatus(segmentId, InProgress, MarkInProgress in failing);
    if outcome.ImageThrew? {
      error := db.SetImageStatus(segmentId, Failed, MarkCaughtFailed in failing);
      return;
    }
    error := db.SetImage(segmentId, outcome.url, MarkCompleted in failing);
  }

  /** With its writes accepted the ending's image ends 'completed' with its URL or 'failed',
      whatever the rejected 'in_progress' write did. */
  lemma EndingImageEndsCompletedOrFailed(t: Tables, segmentId: string, outcome: EndingImage)
    requires segmentId in t.segments
    ensures var r := ImageProcessed(t, segmentId, outcome, {MarkInProgress});
            r == ImageProcessed(t, segmentId, outcome, {})
            && r.segments[segmentId].imageStatus in {Completed, Failed}
  {
    StatusOverwrite(t.segments, segmentId, InProgress, Failed, if outcome.ImageStored? then outcome.url else "");
  }
}
