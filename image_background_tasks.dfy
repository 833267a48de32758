/** `processImageGeneration` of generate-story-segment (image-background-tasks.ts): the
    background task that drives one segment's `image_generation_status` from 'in_progress'
    to 'completed' with the uploaded URL or to 'failed', and gives the story the image as
    its thumbnail when the segment is the story's first.  The outcome of `generateImage`,
    the upload, and every database error are inputs. */
module ImageBackgroundTasks {
  import opened Wrappers
  import opened Text
  import opened ProviderPolicy
  import opened Store

  /** The database calls of the task, each of which may report an error. */
  datatype Step =
    | MarkBlankFailed     // the 'failed' write for a blank prompt
    | MarkInProgress      // the 'in_progress' write
    | MarkNoImageFailed   // the 'failed' write for a null image
    | MarkCompleted       // the write of the URL and 'completed'
    | ReadParent          // the read of `parent_segment_id, story_id`
    | WriteThumbnail      // the story's `thumbnail_url` write
    | MarkCaughtFailed    // the 'failed' write in the `catch`

  /** `uploadImageToStorage`: it throws, or resolves with the public URL. */
  datatype UploadOutcome = UploadThrew | Uploaded(url: string)

  /** `generateImage` resolved with an image. */
  predicate Produced(generated: Generated) {
    generated.Resolved? && generated.image.Some?
  }

  /** One status write, unless the database rejects it. */
  function Mark(t: Tables, segmentId: string, step: Step, status: GenStatus, failing: set<Step>): (r: Tables)
    ensures r.stories == t.stories
    ensures step in failing ==> r == t
    ensures step !in failing ==> r.segments == WithImageStatus(t.segments, segmentId, status)
  {
    if step in failing then t else t.(segments := WithImageStatus(t.segments, segmentId, status))
  }

  /** The tables after the task: the specification of `ProcessImageGeneration`. */
  function Processed(t: Tables, segmentId: string, prompt: string, generated: Generated,
                     upload: UploadOutcome, failing: set<Step>): (r: Tables)
    ensures r.segments.Keys == t.segments.Keys && r.stories.Keys == t.stories.Keys
    ensures forall k :: k in t.segments && k != segmentId ==> r.segments[k] == t.segments[k]
    ensures segmentId in t.segments ==>
              r.segments[segmentId]
                == t.segments[segmentId].(imageUrl := r.segments[segmentId].imageUrl,
                                          imageStatus := r.segments[segmentId].imageStatus)
    ensures segmentId in t.segments && r.segments[segmentId].imageUrl != t.segments[segmentId].imageUrl ==>
              upload.Uploaded? && r.segments[segmentId].imageUrl == Some(upload.url)
              && r.segments[segmentId].imageStatus == Completed
    ensures r.stories != t.stories ==>
              && !AllSpace(prompt) && Produced(generated)
              && upload.Uploaded? && MarkCompleted !in failing
              && segmentId in t.segments && t.segments[segmentId].parent.None?
              && r.stories == WithThumbnail(t.stories, t.segments[segmentId].storyId, upload.url)
  {
    if AllSpace(prompt) then Mark(t, segmentId, MarkBlankFailed, Failed, failing)
    else
      var started := Mark(t, segmentId, MarkInProgress, InProgress, failing);
      match generated
      case Raised => Mark(started, segmentId, MarkCaughtFailed, Failed, failing)
      case Resolved(None) => Mark(started, segmentId, MarkNoImageFailed, Failed, failing)
      case Resolved(Some(_)) =>
        match upload
        case UploadThrew => Mark(started, segmentId, MarkCaughtFailed, Failed, failing)
        case Uploaded(url) =>
          if MarkCompleted in failing then started
          else
            var done := started.(segments := WithImage(started.segments, segmentId, url));
            if ReadParent !in failing && WriteThumbnail !in failing
               && segmentId in done.segments && done.segments[segmentId].parent.None?
            then done.(stories := WithThumbnail(done.stories, done.segments[segmentId].storyId, url))
            else done
  }

  /** `processImageGeneration(segmentId, storyId, imagePrompt, ...)`.  `storyId` is unused by
      the task, which takes the story from the segment row.  `generating` and `uploading` say
      whether `generateImage` and the upload were called. */
  method ProcessImageGeneration(db: Database, segmentId: string, storyId: string, prompt: string,
                                generated: Generated, upload: UploadOutcome, failing: set<Step>)
    returns (generating: bool, uploading: bool)
    modifies db
    ensures db.State() == Processed(old(db.State()), segmentId, prompt, generated, upload, failing)
    ensures generating <==> !AllSpace(prompt)
    ensures uploading <==> generating && Produced(generated)
  {
    generating, uploading := false, false;
    var error;
    if AllSpace(prompt) {
      error := db.SetImageStatus(segmentId, Failed, MarkBlankFailed in failing);
      return;
    }
    error := db.SetImageStatus(segmentId, InProgress, MarkInProgress in failing);
    // the task goes on whether or not the 'in_progress' write succeeded
    generating := true;
    if generated.Raised? {
      error := db.SetImageStatus(segmentId, Failed, MarkCaughtFailed in failing);
      return;
    }
    if generated.image.None? {
      error := db.SetImageStatus(segmentId, Failed, MarkNoImageFailed in failing);
      return;
    }
    uploading := true;
    if upload.UploadThrew? {
      error := db.SetImageStatus(segmentId, Failed, MarkCaughtFailed in failing);
      return;
    }
    var url := upload.url;
    error := db.SetImage(segmentId, url, MarkCompleted in failing);
    if error {
      return;
    }
    var row := db.ReadSegment(segmentId, ReadParent in failing);
    if row.Some? && row.value.parent.None? {
      error := db.SetThumbnail(row.value.storyId, url, WriteThumbnail in failing);
    }
  }

  /** A blank prompt marks the segment 'failed' and leaves the story alone. */
  lemma BlankPromptFails(t: Tables, segmentId: string, prompt: string, generated: Generated,
                         upload: UploadOutcome, failing: set<Step>)
    requires AllSpace(prompt) && segmentId in t.segments && MarkBlankFailed !in failing
    ensures var r := Processed(t, segmentId, prompt, generated, upload, failing);
            r.segments[segmentId] == t.segments[segmentId].(imageStatus := Failed) && r.stories == t.stories
  {
  }

  /** With every write accepted the task ends in 'completed' with the uploaded URL exactly
      when an image was produced and uploaded, and in 'failed' otherwise. */
  lemma EndsCompletedOrFailed(t: Tables, segmentId: string, prompt: string, generated: Generated,
                              upload: UploadOutcome)
    requires segmentId in t.segments
    ensures var r := Processed(t, segmentId, prompt, generated, upload, {});
            var ok := !AllSpace(prompt) && Produced(generated)
                      && upload.Uploaded?;
            && (ok ==> r.segments[segmentId].imageStatus == Completed
                       && r.segments[segmentId].imageUrl == Some(upload.url))
            && (!ok ==> r.segments[segmentId] == t.segments[segmentId].(imageStatus := Failed))
  {
  }

  /** A successful first segment becomes its story's thumbnail. */
  lemma RootSegmentSetsThumbnail(t: Tables, segmentId: string, prompt: string, blob: Blob, url: string)
    requires segmentId in t.segments && t.segments[segmentId].parent.None?
    requires t.segments[segmentId].storyId in t.stories && !AllSpace(prompt)
    ensures var r := Processed(t, segmentId, prompt, Resolved(Some(blob)), Uploaded(url), {});
            r.stories[t.segments[segmentId].storyId].thumbnailUrl == Some(url)
  {
  }

  /** A segment with a parent never touches the stories, nor does a task whose completion
      write was rejected. */
  lemma StoryUntouchedUnlessRootCompleted(t: Tables, segmentId: string, prompt: string, generated: Generated,
                                          upload: UploadOutcome, failing: set<Step>)
    requires segmentId !in t.segments || t.segments[segmentId].parent.Some? || MarkCompleted in failing
    ensures Processed(t, segmentId, prompt, generated, upload, failing).stories == t.stories
  {
  }

  /** The write that concludes the task for these outcomes. */
  function Concluding(generated: Generated, upload: UploadOutcome): (s: Step)
    ensures s in {MarkCaughtFailed, MarkNoImageFailed, MarkCompleted}
  {
    match generated
    case Raised => MarkCaughtFailed
    case Resolved(None) => MarkNoImageFailed
    case Resolved(Some(_)) => if upload.UploadThrew? then MarkCaughtFailed else MarkCompleted
  }

  /** A rejected 'in_progress' write does not change the result once the concluding write
      is accepted: the task neither aborts nor is visibly affected. */
  lemma {:induction false} InProgressFailureIsHarmless(t: Tables, segmentId: string, prompt: string,
                                                       generated: Generated, upload: UploadOutcome, failing: set<Step>)
    requires !AllSpace(prompt) && Concluding(generated, upload) !in failing
    ensures Processed(t, segmentId, prompt, generated, upload, failing + {MarkInProgress})
         == Processed(t, segmentId, prompt, generated, upload, failing - {MarkInProgress})
  {
    var rejected, accepted := failing + {MarkInProgress}, failing - {MarkInProgress};
    var started := t.(segments := WithImageStatus(t.segments, segmentId, InProgress));
    assert Mark(t, segmentId, MarkInProgress, InProgress, rejected) == t;
    assert Mark(t, segmentId, MarkInProgress, InProgress, accepted) == started;
    match generated
    case Raised =>
      StatusOverwrite(t.segments, segmentId, InProgress, Failed, "");
    case Resolved(None) =>
      StatusOverwrite(t.segments, segmentId, InProgress, Failed, "");
    case Resolved(Some(_)) =>
      match upload
      case UploadThrew =>
        StatusOverwrite(t.segments, segmentId, InProgress, Failed, "");
      case Uploaded(url) =>
        StatusOverwrite(t.segments, segmentId, InProgress, Failed, url);
        assert WithImage(started.segments, segmentId, url) == WithImage(t.segments, segmentId, url);
        assert (ReadParent in rejected <==> ReadParent in accepted) && (WriteThumbnail in rejected <==> WriteThumbnail in accepted);
  }
}
