/** The two database tables the edge functions write, `story_segments` and `stories`, as
    maps of rows keyed by id, and the single-row writes the functions issue.  A write that
    the database rejects reports an error and changes nothing; an update whose id matches
    no row changes nothing and reports no error. */
module Store {
  import opened Wrappers

  /** `image_generation_status` / `audio_generation_status` (src/types/ai.ts), with the
      'pending' value the edge functions also write. */
  datatype GenStatus = NotStarted | Pending | InProgress | Completed | Failed

  /** The columns of a `story_segments` row the model reads or writes. */
  datatype SegmentRow = SegmentRow(
    storyId: string,
    parent: Option<string>,
    text: string,
    choices: seq<string>,
    isEnd: bool,
    triggeringChoice: Option<string>,
    wordCount: nat,
    imageUrl: Option<string>,
    imageStatus: GenStatus,
    audioUrl: Option<string>,
    audioStatus: GenStatus)

  /** The columns of a `stories` row the model reads or writes. */
  datatype StoryRow = StoryRow(storyMode: Option<string>, thumbnailUrl: Option<string>, isCompleted: bool)

  datatype Tables = Tables(segments: map<string, SegmentRow>, stories: map<string, StoryRow>)

  /** The image URL the app stores and shows while no image exists. */
  const Placeholder: string := "/placeholder.svg"

  /** `url && url !== '/placeholder.svg'`: an image URL that shows a real image. */
  predicate RealImage(url: Option<string>) {
    url.Some? && url.value != "" && url.value != Placeholder
  }

  /** `.update({ image_generation_status }).eq('id', id)` on the segments. */
  function WithImageStatus(segments: map<string, SegmentRow>, id: string, status: GenStatus)
    : (r: map<string, SegmentRow>)
    ensures r.Keys == segments.Keys
    ensures id in segments ==> r[id] == segments[id].(imageStatus := status)
    ensures forall k :: k in segments && k != id ==> r[k] == segments[k]
  {
    if id in segments then segments[id := segments[id].(imageStatus := status)] else segments
  }

  /** `.update({ image_url, image_generation_status: 'completed' }).eq('id', id)`. */
  function WithImage(segments: map<string, SegmentRow>, id: string, url: string): (r: map<string, SegmentRow>)
    ensures r.Keys == segments.Keys
    ensures id in segments ==> r[id] == segments[id].(imageUrl := Some(url), imageStatus := Completed)
    ensures forall k :: k in segments && k != id ==> r[k] == segments[k]
  {
    if id in segments then segments[id := segments[id].(imageUrl := Some(url), imageStatus := Completed)]
    else segments
  }

  /** `.update({ thumbnail_url }).eq('id', id)` on the stories. */
  function WithThumbnail(stories: map<string, StoryRow>, id: string, url: string): (r: map<string, StoryRow>)
    ensures r.Keys == stories.Keys
    ensures id in stories ==> r[id] == stories[id].(thumbnailUrl := Some(url))
    ensures forall k :: k in stories && k != id ==> r[k] == stories[k]
  {
    if id in stories then stories[id := stories[id].(thumbnailUrl := Some(url))] else stories
  }

  /** `.update({ is_completed: true }).eq('id', id)` on the stories. */
  function WithCompleted(stories: map<string, StoryRow>, id: string): (r: map<string, StoryRow>)
    ensures r.Keys == stories.Keys
    ensures id in stories ==> r[id] == stories[id].(isCompleted := true)
    ensures forall k :: k in stories && k != id ==> r[k] == stories[k]
  {
    if id in stories then stories[id := stories[id].(isCompleted := true)] else stories
  }

  /** A later status write, or a later completion write, hides an earlier status write. */
  lemma StatusOverwrite(segments: map<string, SegmentRow>, id: string, first: GenStatus, second: GenStatus, url: string)
    ensures WithImageStatus(WithImageStatus(segments, id, first), id, second) == WithImageStatus(segments, id, second)
    ensures WithImage(WithImageStatus(segments, id, first), id, url) == WithImage(segments, id, url)
  {
  }

  class Database {
    var segments: map<string, SegmentRow>
    var stories: map<string, StoryRow>

    constructor (t: Tables)
      ensures segments == t.segments && stories == t.stories
    {
      segments := t.segments;
      stories := t.stories;
    }

    function State(): Tables
      reads this
    {
      Tables(segments, stories)
    }

    method SetImageStatus(id: string, status: GenStatus, fails: bool) returns (error: bool)
      modifies this
      ensures error == fails
      ensures segments == (if fails then old(segments) else WithImageStatus(old(segments), id, status))
      ensures stories == old(stories)
    {
      error := fails;
      if !fails {
        segments := WithImageStatus(segments, id, status);
      }
    }

    method SetImage(id: string, url: string, fails: bool) returns (error: bool)
      modifies this
      ensures error == fails
      ensures segments == (if fails then old(segments) else WithImage(old(segments), id, url))
      ensures stories == old(stories)
    {
      error := fails;
      if !fails {
        segments := WithImage(segments, id, url);
      }
    }

    method SetThumbnail(id: string, url: string, fails: bool) returns (error: bool)
      modifies this
      ensures error == fails
      ensures stories == (if fails then old(stories) else WithThumbnail(old(stories), id, url))
      ensures segments == old(segments)
    {
      error := fails;
      if !fails {
        stories := WithThumbnail(stories, id, url);
      }
    }

    method SetCompleted(id: string, fails: bool) returns (error: bool)
      modifies this
      ensures error == fails
      ensures stories == (if fails then old(stories) else WithCompleted(old(stories), id))
      ensures segments == old(segments)
    {
      error := fails;
      if !fails {
        stories := WithCompleted(stories, id);
      }
    }

    /** `.insert(row).select().single()`: a rejected insert, or one whose id is taken,
        reports an error and adds nothing. */
    method InsertSegment(id: string, row: SegmentRow, fails: bool) returns (error: bool)
      modifies this
      ensures error == (fails || id in old(segments))
      ensures segments == (if error then old(segments) else old(segments)[id := row])
      ensures stories == old(stories)
    {
      error := fails || id in segments;
      if !error {
        segments := segments[id := row];
      }
    }

    /** `.select(...).eq('id', id).single()` on the segments: an error when the read fails or
        no row matches. */
    method ReadSegment(id: string, fails: bool) returns (row: Option<SegmentRow>)
      ensures row.Some? <==> !fails && id in segments
      ensures row.Some? ==> row.value == segments[id]
    {
      if fails || id !in segments {
        return None;
      }
      return Some(segments[id]);
    }

    /** `.select('*').eq('id', id).single()` on the stories. */
    method ReadStory(id: string, fails: bool) returns (row: Option<StoryRow>)
      ensures row.Some? <==> !fails && id in stories
      ensures row.Some? ==> row.value == stories[id]
    {
      if fails || id !in stories {
        return None;
      }
      return Some(stories[id]);
    }
  }
}
