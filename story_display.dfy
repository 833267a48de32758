/** The story viewer's segment state (useStoryDisplay): `loadExistingStory` fills it from
    the story's segments in creation order, and `useStorySegmentRealtime` replaces a segment
    by id when the database pushes an update.  The query result and the two id checks are
    inputs. */
module StoryDisplay {
  import opened Wrappers
  import opened Json
  import opened Text

  type Record = map<string, Json>

  /** The fields of the viewer's `StorySegment` the model follows.  A field is `None` where
      the mapping can leave it undefined and is a plain value where it always has a default. */
  datatype StorySegment = StorySegment(
    id: Option<Json>,
    storyId: Option<Json>,
    text: Option<Json>,
    imageUrl: Json,
    audioUrl: Option<Json>,
    choices: Option<Json>,
    isEnd: Option<Json>,
    imageStatus: Option<Json>,
    audioStatus: Json,
    wordCount: Option<Json>)

  /** `x || undefined`. */
  function Defined(v: Option<Json>): (r: Option<Json>)
    ensures Present(v) ==> r == v
    ensures !Present(v) ==> r.None?
  {
    if Present(v) then v else None
  }

  const NotStarted: Json := JStr("not_started")

  // ----- the loader -----

  /** `segment.word_count || segment.segment_text?.split(/\s+/).length || 0`. */
  function WordCountOf(row: Record): (n: Json)
    ensures Present(Get(row, "word_count")) ==> n == row["word_count"]
    ensures !Present(Get(row, "word_count")) && Get(row, "segment_text").Some? && row["segment_text"].JStr? ==>
              n == JNum(RegexSplitCount(row["segment_text"].s) as real)
    ensures !Present(Get(row, "word_count")) && !(Get(row, "segment_text").Some? && row["segment_text"].JStr?) ==>
              n == JNum(0.0)
  {
    if Present(Get(row, "word_count")) then row["word_count"]
    else if "segment_text" in row && row["segment_text"].JStr? then JNum(RegexSplitCount(row["segment_text"].s) as real)
    else JNum(0.0)
  }

  /** Without a stored count a text always counts at least one piece: the `|| 0` default
      applies only to a missing text, and an empty text counts 1. */
  lemma StoredTextNeverCountsZero(row: Record)
    requires !Present(Get(row, "word_count")) && "segment_text" in row && row["segment_text"].JStr?
    ensures WordCountOf(row).JNum? && WordCountOf(row).n >= 1.0
    ensures row["segment_text"].s == "" ==> WordCountOf(row) == JNum(1.0)
  {
  }

  /** One database row as the loader maps it: the text and end flag as stored, the image URL
      defaulting to '', the audio status to 'not_started'. */
  function FromRow(row: Record): (s: StorySegment)
    ensures s.id == Get(row, "id") && s.storyId == Get(row, "story_id") && s.text == Get(row, "segment_text")
    ensures s.imageUrl == Or(Get(row, "image_url"), JStr(""))
    ensures s.audioUrl == Defined(Get(row, "audio_url"))
    ensures s.isEnd == Get(row, "is_end") && s.choices == Get(row, "choices")
    ensures s.audioStatus == Or(Get(row, "audio_generation_status"), NotStarted)
    ensures s.wordCount == Some(WordCountOf(row))
  {
    StorySegment(Get(row, "id"), Get(row, "story_id"), Get(row, "segment_text"), Or(Get(row, "image_url"), JStr("")),
                 Defined(Get(row, "audio_url")), Get(row, "choices"), Get(row, "is_end"),
                 Get(row, "image_generation_status"), Or(Get(row, "audio_generation_status"), NotStarted),
                 Some(WordCountOf(row)))
  }

  function FromRows(rows: seq<Record>): (r: seq<StorySegment>)
    ensures |r| == |rows| && forall i :: 0 <= i < |rows| ==> r[i] == FromRow(rows[i])
  {
    seq(|rows|, i requires 0 <= i < |rows| => FromRow(rows[i]))
  }

  // ----- the realtime mapping -----

  /** `payload.new` as the realtime hook maps it: text, image URL, choices, end flag and both
      statuses all get defaults. */
  function FromPayload(p: Record): (s: StorySegment)
    ensures s.id == Get(p, "id") && s.storyId == Get(p, "story_id")
    ensures s.text == Some(Or(Get(p, "segment_text"), JStr("")))
    ensures s.imageUrl == Or(Get(p, "image_url"), JStr(""))
    ensures s.audioUrl == Defined(Get(p, "audio_url"))
    ensures s.choices == Some(Or(Get(p, "choices"), JArr([])))
    ensures s.isEnd == Some(Or(Get(p, "is_end"), JBool(false)))
    ensures s.imageStatus == Some(Or(Get(p, "image_generation_status"), NotStarted))
    ensures s.audioStatus == Or(Get(p, "audio_generation_status"), NotStarted)
    ensures s.wordCount == Get(p, "word_count")
  {
    StorySegment(Get(p, "id"), Get(p, "story_id"), Some(Or(Get(p, "segment_text"), JStr(""))),
                 Or(Get(p, "image_url"), JStr("")), Defined(Get(p, "audio_url")), Some(Or(Get(p, "choices"), JArr([]))),
                 Some(Or(Get(p, "is_end"), JBool(false))), Some(Or(Get(p, "image_generation_status"), NotStarted)),
                 Or(Get(p, "audio_generation_status"), NotStarted), Get(p, "word_count"))
  }

  /** `prev.map(s => s.id === id ? updated : s)`. */
  function ReplaceById(segments: seq<StorySegment>, id: Json, updated: StorySegment): (r: seq<StorySegment>)
    ensures |r| == |segments|
    ensures forall i :: 0 <= i < |segments| && segments[i].id == Some(id) ==> r[i] == updated
    ensures forall i :: 0 <= i < |segments| && segments[i].id != Some(id) ==> r[i] == segments[i]
  {
    seq(|segments|, i requires 0 <= i < |segments| => if segments[i].id == Some(id) then updated else segments[i])
  }

  /** No segment with the id: the list is unchanged. */
  lemma {:induction false} ReplaceByIdNoMatch(segments: seq<StorySegment>, id: Json, updated: StorySegment)
    requires forall i :: 0 <= i < |segments| ==> segments[i].id != Some(id)
    ensures ReplaceById(segments, id, updated) == segments
  {
    assert forall i :: 0 <= i < |segments| ==> ReplaceById(segments, id, updated)[i] == segments[i];
  }

  /** Replacing with a segment that carries the id twice is replacing once. */
  lemma {:induction false} ReplaceByIdIdempotent(segments: seq<StorySegment>, id: Json, updated: StorySegment)
    requires updated.id == Some(id)
    ensures ReplaceById(ReplaceById(segments, id, updated), id, updated) == ReplaceById(segments, id, updated)
  {
    var once := ReplaceById(segments, id, updated);
    assert forall i :: 0 <= i < |segments| ==> ReplaceById(once, id, updated)[i] == once[i];
  }

  /** The 'force-image-refresh' event: the segment id and its image URL. */
  datatype RefreshEvent = RefreshEvent(segmentId: Json, imageUrl: Json)

  datatype ViewMode = Create | Player

  class SegmentView {
    var allSegments: seq<StorySegment>
    var current: Option<StorySegment>
    var segmentCount: int
    var viewMode: ViewMode

    constructor ()
      ensures allSegments == [] && current.None? && segmentCount == 0 && viewMode == Create
    {
      allSegments, current, segmentCount, viewMode := [], None, 0, Create;
    }

    /** `loadExistingStory(id, ...)`.  `validId` and `properId` are `isValidUUID(id)` and
        `isProperUUID(id)`; `rows` is the ordered query's data, `None` on an error. */
    method LoadExistingStory(id: Option<string>, validId: bool, properId: bool, rows: Option<seq<Record>>)
      returns (loaded: bool, queried: bool)
      modifies this
      ensures queried <==> Given(id) && validId && properId
      ensures loaded <==> queried && rows.Some? && rows.value != []
      ensures !loaded ==>
                allSegments == old(allSegments) && current == old(current)
                && segmentCount == old(segmentCount) && viewMode == old(viewMode)
      ensures loaded ==>
                allSegments == FromRows(rows.value) && current == Some(allSegments[|allSegments| - 1])
                && segmentCount == |rows.value| && viewMode == Player
    {
      queried := false;
      if !Given(id) || !validId || !properId {
        return false, queried;
      }
      queried := true;
      if rows.None? || |rows.value| == 0 {
        return false, queried;
      }
      var enhanced := FromRows(rows.value);
      allSegments := enhanced;
      current := Some(enhanced[|enhanced| - 1]);
      segmentCount := |enhanced|;
      viewMode := Player;
      loaded := true;
    }

    /** The realtime callback for one UPDATE of the story's segments. */
    method OnSegmentUpdate(payload: Option<Record>) returns (event: Option<RefreshEvent>)
      modifies this
      ensures segmentCount == old(segmentCount) && viewMode == old(viewMode)
      ensures payload.None? || !Present(Get(payload.value, "id")) ==>
                allSegments == old(allSegments) && current == old(current) && event.None?
      ensures payload.Some? && Present(Get(payload.value, "id")) ==>
                var p := payload.value;
                && allSegments == ReplaceById(old(allSegments), p["id"], FromPayload(p))
                && current == (if old(current).Some? && old(current).value.id == Some(p["id"])
                               then Some(FromPayload(p)) else old(current))
                && (event.Some? <==> Get(p, "image_generation_status") == Some(JStr("completed"))
                                     && Present(Get(p, "image_url")))
                && (event.Some? ==> event.value == RefreshEvent(p["id"], p["image_url"]))
    {
      event := None;
      if payload.None? || !Present(Get(payload.value, "id")) {
        return;
      }
      var p := payload.value;
      var updated := FromPayload(p);
      if current.Some? && current.value.id == Some(p["id"]) {
        current := Some(updated);
      }
      allSegments := ReplaceById(allSegments, p["id"], updated);
      if Get(p, "image_generation_status") == Some(JStr("completed")) && Present(Get(p, "image_url")) {
        event := Some(RefreshEvent(p["id"], p["image_url"]));
      }
    }
  }
}
