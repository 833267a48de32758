/** `useRealtimeHandlers`: a segment-table payload is written into the React Query cache,
    both into the segment's own entry and into the matching segments of the story entry,
    but only when the payload carries an image URL different from the cached one.  The
    refresh calls are reported as counts; their timers are not modelled. */
module RealtimeHandlers {
  import opened Wrappers
  import opened Json

  /** A JavaScript object. */
  type Record = map<string, Json>

  /** The `['story', storyId]` entry: its fields other than `story_segments`, and that list,
      `None` when absent. */
  datatype CachedStory = CachedStory(fields: Record, segments: Option<seq<Record>>)

  /** The cache entries the handler touches: `['segment', id]` for every id, and the story. */
  datatype Caches = Caches(segmentEntries: map<string, Json>, story: Option<CachedStory>)

  /** `segment.id === segmentId`. */
  predicate HasId(r: Record, id: string) {
    "id" in r && r["id"] == JStr(id)
  }

  /** `{ ...segment, ...update }`. */
  function Spread(r: Record, update: Record): (m: Record)
    ensures m.Keys == r.Keys + update.Keys
    ensures forall k :: k in update ==> m[k] == update[k]
    ensures forall k :: k in r && k !in update ==> m[k] == r[k]
  {
    r + update
  }

  /** `story_segments.map(s => s.id === id ? { ...s, ...update } : s)`. */
  function PatchSegments(segments: seq<Record>, id: string, update: Record): (r: seq<Record>)
    ensures |r| == |segments|
    ensures forall i :: 0 <= i < |segments| && HasId(segments[i], id) ==> r[i] == Spread(segments[i], update)
    ensures forall i :: 0 <= i < |segments| && !HasId(segments[i], id) ==> r[i] == segments[i]
  {
    seq(|segments|, i requires 0 <= i < |segments| =>
      if HasId(segments[i], id) then Spread(segments[i], update) else segments[i])
  }

  /** The story-entry updater: an absent entry stays absent; otherwise only the segments
      list changes. */
  function PatchStory(story: Option<CachedStory>, id: string, update: Record): (r: Option<CachedStory>)
    ensures r.None? <==> story.None?
    ensures story.Some? ==> r.value.fields == story.value.fields
    ensures story.Some? ==> (r.value.segments.None? <==> story.value.segments.None?)
    ensures story.Some? && story.value.segments.Some? ==>
              r.value.segments.value == PatchSegments(story.value.segments.value, id, update)
  {
    if story.None? then None
    else
      var s := story.value;
      Some(s.(segments := if s.segments.Some? then Some(PatchSegments(s.segments.value, id, update)) else None))
  }

  /** `currentData ? currentData.image_url : undefined`. */
  function CachedUrl(entries: map<string, Json>, id: string): (url: Option<Json>)
    ensures id in entries && entries[id].JObj? ==> url == Get(entries[id].fields, "image_url")
    ensures (id !in entries || !entries[id].JObj?) ==> url.None?
  {
    if id in entries && Truthy(entries[id]) then Member(entries[id], "image_url") else None
  }

  /** The payload passes both guards and its URL differs from the cached one. */
  predicate Changes(c: Caches, payload: Option<Record>) {
    && payload.Some? && Present(Get(payload.value, "image_url"))
    && TextField(payload.value, "id").Some?
    && Get(payload.value, "image_url") != CachedUrl(c.segmentEntries, TextField(payload.value, "id").value)
  }

  /** The caches after `handleRealtimeUpdate(payload)`; `payload` is `payload.new`. */
  function ApplyUpdate(c: Caches, payload: Option<Record>): (r: Caches)
    ensures !Changes(c, payload) ==> r == c
    ensures Changes(c, payload) ==>
              var id := TextField(payload.value, "id").value;
              r == Caches(c.segmentEntries[id := JObj(payload.value)], PatchStory(c.story, id, payload.value))
  {
    if !Changes(c, payload) then c
    else
      var id := TextField(payload.value, "id").value;
      Caches(c.segmentEntries[id := JObj(payload.value)], PatchStory(c.story, id, payload.value))
  }

  /** Spreading the same record twice is spreading it once. */
  lemma {:induction false} PatchSegmentsIdempotent(segments: seq<Record>, id: string, update: Record)
    requires HasId(update, id)
    ensures PatchSegments(PatchSegments(segments, id, update), id, update) == PatchSegments(segments, id, update)
  {
    var once := PatchSegments(segments, id, update);
    forall i | 0 <= i < |segments|
      ensures PatchSegments(once, id, update)[i] == once[i]
    {
      if HasId(segments[i], id) {
        assert HasId(once[i], id);
        assert Spread(once[i], update) == once[i];
      }
    }
  }

  /** Delivering the same payload twice leaves the caches as after the first delivery. */
  lemma {:induction false} ApplyUpdateIdempotent(c: Caches, payload: Option<Record>)
    ensures ApplyUpdate(ApplyUpdate(c, payload), payload) == ApplyUpdate(c, payload)
  {
    if Changes(c, payload) {
      var p := payload.value;
      var id := TextField(p, "id").value;
      var once := ApplyUpdate(c, payload);
      assert CachedUrl(once.segmentEntries, id) == Get(p, "image_url");
      assert !Changes(once, payload);
    }
  }

  /** The image generation of the payload has completed. */
  predicate Completed(payload: Record) {
    Get(payload, "image_generation_status") == Some(JStr("completed"))
  }

  class QueryCache {
    var segmentEntries: map<string, Json>
    var story: Option<CachedStory>

    constructor (c: Caches)
      ensures segmentEntries == c.segmentEntries && story == c.story
    {
      segmentEntries := c.segmentEntries;
      story := c.story;
    }

    function State(): Caches
      reads this
    {
      Caches(segmentEntries, story)
    }

    /** `handleRealtimeUpdate(payload)`: `refreshes` counts the immediate `forceRefresh`
        calls, `staggered` says whether the delayed refreshes are scheduled. */
    method HandleRealtimeUpdate(payload: Option<Record>) returns (refreshes: nat, staggered: bool)
      modifies this
      ensures State() == ApplyUpdate(old(State()), payload)
      ensures var passes := payload.Some? && Present(Get(payload.value, "image_url"))
                            && TextField(payload.value, "id").Some?;
              staggered <==> passes && Completed(payload.value)
      ensures refreshes == (if Changes(old(State()), payload) then 1 else 0) + (if staggered then 1 else 0)
    {
      refreshes, staggered := 0, false;
      if payload.None? || !Present(Get(payload.value, "image_url")) {
        return;
      }
      var p := payload.value;
      var segmentId := TextField(p, "id");
      if segmentId.None? {
        return;
      }
      var id := segmentId.value;
      var currentImageUrl := CachedUrl(segmentEntries, id);
      if Get(p, "image_url") != currentImageUrl {
        segmentEntries := segmentEntries[id := JObj(p)];
        story := PatchStory(story, id, p);
        refreshes := refreshes + 1;
      }
      if Completed(p) {
        refreshes := refreshes + 1;
        staggered := true;
      }
    }
  }

  /** The calls `handleStoryUpdate` makes: `lastUpdates` calls to `updateLastUpdateTime`,
      `immediate` calls to `forceRefresh`, and the delays of the scheduled ones. */
  datatype RefreshPlan = RefreshPlan(lastUpdates: nat, immediate: nat, delayed: seq<nat>)

  /** `handleStoryUpdate(payload)`: one refresh for every payload, three more once the story
      audio has completed. */
  function HandleStoryUpdate(payload: Option<Record>): (p: RefreshPlan)
    ensures p.lastUpdates == 1 && p.immediate == 1
    ensures p.delayed != [] <==> payload.Some? && Get(payload.value, "audio_generation_status") == Some(JStr("completed"))
    ensures p.delayed != [] ==> p.delayed == [200, 500, 1000]
  {
    if payload.Some? && Get(payload.value, "audio_generation_status") == Some(JStr("completed"))
    then RefreshPlan(1, 1, [200, 500, 1000])
    else RefreshPlan(1, 1, [])
  }
}
