/** The story cover utilities (storyCoverUtils.ts): the cover image with its fallback by
    story mode, the repair that copies a story's root-segment image into its thumbnail, and
    the batch that runs the repair over the stories still without a thumbnail.  Database
    faults are inputs. */
module StoryCover {
  import opened Wrappers
  import opened Json
  import opened Store

  const DefaultMode: string := "Epic Fantasy"
  const DefaultCover: string := "/images/epic-fantasy.png"

  /** The generic image of each story mode. */
  const ModeImages: map<string, string> := map[
    "Epic Fantasy" := "/images/epic-fantasy.png",
    "Sci-Fi Thriller" := "/images/sci-fi-thriller.png",
    "Mystery Detective" := "/images/mystery-detective.png",
    "Horror Story" := "/images/horror-story.png",
    "Adventure Quest" := "/images/adventure-quest.png",
    "Romantic Drama" := "/images/romantic-drama.png",
    "Comedy Adventure" := "/images/comedy-adventure.png",
    "Historical Journey" := "/images/historical-journey.png",
    "Child-Adapted Story" := "/images/child-adapted-story.png",
    "Educational Adventure" := "/images/educational-adventure.png"
  ]

  /** `imageMap[mode] || '/images/epic-fantasy.png'`: always one of the generic images. */
  function ModeCover(mode: string): (r: string)
    ensures mode in ModeImages ==> r == ModeImages[mode]
    ensures mode !in ModeImages ==> r == DefaultCover
    ensures r in ModeImages.Values && r != "" && r != Placeholder
  {
    assert ModeImages[DefaultMode] == DefaultCover;
    if mode in ModeImages then ModeImages[mode] else DefaultCover
  }

  /** `getStoryCoverImage(story)`: the story's own thumbnail when it is a real image,
      otherwise the generic image of its mode, a missing mode counting as 'Epic Fantasy'.
      The cover is never empty and never the placeholder. */
  function GetStoryCoverImage(thumbnailUrl: Option<string>, storyMode: Option<string>): (r: string)
    ensures r != "" && r != Placeholder
    ensures RealImage(thumbnailUrl) ==> r == thumbnailUrl.value
    ensures !RealImage(thumbnailUrl) ==> r == ModeCover(OrText(storyMode, DefaultMode)) && r in ModeImages.Values
    ensures !RealImage(thumbnailUrl) && !Given(storyMode) ==> r == DefaultCover
  {
    if RealImage(thumbnailUrl) then thumbnailUrl.value else ModeCover(OrText(storyMode, DefaultMode))
  }

  // ----- the thumbnail repair -----

  /** The ids of the story's root segments (no parent). */
  function RootRows(segments: map<string, SegmentRow>, storyId: string): set<string> {
    set k | k in segments && segments[k].storyId == storyId && segments[k].parent.None?
  }

  lemma SingletonMember<T>(s: set<T>, x: T)
    requires |s| == 1 && x in s
    ensures s == {x}
  {
    assert |s - {x}| == 0;
  }

  /** The `.single()` query for the root segment's `image_url`: it yields a row only when
      there is exactly one root segment. */
  ghost function RootImage(segments: map<string, SegmentRow>, storyId: string): (r: Option<Option<string>>)
    ensures r.Some? <==> |RootRows(segments, storyId)| == 1
    ensures r.Some? ==> forall k :: k in RootRows(segments, storyId) ==> r.value == segments[k].imageUrl
  {
    var roots := RootRows(segments, storyId);
    if |roots| != 1 then None
    else
      var k :| k in roots;
      SingletonMember(roots, k);
      Some(segments[k].imageUrl)
  }

  /** The repair succeeds: the query found the root and its image is a real one, and the
      database accepted the write. */
  ghost predicate Repairs(segments: map<string, SegmentRow>, storyId: string, readFails: bool, writeFails: bool) {
    && !readFails && RootImage(segments, storyId).Some?
    && RealImage(RootImage(segments, storyId).value) && !writeFails
  }

  /** The stories table after `updateStoryThumbnailFromFirstSegment(storyId)`. */
  ghost function Repaired(t: Tables, storyId: string, readFails: bool, writeFails: bool): (r: map<string, StoryRow>)
    ensures r.Keys == t.stories.Keys
    ensures !Repairs(t.segments, storyId, readFails, writeFails) ==> r == t.stories
    ensures Repairs(t.segments, storyId, readFails, writeFails) ==>
              r == WithThumbnail(t.stories, storyId, RootImage(t.segments, storyId).value.value)
    ensures forall k :: k in t.stories && k != storyId ==> r[k] == t.stories[k]
  {
    if Repairs(t.segments, storyId, readFails, writeFails)
    then WithThumbnail(t.stories, storyId, RootImage(t.segments, storyId).value.value)
    else t.stories
  }

  /** `updateStoryThumbnailFromFirstSegment(storyId)`; `readFails` and `writeFails` say
      whether the database rejects the query and the update. */
  method UpdateStoryThumbnailFromFirstSegment(db: Database, storyId: string, readFails: bool, writeFails: bool)
    returns (ok: bool)
    modifies db
    ensures ok <==> Repairs(old(db.segments), storyId, readFails, writeFails)
    ensures db.segments == old(db.segments)
    ensures db.stories == Repaired(old(db.State()), storyId, readFails, writeFails)
  {
    var roots := RootRows(db.segments, storyId);
    if readFails || |roots| != 1 {
      return false;
    }
    var k :| k in roots;
    var image := db.segments[k].imageUrl;
    if !Given(image) || image.value == Placeholder {
      return false;
    }
    var error := db.SetThumbnail(storyId, image.value, writeFails);
    ok := !error;
  }

  /** A placeholder or empty image in the root segment is never copied. */
  lemma {:induction false} PlaceholderNeverCopied(t: Tables, storyId: string, readFails: bool, writeFails: bool)
    requires RootImage(t.segments, storyId).Some?
    requires !RealImage(RootImage(t.segments, storyId).value)
    ensures Repaired(t, storyId, readFails, writeFails) == t.stories
  {
    assert !Repairs(t.segments, storyId, readFails, writeFails);
  }

  // ----- the batch -----

  const BatchLimit: nat := 50

  /** The stories table after repairing `ids` one after the other; repairs never touch the
      segments, so each one reads the same root segments. */
  ghost function Batched(t: Tables, ids: seq<string>, readFails: seq<bool>, writeFails: seq<bool>): (r: map<string, StoryRow>)
    requires |readFails| == |ids| && |writeFails| == |ids|
    ensures r.Keys == t.stories.Keys
    ensures forall k :: k in t.stories && k !in ids ==> r[k] == t.stories[k]
    decreases |ids|
  {
    if ids == [] then t.stories
    else
      var n := |ids| - 1;
      var before := Batched(t, ids[..n], readFails[..n], writeFails[..n]);
      Repaired(Tables(t.segments, before), ids[n], readFails[n], writeFails[n])
  }

  /** How many of the repairs succeed. */
  ghost function Successes(t: Tables, ids: seq<string>, readFails: seq<bool>, writeFails: seq<bool>): (n: nat)
    requires |readFails| == |ids| && |writeFails| == |ids|
    ensures n <= |ids|
    decreases |ids|
  {
    if ids == [] then 0
    else
      var k := |ids| - 1;
      Successes(t, ids[..k], readFails[..k], writeFails[..k])
        + (if Repairs(t.segments, ids[k], readFails[k], writeFails[k]) then 1 else 0)
  }

  /** One more repair extends the batch by one step. */
  lemma BatchStep(t: Tables, ids: seq<string>, readFails: seq<bool>, writeFails: seq<bool>, i: nat)
    requires |readFails| == |ids| && |writeFails| == |ids| && i < |ids|
    ensures Batched(t, ids[..i + 1], readFails[..i + 1], writeFails[..i + 1])
         == Repaired(Tables(t.segments, Batched(t, ids[..i], readFails[..i], writeFails[..i])), ids[i], readFails[i], writeFails[i])
    ensures Successes(t, ids[..i + 1], readFails[..i + 1], writeFails[..i + 1])
         == Successes(t, ids[..i], readFails[..i], writeFails[..i]) + (if Repairs(t.segments, ids[i], readFails[i], writeFails[i]) then 1 else 0)
  {
    assert ids[..i + 1][..i] == ids[..i] && readFails[..i + 1][..i] == readFails[..i] && writeFails[..i + 1][..i] == writeFails[..i];
  }

  datatype BatchOutcome = FetchFailed | NothingToUpdate | Updated(successCount: nat, failureCount: nat)

  /** `batchUpdateStoryThumbnails()`.  `matching` is the ids of the stories whose thumbnail
      is null or the placeholder, in the order the database returns them, of which the query
      keeps the first 50; `readFails[i]` and `writeFails[i]` are the faults of the i-th
      repair. */
  method BatchUpdateStoryThumbnails(db: Database, matching: seq<string>, fetchFails: bool,
                                    readFails: seq<bool>, writeFails: seq<bool>)
    returns (outcome: BatchOutcome)
    modifies db
    requires |readFails| == |matching| && |writeFails| == |matching|
    ensures db.segments == old(db.segments)
    ensures var n := if |matching| <= BatchLimit then |matching| else BatchLimit;
            && (fetchFails ==> outcome == FetchFailed && db.stories == old(db.stories))
            && (!fetchFails && n == 0 ==> outcome == NothingToUpdate && db.stories == old(db.stories))
            && (!fetchFails && n > 0 ==>
                  && outcome.Updated?
                  && outcome.successCount + outcome.failureCount == n
                  && outcome.successCount == Successes(old(db.State()), matching[..n], readFails[..n], writeFails[..n])
                  && db.stories == Batched(old(db.State()), matching[..n], readFails[..n], writeFails[..n]))
  {
    if fetchFails {
      return FetchFailed;
    }
    var stories := if |matching| <= BatchLimit then matching else matching[..BatchLimit];
    if |stories| == 0 {
      return NothingToUpdate;
    }
    assert stories == matching[..|stories|];
    var successCount, failureCount := RepairEach(db, stories, readFails[..|stories|], writeFails[..|stories|]);
    outcome := Updated(successCount, failureCount);
  }

  /** The loop of `batchUpdateStoryThumbnails`: one repair per story in order, counting the
      successes and the failures. */
  method RepairEach(db: Database, stories: seq<string>, rf: seq<bool>, wf: seq<bool>)
    returns (successCount: nat, failureCount: nat)
    modifies db
    requires |rf| == |stories| && |wf| == |stories|
    ensures db.segments == old(db.segments)
    ensures successCount + failureCount == |stories|
    ensures successCount == Successes(old(db.State()), stories, rf, wf)
    ensures db.stories == Batched(old(db.State()), stories, rf, wf)
  {
    ghost var t := db.State();
    successCount, failureCount := 0, 0;
    var i := 0;
    while i < |stories|
      invariant 0 <= i <= |stories|
      invariant db.segments == t.segments
      invariant db.stories == Batched(t, stories[..i], rf[..i], wf[..i])
      invariant successCount == Successes(t, stories[..i], rf[..i], wf[..i])
      invariant successCount + failureCount == i
    {
      var success := UpdateStoryThumbnailFromFirstSegment(db, stories[i], rf[i], wf[i]);
      BatchStep(t, stories, rf, wf, i);
      if success {
        successCount := successCount + 1;
      } else {
        failureCount := failureCount + 1;
      }
      i := i + 1;
    }
    assert stories[..i] == stories && rf[..i] == rf && wf[..i] == wf;
  }

  /** When the fetched ids are distinct, every story whose repair succeeded ends the batch
      with its root segment's image as the thumbnail. */
  lemma {:induction false} BatchRepairsEach(t: Tables, ids: seq<string>, readFails: seq<bool>,
                                            writeFails: seq<bool>, i: nat)
    requires |readFails| == |ids| && |writeFails| == |ids|
    requires forall a, b :: 0 <= a < b < |ids| ==> ids[a] != ids[b]
    requires i < |ids| && ids[i] in t.stories && Repairs(t.segments, ids[i], readFails[i], writeFails[i])
    ensures Batched(t, ids, readFails, writeFails)[ids[i]].thumbnailUrl == RootImage(t.segments, ids[i]).value
    decreases |ids|
  {
    var n := |ids| - 1;
    if i < n {
      BatchRepairsEach(t, ids[..n], readFails[..n], writeFails[..n], i);
    } else {
      assert ids[i] !in ids[..n];
    }
  }
}
