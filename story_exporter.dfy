/** The story exporter (storyExporter.ts): the export data with its metadata, the plain-text
    export, the file names and the selection of images for the image page.  The two
    database reads, the clock and the locale-formatted dates are inputs. */
module StoryExporter {
  import opened Wrappers
  import opened Json
  import opened Text
  import opened Store

  /** The selected columns of a segment row. */
  datatype ExportSegment = ExportSegment(
    id: string,
    text: Option<string>,
    imageUrl: Option<string>,
    audioUrl: Option<string>,
    triggeringChoice: Option<string>)

  /** The selected columns of the story row the export uses. */
  datatype ExportStory = ExportStory(title: Option<string>, storyMode: Option<string>, fullStoryAudioUrl: Option<string>)

  datatype Metadata = Metadata(exportDate: string, totalWords: nat, totalSegments: nat, hasAudio: bool,
                               hasImages: bool, storyMode: string)

  datatype ExportData = ExportData(story: ExportStory, segments: seq<ExportSegment>, metadata: Metadata)

  // ----- the metadata -----

  /** `segment.segment_text?.split(' ').length || 0`: a missing text counts 0, any text, even
      an empty one, one piece more than its spaces. */
  function Pieces(segment: ExportSegment): (n: nat)
    ensures n == 0 <==> segment.text.None?
    ensures segment.text.Some? ==> n == CountChar(segment.text.value, ' ') + 1
  {
    if segment.text.Some? then SpaceSplitCount(segment.text.value) else 0
  }

  /** `totalWords`: the reduce over the segments in order. */
  function TotalWords(segments: seq<ExportSegment>): (n: nat)
    ensures n == 0 <==> forall i :: 0 <= i < |segments| ==> segments[i].text.None?
    decreases |segments|
  {
    if segments == [] then 0
    else
      var k := |segments| - 1;
      assert forall i :: 0 <= i < k ==> segments[..k][i] == segments[i];
      TotalWords(segments[..k]) + Pieces(segments[k])
  }

  /** The count of a concatenation of segment lists is the sum of their counts. */
  lemma {:induction false} TotalWordsAppend(a: seq<ExportSegment>, b: seq<ExportSegment>)
    ensures TotalWords(a + b) == TotalWords(a) + TotalWords(b)
    decreases |b|
  {
    if b == [] {
      assert a + b == a;
    } else {
      var k := |b| - 1;
      assert (a + b)[..|a| + k] == a + b[..k];
      assert (a + b)[|a| + k] == b[k];
      TotalWordsAppend(a, b[..k]);
    }
  }

  /** `segments.some(segment => segment.audio_url)`. */
  function AnyAudio(segments: seq<ExportSegment>): (b: bool)
    ensures b <==> exists i :: 0 <= i < |segments| && Given(segments[i].audioUrl)
    decreases |segments|
  {
    if segments == [] then false
    else
      assert forall i :: 1 <= i < |segments| ==> segments[1..][i - 1] == segments[i];
      Given(segments[0].audioUrl) || AnyAudio(segments[1..])
  }

  /** `segments.some(segment => segment.image_url && segment.image_url !== '/placeholder.svg')`. */
  function AnyImage(segments: seq<ExportSegment>): (b: bool)
    ensures b <==> exists i :: 0 <= i < |segments| && RealImage(segments[i].imageUrl)
    decreases |segments|
  {
    if segments == [] then false
    else
      assert forall i :: 1 <= i < |segments| ==> segments[1..][i - 1] == segments[i];
      RealImage(segments[0].imageUrl) || AnyImage(segments[1..])
  }

  /** The errors `fetchStoryData` throws, with the database's message. */
  datatype FetchError = StoryFetchFailed(message: string) | SegmentsFetchFailed(message: string)

  function ErrorText(e: FetchError): (r: string)
    ensures e.StoryFetchFailed? ==> r == "Failed to fetch story: " + e.message
    ensures e.SegmentsFetchFailed? ==> r == "Failed to fetch story segments: " + e.message
  {
    match e
    case StoryFetchFailed(m) => "Failed to fetch story: " + m
    case SegmentsFetchFailed(m) => "Failed to fetch story segments: " + m
  }

  /** `fetchStoryData(storyId)`: `story` and `segments` are the two query results (the
      segments in creation order), `exportDate` the clock's ISO reading. */
  function FetchStoryData(story: Result<ExportStory, string>, segments: Result<seq<ExportSegment>, string>,
                          exportDate: string): (r: Result<ExportData, FetchError>)
    ensures r.Success? <==> story.Success? && segments.Success?
    ensures story.Failure? ==> r == Failure(StoryFetchFailed(story.error))
    ensures story.Success? && segments.Failure? ==> r == Failure(SegmentsFetchFailed(segments.error))
    ensures r.Success? ==>
              && r.value.story == story.value && r.value.segments == segments.value
              && r.value.metadata.exportDate == exportDate
              && r.value.metadata.totalWords == TotalWords(segments.value)
              && r.value.metadata.totalSegments == |segments.value|
              && (r.value.metadata.hasAudio <==>
                    (exists i :: 0 <= i < |segments.value| && Given(segments.value[i].audioUrl))
                    || Given(story.value.fullStoryAudioUrl))
              && (r.value.metadata.hasImages <==>
                    exists i :: 0 <= i < |segments.value| && RealImage(segments.value[i].imageUrl))
              && r.value.metadata.storyMode == OrText(story.value.storyMode, "Unknown")
  {
    if story.Failure? then Failure(StoryFetchFailed(story.error))
    else if segments.Failure? then Failure(SegmentsFetchFailed(segments.error))
    else
      var s := segments.value;
      Success(ExportData(story.value, s,
        Metadata(exportDate, TotalWords(s), |s|, AnyAudio(s) || Given(story.value.fullStoryAudioUrl),
                 AnyImage(s), OrText(story.value.storyMode, "Unknown"))))
  }

  // ----- the plain-text export -----

  /** `${x}` of a text column that may be null. */
  function Shown(text: Option<string>): (r: string)
    ensures text.Some? ==> r == text.value
    ensures text.None? ==> r == "null"
  {
    if text.Some? then text.value else "null"
  }

  /** The header down to the first rule; `created` and `exported` are the locale-formatted
      creation and export dates. */
  function Header(data: ExportData, created: string, exported: string): string {
    "# " + OrText(data.story.title, "Untitled Story") + "\n\n"
      + ("**Story Mode:** " + data.metadata.storyMode + "\n")
      + ("**Created:** " + created + "\n")
      + ("**Total Words:** " + NatToString(data.metadata.totalWords) + "\n")
      + ("**Total Segments:** " + NatToString(data.metadata.totalSegments) + "\n")
      + ("**Exported:** " + exported + "\n\n")
      + "---\n\n"
  }

  /** The header opens with the title, 'Untitled Story' when there is none, and closes with
      a rule. */
  lemma HeaderShape(data: ExportData, created: string, exported: string)
    ensures StartsWith(Header(data, created, exported), "# " + OrText(data.story.title, "Untitled Story") + "\n\n")
    ensures EndsWith(Header(data, created, exported), "---\n\n")
  {
    var r := Header(data, created, exported);
    var lead := "# " + OrText(data.story.title, "Untitled Story") + "\n\n";
    assert r[..|lead|] == lead;
    assert r[|r| - 5..] == "---\n\n";
  }

  /** The choice line: present exactly when the segment was reached by a choice. */
  function ChoiceLine(choice: Option<string>): (r: string)
    ensures r == "" <==> !Given(choice)
    ensures Given(choice) ==> r == "*Choice: \"" + choice.value + "\"*\n\n"
  {
    if Given(choice) then "*Choice: \"" + choice.value + "\"*\n\n" else ""
  }

  /** The image line: present exactly when the segment has a real image. */
  function ImageLine(url: Option<string>): (r: string)
    ensures r == "" <==> !RealImage(url)
    ensures RealImage(url) ==> r == "*[Image available: " + url.value + "]*\n\n"
  {
    if RealImage(url) then "*[Image available: " + url.value + "]*\n\n" else ""
  }

  /** The audio line: present exactly when the segment has audio. */
  function AudioLine(url: Option<string>): (r: string)
    ensures r == "" <==> !Given(url)
    ensures Given(url) ==> r == "*[Audio available: " + url.value + "]*\n\n"
  {
    if Given(url) then "*[Audio available: " + url.value + "]*\n\n" else ""
  }

  /** `## Chapter ${index + 1}` and its blank line. */
  function ChapterHead(index: nat): string {
    "## Chapter " + NatToString(index + 1) + "\n\n"
  }

  /** The block of the segment at position `index`: the heading, the choice, text, image
      and audio lines, and a closing rule. */
  function Chapter(index: nat, segment: ExportSegment): string {
    ChapterHead(index) + ChoiceLine(segment.triggeringChoice) + (Shown(segment.text) + "\n\n")
      + ImageLine(segment.imageUrl) + AudioLine(segment.audioUrl) + "---\n\n"
  }

  /** Every block is headed 'Chapter index+1' and closed by a rule. */
  lemma ChapterShape(index: nat, segment: ExportSegment)
    ensures StartsWith(Chapter(index, segment), ChapterHead(index))
    ensures EndsWith(Chapter(index, segment), "---\n\n")
  {
    var r := Chapter(index, segment);
    assert r[..|ChapterHead(index)|] == ChapterHead(index);
    assert r[|r| - 5..] == "---\n\n";
  }

  /** One block per segment, numbered from 1 in order. */
  function Chapters(segments: seq<ExportSegment>): (r: seq<string>)
    ensures |r| == |segments|
    ensures forall i :: 0 <= i < |segments| ==> r[i] == Chapter(i, segments[i])
  {
    seq(|segments|, i requires 0 <= i < |segments| => Chapter(i, segments[i]))
  }

  function Concat(blocks: seq<string>): string
    decreases |blocks|
  {
    if blocks == [] then "" else Concat(blocks[..|blocks| - 1]) + blocks[|blocks| - 1]
  }

  lemma {:induction false} ConcatAppend(a: seq<string>, b: seq<string>)
    ensures Concat(a + b) == Concat(a) + Concat(b)
    decreases |b|
  {
    if b == [] {
      assert a + b == a;
    } else {
      var k := |b| - 1;
      assert (a + b)[..|a| + k] == a + b[..k];
      assert (a + b)[|a| + k] == b[k];
      ConcatAppend(a, b[..k]);
    }
  }

  /** The closing section: present exactly when the story has a full audio track. */
  function AudioSection(story: ExportStory): (r: string)
    ensures r == "" <==> !Given(story.fullStoryAudioUrl)
    ensures Given(story.fullStoryAudioUrl) ==>
              r == "## 🎵 Complete Story Audio\n\n*[Full story audio: " + story.fullStoryAudioUrl.value + "]*\n\n"
  {
    if Given(story.fullStoryAudioUrl)
    then "## 🎵 Complete Story Audio\n\n*[Full story audio: " + story.fullStoryAudioUrl.value + "]*\n\n"
    else ""
  }

  /** One more block of a prefix appends that block. */
  lemma ConcatPrefixStep(blocks: seq<string>, i: nat)
    requires i < |blocks|
    ensures Concat(blocks[..i + 1]) == Concat(blocks[..i]) + blocks[i]
  {
    assert blocks[..i + 1][..i] == blocks[..i];
  }

  lemma Assoc(a: string, b: string, c: string)
    ensures a + b + c == a + (b + c)
  {
  }

  /** One turn of the `forEach`: the chapter's lines appended to the content. */
  method AppendChapter(content: string, index: nat, segment: ExportSegment) returns (r: string)
    ensures r == content + Chapter(index, segment)
  {
    ghost var block := ChapterHead(index);
    r := content + ("## Chapter " + NatToString(index + 1) + "\n\n");
    if Given(segment.triggeringChoice) {
      Assoc(content, block, ChoiceLine(segment.triggeringChoice));
      r := r + ("*Choice: \"" + segment.triggeringChoice.value + "\"*\n\n");
    }
    block := block + ChoiceLine(segment.triggeringChoice);
    assert r == content + block;
    Assoc(content, block, Shown(segment.text) + "\n\n");
    r := r + (Shown(segment.text) + "\n\n");
    block := block + (Shown(segment.text) + "\n\n");
    if RealImage(segment.imageUrl) {
      Assoc(content, block, ImageLine(segment.imageUrl));
      r := r + ("*[Image available: " + segment.imageUrl.value + "]*\n\n");
    }
    block := block + ImageLine(segment.imageUrl);
    assert r == content + block;
    if Given(segment.audioUrl) {
      Assoc(content, block, AudioLine(segment.audioUrl));
      r := r + ("*[Audio available: " + segment.audioUrl.value + "]*\n\n");
    }
    block := block + AudioLine(segment.audioUrl);
    assert r == content + block;
    Assoc(content, block, "---\n\n");
    r := r + "---\n\n";
  }

  /** The text `exportAsText` builds: the header, the chapters in order and the audio
      section. */
  method RenderText(data: ExportData, created: string, exported: string) returns (content: string)
    ensures content == Header(data, created, exported) + Concat(Chapters(data.segments)) + AudioSection(data.story)
  {
    var head := Header(data, created, exported);
    content := head;
    ghost var blocks := Chapters(data.segments);
    var i := 0;
    while i < |data.segments|
      invariant 0 <= i <= |data.segments|
      invariant content == head + Concat(blocks[..i])
    {
      content := AppendChapter(content, i, data.segments[i]);
      ConcatPrefixStep(blocks, i);
      Assoc(head, Concat(blocks[..i]), blocks[i]);
      i := i + 1;
    }
    assert blocks[..i] == blocks;
    content := content + AudioSection(data.story);
  }

  /** The file `exportAsText` hands to the browser. */
  datatype TextFile = TextFile(content: string, filename: string)

  /** `exportAsText(storyId, title)`. */
  method ExportAsText(story: Result<ExportStory, string>, segments: Result<seq<ExportSegment>, string>,
                      exportDate: string, title: string, created: string, exported: string)
    returns (r: Result<TextFile, FetchError>)
    ensures r.Failure? <==> FetchStoryData(story, segments, exportDate).Failure?
    ensures r.Failure? ==> r.error == FetchStoryData(story, segments, exportDate).error
    ensures r.Success? ==>
              var data := FetchStoryData(story, segments, exportDate).value;
              && r.value.content == Header(data, created, exported) + Concat(Chapters(data.segments)) + AudioSection(data.story)
              && r.value.filename == FileName(title, PlainText)
  {
    var fetched := FetchStoryData(story, segments, exportDate);
    if fetched.Failure? {
      return Failure(fetched.error);
    }
    var content := RenderText(fetched.value, created, exported);
    r := Success(TextFile(content, FileName(title, PlainText)));
  }

  // ----- file names -----

  /** `[a-z0-9]` under the `i` flag. */
  predicate Alnum(c: char) {
    'a' <= c <= 'z' || 'A' <= c <= 'Z' || '0' <= c <= '9'
  }

  /** `toLowerCase` on what the replacement leaves: only ASCII letters change. */
  function Lower(c: char): (r: char)
    ensures 'A' <= c <= 'Z' ==> 'a' <= r <= 'z' && r as int == c as int + 32
    ensures !('A' <= c <= 'Z') ==> r == c
  {
    if 'A' <= c <= 'Z' then (c as int + 32) as char else c
  }

  /** A file-name character. */
  predicate Safe(c: char) {
    'a' <= c <= 'z' || '0' <= c <= '9' || c == '_'
  }

  /** `title.replace(/[^a-z0-9]/gi, '_').toLowerCase()`: one character out for each one in,
      every letter or digit kept in lower case and everything else turned into '_'. */
  function Sanitize(title: string): (r: string)
    ensures |r| == |title|
    ensures forall i :: 0 <= i < |title| ==> r[i] == (if Alnum(title[i]) then Lower(title[i]) else '_')
    ensures forall i :: 0 <= i < |r| ==> Safe(r[i])
  {
    seq(|title|, i requires 0 <= i < |title| => if Alnum(title[i]) then Lower(title[i]) else '_')
  }

  /** A sanitised title sanitises to itself. */
  lemma {:induction false} SanitizeIdempotent(title: string)
    ensures Sanitize(Sanitize(title)) == Sanitize(title)
  {
    var once := Sanitize(title);
    forall i | 0 <= i < |once|
      ensures Sanitize(once)[i] == once[i]
    {
      assert Safe(once[i]);
    }
  }

  datatype ExportFormat = PlainText | WebPage | JsonData | ImageGallery

  function Suffix(format: ExportFormat): string {
    match format
    case PlainText => ".txt"
    case WebPage => ".html"
    case JsonData => "_data.json"
    case ImageGallery => "_images.html"
  }

  /** The download's file name: the sanitised title, then the format's suffix. */
  function FileName(title: string, format: ExportFormat): (r: string)
    ensures |r| == |title| + |Suffix(format)|
    ensures r[..|title|] == Sanitize(title) && r[|title|..] == Suffix(format)
    ensures forall i :: 0 <= i < |title| ==> Safe(r[i])
  {
    Sanitize(title) + Suffix(format)
  }

  // ----- the image page -----

  /** One image on the page with its chapter number. */
  datatype ImageEntry = ImageEntry(chapter: nat, url: string)

  /** The segments with a real image, in order, each numbered by its position. */
  function ImageEntries(segments: seq<ExportSegment>): (r: seq<ImageEntry>)
    ensures |r| <= |segments|
    ensures forall i :: 0 <= i < |r| ==>
              1 <= r[i].chapter <= |segments| && RealImage(segments[r[i].chapter - 1].imageUrl)
              && r[i].url == segments[r[i].chapter - 1].imageUrl.value
    decreases |segments|
  {
    if segments == [] then []
    else
      var k := |segments| - 1;
      var before := ImageEntries(segments[..k]);
      if RealImage(segments[k].imageUrl) then before + [ImageEntry(k + 1, segments[k].imageUrl.value)] else before
  }

  /** The entries are in chapter order, each chapter at most once. */
  lemma {:induction false} ImageEntriesOrdered(segments: seq<ExportSegment>)
    ensures forall i, j :: 0 <= i < j < |ImageEntries(segments)| ==>
              ImageEntries(segments)[i].chapter < ImageEntries(segments)[j].chapter
    decreases |segments|
  {
    if segments != [] {
      var k := |segments| - 1;
      ImageEntriesOrdered(segments[..k]);
    }
  }

  /** Every segment with a real image has its entry. */
  lemma {:induction false} ImageEntriesComplete(segments: seq<ExportSegment>, k: nat)
    requires k < |segments| && RealImage(segments[k].imageUrl)
    ensures ImageEntry(k + 1, segments[k].imageUrl.value) in ImageEntries(segments)
    decreases |segments|
  {
    var n := |segments| - 1;
    if k < n {
      ImageEntriesComplete(segments[..n], k);
    }
  }

  /** The page has no image exactly when the metadata says the story has none. */
  lemma {:induction false} NoEntriesIffNoImages(segments: seq<ExportSegment>)
    ensures ImageEntries(segments) == [] <==> !AnyImage(segments)
  {
    var r := ImageEntries(segments);
    if r != [] {
      var k := r[0].chapter - 1;
      assert RealImage(segments[k].imageUrl);
    }
    if AnyImage(segments) {
      var k :| 0 <= k < |segments| && RealImage(segments[k].imageUrl);
      ImageEntriesComplete(segments, k);
    }
  }

  datatype ImagePage = ImagePage(filename: string, entries: seq<ImageEntry>)

  /** `downloadImages(storyId, title)`: no page (the alert) when no segment has a real
      image. */
  function DownloadImages(story: Result<ExportStory, string>, segments: Result<seq<ExportSegment>, string>,
                          exportDate: string, title: string): (r: Result<Option<ImagePage>, FetchError>)
    ensures r.Failure? <==> FetchStoryData(story, segments, exportDate).Failure?
    ensures r.Failure? ==> r.error == FetchStoryData(story, segments, exportDate).error
    ensures r.Success? ==>
              var data := FetchStoryData(story, segments, exportDate).value;
              && (r.value.None? <==> !data.metadata.hasImages)
              && (r.value.Some? ==> r.value.value == ImagePage(FileName(title, ImageGallery), ImageEntries(data.segments)))
  {
    var fetched := FetchStoryData(story, segments, exportDate);
    if fetched.Failure? then Failure(fetched.error)
    else
      var images := ImageEntries(fetched.value.segments);
      NoEntriesIffNoImages(fetched.value.segments);
      if images == [] then Success(None) else Success(Some(ImagePage(FileName(title, ImageGallery), images)))
  }
}
