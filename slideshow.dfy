/** The slideshow's auto-advance (useSlideshowAutoAdvance): when an advance is scheduled, how
    long the reading-time fallback waits, and the timer's step from one slide to the next,
    which stops playback once the last slide wraps round to the first.  The slide state is
    the viewer's; the timers and the audio element are not modelled. */
module Slideshow {
  import opened Wrappers
  import opened Json
  import opened Text

  /** `isPlaying && autoAdvance && segments.length > 1 && fullStoryAudioUrl`: the guard of
      the scheduling effect. */
  predicate ShouldSchedule(isPlaying: bool, autoAdvance: bool, slides: nat, fullStoryAudioUrl: Option<string>) {
    isPlaying && autoAdvance && slides > 1 && Given(fullStoryAudioUrl)
  }

  const MinReadingMs: nat := 5000
  const MsPerWord: nat := 250
  const DefaultWords: nat := 100

  /** `segments[currentSlide]?.segment_text?.split(' ').length || 100`: a slide without a
      text, or past the end, counts 100 words; a text always counts at least one. */
  function SlideWords(texts: seq<Option<string>>, currentSlide: nat): (n: nat)
    ensures n >= 1
    ensures currentSlide < |texts| && texts[currentSlide].Some? ==> n == SpaceSplitCount(texts[currentSlide].value)
    ensures !(currentSlide < |texts| && texts[currentSlide].Some?) ==> n == DefaultWords
  {
    if currentSlide < |texts| && texts[currentSlide].Some? then SpaceSplitCount(texts[currentSlide].value)
    else DefaultWords
  }

  /** `Math.max(5000, wordCount * 250)`: never under five seconds, 250 ms a word above
      that. */
  function ReadingTime(texts: seq<Option<string>>, currentSlide: nat): (ms: nat)
    ensures ms >= MinReadingMs && ms >= SlideWords(texts, currentSlide) * MsPerWord
    ensures ms == MinReadingMs || ms == SlideWords(texts, currentSlide) * MsPerWord
    ensures !(currentSlide < |texts| && texts[currentSlide].Some?) ==> ms == 25000
  {
    var words := SlideWords(texts, currentSlide);
    if words * MsPerWord > MinReadingMs then words * MsPerWord else MinReadingMs
  }

  /** A slide of at most twenty pieces waits the five-second floor. */
  lemma ShortSlidesWaitTheFloor(texts: seq<Option<string>>, currentSlide: nat)
    requires currentSlide < |texts| && texts[currentSlide].Some?
    requires CountChar(texts[currentSlide].value, ' ') < 20
    ensures ReadingTime(texts, currentSlide) == MinReadingMs
  {
  }

  /** The timer the effect sets: none, one timed by the audio track, or one timed by the
      reading time. */
  datatype Timer = NoTimer | AudioTimed | ReadingTimed(ms: nat)

  /** The scheduling effect; `audioReady` says whether the audio element exists and the
      segment durations have been computed. */
  function Schedule(isPlaying: bool, autoAdvance: bool, texts: seq<Option<string>>, currentSlide: nat,
                    fullStoryAudioUrl: Option<string>, audioReady: bool): (t: Timer)
    ensures t.NoTimer? <==> !ShouldSchedule(isPlaying, autoAdvance, |texts|, fullStoryAudioUrl)
    ensures t.AudioTimed? <==> ShouldSchedule(isPlaying, autoAdvance, |texts|, fullStoryAudioUrl) && audioReady
    ensures t.ReadingTimed? ==> t.ms == ReadingTime(texts, currentSlide)
  {
    if !ShouldSchedule(isPlaying, autoAdvance, |texts|, fullStoryAudioUrl) then NoTimer
    else if audioReady then AudioTimed
    else ReadingTimed(ReadingTime(texts, currentSlide))
  }

  /** `(prev + 1) % segments.length`: always a valid slide. */
  function NextSlide(prev: nat, slides: nat): (next: nat)
    requires slides > 0
    ensures next < slides
    ensures prev < slides - 1 ==> next == prev + 1
    ensures prev == slides - 1 ==> next == 0
  {
    (prev + 1) % slides
  }

  class SlideshowState {
    var currentSlide: nat
    var isPlaying: bool

    constructor (currentSlide: nat, isPlaying: bool)
      ensures this.currentSlide == currentSlide && this.isPlaying == isPlaying
    {
      this.currentSlide := currentSlide;
      this.isPlaying := isPlaying;
    }

    /** The timer's callback: move to the next slide, and stop playing when the last slide
        wraps round to the first. */
    method Advance(slides: nat)
      requires slides > 0
      modifies this
      ensures currentSlide == NextSlide(old(currentSlide), slides)
      ensures isPlaying == (old(isPlaying) && !(currentSlide == 0 && old(currentSlide) == slides - 1))
    {
      var prev := currentSlide;
      var nextSlide := (prev + 1) % slides;
      if nextSlide == 0 && prev == slides - 1 {
        isPlaying := false;
      }
      currentSlide := nextSlide;
    }
  }

  /** A show started on the first slide plays every slide once: it advances `slides - 1`
      times still playing and stops on the advance that returns to the first slide. */
  method PlayThrough(slides: nat) returns (advances: nat, finalSlide: nat, playing: bool)
    requires slides > 0
    ensures advances == slides && finalSlide == 0 && !playing
  {
    var show := new SlideshowState(0, true);
    advances := 0;
    while show.isPlaying
      invariant show.isPlaying ==> show.currentSlide == advances && advances < slides
      invariant !show.isPlaying ==> show.currentSlide == 0 && advances == slides
      decreases slides - advances
    {
      show.Advance(slides);
      advances := advances + 1;
    }
    finalSlide, playing := show.currentSlide, show.isPlaying;
  }
}
