/** The client-side input validators and the two sliding-window rate limiters of
    src/utils/security.ts.  A validator either returns the trimmed input or fails
    with the error the source throws.  The limiters keep, per key, the list of
    admission timestamps (milliseconds); the clock reading is a parameter. */
module Security {
  import opened Wrappers
  import opened Text

  datatype ValidationError =
    | TitleRequired | TitleTooLong
    | DescriptionTooLong
    | SegmentTextRequired | SegmentTextTooLong
    | ChoiceTooLong
    | PromptRequired | PromptTooLong | PromptInappropriate
    | InvalidGenre
    | ImagePromptRequired | ImagePromptTooLong | ImagePromptInappropriate
    | AudioTextRequired | AudioTextTooLong

  /** The shape shared by the validators of required text: blank input is rejected first,
      then input whose raw (untrimmed) length exceeds the bound; otherwise the trimmed text. */
  function RequiredText(s: string, maxLength: nat, blank: ValidationError, tooLong: ValidationError)
    : (r: Result<string, ValidationError>)
    ensures r.Success? <==> !AllSpace(s) && |s| <= maxLength
    ensures r.Success? ==> r.value == Trim(s) && r.value != ""
    ensures AllSpace(s) ==> r == Failure(blank)
    ensures !AllSpace(s) && |s| > maxLength ==> r == Failure(tooLong)
  {
    TrimEmptyIffAllSpace(s);
    if Trim(s) == "" then Failure(blank)
    else if |s| > maxLength then Failure(tooLong)
    else Success(Trim(s))
  }

  /** The shape of the validators of optional text: any length up to the bound is accepted,
      the empty string included, and the trimmed text is returned. */
  function OptionalText(s: string, maxLength: nat, tooLong: ValidationError)
    : (r: Result<string, ValidationError>)
    ensures r.Success? <==> |s| <= maxLength
    ensures r.Success? ==> r.value == Trim(s)
    ensures r.Failure? ==> r.error == tooLong
  {
    if s != "" && |s| > maxLength then Failure(tooLong) else Success(Trim(s))
  }

  function StoryTitle(title: string): (r: Result<string, ValidationError>)
    ensures r.Success? <==> !AllSpace(title) && |title| <= 200
    ensures r.Success? ==> r.value == Trim(title)
    ensures AllSpace(title) ==> r == Failure(TitleRequired)
    ensures !AllSpace(title) && |title| > 200 ==> r == Failure(TitleTooLong)
  {
    RequiredText(title, 200, TitleRequired, TitleTooLong)
  }

  function StoryDescription(description: string): (r: Result<string, ValidationError>)
    ensures r.Success? <==> |description| <= 1000
    ensures r.Success? ==> r.value == Trim(description)
    ensures r.Failure? ==> r.error == DescriptionTooLong
  {
    OptionalText(description, 1000, DescriptionTooLong)
  }

  function SegmentText(text: string): (r: Result<string, ValidationError>)
    ensures r.Success? <==> !AllSpace(text) && |text| <= 5000
    ensures r.Success? ==> r.value == Trim(text)
    ensures AllSpace(text) ==> r == Failure(SegmentTextRequired)
    ensures !AllSpace(text) && |text| > 5000 ==> r == Failure(SegmentTextTooLong)
  {
    RequiredText(text, 5000, SegmentTextRequired, SegmentTextTooLong)
  }

  function ChoiceText(choice: string): (r: Result<string, ValidationError>)
    ensures r.Success? <==> |choice| <= 200
    ensures r.Success? ==> r.value == Trim(choice)
    ensures r.Failure? ==> r.error == ChoiceTooLong
  {
    OptionalText(choice, 200, ChoiceTooLong)
  }

  /** `flagged` is the outcome of the source's content regular expressions on the prompt,
      which the model does not define; it is consulted only after the blank and length checks. */
  function StoryPrompt(prompt: string, flagged: bool): (r: Result<string, ValidationError>)
    ensures r.Success? <==> !AllSpace(prompt) && |prompt| <= 2000 && !flagged
    ensures r.Success? ==> r.value == Trim(prompt)
    ensures AllSpace(prompt) ==> r == Failure(PromptRequired)
    ensures !AllSpace(prompt) && |prompt| > 2000 ==> r == Failure(PromptTooLong)
    ensures !AllSpace(prompt) && |prompt| <= 2000 && flagged ==> r == Failure(PromptInappropriate)
  {
    var checked := RequiredText(prompt, 2000, PromptRequired, PromptTooLong);
    if checked.Success? && flagged then Failure(PromptInappropriate) else checked
  }

  function ImagePrompt(prompt: string, flagged: bool): (r: Result<string, ValidationError>)
    ensures r.Success? <==> !AllSpace(prompt) && |prompt| <= 1000 && !flagged
    ensures r.Success? ==> r.value == Trim(prompt)
    ensures AllSpace(prompt) ==> r == Failure(ImagePromptRequired)
    ensures !AllSpace(prompt) && |prompt| > 1000 ==> r == Failure(ImagePromptTooLong)
    ensures !AllSpace(prompt) && |prompt| <= 1000 && flagged ==> r == Failure(ImagePromptInappropriate)
  {
    var checked := RequiredText(prompt, 1000, ImagePromptRequired, ImagePromptTooLong);
    if checked.Success? && flagged then Failure(ImagePromptInappropriate) else checked
  }

  function AudioText(text: string): (r: Result<string, ValidationError>)
    ensures r.Success? <==> !AllSpace(text) && |text| <= 10000
    ensures r.Success? ==> r.value == Trim(text)
    ensures AllSpace(text) ==> r == Failure(AudioTextRequired)
    ensures !AllSpace(text) && |text| > 10000 ==> r == Failure(AudioTextTooLong)
  {
    RequiredText(text, 10000, AudioTextRequired, AudioTextTooLong)
  }

  const ValidGenres: seq<string> := [
    "fantasy", "sci-fi", "mystery", "adventure", "horror", "romance",
    "thriller", "comedy", "drama", "educational", "child-adapted",
    "epic-fantasy", "sci-fi-thriller", "mystery-detective", "romantic-drama",
    "adventure-quest", "horror-story", "comedy-adventure", "historical-journey"
  ]

  /** The genre whitelist: the genre itself, untrimmed, or an error. */
  function StoryGenre(genre: string): (r: Result<string, ValidationError>)
    ensures r.Success? <==> genre in ValidGenres
    ensures r.Success? ==> r.value == genre
    ensures r.Failure? ==> r.error == InvalidGenre
  {
    if genre in ValidGenres then Success(genre) else Failure(InvalidGenre)
  }

  /** The whitelist has nineteen distinct entries. */
  lemma NineteenGenres()
    ensures |ValidGenres| == 19
    ensures forall i, j :: 0 <= i < j < |ValidGenres| ==> ValidGenres[i] != ValidGenres[j]
  {
  }

  // ----- sliding-window rate limiting -----

  /** The timestamps still inside the window at time `now`: `ts.filter(t => now - t < windowMs)`. */
  function InWindow(ts: seq<int>, now: int, windowMs: int): (r: seq<int>)
    ensures |r| <= |ts|
    ensures forall i :: 0 <= i < |r| ==> now - r[i] < windowMs && r[i] in ts
    ensures forall t :: t in ts && now - t < windowMs ==> t in r
    ensures forall t :: multiset(r)[t] == if now - t < windowMs then multiset(ts)[t] else 0
  {
    if ts == [] then []
    else
      var rest := InWindow(ts[1..], now, windowMs);
      assert ts == [ts[0]] + ts[1..];
      if now - ts[0] < windowMs then [ts[0]] + rest else rest
  }

  /** Pruning keeps everything it kept before: pruning twice is pruning once. */
  lemma {:induction false} InWindowIdempotent(ts: seq<int>, now: int, windowMs: int)
    ensures InWindow(InWindow(ts, now, windowMs), now, windowMs) == InWindow(ts, now, windowMs)
  {
    if ts != [] {
      InWindowIdempotent(ts[1..], now, windowMs);
    }
  }

  lemma {:induction false} InWindowAppend(a: seq<int>, b: seq<int>, now: int, windowMs: int)
    ensures InWindow(a + b, now, windowMs) == InWindow(a, now, windowMs) + InWindow(b, now, windowMs)
  {
    if a != [] {
      assert (a + b)[1..] == a[1..] + b;
      InWindowAppend(a[1..], b, now, windowMs);
    } else {
      assert a + b == b;
    }
  }

  /** Pruning later than an earlier pruning is the same as pruning only later. */
  lemma {:induction false} InWindowLater(ts: seq<int>, now: int, later: int, windowMs: int)
    requires now <= later
    ensures InWindow(InWindow(ts, now, windowMs), later, windowMs) == InWindow(ts, later, windowMs)
  {
    if ts != [] {
      InWindowLater(ts[1..], now, later, windowMs);
    }
  }

  /** An admission stores the pruned list plus `now`, so the in-window count grows by exactly one. */
  lemma AdmissionCountsOnce(ts: seq<int>, now: int, windowMs: int)
    requires windowMs > 0
    ensures |InWindow(InWindow(ts, now, windowMs) + [now], now, windowMs)|
         == |InWindow(ts, now, windowMs)| + 1
  {
    InWindowAppend(InWindow(ts, now, windowMs), [now], now, windowMs);
    InWindowIdempotent(ts, now, windowMs);
  }

  /** Once the window has passed over every stored timestamp, nothing of it counts. */
  lemma {:induction false} ElapsedWindowIsEmpty(ts: seq<int>, now: int, windowMs: int)
    requires forall i :: 0 <= i < |ts| ==> now - ts[i] >= windowMs
    ensures InWindow(ts, now, windowMs) == []
  {
    if ts != [] {
      ElapsedWindowIsEmpty(ts[1..], now, windowMs);
    }
  }

  /** `requests.get(key) || []`. */
  function Stored(requests: map<string, seq<int>>, key: string): seq<int> {
    if key in requests then requests[key] else []
  }

  /** `userId || 'anonymous'`: a missing or empty user id shares the anonymous key. */
  function KeyFor(userId: Option<string>): (key: string)
    ensures userId.Some? && userId.value != "" ==> key == userId.value
    ensures userId.None? || userId.value == "" ==> key == "anonymous"
  {
    if userId.Some? && userId.value != "" then userId.value else "anonymous"
  }

  function Max0(x: int): (r: nat)
    ensures r >= x
    ensures x > 0 ==> r == x
    ensures x <= 0 ==> r == 0
  {
    if x > 0 then x else 0
  }

  /** One sliding-window limiter (`rateLimiter`, `storyGenerationRateLimit`): the map from key to
      the timestamps of its admitted requests. */
  class SlidingWindowLimiter {
    var requests: map<string, seq<int>>

    constructor ()
      ensures requests == map[]
    {
      requests := map[];
    }

    /** `isAllowed(key, maxRequests, windowMs)` at clock reading `now`. */
    method IsAllowed(key: string, now: int, maxRequests: int, windowMs: int) returns (allowed: bool)
      modifies this
      ensures allowed <==> |InWindow(Stored(old(requests), key), now, windowMs)| < maxRequests
      ensures allowed ==> requests == old(requests)[key := InWindow(Stored(old(requests), key), now, windowMs) + [now]]
      ensures !allowed ==> requests == old(requests)
    {
      var valid := InWindow(Stored(requests, key), now, windowMs);
      if |valid| >= maxRequests {
        return false;
      }
      valid := valid + [now];
      requests := requests[key := valid];
      return true;
    }

    /** `storyGenerationRateLimit.isAllowed(userId, ...)`. */
    method IsAllowedFor(userId: Option<string>, now: int, maxRequests: int, windowMs: int) returns (allowed: bool)
      modifies this
      ensures allowed <==> |InWindow(Stored(old(requests), KeyFor(userId)), now, windowMs)| < maxRequests
      ensures allowed ==> requests == old(requests)[KeyFor(userId) := InWindow(Stored(old(requests), KeyFor(userId)), now, windowMs) + [now]]
      ensures !allowed ==> requests == old(requests)
    {
      allowed := IsAllowed(KeyFor(userId), now, maxRequests, windowMs);
    }

    /** `getRemainingRequests(userId, maxRequests, windowMs)`: reads the map, never writes it. */
    method RemainingRequests(userId: Option<string>, now: int, maxRequests: int, windowMs: int) returns (remaining: nat)
      ensures remaining == Max0(maxRequests - |InWindow(Stored(requests, KeyFor(userId)), now, windowMs)|)
      ensures remaining > 0 <==> |InWindow(Stored(requests, KeyFor(userId)), now, windowMs)| < maxRequests
    {
      var valid := InWindow(Stored(requests, KeyFor(userId)), now, windowMs);
      remaining := Max0(maxRequests - |valid|);
    }
  }

  /** The abuse guard at work: for one user, `maxRequests` requests at the same instant are
      admitted, the next one is refused, and one made a full window later is admitted again. */
  method QuotaScenario(userId: Option<string>, now: int, maxRequests: nat, windowMs: int)
    returns (admitted: seq<bool>)
    requires maxRequests > 0 && windowMs > 0
    ensures |admitted| == maxRequests + 2
    ensures forall i :: 0 <= i < maxRequests ==> admitted[i]
    ensures !admitted[maxRequests] && admitted[maxRequests + 1]
  {
    var limiter := new SlidingWindowLimiter();
    var key := KeyFor(userId);
    admitted := [];
    var n := 0;
    while n < maxRequests
      invariant 0 <= n <= maxRequests && |admitted| == n
      invariant forall i :: 0 <= i < n ==> admitted[i]
      invariant Stored(limiter.requests, key) == seq(n, _ => now)
    {
      InWindowAllNow(n, now, windowMs);
      var ok := limiter.IsAllowedFor(userId, now, maxRequests, windowMs);
      assert seq(n, _ => now) + [now] == seq(n + 1, _ => now);
      admitted := admitted + [ok];
      n := n + 1;
    }
    InWindowAllNow(maxRequests, now, windowMs);
    var refused := limiter.IsAllowedFor(userId, now, maxRequests, windowMs);
    ElapsedWindowIsEmpty(Stored(limiter.requests, key), now + windowMs, windowMs);
    var later := limiter.IsAllowedFor(userId, now + windowMs, maxRequests, windowMs);
    admitted := admitted + [refused, later];
  }

  lemma {:induction false} InWindowAllNow(n: nat, now: int, windowMs: int)
    requires windowMs > 0
    ensures InWindow(seq(n, _ => now), now, windowMs) == seq(n, _ => now)
  {
    if n > 0 {
      assert seq(n, _ => now)[1..] == seq(n - 1, _ => now);
      InWindowAllNow(n - 1, now, windowMs);
    }
  }
}
