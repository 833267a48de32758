# AI storytelling core, modelled in Dafny

The system lets a reader start an illustrated, branching story from a prompt and a genre.
They pick one of the offered choices to continue it, or ask for an ending. Supabase edge
functions generate each segment's text (OpenAI, or OVH's Qwen model) and store it. A
background task then generates the segment's image with a primary provider and a single
fallback. The React client holds the story session and merges realtime updates from the
database into its caches. It also renders the story viewer, the slideshow and the exports.

This project models the deterministic logic around the model calls and the database. Every
provider call, database read or write, upload, `JSON.parse`, clock reading and id check
becomes an input: a `Result`, an `Option`, a boolean fault flag or a reply datatype. The
contracts state what the code does with each outcome.

One module per source file:

- `Security` models `src/utils/security.ts`: the input validators, and both sliding-window rate limiters as a class over a map of timestamp lists.
- `ProviderPolicy` models `callImageProvider` dispatch and the primary/fallback `generateImage`, which image.ts and regenerate-image share.
- `ImageGeneration` models `image.ts`.
- `Settings` models `settings.ts`: the defaults, and the loop that merges admin rows section by section.
- `RegenerateImage` models the regenerate-image function: its own settings fold, its prompt enhancement and its HTTP outcomes.
- `EnhancedImagePrompt` models `enhanced-image-prompting.ts`.
- `TextGeneration` and `OvhTextService` model the two text paths: prompt assembly, error mapping, reply extraction and the required-field checks.
- `GenerateSegment` models the orchestrator's context derivation, audio rule and background-task condition (generate-story-segment `index.ts`).
- `Store` holds the `stories` and `story_segments` tables as a class of maps of rows, with single-row writes that can fail.
- `ImageBackgroundTasks` is the segment image status machine.
- `FinishStory` covers the finish-story function and its image task.
- `OvhHealthCheck` models the health probe classification.
- `RealtimeHandlers` models the React Query cache merge (`useRealtimeHandlers`).
- `StoryDisplay` models the viewer's loader and its realtime segment updates.
- `StoryActions` models the story-creation session (`useStoryActions`).
- `StoryCover` models the cover fallback and the thumbnail repair and batch (`storyCoverUtils.ts`).
- `StoryExporter` models the export metadata, the text export, file names and the image page.
- `Slideshow` models the slideshow auto-advance rule.

Shared helpers:

- `Wrappers` defines `Option` and `Result`.
- `Json` models loose JavaScript values: truthiness, `||` and property access.
- `Text` models the string built-ins the code relies on: `trim`, `join`, `substring`, the counts of `split(' ')` and `split(/\s+/)`, decimal rendering and `parseInt`.

Where the code and the system's documented design differ, the model follows the code:

- The design asks finish-story to refuse a second ending for a completed story. The function never checks `is_completed` (supabase/functions/finish-story/index.ts:168-238), and neither does the model.
- generate-story-segment's `index.ts:75` passes its arguments to `generateStoryContent` in the order the OVH adapter declares. The function it imports declares a different order. Each function is modelled by its own declared parameters. The model does not claim that the orchestrator's context reaches the text prompt.
- The characters part of the enhanced image prompt appears when the joined character text is non-empty, not when the character list is non-empty: a list holding one empty entry adds nothing.
- The loader's word count falls back to `split(/\s+/).length`, which is never 0 for a string. A segment whose text has no stored count therefore counts at least one word, even when the text is empty or blank (`StoryDisplay.StoredTextNeverCountsZero`). The `split(' ')` counts in the exporter and the slideshow behave the same way, so their `|| 0` and `|| 100` defaults fire only for a missing text.

## Model

| member | source | states |
|---|---|---|
| Security.RequiredText | src/utils/security.ts:23-31 | the shared rule of the required-text validators: blank or whitespace-only input fails with the blank error, then a raw length over the bound fails with the too-long error, otherwise the result is the trimmed, non-empty text |
| Security.OptionalText | src/utils/security.ts:16-21 | the shared rule of the optional-text validators: accepted exactly when the raw length is within the bound (the empty string included), and the result is the trimmed text |
| Security.StoryTitle | src/utils/security.ts:6-14 | accepted iff the title is not blank and its raw length is at most 200; blank gives TitleRequired, too long gives TitleTooLong; the result is the trimmed title |
| Security.StoryDescription | src/utils/security.ts:16-21 | accepted iff the raw length is at most 1000, empty included; the result is the trimmed description |
| Security.SegmentText | src/utils/security.ts:23-31 | accepted iff not blank and the raw length is at most 5000; the result is the trimmed text; each rejection carries its own error |
| Security.ChoiceText | src/utils/security.ts:33-38 | accepted iff the raw length is at most 200, empty included; the result is the trimmed choice |
| Security.StoryPrompt | src/utils/security.ts:49-72 | accepted iff not blank, at most 2000 raw characters and not flagged by the content filter; blank, too long and flagged give three distinct errors, checked in that order |
| Security.ImagePrompt | src/utils/security.ts:89-110 | accepted iff not blank, at most 1000 raw characters and not flagged; the three rejections are distinct and ordered as in the source |
| Security.AudioText | src/utils/security.ts:112-121 | accepted iff not blank and at most 10000 raw characters; the result is the trimmed text |
| Security.StoryGenre | src/utils/security.ts:74-87 | accepted iff the genre is one of the whitelist entries; the result is the input unchanged, otherwise InvalidGenre |
| Security.NineteenGenres | src/utils/security.ts:75-80 | the whitelist has exactly nineteen entries and no two are equal |
| Security.InWindow | src/utils/security.ts:202 | the pruned list keeps exactly the stored timestamps t with now - t < windowMs, each as often as it was stored, and is no longer than the stored list |
| Security.InWindowIdempotent | src/utils/security.ts:202 | pruning an already pruned list at the same instant changes nothing |
| Security.InWindowAppend | src/utils/security.ts:202 | pruning distributes over concatenation |
| Security.InWindowLater | src/utils/security.ts:224 | pruning at an earlier instant and then at a later one equals pruning only at the later one |
| Security.InWindowAllNow | src/utils/security.ts:224 | timestamps all taken at the current instant stay in the window |
| Security.AdmissionCountsOnce | src/utils/security.ts:224-232 | storing the pruned list plus `now` makes the in-window count exactly one larger |
| Security.ElapsedWindowIsEmpty | src/utils/security.ts:224 | once every stored timestamp is at least a window old, nothing counts |
| Security.KeyFor | src/utils/security.ts:219 | a present, non-empty user id is its own key; a null or empty one is the shared key 'anonymous' |
| Security.Max0 | src/utils/security.ts:245 | `Math.max(0, x)`: x when positive and 0 otherwise, so never below x or 0 |
| Security.SlidingWindowLimiter.IsAllowed | src/utils/security.ts:197-211 | admitted iff fewer than maxRequests stored timestamps are in the window; a refusal leaves the map unchanged; an admission stores, under that key only, the pruned list plus `now` |
| Security.SlidingWindowLimiter.IsAllowedFor | src/utils/security.ts:218-235 | the same rule keyed by KeyFor(userId), so every null-user call shares 'anonymous' |
| Security.SlidingWindowLimiter.RemainingRequests | src/utils/security.ts:237-246 | max(0, maxRequests - in-window count), positive iff another request would be admitted; the method changes nothing |
| Security.QuotaScenario | src/utils/security.ts:218-235 | for one user, maxRequests requests at the same instant are all admitted, the next is refused, and one made a full window later is admitted again |
| ProviderPolicy.AdapterFor | supabase/functions/generate-story-segment/image.ts:86-99 | the OVH adapter is chosen iff the name is exactly 'ovh'; 'openai' and every unknown name choose OpenAI |
| ProviderPolicy.Dispatch | supabase/functions/generate-story-segment/image.ts:86-99 | the adapter call receives the prompt unchanged, and the OVH settings only when the adapter is OVH (OpenAI gets null) |
| ProviderPolicy.Absorb | supabase/functions/generate-story-segment/image.ts:81-110 | an adapter exception becomes a null result; a returned value passes through unchanged |
| ProviderPolicy.FirstImage | supabase/functions/generate-story-segment/image.ts:46-73 | null iff both attempts gave null; otherwise the first non-null image |
| ProviderPolicy.GenerateWithFallback | supabase/functions/generate-story-segment/image.ts:36-73 | every call gets the same prompt; the primary is called first; a primary image is returned and the fallback is never called; the fallback is called exactly once, and only after a null primary; the result is the first image of the two or null when both fail; a non-string provider name throws at the log line before its call |
| ImageGeneration.EnhancedPrompt | supabase/functions/generate-story-segment/image.ts:27-32 | the prompt passed to both attempts: header, prompt, the fixed fantasy style part, footer, with no characters part, capped at 4000 |
| ImageGeneration.Provider | supabase/functions/generate-story-segment/image.ts:19-20 | reads the loaded `primary`/`fallback`; an absent field is null |
| ImageGeneration.GenerateImage | supabase/functions/generate-story-segment/image.ts:14-74 | with the loaded settings, every call gets EnhancedPrompt(prompt) and OVH calls get the image section's ovhSettings; a primary that is not a string raises before any call; the primary's adapter is called first and its image, when it has one, is the result after that one call; after a null primary a fallback that is not a string raises, and a string fallback's adapter is called second; with both names strings the result is the first image of the two |
| ImageGeneration.DefaultsTryOvhThenOpenAI | supabase/functions/generate-story-segment/settings.ts:79-108 | with default settings, OVH is called first with the default OVH settings and OpenAI is the fallback |
| Settings.DefaultProviders | supabase/functions/generate-story-segment/settings.ts:60-114 | the defaults name OVH as primary and OpenAI as fallback for images and OVH as the text primary |
| Settings.IndexFields | supabase/functions/generate-story-segment/settings.ts:147 | spreading an array contributes exactly the index keys "0" … "n-1" |
| Settings.IndexFieldsAt | supabase/functions/generate-story-segment/settings.ts:147 | element i of a spread array lands under the key String(i) |
| Settings.Chars | supabase/functions/generate-story-segment/settings.ts:147 | a spread string is seen as its one-character strings, in order |
| Settings.SpreadFields | supabase/functions/generate-story-segment/settings.ts:147 | an object spreads its own fields; null, booleans and numbers spread nothing |
| Settings.Merge | supabase/functions/generate-story-segment/settings.ts:147-159 | the merged section has the keys of both; every parsed field overrides, whole (one level deep), and absent fields keep their previous values (lines 147, 150, 159) |
| Settings.ParsedValue | supabase/functions/generate-story-segment/settings.ts:143 | a string value is JSON-parsed (None when the parse throws); any other value is used as it is |
| Settings.ApplyRow | supabase/functions/generate-story-segment/settings.ts:142-164 | a row that fails to parse and a row for any other key change nothing; each section key merges into its own section only |
| Settings.LoadRows | supabase/functions/generate-story-segment/settings.ts:139-165 | the loop over the rows, starting from the defaults, yields the rows folded in order |
| Settings.GetGenerationSettings | supabase/functions/generate-story-segment/settings.ts:116-179 | a query error, a thrown error and a missing or empty result give the defaults; otherwise the rows folded over the defaults |
| Settings.ApplyRowsAppend | supabase/functions/generate-story-segment/settings.ts:141 | folding two batches of rows is folding the first, then the second |
| Settings.InertRowsChangeNothing | supabase/functions/generate-story-segment/settings.ts:145-164 | rows with other keys, and rows whose value fails to parse, leave the settings as they were |
| Settings.ImageSectionFromImageRowsOnly | supabase/functions/generate-story-segment/settings.ts:145-164 | no row for another section, and no `image_providers` row whose value fails to parse, touches the image section |
| Settings.LastImageRowWins | supabase/functions/generate-story-segment/settings.ts:145-164 | every field carried by an `image_providers` row that parses is the final value of that field when every later row is for another section or fails to parse |
| RegenerateImage.TruncateReal | supabase/functions/regenerate-image/index.ts:147 | the integer part of a number, toward zero |
| RegenerateImage.LeadingDigitLarge | supabase/functions/regenerate-image/index.ts:147 | the first significant digit of a number of at least one is between 1 and 9, and is the integer part below 10 |
| RegenerateImage.LeadingDigitSmall | supabase/functions/regenerate-image/index.ts:147 | the first significant digit of a positive number below one is between 1 and 9 |
| RegenerateImage.NumberParseInt | supabase/functions/regenerate-image/index.ts:147 | `parseInt` of a number: its truncation toward zero when it prints plainly (magnitude 0, or from 10^-6 up to below 10^21); otherwise, as it prints in exponent form, a single digit 1 to 9 carrying the number's sign |
| RegenerateImage.ParseIntValue | supabase/functions/regenerate-image/index.ts:147 | `parseInt(value)` reads `String(value)`: a string is read as `parseInt` reads text (hex prefix, sign, trailing text ignored); a number as NumberParseInt; null, booleans and objects as their words; an empty array or one whose first item is null as the empty text; any other array as its first item |
| RegenerateImage.WordsReadAsNaN | supabase/functions/regenerate-image/index.ts:147 | null, true, false and objects read as NaN |
| RegenerateImage.HexStringReads | supabase/functions/regenerate-image/index.ts:147 | "0x1e" reads as 30 and sets 30 steps |
| RegenerateImage.TrailingTextIgnored | supabase/functions/regenerate-image/index.ts:147 | "12px" reads as 12 and sets 12 steps |
| RegenerateImage.ArrayReadsFirstItem | supabase/functions/regenerate-image/index.ts:147 | the array [30] reads as 30 and sets 30 steps |
| RegenerateImage.ExponentFormReadsLeadingDigit | supabase/functions/regenerate-image/index.ts:147 | 5e-7, which prints in exponent form, reads as 5 and sets 5 steps |
| RegenerateImage.StepsFrom | supabase/functions/regenerate-image/index.ts:147 | `parseInt(value) \|\| 20`: never 0; NaN and 0 give 20, any other parsed integer is kept |
| RegenerateImage.ApplySetting | supabase/functions/regenerate-image/index.ts:136-149 | each recognised key overwrites only its own field, a falsy value giving that field's default; other keys change nothing |
| RegenerateImage.GetGenerationSettings | supabase/functions/regenerate-image/index.ts:112-154 | the settings are exactly Loaded(query): none when the query throws, the defaults when data is null, and otherwise the defaults overwritten row by row |
| RegenerateImage.Loaded | supabase/functions/regenerate-image/index.ts:112-154 | a thrown query yields no settings; null data yields the defaults; otherwise the rows are folded over the defaults |
| RegenerateImage.LoadedStepsFromLastRow | supabase/functions/regenerate-image/index.ts:123-147 | the steps handed to OVH are StepsFrom of the last `ovh_steps` row; with no rows the defaults are primary 'openai', fallback 'ovh' and 20 steps |
| RegenerateImage.ApplySettingsAppend | supabase/functions/regenerate-image/index.ts:135 | folding two batches of rows is folding the first, then the second |
| RegenerateImage.OtherKeysKeepField | supabase/functions/regenerate-image/index.ts:136-149 | rows for other keys never change a key's field |
| RegenerateImage.LastRowWins | supabase/functions/regenerate-image/index.ts:135-150 | when a key repeats, its last row decides that field |
| RegenerateImage.CreateEnhancedImagePrompt | supabase/functions/regenerate-image/index.ts:157-160 | the result is the original, ", ", then the style, or the default fantasy style when none is given |
| RegenerateImage.Serve | supabase/functions/regenerate-image/index.ts:245-300 | 400 and no provider call for a missing prompt; 500 for a body that is not JSON or a settings query that throws; with the loaded settings, the first call is the primary's adapter and the second, made iff the primary gave no image and the fallback is a string, the fallback's, each handed the enhanced prompt and the loaded OVH settings; a provider name that is not a string where it is needed gives the thrown-error 500; two string names and no image give the all-providers 500 after two calls; an image gives 200, reporting its size in test mode and storing nothing, and 200 only with an image |
| EnhancedImagePrompt.CharacterText | supabase/functions/generate-story-segment/enhanced-image-prompting.ts:7 | a string entry verbatim, an object as "name: description" |
| EnhancedImagePrompt.CharacterTexts | supabase/functions/generate-story-segment/enhanced-image-prompting.ts:6-7 | one rendering per entry, in order |
| EnhancedImagePrompt.CharactersPart | supabase/functions/generate-story-segment/enhanced-image-prompting.ts:5-13 | present iff characters is a non-empty array whose joined rendering is non-empty; then " - Characters: " followed by the entries joined with ", " |
| EnhancedImagePrompt.StylePart | supabase/functions/generate-story-segment/enhanced-image-prompting.ts:16-18 | present iff the style is truthy; then " - Art style: " followed by the style |
| EnhancedImagePrompt.Uncapped | supabase/functions/generate-story-segment/enhanced-image-prompting.ts:2-21 | begins with the fixed header followed directly by the prompt, ends with the fixed footer, and its length is the sum of its parts |
| EnhancedImagePrompt.CreateEnhancedImagePrompt | supabase/functions/generate-story-segment/enhanced-image-prompting.ts:1-29 | at most 4000 characters; a prefix of the uncapped prompt; either all of it or exactly 4000 characters of it |
| EnhancedImagePrompt.StartsWithHeaderThenPrompt | supabase/functions/generate-story-segment/enhanced-image-prompting.ts:21-26 | the result starts with the header followed directly by the prompt, cut at 4000 when that lead itself is longer |
| EnhancedImagePrompt.LayoutWhenUncapped | supabase/functions/generate-story-segment/enhanced-image-prompting.ts:11-21 | without truncation the characters part comes before the style part, and the result ends with the fixed footer |
| TextGeneration.Render | supabase/functions/generate-story-segment/text-generation.ts:63 | a template literal prints a string property as itself, a null one as "null" and an absent one as "undefined" |
| TextGeneration.Recent | supabase/functions/generate-story-segment/text-generation.ts:60 | the window is the last min(3, n) segments, as a suffix of the list |
| TextGeneration.NumberedLines | supabase/functions/generate-story-segment/text-generation.ts:62-63 | one line per segment, in order, the i-th numbered i + 1 |
| TextGeneration.ContextPrompt | supabase/functions/generate-story-segment/text-generation.ts:57-65 | empty without previous segments; otherwise the context header and the numbered lines of the window joined by blank lines, a null or absent `segment_text` printed as "null" or "undefined" |
| TextGeneration.ContextWindow | supabase/functions/generate-story-segment/text-generation.ts:59-64 | line i of the context is "Segment i+1" of the i-th segment of the window, taken in original order from the end of the list |
| TextGeneration.EntryTexts | supabase/functions/generate-story-segment/text-generation.ts:70-71 | one "name: description" per character entry, in the order the entries are listed |
| TextGeneration.CharactersText | supabase/functions/generate-story-segment/text-generation.ts:70-72 | the joined characters text is empty iff there are no entries |
| TextGeneration.Optional | supabase/functions/generate-story-segment/text-generation.ts:76-82 | a SETTING or ART STYLE line appears iff its field is truthy, and then carries that field |
| TextGeneration.CharactersLine | supabase/functions/generate-story-segment/text-generation.ts:74 | the CHARACTERS line appears iff there is at least one character, and then is the label followed by the joined characters |
| TextGeneration.VisualPrompt | supabase/functions/generate-story-segment/text-generation.ts:67-83 | empty without a visual context; otherwise the CHARACTERS line, then SETTING, then ART STYLE |
| TextGeneration.NarrativePrompt | supabase/functions/generate-story-segment/text-generation.ts:85-92 | empty without a narrative context; otherwise a block whose absent or empty fields are 'Adventure in progress', 'Continue the adventure' and 'development' |
| TextGeneration.UserPrompt | supabase/functions/generate-story-segment/text-generation.ts:116-118 | a truthy initial prompt gives the start form with the mode defaulting to 'fantasy'; otherwise the continue form with the rendered choice (a null choice as "null", an absent one as "undefined") and the three context parts in order |
| TextGeneration.StartIgnoresContext | supabase/functions/generate-story-segment/text-generation.ts:116-117 | the start form depends only on the initial prompt and the mode, never on the choice or the contexts |
| TextGeneration.Message | supabase/functions/generate-story-segment/text-generation.ts:52-154 | exactly the missing-key, API-failed, empty-response and missing-fields errors carry a message of the function's own, and it is non-empty (lines 52, 141, 148, 154) |
| TextGeneration.RequireFields | supabase/functions/generate-story-segment/text-generation.ts:153-155 | a parsed reply is accepted iff both segmentText and choices are truthy; a null reply fails on the property read; any other reply fails with the missing-fields error |
| TextGeneration.GenerateStoryContent | supabase/functions/generate-story-segment/text-generation.ts:42-164 | no request is sent without an API key; otherwise the user prompt is sent; a failed fetch is the network error; a non-OK status is the API error with status and body text; a body that is not JSON and a reply whose `choices[0].message` cannot be read each fail with their own runtime error; a falsy content is the empty-response error; content that does not parse is the JSON error; a success is the parsed content carrying both required fields |
| TextGeneration.ReplyContent | supabase/functions/generate-story-segment/text-generation.ts:145 | `data.choices[0].message.content` throws (no content) when data is null or has no readable `choices`, and yields content only from an object |
| TextGeneration.CompletionContent | supabase/functions/generate-story-segment/text-generation.ts:145 | a well-formed completion `{choices: [{message: {content}}]}` yields its content |
| TextGeneration.CompletionWithoutMessage | supabase/functions/generate-story-segment/text-generation.ts:145 | a completion whose first choice has no message makes the read throw |
| TextGeneration.ParseContent | supabase/functions/generate-story-segment/text-generation.ts:151 | `JSON.parse` of a truthy content: a string is parsed; true and numbers come back unchanged; an object is parsed as "[object Object]" |
| TextGeneration.WellFormedCompletionSucceeds | supabase/functions/generate-story-segment/text-generation.ts:139-157 | with a key, an OK well-formed completion whose string content parses to a reply with truthy segmentText and choices succeeds with that reply |
| OvhTextService.ContextPrompt | supabase/functions/generate-story-segment/ovh-text-service.ts:49-53 | the context part comes only from `narrativeContext.previousSegments`: empty when that is falsy, otherwise the header followed by it |
| OvhTextService.VisualPrompt | supabase/functions/generate-story-segment/ovh-text-service.ts:55-71 | empty without a visual context; otherwise the CHARACTERS line, then SETTING, then GENRE, each only when present |
| OvhTextService.NarrativePrompt | supabase/functions/generate-story-segment/ovh-text-service.ts:73-81 | empty without a narrative context; otherwise the block with the educational defaults and the fixed educational-focus line |
| OvhTextService.UserPrompt | supabase/functions/generate-story-segment/ovh-text-service.ts:116-118 | a truthy initial prompt gives "Start a new educational {mode or 'fantasy'} story"; otherwise the continue form with the rendered choice (a null choice as "null", an absent one as "undefined") and the three parts |
| OvhTextService.Message | supabase/functions/generate-story-segment/ovh-text-service.ts:44-214 | every error the service raises itself has a non-empty message; only runtime errors carry none of its own (lines 44, 161-172, 190, 209, 214) |
| OvhTextService.StatusError | supabase/functions/generate-story-segment/ovh-text-service.ts:153-173 | 401 iff the authentication error, 429 iff the rate-limit error, 500 and above iff the server error; any other status gives the generic error with the status and the body text |
| Json.FirstElement | supabase/functions/generate-story-segment/ovh-text-service.ts:185 | `data[0]`: an array's first item iff it is non-empty, an object's "0" field, a string's first character iff it is non-empty, and undefined for null, booleans and numbers |
| OvhTextService.GeneratedText | supabase/functions/generate-story-segment/ovh-text-service.ts:185 | `data.generated_text` when truthy, else `data[0].generated_text` when truthy, else ''; a null body throws |
| OvhTextService.IndexOf | supabase/functions/generate-story-segment/ovh-text-service.ts:200 | the first position of a character, or none when it does not occur |
| OvhTextService.LastIndexOf | supabase/functions/generate-story-segment/ovh-text-service.ts:200 | the last position of a character, or none when it does not occur |
| OvhTextService.JsonSpan | supabase/functions/generate-story-segment/ovh-text-service.ts:200-205 | the span from the first '{' to the last '}', which starts with '{' and ends with '}'; none iff there is no '{' or no '}' after it |
| OvhTextService.JsonSpanIgnoresProse | supabase/functions/generate-story-segment/ovh-text-service.ts:200 | prose without '{' before the object and without '}' after it does not change the extracted span |
| OvhTextService.IndexOfAfterPrefix | supabase/functions/generate-story-segment/ovh-text-service.ts:200 | after a prefix free of the character, its first occurrence is at the prefix's length |
| OvhTextService.LastIndexOfBeforeSuffix | supabase/functions/generate-story-segment/ovh-text-service.ts:200 | before a suffix free of the character, its last occurrence ends the text before the suffix |
| OvhTextService.ParseGenerated | supabase/functions/generate-story-segment/ovh-text-service.ts:196-210 | on the generated string: succeeds iff it has a span and the span parses, and then yields the parsed span; every other outcome is the one parse error |
| OvhTextService.GenerateStoryWithQwen | supabase/functions/generate-story-segment/ovh-text-service.ts:27-236 | a missing token fails before any request; otherwise the user prompt is sent; a failed fetch, an unreadable body and a null body are runtime errors; a non-OK status maps through StatusError; an empty generated text fails with the empty-response error; a truthy generated text that is not a string is a runtime error (its `substring` call throws before the inner `try`); a string without a parsable span is the parse error; a success is the parsed span carrying segmentText and choices |
| GenerateSegment.ContextGenre | supabase/functions/generate-story-segment/index.ts:63-75 | `genre \|\| storyMode \|\| 'fantasy'`: the first truthy one, never empty |
| GenerateSegment.PreviousSummary | supabase/functions/generate-story-segment/index.ts:66 | a prefix of the space-joined previous texts, of at most 500 characters; the whole join when it fits, exactly 500 characters otherwise |
| GenerateSegment.VisualContextFor | supabase/functions/generate-story-segment/index.ts:62-67 | the visual context has the derived genre, no characters, an empty setting and the capped previous-segments summary |
| GenerateSegment.Summary | supabase/functions/generate-story-segment/index.ts:70 | 'Beginning of story' iff there is no previous segment, 'Story in progress' otherwise |
| GenerateSegment.ArcStage | supabase/functions/generate-story-segment/index.ts:72 | 'setup' iff no previous segment, 'climax' iff more than five, 'development' iff one to five |
| GenerateSegment.ArcStageNeverGoesBack | supabase/functions/generate-story-segment/index.ts:72 | a longer story is never at an earlier arc stage |
| GenerateSegment.NarrativeContextFor | supabase/functions/generate-story-segment/index.ts:69-73 | the narrative context carries the summary and arc stage of the previous-segment count and the fixed objective |
| GenerateSegment.AudioFor | supabase/functions/generate-story-segment/index.ts:78-92 | with a truthy skipAudio the status is 'not_started' and there is no URL; otherwise 'completed' iff the generator resolved with a result, 'failed' for null or a throw; only a completed status carries a URL, taken from the result when truthy |
| GenerateSegment.SavedSkipImage | supabase/functions/generate-story-segment/index.ts:103 | `skipImage ?? false`: null and absent are stored as false, anything else as it is |
| GenerateSegment.StoredFlagMatchesSchedule | supabase/functions/generate-story-segment/index.ts:103-107 | the background image task is scheduled iff the stored flag is falsy and the story result has a truthy image prompt |
| GenerateSegment.ErrorMessage | supabase/functions/generate-story-segment/index.ts:136-148 | the error response carries the thrown message when it is non-empty, 'Story generation failed' otherwise; never empty |
| Store.WithImageStatus | supabase/functions/generate-story-segment/image-background-tasks.ts:28-31 | a status update by id changes that segment's status only; no other row and no other column changes, and an unknown id changes nothing |
| Store.WithImage | supabase/functions/generate-story-segment/image-background-tasks.ts:64-70 | the completion update writes that segment's URL and 'completed' together and nothing else |
| Store.WithThumbnail | supabase/functions/generate-story-segment/image-background-tasks.ts:87-90 | a thumbnail update by id changes that story's thumbnail only |
| Store.WithCompleted | supabase/functions/finish-story/index.ts:263-266 | the completion update sets that story's `is_completed` only |
| Store.StatusOverwrite | supabase/functions/generate-story-segment/image-background-tasks.ts:28-70 | a later status write, or a later completion write, hides an earlier status write to the same segment |
| Store.Database.SetImageStatus | supabase/functions/generate-story-segment/image-background-tasks.ts:28-35 | reports an error iff the database rejects the write; a rejected write changes nothing, an accepted one is WithImageStatus; the stories never change |
| Store.Database.SetImage | supabase/functions/generate-story-segment/image-background-tasks.ts:64-75 | a rejected write changes nothing, an accepted one is WithImage; the stories never change |
| Store.Database.SetThumbnail | supabase/functions/generate-story-segment/image-background-tasks.ts:87-96 | a rejected write changes nothing, an accepted one is WithThumbnail; the segments never change |
| Store.Database.SetCompleted | supabase/functions/finish-story/index.ts:263-270 | a rejected write changes nothing, an accepted one is WithCompleted; the segments never change |
| Store.Database.InsertSegment | supabase/functions/finish-story/index.ts:224-243 | an insert that is rejected, or whose id is taken, reports an error and adds nothing; otherwise exactly the new row is added |
| Store.Database.ReadSegment | supabase/functions/generate-story-segment/image-background-tasks.ts:79-85 | a row is returned iff the read succeeds and the id exists, and it is the stored row |
| Store.Database.ReadStory | supabase/functions/finish-story/index.ts:168-179 | a row is returned iff the read succeeds and the id exists, and it is the stored row |
| ImageBackgroundTasks.Mark | supabase/functions/generate-story-segment/image-background-tasks.ts:19-117 | one status write: a rejected write leaves the tables as they were; an accepted one sets that status; the stories never change (lines 19-22, 28-31, 48-51, 114-117) |
| ImageBackgroundTasks.Processed | supabase/functions/generate-story-segment/image-background-tasks.ts:4-122 | the tables after the task: only the segment's URL and status can change, and no other segment; a new URL is always the uploaded one and comes with 'completed'; the stories change only for a non-blank prompt with a produced, uploaded image whose completion write was accepted on a root segment, and then only in that story's thumbnail, set to the URL |
| ImageBackgroundTasks.ProcessImageGeneration | supabase/functions/generate-story-segment/image-background-tasks.ts:4-122 | the new tables are Processed of the old; no provider is called for a blank prompt; the upload happens iff an image was produced |
| ImageBackgroundTasks.BlankPromptFails | supabase/functions/generate-story-segment/image-background-tasks.ts:17-24 | a blank or whitespace-only prompt sets status 'failed' and touches nothing else |
| ImageBackgroundTasks.EndsCompletedOrFailed | supabase/functions/generate-story-segment/image-background-tasks.ts:46-121 | with every write accepted, the segment ends 'completed' with the uploaded URL iff an image was produced and uploaded, and otherwise 'failed' with its URL unchanged (lines 46-70, 104-121) |
| ImageBackgroundTasks.RootSegmentSetsThumbnail | supabase/functions/generate-story-segment/image-background-tasks.ts:77-97 | a successful root segment becomes its story's thumbnail |
| ImageBackgroundTasks.StoryUntouchedUnlessRootCompleted | supabase/functions/generate-story-segment/image-background-tasks.ts:72-97 | a segment with a parent never touches the stories, and neither does a task whose completion write was rejected |
| ImageBackgroundTasks.Concluding | supabase/functions/generate-story-segment/image-background-tasks.ts:46-121 | the write that concludes the task is the caught failure, the null-image failure or the completion (lines 46-53, 64-70, 104-121) |
| ImageBackgroundTasks.InProgressFailureIsHarmless | supabase/functions/generate-story-segment/image-background-tasks.ts:28-35 | a rejected 'in_progress' write does not abort the task and, once the concluding write is accepted, does not change its outcome |
| FinishStory.SkipImage | supabase/functions/finish-story/index.ts:149 | the destructuring default: only an absent `skipImage` becomes false; a present value, null included, is kept |
| FinishStory.EndingSegment | supabase/functions/finish-story/index.ts:226-236 | the ending row belongs to the story, has the given parent and text, no choices, is_end true, the choice text 'End the story', a word count that is the number of non-empty whitespace-separated tokens (0 iff the text is blank), image status 'not_started' when skipImage is truthy and 'pending' otherwise, and audio 'not_started' |
| FinishStory.EndingPrompt | supabase/functions/finish-story/index.ts:196-211 | the prompt starts with the lead naming the mode, ends with the fixed instructions, and holds exactly the segment texts joined by blank lines between them |
| FinishStory.Texts | supabase/functions/finish-story/index.ts:196 | one text per queried segment, in order |
| FinishStory.Message | supabase/functions/finish-story/index.ts:154-218 | exactly the missing id, the failed segments query and the empty ending carry fixed messages (lines 154, 189, 218) |
| FinishStory.StatusCode | supabase/functions/finish-story/index.ts:274-296 | 200 iff the story was finished, 500 for every error |
| FinishStory.Serve | supabase/functions/finish-story/index.ts:141-298 | a missing storyId, a failed story read and a missing or empty segment list fail before any prompt is built; the prompt holds the mode (default 'fantasy') and all texts; a thrown or empty ending, or a rejected insert, fails; every failure leaves both tables unchanged; on success exactly the ending row, with the last segment as parent, is added, the story is marked completed unless that write is rejected, which is not an error, and the image task is scheduled iff skipImage is falsy |
| FinishStory.FinishedStoryIsCompleted | supabase/functions/finish-story/index.ts:224-270 | after a finish with its writes accepted, the story is completed, the ending is the one new segment, and every earlier segment is unchanged |
| FinishStory.ImageProcessed | supabase/functions/finish-story/index.ts:56-139 | the ending's image task never touches the stories or another segment; an accepted completion write sets the URL and 'completed'; a throw with an accepted failure write sets 'failed' |
| FinishStory.ProcessImageGeneration | supabase/functions/finish-story/index.ts:56-139 | the new tables are ImageProcessed of the old |
| FinishStory.EndingImageEndsCompletedOrFailed | supabase/functions/finish-story/index.ts:66-137 | with its writes accepted the image ends 'completed' or 'failed', and a rejected 'in_progress' write makes no difference (lines 66-70, 121-137) |
| OvhHealthCheck.Message | supabase/functions/generate-story-segment/ovh-health-check.ts:31-91 | every classified error has its fixed message, the generic one carrying the status and the body text; only the network error's text comes from the runtime (lines 31, 63, 71, 85, 91) |
| OvhHealthCheck.CheckOvhHealth | supabase/functions/generate-story-segment/ovh-health-check.ts:7-94 | tokenAvailable iff there is a token; with no token, not healthy, not reachable, not authenticated and an error; healthy iff a response with an OK status arrived, which is also iff there is no error; reachable, with a response time, iff any response arrived; authenticationValid iff the status is OK or 429; 401, 429, other statuses and network failures give their own errors |
| RealtimeHandlers.Spread | src/hooks/useRealtimeHandlers.ts:45 | `{ ...segment, ...update }`: the keys of both, the update's values winning, the others kept |
| RealtimeHandlers.PatchSegments | src/hooks/useRealtimeHandlers.ts:44-46 | the list keeps its length and order; exactly the segments with the matching id are merged with the payload; every other segment is unchanged |
| RealtimeHandlers.PatchStory | src/hooks/useRealtimeHandlers.ts:39-48 | an absent story entry stays absent; otherwise the other story fields are unchanged and only the segment list is patched; an absent list stays absent |
| RealtimeHandlers.CachedUrl | src/hooks/useRealtimeHandlers.ts:24-25 | the cached segment's `image_url`, or undefined when there is no cached object |
| RealtimeHandlers.ApplyUpdate | src/hooks/useRealtimeHandlers.ts:14-53 | a payload without a truthy image URL or id, or whose URL equals the cached one, changes no cache; otherwise the segment entry becomes exactly the payload and the story entry is patched |
| RealtimeHandlers.PatchSegmentsIdempotent | src/hooks/useRealtimeHandlers.ts:44-46 | patching the list twice with the same payload equals patching it once |
| RealtimeHandlers.ApplyUpdateIdempotent | src/hooks/useRealtimeHandlers.ts:24-48 | delivering the same payload twice leaves both caches as after the first delivery |
| RealtimeHandlers.QueryCache.HandleRealtimeUpdate | src/hooks/useRealtimeHandlers.ts:14-80 | the caches become ApplyUpdate of the old caches; one refresh when they change, one more and the staggered refreshes iff the payload passes the guards and its image status is 'completed' |
| RealtimeHandlers.HandleStoryUpdate | src/hooks/useRealtimeHandlers.ts:82-102 | every payload updates the last-update time once and refreshes once; the refreshes at 200, 500 and 1000 ms are added iff the story's audio status is 'completed' |
| StoryDisplay.Defined | src/hooks/useStoryDisplay/useStoryLoader.ts:44 | `x \|\| undefined`: a truthy value is kept; anything falsy becomes undefined |
| StoryDisplay.WordCountOf | src/hooks/useStoryDisplay/useStoryLoader.ts:47 | the stored word count when truthy; else the number of pieces the text splits into on whitespace runs; else 0 when there is no text |
| StoryDisplay.StoredTextNeverCountsZero | src/hooks/useStoryDisplay/useStoryLoader.ts:47 | without a stored count a text counts at least one piece, and the empty text counts exactly one, so the `\|\| 0` default applies only to a missing text |
| StoryDisplay.FromRow | src/hooks/useStoryDisplay/useStoryLoader.ts:39-48 | the loader's mapping: id, story id, text, choices and end flag as stored; image URL defaulting to ''; a falsy audio URL dropped; audio status defaulting to 'not_started'; the word count of WordCountOf |
| StoryDisplay.FromRows | src/hooks/useStoryDisplay/useStoryLoader.ts:39 | one mapped segment per row, in query order |
| StoryDisplay.FromPayload | src/hooks/useStoryDisplay/useStorySegmentRealtime.ts:43-62 | the realtime mapping: text and image URL default to '', choices to [], the end flag to false, both statuses to 'not_started'; the word count as sent |
| StoryDisplay.ReplaceById | src/hooks/useStoryDisplay/useStorySegmentRealtime.ts:71-77 | the list keeps its length and order; exactly the elements with the payload id are replaced |
| StoryDisplay.ReplaceByIdNoMatch | src/hooks/useStoryDisplay/useStorySegmentRealtime.ts:71-77 | the list is unchanged when no element has the id |
| StoryDisplay.ReplaceByIdIdempotent | src/hooks/useStoryDisplay/useStorySegmentRealtime.ts:71-77 | replacing twice with the same update equals replacing once |
| StoryDisplay.SegmentView.LoadExistingStory | src/hooks/useStoryDisplay/useStoryLoader.ts:9-67 | the query runs iff the id is present, valid and a proper UUID; true iff it ran and returned rows; then the list is the mapped rows in query order, current is the last element, the count is the length and the mode is 'player'; otherwise the state is unchanged |
| StoryDisplay.SegmentView.OnSegmentUpdate | src/hooks/useStoryDisplay/useStorySegmentRealtime.ts:34-91 | a payload without `new` or without an id changes nothing; otherwise the list is ReplaceById of the mapped payload, the current segment is replaced only when its id matches, and the refresh event fires iff the status is 'completed' and the image URL is truthy |
| StoryActions.FromData | src/hooks/story-creation/useStoryActions.ts:77-85 | the generated segment as shown: id, story id, text and image status as returned; a falsy image URL becomes '/placeholder.svg' (so the shown URL is always truthy), falsy choices become [] and a falsy end flag false |
| StoryActions.FromEnding | src/hooks/story-creation/useStoryActions.ts:174-182 | the ending as shown: no choices and always the end; image URL defaulting to '/placeholder.svg' and image status to 'completed' |
| StoryActions.Validated | src/hooks/story-creation/useStoryActions.ts:53-54 | a start request exists iff both the prompt and the genre validators accept, and then it carries the validated prompt and genre |
| StoryActions.Recorded | src/utils/security.ts:219-232 | admitting the user keeps every other user's timestamps, drops the user's timestamps outside the window and appends `now` |
| StoryActions.StorySession.StartStory | src/hooks/story-creation/useStoryActions.ts:45-107 | an already started session with a current segment changes nothing; otherwise the request is sent iff validation passes and the limiter admits the user under 10 requests per 60000 ms, the call counter grows by one exactly then, a successful generation makes the history exactly [segment] and current that segment, and every failure sets the error message, re-shows the image settings, clears the started flag and leaves current and history as they were |
| StoryActions.StorySession.Launch | src/hooks/story-creation/useStoryActions.ts:57-89 | the rate-limited part of the start: the request is sent iff the limiter admits the user, and only then is the call counted and the limiter updated |
| StoryActions.StorySession.Generate | src/hooks/story-creation/useStoryActions.ts:63-89 | the call is counted; a generated segment becomes the whole history and the current segment with no error; a throw leaves current and history and records the error |
| StoryActions.StorySession.FailStart | src/hooks/story-creation/useStoryActions.ts:91-106 | the error is the handler's message, the spinner stops, the image settings show again and the started flag is cleared; current, history and the counter are untouched |
| StoryActions.StorySession.SelectChoice | src/hooks/story-creation/useStoryActions.ts:109-153 | with no current segment nothing changes and nothing is sent; otherwise the request carries the current story and segment ids and the choice, the counter grows by one, a success appends exactly one mapped segment to the history and makes it current, and a throw records the error and keeps current and history |
| StoryActions.StorySession.FinishStory | src/hooks/story-creation/useStoryActions.ts:155-227 | without a current story id nothing changes; otherwise the finish request is sent with `skipEndingImage \|\| false`, an ending in the result is appended to the history and made current and the story is marked completed, a result without an ending changes neither, and a throw records the error |
| StoryActions.SessionScenario | src/hooks/story-creation/useStoryActions.ts:45-153 | a valid start on a fresh limiter followed by n successful choices leaves a history of n + 1 segments and n + 1 counted calls |
| StoryCover.ModeCover | src/utils/storyCoverUtils.ts:114-127 | a known mode gives its own image, any other mode '/images/epic-fantasy.png'; the result is always one of the generic images, never empty and never the placeholder |
| StoryCover.GetStoryCoverImage | src/utils/storyCoverUtils.ts:107-128 | the story's thumbnail when it is truthy and not '/placeholder.svg'; otherwise the generic image of its mode, a missing mode counting as 'Epic Fantasy'; the cover is never empty and never the placeholder |
| StoryCover.RootImage | src/utils/storyCoverUtils.ts:13-18 | the `.single()` query yields a row iff the story has exactly one segment without a parent, and then that segment's image URL |
| StoryCover.Repaired | src/utils/storyCoverUtils.ts:8-47 | the stories table after the repair: unchanged unless the query succeeds, the root image is real and the write succeeds; then only the story's thumbnail is set to the root image |
| StoryCover.UpdateStoryThumbnailFromFirstSegment | src/utils/storyCoverUtils.ts:8-47 | returns true iff the repair succeeds; the segments are untouched and the stories table becomes Repaired |
| StoryCover.PlaceholderNeverCopied | src/utils/storyCoverUtils.ts:25-28 | a missing, empty or placeholder root image leaves every story as it was |
| StoryCover.BatchStep | src/utils/storyCoverUtils.ts:76-89 | one more iteration of the loop is one more repair on the table the earlier iterations produced, and adds one success exactly when that repair succeeds |
| StoryCover.BatchUpdateStoryThumbnails | src/utils/storyCoverUtils.ts:52-102 | a failed fetch and an empty result write nothing; otherwise at most 50 stories are processed in order, successes plus failures equal the number processed, the success count is the number of repairs that succeed and the stories table is the repairs applied in sequence |
| StoryCover.RepairEach | src/utils/storyCoverUtils.ts:76-89 | the loop over the fetched stories: one repair per story in order; successes plus failures equal the number of stories, the success count is the number of repairs that succeed, the segments table is unchanged and the stories table is the repairs applied in sequence |
| StoryCover.BatchRepairsEach | src/utils/storyCoverUtils.ts:76-89 | for distinct fetched ids, every story whose repair succeeds ends the batch with its root segment's image as thumbnail |
| StoryCover.Batched | src/utils/storyCoverUtils.ts:76-89 | repairing a list of stories in order touches no story outside the list and keeps the table's keys |
| StoryCover.Successes | src/utils/storyCoverUtils.ts:76-89 | the number of successful repairs never exceeds the number of stories processed |
| StoryExporter.Pieces | src/utils/storyExporter.ts:49 | a segment without text counts 0; any text, even the empty one, counts one piece more than it has spaces |
| StoryExporter.TotalWords | src/utils/storyExporter.ts:48-50 | the total is 0 exactly when no segment has a text |
| StoryExporter.TotalWordsAppend | src/utils/storyExporter.ts:48-50 | the total over two lists of segments is the sum of their totals |
| StoryExporter.AnyAudio | src/utils/storyExporter.ts:52 | true iff some segment has a truthy audio URL |
| StoryExporter.AnyImage | src/utils/storyExporter.ts:53 | true iff some segment has a truthy image URL other than '/placeholder.svg' |
| StoryExporter.ErrorText | src/utils/storyExporter.ts:34-46 | the two error messages carry the database's message after their own prefix |
| StoryExporter.FetchStoryData | src/utils/storyExporter.ts:27-67 | fails on the story query's error first, then on the segments query's; otherwise keeps both results, and its metadata has the export date, the word total, the number of segments, hasAudio iff some segment or the story has audio, hasImages iff some segment has a real image, and the story mode defaulting to 'Unknown' |
| StoryExporter.HeaderShape | src/utils/storyExporter.ts:96-102 | the text opens with the title, 'Untitled Story' when falsy, and the header closes with a rule |
| StoryExporter.Shown | src/utils/storyExporter.ts:109 | a text is shown as itself and a null text as the word null, as a template literal renders it |
| StoryExporter.ChoiceLine | src/utils/storyExporter.ts:106-108 | the choice line is present iff the segment has a truthy triggering choice, and then quotes it |
| StoryExporter.ImageLine | src/utils/storyExporter.ts:110-112 | the image line is present iff the image is truthy and not the placeholder |
| StoryExporter.AudioLine | src/utils/storyExporter.ts:113-115 | the audio line is present iff the segment has a truthy audio URL |
| StoryExporter.ChapterShape | src/utils/storyExporter.ts:105-116 | each chapter block opens with its heading and closes with a rule |
| StoryExporter.Chapters | src/utils/storyExporter.ts:104-117 | exactly one block per segment, the i-th block being the chapter numbered i + 1 of the i-th segment |
| StoryExporter.ConcatAppend | src/utils/storyExporter.ts:104-117 | concatenating two lists of blocks is concatenating their texts |
| StoryExporter.AudioSection | src/utils/storyExporter.ts:119-122 | the closing section is present iff the story has a truthy full audio URL |
| StoryExporter.AppendChapter | src/utils/storyExporter.ts:105-116 | one turn of the loop appends exactly the segment's chapter block to the content |
| StoryExporter.RenderText | src/utils/storyExporter.ts:96-122 | the content is the header, the chapter blocks in segment order and the audio section |
| StoryExporter.ExportAsText | src/utils/storyExporter.ts:93-126 | fails exactly when the data fetch fails, with its error; otherwise the file holds the rendered text and is named by the sanitised title and '.txt' |
| StoryExporter.Lower | src/utils/storyExporter.ts:124 | upper-case ASCII letters become their lower-case letter; every other character is kept |
| StoryExporter.Sanitize | src/utils/storyExporter.ts:124 | same length as the title; each ASCII letter or digit is kept in lower case, every other character becomes '_', so every character is a lower-case letter, a digit or '_' |
| StoryExporter.SanitizeIdempotent | src/utils/storyExporter.ts:124 | sanitising a sanitised title changes nothing |
| StoryExporter.FileName | src/utils/storyExporter.ts:124-246 | the sanitised title followed by the format's suffix, the title part being safe characters only (lines 124, 202, 209, 246) |
| StoryExporter.ImageEntries | src/utils/storyExporter.ts:215-241 | at most one entry per segment, each naming a segment with a real image by its chapter number and carrying its URL |
| StoryExporter.ImageEntriesOrdered | src/utils/storyExporter.ts:237-241 | the entries follow chapter order, strictly |
| StoryExporter.ImageEntriesComplete | src/utils/storyExporter.ts:215 | every segment with a real image has its entry |
| StoryExporter.NoEntriesIffNoImages | src/utils/storyExporter.ts:53-220 | the page is empty exactly when the metadata says the story has no images (lines 53, 215-220) |
| StoryExporter.DownloadImages | src/utils/storyExporter.ts:213-248 | fails exactly when the fetch fails; otherwise there is no page iff no segment has a real image, and the page holds the image entries under the sanitised title with '_images.html' |
| Slideshow.SlideWords | src/components/story-viewer/hooks/useSlideshowAutoAdvance.ts:113-114 | the number of pieces the slide's text splits into on single spaces, at least one; 100 when the slide has no text or does not exist |
| Slideshow.ReadingTime | src/components/story-viewer/hooks/useSlideshowAutoAdvance.ts:115 | the larger of 5000 ms and 250 ms per word: at least both, equal to one of them, and 25000 ms for a slide without text |
| Slideshow.Schedule | src/components/story-viewer/hooks/useSlideshowAutoAdvance.ts:66-129 | no timer iff not playing, auto-advance off, at most one slide or no full-story audio URL; otherwise the audio-timed timer when the audio is ready and else a timer of ReadingTime |
| Slideshow.NextSlide | src/components/story-viewer/hooks/useSlideshowAutoAdvance.ts:92 | the next slide is always a valid index: one more, or the first after the last |
| Slideshow.SlideshowState.Advance | src/components/story-viewer/hooks/useSlideshowAutoAdvance.ts:91-107 | the slide becomes NextSlide, and playback stops exactly when the last slide wraps round to the first |
| Slideshow.PlayThrough | src/components/story-viewer/hooks/useSlideshowAutoAdvance.ts:117-128 | a show started on the first slide advances once per slide, then stops on the first slide |
| Slideshow.ShortSlidesWaitTheFloor | src/components/story-viewer/hooks/useSlideshowAutoAdvance.ts:114-115 | a slide whose text has fewer than twenty spaces waits exactly the five-second floor |
| Text.Trim | src/utils/security.ts:13 | `trim()`: the result is a contiguous part of the input that only drops whitespace at its two ends and neither starts nor ends with whitespace |
| Text.TrimEmptyIffAllSpace | src/utils/security.ts:7 | a text trims to '' exactly when it is all whitespace, which is what the validators' emptiness checks test |
| Text.TrimIdempotent | src/utils/security.ts:13 | trimming a trimmed text changes nothing |
| Text.Join | supabase/functions/generate-story-segment/index.ts:66 | `join(sep)`: '' for no parts, the part itself for one, and otherwise a text that opens with the first part followed directly by the separator |
| Text.JoinEmptyIff | supabase/functions/finish-story/index.ts:196 | a join is '' exactly when there are no parts, or every part is '' and there is at most one part or the separator is '' |
| Text.Take | supabase/functions/generate-story-segment/index.ts:66 | `substring(0, n)`: the prefix of length min(n, length) |
| Text.SpaceSplitCount | src/utils/storyExporter.ts:49 | `split(' ').length`: at least one and at most one more than the length |
| Text.RegexSplitCount | src/hooks/useStoryDisplay/useStoryLoader.ts:47 | `split(/\s+/).length`: at least one and at most one more than the length |
| Text.WordCount | supabase/functions/finish-story/index.ts:233 | the non-empty pieces of a whitespace split: 0 exactly when the text is all whitespace |
| Text.RegexPiecesAndWords | supabase/functions/finish-story/index.ts:233 | the unfiltered split has exactly the non-empty pieces plus one empty piece for a leading and one for a trailing whitespace run |
| Text.NatToString | src/utils/storyExporter.ts:99-100 | a number renders as decimal digits without a leading zero |
| Text.DecimalValueOfNatToString | src/utils/storyExporter.ts:99-100 | the rendered digits read back as the number |
| Text.NatToStringInjective | src/utils/storyExporter.ts:105 | distinct numbers render as distinct texts, so chapter headings are distinct |
| Text.ParseIntPrefix | supabase/functions/regenerate-image/index.ts:147 | `parseInt` with no radix skips leading whitespace and then reads the signed magnitude (Signed) |
| Text.DigitOf | supabase/functions/regenerate-image/index.ts:147 | a character's digit value is at most 36, below 10 exactly for the decimal digits, and a decimal digit's value prints back as that digit |
| Text.DigitPrefix | supabase/functions/regenerate-image/index.ts:147 | the longest prefix of digits of the radix: every character in it is such a digit and the next one, if any, is not |
| Text.Magnitude | supabase/functions/regenerate-image/index.ts:147 | after the sign, `0x` or `0X` selects radix 16 and otherwise the radix is 10; NaN exactly when no digit of that radix follows, and otherwise the value of the longest run of them |
| Text.Signed | supabase/functions/regenerate-image/index.ts:147 | NaN exactly when the magnitude is NaN; otherwise the magnitude, negated under a leading minus |
| Text.MagnitudeOfNatToString | supabase/functions/regenerate-image/index.ts:147 | the magnitude of a decimal rendering is the number rendered |
| Text.ParseIntOfNegated | supabase/functions/regenerate-image/index.ts:147 | a minus sign before a rendered number parses as its negation |
| Text.ParseIntStopsAtComma | supabase/functions/regenerate-image/index.ts:147 | `parseInt` never reads past a comma, so of a comma-joined array rendering it reads only the first item |
| Text.ParseIntOfNatToString | supabase/functions/regenerate-image/index.ts:147 | a rendered number parses back to itself |

## Left out

- HTTP framing: CORS headers, request parsing and JSON bodies of the `serve` handlers. Only the outcome a handler reports is modelled.
- The `fetch` calls to OpenAI and OVH, `Deno.env` lookups and base64/Blob conversion (supabase/functions/regenerate-image/index.ts:97-104). These are I/O, so a reply is an input.
- The image adapters (supabase/functions/regenerate-image/index.ts:10-109, ovh-image-service.ts, openai-image-service.ts). Each call's outcome is an input; openai-image-service.ts is not part of this model.
- `uploadImageToStorage` (supabase/functions/generate-story-segment/image.ts:114-141) is storage I/O. An upload's result is an input.
- Database queries are not evaluated: their results are inputs. This covers the batch query's filter on a null or placeholder thumbnail (src/utils/storyCoverUtils.ts:55-61), which gives the ids `matching`. Writes are modelled on `Store.Database`.
- `EdgeRuntime.waitUntil` (supabase/functions/generate-story-segment/index.ts:117, supabase/functions/finish-story/index.ts:251) is concurrency. The handler reports that it scheduled the task, and the task is a separate method.
- Realtime channel subscription and the race between concurrent choices are concurrency.
- The refresh bursts at 200/500/1000 ms (src/hooks/useRealtimeHandlers.ts:55-79, 96-101) are timers; they are reported as counts.
- The slideshow's `setTimeout` scheduling is a timer. `Slideshow.Schedule` says which timer is set, and `Advance` is its callback.
- The 100 ms delay between batch repairs (src/utils/storyCoverUtils.ts:88) is a timer.
- `debounce` and `throttle` in src/lib/performance.ts are timers.
- Schedule (Slideshow): audio-proportional slide durations use floating point (src/components/story-viewer/hooks/useSlideshowAutoAdvance.ts:37-47). The audio-timed timer carries no duration.
- The email validator and the content filters (src/utils/security.ts:40-46, 58-69, 98-106) are regular expressions. Whether a filter matches is the `flagged` input of the validators.
- `sanitizeContent` (DOMPurify and regex replaces) and `secureStorage` (localStorage and btoa) are browser library code.
- `isValidUUID`, `isProperUUID`, `useStoryGeneration` and `AIProviderErrorHandler` are not part of this model. Their verdicts, their results and the user message are inputs.
- `handleGenerateAudio` (src/hooks/story-creation/useStoryActions.ts:229-256) only forwards a mutation's audio URL to a setter.
- `markStoryAsCompleted` swallows its errors (src/hooks/story-creation/useStoryActions.ts:212-227). The session reports which story it marked.
- Toasts, console logging and alerts are UI output.
- `exportAsHTML`, `exportAsJSON` and the markup of the image page are left out. Their file names are modelled (`StoryExporter.FileName`), as are the page's entries (`StoryExporter.ImageEntries`).
- The locale formatting of dates is not modelled: the formatted dates are inputs.
- JavaScript's `NaN` and `Infinity` have no `Json` value: a JSON number is a real number. A NaN that `parseInt` returns is modelled as `None` (`Text.ParseIntPrefix`, `RegenerateImage.ParseIntValue`); `parseFloat` and arithmetic that yields NaN or Infinity are not modelled.
- NumberParseInt (RegenerateImage): for a number that prints in exponent form only the sign and the range 1 to 9 of the digit read are stated, not which digit it is; the decimal rendering of a real number is not modelled.
- ParseIntValue (RegenerateImage): an `undefined` array item has no `Json` value, so an array whose first item is undefined is not modelled.
- All strings are sequences of characters, and a character stands for one UTF-16 code unit only for text inside the Basic Multilingual Plane. For text with characters outside it (emoji, for instance), JavaScript's `length`, `substring` and regular expressions count two code units where the model counts one character. The members below state their bounds and cuts in characters for that reason:
- RequiredText (Security): the length bound counts characters, where `length` counts UTF-16 code units.
- OptionalText (Security): the length bound counts characters, where `length` counts UTF-16 code units.
- StoryTitle (Security): the length bound counts characters, where `length` counts UTF-16 code units.
- StoryDescription (Security): the length bound counts characters, where `length` counts UTF-16 code units.
- SegmentText (Security): the length bound counts characters, where `length` counts UTF-16 code units.
- ChoiceText (Security): the length bound counts characters, where `length` counts UTF-16 code units.
- StoryPrompt (Security): the length bound counts characters, where `length` counts UTF-16 code units.
- ImagePrompt (Security): the length bound counts characters, where `length` counts UTF-16 code units.
- AudioText (Security): the length bound counts characters, where `length` counts UTF-16 code units.
- EnhancedPrompt (ImageGeneration): the 4000 cap counts characters, where `substring` counts UTF-16 code units.
- CreateEnhancedImagePrompt (EnhancedImagePrompt): the 4000 cap counts characters, where `length` and `substring` count UTF-16 code units and can split a surrogate pair.
- Chars (Settings): a spread string is split into characters, where object spread splits it into UTF-16 code units.
- Sanitize (StoryExporter): each character becomes one character, where the regular expression replaces each UTF-16 code unit, so a character outside the Basic Multilingual Plane becomes two '_'.
- FileName (StoryExporter): the title part has as many characters as the title, where JavaScript's has as many as its UTF-16 code units.
- Take (Text): the prefix is counted in characters, where `substring` counts UTF-16 code units.
- PreviousSummary (GenerateSegment): the 500 cap counts characters, where `substring` counts UTF-16 code units.
- UserPrompt (TextGeneration): `choiceText` and each previous segment's `segment_text` is a string, null or absent (`TextValue`). A number, boolean or object there is not modelled, and neither is a previous segment that is itself null, whose property read throws.
- UserPrompt (OvhTextService): `choiceText` is a string, null or absent. A number, boolean or object there is not modelled.
- EntryTexts (TextGeneration): the entry order is taken as given. JavaScript lists integer-like names first, in ascending order, and that rule is not modelled.
- ParseContent (TextGeneration): an array content, which `JSON.parse` reads as its comma-joined rendering, is treated as unparsable. The number that `JSON.parse` reads back from a number's rendering is taken to be the number itself.
- ApplyUpdate (RealtimeHandlers): `!==` on an image URL is compared by value, so two distinct but equal array or object values count as unchanged.
- The generic-image lookup treats only the ten listed modes as keys, not inherited object-prototype names such as `constructor`.
- PreviousSummary (GenerateSegment): the previous texts are given as strings. A null text, which `join` renders as '', is passed as ''.
- Serve (FinishStory): no guard against finishing a story twice, because the source has none.
- UI pages and components, auth, subscription and billing hooks, the Stripe checkout function, `useAdminAccess` and the delegating `useStoryDisplayRealtime` are outside the modelled core.
