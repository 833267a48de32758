/** `getGenerationSettings` of generate-story-segment (settings.ts): the admin key/value rows
    are folded over a copy of the default settings; each of the three section keys
    shallow-merges its parsed value over the current section, any other key is ignored, and
    a row whose value fails to parse is skipped.  The query and `JSON.parse` are inputs. */
module Settings {
  import opened Wrappers
  import opened Json
  import opened Text

  /** One settings section, such as `imageProviders`, as the object it is. */
  type Section = map<string, Json>

  datatype GenerationSettings = GenerationSettings(
    textProviders: Section,
    imageProviders: Section,
    ttsProviders: Section)

  /** One `admin_settings` row. */
  datatype Row = Row(key: string, value: Json)

  /** What the `admin_settings` query did: reported an error, threw, or returned `data`. */
  datatype QueryOutcome = QueryFailed | QueryThrew | QueryRows(data: Option<seq<Row>>)

  const TextKey: string := "text_providers"
  const ImageKey: string := "image_providers"
  const TtsKey: string := "tts_providers"

  const DefaultTextProviders: Section := map[
    "primary" := JStr("ovh"),
    "fallback" := JStr("openai"),
    "wordCount" := JObj(map["min" := JNum(120.0), "max" := JNum(200.0)]),
    "geminiSettings" := JObj(map["model" := JStr("gemini-1.5-flash-latest"), "temperature" := JNum(0.7)]),
    "openaiSettings" := JObj(map["model" := JStr("gpt-4o-mini"), "temperature" := JNum(0.7)]),
    "ovhSettings" := JObj(map["model" := JStr("qwen2.5-coder-32b-instruct"), "temperature" := JNum(0.7),
                              "max_tokens" := JNum(1500.0)])
  ]

  const DefaultImageProviders: Section := map[
    "primary" := JStr("ovh"),
    "fallback" := JStr("openai"),
    "huggingFaceSettings" := JObj(map["model" := JStr("black-forest-labs/FLUX.1-schnell"), "steps" := JNum(4.0),
                                      "guidance_scale" := JNum(0.0), "width" := JNum(1024.0),
                                      "height" := JNum(1024.0)]),
    "stableDiffusionSettings" := JObj(map["steps" := JNum(20.0), "dimensions" := JStr("1024x1024")]),
    "dalleSettings" := JObj(map["model" := JStr("dall-e-3"), "quality" := JStr("standard"),
                                "size" := JStr("1024x1024")]),
    "replicateSettings" := JObj(map["model" := JStr("flux-schnell"), "steps" := JNum(4.0),
                                    "aspect_ratio" := JStr("1:1"), "output_format" := JStr("webp")]),
    "ovhSettings" := JObj(map["model" := JStr("sdxl"), "negative_prompt" := JStr("Ugly, blurry, low quality")])
  ]

  const DefaultTtsProviders: Section := map[
    "primary" := JStr("openai"),
    "voice" := JStr("fable"),
    "speed" := JNum(1.0)
  ]

  const DefaultSettings: GenerationSettings :=
    GenerationSettings(DefaultTextProviders, DefaultImageProviders, DefaultTtsProviders)

  /** The defaults pick OVH first with OpenAI as fallback, for both text and images. */
  lemma DefaultProviders()
    ensures DefaultSettings.imageProviders["primary"] == JStr("ovh")
    ensures DefaultSettings.imageProviders["fallback"] == JStr("openai")
    ensures DefaultSettings.textProviders["primary"] == JStr("ovh")
    ensures DefaultSettings.ttsProviders["voice"] == JStr("fable")
  {
  }

  /** The keys an array (or a string, read as its characters) contributes to an object
      spread: "0", "1", … in order. */
  function IndexFields(items: seq<Json>): (m: map<string, Json>)
    ensures m.Keys == IndexKeys(|items|)
  {
    if items == [] then map[]
    else
      var n := |items| - 1;
      IndexFields(items[..n])[NatToString(n) := items[n]]
  }

  function IndexKeys(n: nat): set<string> {
    if n == 0 then {} else IndexKeys(n - 1) + {NatToString(n - 1)}
  }

  /** Index `i` of a spread array lands under the key `String(i)`. */
  lemma {:induction false} IndexFieldsAt(items: seq<Json>, i: nat)
    requires i < |items|
    ensures NatToString(i) in IndexFields(items) && IndexFields(items)[NatToString(i)] == items[i]
  {
    var n := |items| - 1;
    if i < n {
      IndexFieldsAt(items[..n], i);
      if NatToString(i) == NatToString(n) { NatToStringInjective(i, n); }
    }
  }

  function Chars(s: string): (r: seq<Json>)
    ensures |r| == |s| && forall i :: 0 <= i < |s| ==> r[i] == JStr([s[i]])
  {
    if s == [] then [] else Chars(s[..|s| - 1]) + [JStr([s[|s| - 1]])]
  }

  /** The own enumerable properties `...v` spreads: an object's fields, an array's or a
      string's indices, and nothing for null, booleans and numbers. */
  function SpreadFields(v: Json): (m: map<string, Json>)
    ensures v.JObj? ==> m == v.fields
    ensures v.JNull? || v.JBool? || v.JNum? ==> m == map[]
  {
    match v
    case JObj(fields) => fields
    case JArr(items) => IndexFields(items)
    case JStr(s) => IndexFields(Chars(s))
    case _ => map[]
  }

  /** `{ ...section, ...v }`: one level deep, so a nested object in `v` replaces the
      section's nested object whole; fields absent from `v` keep their values. */
  function Merge(section: Section, v: Json): (r: Section)
    ensures r.Keys == section.Keys + SpreadFields(v).Keys
    ensures forall k :: k in SpreadFields(v) ==> r[k] == SpreadFields(v)[k]
    ensures forall k :: k in section && k !in SpreadFields(v) ==> r[k] == section[k]
  {
    section + SpreadFields(v)
  }

  /** `typeof value === 'string' ? JSON.parse(value) : value`; `None` when the parse throws. */
  function ParsedValue(value: Json, parse: string -> Option<Json>): (r: Option<Json>)
    ensures value.JStr? ==> r == parse(value.s)
    ensures !value.JStr? ==> r == Some(value)
  {
    if value.JStr? then parse(value.s) else Some(value)
  }

  /** The body of the `forEach`: one row applied to the settings. */
  function ApplyRow(s: GenerationSettings, row: Row, parse: string -> Option<Json>): (r: GenerationSettings)
    ensures ParsedValue(row.value, parse).None? ==> r == s
    ensures row.key !in {TextKey, ImageKey, TtsKey} ==> r == s
    ensures r.textProviders == (if row.key == TextKey && ParsedValue(row.value, parse).Some?
                                then Merge(s.textProviders, ParsedValue(row.value, parse).value)
                                else s.textProviders)
    ensures r.imageProviders == (if row.key == ImageKey && ParsedValue(row.value, parse).Some?
                                 then Merge(s.imageProviders, ParsedValue(row.value, parse).value)
                                 else s.imageProviders)
    ensures r.ttsProviders == (if row.key == TtsKey && ParsedValue(row.value, parse).Some?
                               then Merge(s.ttsProviders, ParsedValue(row.value, parse).value)
                               else s.ttsProviders)
  {
    match ParsedValue(row.value, parse)
    case None => s
    case Some(v) =>
      if row.key == TextKey then s.(textProviders := Merge(s.textProviders, v))
      else if row.key == ImageKey then s.(imageProviders := Merge(s.imageProviders, v))
      else if row.key == TtsKey then s.(ttsProviders := Merge(s.ttsProviders, v))
      else s
  }

  /** The rows applied in order. */
  function ApplyRows(s: GenerationSettings, rows: seq<Row>, parse: string -> Option<Json>): GenerationSettings
  {
    if rows == [] then s else ApplyRow(ApplyRows(s, rows[..|rows| - 1], parse), rows[|rows| - 1], parse)
  }

  /** The `forEach` over the rows, updating a copy of the defaults. */
  method LoadRows(rows: seq<Row>, parse: string -> Option<Json>) returns (settings: GenerationSettings)
    ensures settings == ApplyRows(DefaultSettings, rows, parse)
  {
    settings := DefaultSettings;
    var i := 0;
    while i < |rows|
      invariant 0 <= i <= |rows|
      invariant settings == ApplyRows(DefaultSettings, rows[..i], parse)
    {
      assert rows[..i + 1][..i] == rows[..i];
      settings := ApplyRow(settings, rows[i], parse);
      i := i + 1;
    }
    assert rows[..|rows|] == rows;
  }

  /** The settings `getGenerationSettings` resolves to. */
  function Loaded(query: QueryOutcome, parse: string -> Option<Json>): GenerationSettings {
    if !query.QueryRows? || query.data.None? || query.data.value == [] then DefaultSettings
    else ApplyRows(DefaultSettings, query.data.value, parse)
  }

  /** `getGenerationSettings`: the defaults on a query error, on a thrown error and on a
      missing or empty result; otherwise the rows folded over the defaults. */
  method GetGenerationSettings(query: QueryOutcome, parse: string -> Option<Json>)
    returns (settings: GenerationSettings)
    ensures settings == Loaded(query, parse)
    ensures !query.QueryRows? || query.data.None? || query.data.value == [] ==> settings == DefaultSettings
    ensures query.QueryRows? && query.data.Some? ==> settings == ApplyRows(DefaultSettings, query.data.value, parse)
  {
    if !query.QueryRows? || query.data.None? || query.data.value == [] {
      return DefaultSettings;
    }
    settings := LoadRows(query.data.value, parse);
  }

  /** Folding two batches of rows is folding the first, then the second. */
  lemma {:induction false} ApplyRowsAppend(s: GenerationSettings, a: seq<Row>, b: seq<Row>, parse: string -> Option<Json>)
    ensures ApplyRows(s, a + b, parse) == ApplyRows(ApplyRows(s, a, parse), b, parse)
  {
    if b == [] {
      assert a + b == a;
    } else {
      assert (a + b)[..|a + b| - 1] == a + b[..|b| - 1];
      ApplyRowsAppend(s, a, b[..|b| - 1], parse);
    }
  }

  /** A row that changes nothing: an unrecognised key or a value that fails to parse. */
  predicate Inert(row: Row, parse: string -> Option<Json>) {
    row.key !in {TextKey, ImageKey, TtsKey} || ParsedValue(row.value, parse).None?
  }

  /** Rows with other keys, and rows that fail to parse, leave the settings as they are. */
  lemma {:induction false} InertRowsChangeNothing(s: GenerationSettings, rows: seq<Row>, parse: string -> Option<Json>)
    requires forall i :: 0 <= i < |rows| ==> Inert(rows[i], parse)
    ensures ApplyRows(s, rows, parse) == s
  {
    if rows != [] {
      InertRowsChangeNothing(s, rows[..|rows| - 1], parse);
    }
  }

  /** Rows for the other sections, and image rows that fail to parse, never touch the image
      section. */
  lemma {:induction false} ImageSectionFromImageRowsOnly(s: GenerationSettings, rows: seq<Row>, parse: string -> Option<Json>)
    requires forall i :: 0 <= i < |rows| ==> rows[i].key != ImageKey || ParsedValue(rows[i].value, parse).None?
    ensures ApplyRows(s, rows, parse).imageProviders == s.imageProviders
  {
    if rows != [] {
      ImageSectionFromImageRowsOnly(s, rows[..|rows| - 1], parse);
    }
  }

  /** The last `image_providers` row that parses decides every field it carries, whatever
      came before it: later rows for other sections, and later image rows that fail to
      parse, do not change it. */
  lemma LastImageRowWins(s: GenerationSettings, before: seq<Row>, row: Row, after: seq<Row>,
                         parse: string -> Option<Json>, k: string)
    requires row.key == ImageKey && ParsedValue(row.value, parse).Some?
    requires k in SpreadFields(ParsedValue(row.value, parse).value)
    requires forall i :: 0 <= i < |after| ==> after[i].key != ImageKey || ParsedValue(after[i].value, parse).None?
    ensures var r := ApplyRows(s, before + [row] + after, parse);
            k in r.imageProviders && r.imageProviders[k] == SpreadFields(ParsedValue(row.value, parse).value)[k]
  {
    ApplyRowsAppend(s, before + [row], after, parse);
    ApplyRowsAppend(s, before, [row], parse);
    ImageSectionFromImageRowsOnly(ApplyRows(s, before + [row], parse), after, parse);
  }
}
