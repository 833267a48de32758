/** The regenerate-image function: its own settings loader, which overwrites one field per
    recognised admin row, its simpler prompt enhancement, the shared provider policy, and the
    HTTP outcome of a request.  The settings query, the request body and the adapters are
    inputs. */
module RegenerateImage {
  import opened Wrappers
  import opened Json
  import opened Text
  import opened ProviderPolicy

  /** The OVH settings object handed to the OVH adapter. */
  datatype OvhImageSettings = OvhImageSettings(negativePrompt: Json, steps: int)

  /** `settings.imageProviders`. */
  datatype ImageSettings = ImageSettings(primary: Json, fallback: Json, ovh: OvhImageSettings)

  datatype Row = Row(key: string, value: Json)

  /** The settings query either threw, or resolved with `data` (null on a query error). */
  datatype SettingsQuery = QueryThrew | QueryData(data: Option<seq<Row>>)

  const DefaultPrimary: Json := JStr("openai")
  const DefaultFallback: Json := JStr("ovh")
  const DefaultNegativePrompt: Json := JStr("Ugly, blurry, low quality, deformed, distorted")
  const DefaultSteps: int := 20

  const Defaults: ImageSettings :=
    ImageSettings(DefaultPrimary, DefaultFallback, OvhImageSettings(DefaultNegativePrompt, DefaultSteps))

  const PrimaryKey: string := "image_provider_primary"
  const FallbackKey: string := "image_provider_fallback"
  const NegativePromptKey: string := "ovh_negative_prompt"
  const StepsKey: string := "ovh_steps"

  /** `x.Trunc` toward zero, as the digits before the point of a plain decimal rendering. */
  function TruncateReal(x: real): (i: int)
    ensures x >= 0.0 ==> i as real <= x < i as real + 1.0
    ensures x < 0.0 ==> i as real - 1.0 < x <= i as real
  {
    if x >= 0.0 then x.Floor else -((-x).Floor)
  }

  /** Magnitudes at or above this print in exponent form (`1e+21`). */
  const ExponentAbove: real := 1000000000000000000000.0
  /** Non-zero magnitudes below this print in exponent form (`1e-7`). */
  const ExponentBelow: real := 0.000001

  /** The first significant digit of a number of at least one. */
  function LeadingDigitLarge(x: real): (d: nat)
    requires x >= 1.0
    ensures 1 <= d <= 9
    ensures x < 10.0 ==> d == x.Floor
    decreases x.Floor
  {
    if x < 10.0 then x.Floor else LeadingDigitLarge(x / 10.0)
  }

  /** The first significant digit of a positive number below one. */
  function LeadingDigitSmall(x: real): (d: nat)
    requires 0.0 < x < 1.0
    ensures 1 <= d <= 9
    decreases (1.0 / x).Floor
  {
    if x * 10.0 >= 1.0 then LeadingDigitLarge(x * 10.0)
    else
      ReciprocalShrinks(x);
      LeadingDigitSmall(x * 10.0)
  }

  lemma ReciprocalShrinks(x: real)
    requires 0.0 < x && x * 10.0 < 1.0
    ensures 0 <= (1.0 / (x * 10.0)).Floor < (1.0 / x).Floor
  {
    var y := 1.0 / x;
    assert y * x == 1.0;
    assert y > 10.0;
    assert 1.0 / (x * 10.0) == y / 10.0;
  }

  /** `parseInt` of a number reads `String(n)`: between 10^-6 and 10^21 the rendering is
      plain and its digits before the point are the truncation; outside that range it is in
      exponent form and only the first significant digit is read, with the sign. */
  function NumberParseInt(n: real): (r: int)
    ensures (ExponentBelow <= n < ExponentAbove || -ExponentAbove < n <= -ExponentBelow || n == 0.0) ==>
              r == TruncateReal(n)
    ensures (n >= ExponentAbove || 0.0 < n < ExponentBelow) ==> 1 <= r <= 9
    ensures (n <= -ExponentAbove || -ExponentBelow < n < 0.0) ==> -9 <= r <= -1
  {
    var a := if n < 0.0 then -n else n;
    var m := if a == 0.0 || ExponentBelow <= a < ExponentAbove then -1
             else if a >= ExponentAbove then LeadingDigitLarge(a) else LeadingDigitSmall(a);
    if m < 0 then TruncateReal(n) else if n < 0.0 then -m else m
  }

  /** `String(v)` of a JSON value that is not a string, a number or an array. */
  function ScalarText(v: Json): (t: string)
    requires v.JNull? || v.JBool? || v.JObj?
  {
    match v
    case JNull => "null"
    case JBool(b) => if b then "true" else "false"
    case JObj(_) => "[object Object]"
  }

  /** `parseInt(value)`, which reads `String(value)`: a string is parsed as it is; a number
      as its rendering; an array renders as its items joined by commas, so only its first
      item is read (a null item renders as nothing); null, booleans and objects render as
      words that hold no digits. */
  function ParseIntValue(v: Json): (r: Option<int>)
    ensures v.JStr? ==> r == ParseIntPrefix(v.s)
    ensures v.JNum? ==> r == Some(NumberParseInt(v.n))
    ensures v.JNull? || v.JBool? || v.JObj? ==> r == ParseIntPrefix(ScalarText(v))
    ensures v.JArr? && (v.items == [] || v.items[0].JNull?) ==> r == ParseIntPrefix("")
    ensures v.JArr? && v.items != [] && !v.items[0].JNull? ==> r == ParseIntValue(v.items[0])
  {
    match v
    case JStr(s) => ParseIntPrefix(s)
    case JNum(n) => Some(NumberParseInt(n))
    case JArr(items) =>
      if items == [] || items[0].JNull? then ParseIntPrefix("") else ParseIntValue(items[0])
    case _ => ParseIntPrefix(ScalarText(v))
  }

  /** The words null, booleans and objects render as hold no number, so they read as NaN. */
  lemma WordsReadAsNaN(v: Json)
    requires v.JNull? || v.JBool? || v.JObj?
    ensures ParseIntValue(v).None?
  {
    var t := ScalarText(v);
    assert LeadingEnd(t, 0) == 0 by { assert !IsSpace(t[0]); }
    assert TrimStart(t) == t;
    assert SignDropped(t) == t;
    assert !HexPrefixed(t);
    assert DigitOf(t[0]) >= 10;
  }

  /** A hex string reads in radix 16. */
  lemma HexStringReads()
    ensures ParseIntValue(JStr("0x1e")) == Some(30) && StepsFrom(JStr("0x1e")) == 30
  {
    ParseIntOfUnsigned("0x1e");
    HexMagnitude();
  }

  lemma HexMagnitude()
    ensures Magnitude("0x1e") == Some(30)
  {
    assert HexPrefixed("0x1e") && Numeral("0x1e") == "1e";
    DigitPrefixOfDigits("1e", 16);
    HexValue();
  }

  lemma HexValue()
    ensures Value("1e", 16) == 30
  {
    assert "1e"[..1] == "1";
    assert "1"[..0] == "";
  }

  /** Digits followed by other text read as the digits. */
  lemma TrailingTextIgnored()
    ensures ParseIntValue(JStr("12px")) == Some(12) && StepsFrom(JStr("12px")) == 12
  {
    ParseIntOfUnsigned("12px");
    TrailingMagnitude();
  }

  lemma TrailingMagnitude()
    ensures Magnitude("12px") == Some(12)
  {
    assert !HexPrefixed("12px") && Numeral("12px") == "12px";
    TrailingDigits();
    DecimalValue();
  }

  lemma TrailingDigits()
    ensures DigitPrefix("12px", 10) == "12"
  {
    assert "12px" == "12" + "px";
    DigitPrefixOfDigits("12", 10);
    DigitPrefixAppend("12", "px", 10);
  }

  lemma DecimalValue()
    ensures Value("12", 10) == 12
  {
    assert "12"[..1] == "1";
    assert "1"[..0] == "";
  }

  /** An array holding one number reads as that number. */
  lemma ArrayReadsFirstItem()
    ensures ParseIntValue(JArr([JNum(30.0)])) == Some(30) && StepsFrom(JArr([JNum(30.0)])) == 30
  {
  }

  /** A small number prints in exponent form, so only its first significant digit is read. */
  lemma ExponentFormReadsLeadingDigit()
    ensures ParseIntValue(JNum(0.0000005)) == Some(5) && StepsFrom(JNum(0.0000005)) == 5
  {
    assert LeadingDigitSmall(0.0000005) == 5;
  }

  /** `parseInt(value) || 20`: NaN and 0 both give the default. */
  function StepsFrom(v: Json): (steps: int)
    ensures steps != 0
    ensures ParseIntValue(v).None? ==> steps == DefaultSteps
    ensures ParseIntValue(v).Some? && ParseIntValue(v).value != 0 ==> steps == ParseIntValue(v).value
  {
    match ParseIntValue(v)
    case None => DefaultSteps
    case Some(n) => if n == 0 then DefaultSteps else n
  }

  /** One `case` of the `switch (setting.key)`: a recognised key overwrites its own field
      with the value or, when the value is falsy, that field's default. */
  function ApplySetting(s: ImageSettings, row: Row): (r: ImageSettings)
    ensures row.key == PrimaryKey ==> r == s.(primary := Or(Some(row.value), DefaultPrimary))
    ensures row.key == FallbackKey ==> r == s.(fallback := Or(Some(row.value), DefaultFallback))
    ensures row.key == NegativePromptKey ==>
              r == s.(ovh := s.ovh.(negativePrompt := Or(Some(row.value), DefaultNegativePrompt)))
    ensures row.key == StepsKey ==> r == s.(ovh := s.ovh.(steps := StepsFrom(row.value)))
    ensures row.key !in {PrimaryKey, FallbackKey, NegativePromptKey, StepsKey} ==> r == s
  {
    if row.key == PrimaryKey then s.(primary := Or(Some(row.value), DefaultPrimary))
    else if row.key == FallbackKey then s.(fallback := Or(Some(row.value), DefaultFallback))
    else if row.key == NegativePromptKey then
      s.(ovh := s.ovh.(negativePrompt := Or(Some(row.value), DefaultNegativePrompt)))
    else if row.key == StepsKey then s.(ovh := s.ovh.(steps := StepsFrom(row.value)))
    else s
  }

  function ApplySettings(s: ImageSettings, rows: seq<Row>): ImageSettings {
    if rows == [] then s else ApplySetting(ApplySettings(s, rows[..|rows| - 1]), rows[|rows| - 1])
  }

  /** The settings a query yields: none when it throws, the defaults when `data` is null,
      and otherwise the defaults overwritten row by row. */
  function Loaded(query: SettingsQuery): (settings: Option<ImageSettings>)
    ensures query.QueryThrew? <==> settings.None?
    ensures query.QueryData? && query.data.None? ==> settings == Some(Defaults)
    ensures query.QueryData? && query.data.Some? ==> settings == Some(ApplySettings(Defaults, query.data.value))
  {
    match query
    case QueryThrew => None
    case QueryData(data) => Some(if data.Some? then ApplySettings(Defaults, data.value) else Defaults)
  }

  /** `getGenerationSettings`: the defaults, overwritten row by row when `data` is present;
      `None` when the query throws. */
  method GetGenerationSettings(query: SettingsQuery) returns (settings: Option<ImageSettings>)
    ensures settings == Loaded(query)
  {
    if query.QueryThrew? {
      return None;
    }
    var current := Defaults;
    if query.data.Some? {
      var rows := query.data.value;
      var i := 0;
      while i < |rows|
        invariant 0 <= i <= |rows|
        invariant current == ApplySettings(Defaults, rows[..i])
      {
        assert rows[..i + 1][..i] == rows[..i];
        current := ApplySetting(current, rows[i]);
        i := i + 1;
      }
      assert rows[..|rows|] == rows;
    }
    settings := Some(current);
  }

  /** The field of the settings a recognised key writes. */
  predicate SameField(a: ImageSettings, b: ImageSettings, key: string) {
    if key == PrimaryKey then a.primary == b.primary
    else if key == FallbackKey then a.fallback == b.fallback
    else if key == NegativePromptKey then a.ovh.negativePrompt == b.ovh.negativePrompt
    else if key == StepsKey then a.ovh.steps == b.ovh.steps
    else true
  }

  lemma {:induction false} ApplySettingsAppend(s: ImageSettings, a: seq<Row>, b: seq<Row>)
    ensures ApplySettings(s, a + b) == ApplySettings(ApplySettings(s, a), b)
  {
    if b == [] {
      assert a + b == a;
    } else {
      assert (a + b)[..|a + b| - 1] == a + b[..|b| - 1];
      ApplySettingsAppend(s, a, b[..|b| - 1]);
    }
  }

  /** Rows for other keys do not touch the field of `key`. */
  lemma {:induction false} OtherKeysKeepField(s: ImageSettings, rows: seq<Row>, key: string)
    requires forall i :: 0 <= i < |rows| ==> rows[i].key != key
    ensures SameField(ApplySettings(s, rows), s, key)
  {
    if rows != [] {
      OtherKeysKeepField(s, rows[..|rows| - 1], key);
    }
  }

  /** When a key repeats, its last row decides the field. */
  lemma LastRowWins(s: ImageSettings, before: seq<Row>, row: Row, after: seq<Row>)
    requires forall i :: 0 <= i < |after| ==> after[i].key != row.key
    ensures SameField(ApplySettings(s, before + [row] + after), ApplySetting(s, row), row.key)
  {
    ApplySettingsAppend(s, before + [row], after);
    ApplySettingsAppend(s, before, [row]);
    OtherKeysKeepField(ApplySettings(s, before + [row]), after, row.key);
  }

  /** The OVH adapter is handed the steps of the last `ovh_steps` row, read as
      `parseInt(value) || 20`; with no settings rows it is handed 20, and OpenAI is tried
      first with OVH as the fallback. */
  lemma LoadedStepsFromLastRow(before: seq<Row>, value: Json)
    ensures Loaded(QueryData(Some(before + [Row(StepsKey, value)]))).value.ovh.steps == StepsFrom(value)
    ensures Loaded(QueryData(Some([]))) == Some(Defaults)
    ensures Defaults.primary == JStr("openai") && Defaults.fallback == JStr("ovh") && Defaults.ovh.steps == 20
  {
    var rows := before + [Row(StepsKey, value)];
    assert rows[..|rows| - 1] == before;
  }

  const DefaultStyle: string := "epic fantasy illustration, digital art, cinematic lighting, high detail"

  /** `createEnhancedImagePrompt`: the original prompt, a comma, then the style, or the
      default fantasy style when `style` is absent or empty. */
  function CreateEnhancedImagePrompt(original: string, style: Option<string>): (r: string)
    ensures StartsWith(r, original + ", ")
    ensures Given(style) ==> r[|original| + 2..] == style.value
    ensures !Given(style) ==> r[|original| + 2..] == DefaultStyle
  {
    var r := original + ", " + OrText(style, DefaultStyle);
    assert r[..|original + ", "|] == original + ", ";
    r
  }

  /** The request body: `prompt` is `None` when absent; `testMode` is the raw field. */
  datatype RequestBody = RequestBody(prompt: Option<string>, testMode: Option<Json>)

  datatype ResponseBody =
    | ErrorMessage(error: string)
    | ThrownError            // the caught error's own message
    | TestCompleted(imageSize: nat)
    | Regenerated

  datatype Response = Response(status: nat, body: ResponseBody)

  const PromptRequired: string := "Prompt is required"
  const AllProvidersFailed: string := "Failed to generate image with all available providers"

  /** `serve` for a POST request.  `request` is `None` when the body is not JSON. */
  method Serve(request: Option<RequestBody>, query: SettingsQuery, first: AdapterOutcome, second: AdapterOutcome)
    returns (response: Response, calls: seq<Invocation<OvhImageSettings>>)
    ensures request.None? ==> response == Response(500, ThrownError) && calls == []
    ensures request.Some? && !Given(request.value.prompt) ==>
              response == Response(400, ErrorMessage(PromptRequired)) && calls == []
    ensures request.Some? && Given(request.value.prompt) && query.QueryThrew? ==>
              response == Response(500, ThrownError) && calls == []
    ensures calls != [] ==> request.Some? && Given(request.value.prompt)
    ensures request.Some? && Given(request.value.prompt) ==>
              forall i :: 0 <= i < |calls| ==>
                calls[i].prompt == CreateEnhancedImagePrompt(request.value.prompt.value, Some(DefaultStyle))
    ensures response.status == 200 <==> response.body.TestCompleted? || response.body.Regenerated?
    ensures response.body.TestCompleted? ==> request.Some? && Present(request.value.testMode)
    ensures response.body.Regenerated? ==> request.Some? && !Present(request.value.testMode)
    ensures response.status == 200 ==> exists blob :: FirstImage(Absorb(first), Absorb(second)) == Some(blob)
    ensures response.body.TestCompleted? ==> Some(response.body.imageSize) == SizeOf(FirstImage(Absorb(first), Absorb(second)))
    ensures response == Response(500, ErrorMessage(AllProvidersFailed)) ==>
              Absorb(first).None? && Absorb(second).None? && |calls| == 2
    ensures request.Some? && Given(request.value.prompt) && Loaded(query).Some? ==>
              var s := Loaded(query).value;
              var enhanced := CreateEnhancedImagePrompt(request.value.prompt.value, Some(DefaultStyle));
              && (s.primary.JStr? ==> |calls| >= 1 && calls[0] == Dispatch(s.primary.s, enhanced, s.ovh))
              && (|calls| == 2 ==> s.fallback.JStr? && calls[1] == Dispatch(s.fallback.s, enhanced, s.ovh))
              && (|calls| == 2 <==> s.primary.JStr? && Absorb(first).None? && s.fallback.JStr?)
              && (!s.primary.JStr? || (Absorb(first).None? && !s.fallback.JStr?) ==>
                    response == Response(500, ThrownError))
              && (s.primary.JStr? && s.fallback.JStr? && FirstImage(Absorb(first), Absorb(second)).None? ==>
                    response == Response(500, ErrorMessage(AllProvidersFailed)))
              && (s.primary.JStr? && (Absorb(first).Some? || (s.fallback.JStr? && Absorb(second).Some?)) ==>
                    response.status == 200 &&
                    response.body == (if Present(request.value.testMode)
                                      then TestCompleted(|FirstImage(Absorb(first), Absorb(second)).value|)
                                      else Regenerated))
  {
    calls := [];
    if request.None? {
      return Response(500, ThrownError), calls;
    }
    var body := request.value;
    if !Given(body.prompt) {
      return Response(400, ErrorMessage(PromptRequired)), calls;
    }
    var settings := GetGenerationSettings(query);
    if settings.None? {
      return Response(500, ThrownError), calls;
    }
    var s := settings.value;
    var enhanced := CreateEnhancedImagePrompt(body.prompt.value, Some(DefaultStyle));
    var result;
    result, calls := GenerateWithFallback(s.primary, s.fallback, enhanced, s.ovh, first, second);
    if result.Raised? {
      return Response(500, ThrownError), calls;
    }
    if result.image.None? {
      return Response(500, ErrorMessage(AllProvidersFailed)), calls;
    }
    if Present(body.testMode) {
      return Response(200, TestCompleted(|result.image.value|)), calls;
    }
    response := Response(200, Regenerated);
  }

  function SizeOf(image: Option<Blob>): Option<nat> {
    if image.Some? then Some(|image.value|) else None
  }
}
