/** `generateImage` of generate-story-segment (image.ts): load the settings, enhance the
    prompt with the fixed fantasy style and no characters, then run the provider policy with
    the configured primary and fallback and the image section's `ovhSettings`. */
module ImageGeneration {
  import opened Wrappers
  import opened Json
  import opened Text
  import opened ProviderPolicy
  import Settings
  import EnhancedImagePrompt

  const FixedStyle: string := "epic fantasy illustration, digital art, cinematic lighting, high detail"

  /** The visual context `generateImage` passes: no characters yet, the fixed style. */
  const FixedContext: EnhancedImagePrompt.VisualContext :=
    EnhancedImagePrompt.VisualContext(Some([]), Some(FixedStyle))

  /** The prompt both attempts receive: never a characters part, always the style part. */
  function EnhancedPrompt(prompt: string): (r: string)
    ensures |r| <= EnhancedImagePrompt.MaxLength
    ensures var full := EnhancedImagePrompt.Header + prompt + EnhancedImagePrompt.StyleLabel + FixedStyle
                        + EnhancedImagePrompt.Footer;
            r == Take(full, EnhancedImagePrompt.MaxLength)
  {
    var vc := Some(FixedContext);
    var lead := EnhancedImagePrompt.Header + prompt;
    var style := EnhancedImagePrompt.StyleLabel + FixedStyle;
    assert EnhancedImagePrompt.CharactersPart(vc) == "";
    assert EnhancedImagePrompt.StylePart(vc) == style;
    assert lead + "" == lead;
    assert lead + style == lead + EnhancedImagePrompt.StyleLabel + FixedStyle;
    EnhancedImagePrompt.CreateEnhancedImagePrompt(prompt, vc)
  }

  /** `settings.imageProviders.primary` / `.fallback`; an absent field reads as null. */
  function Provider(section: Settings.Section, key: string): (v: Json)
    ensures key in section ==> v == section[key]
    ensures key !in section ==> v == JNull
  {
    if key in section then section[key] else JNull
  }

  method GenerateImage(prompt: string, query: Settings.QueryOutcome, parse: string -> Option<Json>,
                       first: AdapterOutcome, second: AdapterOutcome)
    returns (result: Generated, calls: seq<Invocation<Option<Json>>>)
    ensures var section := Settings.Loaded(query, parse).imageProviders;
            forall i :: 0 <= i < |calls| ==>
              calls[i].prompt == EnhancedPrompt(prompt) &&
              calls[i].ovhSettings == (if calls[i].adapter == OvhAdapter then Some(Get(section, "ovhSettings")) else None)
    ensures var section := Settings.Loaded(query, parse).imageProviders;
            var primary := Provider(section, "primary");
            var fallback := Provider(section, "fallback");
            && (primary.JStr? ==> |calls| >= 1 && calls[0].adapter == AdapterFor(primary.s))
            && (|calls| == 2 <==> primary.JStr? && Absorb(first).None? && fallback.JStr?)
            && (|calls| == 2 ==> calls[1].adapter == AdapterFor(fallback.s))
            && (primary.JStr? && fallback.JStr? ==> result == Resolved(FirstImage(Absorb(first), Absorb(second))))
            && (!primary.JStr? ==> result == Raised && calls == [])
            && (primary.JStr? && Absorb(first).Some? ==> result == Resolved(Absorb(first)) && |calls| == 1)
            && (primary.JStr? && Absorb(first).None? && !fallback.JStr? ==> result == Raised && |calls| == 1)
  {
    var settings := Settings.GetGenerationSettings(query, parse);
    var section := settings.imageProviders;
    var enhanced := EnhancedPrompt(prompt);
    assert section == Settings.Loaded(query, parse).imageProviders;
    result, calls := GenerateWithFallback(Provider(section, "primary"), Provider(section, "fallback"),
                                          enhanced, Get(section, "ovhSettings"), first, second);
  }

  /** With the default settings the OVH adapter is tried first, handed the default OVH
      settings, and OpenAI is the fallback. */
  lemma DefaultsTryOvhThenOpenAI(prompt: string)
    ensures var section := Settings.DefaultSettings.imageProviders;
            Dispatch(Provider(section, "primary").s, EnhancedPrompt(prompt), Get(section, "ovhSettings"))
              == Invocation(OvhAdapter, EnhancedPrompt(prompt), Some(Some(section["ovhSettings"])))
    ensures AdapterFor(Provider(Settings.DefaultSettings.imageProviders, "fallback").s) == OpenAIAdapter
  {
  }
}
