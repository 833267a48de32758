/** `createEnhancedImagePrompt` of generate-story-segment: the prompt, then an optional
    characters part and an optional art-style part, wrapped in fixed quality descriptors and
    cut to 4000 characters. */
module EnhancedImagePrompt {
  import opened Wrappers
  import opened Text
  import opened Json

  /** A character entry: a plain string, or an object with a name and a description. */
  datatype Character = Named(text: string) | Described(name: string, description: string)

  /** The optional visual context.  `characters` is `None` when the field is absent or is
      not an array; `style` is `None` when it is absent. */
  datatype VisualContext = VisualContext(characters: Option<seq<Character>>, style: Option<string>)

  const Header: string := "High quality digital illustration, detailed and vibrant: "
  const Footer: string := ". Professional storybook art style, consistent character design."
  const CharactersLabel: string := " - Characters: "
  const StyleLabel: string := " - Art style: "
  const MaxLength: nat := 4000

  function CharacterText(c: Character): (r: string)
    ensures c.Named? ==> r == c.text
    ensures c.Described? ==> r == c.name + ": " + c.description
  {
    match c
    case Named(text) => text
    case Described(name, description) => name + ": " + description
  }

  function CharacterTexts(cs: seq<Character>): (r: seq<string>)
    ensures |r| == |cs| && forall i :: 0 <= i < |cs| ==> r[i] == CharacterText(cs[i])
  {
    if cs == [] then [] else CharacterTexts(cs[..|cs| - 1]) + [CharacterText(cs[|cs| - 1])]
  }

  /** The characters part: present exactly when `characters` is a non-empty array and its
      joined rendering is non-empty (two or more entries, or one non-empty entry). */
  function CharactersPart(vc: Option<VisualContext>): (r: string)
    ensures r != "" <==>
      vc.Some? && vc.value.characters.Some? && |vc.value.characters.value| > 0 &&
      (|vc.value.characters.value| >= 2 || CharacterText(vc.value.characters.value[0]) != "")
    ensures r != "" ==> r == CharactersLabel + Join(CharacterTexts(vc.value.characters.value), ", ")
  {
    if vc.Some? && vc.value.characters.Some? && |vc.value.characters.value| > 0 then
      var texts := CharacterTexts(vc.value.characters.value);
      var joined := Join(texts, ", ");
      JoinEmptyIff(texts, ", ");
      if joined != "" then CharactersLabel + joined else ""
    else ""
  }

  /** The art-style part: present exactly when `style` is truthy. */
  function StylePart(vc: Option<VisualContext>): (r: string)
    ensures r != "" <==> vc.Some? && Given(vc.value.style)
    ensures r != "" ==> r == StyleLabel + vc.value.style.value
  {
    if vc.Some? && Given(vc.value.style) then StyleLabel + vc.value.style.value else ""
  }

  /** The prompt before it is capped: header, prompt, characters part, style part, footer. */
  function Uncapped(prompt: string, vc: Option<VisualContext>): (r: string)
    ensures StartsWith(r, Header + prompt) && EndsWith(r, Footer)
    ensures |r| == |Header| + |prompt| + |CharactersPart(vc)| + |StylePart(vc)| + |Footer|
  {
    var r := Header + prompt + CharactersPart(vc) + StylePart(vc) + Footer;
    assert r[..|Header + prompt|] == Header + prompt;
    r
  }

  function CreateEnhancedImagePrompt(prompt: string, vc: Option<VisualContext>): (r: string)
    ensures |r| <= MaxLength && |r| <= |Uncapped(prompt, vc)|
    ensures r == Uncapped(prompt, vc)[..|r|]
    ensures |r| == MaxLength || r == Uncapped(prompt, vc)
  {
    Take(Uncapped(prompt, vc), MaxLength)
  }

  /** The result starts with the header followed directly by the prompt, up to the cap. */
  lemma StartsWithHeaderThenPrompt(prompt: string, vc: Option<VisualContext>)
    ensures var r := CreateEnhancedImagePrompt(prompt, vc);
            var lead := Header + prompt;
            |lead| <= MaxLength ==> StartsWith(r, lead)
    ensures var r := CreateEnhancedImagePrompt(prompt, vc);
            var lead := Header + prompt;
            |lead| > MaxLength ==> r == lead[..MaxLength]
  {
    var u := Uncapped(prompt, vc);
    var r := CreateEnhancedImagePrompt(prompt, vc);
    var lead := Header + prompt;
    assert u[..|lead|] == lead;
    if |lead| <= MaxLength {
      assert r[..|lead|] == u[..|lead|];
    } else {
      assert r == u[..MaxLength] == lead[..MaxLength];
    }
  }

  /** Without truncation the characters part, then the style part, sit between the prompt and
      the footer, and the fixed footer ends the result. */
  lemma LayoutWhenUncapped(prompt: string, vc: Option<VisualContext>)
    requires |Uncapped(prompt, vc)| <= MaxLength
    ensures CreateEnhancedImagePrompt(prompt, vc)
         == Header + prompt + CharactersPart(vc) + StylePart(vc) + Footer
    ensures EndsWith(CreateEnhancedImagePrompt(prompt, vc), Footer)
  {
  }
}
