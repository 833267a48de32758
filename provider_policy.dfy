/** The image-provider policy shared by the generate-story-segment and regenerate-image
    functions: `callImageProvider` dispatches a provider name to an adapter and turns an
    adapter exception into "no image"; `generateImage` tries the primary provider and, only
    when it yields nothing, the fallback once.  The adapters themselves are opaque: what
    each invocation of an adapter does is an input. */
module ProviderPolicy {
  import opened Wrappers
  import opened Json

  /** An image as the adapters deliver it. */
  type Blob = seq<bv8>

  datatype Adapter = OvhAdapter | OpenAIAdapter

  /** What one adapter invocation did: returned an image or `null`, or threw. */
  datatype AdapterOutcome = Returned(image: Option<Blob>) | Threw

  /** One adapter invocation: which adapter, the prompt, and the OVH settings it was handed
      (the OpenAI adapter is always handed `null`). */
  datatype Invocation<S> = Invocation(adapter: Adapter, prompt: string, ovhSettings: Option<S>)

  /** How `generateImage` ended: it resolved to an image or `null`, or it threw.  It throws
      when the provider name it is about to log is not a string, because the log line calls
      `toUpperCase` on it outside any `try`. */
  datatype Generated = Resolved(image: Option<Blob>) | Raised

  /** The `switch (provider)`: strict equality with 'ovh' selects OVH; 'openai' and every
      other name select OpenAI. */
  function AdapterFor(provider: string): (a: Adapter)
    ensures a == OvhAdapter <==> provider == "ovh"
    ensures provider == "openai" ==> a == OpenAIAdapter
  {
    if provider == "ovh" then OvhAdapter else OpenAIAdapter
  }

  /** The adapter call `callImageProvider(provider, prompt, settings)` makes. */
  function Dispatch<S>(provider: string, prompt: string, ovhSettings: S): (inv: Invocation<S>)
    ensures inv.adapter == AdapterFor(provider) && inv.prompt == prompt
    ensures inv.ovhSettings == (if inv.adapter == OvhAdapter then Some(ovhSettings) else None)
  {
    var a := AdapterFor(provider);
    Invocation(a, prompt, if a == OvhAdapter then Some(ovhSettings) else None)
  }

  /** The `try … catch` of `callImageProvider`: an exception becomes `null`. */
  function Absorb(outcome: AdapterOutcome): (image: Option<Blob>)
    ensures outcome.Threw? ==> image.None?
    ensures outcome.Returned? ==> image == outcome.image
  {
    match outcome
    case Returned(image) => image
    case Threw => None
  }

  /** The first image of the two attempts, if any. */
  function FirstImage(first: Option<Blob>, second: Option<Blob>): (image: Option<Blob>)
    ensures image.None? <==> first.None? && second.None?
    ensures first.Some? ==> image == first
    ensures first.None? ==> image == second
  {
    if first.Some? then first else second
  }

  /** `generateImage`'s provider sequence.  `primary` and `fallback` are the configured
      names as stored; `first` is what the primary invocation does and `second` what the
      fallback invocation would do; `calls` is the log of the invocations actually made. */
  method GenerateWithFallback<S>(primary: Json, fallback: Json, prompt: string, ovhSettings: S,
                                 first: AdapterOutcome, second: AdapterOutcome)
    returns (result: Generated, calls: seq<Invocation<S>>)
    ensures forall i :: 0 <= i < |calls| ==> calls[i].prompt == prompt
    ensures !primary.JStr? ==> result == Raised && calls == []
    ensures primary.JStr? ==> 1 <= |calls| <= 2 && calls[0] == Dispatch(primary.s, prompt, ovhSettings)
    ensures primary.JStr? && Absorb(first).Some? ==> result == Resolved(Absorb(first)) && |calls| == 1
    ensures primary.JStr? && Absorb(first).None? && !fallback.JStr? ==> result == Raised && |calls| == 1
    ensures |calls| == 2 <==> primary.JStr? && Absorb(first).None? && fallback.JStr?
    ensures |calls| == 2 ==> (calls[1] == Dispatch(fallback.s, prompt, ovhSettings) &&
                              result == Resolved(Absorb(second)))
    ensures primary.JStr? && fallback.JStr? ==> result == Resolved(FirstImage(Absorb(first), Absorb(second)))
  {
    calls := [];
    if !primary.JStr? {
      return Raised, calls;
    }
    calls := calls + [Dispatch(primary.s, prompt, ovhSettings)];
    var image := Absorb(first);
    if image.Some? {
      return Resolved(image), calls;
    }
    if !fallback.JStr? {
      return Raised, calls;
    }
    calls := calls + [Dispatch(fallback.s, prompt, ovhSettings)];
    image := Absorb(second);
    result := Resolved(image);
  }
}
