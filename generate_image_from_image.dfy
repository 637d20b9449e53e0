/** `generateImageFromImageFlow`: five generation requests built from one
    prompt and one source image, awaited together, and collected in order into
    five image URLs, or a failure of the whole call. The model call itself is a
    function parameter; `Promise.all` is modelled as the sequence of its five
    settled replies. */
module ImageFanOut {
  import opened Wrappers

  const VariantCount: nat := 5

  const ImageModel: string := "googleai/gemini-2.0-flash-preview-image-generation"
  const ResponseModalities: seq<string> := ["TEXT", "IMAGE"]

  const PromptLead: string :=
    "Analyze the face of the person in the provided image. Generate a new image of the exact same person but in the following style or setting: "
  const PromptMiddle: string := ". Keep the facial features identical. This is "

  /** The decimal digit for `d`. */
  function Digit(d: nat): (c: char)
    requires d < 10
    ensures '0' <= c <= '9' && c as int - '0' as int == d
  {
    ('0' as int + d) as char
  }

  /** "image n of 5." */
  function Ordinal(n: nat): string
    requires 1 <= n <= VariantCount
  {
    "image " + [Digit(n)] + " of 5."
  }

  /** The text part of request `i` (0-based). */
  function FullPrompt(prompt: string, i: nat): (r: string)
    requires i < VariantCount
    ensures |r| == |PromptLead| + |prompt| + |PromptMiddle| + |Ordinal(i + 1)|
    ensures r[|PromptLead|..|PromptLead| + |prompt|] == prompt
    ensures r[|r| - |Ordinal(i + 1)|..] == Ordinal(i + 1)
  {
    var r := PromptLead + prompt + PromptMiddle + Ordinal(i + 1);
    assert r[|PromptLead|..|PromptLead| + |prompt|] == prompt;
    assert r[|r| - |Ordinal(i + 1)|..] == Ordinal(i + 1);
    r
  }

  /** Two request texts are equal only for the same user prompt and the same index. */
  lemma FullPromptInjective(p: string, i: nat, q: string, j: nat)
    requires i < VariantCount && j < VariantCount
    requires FullPrompt(p, i) == FullPrompt(q, j)
    ensures p == q && i == j
  {
    var r := FullPrompt(p, i);
    assert |p| == |q|;
    assert p == r[|PromptLead|..|PromptLead| + |p|] == q;
    var k := |r| - |Ordinal(1)| + 6;
    assert r[k] == Ordinal(i + 1)[6] == Digit(i + 1);
    assert r[k] == Ordinal(j + 1)[6] == Digit(j + 1);
  }

  /** One `ai.generate` call: the model, the prompt parts `[{text}, {media: {url}}]`
      and the response modalities. */
  datatype Request = Request(model: string, text: string, mediaUrl: string, responseModalities: seq<string>)

  /** The five requests, in index order. */
  function BuildRequests(prompt: string, imageDataUri: string): (rs: seq<Request>)
    ensures |rs| == VariantCount
    ensures forall i :: 0 <= i < |rs| ==>
      && rs[i].model == ImageModel
      && rs[i].text == FullPrompt(prompt, i)
      && rs[i].mediaUrl == imageDataUri
      && rs[i].responseModalities == ResponseModalities
  {
    seq(VariantCount, i requires 0 <= i < VariantCount =>
      Request(ImageModel, FullPrompt(prompt, i), imageDataUri, ResponseModalities))
  }

  /** The five requests are pairwise different (only their texts differ). */
  lemma RequestsDistinct(prompt: string, imageDataUri: string, i: nat, j: nat)
    requires i < VariantCount && j < VariantCount && i != j
    ensures BuildRequests(prompt, imageDataUri)[i] != BuildRequests(prompt, imageDataUri)[j]
  {
    if BuildRequests(prompt, imageDataUri)[i] == BuildRequests(prompt, imageDataUri)[j] {
      FullPromptInjective(prompt, i, prompt, j);
    }
  }

  /** `result.media`, when the call produced one. */
  datatype Media = Media(url: string)

  /** A settled `ai.generate` promise. */
  datatype Reply = Rejected | Resolved(media: Option<Media>)

  /** `result.media?.url` is truthy. */
  predicate HasUrl(r: Reply) {
    r.Resolved? && r.media.Some? && r.media.value.url != ""
  }

  datatype FanOutError =
    | CallRejected       // `Promise.all` rejected with one call's error
    | GenerationFailed   // 'One or more image generations failed.'

  /** `results.map(...)`: the URLs in order, or a failure if any result lacks one. */
  function CollectUrls(results: seq<Reply>): (r: Result<seq<string>, FanOutError>)
    ensures r.Success? <==> forall i :: 0 <= i < |results| ==> HasUrl(results[i])
    ensures r.Success? ==> |r.value| == |results|
    ensures r.Success? ==> forall i :: 0 <= i < |results| ==> r.value[i] == results[i].media.value.url
    ensures r.Failure? ==> r.error == GenerationFailed
  {
    if results == [] then Success([])
    else if !HasUrl(results[0]) then Failure(GenerationFailed)
    else
      match CollectUrls(results[1..])
      case Failure(e) => Failure(e)
      case Success(rest) => Success([results[0].media.value.url] + rest)
  }

  /** The whole flow. It succeeds with exactly five URLs, URL i coming from
      request i, or fails as a whole: no partial list is ever returned. */
  function GenerateImageFromImage(prompt: string, imageDataUri: string, generate: Request -> Reply)
    : (r: Result<seq<string>, FanOutError>)
    ensures var rs := BuildRequests(prompt, imageDataUri);
      && (r.Success? <==> forall i :: 0 <= i < VariantCount ==> HasUrl(generate(rs[i])))
      && (r.Success? ==> |r.value| == VariantCount)
      && (r.Success? ==> forall i :: 0 <= i < VariantCount ==> r.value[i] == generate(rs[i]).media.value.url)
      && (r == Failure(CallRejected) <==> exists i :: 0 <= i < VariantCount && generate(rs[i]).Rejected?)
  {
    var rs := BuildRequests(prompt, imageDataUri);
    var replies := seq(VariantCount, i requires 0 <= i < VariantCount => generate(rs[i]));
    assert forall i :: 0 <= i < VariantCount ==> replies[i] == generate(rs[i]);
    if exists i :: 0 <= i < VariantCount && replies[i].Rejected? then Failure(CallRejected)
    else CollectUrls(replies)
  }
}
