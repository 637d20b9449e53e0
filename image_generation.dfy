/** The image-generation settings page: a prompt box, a busy flag and the last
    generated image. `handleGenerateImage` awaits one call to the image flow;
    the model splits it at that await into `Start` and `Finish`, and the flow's
    outcome is a parameter (`Some(imageDataUri)` when it resolves, `None` when
    it throws). Toasts are returned values. */
module ImageGeneration {
  import opened Wrappers

  datatype Toast = PromptRequired | GenerationFailed

  class ImageGenerationPage {
    var imagePrompt: string
    var generatedImage: Option<string>
    var isGenerating: bool

    constructor ()
      ensures imagePrompt == "" && generatedImage == None && !isGenerating
    {
      imagePrompt := "";
      generatedImage := None;
      isGenerating := false;
    }

    /** The input's `onChange`; a disabled input takes no edits. */
    method ChangePrompt(value: string)
      modifies this
      ensures imagePrompt == (if old(isGenerating) then old(imagePrompt) else value)
      ensures generatedImage == old(generatedImage) && isGenerating == old(isGenerating)
    {
      if !isGenerating {
        imagePrompt := value;
      }
    }

    /** `handleGenerateImage` up to the await. An empty prompt is refused with a
        toast and nothing changes; otherwise the page turns busy and the previous
        image is cleared. A whitespace-only prompt is not refused. */
    method Start() returns (started: bool, toast: Option<Toast>)
      modifies this
      ensures started <==> old(imagePrompt) != ""
      ensures !started ==> toast == Some(PromptRequired)
      ensures !started ==> isGenerating == old(isGenerating) && generatedImage == old(generatedImage)
      ensures started ==> toast == None && isGenerating && generatedImage == None
      ensures imagePrompt == old(imagePrompt)
    {
      if imagePrompt == "" {
        return false, Some(PromptRequired);
      }
      isGenerating := true;
      generatedImage := None;
      started, toast := true, None;
    }

    /** `handleGenerateImage` after the await: the image on success, an error
        toast on failure, and in either case (`finally`) the page is no longer busy. */
    method Finish(outcome: Option<string>) returns (toast: Option<Toast>)
      modifies this
      ensures !isGenerating
      ensures outcome.Some? ==> generatedImage == outcome && toast == None
      ensures outcome.None? ==> generatedImage == old(generatedImage) && toast == Some(GenerationFailed)
      ensures imagePrompt == old(imagePrompt)
    {
      if outcome.Some? {
        generatedImage := outcome;
        toast := None;
      } else {
        toast := Some(GenerationFailed);
      }
      isGenerating := false;
    }

    /** The whole handler, with `generate` standing for the image flow. */
    method HandleGenerateImage(generate: string -> Option<string>) returns (toast: Option<Toast>)
      modifies this
      ensures old(imagePrompt) == "" ==>
        && toast == Some(PromptRequired)
        && isGenerating == old(isGenerating) && generatedImage == old(generatedImage)
      ensures old(imagePrompt) != "" ==>
        && !isGenerating
        && generatedImage == generate(old(imagePrompt))
        && (toast == Some(GenerationFailed) <==> generatedImage.None?)
        && (toast == None <==> generatedImage.Some?)
      ensures imagePrompt == old(imagePrompt)
    {
      var started;
      started, toast := Start();
      if started {
        toast := Finish(generate(imagePrompt));
      }
    }

    /** The prompt input and the button are disabled while a generation runs. */
    function ControlsDisabled(): (disabled: bool)
      reads this
      ensures disabled <==> isGenerating
    {
      isGenerating
    }

    /** The image is shown when one is held and it is a non-empty URI. */
    function ShowsImage(): (shown: bool)
      reads this
      ensures shown ==> generatedImage.Some?
      ensures generatedImage.Some? ==> (shown <==> generatedImage.value != "")
    {
      generatedImage.Some? && generatedImage.value != ""
    }
  }
}
