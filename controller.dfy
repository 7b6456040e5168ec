/** The application component's state and its event handlers, updated in
    place through the state setters. The remote generator stays outside:
    `StartGenerate` returns the call to make, and the caller reports how
    it settled through `CompleteSuccess` or `CompleteFailure`. */
module AppController {
  import opened Types
  import JsText
  import Lifecycle

  class Controller {
    var prompt: string
    var generationType: GenerationType
    var isLoading: bool
    var generatedImage: Option<string>
    var error: Option<string>

    /** The generator calls issued so far, and how many have settled. */
    ghost var calls: seq<Lifecycle.Request>
    ghost var settled: nat

    /** The fields as one value. */
    function State(): Lifecycle.State
      reads this
    {
      Lifecycle.State(prompt, generationType, isLoading, generatedImage, error)
    }

    /** At most one call in flight, and no image stored while it is. */
    ghost predicate Valid()
      reads this
    {
      Lifecycle.Quiet(State()) &&
      |calls| == settled + Lifecycle.InFlight(State())
    }

    /** The initial state: empty prompt, thumbnail format, idle, no image,
        no error. */
    constructor ()
      ensures Valid()
      ensures State() == Lifecycle.Initial
      ensures calls == [] && settled == 0
    {
      prompt := "";
      generationType := Thumbnail;
      isLoading := false;
      generatedImage := None;
      error := None;
      calls := [];
      settled := 0;
    }

    /** The prompt text area's change handler. */
    method SetPrompt(text: string)
      requires Valid()
      modifies this
      ensures Valid()
      ensures State() == old(State()).(prompt := text)
      ensures calls == old(calls) && settled == old(settled)
    {
      prompt := text;
    }

    /** A format button: only the format changes, so the image, the error
        and any call in flight are untouched. */
    method SelectFormat(t: GenerationType)
      requires Valid()
      modifies this
      ensures Valid()
      ensures State() == old(State()).(generationType := t)
      ensures calls == old(calls) && settled == old(settled)
    {
      generationType := t;
    }

    /** The generate handler up to its `await`: the returned call, if any,
        is the one the generator is asked to make, and the log of calls
        grows by exactly it. */
    method StartGenerate() returns (call: Option<Lifecycle.Request>)
      requires Valid()
      modifies this
      ensures Valid()
      ensures Lifecycle.Effect(State(), call) == Lifecycle.Generate(old(State()))
      ensures calls == old(calls) + Lifecycle.CallList(call) && settled == old(settled)
    {
      assert calls + Lifecycle.CallList(None) == calls;
      if JsText.IsBlank(prompt) {
        error := Some(Lifecycle.EmptyPromptMessage);
        return None;
      }
      if isLoading {
        return None;
      }
      isLoading := true;
      generatedImage := None;
      error := None;
      var aspectRatio := Lifecycle.AspectRatioFor(generationType);
      call := Some(Lifecycle.Request(prompt, aspectRatio));
      calls := calls + [call.value];
    }

    /** The generate handler after the call returned `imageUrl`. */
    method CompleteSuccess(imageUrl: string)
      requires Valid() && isLoading
      modifies this
      ensures Valid()
      ensures State() == Lifecycle.Settle(old(State()), Lifecycle.Fulfilled(imageUrl))
      ensures calls == old(calls) && settled == old(settled) + 1
    {
      generatedImage := Some(imageUrl);
      isLoading := false;
      settled := settled + 1;
    }

    /** The generate handler after the call threw `thrown`. */
    method CompleteFailure(thrown: Lifecycle.Thrown)
      requires Valid() && isLoading
      modifies this
      ensures Valid()
      ensures State() == Lifecycle.Settle(old(State()), Lifecycle.Rejected(thrown))
      ensures calls == old(calls) && settled == old(settled) + 1
    {
      error := Some(Lifecycle.FailureMessage(thrown));
      isLoading := false;
      settled := settled + 1;
    }

    /** The download handler: the name of the file to save, or nothing
        when no image is stored. `tagOf` gives the string each format
        renders as. No field changes. */
    method Download(tagOf: GenerationType -> string) returns (fileName: Option<string>)
      ensures fileName.None? <==> !Lifecycle.HasImage(generatedImage)
      ensures fileName.Some? ==>
        fileName.value == Lifecycle.DownloadName(tagOf(generationType), prompt)
    {
      if generatedImage.None? || generatedImage.value == "" {
        return None;
      }
      var segment := Lifecycle.DownloadSegment(prompt);
      fileName := Some(tagOf(generationType) + "-" + segment + Lifecycle.DownloadExtension);
    }
  }

  /** A client: a blank prompt is refused without a call; a typed prompt
      issues one call with the format's ratio, a second click while it is
      in flight issues none, and success shows the image. */
  method Session(url: string) returns (shown: Lifecycle.Pane)
    ensures shown == (if url == "" then Lifecycle.Placeholder else Lifecycle.Picture(url))
  {
    var c := new Controller();
    assert JsText.AllWhitespace(c.prompt);
    var first := c.StartGenerate();
    assert first.None? && c.error == Some(Lifecycle.EmptyPromptMessage);
    c.SetPrompt("neon city");
    c.SelectFormat(Logo);
    assert !JsText.AllWhitespace(c.prompt) by {
      assert c.prompt[0] == 'n' && !JsText.IsWhitespace('n');
    }
    var second := c.StartGenerate();
    assert second == Some(Lifecycle.Request("neon city", "1:1"));
    var third := c.StartGenerate();
    assert third.None? && |c.calls| == 1 && c.isLoading && c.generatedImage == None;
    c.CompleteSuccess(url);
    assert c.generatedImage == Some(url) && !c.isLoading;
    shown := Lifecycle.ResultPane(c.State());
  }
}
