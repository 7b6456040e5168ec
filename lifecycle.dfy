/** The generate/download controller of the application, as values: its
    five state fields, the transitions the generate handler makes (split at
    its one `await` into a start and a settlement), the derived views (the
    result pane, the error banner, the framing), the download file name,
    and what holds over every sequence of user events. */
module Lifecycle {
  import opened Types
  import JsText

  const EmptyPromptMessage := "Please enter a prompt to generate an image."
  const UnexpectedErrorMessage := "An unexpected error occurred."
  const DownloadPromptLength := 20
  const DownloadExtension := ".jpeg"

  /** The controller's state fields; `None` stands for `null`. */
  datatype State = State(
    prompt: string,
    generationType: GenerationType,
    isLoading: bool,
    generatedImage: Option<string>,
    error: Option<string>)

  const Initial := State("", Thumbnail, false, None, None)

  /** One call to the remote image generator: the prompt as typed (not
      trimmed) and the requested aspect ratio. */
  datatype Request = Request(prompt: string, aspectRatio: string)

  /** What the generator's call threw: an `Error` instance with its
      message, or any other value. */
  datatype Thrown = ErrorInstance(message: string) | OtherValue

  /** How the generator's call settled. */
  datatype Outcome = Fulfilled(imageUrl: string) | Rejected(thrown: Thrown)

  /** A transition: the next state and the generator call it issued, if any. */
  datatype Effect = Effect(next: State, call: Option<Request>)

  /** The falsy test on `string | null`: null and "" are both absent. */
  predicate HasImage(image: Option<string>) {
    image.Some? && image.value != ""
  }

  /** The aspect ratio requested for a format: wide for a thumbnail,
      square for anything else. */
  function AspectRatioFor(t: GenerationType): (r: string)
    ensures r == "16:9" <==> t == Thumbnail
    ensures r == "1:1" <==> t != Thumbnail
  {
    if t == Thumbnail then "16:9" else "1:1"
  }

  /** The message shown for a rejected call. */
  function FailureMessage(thrown: Thrown): string {
    match thrown
    case ErrorInstance(message) => message
    case OtherValue => UnexpectedErrorMessage
  }

  /** The generate handler up to its `await`. A prompt that trims to
      nothing only sets the validation message; this check comes before
      the loading guard. Otherwise, while a call is in flight nothing
      happens; and when none is, exactly one call is issued with the raw
      prompt and the ratio of the current format, after clearing the image
      and the error. The prompt and the format are never touched. */
  function Generate(s: State): (r: Effect)
    ensures r.next.prompt == s.prompt && r.next.generationType == s.generationType
    ensures r.call.Some? <==> !JsText.AllWhitespace(s.prompt) && !s.isLoading
    ensures JsText.AllWhitespace(s.prompt) ==>
      r.next == s.(error := Some(EmptyPromptMessage))
    ensures !JsText.AllWhitespace(s.prompt) && s.isLoading ==> r.next == s
    ensures r.call.Some? ==>
      r.call.value == Request(s.prompt, AspectRatioFor(s.generationType)) &&
      r.next.isLoading && r.next.generatedImage == None && r.next.error == None
  {
    if JsText.IsBlank(s.prompt) then
      Effect(s.(error := Some(EmptyPromptMessage)), None)
    else if s.isLoading then
      Effect(s, None)
    else
      Effect(s.(isLoading := true, generatedImage := None, error := None),
             Some(Request(s.prompt, AspectRatioFor(s.generationType))))
  }

  /** The generate handler after its `await`, for a call in flight. A
      fulfilled call stores exactly the returned URL; a rejected one stores
      the thrown `Error`'s message or the fixed fallback. Loading always
      ends, and nothing else changes: a fulfilled call leaves the error as
      it is and a rejected one leaves the image as it is. */
  function Settle(s: State, outcome: Outcome): (r: State)
    requires s.isLoading
    ensures !r.isLoading
    ensures r.prompt == s.prompt && r.generationType == s.generationType
    ensures outcome.Fulfilled? ==>
      r.generatedImage == Some(outcome.imageUrl) && r.error == s.error
    ensures outcome.Rejected? ==> r.generatedImage == s.generatedImage
    ensures outcome.Rejected? && outcome.thrown.ErrorInstance? ==>
      r.error == Some(outcome.thrown.message)
    ensures outcome.Rejected? && outcome.thrown.OtherValue? ==>
      r.error == Some(UnexpectedErrorMessage)
  {
    match outcome
    case Fulfilled(url) => s.(generatedImage := Some(url), isLoading := false)
    case Rejected(thrown) => s.(error := Some(FailureMessage(thrown)), isLoading := false)
  }

  /** The generate button is disabled while a call is in flight. */
  predicate GenerateEnabled(s: State) {
    !s.isLoading
  }

  /** What the result pane shows. */
  datatype Pane = Spinner | Picture(url: string) | Placeholder

  /** The spinner whenever loading, whatever image is stored; otherwise
      the stored image when there is one; otherwise the placeholder. */
  function ResultPane(s: State): (r: Pane)
    ensures r == Spinner <==> s.isLoading
    ensures r.Picture? <==> !s.isLoading && HasImage(s.generatedImage)
    ensures r.Picture? ==> Some(r.url) == s.generatedImage
    ensures r == Placeholder <==> !s.isLoading && !HasImage(s.generatedImage)
  {
    if s.isLoading then Spinner
    else if HasImage(s.generatedImage) then Picture(s.generatedImage.value)
    else Placeholder
  }

  /** The error banner under the controls shows a non-empty error, in
      every state of the result pane. */
  function ErrorBanner(s: State): (r: Option<string>)
    ensures r.Some? <==> s.error.Some? && s.error.value != ""
    ensures r.Some? ==> r == s.error
  {
    if s.error.Some? && s.error.value != "" then s.error else None
  }

  /** How the result pane is framed. */
  datatype Framing = Wide | Square

  /** The frame follows the format, and so agrees with the ratio the next
      call will request. */
  function FramingFor(t: GenerationType): (r: Framing)
    ensures r == Wide <==> AspectRatioFor(t) == "16:9"
    ensures r == Square <==> AspectRatioFor(t) == "1:1"
  {
    if t == Thumbnail then Wide else Square
  }

  /** The prompt-derived part of the download name: at most the first
      twenty characters, each whitespace character turned into `_`. */
  function DownloadSegment(prompt: string): (r: string)
    ensures |r| == if |prompt| < DownloadPromptLength then |prompt| else DownloadPromptLength
    ensures forall i :: 0 <= i < |r| ==> !JsText.IsWhitespace(r[i])
    ensures forall i :: 0 <= i < |r| ==>
      r[i] == if JsText.IsWhitespace(prompt[i]) then '_' else prompt[i]
  {
    JsText.ReplaceWhitespace(JsText.Prefix(prompt, DownloadPromptLength), '_')
  }

  /** The file name offered for download: the format's tag, a dash, the
      prompt segment and the extension, each recovered by slicing the name
      at fixed offsets. */
  function DownloadName(tag: string, prompt: string): (name: string)
    ensures var seg := DownloadSegment(prompt);
      |name| == |tag| + 1 + |seg| + |DownloadExtension| &&
      name[..|tag|] == tag && name[|tag|] == '-' &&
      name[|tag| + 1..|tag| + 1 + |seg|] == seg &&
      name[|tag| + 1 + |seg|..] == DownloadExtension
  {
    tag + "-" + DownloadSegment(prompt) + DownloadExtension
  }

  /** For one format, prompts whose segments differ never give the same
      download name. */
  lemma DownloadNameInjective(tag: string, p1: string, p2: string)
    requires DownloadSegment(p1) != DownloadSegment(p2)
    ensures DownloadName(tag, p1) != DownloadName(tag, p2)
  {
  }

  /** The download handler: nothing without an image; otherwise the name
      built from the current format's tag and the current prompt. It never
      changes the state. */
  function Download(s: State, tagOf: GenerationType -> string): (r: Option<string>)
    ensures r.None? <==> !HasImage(s.generatedImage)
    ensures r.Some? ==>
      var seg := DownloadSegment(s.prompt);
      r.value == tagOf(s.generationType) + "-" + seg + DownloadExtension &&
      |seg| <= DownloadPromptLength
  {
    if !HasImage(s.generatedImage) then None
    else Some(DownloadName(tagOf(s.generationType), s.prompt))
  }

  // ----- Event traces -----

  /** What the user and the generator can do. `Resolve` is the settlement
      of the call in flight. */
  datatype Event =
    | EditPrompt(text: string)
    | SelectFormat(format: GenerationType)
    | ClickGenerate
    | Resolve(outcome: Outcome)

  /** One event. With `guarded`, clicks reach the handler only through the
      button, which is disabled while loading, so those clicks are lost.
      `None` when the event cannot occur: a settlement with no call in
      flight. */
  function Step(s: State, e: Event, guarded: bool): (r: Option<Effect>)
    ensures r.None? <==> e.Resolve? && !s.isLoading
    ensures r.Some? && r.value.call.Some? ==> e.ClickGenerate? && !s.isLoading
    ensures e.EditPrompt? ==> r == Some(Effect(s.(prompt := e.text), None))
    ensures e.SelectFormat? ==> r == Some(Effect(s.(generationType := e.format), None))
    ensures e.ClickGenerate? && guarded && s.isLoading ==> r == Some(Effect(s, None))
    ensures e.ClickGenerate? && !(guarded && s.isLoading) ==> r == Some(Generate(s))
    ensures e.Resolve? && s.isLoading ==> r == Some(Effect(Settle(s, e.outcome), None))
  {
    match e
    case EditPrompt(text) => Some(Effect(s.(prompt := text), None))
    case SelectFormat(t) => Some(Effect(s.(generationType := t), None))
    case ClickGenerate =>
      if guarded && !GenerateEnabled(s) then Some(Effect(s, None)) else Some(Generate(s))
    case Resolve(outcome) =>
      if s.isLoading then Some(Effect(Settle(s, outcome), None)) else None
  }

  /** Where a run of events ends, the calls it issued in order, and how
      many calls it saw settle. */
  datatype Trace = Trace(final: State, calls: seq<Request>, settled: nat)

  function CallList(call: Option<Request>): seq<Request> {
    if call.Some? then [call.value] else []
  }

  function Run(s: State, events: seq<Event>, guarded: bool): Option<Trace>
    decreases |events|
  {
    if events == [] then Some(Trace(s, [], 0))
    else
      match Step(s, events[0], guarded)
      case None => None
      case Some(effect) =>
        match Run(effect.next, events[1..], guarded)
        case None => None
        case Some(t) =>
          Some(Trace(t.final, CallList(effect.call) + t.calls,
                     t.settled + if events[0].Resolve? then 1 else 0))
  }

  function InFlight(s: State): nat {
    if s.isLoading then 1 else 0
  }

  /** While a call is in flight no image is stored. */
  predicate Quiet(s: State) {
    s.isLoading ==> s.generatedImage == None
  }

  /** While a call is in flight no error is stored either. */
  predicate Clean(s: State) {
    s.isLoading ==> s.error == None
  }

  /** One event keeps `Quiet` (and, through the button, `Clean`), and the
      number of calls in flight moves by the calls issued and settled. */
  lemma StepKeepsInvariant(s: State, e: Event, guarded: bool)
    requires Quiet(s) && (guarded ==> Clean(s))
    requires Step(s, e, guarded).Some?
    ensures var effect := Step(s, e, guarded).value;
      Quiet(effect.next) && (guarded ==> Clean(effect.next)) &&
      |CallList(effect.call)| + InFlight(s) ==
        InFlight(effect.next) + (if e.Resolve? then 1 else 0)
  {
  }

  /** Along any run: the invariants hold throughout, and the calls issued
      exceed the calls settled by exactly the number now in flight. */
  lemma {:induction false} RunKeepsInvariant(s: State, events: seq<Event>, guarded: bool)
    requires Quiet(s) && (guarded ==> Clean(s))
    requires Run(s, events, guarded).Some?
    ensures var t := Run(s, events, guarded).value;
      Quiet(t.final) && (guarded ==> Clean(t.final)) &&
      |t.calls| + InFlight(s) == t.settled + InFlight(t.final)
    decreases |events|
  {
    if events != [] {
      var effect := Step(s, events[0], guarded).value;
      StepKeepsInvariant(s, events[0], guarded);
      RunKeepsInvariant(effect.next, events[1..], guarded);
    }
  }

  /** From the initial state at most one call is ever in flight: every
      issued call but the current one has settled, and while it is in
      flight no image is shown as stored. */
  lemma SingleFlight(events: seq<Event>, guarded: bool)
    requires Run(Initial, events, guarded).Some?
    ensures var t := Run(Initial, events, guarded).value;
      |t.calls| == t.settled + InFlight(t.final) &&
      |t.calls| - t.settled <= 1 &&
      (t.final.isLoading ==> t.final.generatedImage == None)
  {
    RunKeepsInvariant(Initial, events, guarded);
  }

  /** Through the button, a settlement fills exactly one of the image
      and the error. */
  lemma SettleFillsExactlyOne(events: seq<Event>, outcome: Outcome)
    requires Run(Initial, events, true).Some?
    requires Run(Initial, events, true).value.final.isLoading
    ensures var after := Settle(Run(Initial, events, true).value.final, outcome);
      after.generatedImage.Some? != after.error.Some?
  {
    RunKeepsInvariant(Initial, events, true);
  }

  /** Calling the handler directly while a call is in flight, with a
      prompt that has been cleared, stores the validation message; the
      success that follows keeps it, so image and error are then both set. */
  lemma DirectCallsCanLeaveBoth(s: State, url: string)
    requires s.isLoading
    ensures var flagged := Generate(s.(prompt := "")).next;
      flagged.isLoading &&
      Settle(flagged, Fulfilled(url)).generatedImage == Some(url) &&
      Settle(flagged, Fulfilled(url)).error == Some(EmptyPromptMessage)
  {
  }

  /** The banner follows the generate handler: a blank prompt makes it
      show the validation message, and a started request hides it. */
  lemma ErrorBannerAfterGenerate(s: State)
    ensures JsText.AllWhitespace(s.prompt) ==>
      ErrorBanner(Generate(s).next) == Some(EmptyPromptMessage)
    ensures Generate(s).call.Some? ==> ErrorBanner(Generate(s).next) == None
  {
  }
}
