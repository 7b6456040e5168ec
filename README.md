# AI Thumbnail & Logo Hub: the generate/download controller

The application is a single React component (`App.tsx`). The user types a
prompt and picks a format, Thumbnail or Logo. A click on Generate asks a
remote image generator for one image, which is then shown and can be
downloaded. This project models the component's controller in Dafny:

- its five state fields: `prompt`, `generationType`, `isLoading`,
  `generatedImage` and `error`;
- the generate handler, split at its one `await`. `StartGenerate` covers
  validation, the loading guard and issuing the call.
  `CompleteSuccess` and `CompleteFailure` cover how the call settles;
- the format buttons and the prompt's change handler;
- what the page derives from the state: the aspect ratio requested, the
  result pane (spinner, image or placeholder), the error banner and the
  pane's framing;
- the download file name.

Files:

- `types.dfy` (module `Types`): `Option` for nullable fields, and the two
  formats as `GenerationType`.
- `js_text.dfy` (module `JsText`): the ECMAScript string operations used.
  One whitespace predicate is shared by `trim()` and the regular
  expression class `\s`. It also has `slice(0, n)` and
  `replace(/\s/g, c)`.
- `lifecycle.dfy` (module `Lifecycle`): the state as a value, each
  transition as a function, the derived views, the download name, and
  lemmas over whole sequences of user events (`Run`).
- `controller.dfy` (module `AppController`): class `Controller`, whose
  fields are the component's state. Its methods update them in place the
  way the state setters do. Each method's postcondition ties the new
  state to the matching `Lifecycle` function. A ghost log of issued
  calls and a count of settled ones let `Valid()` state the single-flight
  invariant.

The remote generator is not modelled. `StartGenerate` returns the call
it would make (the raw, untrimmed prompt and the aspect ratio). The caller
passes the call's outcome to `CompleteSuccess(url)` or
`CompleteFailure(thrown)`, and both require `isLoading`.

Three behaviours of `App.tsx` are easy to miss:

- A fulfilled call sets only the image and ends loading. It does not clear
  the error. The start of a request has already cleared it. The error can
  be set again during the flight only if the handler runs while loading
  with a blank prompt. The Generate button is disabled while loading, so a
  click cannot do this (`SettleFillsExactlyOne`). A direct call to the
  handler can (`DirectCallsCanLeaveBoth`).
- The download name replaces each whitespace character of the first 20
  prompt characters with `_`. Whitespace is not removed.
- `""` counts as no image: JavaScript treats an empty string as falsy.
  The download handler and the result pane check this. So does the error
  banner for an empty error message.

## Model

| member | source | states |
|---|---|---|
| JsText.TrimStart | App.tsx:16 | the result is a suffix of the input, every character cut off is whitespace, and it is empty or starts with non-whitespace |
| JsText.TrimEnd | App.tsx:16 | the result is a prefix of the input, every character cut off is whitespace, and it is empty or ends with non-whitespace |
| JsText.Trim | App.tsx:16 | `trim()` is empty exactly when the string is all whitespace; otherwise both ends are non-whitespace |
| JsText.TrimCutsWhitespace | App.tsx:16 | `trim()` returns a contiguous piece of the string with only whitespace before and after it |
| JsText.Prefix | App.tsx:42 | `slice(0, n)` has length min(n, length) and is the input's prefix of that length |
| JsText.ReplaceWhitespace | App.tsx:42 | `replace(/\s/g, c)` keeps the length; each position holds `c` where the input had whitespace and the input's character elsewhere |
| Lifecycle.AspectRatioFor | App.tsx:26 | the ratio is "16:9" exactly for Thumbnail and "1:1" exactly for every other format |
| Lifecycle.Generate | App.tsx:15-26 | a call is issued iff the prompt has a non-whitespace character and nothing is loading; an all-whitespace prompt only sets the fixed validation message, even while loading; a non-blank prompt while loading changes nothing; an issued call carries the untrimmed prompt and the current format's ratio, and loading starts with image and error cleared; prompt and format never change |
| Lifecycle.Settle | App.tsx:28-35 | loading always ends; success stores exactly the returned URL and keeps the error; failure stores the `Error`'s message, or the fixed fallback for a non-`Error` throw, and keeps the image; prompt and format never change |
| Lifecycle.ResultPane | App.tsx:121-143 | spinner iff loading, whatever image is stored; the stored image iff not loading and an image is present (null and "" are absent); the placeholder otherwise |
| Lifecycle.ErrorBanner | App.tsx:115 | the banner shows the stored error iff it is present and non-empty |
| Lifecycle.ErrorBannerAfterGenerate | App.tsx:15-24 | after a generate with an all-whitespace prompt the banner shows the validation message; after a generate that issues a call the banner is hidden |
| Lifecycle.FramingFor | App.tsx:120 | the pane is framed wide iff the format's ratio is "16:9" and square iff it is "1:1" |
| Lifecycle.DownloadSegment | App.tsx:42 | the segment has length min(20, prompt length), contains no whitespace, and keeps each prompt character except that whitespace becomes `_` |
| Lifecycle.DownloadName | App.tsx:42 | the file name is the format's tag, `-`, the segment and `.jpeg`, and each part is recovered by slicing the name at fixed offsets |
| Lifecycle.DownloadNameInjective | App.tsx:42 | for one format, prompts whose segments differ give different download names |
| Lifecycle.Download | App.tsx:38-42 | no name iff there is no image (null or ""); otherwise the name is the current format's tag, `-`, the prompt segment and `.jpeg` |
| Lifecycle.Step | App.tsx:76-100 | the page's event wiring: editing the prompt (line 76) and the format buttons (lines 87, 91) change only their field and issue no call; a click while loading is lost when it comes through the disabled button (line 100), otherwise it runs the generate handler; a settlement happens only with a call in flight and applies `Settle`; only a click while idle can issue a call |
| Lifecycle.StepKeepsInvariant | App.tsx:15-36 | one event keeps "no image while loading" (and, through the disabled button, "no error while loading"); issued minus settled calls tracks the calls in flight |
| Lifecycle.RunKeepsInvariant | App.tsx:15-36 | along any sequence of events both invariants hold and issued calls exceed settled calls by exactly the number in flight |
| Lifecycle.SingleFlight | App.tsx:20 | from the initial state at most one call is ever in flight, and no image is stored while one is |
| Lifecycle.SettleFillsExactlyOne | App.tsx:98-100 | when generate is reached only through the button, which is disabled while loading, a settlement leaves exactly one of image and error set |
| Lifecycle.DirectCallsCanLeaveBoth | App.tsx:16-20 | calling the handler directly with a blank prompt while a call is in flight, then succeeding, leaves both the image and the validation error set |
| AppController.Controller.constructor | App.tsx:9-13 | initial state: empty prompt, Thumbnail, not loading, no image, no error, no calls |
| AppController.Controller.SetPrompt | App.tsx:76 | only the prompt changes |
| AppController.Controller.SelectFormat | App.tsx:87-91 | only the format changes; image, error, loading and the call in flight are untouched |
| AppController.Controller.StartGenerate | App.tsx:15-26 | the new state and the returned call are those of `Lifecycle.Generate`; the call log grows by exactly the returned call; the single-flight invariant is kept |
| AppController.Controller.CompleteSuccess | App.tsx:29-30 | the new state is `Lifecycle.Settle` of a fulfilled call; one more call has settled; the invariant is kept |
| AppController.Controller.CompleteFailure | App.tsx:31-34 | the new state is `Lifecycle.Settle` of a rejected call; one more call has settled; the invariant is kept |
| AppController.Controller.Download | App.tsx:38-42 | returns no name iff no image is stored, else the download name of the current tag and prompt; changes no field |
| AppController.Session | App.tsx:15-36 | ensures that after success the pane shows the URL, or the placeholder for ""; along the way its body checks that a blank prompt issues no call, that a typed prompt with Logo issues exactly one call with ratio "1:1", and that a second click while loading issues none |

## Left out

- Rendering (JSX, the DOM, Tailwind class strings including `getGenerationTypeButtonClass`), the spinner component and the icon component (a static table from names to SVG paths).
- Creating, appending and clicking the anchor element in the download handler. This is browser I/O, so only the file name is modelled.
- The remote generator (`generateImage` in `services/geminiService`), which is not part of this model. Its outcome is an argument: a URL, a thrown `Error` with its message, or some other thrown value.
- React's hook mechanics (`useState`, the `useCallback` dependency list) and the scheduling of the `await`. Each handler half is an atomic transition.
- The string each format renders as in the file name comes from `./types`, which is not part of this model. `Download` takes it as a function `tagOf`.
- Lifecycle.DownloadSegment: JavaScript strings are UTF-16, so `slice(0, 20)` counts code units and can split a surrogate pair. The model counts Unicode scalar values. The whitespace set lies entirely in the Basic Multilingual Plane, so only the cut point of prompts with astral characters differs.
