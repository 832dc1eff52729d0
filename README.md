# SAM GIMINI generation lifecycle, in Dafny

SAM GIMINI is a single-page React front end. The user types a prompt, picks a
reference image, or does both. The page sends that input to an
image-generation service and shows the returned image, which the user can
download. This project models the state machine inside the `App` component
(App.tsx) and proves what its handlers do to the component's five state
fields: `prompt`, `uploadedImage`, `generatedImage`, `isLoading` and `error`.
It also models the two string rules beside it:

- taking the payload out of a data URL (`result.split(',')[1]`);
- building the URL of a generated image and its download file name.

Files:

- `types.dfy` (module `AppTypes`) holds the records of types.ts as datatypes
  (`UploadedImage`, `GalleryItem`). It also holds the inputs and outputs of
  the handlers: the request sent to the service, how the service call
  settles (`Outcome`), the picked file and the download link.
- `data_url.dfy` (module `DataUrl`) gives JavaScript's `split` for a
  one-character separator, with `Join` as its inverse, proved in both
  directions. It defines `PayloadOf` (`split(',')[1]`) against an
  independent character-level definition. It proves that stripping the
  header of a base64 data URL (section 3 of RFC 2397) gives back its
  payload, and that this holds for the result URL `data:image/png;base64,…`
  too.
- `download_file.dfy` (module `DownloadFile`) gives the name
  `sam-gimini-<timestamp>.png`. The timestamp is rendered in decimal, and
  the digits read back as the timestamp, so different instants give
  different names.
- `app.dfy` (module `AppState`) holds the class `App` with the five fields.
  It also has a ghost field `inFlight`: the request a pending service call
  was made with. `Valid()` is the invariant every handler keeps:
  - `isLoading` holds exactly while a call is pending;
  - while loading, no result and no error is shown;
  - a result is always a PNG data URL;
  - an error is never the empty string, which the page would hide.

  The generate handler's single `await` is split in two. `Submit` runs the
  two guards and starts loading; it returns the request, or None when a
  guard stops it. `Resolve` applies the service's outcome.
- `gallery.dfy` (module `Gallery`) holds the six example prompts, with
  unique ids. It proves that any gallery prompt passes the input check.
- `scenarios.dfy` (module `Scenarios`) drives whole attempts through the
  class: success, empty input, retry after a failure, a file chosen during a
  pending call, and a double gallery click.

Three facts about App.tsx shape the model:

- The component keeps five independent fields, not one attempt state. A
  guard stop after a success sets `error` but keeps the old
  `generatedImage`, so both are on show. The model keeps the fields.
- The generate handler has no re-entrancy check: only the button's
  `disabled={isLoading}` (App.tsx:144) blocks a second submit while a call is
  pending. `Submit` therefore `requires !isLoading`.
- A rejection with `null` or `undefined` makes `err.message` throw inside the
  catch block (App.tsx:75). No error is set, while the `finally` block still
  ends loading, so the attempt fails with no message on show. `Resolve`
  models this as `RejectedNullish`.

## Model

| member | source | states |
|---|---|---|
| DataUrl.Before | App.tsx:36 | the text before the first separator: a prefix holding no separator, shorter than the input exactly when the input has one, and followed by it |
| DataUrl.Split | App.tsx:36 | `split` yields at least one field and no field contains the separator |
| DataUrl.JoinSplit | App.tsx:36 | joining the fields of a split with the separator gives back the original text |
| DataUrl.SplitJoin | App.tsx:36 | splitting a join of separator-free fields gives back those fields |
| DataUrl.SplitFields | App.tsx:36 | the first field is the text before the first separator; there are two or more fields exactly when the separator occurs, and the rest are the fields of the text after it |
| DataUrl.PayloadOf | App.tsx:36 | `split(',')[1]` is defined exactly when the text has a comma, and is then the text between the first comma and the next one (or the end) |
| DataUrl.PayloadOfDataUrl | App.tsx:35-37 | for a comma-free header and payload, stripping `header,` from a data URL gives exactly the payload |
| DataUrl.ResultUrl | App.tsx:72 | the result URL is the PNG base64 header followed by the image data |
| DataUrl.ResultUrlPayload | App.tsx:72 | stripping the header of a result URL gives back the comma-free image data |
| DataUrl.ResultUrlInjective | App.tsx:72 | different image data gives different result URLs |
| DownloadFile.Decimal | App.tsx:85 | the timestamp is rendered as at least one decimal digit with no leading zero |
| DownloadFile.DecimalRoundTrip | App.tsx:85 | the rendered digits read back as the timestamp |
| DownloadFile.FileName | App.tsx:85 | for a timestamp below 10^21, the name's length is prefix plus digits plus extension |
| DownloadFile.FileNameParts | App.tsx:85 | the name is `sam-gimini-`, then exactly the canonical decimal digits of the timestamp (which read back as it), then `.png` |
| DownloadFile.FileNameInjective | App.tsx:85 | downloads at different timestamps get different names |
| AppState.SubmitGuard | App.tsx:53-63 | the guards run in order: the validation message exactly when prompt and image are both missing (whatever the key), the key message exactly when input is present and the key is not, and no stop exactly when both are present |
| AppState.FailureMessage | App.tsx:75 | the shown failure text is the rejection's message when it is a non-empty string and the fixed fallback otherwise; it is never empty |
| AppState.App.constructor | App.tsx:8-13 | the initial state is an empty prompt, no image, no result, not loading, no error |
| AppState.App.EditPrompt | App.tsx:115 | typing sets `prompt` and nothing else |
| AppState.App.GalleryClick | App.tsx:91-94 | a gallery click sets `prompt` to the item's prompt and nothing else |
| AppState.App.FileChange | App.tsx:30-50 | with no file or a failed read nothing changes; otherwise `uploadedImage` becomes the file type and the data-URL payload, and nothing else changes, the pending request included |
| AppState.App.Submit | App.tsx:52-71 | a stop by either guard sets only `error` to that guard's message and calls nothing; otherwise the service is called with the current prompt and image, and loading starts with the result and the error cleared |
| AppState.App.Resolve | App.tsx:69-78 | loading always ends; success shows exactly `data:image/png;base64,` plus the data with no error; a rejection shows its message or the fallback with no result; a nullish rejection shows nothing |
| AppState.App.DownloadImage | App.tsx:81-85 | for a timestamp below 10^21: no link without a (non-empty) generated image; otherwise a link to that image named by the timestamp; under the invariant a link exists exactly when an image does |
| Gallery.Items | App.tsx:21-28 | six examples with ids 1 to 6 and non-empty prompts |
| Gallery.GalleryPromptPassesValidation | App.tsx:21-28 | a gallery prompt never trips the input check; only a missing key can stop the handler |
| Scenarios.PromptThenSuccess | App.tsx:52-79 | prompt, submit with a key, success: the service gets the prompt with no image and the page shows the result URL and no error |
| Scenarios.EmptyInput | App.tsx:53-56 | empty input with or without a key reaches no service call and shows the validation message |
| Scenarios.RetryAfterFailure | App.tsx:65-78 | after a failure the error shows the rejection's message, and a retry calls the service again with the error cleared |
| Scenarios.FileDuringCall | App.tsx:43-71 | a file chosen while a call is pending replaces the held image but not the image the call was made with |
| Scenarios.GalleryClickTwice | App.tsx:91-94 | two clicks on the same example give the same state as one |

## Left out

- Rendering: the JSX, CSS classes, icons, the `isMounted` fade-in effect and the gallery markup are presentation only.
- The upload preview URL (`URL.createObjectURL`) and its state field: it comes from a browser API and is only displayed.
- FileReader: the data URL and the read failure are inputs to `FileChange`. Its `DataUrlText` type assumes the reader's result holds a comma, as the data URL syntax of section 3 of RFC 2397 and the File API's readAsDataURL require. A browser that returns a bare `data:` for an empty file would make App.tsx store `data: undefined`; that case is not modelled. `PayloadOf` itself still returns None for comma-free text.
- Base64 encoding itself: the browser does it, so no encode/decode round trip of file bytes is claimed.
- The generation service client is not part of this model: its outcome is the `Outcome` argument of `Resolve`. A message that is some other truthy non-string value is not modelled.
- The API key (`process.env.API_KEY`) is reduced to the boolean `apiKeyPresent`.
- `console.error`, `window.scrollTo`, creating and clicking the download anchor, and the clock are left out. `Date.now()` is the `timestamp` argument.
- DownloadFile.FileName: requires a timestamp below 10^21, the range in which JavaScript prints an integer in plain decimal; the exponent form (`1e+21`) beyond it is not modelled. `Date.now()` never exceeds 8.64e15.
- AppState.App.DownloadImage: requires the same bound on its timestamp, for the same reason.
- Asynchrony: each handler runs atomically. The file handler's `await` is not split, and React's batching of state updates is not modelled.
- AppState.App.Submit: `requires !isLoading` stands in for the disabled button; a call while loading is not modelled.
