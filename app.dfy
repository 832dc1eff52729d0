/** The App component's generation lifecycle: its five state fields and the
    handlers that change them. The one `await` of the generate handler is split
    into Submit, which runs up to the service call, and Resolve, which runs when
    the call settles. */
module AppState {
  import opened AppTypes
  import DataUrl
  import DownloadFile

  /** Shown when there is neither a prompt nor a reference image. */
  const ValidationMessage: string := "يرجى كتابة وصف أو رفع صورة مرجعية."
  /** Shown when no API key is configured. */
  const MissingKeyMessage: string := "مفتاح API غير متوفر. يرجى التأكد من إعداده للمتابعة."
  /** Shown when the service fails without a message of its own. */
  const GenerationFallback: string := "حدث خطأ أثناء إنشاء الصورة. يرجى المحاولة مرة أخرى."

  /** The component's state at one instant. */
  datatype Snapshot = Snapshot(
    prompt: string,
    uploadedImage: Option<UploadedImage>,
    generatedImage: Option<string>,
    isLoading: bool,
    error: Option<string>)

  /** The two guards of the generate handler, in order: the message it stops
      with, or None when it goes on to call the service. */
  function SubmitGuard(prompt: string, image: Option<UploadedImage>, apiKeyPresent: bool): (stop: Option<string>)
    ensures stop == Some(ValidationMessage) <==> prompt == "" && image.None?
    ensures stop == Some(MissingKeyMessage) <==> (prompt != "" || image.Some?) && !apiKeyPresent
    ensures stop.None? <==> (prompt != "" || image.Some?) && apiKeyPresent
  {
    assert |ValidationMessage| != |MissingKeyMessage|;
    if prompt == "" && image.None? then Some(ValidationMessage)
    else if !apiKeyPresent then Some(MissingKeyMessage)
    else None
  }

  /** `err.message || fallback` for a rejection that carries a message field:
      the message when it is a non-empty string, the fallback otherwise. */
  function FailureMessage(message: Option<string>): (shown: string)
    ensures shown != ""
    ensures message.Some? && message.value != "" ==> shown == message.value
    ensures message.None? || message.value == "" ==> shown == GenerationFallback
  {
    if message.Some? && message.value != "" then message.value else GenerationFallback
  }

  class App {
    var prompt: string
    var uploadedImage: Option<UploadedImage>
    var generatedImage: Option<string>
    var isLoading: bool
    var error: Option<string>
    /** The request the pending service call was made with, while one is pending. */
    ghost var inFlight: Option<GenerationRequest>

    function State(): Snapshot
      reads this
    {
      Snapshot(prompt, uploadedImage, generatedImage, isLoading, error)
    }

    /** What every handler keeps: loading exactly while a call is pending, and
        then with no result and no error on show; a result is always a PNG data
        URL; an error, when set, is never the empty string (which the page
        would not display). */
    ghost predicate Valid()
      reads this
    {
      (isLoading <==> inFlight.Some?) &&
      (isLoading ==> generatedImage.None? && error.None?) &&
      (generatedImage.Some? ==>
        exists data :: generatedImage.value == DataUrl.ResultUrl(data)) &&
      (error.Some? ==> error.value != "")
    }

    /** The initial state: empty prompt, nothing uploaded, nothing generated,
        not loading, no error. */
    constructor ()
      ensures Valid()
      ensures State() == Snapshot("", None, None, false, None)
    {
      prompt := "";
      uploadedImage := None;
      generatedImage := None;
      isLoading := false;
      error := None;
      inFlight := None;
    }

    /** Typing in the prompt box. */
    method EditPrompt(text: string)
      requires Valid()
      modifies this
      ensures Valid() && inFlight == old(inFlight)
      ensures State() == old(State()).(prompt := text)
    {
      prompt := text;
    }

    /** Clicking a gallery example copies its prompt and changes nothing else
        (the page scroll is not part of the state). */
    method GalleryClick(itemPrompt: string)
      requires Valid()
      modifies this
      ensures Valid() && inFlight == old(inFlight)
      ensures State() == old(State()).(prompt := itemPrompt)
    {
      prompt := itemPrompt;
    }

    /** Choosing a file: with no file, or when reading it fails (the rejection
        escapes the handler), nothing changes; otherwise the uploaded image
        becomes the file's type and the payload of its data URL. A call already
        pending keeps the image it was made with. */
    method FileChange(file: Option<PickedFile>)
      requires Valid()
      modifies this
      ensures Valid() && inFlight == old(inFlight)
      ensures file.None? || file.value.read.ReadFailed? ==> State() == old(State())
      ensures file.Some? && file.value.read.Loaded? ==>
        State() == old(State()).(uploadedImage := Some(UploadedImage(
          file.value.mimeType, DataUrl.PayloadOf(file.value.read.dataUrl).value)))
    {
      if file.Some? {
        match file.value.read {
          case ReadFailed =>
          case Loaded(url) =>
            var payload := DataUrl.PayloadOf(url);
            uploadedImage := Some(UploadedImage(file.value.mimeType, payload.value));
        }
      }
    }

    /** The generate handler up to its `await`. It is reachable only while not
        loading, because the button is disabled while loading. It returns the
        request the service is called with, or None when a guard stops it. */
    method Submit(apiKeyPresent: bool) returns (request: Option<GenerationRequest>)
      requires Valid() && !isLoading
      modifies this
      ensures Valid()
      ensures request.None? <==> SubmitGuard(old(prompt), old(uploadedImage), apiKeyPresent).Some?
      ensures request.None? ==>
        State() == old(State()).(error := SubmitGuard(old(prompt), old(uploadedImage), apiKeyPresent))
        && inFlight.None?
      ensures request.Some? ==>
        request == Some(GenerationRequest(old(prompt), old(uploadedImage))) &&
        State() == old(State()).(isLoading := true, generatedImage := None, error := None) &&
        inFlight == request
    {
      if prompt == "" && uploadedImage.None? {
        error := Some(ValidationMessage);
        return None;
      }
      if !apiKeyPresent {
        error := Some(MissingKeyMessage);
        return None;
      }
      isLoading := true;
      generatedImage := None;
      error := None;
      request := Some(GenerationRequest(prompt, uploadedImage));
      inFlight := request;
    }

    /** The generate handler after its `await`: a result is shown as a PNG data
        URL; a rejection shows its message or the fallback; a nullish rejection
        throws again inside the catch block, so no error is set; loading ends in
        every case. */
    method Resolve(outcome: Outcome)
      requires Valid() && isLoading
      modifies this
      ensures Valid() && inFlight.None?
      ensures outcome.Generated? ==>
        State() == old(State()).(isLoading := false,
                                 generatedImage := Some(DataUrl.ResultUrl(outcome.imageData)))
      ensures outcome.Rejected? ==>
        State() == old(State()).(isLoading := false, error := Some(FailureMessage(outcome.message)))
      ensures outcome.RejectedNullish? ==> State() == old(State()).(isLoading := false)
    {
      match outcome {
        case Generated(data) =>
          generatedImage := Some(DataUrl.ResultUrl(data));
        case Rejected(message) =>
          error := Some(FailureMessage(message));
        case RejectedNullish =>
      }
      isLoading := false;
      inFlight := None;
    }

    /** The download handler: nothing without a generated image; otherwise a
        link to the image under the timestamped file name. */
    method DownloadImage(timestamp: nat) returns (link: Option<DownloadLink>)
      requires timestamp < DownloadFile.PlainDecimalBound
      ensures link.None? <==> generatedImage.None? || generatedImage.value == ""
      ensures link.Some? ==>
        link.value.href == generatedImage.value &&
        link.value.fileName == DownloadFile.FileName(timestamp)
      ensures Valid() ==> (link.Some? <==> generatedImage.Some?)
    {
      if generatedImage.None? || generatedImage.value == "" {
        return None;
      }
      link := Some(DownloadLink(generatedImage.value, DownloadFile.FileName(timestamp)));
    }
  }
}
