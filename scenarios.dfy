/** Whole attempts driven through the App class, as a user of the page sees them. */
module Scenarios {
  import opened AppTypes
  import opened AppState
  import DataUrl

  /** Typing a prompt and generating with a key: the service gets the prompt and
      no image, the page ends showing the returned image and no error. */
  method PromptThenSuccess(text: string, imageData: string)
    returns (request: Option<GenerationRequest>, shown: Option<string>, error: Option<string>)
    requires text != ""
    ensures request == Some(GenerationRequest(text, None))
    ensures shown == Some(DataUrl.ResultUrl(imageData)) && error.None?
  {
    var app := new App();
    app.EditPrompt(text);
    request := app.Submit(true);
    app.Resolve(Generated(imageData));
    shown, error := app.generatedImage, app.error;
  }

  /** Generating with an empty prompt and no image reaches no service call and
      shows the validation message, even with no key configured. */
  method EmptyInput(apiKeyPresent: bool) returns (request: Option<GenerationRequest>, error: Option<string>)
    ensures request.None? && error == Some(ValidationMessage)
  {
    var app := new App();
    request := app.Submit(apiKeyPresent);
    error := app.error;
  }

  /** A failed attempt can be retried at once, and the retry clears the old
      error while it is loading. */
  method RetryAfterFailure(text: string, message: string)
    returns (firstError: Option<string>, retried: Option<GenerationRequest>, errorWhileLoading: Option<string>)
    requires text != "" && message != ""
    ensures firstError == Some(message)
    ensures retried == Some(GenerationRequest(text, None)) && errorWhileLoading.None?
  {
    var app := new App();
    app.GalleryClick(text);
    var first := app.Submit(true);
    app.Resolve(Rejected(Some(message)));
    firstError := app.error;
    retried := app.Submit(true);
    errorWhileLoading := app.error;
  }

  /** A file chosen while a call is pending changes the held image but not the
      request the pending call was made with. */
  method FileDuringCall(text: string, file: PickedFile)
    returns (request: Option<GenerationRequest>, held: Option<UploadedImage>,
             ghost pending: Option<GenerationRequest>)
    requires text != "" && file.read.Loaded?
    ensures request == Some(GenerationRequest(text, None))
    ensures pending == request
    ensures held == Some(UploadedImage(file.mimeType, DataUrl.PayloadOf(file.read.dataUrl).value))
  {
    var app := new App();
    app.EditPrompt(text);
    request := app.Submit(true);
    app.FileChange(Some(file));
    pending := app.inFlight;
    held := app.uploadedImage;
  }

  /** Clicking the same gallery example twice leaves the state as one click does. */
  method GalleryClickTwice(app: App, itemPrompt: string)
    requires app.Valid()
    modifies app
    ensures app.Valid() && app.inFlight == old(app.inFlight)
    ensures app.State() == old(app.State()).(prompt := itemPrompt)
  {
    app.GalleryClick(itemPrompt);
    app.GalleryClick(itemPrompt);
  }
}
