/** The values the front end passes around: the records of types.ts and the
    inputs and outputs of the generation lifecycle in App.tsx. */
module AppTypes {

  datatype Option<+T> = None | Some(value: T)

  /** A reference image chosen by the user: its MIME type and its base64 text. */
  datatype UploadedImage = UploadedImage(mimeType: string, data: string)

  /** One entry of the example gallery. */
  datatype GalleryItem = GalleryItem(id: int, prompt: string, imageUrl: string)

  /** What the generation service is called with. */
  datatype GenerationRequest = GenerationRequest(prompt: string, image: Option<UploadedImage>)

  /** How the awaited service call settles.
      Rejected carries the rejection's `message` when it is a string;
      RejectedNullish is a rejection with `null` or `undefined`, on which
      reading `.message` itself throws. */
  datatype Outcome =
    | Generated(imageData: string)
    | Rejected(message: Option<string>)
    | RejectedNullish

  /** The text FileReader.readAsDataURL produces: a data URL, which always holds
      the comma that ends its header (section 3 of RFC 2397). */
  type DataUrlText = s: string | ',' in s witness ","

  /** The result of reading the chosen file. */
  datatype ReadResult = Loaded(dataUrl: DataUrlText) | ReadFailed

  /** The first file of the picker: its declared type and what reading it gave. */
  datatype PickedFile = PickedFile(mimeType: string, read: ReadResult)

  /** The anchor built to save the generated image. */
  datatype DownloadLink = DownloadLink(href: string, fileName: string)
}
