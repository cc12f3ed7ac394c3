/** Shared shapes of the application: the states of the controller, the
    selected input file and the remix result, plus the two wrappers used for
    optional values and for operations that may throw. */
module Types {

  /** A value that may be absent (`null` / `undefined`). */
  datatype Option<+T> = None | Some(value: T)

  /** The outcome of an operation that either returns a value or throws. */
  datatype Result<+T, +E> = Success(value: T) | Failure(error: E)

  /** JavaScript truthiness of an optional string: present and non-empty. */
  predicate Truthy(s: Option<string>)
  {
    s.Some? && s.value != ""
  }

  /** The controller's display states (`AppState`). */
  datatype AppState = Idle | Uploading | Processing | Ready | Error

  /** A browser `File` as the intake sees it: its name and declared media type. */
  datatype File = File(name: string, mediaType: string)

  /** An object URL. It stands for the object it was created for: a selected
      file, or the Blob that the byte-copy loop builds from a base64 audio
      payload with the given media type. */
  datatype ObjectUrl =
    | FileUrl(file: File)
    | BlobUrl(payload: string, mediaType: string)

  /** A selected input track (`AudioFile`). */
  datatype AudioFile = AudioFile(name: string, url: ObjectUrl, base64: string, mimeType: string)

  /** A generated remix (`RemixResult`). */
  datatype RemixResult = RemixResult(audioUrl: ObjectUrl, description: string)
}
