/** Human-readable text for media and platform errors (mapErrorToHumanMessage.ts). */
module ErrorMessages {

  import opened Wrappers

  const NotAllowed := "Cannot access video stream (NotAllowedError)."
  const NotReadable := "Cannot access video stream (NotReadableError)."
  const NotFound := "Cannot access video stream (NotFoundError)."
  const PermissionDenied := "Camera Permission denied"
  const NoWasm := "WebAssembly Not Supported"

  const NoPermissionText := "Looks like we don’t have permission to access your camera. Please allow camera access."
  const NotReadableText := "Looks like we can’t get access to the camera. Try choosing another or quit apps that have exclusive access on the camera."
  const NotFoundText := "Looks like your device does not have a camera or your browser can’t find it."
  const NoWasmText := "Your browser does not support WebAssembly. Please use the latest version of Chrome, Firefox or Safari."

  /** The fixed table of known messages. */
  const ErrorMap: map<string, string> := map[
    NotAllowed := NoPermissionText,
    NotReadable := NotReadableText,
    NotFound := NotFoundText,
    PermissionDenied := NoPermissionText,
    NoWasm := NoWasmText
  ]

  const UnknownPrefix := "Unknown Error ("

  /** The fallback text for a message that is not in the table. */
  function Unknown(message: string): (r: string)
    ensures |r| == |message| + |UnknownPrefix| + 1
    ensures r[..|UnknownPrefix|] == UnknownPrefix && r[|r| - 1] == ')'
    ensures r[|UnknownPrefix|..|r| - 1] == message
  {
    UnknownPrefix + message + ")"
  }

  /** The message a MediaError carries for a platform error name (camera.ts, MediaError constructor). */
  function MediaErrorMessage(errorName: string): string
  {
    "Cannot access video stream (" + errorName + ")."
  }

  /** Table lookup with the formatted fallback. */
  function MediaErrorToMessage(message: string): string
  {
    if message in ErrorMap then ErrorMap[message] else Unknown(message)
  }

  /** Recovers the original message from a fallback text. */
  function UnknownMessage(text: string): (r: Option<string>)
  {
    if |text| > |UnknownPrefix| && text[..|UnknownPrefix|] == UnknownPrefix && text[|text| - 1] == ')'
    then Some(text[|UnknownPrefix|..|text| - 1])
    else None
  }

  /** Each of the five known messages maps to its fixed text. */
  lemma KnownMessages()
    ensures MediaErrorToMessage(NotAllowed) == NoPermissionText
    ensures MediaErrorToMessage(NotReadable) == NotReadableText
    ensures MediaErrorToMessage(NotFound) == NotFoundText
    ensures MediaErrorToMessage(PermissionDenied) == NoPermissionText
    ensures MediaErrorToMessage(NoWasm) == NoWasmText
  {
  }

  /** The permission error from the platform and the application's own permission message read the same. */
  lemma PermissionAliases()
    ensures MediaErrorToMessage(NotAllowed) == MediaErrorToMessage(PermissionDenied)
    ensures NotAllowed != PermissionDenied
  {
  }

  /** Every known text ends with a full stop, never with the fallback's closing parenthesis. */
  lemma KnownTextsEnd()
    ensures forall m :: m in ErrorMap ==> |ErrorMap[m]| > 0 && ErrorMap[m][|ErrorMap[m]| - 1] == '.'
  {
  }

  /** A text is a fallback exactly when the message was unknown: no known text ends like a fallback. */
  lemma FallbackIffUnknown(message: string)
    ensures UnknownMessage(MediaErrorToMessage(message)).Some? <==> message !in ErrorMap
  {
    if message in ErrorMap {
      KnownTextsEnd();
    }
  }

  /** The fallback text gives back the message it was made from. */
  lemma FallbackRoundTrip(message: string)
    requires message !in ErrorMap
    ensures UnknownMessage(MediaErrorToMessage(message)) == Some(message)
  {
  }

  /** The three MediaError kinds raised by the camera layer never reach the fallback. */
  lemma MediaErrorsAreKnown(errorName: string)
    requires errorName in {"NotAllowedError", "NotReadableError", "NotFoundError"}
    ensures MediaErrorMessage(errorName) in ErrorMap
    ensures UnknownMessage(MediaErrorToMessage(MediaErrorMessage(errorName))).None?
  {
    MediaErrorKinds(errorName);
    FallbackIffUnknown(MediaErrorMessage(errorName));
  }

  lemma MediaErrorKinds(errorName: string)
    requires errorName in {"NotAllowedError", "NotReadableError", "NotFoundError"}
    ensures MediaErrorMessage(errorName) in {NotAllowed, NotReadable, NotFound}
  {
    if errorName == "NotAllowedError" {
      NotAllowedKind();
    } else if errorName == "NotReadableError" {
      NotReadableKind();
    } else {
      NotFoundKind();
    }
  }

  lemma NotAllowedKind()
    ensures MediaErrorMessage("NotAllowedError") == NotAllowed
  {
  }

  lemma NotReadableKind()
    ensures MediaErrorMessage("NotReadableError") == NotReadable
  {
  }

  lemma NotFoundKind()
    ensures MediaErrorMessage("NotFoundError") == NotFound
  {
  }
}
