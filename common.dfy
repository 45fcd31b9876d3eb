/** Types shared by the two screens: optional values, the message keys that
    the screens pass to the localisation lookup t(...), and the shape of a
    reply from the affiliate-link endpoint. */
module Common {

  datatype Option<T> = None | Some(value: T)

  /** The localisation keys the core logic chooses between. */
  datatype MessageKey =
    | NotRegisteredError
    | NoRegistrationFoundAfterAttempts
    | LoginFailedNoCount
    | UnexpectedErrorOccurred
    | RegistrationLinkNotAvailable
    | DemoLimitReached
    | ErrorLabel
    | CouldNotUsePrediction
    | UnexpectedErrorSignal
    | DepositLinkNotAvailable

  /** A user-visible message: a localised key, a text sent by the server, or
      a heading followed by a detail (`${t(heading)}: ${detail}`). */
  datatype Message =
    | Localised(key: MessageKey)
    | ServerText(text: string)
    | Labelled(heading: MessageKey, detail: Message)

  /** `text || t(fallback)`: an empty or missing server text falls back to
      the localised key. A missing text is given as "". */
  function TextOr(text: string, fallback: MessageKey): (m: Message)
    ensures text != "" ==> m == ServerText(text)
    ensures text == "" ==> m == Localised(fallback)
  {
    if text != "" then ServerText(text) else Localised(fallback)
  }

  /** The reply of fetch('/api/get-affiliate-link') as the handlers see it:
      `response.ok && data.success` with a link, any other reply with its
      `data.message` ("" when absent), or an exception. */
  datatype LinkReply =
    | LinkGranted(link: string)
    | LinkRefused(message: string)
    | LinkFetchThrew
}
