/**
 * What both entry points share: the persisted bridge credentials and the
 * decoded shapes of the bridge's pairing reply. A Go `error` is modelled by
 * its message text.
 */
module Bridge {
  import opened Wrappers

  /** The persisted credential record (config/config.go). */
  datatype BridgeConfig = BridgeConfig(ip: string, apiKey: string)

  /** Both `main` functions pair (and then save) exactly when this holds. */
  predicate NeedsPairing(c: BridgeConfig) {
    |c.ip| == 0 || |c.apiKey| == 0
  }

  /** The `success` member of a pairing reply element. */
  datatype SuccessData = SuccessData(username: string, clientKey: string)

  /** The `error` member of a pairing reply element. */
  datatype ErrorData = ErrorData(typeCode: int, address: string, description: string)

  /**
   * One element of the JSON array the bridge answers `POST /api` with:
   * it carries a `success` member, an `error` member, or neither.
   */
  datatype Element =
    | SuccessElement(success: SuccessData)
    | ErrorElement(failure: ErrorData)
    | OtherElement

  /** The reply body: either a JSON array of elements or text that does not decode as one. */
  datatype Payload = Malformed | Elements(items: seq<Element>)

  /** What a pairing send hands back on a nil error: a nil body or some bytes. */
  datatype Response = NoBody | Body(payload: Payload)

  /** What decoding an element into Go's `[]Error` shape yields: absent members take zero values. */
  function ErrorView(e: Element): ErrorData {
    match e
    case ErrorElement(d) => d
    case _ => ErrorData(0, "", "")
  }

  /** What decoding an element into Go's `[]Success` shape yields. */
  function SuccessView(e: Element): SuccessData {
    match e
    case SuccessElement(d) => d
    case _ => SuccessData("", "")
  }

  /**
   * The source indexes `[0]` of every decoded array without a length check;
   * callers must not hand it an empty array.
   */
  predicate HasFirstElement(resp: Response) {
    resp.Body? && resp.payload.Elements? ==> |resp.payload.items| > 0
  }

  predicate HasFirstElementIfOk(reply: Result<Response, string>) {
    reply.Ok? ==> HasFirstElement(reply.value)
  }

  const REGISTER_ERROR := "Error registering new api key"
  const LINK_BUTTON_TYPE := 101
  const LINK_BUTTON_DESCRIPTION := "link button not pressed"
  const IP_ERROR := "IP out of range"

  /** How `RegisterApiKey` ends: an API key, a returned error, or a `log.Fatal` inside it. */
  datatype PairingOutcome = Registered(apiKey: string) | Failed(error: string) | Aborted(message: string)

  /** The outcome together with how many registration requests were sent. */
  datatype Registration = Registration(outcome: PairingOutcome, sends: nat)

  /**
   * The inputs of the interactive pairing: the operator's address after
   * IP parsing (None when it is rejected) and the replies to the first
   * and the second registration request.
   */
  datatype Handshake = Handshake(ip: Option<string>, first: Result<Response, string>, second: Result<Response, string>)

  /** The diagnostic of `log.Fatalf` for a light that is not in the directory. */
  function NotRegisteredMessage(name: string): string {
    "Light with name \"" + name + "\" is not registered"
  }

  /**
   * One run of a `main`: whether the pairing flow ran, the config it saved
   * (if it got that far), and what the run did last.
   */
  datatype Trace<A> = Trace(paired: bool, saved: Option<BridgeConfig>, action: A)
}
