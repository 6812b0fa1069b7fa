/**
 * Wire-level values of the mashup RPC surface: connection configs, the
 * request and response messages of the delegated calls, the errors the
 * endpoint returns, and the capability handler the calls are delegated to.
 * Protobuf messages become plain datatypes; every message that the
 * endpoint authorizes carries its `authToken`.
 */
module Messages {

  datatype Option<T> = None | Some(value: T)

  /** `MashupConnectionConfigs`: used both as the handshake request and as a stored config. */
  datatype ConnectionConfigs = ConnectionConfigs(authToken: string, callerToken: string, server: string, port: int)

  /** `MashupEmpty`: carries only a credential. */
  datatype MashupEmpty = MashupEmpty(authToken: string)

  /** `emptypb.Empty`, the reply of TweakStatesByMotiv. */
  datatype WellKnownEmpty = WellKnownEmpty

  datatype ElementState = ElementState(id: int, state: int)

  datatype ElementStateBundle = ElementStateBundle(authToken: string, states: seq<ElementState>)

  datatype DetailedElementBundle = DetailedElementBundle(authToken: string, elementIds: seq<int>)

  datatype Motiv = Motiv(authToken: string, code: int)

  datatype DisplayHint = DisplayHint(xpos: int, ypos: int, width: int, height: int)

  /** `MashupDisplayBundle`; its hint is a message pointer and may be absent. */
  datatype DisplayBundle = DisplayBundle(authToken: string, hint: Option<DisplayHint>)

  /** The errors the endpoint returns; the comment gives the error text where the endpoint fixes it. */
  datatype Error =
    | HandshakeAuthFailure          // "auth failure": bad bootstrap token in CollaborateInit
    | CertInitFailure               // "cert initialization failure": no certificate loaded
    | CertParseFailure(reason: string) // the certificate parser's own error
    | DialFailure(reason: string)   // the transport dialer's own error
    | AuthFailure                   // "Auth failure": bad session token on a guarded call
    | HandlerFailure(reason: string) // an error of the bound capability handler

  function Text(e: Error): string
  {
    match e
    case HandshakeAuthFailure => "auth failure"
    case CertInitFailure => "cert initialization failure"
    case CertParseFailure(reason) => reason
    case DialFailure(reason) => reason
    case AuthFailure => "Auth failure"
    case HandlerFailure(reason) => reason
  }

  /**
   * The three fixed error texts are pairwise different: a caller can tell a
   * bad bootstrap token, a bad session token and a missing certificate apart
   * by the text alone, the first two by letter case only.
   */
  lemma FixedTextsDiffer()
    ensures Text(HandshakeAuthFailure) != Text(AuthFailure)
    ensures Text(HandshakeAuthFailure) != Text(CertInitFailure)
    ensures Text(AuthFailure) != Text(CertInitFailure)
  {
  }

  /** A Go `(result, error)` pair; either half may be nil. */
  datatype Reply<T> = Reply(value: Option<T>, err: Option<Error>)

  /** What an RPC method does: it returns a pair, or it dereferences nil and panics. */
  datatype Outcome<T> = Returned(reply: Reply<T>) | Panicked

  /**
   * The bound `MashupApiHandler`, seen through its observable results: each
   * delegated method is a function of the arguments it is passed.
   * Its OnDisplayChange returns nothing, so only the call itself is observable.
   */
  datatype ApiHandler = ApiHandler(
    getElements: () -> Reply<DetailedElementBundle>,
    tweakStates: ElementStateBundle -> Reply<ElementStateBundle>,
    tweakStatesByMotiv: Motiv -> Reply<WellKnownEmpty>,
    upsertElements: DetailedElementBundle -> Reply<DetailedElementBundle>)

  /** One invocation of the handler, with the arguments it received. */
  datatype HandlerCall =
    | CalledGetElements
    | CalledTweakStates(bundle: ElementStateBundle)
    | CalledTweakStatesByMotiv(motiv: Motiv)
    | CalledUpsertElements(elements: DetailedElementBundle)
    | CalledOnDisplayChange(hint: DisplayHint)

  /** The result of a guarded, delegated call and the handler invocation it made, if any. */
  datatype Dispatch<T> = Dispatch(outcome: Outcome<T>, invoked: Option<HandlerCall>)
}
