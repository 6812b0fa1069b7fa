/**
 * The state of the mashup-side endpoint as one value, and what each RPC
 * method of `MashupClient` does to it. The package-level variables of the
 * client package become the fields of `Store`; the steps the endpoint hands
 * to libraries (certificate parsing, dialling, token generation) are inputs.
 */
module Session {
  import opened Messages

  /** `grpc.DialOption`, reduced to which option was installed. */
  datatype DialOption = EmptyDialOption | CustomDialOption(id: int)

  /** `mashupContext.Client`: the reverse client, with the target it was dialled at. */
  datatype ReverseClient = ReverseClient(server: string, port: int, options: DialOption)

  /** Result of decoding and parsing the stored certificate bytes. */
  datatype CertOutcome =
    | PemUndecodable              // pem.Decode finds no block and returns nil
    | CertRejected(reason: string) // x509.ParseCertificate returns an error
    | CertParsed

  datatype DialOutcome = DialRefused(reason: string) | Dialed

  /** What the libraries answer during one handshake, and the token GenAuthToken mints. */
  datatype HandshakeEnv = HandshakeEnv(cert: CertOutcome, dial: DialOutcome, freshToken: string)

  datatype Store = Store(
    handshake: ConnectionConfigs,          // handshakeConnectionConfigs
    server: Option<ConnectionConfigs>,     // serverConnectionConfigs
    client: Option<ConnectionConfigs>,     // clientConnectionConfigs
    certPresent: bool,                     // mashupCertBytes != nil
    reverseClient: Option<ReverseClient>,  // mashupContext.Client
    handler: Option<ApiHandler>,           // MashupClient.mashupApiHandler
    dialOptions: DialOption,               // clientDialOptions
    signalInits: nat,                      // calls of initSignalProcessor
    completionSignals: nat,                // sends on handshakeCompleteChan
    shutdownScheduled: bool)               // the delayed os.Exit(-1) has been started

  /** The store before any handshake. */
  function Initial(handshake: ConnectionConfigs, certPresent: bool, handler: Option<ApiHandler>): Store
  {
    Store(handshake, None, None, certPresent, None, handler, EmptyDialOption, 0, 0, false)
  }

  /** A guarded call presenting `token` passes the check. */
  predicate Authorized(s: Store, token: string)
  {
    s.server.Some? && token == s.server.value.authToken
  }

  /** Why the check at the head of a guarded call stops it. */
  datatype Refusal = NoSession | WrongToken

  /**
   * The check at the head of every guarded call: None lets the call go on.
   * With no session config the comparison dereferences nil.
   */
  function Guard(s: Store, token: string): (g: Option<Refusal>)
    ensures g.None? <==> Authorized(s, token)
    ensures g == Some(NoSession) <==> s.server.None?
  {
    if s.server.None? then Some(NoSession)
    else if token != s.server.value.authToken then Some(WrongToken)
    else None
  }

  /** What a call stopped by the guard returns: a panic, or "Auth failure". */
  function Refused<T>(why: Refusal): Outcome<T>
  {
    match why
    case NoSession => Panicked
    case WrongToken => Returned(Reply(None, Some(AuthFailure)))
  }

  function GetServerAuthToken(s: Store): (t: string)
    ensures s.server.None? ==> t == ""
    ensures s.server.Some? ==> t == s.server.value.authToken
    ensures forall tok :: Authorized(s, tok) ==> tok == t
  {
    if s.server.Some? then s.server.value.authToken else ""
  }

  function InitDialOptions(s: Store, option: DialOption): (s': Store)
    ensures s'.dialOptions == option
    ensures s' == s.(dialOptions := option)
  {
    s.(dialOptions := option)
  }

  /**
   * The handshake. A matching bootstrap token records the caller's token and
   * address as the session config at once; the certificate and dial steps
   * come after that write, and a minted client config only at the end.
   */
  function CollaborateInit(s: Store, req: ConnectionConfigs, env: HandshakeEnv): (r: (Store, Outcome<ConnectionConfigs>))
    // a bad bootstrap token fails and changes nothing
    ensures req.authToken != s.handshake.authToken ==>
      r == (s, Returned(Reply(None, Some(HandshakeAuthFailure))))
    // a good one installs the caller's credential as the session config, whatever follows
    ensures req.authToken == s.handshake.authToken ==>
      r.0.server == Some(ConnectionConfigs(req.callerToken, "", req.server, req.port))
    // without a certificate: a configuration error, distinct from the authorization error
    ensures req.authToken == s.handshake.authToken && !s.certPresent ==>
      r.1 == Returned(Reply(None, Some(CertInitFailure)))
    // every path short of success leaves all but the session config as it was
    ensures r.1.Panicked? || r.1.reply.err.Some? ==>
      r.0 == s.(server := r.0.server)
    // a rejected certificate or a failed dial returns nil with that library's own error
    ensures req.authToken == s.handshake.authToken && s.certPresent && env.cert.CertRejected? ==>
      r.1 == Returned(Reply(None, Some(CertParseFailure(env.cert.reason))))
    ensures req.authToken == s.handshake.authToken && s.certPresent && env.cert.CertParsed? && env.dial.DialRefused? ==>
      r.1 == Returned(Reply(None, Some(DialFailure(env.dial.reason))))
    ensures r.1.Panicked? <==>
      req.authToken == s.handshake.authToken && s.certPresent && env.cert.PemUndecodable?
    // success exactly when every step goes through
    ensures r.1.Returned? && r.1.reply.err.None? <==>
      req.authToken == s.handshake.authToken && s.certPresent && env.cert.CertParsed? && env.dial.Dialed?
    ensures r.1.Returned? && r.1.reply.err.None? ==>
      && r.0.client == r.1.reply.value
      && r.0.client == Some(ConnectionConfigs(env.freshToken, "", s.handshake.server, s.handshake.port))
      && r.0.reverseClient == Some(ReverseClient(req.server, req.port, s.dialOptions))
      && r.0.signalInits == s.signalInits + 1
      && r.0.completionSignals == s.completionSignals + 1
    // the handshake never touches the bootstrap config, the certificate, the handler, the options or shutdown
    ensures r.0.handshake == s.handshake && r.0.certPresent == s.certPresent && r.0.handler == s.handler
    ensures r.0.dialOptions == s.dialOptions && r.0.shutdownScheduled == s.shutdownScheduled
  {
    if req.authToken != s.handshake.authToken then
      (s, Returned(Reply(None, Some(HandshakeAuthFailure))))
    else
      var session := ConnectionConfigs(req.callerToken, "", req.server, req.port);
      var s1 := s.(server := Some(session));
      if !s1.certPresent then
        (s1, Returned(Reply(None, Some(CertInitFailure))))
      else match env.cert
        case PemUndecodable => (s1, Panicked)
        case CertRejected(reason) => (s1, Returned(Reply(None, Some(CertParseFailure(reason)))))
        case CertParsed =>
          match env.dial
          case DialRefused(reason) => (s1, Returned(Reply(None, Some(DialFailure(reason)))))
          case Dialed =>
            var minted := ConnectionConfigs(env.freshToken, "", s1.handshake.server, s1.handshake.port);
            var s2 := s1.(reverseClient := Some(ReverseClient(session.server, session.port, s1.dialOptions)),
                          signalInits := s1.signalInits + 1,
                          completionSignals := s1.completionSignals + 1,
                          client := Some(minted));
            (s2, Returned(Reply(Some(minted), None)))
  }

  function Shutdown(s: Store, req: MashupEmpty): (r: (Store, Outcome<MashupEmpty>))
    ensures !Authorized(s, req.authToken) ==> r.0 == s && r.1 == Refused(Guard(s, req.authToken).value)
    ensures Authorized(s, req.authToken) ==>
      r == (s.(shutdownScheduled := true), Returned(Reply(Some(MashupEmpty("")), None)))
  {
    match Guard(s, req.authToken)
    case Some(why) => (s, Refused(why))
    case None => (s.(shutdownScheduled := true), Returned(Reply(Some(MashupEmpty("")), None)))
  }

  function GetElements(s: Store, req: MashupEmpty): (d: Dispatch<DetailedElementBundle>)
    ensures !Authorized(s, req.authToken) ==> d == Dispatch(Refused(Guard(s, req.authToken).value), None)
    ensures Authorized(s, req.authToken) && s.handler.Some? ==>
      d == Dispatch(Returned(s.handler.value.getElements()), Some(CalledGetElements))
    ensures Authorized(s, req.authToken) && s.handler.None? ==>
      d == Dispatch(Returned(Reply(None, None)), None)
  {
    match Guard(s, req.authToken)
    case Some(why) => Dispatch(Refused(why), None)
    case None =>
      match s.handler
      case Some(h) => Dispatch(Returned(h.getElements()), Some(CalledGetElements))
      case None => Dispatch(Returned(Reply(None, None)), None)
  }

  function TweakStates(s: Store, req: ElementStateBundle): (d: Dispatch<ElementStateBundle>)
    ensures !Authorized(s, req.authToken) ==> d == Dispatch(Refused(Guard(s, req.authToken).value), None)
    ensures Authorized(s, req.authToken) && s.handler.Some? ==>
      d == Dispatch(Returned(s.handler.value.tweakStates(req)), Some(CalledTweakStates(req)))
    ensures Authorized(s, req.authToken) && s.handler.None? ==>
      d == Dispatch(Returned(Reply(None, None)), None)
  {
    match Guard(s, req.authToken)
    case Some(why) => Dispatch(Refused(why), None)
    case None =>
      match s.handler
      case Some(h) => Dispatch(Returned(h.tweakStates(req)), Some(CalledTweakStates(req)))
      case None => Dispatch(Returned(Reply(None, None)), None)
  }

  function TweakStatesByMotiv(s: Store, req: Motiv): (d: Dispatch<WellKnownEmpty>)
    ensures !Authorized(s, req.authToken) ==> d == Dispatch(Refused(Guard(s, req.authToken).value), None)
    ensures Authorized(s, req.authToken) && s.handler.Some? ==>
      d == Dispatch(Returned(s.handler.value.tweakStatesByMotiv(req)), Some(CalledTweakStatesByMotiv(req)))
    ensures Authorized(s, req.authToken) && s.handler.None? ==>
      d == Dispatch(Returned(Reply(None, None)), None)
  {
    match Guard(s, req.authToken)
    case Some(why) => Dispatch(Refused(why), None)
    case None =>
      match s.handler
      case Some(h) => Dispatch(Returned(h.tweakStatesByMotiv(req)), Some(CalledTweakStatesByMotiv(req)))
      case None => Dispatch(Returned(Reply(None, None)), None)
  }

  function UpsertElements(s: Store, req: DetailedElementBundle): (d: Dispatch<DetailedElementBundle>)
    ensures !Authorized(s, req.authToken) ==> d == Dispatch(Refused(Guard(s, req.authToken).value), None)
    ensures Authorized(s, req.authToken) && s.handler.Some? ==>
      d == Dispatch(Returned(s.handler.value.upsertElements(req)), Some(CalledUpsertElements(req)))
    ensures Authorized(s, req.authToken) && s.handler.None? ==>
      d == Dispatch(Returned(Reply(None, None)), None)
  {
    match Guard(s, req.authToken)
    case Some(why) => Dispatch(Refused(why), None)
    case None =>
      match s.handler
      case Some(h) => Dispatch(Returned(h.upsertElements(req)), Some(CalledUpsertElements(req)))
      case None => Dispatch(Returned(Reply(None, None)), None)
  }

  /**
   * An authorized display change echoes the request's hint without error and
   * tells the handler, if one is bound; an absent hint is dereferenced when
   * it is logged.
   */
  function OnDisplayChange(s: Store, req: DisplayBundle): (d: Dispatch<DisplayHint>)
    ensures !Authorized(s, req.authToken) ==> d == Dispatch(Refused(Guard(s, req.authToken).value), None)
    ensures Authorized(s, req.authToken) && req.hint.None? ==> d == Dispatch(Panicked, None)
    ensures Authorized(s, req.authToken) && req.hint.Some? ==>
      && d.outcome == Returned(Reply(req.hint, None))
      && (d.invoked.Some? <==> s.handler.Some?)
      && (s.handler.Some? ==> d.invoked == Some(CalledOnDisplayChange(req.hint.value)))
  {
    match Guard(s, req.authToken)
    case Some(why) => Dispatch(Refused(why), None)
    case None =>
      match req.hint
      case None => Dispatch(Panicked, None)
      case Some(hint) =>
        Dispatch(Returned(Reply(Some(hint), None)),
                 if s.handler.Some? then Some(CalledOnDisplayChange(hint)) else None)
  }
}
