/**
 * The mashup-side RPC endpoint `MashupClient` as an object. The fields are
 * the package-level variables the Go methods read and write, plus the bound
 * handler; `Model()` reads them as a `Session.Store`, and every method is
 * proved to do to that store what the function of the same name in
 * `Session` says.
 */
module Client {
  import opened Messages
  import opened Session
  import Trace

  class MashupClient {
    var handshakeConnectionConfigs: ConnectionConfigs
    var serverConnectionConfigs: Option<ConnectionConfigs>
    var clientConnectionConfigs: Option<ConnectionConfigs>
    var mashupCertPresent: bool
    var mashupContextClient: Option<ReverseClient>
    var mashupApiHandler: Option<ApiHandler>
    var clientDialOptions: DialOption
    var signalProcessorInits: nat
    var handshakeCompleteSends: nat
    var shutdownScheduled: bool

    ghost function Model(): Store
      reads this
    {
      Store(handshakeConnectionConfigs, serverConnectionConfigs, clientConnectionConfigs,
            mashupCertPresent, mashupContextClient, mashupApiHandler, clientDialOptions,
            signalProcessorInits, handshakeCompleteSends, shutdownScheduled)
    }

    ghost predicate Valid()
      reads this
    {
      Trace.Consistent(Model())
    }

    /** An endpoint before any handshake, holding the bootstrap config, the certificate (if loaded) and the handler. */
    constructor (handshake: ConnectionConfigs, certPresent: bool, handler: Option<ApiHandler>)
      ensures Valid()
      ensures Model() == Initial(handshake, certPresent, handler)
    {
      handshakeConnectionConfigs := handshake;
      serverConnectionConfigs := None;
      clientConnectionConfigs := None;
      mashupCertPresent := certPresent;
      mashupContextClient := None;
      mashupApiHandler := handler;
      clientDialOptions := EmptyDialOption;
      signalProcessorInits := 0;
      handshakeCompleteSends := 0;
      shutdownScheduled := false;
    }

    method InitDialOptions(option: DialOption)
      requires Valid()
      modifies this
      ensures Valid()
      ensures Model() == Session.InitDialOptions(old(Model()), option)
    {
      clientDialOptions := option;
    }

    method GetServerAuthToken() returns (token: string)
      ensures token == Session.GetServerAuthToken(Model())
    {
      if serverConnectionConfigs.Some? {
        token := serverConnectionConfigs.value.authToken;
      } else {
        token := "";
      }
    }

    method Shutdown(req: MashupEmpty) returns (r: Outcome<MashupEmpty>)
      requires Valid()
      modifies this
      ensures Valid()
      ensures (Model(), r) == Session.Shutdown(old(Model()), req)
    {
      if serverConnectionConfigs.None? {
        return Panicked;
      }
      if req.authToken != serverConnectionConfigs.value.authToken {
        return Returned(Reply(None, Some(AuthFailure)));
      }
      shutdownScheduled := true;
      r := Returned(Reply(Some(MashupEmpty("")), None));
    }

    /** The handshake; the certificate, dial and token-generation steps answer as `env` says. */
    method CollaborateInit(req: ConnectionConfigs, env: HandshakeEnv) returns (r: Outcome<ConnectionConfigs>)
      requires Valid()
      modifies this
      ensures Valid()
      ensures (Model(), r) == Session.CollaborateInit(old(Model()), req, env)
    {
      if req.authToken != handshakeConnectionConfigs.authToken {
        return Returned(Reply(None, Some(HandshakeAuthFailure)));
      }
      serverConnectionConfigs := Some(ConnectionConfigs(req.callerToken, "", req.server, req.port));

      if !mashupCertPresent {
        return Returned(Reply(None, Some(CertInitFailure)));
      }
      match env.cert {
        case PemUndecodable =>
          return Panicked;
        case CertRejected(reason) =>
          return Returned(Reply(None, Some(CertParseFailure(reason))));
        case CertParsed =>
      }

      var session := serverConnectionConfigs.value;
      match env.dial {
        case DialRefused(reason) =>
          return Returned(Reply(None, Some(DialFailure(reason))));
        case Dialed =>
      }

      mashupContextClient := Some(ReverseClient(session.server, session.port, clientDialOptions));
      signalProcessorInits := signalProcessorInits + 1;
      handshakeCompleteSends := handshakeCompleteSends + 1;

      var minted := ConnectionConfigs(env.freshToken, "", handshakeConnectionConfigs.server, handshakeConnectionConfigs.port);
      clientConnectionConfigs := Some(minted);
      r := Returned(Reply(Some(minted), None));
    }

    method GetElements(req: MashupEmpty) returns (d: Dispatch<DetailedElementBundle>)
      ensures d == Session.GetElements(Model(), req)
    {
      if serverConnectionConfigs.None? {
        return Dispatch(Panicked, None);
      }
      if req.authToken != serverConnectionConfigs.value.authToken {
        return Dispatch(Returned(Reply(None, Some(AuthFailure))), None);
      }
      if mashupApiHandler.Some? {
        var reply := mashupApiHandler.value.getElements();
        return Dispatch(Returned(reply), Some(CalledGetElements));
      }
      d := Dispatch(Returned(Reply(None, None)), None);
    }

    method TweakStates(req: ElementStateBundle) returns (d: Dispatch<ElementStateBundle>)
      ensures d == Session.TweakStates(Model(), req)
    {
      if serverConnectionConfigs.None? {
        return Dispatch(Panicked, None);
      }
      if req.authToken != serverConnectionConfigs.value.authToken {
        return Dispatch(Returned(Reply(None, Some(AuthFailure))), None);
      }
      if mashupApiHandler.Some? {
        var reply := mashupApiHandler.value.tweakStates(req);
        return Dispatch(Returned(reply), Some(CalledTweakStates(req)));
      }
      d := Dispatch(Returned(Reply(None, None)), None);
    }

    method TweakStatesByMotiv(req: Motiv) returns (d: Dispatch<WellKnownEmpty>)
      ensures d == Session.TweakStatesByMotiv(Model(), req)
    {
      if serverConnectionConfigs.None? {
        return Dispatch(Panicked, None);
      }
      if req.authToken != serverConnectionConfigs.value.authToken {
        return Dispatch(Returned(Reply(None, Some(AuthFailure))), None);
      }
      if mashupApiHandler.Some? {
        var reply := mashupApiHandler.value.tweakStatesByMotiv(req);
        return Dispatch(Returned(reply), Some(CalledTweakStatesByMotiv(req)));
      }
      d := Dispatch(Returned(Reply(None, None)), None);
    }

    method UpsertElements(req: DetailedElementBundle) returns (d: Dispatch<DetailedElementBundle>)
      ensures d == Session.UpsertElements(Model(), req)
    {
      if serverConnectionConfigs.None? {
        return Dispatch(Panicked, None);
      }
      if req.authToken != serverConnectionConfigs.value.authToken {
        return Dispatch(Returned(Reply(None, Some(AuthFailure))), None);
      }
      if mashupApiHandler.Some? {
        var reply := mashupApiHandler.value.upsertElements(req);
        return Dispatch(Returned(reply), Some(CalledUpsertElements(req)));
      }
      d := Dispatch(Returned(Reply(None, None)), None);
    }

    method OnDisplayChange(req: DisplayBundle) returns (d: Dispatch<DisplayHint>)
      ensures d == Session.OnDisplayChange(Model(), req)
    {
      if serverConnectionConfigs.None? {
        return Dispatch(Panicked, None);
      }
      if req.authToken != serverConnectionConfigs.value.authToken {
        return Dispatch(Returned(Reply(None, Some(AuthFailure))), None);
      }
      if req.hint.None? {
        return Dispatch(Panicked, None);
      }
      var displayHint := req.hint.value;
      var invoked := None;
      if mashupApiHandler.Some? {
        invoked := Some(CalledOnDisplayChange(displayHint));
      }
      d := Dispatch(Returned(Reply(Some(displayHint), None)), invoked);
    }
  }

  /**
   * A session as the host drives it: handshake with the bootstrap token,
   * one delegated call with the caller token, one with the bootstrap token,
   * then shutdown.
   */
  method HostSession(handler: ApiHandler, bundle: ElementStateBundle)
  {
    var bootstrap := ConnectionConfigs("H1", "", "localhost", 8080);
    var c := new MashupClient(bootstrap, true, Some(handler));
    var env := HandshakeEnv(CertParsed, Dialed, "S1");
    var r := c.CollaborateInit(ConnectionConfigs("H1", "C1", "host", 9090), env);
    assert r == Returned(Reply(Some(ConnectionConfigs("S1", "", "localhost", 8080)), None));

    var d := c.TweakStates(bundle.(authToken := "C1"));
    assert d.invoked == Some(CalledTweakStates(bundle.(authToken := "C1")));
    d := c.TweakStates(bundle.(authToken := "H1"));
    assert d == Dispatch(Returned(Reply(None, Some(AuthFailure))), None);
    d := c.TweakStates(bundle.(authToken := "S1"));
    assert d == Dispatch(Returned(Reply(None, Some(AuthFailure))), None);

    var ack := c.Shutdown(MashupEmpty("C1"));
    assert ack == Returned(Reply(Some(MashupEmpty("")), None));
    assert c.shutdownScheduled;
  }
}
