/**
 * Sequences of RPC calls served one after another, and what holds of the
 * store at the end of any such sequence: who can set the session
 * credential, which calls reach the handler, what a minted client config
 * always looks like, and that neither an established session nor a
 * scheduled shutdown is ever undone.
 *
 * A panicking call ends the real process; `Run` keeps applying calls after
 * one, so every property proved here of all runs also holds of the runs
 * that stop at the first panic.
 */
module Trace {
  import opened Messages
  import opened Session

  /**
   * One call into the endpoint: an inbound RPC with its request (and, for the
   * handshake, what the libraries answer), or the local `InitDialOptions`.
   */
  datatype Call =
    | CollaborateInitCall(handshakeReq: ConnectionConfigs, env: HandshakeEnv)
    | ShutdownCall(shutdownReq: MashupEmpty)
    | GetElementsCall(getReq: MashupEmpty)
    | TweakStatesCall(tweakReq: ElementStateBundle)
    | TweakStatesByMotivCall(motivReq: Motiv)
    | UpsertElementsCall(upsertReq: DetailedElementBundle)
    | OnDisplayChangeCall(displayReq: DisplayBundle)
    | InitDialOptionsCall(option: DialOption)

  /** The new store after one call; the delegated calls only read it. */
  function Step(s: Store, c: Call): Store
  {
    match c
    case CollaborateInitCall(req, env) => CollaborateInit(s, req, env).0
    case ShutdownCall(req) => Shutdown(s, req).0
    case InitDialOptionsCall(option) => InitDialOptions(s, option)
    case _ => s
  }

  /** The handler invocation a call makes, if any. */
  function Invocation(s: Store, c: Call): Option<HandlerCall>
  {
    match c
    case GetElementsCall(req) => GetElements(s, req).invoked
    case TweakStatesCall(req) => TweakStates(s, req).invoked
    case TweakStatesByMotivCall(req) => TweakStatesByMotiv(s, req).invoked
    case UpsertElementsCall(req) => UpsertElements(s, req).invoked
    case OnDisplayChangeCall(req) => OnDisplayChange(s, req).invoked
    case _ => None
  }

  /** The credential a guarded call presents. */
  function Token(c: Call): string
  {
    match c
    case CollaborateInitCall(req, _) => req.authToken
    case ShutdownCall(req) => req.authToken
    case GetElementsCall(req) => req.authToken
    case TweakStatesCall(req) => req.authToken
    case TweakStatesByMotivCall(req) => req.authToken
    case UpsertElementsCall(req) => req.authToken
    case OnDisplayChangeCall(req) => req.authToken
    case InitDialOptionsCall(_) => ""
  }

  predicate IsGuarded(c: Call)
  {
    !c.CollaborateInitCall? && !c.InitDialOptionsCall?
  }

  /** The store after serving the calls of `t` in order. */
  function Run(s: Store, t: seq<Call>): Store
    decreases |t|
  {
    if t == [] then s else Step(Run(s, t[..|t| - 1]), t[|t| - 1])
  }

  /** A handshake call that passes the bootstrap check of `s`. */
  predicate AcceptedHandshake(s: Store, c: Call)
  {
    c.CollaborateInitCall? && c.handshakeReq.authToken == s.handshake.authToken
  }

  /** A handshake call that goes through every step in `s`. */
  predicate SuccessfulHandshake(s: Store, c: Call)
  {
    AcceptedHandshake(s, c) && s.certPresent && c.env.cert.CertParsed? && c.env.dial.Dialed?
  }

  /** Reference definition: the session config is written by the latest accepted handshake. */
  function LastSession(s: Store, t: seq<Call>): Option<ConnectionConfigs>
    decreases |t|
  {
    if t == [] then s.server
    else if AcceptedHandshake(s, t[|t| - 1]) then
      var req := t[|t| - 1].handshakeReq;
      Some(ConnectionConfigs(req.callerToken, "", req.server, req.port))
    else LastSession(s, t[..|t| - 1])
  }

  /** Reference definition: the client config is minted by the latest successful handshake. */
  function LastMinted(s: Store, t: seq<Call>): Option<ConnectionConfigs>
    decreases |t|
  {
    if t == [] then s.client
    else if SuccessfulHandshake(s, t[|t| - 1]) then
      Some(ConnectionConfigs(t[|t| - 1].env.freshToken, "", s.handshake.server, s.handshake.port))
    else LastMinted(s, t[..|t| - 1])
  }

  /**
   * What every reachable store satisfies: a client config exists exactly
   * when a handshake has completed, it then names the bootstrap address,
   * and a session config and a reverse client exist beside it.
   */
  predicate Consistent(s: Store)
  {
    && s.completionSignals == s.signalInits
    && (s.client.Some? <==> s.signalInits > 0)
    && (s.reverseClient.Some? <==> s.client.Some?)
    && (s.client.Some? ==>
          && s.server.Some?
          && s.client.value.callerToken == ""
          && s.client.value.server == s.handshake.server
          && s.client.value.port == s.handshake.port)
  }

  lemma InitialConsistent(handshake: ConnectionConfigs, certPresent: bool, handler: Option<ApiHandler>)
    ensures Consistent(Initial(handshake, certPresent, handler))
    ensures Initial(handshake, certPresent, handler).server.None?
  {
  }

  /** Once a handshake has completed, no guarded call can hit the nil session config. */
  lemma MintedMeansNoNilSession(s: Store, token: string)
    requires Consistent(s) && s.client.Some?
    ensures Guard(s, token) != Some(NoSession)
    ensures Authorized(s, token) <==> token == GetServerAuthToken(s)
  {
  }

  lemma StepKeepsConsistent(s: Store, c: Call)
    requires Consistent(s)
    ensures Consistent(Step(s, c))
  {
  }

  /** The handler is reached only through the guard, and then only when one is bound. */
  lemma HandlerOnlyBehindGuard(s: Store, c: Call)
    ensures Invocation(s, c).Some? ==> IsGuarded(c) && Authorized(s, Token(c)) && s.handler.Some?
    ensures IsGuarded(c) && !Authorized(s, Token(c)) ==> Invocation(s, c).None? && Step(s, c) == s
  {
  }

  lemma {:induction false} RunKeepsBootstrap(s: Store, t: seq<Call>)
    ensures Run(s, t).handshake == s.handshake
    ensures Run(s, t).certPresent == s.certPresent
    ensures Run(s, t).handler == s.handler
    decreases |t|
  {
    if t != [] {
      RunKeepsBootstrap(s, t[..|t| - 1]);
    }
  }

  lemma {:induction false} RunKeepsConsistent(s: Store, t: seq<Call>)
    requires Consistent(s)
    ensures Consistent(Run(s, t))
    decreases |t|
  {
    if t != [] {
      RunKeepsConsistent(s, t[..|t| - 1]);
      StepKeepsConsistent(Run(s, t[..|t| - 1]), t[|t| - 1]);
    }
  }

  /** The session config after any run is the one the latest accepted handshake wrote. */
  lemma {:induction false} SessionIsLastAcceptedHandshake(s: Store, t: seq<Call>)
    ensures Run(s, t).server == LastSession(s, t)
    decreases |t|
  {
    if t != [] {
      SessionIsLastAcceptedHandshake(s, t[..|t| - 1]);
      RunKeepsBootstrap(s, t[..|t| - 1]);
    }
  }

  /** The client config after any run is the one the latest successful handshake minted. */
  lemma {:induction false} ClientIsLastMinted(s: Store, t: seq<Call>)
    ensures Run(s, t).client == LastMinted(s, t)
    decreases |t|
  {
    if t != [] {
      ClientIsLastMinted(s, t[..|t| - 1]);
      RunKeepsBootstrap(s, t[..|t| - 1]);
    }
  }

  /**
   * After any run, a guarded call is admitted exactly with the credential of
   * the latest accepted handshake, which is that request's caller token.
   */
  lemma AuthorizedAfterRun(s: Store, t: seq<Call>, token: string)
    ensures Authorized(Run(s, t), token) <==>
      LastSession(s, t).Some? && token == LastSession(s, t).value.authToken
  {
    SessionIsLastAcceptedHandshake(s, t);
  }

  /** Only a call presenting the bootstrap token can change the session config. */
  lemma {:induction false} OnlyBootstrapHolderSetsSession(s: Store, t: seq<Call>)
    ensures Run(s, t).server != s.server ==> exists i :: 0 <= i < |t| && AcceptedHandshake(s, t[i])
    decreases |t|
  {
    if t != [] {
      var p := t[..|t| - 1];
      OnlyBootstrapHolderSetsSession(s, p);
      RunKeepsBootstrap(s, p);
      if Run(s, t).server != s.server {
        if Run(s, p).server != s.server {
          var i :| 0 <= i < |p| && AcceptedHandshake(s, p[i]);
          assert t[i] == p[i];
        } else {
          assert AcceptedHandshake(s, t[|t| - 1]);
        }
      }
    }
  }

  /** There is no transition back to an unestablished session. */
  lemma {:induction false} EstablishedIsNeverLost(s: Store, t: seq<Call>)
    requires s.server.Some?
    ensures Run(s, t).server.Some?
    decreases |t|
  {
    if t != [] {
      EstablishedIsNeverLost(s, t[..|t| - 1]);
    }
  }

  /** A scheduled shutdown cannot be withdrawn. */
  lemma {:induction false} ShutdownIsFinal(s: Store, t: seq<Call>)
    requires s.shutdownScheduled
    ensures Run(s, t).shutdownScheduled
    decreases |t|
  {
    if t != [] {
      ShutdownIsFinal(s, t[..|t| - 1]);
    }
  }

  /**
   * Without a handshake in between, the session config and the handler
   * binding stay the same, so GetElements takes the same guard decision and
   * reaches the same handler. The answers are equal because the handler is
   * modelled as stateless.
   */
  lemma {:induction false} GetElementsStableWithoutHandshake(s: Store, t: seq<Call>, req: MashupEmpty)
    requires forall i :: 0 <= i < |t| ==> !t[i].CollaborateInitCall?
    ensures Run(s, t).server == s.server && Run(s, t).handler == s.handler
    ensures GetElements(Run(s, t), req) == GetElements(s, req)
    decreases |t|
  {
    if t != [] {
      GetElementsStableWithoutHandshake(s, t[..|t| - 1], req);
      assert !t[|t| - 1].CollaborateInitCall?;
    }
  }

  /**
   * After a successful handshake the next guarded call is admitted exactly
   * with the caller token of the handshake request; the token handed back to
   * the caller is admitted only if it happens to equal that caller token.
   */
  lemma HandshakeThenGuardedCall(s: Store, req: ConnectionConfigs, env: HandshakeEnv, token: string)
    requires SuccessfulHandshake(s, CollaborateInitCall(req, env))
    ensures Authorized(CollaborateInit(s, req, env).0, token) <==> token == req.callerToken
    ensures CollaborateInit(s, req, env).1.reply.value.value.authToken == env.freshToken
    ensures Authorized(CollaborateInit(s, req, env).0, env.freshToken) <==> env.freshToken == req.callerToken
    ensures Authorized(CollaborateInit(s, req, env).0, req.authToken) <==> req.authToken == req.callerToken
  {
  }
}
