# Mashup client endpoint: a Dafny model

This project models the RPC endpoint that a mashup process serves to its host
application (`MashupClient` in `mashupsdk/client/apiimpl.go`). The endpoint is
a small credential state machine:

- `CollaborateInit` is the handshake. It checks the host's bootstrap token and
  records the host's own token and address as the session config. It then
  loads the certificate, dials a reverse client back to the host, and mints a
  client config that it returns.
- `Shutdown`, `GetElements`, `TweakStates`, `TweakStatesByMotiv`,
  `UpsertElements` and `OnDisplayChange` are guarded calls. Each compares the
  token it is given with the session config's token. If they match, the five
  delegated calls go to the bound capability handler, when there is one, and
  `Shutdown` schedules the process exit.
- `GetServerAuthToken` reads the session token. `InitDialOptions` installs the
  dial option used for the reverse client.

Files:

- `messages.dfy` (module `Messages`): the wire values. These are the
  connection configs, the request and reply messages, the errors with their
  fixed texts, Go's `(result, error)` pair (`Reply`), and an `Outcome` that is
  either a returned pair or a panic. It also holds the capability handler
  (`ApiHandler`), modelled as functions of the arguments it is passed, and the
  record of a handler invocation (`HandlerCall`, `Dispatch`).
- `session.dfy` (module `Session`): the package state as one value, `Store`.
  It has one function per method of the endpoint. The state-changing ones
  (`CollaborateInit`, `Shutdown`, `InitDialOptions`) give the new store, and
  the first two also the reply. The five delegated ones give the reply and the
  handler call they make (`Dispatch`). `GetServerAuthToken` gives the token.
  Each function's contract states the branches the Go code takes.
- `trace.dfy` (module `Trace`): sequences of calls served one after another
  (`Run`), with reference definitions of what the session and client configs
  must be after any run. Induction lemmas connect `Run` to those definitions
  and to the invariant `Consistent`.
- `client.dfy` (module `Client`): the class `MashupClient`. Its fields are the
  package-level variables (`handshakeConnectionConfigs`,
  `serverConnectionConfigs`, `clientConnectionConfigs`, the certificate,
  `mashupContext.Client`, `clientDialOptions`) and the struct's
  `mashupApiHandler`. Most of these vars are declared in files outside this
  model; the fields stand in for them. Each method is proved to do what the
  `Session` function of the same name says. `Valid()` is `Consistent` of the
  fields. `HostSession` is a client of the class: it runs a handshake, guarded
  calls and a shutdown.

External steps are inputs to `CollaborateInit`, given as a `HandshakeEnv`:

- whether PEM decoding finds a block;
- whether x509 parsing succeeds, and its error text when it does not;
- whether dialling succeeds, and its error text when it does not;
- the token that `GenAuthToken` returns.

The handler's replies are whatever its functions return.

Three nil dereferences in the Go code are kept, as the outcome `Panicked`:

- A guarded call made before any handshake reads `serverConnectionConfigs`,
  which is still nil.
- `pem.Decode` finds no block, and line 73 then reads the nil block.
- A display bundle without a hint is logged at line 183.

Behaviour of the code that a reader might not expect:

- The code authorizes delegated calls with the request's `CallerToken`
  (lines 62-66), not with the token it mints and returns (lines 107-111);
  this endpoint never checks the minted token. `Trace.HandshakeThenGuardedCall`
  states this:
  - the returned token passes the guard only if it equals the caller token;
  - the bootstrap token passes the guard exactly when the caller reused it as
    its caller token.
- The code writes the session config (lines 62-66) before the certificate
  and dial steps (lines 68-89), so a handshake that fails after the bootstrap
  check still replaces it. The `Session.CollaborateInit` contract states this.
- Nothing in the code makes the minted token differ from the bootstrap token,
  and the model does not claim it.

## Model

| member | source | states |
|---|---|---|
| `Session.GetServerAuthToken` | mashupsdk/client/apiimpl.go:31-37 | "" with no session config, otherwise its token; any token the guard admits equals it |
| `Client.MashupClient.GetServerAuthToken` | mashupsdk/client/apiimpl.go:31-37 | the method returns the session token as `Session.GetServerAuthToken` defines it, and changes nothing |
| `Session.Guard` | mashupsdk/client/apiimpl.go:42-44 | the check lets a call on exactly when a session config exists and the presented token equals its token; it refuses with `NoSession` (which the call turns into a panic) exactly when there is no session config, otherwise with `WrongToken` ("Auth failure") |
| `Session.Shutdown` | mashupsdk/client/apiimpl.go:40-53 | a rejected token leaves the store unchanged and returns the guard's outcome; an accepted one returns an empty ack and schedules shutdown, changing nothing else |
| `Client.MashupClient.Shutdown` | mashupsdk/client/apiimpl.go:40-53 | the fields after the call and the reply are those of `Session.Shutdown`; the invariant is kept |
| `Session.CollaborateInit` | mashupsdk/client/apiimpl.go:57-115 | a bad bootstrap token gives "auth failure" and no change; a good one stores {caller token, request server, request port} as the session config even if a later step fails; a missing certificate gives "cert initialization failure"; an undecodable certificate panics; a certificate the parser rejects, or a failed dial, returns nil with that library's own error; success exactly when the bootstrap check passes, the certificate exists and parses, and the dial succeeds; a failed step changes nothing but the session config; on success the returned config is the stored client config {fresh token, bootstrap server, bootstrap port}, the reverse client targets the request's address, and one signal-handler init and one completion signal are recorded; the bootstrap config, certificate, handler, dial option and shutdown flag never change |
| `Client.MashupClient.CollaborateInit` | mashupsdk/client/apiimpl.go:57-115 | the fields after the call and the reply are those of `Session.CollaborateInit`, step by step on the fields; the invariant is kept |
| `Session.GetElements` | mashupsdk/client/apiimpl.go:118-130 | a rejected token gives the guard's outcome without invoking the handler; authorized with a handler, it returns exactly the handler's (result, error) pair and records one invocation; with no handler, (nil, nil) and no invocation |
| `Client.MashupClient.GetElements` | mashupsdk/client/apiimpl.go:118-130 | the method's result is that of `Session.GetElements` on the current fields, and nothing changes |
| `Session.TweakStates` | mashupsdk/client/apiimpl.go:132-145 | a rejected token gives the guard's outcome without invoking the handler; authorized with a handler, it returns exactly the handler's pair for the same request, which the handler receives; with no handler, (nil, nil) |
| `Client.MashupClient.TweakStates` | mashupsdk/client/apiimpl.go:132-145 | the method's result is that of `Session.TweakStates`, and nothing changes |
| `Session.TweakStatesByMotiv` | mashupsdk/client/apiimpl.go:147-160 | a rejected token gives the guard's outcome without invoking the handler; authorized with a handler, it returns exactly the handler's pair for the same motive; with no handler, (nil, nil) |
| `Client.MashupClient.TweakStatesByMotiv` | mashupsdk/client/apiimpl.go:147-160 | the method's result is that of `Session.TweakStatesByMotiv`, and nothing changes |
| `Session.UpsertElements` | mashupsdk/client/apiimpl.go:162-174 | a rejected token gives the guard's outcome without invoking the handler; authorized with a handler, it returns exactly the handler's pair for the same bundle; with no handler, (nil, nil) |
| `Client.MashupClient.UpsertElements` | mashupsdk/client/apiimpl.go:162-174 | the method's result is that of `Session.UpsertElements`, and nothing changes |
| `Session.OnDisplayChange` | mashupsdk/client/apiimpl.go:176-191 | a rejected token gives the guard's outcome without invoking the handler; authorized, it returns the request's hint with no error, and invokes the handler with that hint exactly when one is bound; a missing hint panics |
| `Client.MashupClient.OnDisplayChange` | mashupsdk/client/apiimpl.go:176-191 | the method's result is that of `Session.OnDisplayChange`, and nothing changes |
| `Session.InitDialOptions` | mashupsdk/client/apiimpl.go:27-29 | the dial option becomes the given one and nothing else changes |
| `Client.MashupClient.InitDialOptions` | mashupsdk/client/apiimpl.go:27-29 | the fields after the call are those of `Session.InitDialOptions` |
| `Client.MashupClient.constructor` | mashupsdk/client/apiimpl.go:20-25 | a new endpoint has the given bootstrap config, certificate and handler, the empty dial option, no session, client config or reverse client, and satisfies the invariant |
| `Trace.InitialConsistent` | mashupsdk/client/apiimpl.go:20 | the store before any handshake satisfies `Consistent` and has no session config |
| `Messages.FixedTextsDiffer` | mashupsdk/client/apiimpl.go:43-70 | the texts "auth failure", "Auth failure" and "cert initialization failure" are pairwise different, so the three failures can be told apart |
| `Trace.MintedMeansNoNilSession` | mashupsdk/client/apiimpl.go:42-44 | in a consistent store that holds a client config, no guarded call panics on a nil session config, and the guard admits exactly the token `GetServerAuthToken` returns |
| `Trace.StepKeepsConsistent` | mashupsdk/client/apiimpl.go:97-111 | every call keeps `Consistent`: when a client config exists, a session config and a reverse client exist, the client config names the bootstrap server and port, and the completion signals equal the signal-handler inits |
| `Trace.RunKeepsConsistent` | mashupsdk/client/apiimpl.go:97-111 | `Consistent` holds after any sequence of calls that starts from a consistent store |
| `Trace.HandlerOnlyBehindGuard` | mashupsdk/client/apiimpl.go:118-191 | the handler is invoked only by a guarded call whose token the guard admits, and only when bound; a rejected guarded call invokes nothing and leaves the store unchanged |
| `Trace.RunKeepsBootstrap` | mashupsdk/client/apiimpl.go:59-66 | no sequence of calls changes the bootstrap config, the certificate or the handler |
| `Trace.SessionIsLastAcceptedHandshake` | mashupsdk/client/apiimpl.go:59-66 | after any sequence of calls, the session config is the one written by the latest handshake that passed the bootstrap check, whatever became of that handshake |
| `Trace.ClientIsLastMinted` | mashupsdk/client/apiimpl.go:107-111 | after any sequence of calls, the client config is the one minted by the latest successful handshake |
| `Trace.AuthorizedAfterRun` | mashupsdk/client/apiimpl.go:62-66 | after any sequence of calls, a guarded call is admitted exactly with the token stored by the latest accepted handshake |
| `Trace.OnlyBootstrapHolderSetsSession` | mashupsdk/client/apiimpl.go:59-66 | if the session config changed over a run, some call in it was a handshake presenting the bootstrap token |
| `Trace.EstablishedIsNeverLost` | mashupsdk/client/apiimpl.go:62-66 | once a session config exists, no sequence of calls removes it |
| `Trace.ShutdownIsFinal` | mashupsdk/client/apiimpl.go:45-49 | once shutdown is scheduled, it stays scheduled after any further calls |
| `Trace.GetElementsStableWithoutHandshake` | mashupsdk/client/apiimpl.go:118-130 | over calls that include no handshake, the session config and handler binding stay the same, so GetElements takes the same guard decision and reaches the same handler |
| `Trace.HandshakeThenGuardedCall` | mashupsdk/client/apiimpl.go:62-114 | after a successful handshake, a guarded call is admitted exactly with the request's caller token; the returned token is the fresh one and is admitted only if it equals the caller token; the bootstrap token is admitted only if the caller reused it |

## Left out

- gRPC transport, TLS configuration (including `InsecureSkipVerify`), PEM decoding and x509 parsing are foreign library calls. Their answers are inputs (`HandshakeEnv`), and the reverse client records only its target address and dial option.
- The package globals `handshakeConnectionConfigs` (line 59), `insecure` (lines 83, 85) and `mashupContext` (line 97) are declared outside this file. The model assumes the bootstrap code set all three before any call, so their dereferences never panic here.
- `GenAuthToken` is not part of this model; its token is an input, so no claim is made that it differs from the bootstrap or caller token.
- The goroutine that sleeps 100 ms and then calls `os.Exit(-1)` is concurrency and process exit. It is the flag `shutdownScheduled`.
- The fire-and-forget send on `handshakeCompleteChan` and `initSignalProcessor` are concurrency and signal handling. Each successful handshake adds one to a counter for each.
- A panic ends the process in Go. `Trace.Run` applies calls after a panic too, so its lemmas cover every run that stops at the first panic.
- Logging, `context.Context` parameters, protobuf internals and the `UnimplementedMashupServerServer` embedding have no effect on the modelled state. Element bundles, motives and display hints are simple records.
- Concurrent handshakes and delegated calls racing on the shared configs are out of scope. Only calls served one at a time are modelled.
- Trace.GetElementsStableWithoutHandshake: the equal GetElements answers rest on the handler being modelled as stateless. A real handler may answer differently after an intervening UpsertElements or TweakStates; the endpoint state it reads is what the lemma shows unchanged.
- The handler is modelled as pure functions of its arguments. Its own state and its side effects (the GUI resize its OnDisplayChange performs) are outside the endpoint. Only each invocation and its arguments are recorded.
- Go's `int(Port)` conversion in the dial target is the identity on 64-bit platforms. Ports are unbounded integers here.
