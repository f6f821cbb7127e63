# MuxDeck engine: a verified model

MuxDeck turns a phone into a grid of desktop buttons. Its engine, a Rust daemon, authenticates
phones over WebSockets, keeps a registry of paired devices and a store of deck layouts, pushes
events, and injects keys and text into the host. This project models that engine in Dafny and
proves what it is relied on for.

- **The engine as a transition system.** `Session`, `Engine`, `Registry`, `ProfileStore` and
  `Disk` are classes changed in place, each method proved against a function of the old state
  (`Session.dfy`, `Engine.dfy`, `Registry.dfy`, `Store.dfy`, `Persistence.dfy`). The same functions
  make up the step of a system of any number of sockets (`System.dfy`), and `Runs.dfy` proves
  safety over all of its runs: replay, role provenance, pairing, the connected set. `WindowRuns.dfy`
  says when pairing windows end, `Delivery.dfy` who is sent which event, `LayoutRuns.dfy` that what
  was stored is what is read, and `Answers.dfy` what each op is answered and announces. `Locks.dfy`
  goes below that, one lock at a time.
- **Persistence.** A write is a sequence of visible disk images, and a crash may fall on any of
  them (`Persistence.dfy`); store and registry are instances.
- **Layout validation** (`Validator.dfy`), **key and text injection** (`Keys.dfy`,
  `TextInput.dfy`), **the pairing code** (`PairingCode.dfy`) and **the telemetry accumulator**
  (`Telemetry.dfy`).
- `Witnesses.dfy` holds concrete runs for the claims that turn out false.

## What is assumed

SHA-256, base64, Ed25519 point decoding and `verify_strict` are fields of a record `Crypto` of
function values, so every theorem holds for all choices of them. `Crypto.RoundTrips` (base64
decoding undoes encoding, section 4 of RFC 4648) and `Codec.RoundTrips` (JSON parsing undoes
serialising) are stated where they are needed. Nonces, pairing codes, clocks, the end of each file
write and the answers of handlers outside the model are inputs of a step (`World`). Replay claims
assume only that drawn nonces are pairwise distinct (`Runs.FreshNonces`). Runs start from a store
and a registry that keep their invariants; the default store does, and so does whatever either one
saved. A Rust `String` is modelled by its UTF-8 bytes, except in `TextInput.dfy`, where it is a
sequence of Unicode scalar values.

The run theorems take requests one at a time, in any order. `Locks.dfy` splits the handlers that
take several locks and states what remains true in between.

## Where code and documentation disagree

The model follows the code.

- `docs/PROTOCOL.md:347` says revoking closes any live socket of the device. It closes none
  (`Runs.RevokeClosesNothing`: a live socket afterwards if and only if one before), and
  `Witnesses.RevokedKeepsSocket` is a run. The id only leaves `connected` (`Runs.WhatDisconnects`);
  what does hold is that no further socket becomes Ready as it (`Runs.RevokedGainsNoSocket`).
- `server.rs:439-440` promises one device per pairing window. Taken one at a time this holds of
  answered successes (`Runs.OneSuccessPerWindow`), but not of registered devices when the registry
  cannot be written: `Runs.SecondDeviceAdmitted` gives the exact condition and
  `Witnesses.FailedWriteAdmitsTwo` a run. Between locks it fails outright: `Locks.LateCheckAdmits`
  is exact (a second request passes if and only if it read the window before the first closed it),
  `Locks.TwoSuccessesOverlap` says nothing else makes two successes, and `Witnesses.RaceAdmitsTwo`
  is a run.
- `dispatch.rs:74-75` says an unauthenticated socket cannot tell which ops exist. Names that are no
  request are answered `UNKNOWN_OP` and requests `NOT_AUTHENTICATED`, so it can; what it cannot
  tell is the role an op needs. `Sessions.AnswersBeforeAuth` is exact.
- `docs/PROTOCOL.md:143` lets an unauthenticated socket send `pair.*`; only `pair.request` goes
  through.

One limit rests on the transport. `input_dispatch.rs:30-32` puts a ceiling on every sequence, and the
64-bit sum behind it wraps (in a release build) exactly from 2^32 + 2 steps on
(`Keys.CeilingHoldsExactly`). A frame of that many steps has tens of gigabytes; `server.rs:200-206`
sets no message limit of its own, and the WebSocket library's, which is not part of this model,
keeps such a frame out if it is anywhere below that size.

## Model

| member | source | states |
|---|---|---|
| `Runs.AlwaysInv` | engine/crates/muxdeck-engine/src/server.rs:208-265 | In every state any run can reach: each id in `connected` belongs to a live socket Ready as that device, a Ready deck names its device, socket numbers are not reused, receivers never run past the bus, and the registry and store keep their own invariants. |
| `Runs.StepKeepsInv` | engine/crates/muxdeck-engine/src/server.rs:364-651 | One step of any kind (open, any frame with any outcome of its file write, receive, close, tick, announced event) keeps all of that, although `connected` is a plain set that revocations and unrelated closes also take from. |
| `Runs.ReadyForever` | engine/crates/muxdeck-engine/src/session.rs:147-160 | Once Ready, a socket's role and device never change for as long as it lives. |
| `Runs.ChallengeOrigin` | engine/crates/muxdeck-engine/src/session.rs:202-218 | A socket awaiting a signature received exactly that nonce from its own latest challenge and has awaited it ever since. |
| `Runs.NonceSpentOnce` | engine/crates/muxdeck-engine/src/session.rs:221-260 | With nonces drawn pairwise distinct, over every run and any interleaving: each accepted `session.auth` verified domain, that socket's latest nonce, its device id and this host's id under the key registered at that step, and no two accepted ones share a nonce or the bytes checked. |
| `Runs.AdminOrigin` | engine/crates/muxdeck-engine/src/session.rs:179-199 | A socket is Admin only if, earlier in the run, its own loopback peer presented exactly the admin token; it never has a device. |
| `Runs.DeckOrigin` | engine/crates/muxdeck-engine/src/session.rs:202-260 | A socket is Deck for `id` only if it was challenged as `id` and later signed that very nonce with the key registered for `id` at the signing step. |
| `Runs.AdminHandlersNeedToken` | engine/crates/muxdeck-engine/src/dispatch.rs:35-62 | Each of the ten ops reserved for the panel, listed by name, whenever it reaches its handler, was called by a socket whose loopback peer had presented the token earlier in the run. |
| `Runs.AdminEffectsNeedToken` | engine/crates/muxdeck-engine/src/server.rs:462-586 | The same read off effects alone: whichever step removes a device, opens a pairing window, closes one without a device having paired, or changes a stored layout came from such a socket. |
| `Runs.WindowOrigin` | engine/crates/muxdeck-engine/src/engine.rs:288-305 | The window standing now was opened by one admin `pair.begin` with a lifetime of 30 to 300 seconds and has stood unchanged since. |
| `Runs.OneSuccessPerWindow` | engine/crates/muxdeck-engine/src/server.rs:430-460 | Between any two `pair.request`s answered with success an admin opened a new window, and the later request carried that new window's code. |
| `WindowRuns.PairingEndsOnTime` | engine/crates/muxdeck-engine/src/pairing.rs:29-57 | Whenever a `pair.request` has any effect, a `pair.begin` had been answered with the very code it carries less than the seconds asked for (two minutes when none were) earlier, by the clock and by the ticks in between. |
| `WindowRuns.WindowHonoured` | engine/crates/muxdeck-engine/src/server.rs:430-460 | Until then, with the window untouched: a request with the code and a valid proof registers its key and is answered Ok with its id exactly if the registry was written; any other changes nothing. |
| `WindowRuns.WindowOver` | engine/crates/muxdeck-engine/src/engine.rs:299-305 | From that instant on, until another window is opened, every parseable request of a socket in its handshake is answered `PAIRING_CLOSED` and changes nothing. |
| `WindowRuns.BeginAnswers` | engine/crates/muxdeck-engine/src/server.rs:462-486 | `pair.begin` opens a window exactly for 30 to 300 seconds or none given; code, end on the clock and end on the wall clock are the ones answered. |
| `WindowRuns.ClockIsTicks` | engine/crates/muxdeck-engine/src/pairing.rs:55-57 | The clock moves by ticks and by nothing else. |
| `Runs.SecondDeviceAdmitted` | engine/crates/muxdeck-engine/src/server.rs:435-441 | Where "one device per window" fails with requests taken one at a time, exactly, over runs: after a first registration under a window nothing else touches, a later request the window would let through is let through if and only if the registry file could not be written for the first. |
| `Runs.TwoRegistrationsExplained` | engine/crates/muxdeck-engine/src/server.rs:430-441 | Of any two registrations in a run, the registry could not be written for the earlier one, or an admin opened the later one's window in between. |
| `Runs.PairProofReplay` | engine/crates/muxdeck-engine/src/pairing.rs:93-112 | Two successful pair requests check the same proof bytes if and only if they register the same key and their two windows, opened by two different steps, drew the same code. |
| `Runs.DeviceOrigin` | engine/crates/muxdeck-engine/src/pairing.rs:75-115 | Every registered device was there at load, or was registered by a `pair.request` that proved possession of exactly the stored key under the code of the window open at that step. |
| `Runs.OnlyRevokeUnpairs` | engine/crates/muxdeck-engine/src/server.rs:504-518 | A device leaves the registry only at an admin's `pair.revoke` naming it. |
| `Runs.RevokeClosesNothing` | engine/crates/muxdeck-engine/src/server.rs:504-518 | After a revocation there is a live socket for a device if and only if there was one before, for the revoked device and every other: so the documented promise holds exactly when the device had no Ready socket. |
| `Runs.RevokedGainsNoSocket` | engine/crates/muxdeck-engine/src/session.rs:221-260 | What revocation does give, over runs: while a device is out of the registry no socket becomes Ready as it; whatever is Ready as it then already was when it was revoked. |
| `Runs.ChainOfTrust` | engine/crates/muxdeck-engine/src/server.rs:381-486 | A socket Ready as a device the engine did not load with traces back, in order, to a token presented on loopback, a window opened by that admin socket, a pair request proving a key under that window's code, and this socket's own challenge signed with that same key. |
| `Runs.RegisteredKeyLoads` | engine/crates/muxdeck-engine/src/registry.rs:34-50 | The key a pair request proved is the key the entry it makes loads. |
| `Runs.WhatDisconnects` | engine/crates/muxdeck-engine/src/server.rs:258-263 | `connected` loses an id exactly when a socket naming it closes, Ready or only awaiting a signature, or when its revocation is saved. |
| `LayoutRuns.SetThenGet` | engine/crates/muxdeck-engine/src/server.rs:528-560 | After a `profile.set` is answered Ok, whatever happens in between, a `profile.get` of that id answers exactly the layout set, until the panel sets or deletes it again. |
| `LayoutRuns.DeleteThenGet` | engine/crates/muxdeck-engine/src/server.rs:528-586 | After a `profile.delete` is answered Ok, the layout is not found until it is set again. |
| `LayoutRuns.ActivateThenSignIn` | engine/crates/muxdeck-engine/src/server.rs:562-574 | After a `profile.activate` is answered Ok, every deck that signs in is told that layout, until another is activated or it is deleted. |
| `LayoutRuns.EditsReachDecks` | engine/crates/muxdeck-engine/src/server.rs:547-560 | The live loop: a layout edit answered Ok is the next event published, and a subscribed socket that comes to it no more than 64 behind is sent it. |
| `LayoutRuns.SettingAnswers` | engine/crates/muxdeck-engine/src/server.rs:547-560 | `profile.set` is refused exactly when a rule is broken; otherwise the layout is stored and the answer is Ok exactly if it was saved. |
| `LayoutRuns.DeletingAnswers` | engine/crates/muxdeck-engine/src/server.rs:576-586 | `profile.delete`: absent, last one, or removed; Ok exactly if saved. |
| `LayoutRuns.ActivatingAnswers` | engine/crates/muxdeck-engine/src/server.rs:562-574 | `profile.activate`, by either role: absent, or made active; Ok exactly if saved. |
| `Delivery.CursorStep` | engine/crates/muxdeck-engine/src/server.rs:230-246 | Every event a receiver passes was delivered, or the socket was not owed it (by its op and what the socket had asked for, not by the session's own filter), or it was lost to lag of more than 64; nothing is passed otherwise. |
| `Delivery.DeliveriesAreSubsequence` | engine/crates/muxdeck-engine/src/server.rs:82-103 | Two deliveries to one socket carry strictly increasing indices of one growing published sequence, each event unchanged since publication: no duplicate, no reordering. |
| `Delivery.DeliveredExactly` | engine/crates/muxdeck-engine/src/session.rs:107-119 | Over runs, with at most 64 unread: a signed-in socket is sent its next event if and only if, for a layout or telemetry event, it got the matching subscribe op through earlier; for news of devices and pairing, it is the panel; for the shutdown, always. The filter itself is not mentioned. |
| `Delivery.SubscribedMeans` | engine/crates/muxdeck-engine/src/server.rs:540-591 | A socket counts as subscribed if and only if it asked, signed in, earlier in the run; a subscription lasts as long as the socket. |
| `Delivery.PanelNewsNeedsToken` | engine/crates/muxdeck-engine/src/server.rs:57-69 | News of devices or pairing reaches no deck, only a peer that had presented the admin token. |
| `Delivery.AudiencesAreFaithful` | engine/crates/muxdeck-engine/src/server.rs:57-69 | Everything ever published is an event op carrying its own audience, so the fallback audience is never used. |
| `Systems.ChallengesAreIssued` | engine/crates/muxdeck-engine/src/session.rs:202-218 | A challenge is answered exactly for a registered device in its handshake, and carries the encoded nonce just drawn. |
| `Systems.AuthSession` | engine/crates/muxdeck-engine/src/server.rs:402-428 | `session.auth` is answered Ok if and only if it proves the awaited challenge, and only then makes the socket a deck. |
| `Systems.RouteSession` | engine/crates/muxdeck-engine/src/server.rs:364-651 | No frame of any op moves a session except by a challenge issued, a token presented or a challenge signed. |
| `Systems.PairRequestRegisters` | engine/crates/muxdeck-engine/src/server.rs:430-460 | A request that proved its key always registers that key in memory; it is answered Ok and closes the window exactly when the registry was also written. |
| `Systems.PairRequestRefused` | engine/crates/muxdeck-engine/src/pairing.rs:75-115 | A request that proves no key changes nothing in the engine and is answered with an error. |
| `Systems.RouteRegistry` | engine/crates/muxdeck-engine/src/server.rs:402-518 | Of all ops: every entry afterwards was there with the same key or was registered by this step, and an entry vanishes only by an admin's revoke naming it. |
| `Systems.RouteStore` | engine/crates/muxdeck-engine/src/server.rs:547-586 | Of all ops: the store stays valid, and what it stores changes only at an admin's `profile.set` or `profile.delete`. |
| `Systems.RouteWindow` | engine/crates/muxdeck-engine/src/server.rs:462-498 | A frame leaves the window alone, clears it, or is an admin opening a new one. |
| `Engines.AuthorizedIsRequest` | engine/crates/muxdeck-engine/src/server.rs:637-650 | Nothing that passes the capability check is an event, so the catch-all arm is never reached. |
| `Answers.VersionComesFirst` | engine/crates/muxdeck-engine/src/server.rs:341-346 | Any other version is refused before the op or payload is looked at, and changes nothing. |
| `Answers.GateComesSecond` | engine/crates/muxdeck-engine/src/server.rs:348-348 | A frame the gate refuses is answered with the gate's reason whatever its payload, and changes nothing. |
| `Answers.LayoutAnswers` | engine/crates/muxdeck-engine/src/server.rs:528-534 | `profile.get` answers the stored layout under its own id, or `NOT_FOUND`. |
| `Answers.PanelSeesAll` | engine/crates/muxdeck-engine/src/server.rs:500-502 | `pair.list_devices` answers every registered device once, as registered, with whether it is connected. |
| `Answers.SignInEffect` | engine/crates/muxdeck-engine/src/server.rs:402-428 | An accepted signature marks the device connected, stamps its entry, and the answer names the active layout. |
| `Answers.PanelSignsIn` | engine/crates/muxdeck-engine/src/session.rs:179-199 | The panel's sign-in changes nothing in the engine and is told the active layout. |
| `Answers.RevokingAnswers` | engine/crates/muxdeck-engine/src/server.rs:504-518 | Every outcome of `pair.revoke`: malformed, unknown, saved, and not saved. |
| `Answers.FrameAnnounces` | engine/crates/muxdeck-engine/src/server.rs:420-586 | A frame announces exactly the events listed for its op, in that order, when it is answered Ok, and nothing when it is not. |
| `Answers.CloseAnnounces` | engine/crates/muxdeck-engine/src/server.rs:258-263 | A closing socket announces a change of devices exactly if it named one. |
| `Engines.FrameSaves` | engine/crates/muxdeck-engine/src/server.rs:402-586 | For every frame: registry and store change by at most one call of theirs, and an Ok answer to a frame that made one means its change is on disk; only a sign-in's time stamp may be lost. |
| `Engines.Engine.HandleOp` | engine/crates/muxdeck-engine/src/server.rs:380-650 | The arms of the dispatcher on the real objects: new state, session and answer of every op, what either file shows meanwhile, and the arm marked unreachable and the event arm proved dead where they stand. |
| `Engines.Engine.HandleEnvelope` | engine/crates/muxdeck-engine/src/server.rs:364-378 | Version and capability are checked again, before the payload, with the same result as in `route`; a refused frame changes neither state nor files. |
| `Engines.Engine.HandleInput` | engine/crates/muxdeck-engine/src/server.rs:671-688 | The second arm marked unreachable is never reached: only the five input ops get here. |
| `Engines.Engine.HandleText` | engine/crates/muxdeck-engine/src/server.rs:301-362 | An unparseable frame is not answered and changes nothing; a parseable one gets exactly one reply with its own id and op; engine, session and both files change as the run theorems say. |
| `Engines.Engine.HandlePairRequest` | engine/crates/muxdeck-engine/src/server.rs:430-460 | New engine state and answer of `pair.request`, early returns included, and the registry file: written exactly when the request proved its key, through the specified images. |
| `Engines.Engine.HandleHandshake` | engine/crates/muxdeck-engine/src/server.rs:381-428 | The handshake ops on the real session and registry objects: who is marked connected, stamped and announced. |
| `Engines.Engine.HandlePairRevoke` | engine/crates/muxdeck-engine/src/server.rs:504-518 | Revocation: the entry leaves memory and the file is written whenever it was there; a failed write keeps the id in `connected` and answers an error. |
| `Engines.Engine.Disconnect` | engine/crates/muxdeck-engine/src/server.rs:258-264 | What a closing socket takes from `connected`, also when it was only awaiting a signature. |
| `Sessions.StoredCheckMatchesPress` | engine/crates/muxdeck-engine/src/store.rs:203-237 | For every op name, unknown ones included, and either role: a stored button's action is accepted exactly when a press by a Ready session of that role would be authorised, and exactly for the ops listed by name for that role. |
| `Sessions.DeckGate` | engine/crates/muxdeck-engine/src/dispatch.rs:26-112 | The gate for a deck over named ops: thirteen go through, ten are answered `NOT_AUTHORIZED`, handshake ops `BAD_REQUEST`, the rest `UNKNOWN_OP`. |
| `Sessions.AdminGate` | engine/crates/muxdeck-engine/src/dispatch.rs:26-112 | The gate for the panel over named ops: exactly those twenty-three go through. |
| `Sessions.AnswersBeforeAuth` | engine/crates/muxdeck-engine/src/dispatch.rs:76-112 | The gate before the handshake ends over named ops: exactly three go through; names that are no request are unknown; every other request is refused alike, whatever role it needs. |
| `Sessions.HelloGrants` | engine/crates/muxdeck-engine/src/session.rs:147-199 | `session.hello` makes a session Ready if and only if a loopback peer presents exactly the admin token and no device id; an error changes nothing. |
| `Sessions.HelloChallenges` | engine/crates/muxdeck-engine/src/session.rs:147-218 | A challenge is sent if and only if the device alone is named, its registered key loads and entropy was available; it then carries the drawn nonce, which the session awaits. |
| `Sessions.AuthGrants` | engine/crates/muxdeck-engine/src/session.rs:221-260 | `session.auth` succeeds if and only if the signature verifies over this session's own challenge under the key registered now; otherwise the session is unchanged. |
| `Sessions.HelloAnswers` | engine/crates/muxdeck-engine/src/session.rs:147-218 | Every answer of `session.hello`, by which check fails first, and what a granted panel is told. |
| `Sessions.AuthAnswers` | engine/crates/muxdeck-engine/src/session.rs:221-260 | Every answer of `session.auth`, by which check fails first, and what a granted deck is told. |
| `Sessions.Session.HandleHello` | engine/crates/muxdeck-engine/src/session.rs:147-218 | The method on the mutable session computes that transition, reading the live registry. |
| `Sessions.Session.HandleAuth` | engine/crates/muxdeck-engine/src/session.rs:221-260 | Likewise for `session.auth`, through the message builder. |
| `ConstantTime.DecidesEquality` | engine/crates/muxdeck-engine/src/session.rs:310-315 | The OR of XORed bytes is zero, and the lengths agree, exactly when the two byte strings are equal. |
| `ConstantTime.DifferencesZero` | engine/crates/muxdeck-engine/src/session.rs:310-315 | From any starting accumulator, bit by bit: once a bit is set it stays set, and only equal bytes leave it clear. |
| `ConstantTime.DifferencesStayBytes` | engine/crates/muxdeck-engine/src/session.rs:314-314 | The accumulator never leaves eight bits. |
| `Bits.BitByBit` | engine/crates/muxdeck-engine/src/session.rs:314-314 | The two operators on numbers are XOR and OR: each bit of the result follows its truth table. |
| `Signing.SessionMessageInjective` | engine/crates/muxdeck-core/src/signing.rs:33-41 | Though nothing separates the fields, equal session messages of hosts with ids of one length have equal nonce, device and host. |
| `Signing.PairMessageInjective` | engine/crates/muxdeck-core/src/signing.rs:49-55 | Code and key are recovered from the proof message, whatever the code's length. |
| `Signing.DomainsNeverMeet` | engine/crates/muxdeck-core/src/signing.rs:13-55 | No session message equals any pair-proof message, for all fields. |
| `Signing.SessionMessageLayout` | engine/crates/muxdeck-core/src/signing.rs:25-41 | Every field of the session message lies at its documented offset, after the documented name. |
| `Pairing.VerifiedMeansProved` | engine/crates/muxdeck-engine/src/pairing.rs:75-115 | A request is let through with a key if and only if the clock is before the window's opening plus its length, the code is its code, and the proof verifies over the window's code and that very key. |
| `Pairing.PairRefusals` | engine/crates/muxdeck-engine/src/pairing.rs:75-137 | Every verdict in the order of the checks, the window's end, the lengths and the signed bytes written out: `PAIRING_CLOSED`, `BAD_CODE`, `BAD_REQUEST`, `BAD_SIGNATURE`, or the key. |
| `Pairing.CheckPairRequest` | engine/crates/muxdeck-engine/src/pairing.rs:75-115 | The checks in the source's order, the message through its builder, give that same verdict. |
| `Locks.ConnectedIsLive` | engine/crates/muxdeck-engine/src/engine.rs:273-285 | One lock at a time, at every point of every interleaving: each id in `connected` belongs to a socket task that has not finished and is Ready as that device. |
| `Locks.TwoSuccessesOverlap` | engine/crates/muxdeck-engine/src/server.rs:430-441 | Of two successful pair requests in any interleaving, either the later one read the window before the earlier one closed it, or an admin opened a new window in between. |
| `Locks.LateCheckAdmits` | engine/crates/muxdeck-engine/src/server.rs:430-441 | The race, exactly: after a window was closed by a success and none was opened since, a request it would let through that read it since it was opened is let through if and only if it read it before the close. |
| `Locks.PairIsOneHandler` | engine/crates/muxdeck-engine/src/server.rs:430-441 | A pair request whose locks are taken without interruption does to registry, window and connected set what the handler of the run model does: the two models are one engine. |
| `Locks.SignInIsOneHandler` | engine/crates/muxdeck-engine/src/server.rs:402-423 | The same for a sign-in, its session included. |
| `Locks.RevokeIsOneHandler` | engine/crates/muxdeck-engine/src/server.rs:504-513 | The same for a revocation. |
| `Locks.SmallStepsAreHandlers` | engine/crates/muxdeck-engine/src/server.rs:381-498 | The same for `session.hello`, `pair.begin`, `pair.cancel` and a socket's end. |
| `Witnesses.RaceAdmitsTwo` | engine/crates/muxdeck-engine/src/server.rs:430-441 | Such an overlap happens: a concrete run of thirteen lock steps, one window, two devices registered. |
| `Witnesses.FailedWriteAdmitsTwo` | engine/crates/muxdeck-engine/src/registry.rs:107-118 | A concrete run, requests one at a time, in which a failed registry write lets one window register two devices. |
| `Witnesses.FailedWriteIsTheCondition` | engine/crates/muxdeck-engine/src/server.rs:435-441 | That run meets the exact condition of `Runs.SecondDeviceAdmitted`: both requests qualify and the second registers. |
| `Witnesses.RevokedKeepsSocket` | engine/crates/muxdeck-engine/src/server.rs:504-518 | A concrete run: a phone pairs, signs in, is revoked with the write saved, is gone from the registry, and its socket is still Ready as that device and gets its next op answered. |
| `Validator.Validate` | engine/crates/muxdeck-engine/src/store.rs:152-200 | The nested loops over three hash sets accept exactly the profiles that meet the order-free specification; a refusal names a rule really broken, at its place, with every rule checked before it met. |
| `Validator.PageFitsGrid` | engine/crates/muxdeck-engine/src/store.rs:171-185 | By pigeonhole, no page of an accepted profile has more buttons than its grid has cells. |
| `Validator.AdminPermitsMore` | engine/crates/muxdeck-engine/src/store.rs:218-224 | Whatever a deck could store an admin could store, so validity for Admin is the common invariant. |
| `ProfileStore.StoreStepKeepsOk` | engine/crates/muxdeck-engine/src/store.rs:103-140 | Set, delete and activate, refused or not and however their write ends: profiles non-empty, keyed by their own ids, all valid for Admin, `active` naming one of them. |
| `ProfileStore.StoreRunKeepsOk` | engine/crates/muxdeck-engine/src/store.rs:103-144 | The same over any sequence of calls. |
| `ProfileStore.DefaultIsOk` | engine/crates/muxdeck-engine/src/store.rs:26-368 | The default layout meets the validator's own rules, so the invariant holds from first run. |
| `ProfileStore.DefaultFillsGrid` | engine/crates/muxdeck-engine/src/store.rs:278-368 | The default layout is one page with a key combo in every cell of a five by three grid, and it is active. |
| `ProfileStore.FallbacksAreDead` | engine/crates/muxdeck-engine/src/store.rs:71-82 | In every such state neither fallback of `active` and `active_id` is taken. |
| `ProfileStore.ListNamesAll` | engine/crates/muxdeck-engine/src/store.rs:84-95 | `list` names every stored profile exactly once, with its name. |
| `ProfileStore.ListMarksOne` | engine/crates/muxdeck-engine/src/store.rs:84-95 | `list` marks exactly one entry active: the one `active` names. |
| `ProfileStore.DeleteMovesActive` | engine/crates/muxdeck-engine/src/store.rs:109-132 | A delete removes that profile only; `active` moves only if it named it, and then to the first remaining key in byte order. |
| `ProfileStore.SetStores` | engine/crates/muxdeck-engine/src/store.rs:103-107 | An accepted set stores exactly that profile under its id, new or not, and changes nothing else; a refused one changes nothing. |
| `ProfileStore.ActivateMoves` | engine/crates/muxdeck-engine/src/store.rs:134-140 | An accepted activation moves `active` to that id and changes nothing else. |
| `ProfileStore.StoreAnswers` | engine/crates/muxdeck-engine/src/store.rs:103-140 | When each operation is refused and with what; otherwise Ok exactly if saved. |
| `ProfileStore.Store.SetProfile` | engine/crates/muxdeck-engine/src/store.rs:103-107 | A valid profile replaces or adds its entry, an invalid one is refused; result, final disk and every intermediate disk image; memory changes before the write can fail; Ok means memory is on disk. |
| `ProfileStore.Store.DeleteProfile` | engine/crates/muxdeck-engine/src/store.rs:109-132 | The same of `delete`; a refusal touches neither memory nor disk. |
| `ProfileStore.Store.ActivateProfile` | engine/crates/muxdeck-engine/src/store.rs:134-140 | The same of `activate`. |
| `ProfileStore.Store.Load` | engine/crates/muxdeck-engine/src/store.rs:49-61 | An existing file is read and left alone, a malformed or unreadable one is an error and never the default, an absent one is created from the default before loading succeeds. |
| `ProfileStore.CrashedStoreReloads` | engine/crates/muxdeck-engine/src/store.rs:103-144 | After any calls with any write outcomes, stopped at any visible instant of any write, the store that loads next is the one held right after the last call answered Ok, or the one being saved, with its invariant. |
| `DeviceRegistry.RegistryStepKeepsOk` | engine/crates/muxdeck-engine/src/registry.rs:83-155 | Every entry stays keyed by its own id, which is the id derived from its stored key, and that key always loads back. |
| `DeviceRegistry.LookupFailsOnlyOnAbsent` | engine/crates/muxdeck-engine/src/registry.rs:127-135 | In such a registry `verifying_key` fails exactly on absent ids and only with `UNKNOWN_DEVICE`. |
| `DeviceRegistry.RepairingRefreshes` | engine/crates/muxdeck-engine/src/registry.rs:99-119 | Pairing a registered key again adds no entry, keeps the first pairing time and touches no other device. |
| `DeviceRegistry.PairingAdds` | engine/crates/muxdeck-engine/src/registry.rs:99-119 | Pairing a new key adds one entry whose every field is given, and touches no other device. |
| `DeviceRegistry.TouchStamps` | engine/crates/muxdeck-engine/src/registry.rs:149-155 | A sign-in changes the last sighting of its entry and nothing else. |
| `DeviceRegistry.ListShowsAll` | engine/crates/muxdeck-engine/src/registry.rs:158-171 | The listing has every device once, in key order, every field as stored, connected exactly if it is. |
| `DeviceRegistry.OnlyRevokeRemoves` | engine/crates/muxdeck-engine/src/registry.rs:83-155 | An id leaves the registry exactly by the revoke that names it. |
| `DeviceRegistry.DeviceIdIsDigestPrefix` | engine/crates/muxdeck-engine/src/identity.rs:140-148 | Two keys share a device id exactly when the first eight digest bytes agree: the hex rendering loses nothing. |
| `DeviceRegistry.DeviceIdSpelled` | engine/crates/muxdeck-engine/src/identity.rs:140-148 | An id is `d_` and the first eight digest bytes in lower-case hex, high half first. |
| `DeviceRegistry.Registry.InsertDevice` | engine/crates/muxdeck-engine/src/registry.rs:83-120 | New entries, result and every disk image of `insert`, with memory ahead of disk when the write fails. |
| `DeviceRegistry.Registry.RevokeDevice` | engine/crates/muxdeck-engine/src/registry.rs:141-147 | The same of `revoke`, which writes only when the id was there. |
| `DeviceRegistry.Registry.TouchDevice` | engine/crates/muxdeck-engine/src/registry.rs:149-155 | The same of `touch`. |
| `DeviceRegistry.CrashedRegistryReloads` | engine/crates/muxdeck-engine/src/registry.rs:65-155 | The same for the registry: no pairing and no revocation answered Ok is lost, and every key loads. |
| `Persistence.Disk.WriteJson` | engine/crates/muxdeck-engine/src/config.rs:98-125 | The files show exactly the specified images in order, the temporary file first and the final path only at the rename; Ok exactly when the rename happened. |
| `Persistence.InstalledDuringWrite` | engine/crates/muxdeck-engine/src/config.rs:98-102 | The installed file changes at one instant only, the last of a successful write. |
| `Persistence.CrashSafe` | engine/crates/muxdeck-engine/src/config.rs:94-119 | For any number of saves, any outcomes and any stopping instant, the installed file is the one found at start or parses to exactly the state of the last save whose rename had happened. |
| `Persistence.CrashedRunReloads` | engine/crates/muxdeck-engine/src/config.rs:94-125 | Durability, for any object that changes memory and then saves: what loads after a crash is the state right after the last call whose write had ended well; no call answered Ok is lost, except possibly the one being written. |
| `Persistence.OkMeansSaved` | engine/crates/muxdeck-engine/src/config.rs:121-125 | When the last call's write went through, disk equals memory, whatever failed before. |
| `Keys.ComboBalanced` | engine/crates/muxdeck-input/src/mock.rs:70-93 | For any key list and any failing press, the trace is balanced on a stack of held keys from whatever was held before. |
| `Keys.SequenceBalanced` | engine/crates/muxdeck-engine/src/input_dispatch.rs:67-77 | Any sequence, any combo failing at any press, ends with exactly the keys held that were held before it. |
| `Keys.SequencePresses` | engine/crates/muxdeck-engine/src/input_dispatch.rs:67-77 | A sequence in which nothing fails presses the keys of all its combos, in order. |
| `Keys.TotalAdds` | engine/crates/muxdeck-engine/src/input_dispatch.rs:51-58 | A delay costs its milliseconds, a combo its hold, and a combo without one nothing. |
| `Keys.MockBackend.KeyCombo` | engine/crates/muxdeck-input/src/mock.rs:70-93 | Call by call: with n the failing index, or the number of keys, exactly 2n calls are recorded, call i the i-th key down and call 2n - 1 - i the i-th key up; it fails exactly when a press failed. |
| `Keys.ValidMeans` | engine/crates/muxdeck-core/src/input.rs:31-46 | A combo is accepted exactly if it has a key and no two positions hold keys other than the four modifiers. |
| `Keys.DispatchCombo` | engine/crates/muxdeck-engine/src/input_dispatch.rs:37-45 | A combo without keys or with two plain ones is refused and makes no backend call; any other makes exactly those recorded calls. |
| `Keys.DispatchSequence` | engine/crates/muxdeck-engine/src/input_dispatch.rs:48-78 | Refused exactly when a step's combo is empty or has two plain keys, or the wrapped sum is over 30,000; a refusal makes no call and sleeps nothing; re-validation during the walk never fails; on Ok the keys pressed are those of all combos in order; at most 30,000 ms are asked for whenever there are at most 2^32 + 1 steps. |
| `Keys.SumNeverWrapsExactly` | engine/crates/muxdeck-engine/src/input_dispatch.rs:51-58 | The 64-bit sum is exact for every sequence of n steps if and only if n is at most 2^32 + 1. |
| `Keys.CeilingHoldsExactly` | engine/crates/muxdeck-engine/src/input_dispatch.rs:48-65 | The ceiling means what it says for every accepted sequence of n steps (accepted is at most 30,000 ms in truth) if and only if n is at most 2^32 + 1: for each longer length there is an accepted sequence that asks for 2^64 ms. |
| `Keys.WindowsCombo` | engine/crates/muxdeck-input/src/windows.rs:43-62 | For any accepted prefix of either batch: what the system was handed is the keys down in order, then up in reverse; Ok exactly when both were accepted in full; a full release leaves no combo key held and every other key as it was, duplicates included; a partial release leaves exactly the keys down and not yet released. |
| `Keys.Desktop.Send` | engine/crates/muxdeck-input/src/windows.rs:168-184 | Whatever prefix the system takes is what is held afterwards, and the answer is Ok exactly when it took the whole batch. |
| `TextInput.ChunkByUtf16` | engine/crates/muxdeck-input/src/macos/backend.rs:325-344 | Chunks concatenate to the text for every limit; from limit 2 on each is non-empty and within the limit, cut between characters, and no other cut within the limit has fewer chunks. |
| `TextInput.GreedyIsFewest` | engine/crates/muxdeck-input/src/macos/backend.rs:325-344 | Greedy optimality against every other partition. |
| `TextInput.LimitTwoIsNeeded` | engine/crates/muxdeck-input/src/macos/backend.rs:325-344 | Every text can be cut within a limit if and only if the limit is at least 2. |
| `TextInput.Utf16RoundTrips` | engine/crates/muxdeck-input/src/windows.rs:77-80 | The UTF-16 units of every string decode back to it (sections 2.1 and 2.2 of RFC 2781). |
| `TextInput.BytesReadBack` | engine/crates/muxdeck-engine/src/input_dispatch.rs:82-90 | The bytes a text's length is counted in are its shortest UTF-8 form (section 3 of RFC 3629): each character reads back from its own, whatever follows. |
| `TextInput.UnitsAtMostBytes` | engine/crates/muxdeck-engine/src/input_dispatch.rs:82-90 | A string never has more UTF-16 units than UTF-8 bytes. |
| `TextInput.Keyboard.WindowsText` | engine/crates/muxdeck-input/src/windows.rs:69-82 | One batch of a down and an up per unit; whatever prefix the system takes types exactly a prefix of the text's units, and the answer is Ok exactly when it took all. |
| `TextInput.Keyboard.MacText` | engine/crates/muxdeck-input/src/macos/backend.rs:112-130 | A down and an up per chunk of at most twenty units; wherever an event is refused, what was typed is a prefix of the same units. |
| `TextInput.DispatchText` | engine/crates/muxdeck-engine/src/input_dispatch.rs:81-109 | At once or character by character, on either platform, wherever delivery fails, the application reads a prefix of the same units, and on Ok all of them, which decode to the string sent; over 4096 bytes nothing is typed; an accepted text costs at most 8192 events, and fails only if the system takes fewer than two per unit. |
| `PairingCode.ExactlyUniform` | engine/crates/muxdeck-engine/src/identity.rs:161-171 | Every one of the million codes has exactly 4294 accepted raw values, and fewer than a million of the 2^32 are rejected. |
| `PairingCode.CutoffIsLargest` | engine/crates/muxdeck-engine/src/identity.rs:163-163 | Any larger cutoff is biased: code 000000 gains a preimage and 999999 does not. |
| `PairingCode.BytesAreUniform` | engine/crates/muxdeck-engine/src/identity.rs:166-166 | Four entropy bytes and one raw value correspond one to one. |
| `PairingCode.SixDigitsRoundTrip` | engine/crates/muxdeck-engine/src/identity.rs:168-168 | The zero-padded rendering reads back as the number, so codes are six digits and distinct. |
| `PairingCode.GenerateOtp` | engine/crates/muxdeck-engine/src/identity.rs:161-171 | The loop returns the rendering of the first accepted draw, skips only rejected ones, and fails exactly on a failing entropy source. |
| `Telemetry.Run` | engine/crates/muxdeck-engine/src/telemetry.rs:44-65 | Under any changing settings, a tick resets the accumulator exactly when enabled and 200 ms per tick since the last reset reach both the interval and 200 ms. |
| `Telemetry.ConstantIntervalIsPeriodic` | engine/crates/muxdeck-engine/src/telemetry.rs:44-65 | A constant enabled interval resets on exactly the multiples of p ticks, p being the interval, at least 200 ms, in whole ticks rounded up. |

## Left out

- TLS, certificates, mDNS, WebSocket framing, HTTP upgrade and task scheduling: plumbing without logic of its own.
- The connection loop as a method: its `select!` is the choice among the steps of `Systems.Step`; a lost send and the ten-second handshake timeout are causes of a `Close` step that the model does not tell apart from others.
- Input, shell-action and settings ops inside the dispatcher: their answer is the input `World.external`; they change no state the model has. The injection logic itself is in `Keys.dfy` and `TextInput.dfy`.
- Event payload bodies, the engine's host name, version and capabilities, the QR payload and error message texts; an event that fails to serialise.
- The look of a button and the payload of its action, which validation does not read; `u16` widths of grid positions, which it only compares.
- File permissions, and an unreadable registry file at start-up (the store's is modelled).
- Runs.OneSuccessPerWindow: speaks of requests taken one at a time; what remains of it between locks is `Locks.TwoSuccessesOverlap` and `Locks.LateCheckAdmits`.
- WindowRuns.PairingEndsOnTime: the clock stands still while one frame is handled; in `Locks.dfy` it may move between the check of a request and the write of its key.
- Locks.ConnectedIsLive: leaves out the event bus, the store and the disk; steps take requests already parsed.
- Disk images inside the system state: the run theorems carry the outcome of each write; what the disk shows meanwhile is proved on the objects and in `Persistence.dfy`.
- ProfileStore.Store.Load: promises no invariant for a file somebody else wrote, because the code does not check one.
- Engines.Engine.HandleText: a failing `spawn_blocking` join and the payload parsing of input ops are part of `World.external`.
- Sessions.Session.HandleHello: is called with a registry that uses the host's cryptography (`requires registry.crypto == host.crypto`), which in Rust is one set of library functions.
- Keys.DispatchSequence: models the sum of a release build; a debug build panics where it wraps. Hold times are counted, not slept.
- Keys.WindowsCombo: a key stands for its virtual key; the key tables are finite enumerations.
- TextInput.DispatchText: why the system refuses an event is not modelled, only how many it takes; a failing `spawn_blocking` join is left out.
- Engines.Engine.HandleOp: the answers of the action and settings ops are the input `World.external`; the time in a ping's answer is left out.
- Engines.Engine.HandleEnvelope: as `HandleOp`.
- PairingCode.GenerateOtp: takes the finite list of draws made so far; that the loop ends is a matter of probability.
- Telemetry.Run: models the accumulator only; CPU and memory sampling, rounding and the check for listeners come after the reset and do not affect it.
- macOS and Linux key combos, media keys, mouse events, the control panel and the client.
