# Shutdown coordination and the Redis / MongoDB pools, in Dafny

This project models the core of a small Node.js service toolkit:

- **program.js**: a process-wide shutdown coordinator. Modules register exit
  hooks with `onExit`. On SIGINT, SIGQUIT, SIGTERM or the `exit` event,
  `_cleanExit` starts every registered hook once and swaps the registry for a
  `null` sentinel. It then waits for all hooks with a 10-second timeout and
  ends the process.
- **Cleaner.js**: the second coordinator, used by the database modules. A
  run-once guard (`_.once`) plays the role of the sentinel. The signal
  listeners are one-shot. Any failed hook gives exit code 1 and a timeout
  gives 2.
- **Redis.js**: a pool of Redis clients keyed by connection label (default
  `main`) and a global key prefix. It has `publish` and `lpushlim`, which is
  LPUSH plus LTRIM in one MULTI transaction. On top of the pool sits a pub/sub
  multiplexer: one event emitter and one `message` listener per label, and
  per-channel subscription counts, so each channel is SUBSCRIBEd once however
  many handlers bind to it.
- **MongoDB.js**: a single connection slot with connect-once and disconnect.

Each coordinator is written twice. The first form is a pure state machine
(`State`, `Event`, `Step`, `Run`), and the lemmas about whole traces are proved
on it. The second is a `Coordinator` class with the module's fields, whose
methods are proved to compute its functions: `OnExit` performs `AfterOnExit`,
`CleanExit` performs `AfterCleanExit`, and `Deliver` and `Settle` each perform
exactly one `Step`. The Redis pool is a class
`Pool`, and the MongoDB module is a class `Slot`. The multiplexer's state is a
value (`Multiplexer.Mux`). The pool's `Subscribe` and `Unsubscribe` loops are
proved to compute the pure functions `AfterSubscribe` and
`UnsubscribeChannels`, and the lemmas about those functions carry the
properties.

Files: `hooks.dfy` (shared vocabulary: JavaScript truthiness, hook wrappers,
exit codes), `program.dfy`, `cleaner.dfy`, `key_prefix.dfy`,
`redis_commands.dfy`, `multiplexer.dfy`, `redis.dfy`, `mongodb.dfy`.

## Model

| member | source | states |
|---|---|---|
| Hooks.FromCallback | Redis.js:126-131 | A driver callback's promise rejects exactly when `err` is truthy, with `err` as the reason. Otherwise it fulfils with the result. |
| Hooks.Wrapped | program.js:27-36 | The promise wrapped around a hook is pending exactly while the hook has not called `done`. It resolves exactly when `done` got a falsy argument. It rejects with the truthy argument, or with what the hook threw. |
| Hooks.SignalReason | program.js:78-80 | Each signal's reason is its own name followed by " caught". |
| Hooks.SignalReasonsDiffer | Cleaner.js:85-87 | Two different signals never log the same reason. |
| Hooks.ExitFor | Cleaner.js:69-80 | Success ends the process the variant's own way. A timeout or a failure always exits with a non-zero code. The code is 2 exactly on a timeout, unless success itself exits with 2. |
| Program.AfterOnExit | program.js:21-37 | While the registry is an array, `onExit` appends exactly the new hook. Once it is the sentinel, nothing changes. |
| Program.AfterCleanExit | program.js:44-56 | With the sentinel installed, `_cleanExit` changes nothing. Otherwise it starts every registered hook in order, installs the sentinel and records the reason. |
| Program.Step | program.js:75-83 | An ended process reacts to no event. No step moves the phase backwards. Once the sentinel is installed, no step starts a hook or removes the sentinel. |
| Program.FireExit | program.js:82 | The one-shot `exit` listener is gone after the `exit` event. If it was still attached, cleanup has started (the sentinel is installed). |
| Program.SettleAll | program.js:58-59 | `settle` never fails. The chain times out exactly when some wrapped hook is still pending. |
| Program.ExitCode | program.js:58-72 | program.js exits with 2 exactly when some hook is unfinished, and with the default code otherwise. It never exits with 1, even when a hook failed. |
| Program.SentinelIsFinal | program.js:46-48 | Once the sentinel is installed, no event starts another hook, changes the reason or removes the sentinel. |
| Program.RunFromWaiting | program.js:44-83 | From any untriggered state, the started hooks after a trace are the registry plus the hooks registered before the first trigger, or none without a trigger. The reason is the first trigger's. |
| Program.CleanupRunsOnce | program.js:16-83 | Over any trace from load, the started hooks are exactly those registered before the first trigger, each once and in order. Later registrations never start. The logged reason is the first trigger's. |
| Program.TerminatedIsFinal | program.js:62-70 | After the process ends, no event changes anything. The exit code is decided once. |
| Program.PhaseNeverGoesBack | program.js:44-73 | The phase only moves forward: idle, then cleaning, then terminated. |
| Program.Coordinator.constructor | program.js:16 | The module loads with an empty registry and the `exit` listener attached. |
| Program.Coordinator.OnExit | program.js:21-37 | The new state is `AfterOnExit` of the old one. |
| Program.Coordinator.CleanExit | program.js:44-56 | It returns the `null` path exactly when the sentinel was already installed. The new state is `AfterCleanExit` of the old one. |
| Program.Coordinator.Deliver | program.js:75-83 | A signal or the `exit` event performs exactly one step of the state machine. |
| Program.Coordinator.Settle | program.js:58-72 | The end of the settle-all performs one step, and the process ends with `ExitCode` of the hook runs. |
| Cleaner.AfterOnExit | Cleaner.js:39-50 | `onExit` always appends the hook, also after cleanup has started. |
| Cleaner.AfterCleanExit | Cleaner.js:58-67 | The first call starts every registered hook in order and records the reason. Every later call does nothing. |
| Cleaner.Step | Cleaner.js:84-88 | An ended process reacts to no event. Once the run-once guard has fired, it stays fired and the started hooks never change. |
| Cleaner.SettleAll | Cleaner.js:65-68 | The chain fails exactly when some wrapped hook rejected. It settles exactly when every wrapped hook resolved. |
| Cleaner.SameSignalTwiceKills | Cleaner.js:85-87 | The same signal delivered twice before the process ends finds no listener the second time, and the default action kills the process. |
| Cleaner.ExitCode | Cleaner.js:65-80 | Cleaner.js exits with 1 exactly when some hook rejected. It exits with 2 exactly when none rejected and some is unfinished. It exits with 0 exactly when every hook resolved. |
| Cleaner.RanIsFinal | Cleaner.js:58 | Once the run-once guard has fired, no event starts a hook again or changes the reason. |
| Cleaner.RunFromWaiting | Cleaner.js:58-88 | From any state before a signal, the started hooks are the registry plus those registered before the first signal, or none without a signal. |
| Cleaner.CleanupRunsOnce | Cleaner.js:34-88 | Over any trace from load, the started hooks are exactly those registered before the first signal, in order, each once. The reason is the first signal's. |
| Cleaner.TerminatedIsFinal | Cleaner.js:69-80 | After the process ends, no event changes anything. |
| Cleaner.Coordinator.constructor | Cleaner.js:84-88 | The module loads with an empty registry, the guard unfired and one listener per signal. |
| Cleaner.Coordinator.OnExit | Cleaner.js:39-50 | The new state is `AfterOnExit` of the old one. |
| Cleaner.Coordinator.CleanExit | Cleaner.js:58-67 | The new state is `AfterCleanExit` of the old one. |
| Cleaner.Coordinator.Deliver | Cleaner.js:84-88 | A signal performs exactly one step: the one-shot listener fires, or the default action kills the process. |
| Cleaner.Coordinator.Settle | Cleaner.js:65-80 | The end of the chain performs one step, and the process ends with `ExitCode` of the hook runs. |
| KeyPrefix.PrefixOf | Redis.js:117 | Only a string value of `_prefix` acts as a prefix, and the prefix is that string. |
| KeyPrefix.Prefixed | Redis.js:294-299 | Without a prefix the key is unchanged. With one, the result is longer by the prefix and one colon. |
| KeyPrefix.PrefixedShape | Redis.js:296 | A prefixed key is the prefix, then a colon at the prefix's length, then the key. |
| KeyPrefix.StripPrefix | Redis.js:294-309 | Without a prefix the wire name is unchanged. Otherwise it is never longer, and when it changes, the wire name was the prefix, a colon and the result. |
| KeyPrefix.StripPrefixRoundTrip | Redis.js:294-309 | Stripping the prefix undoes prefixing for every prefix and every key. This is the intended inverse the listener should apply. |
| KeyPrefix.PrefixedInjective | Redis.js:294-299 | Prefixing never maps two different keys to the same wire name. |
| KeyPrefix.Split | Redis.js:218 | `split(':')` gives colon-free segments, at least two exactly when there is a colon, and they join back to the input. |
| KeyPrefix.IndexOf | Redis.js:218 | The index found holds the character, and no earlier position does. |
| KeyPrefix.ChannelOfWire | Redis.js:218 | The listener's channel is the wire name itself when it has no colon, and a colon-free name otherwise. |
| KeyPrefix.ChannelOfWireIsSecondSegment | Redis.js:218 | An independent description: the listener keeps what lies between the first colon and the next colon, or the end. |
| KeyPrefix.ChannelOfPrefixedWire | Redis.js:218 | Behind a colon-free prefix, the listener keeps the channel only up to the channel's own first colon. |
| KeyPrefix.DispatchRecoversPlainChannel | Redis.js:218-220 | With a colon-free prefix and channel, the listener recovers the channel from its wire name. |
| KeyPrefix.DispatchMisroutesColonChannel | Redis.js:218 | Under prefix "env", the wire name of channel "a:b" is emitted on "a". |
| KeyPrefix.DispatchMisroutesUnprefixedColonChannel | Redis.js:218 | Without a prefix, channel "a:b" is emitted on "b". |
| KeyPrefix.DispatchMisroutesColonPrefix | Redis.js:218 | Under a prefix "app:env", every channel is emitted on "env". |
| KeyPrefix.PrefixRoundTripExample | Redis.js:117 | Under prefix "env", "env-topic" goes out as "env:env-topic" and comes back as "env-topic". |
| RedisCommands.Trim | Redis.js:165 | LTRIM keeps the inclusive index range: an ordinary range is the slice, and a negative stop counts from the end. |
| RedisCommands.PushLimOps | Redis.js:162-165 | The transaction is exactly two commands on the same key: LPUSH of the value, then LTRIM from 0 to maxlen - 1. |
| RedisCommands.PushLim | Redis.js:162-165 | With maxlen of 1 or more, the list becomes the new value followed by the old list, cut to maxlen; it starts with the value. With maxlen 0 or less, LTRIM's negative stop keeps all but the last -maxlen elements. |
| RedisCommands.PushLimTransaction | Redis.js:162-167 | Running the MULTI transaction stores `PushLim` of the old list under the key and no other key changes. |
| RedisCommands.NewestFirst | Redis.js:164 | Reordering pushed values newest first keeps their number. |
| RedisCommands.PushAllKeepsNewest | Redis.js:135-137 | After any number of `lpushlim` calls with maxlen of 1 or more, the list holds the newest maxlen values of those pushed and those already there, most recent first. A starting list longer than maxlen is cut by the first push. |
| RedisCommands.PushFiveKeepThree | Redis.js:135-137 | Five pushes into an empty list with maxlen 3 leave the last three, most recent first. |
| Multiplexer.Empty | Redis.js:184-194 | With no emitters and no counts, the multiplexer invariant holds. |
| Multiplexer.RemoveLast | Redis.js:275 | `removeListener` of an absent handler changes nothing. Otherwise it removes exactly one listener. |
| Multiplexer.RemoveLastAt | Redis.js:275 | It is the last occurrence of the handler that is removed. |
| Multiplexer.RemoveLastContents | Redis.js:275 | The listeners left are the old ones minus exactly one copy of the handler. |
| Multiplexer.Deliveries | Redis.js:219-220 | Emitting on a channel calls each of its handlers once, in registration order, with the channel and the message. |
| Multiplexer.CountIsHandlers | Redis.js:191-194 | Under the invariant, a channel's count is its number of bound handlers. |
| Multiplexer.AddEmitter | Redis.js:214-222 | The label gains an emitter. If it had one, nothing changes. Handlers, counts and the command log are untouched. |
| Multiplexer.SubscribeChannel | Redis.js:228-244 | The channel's number grows by exactly one. The label gets a count table. No emitter is added and no listener is attached. |
| Multiplexer.SubscribeChannels | Redis.js:227-245 | The loop adds no emitter and no listener. The label gets a count table exactly when some channel is listed. |
| Multiplexer.AfterSubscribe | Redis.js:205-246 | After `subscribe`, the label has an emitter, and it has a count table when some channel was listed. |
| Multiplexer.UnsubscribeChannel | Redis.js:270-287 | One step touches no emitter, listener or count table. The log either stays or gains exactly UNSUBSCRIBE of the prefixed channel. |
| Multiplexer.UnsubscribeChannels | Redis.js:269-288 | The loop touches no emitter, listener or count table, and it only appends to the command log. |
| Multiplexer.UnsubscribeChannelsNoClient | Redis.js:284-286 | Without a client for the label, the loop sends nothing and touches no emitter, listener or count table. |
| Multiplexer.SubscribeChannelEffect | Redis.js:228-244 | Subscribing one channel increments its count, appends the handler, and sends SUBSCRIBE of the prefixed channel exactly when the count was 0. |
| Multiplexer.UnsubscribeChannelEffect | Redis.js:270-287 | Unsubscribing one channel removes one copy of the handler and decrements the count if one was removed. It sends UNSUBSCRIBE exactly when the channel is counted and has no handler left. |
| Multiplexer.ChannelStepsAreLocal | Redis.js:227-245 | A subscribe or unsubscribe step on one (label, channel) leaves every other pair's handlers and count unchanged. |
| Multiplexer.SubscribeChannelKeepsInv | Redis.js:228-244 | One subscribe step preserves the invariant: counts equal handler numbers and are never negative. |
| Multiplexer.SubscribeChannelsKeepsInv | Redis.js:227-245 | The whole subscribe loop preserves the invariant. |
| Multiplexer.AddEmitterKeepsInv | Redis.js:214-222 | Creating the label's emitter and its single listener preserves the invariant. |
| Multiplexer.SubscribeKeepsInv | Redis.js:205-246 | `subscribe` as a whole preserves the invariant. |
| Multiplexer.UnsubscribeChannelKeepsInv | Redis.js:270-287 | One unsubscribe step preserves the invariant. Counts never go below 0. |
| Multiplexer.UnsubscribeChannelsKeepsInv | Redis.js:269-288 | The whole unsubscribe loop preserves the invariant. |
| Multiplexer.UnsubscribeChannelsElsewhere | Redis.js:269-288 | `unsubscribe` changes neither the handlers nor the count of another label, nor of a channel it does not list. |
| Multiplexer.UnsubscribeChannelsHandlers | Redis.js:275 | After `unsubscribe`, a channel's handlers are the old ones minus one copy of the handler per listing of that channel, as far as copies remain. |
| Multiplexer.UnsubscribeChannelsCounts | Redis.js:277-281 | Under the invariant, a channel's count after `unsubscribe` is the number of handlers left by that removal. |
| Multiplexer.UnsubscribeNoClientThrowsIffCommandDue | Redis.js:284-286 | Without a client, `unsubscribe` throws exactly when the call with a client would have sent UNSUBSCRIBE. When it does not throw, it does exactly what that call does. |
| Multiplexer.UnsubscribeNoClientKeepsInv | Redis.js:269-288 | Without a client, `unsubscribe` preserves the invariant, also when it throws after the reset of line 285. |
| Multiplexer.UnsubscribeNoClientStops | Redis.js:286 | Once a prefix of the channel list has thrown, the rest of the list is never processed. |
| Multiplexer.TwoSubscribers | Redis.js:205-246 | Two `subscribe` calls on one channel from a fresh multiplexer leave both handlers bound, in order, with the invariant. |
| Multiplexer.UnsubscribeOneChannelNoClient | Redis.js:269-288 | Without a client, `unsubscribe` of a single channel is one step that throws exactly when it would send UNSUBSCRIBE. |
| Multiplexer.FirstOfTwoWithoutClient | Redis.js:275-286 | Without a client, removing one of two handlers completes, sends nothing and leaves the other handler. |
| Multiplexer.OnlyHandlerWithoutClient | Redis.js:284-286 | Without a client, removing a channel's only handler throws and sends nothing, and the count is 0. |
| Multiplexer.LastHandlerWithoutClientThrows | Redis.js:284-286 | With two subscribers and no client, the first `unsubscribe` completes and the second throws a TypeError after resetting the count to 0. |
| Multiplexer.SubscribeChannelsCounts | Redis.js:233-241 | After subscribing a list of channels, each channel's count has grown by the number of times it occurs in the list. |
| Multiplexer.SubscribeChannelsHandlers | Redis.js:244 | After subscribing a list, each channel has the handler appended once per occurrence. |
| Multiplexer.SubscribeChannelsOtherLabels | Redis.js:227-245 | Subscribing on one label changes no other label's handlers or counts. |
| Multiplexer.SubscriberReceives | Redis.js:217-220 | With the dispatch as written and colon-free names, a handler just subscribed receives a message on its channel's wire name. |
| Multiplexer.SoleSubscriberReceives | Redis.js:214-244 | The first subscriber of a fresh multiplexer causes exactly one SUBSCRIBE. With the corrected dispatch, a message on its wire name reaches that handler alone, for every channel and prefix. |
| Multiplexer.MisroutedMessageIsLost | Redis.js:218-220 | When the listener as written maps a channel's wire name to a different channel, a message for the only subscriber reaches nobody. |
| Multiplexer.ColonChannelSubscriberMissesMessages | Redis.js:218 | Under prefix "env", a subscriber of "a:b" gets nothing with the dispatch as written. It gets the message with the corrected dispatch. |
| Multiplexer.UnsubscribeRepeatsCommand | Redis.js:284-287 | A counted channel with no handler left sends UNSUBSCRIBE again on every further `unsubscribe`, even of a handler never bound. Its count stays 0. |
| Multiplexer.SubscribeThenUnsubscribe | Redis.js:227-287 | Subscribing then unsubscribing the same handler restores the channel's handlers and count. The log gains SUBSCRIBE and UNSUBSCRIBE only if the channel had no handler before. |
| Redis.EffectiveLabel | Redis.js:40-41 | A non-string label argument means the default label `main`. |
| Redis.OverloadLabel | Redis.js:111-116 | The short call form uses the default label. |
| Redis.DisconnectHookRun | Redis.js:61-68 | The exit hook resolves when `disconnect` resolved, and rejects with the error when it rejected. |
| Redis.DisconnectHookExitCode | Redis.js:61-68 | As Cleaner.js's only hook, a resolved disconnect gives exit code 0 and a rejected one gives 1. |
| Redis.Pool.constructor | Redis.js:28 | The module loads with an empty pool, a `null` prefix and no emitters. The multiplexer invariant holds. |
| Redis.Pool.Prefix | Redis.js:294-299 | Without a string prefix the key is unchanged; otherwise it is prefix, colon, key. Stripping the current prefix gives the key back. |
| Redis.Pool.SetPrefix | Redis.js:318-320 | The prefix becomes the argument, which is returned. Nothing else changes, and the pool invariant is kept. |
| Redis.Pool.Connect | Redis.js:39-52 | A pooled label resolves with its client and creates none. Otherwise exactly one new client is created and is pending for that label. The pool is unchanged either way. |
| Redis.Pool.OnConnectError | Redis.js:53-57 | Any `error` before `ready` deletes the label from the pool, whatever client it held. It rejects the promise with the error only if the promise has not settled yet. The client keeps both listeners, so it stays pending. |
| Redis.Pool.OnConnectErrorDetached | Redis.js:53-59 | The intended error listener: the same deletion and rejection, and the client stops listening, so it can never be pooled. |
| Redis.Pool.OnReady | Redis.js:59-72 | `ready` stores the client under its label, registers exactly one disconnect hook with Cleaner.js and removes both listeners. It resolves with the client unless an earlier `error` already rejected the promise. |
| Redis.Pool.DisconnectAsWritten | Redis.js:83-98 | As written, a pooled label resolves with `null` without QUIT. A label without a client rejects with a TypeError. |
| Redis.Pool.Disconnect | Redis.js:76-98 | As documented, a pooled client is sent QUIT and its label removed, and the promise resolves with `null`. Nothing else changes. |
| Redis.Pool.Publish | Redis.js:111-133 | A label without a client rejects with the "No connected database" error and sends nothing. Otherwise one PUBLISH of the prefixed key is sent, and the promise follows the driver's callback. The pool invariant is kept. |
| Redis.Pool.LPushLim | Redis.js:146-174 | A label without a client rejects and sends nothing. Otherwise one MULTI of LPUSH and LTRIM 0 (maxlen - 1) on the prefixed key is sent, and the promise follows the callback. The pool invariant is kept. |
| Redis.Pool.Subscribe | Redis.js:205-246 | The new multiplexer state is `AfterSubscribe` of the old one with the current prefix, and the invariant is kept. |
| Redis.Pool.SubscribeOne | Redis.js:228-244 | One loop iteration performs exactly `SubscribeChannel`. |
| Redis.Pool.Unsubscribe | Redis.js:258-289 | With a client for the label, the new multiplexer state is `UnsubscribeChannels` of the old one with the current prefix and nothing is thrown. Without one, it is `UnsubscribeChannelsNoClient`: the call throws at the first channel that would send UNSUBSCRIBE (line 286), after the reset of line 285, and sends nothing. The invariant is kept. |
| Redis.Pool.UnsubscribeOne | Redis.js:270-287 | One loop iteration performs exactly `UnsubscribeChannel`. Without a client it throws exactly when that step would send UNSUBSCRIBE, and the log is left as it was. |
| Redis.Pool.OnMessageAsWritten | Redis.js:217-221 | A label without an emitter has no listener. Otherwise the handlers of the channel that `split(':')[1]` extracts are called. |
| Redis.Pool.OnMessage | Redis.js:217-221 | The corrected listener strips the configured prefix, so the handlers of the published channel are called. |
| Redis.SequentialConnectsShareClient | Redis.js:44-46 | A second `connect` after the first is ready reuses the client. Exactly one exit hook is registered. |
| Redis.OverlappingConnectsMakeTwoClients | Redis.js:44-72 | Two `connect` calls before either is ready create two clients. The later-ready one stays pooled, and two exit hooks are registered. |
| Redis.LateConnectErrorUnpoolsReadyClient | Redis.js:53-56 | An error from the second of two overlapping clients removes the first, ready client from the pool. |
| Redis.RejectedConnectStillPools | Redis.js:53-72 | A client that reports `error` and later `ready`: `connect` rejects, yet the client is pooled and a disconnect hook is registered. |
| Redis.RepeatedErrorUnpoolsLaterClient | Redis.js:53-57 | A failed client's second `error` deletes the client that a retried `connect` pooled for the label, and leaves its own promise as it was. |
| Redis.FailedConnectLeavesPoolClean | Redis.js:53-59 | With the intended error listener, a failed `connect` leaves no client under the label, no hook, and a client that listens for nothing more. |
| Redis.DisconnectAsWrittenKeepsClient | Redis.js:88-90 | As written, `disconnect` of a connected label resolves but sends no QUIT and leaves the client pooled. |
| Redis.DisconnectAsWrittenRejectsUnknownLabel | Redis.js:92 | As written, `disconnect` of a label never connected rejects with a TypeError. |
| Redis.DisconnectClosesClient | Redis.js:76-98 | The documented `disconnect` of a connected label sends QUIT and unpools the client. |
| Redis.PublishUnderPrefix | Redis.js:117-131 | With prefix "env", publishing on "env-topic" sends PUBLISH on "env:env-topic". |
| MongoDB.DisconnectOutcome | MongoDB.js:52-67 | An empty slot resolves with `null`. A connected slot rejects exactly when closing reported a truthy error. |
| MongoDB.ExitHookRun | MongoDB.js:37-43 | The exit hook always calls `done`. The wrapped hook resolves exactly when `disconnect` resolved or rejected with a falsy value. |
| MongoDB.ExitHookReportsClose | MongoDB.js:37-43 | The exit hook rejects exactly when there was a connection and closing it failed, with that error. Otherwise it resolves. |
| MongoDB.Slot.constructor | MongoDB.js:18 | The module loads with an empty slot. |
| MongoDB.Slot.Connect | MongoDB.js:24-48 | A stored connection is returned without a driver call. A driver error rejects and leaves the slot empty with no hook. Success stores the connection and registers one exit hook. |
| MongoDB.Slot.Disconnect | MongoDB.js:52-67 | The promise is `DisconnectOutcome`, and the slot is empty afterwards even when closing failed. |
| MongoDB.ConnectTwiceConnectsOnce | MongoDB.js:26-28 | Connecting twice makes one driver call and registers one exit hook. Both calls resolve with the same connection. |
| MongoDB.FailedConnectIsRetried | MongoDB.js:30-34 | A failed connect leaves the slot empty, so the next connect calls the driver again. |
| MongoDB.FailedCloseStillEmptiesSlot | MongoDB.js:59-63 | A close error is reported, and a second `disconnect` resolves at once. |

## Left out

- Logging (Logger.js and the `logger` calls), `url.parse` of `options.uri`, and the driver connections themselves. Clients and connections are plain numbers.
- The 10-second timer and promise scheduling. Each hook's progress at the deadline is an input (`HookRun`), and so are the settlement and the driver callbacks' `(err, result)`.
- `connect(options)` with the options object in the label position, and a missing `options.uri`. The TypeError that follows is not modelled.
- `JSON.stringify` of non-string values in `publish` and `lpushlim`. Values are strings.
- The single-channel form of `subscribe` and `unsubscribe`. A one-element sequence stands for it.
- Errors a client reports after `ready`, and the `end` event of a client closed by someone else.
- Bluebird's `.error` handlers catch only operational errors, and the `.error(TimeoutError, fn)` form is not a filter in that library. The model uses the mapping the authors evidently intended: a timeout exits with 2, and a rejection passed to `done` fails the hook.
- Non-integer and non-numeric `maxlen`. It is an integer here.
- MongoDB.Slot.Connect: the MongoDB driver's concurrent-connect race is not modelled. `MongoDB.Slot.Connect` takes its driver result as a parameter and completes in one step.
- Program.AfterCleanExit, Program.CleanupRunsOnce: hooks do not re-enter `_cleanExit`. A hook that calls `process.exit()` synchronously while lines 53-55 start the hooks fires the `exit` listener of line 82 before line 56 installs the sentinel, and that listener starts hooks 0 to k again, where hook k is the one that called `process.exit()`. Hook k's second call then ends the process at once: a nested `process.exit` skips the listeners and exits. So hooks 0 to k start twice and the hooks after k never start. The model makes `_cleanExit` one step.
- Program.ExitCode: program.js never exits with 1, because `settle` turns every hook failure into a fulfilled inspection. The model follows the code.
- Cleaner.AfterOnExit: Cleaner.js keeps accepting registrations after cleanup has started. They are never run, which `Cleaner.CleanupRunsOnce` states.
- Cleaner.SameSignalTwiceKills: a second delivery of the same signal finds no listener and the default action ends the process.
- RedisCommands.PushLim: a maxlen of 0 keeps the whole list, because LTRIM 0 -1 means "to the end". A negative maxlen drops elements from the end. The model states what the code does.
- Multiplexer.UnsubscribeRepeatsCommand: the code sends UNSUBSCRIBE whenever the count is 0, not only on the last removal. The model states what the code does.
- Redis.Pool.Subscribe: requires the label to have a client. Without one the source throws a TypeError at line 217 when the label's emitter is new. It also throws at line 239 for any channel whose count is 0 or less, which includes a channel whose handlers were all unsubscribed. When it throws at line 217, line 215 has already stored the emitter, so every later `subscribe` on that label skips lines 214-221. No `message` listener is then ever attached for the label, and its messages are never delivered. The model does not capture that state.
- Redis.Pool.Unsubscribe: requires the label to have a count table when channels are given. Without an emitter the source throws a TypeError at line 271. With an emitter but no count table, for example after `subscribe(label, [], h)`, it throws at line 284. A label that subscribed but has no client any more is modelled: the TypeError of line 286 is the `threw` result.
- Redis.Pool.Connect: overlapping `connect` calls on one label each create a client, and a late `error` deletes whatever client the label holds. The model keeps both behaviours, shown by `Redis.OverlappingConnectsMakeTwoClients` and `Redis.LateConnectErrorUnpoolsReadyClient`.
- Redis.Pool.OnMessage, Redis.Pool.OnMessageAsWritten: the message listener is keyed by label here, not by the client object it was attached to. A label reconnected with a new client is assumed to keep its listener.
- Hooks.JsValue: the TypeError's message text is left empty.
- Multiplexer.Deliveries: an emit on a channel is a call of each of its handlers, which ignores three event names that Node's EventEmitter reserves. An emit on "error" with no listener throws inside the client's `message` listener (Redis.js:217-220) and crashes the process. The model says no handler is called: for example, under prefix "env" a message for "error:x" is dispatched on "error". `addListener` at line 244 also calls every handler bound to "newListener", and `removeListener` at line 275 calls every handler bound to "removeListener". Subscribing to those names is not modelled beyond binding the handler.

## Findings

| source | as written | input that shows it | evidently intended | confidence | as-written member | corrected member |
|---|---|---|---|---|---|---|
| Redis.js:57 | The `error` listener is attached with `on` and removed only inside `ready` (line 70), and `once('ready')` of line 59 is never removed on error. | A client that reports `error` and then `ready` after the driver reconnects: `connect` rejects, yet the client is pooled and a disconnect hook is registered. A failed client's second `error` deletes the client a retried `connect` pooled for the label. | A failed connection leaves the pool clean: detach the client's connect listeners on `error`. | not executed | Redis.Pool.OnConnectError, Redis.RejectedConnectStillPools, Redis.RepeatedErrorUnpoolsLaterClient | Redis.Pool.OnConnectErrorDetached, Redis.FailedConnectLeavesPoolClean |
| Redis.js:88 | `disconnect` resolves at once when the label HAS a client, and dereferences the missing client otherwise. | `connect({ uri })` then `disconnect()`: no QUIT is sent and the client stays pooled. `disconnect("x")` on an unknown label rejects with a TypeError. | Quit the pooled client, unpool it, and resolve; resolve at once when there is nothing to close. | not executed | Redis.Pool.DisconnectAsWritten, Redis.DisconnectAsWrittenKeepsClient, Redis.DisconnectAsWrittenRejectsUnknownLabel | Redis.Pool.Disconnect, Redis.DisconnectClosesClient |
| Redis.js:218 | The message listener keeps the second `:`-separated segment of the wire channel instead of removing the prefix. | Prefix "env", subscribe to "a:b": the message on "env:a:b" is emitted on "a" and the subscriber gets nothing. Prefix "app:env": every channel is emitted on "env". No prefix, channel "a:b": emitted on "b". | Strip exactly `<prefix>:` from the wire name, the inverse of `Redis.prefix`. | not executed | Redis.Pool.OnMessageAsWritten, KeyPrefix.DispatchMisroutesColonChannel, Multiplexer.ColonChannelSubscriberMissesMessages | Redis.Pool.OnMessage, KeyPrefix.StripPrefixRoundTrip, Multiplexer.SoleSubscriberReceives |
