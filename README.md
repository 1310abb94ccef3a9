# LinkIO deep-link SDK, modelled in Dafny

This project models the core of the LinkIO Android SDK, whose logic lives in the `LinkIO` class.
The class classifies navigation intents as deep links for a configured domain. It hands each link to
a registered handler, or parks it in a single pending slot until a handler is registered. It fetches
deferred links from a backend, keyed by a per-device identifier kept in the preference store. It
builds referral reports. A companion object holds the single configured instance.

Modules, one per component:

- `Wrappers`: `Option` and `Result`.
- `LinkTypes`: `DeepLinkData` and `LinkIOConfig` as plain datatypes.
- `Http`: `IsSuccessful` means a 2xx status code.
- `Classifier`: the abstract `Uri` and `Intent` records, the host test, the query-parameter map and
  the loop that fills it (`CollectParams`).
  - A `Uri` holds its text, an optional host, the query-parameter names, and an abstract total
    lookup `string -> Option<string>`.
- `Dispatch`: the delivery state machine, on values.
  - The state holds the handler slot, the pending slot, and a log with one entry per handler
    invocation.
  - `Produce` and `Register` are the two transitions. `Run` replays a sequence of events.
  - The lemmas state exactly-once delivery, most-recent-wins and the one-slot invariant over
    arbitrary event sequences.
- `DeviceIdentity`: get-or-create of the device identifier over a string map, with the fresh
  identifier supplied by the caller. `Preferences` is the store that gets written in place.
- `PendingLink`: the lookup URL and the abstract response. The response is a transport failure, or a
  status code with an optional body, and the body decodes to a link or fails.
- `Referral`: the report URL, the result reported for an outcome, and the callback invocations.
- `LinkIOSdk`: the class `LinkIO` and the class `LinkIOCompanion`, both sequential.
  - `LinkIO` has the fields `deepLinkHandler` and `pendingDeepLink`, plus a ghost `deliveries` log.
    Handlers are opaque ids, and invoking one appends to the log.
  - Every method that changes state is specified by the matching `Dispatch` transition.
  - `LinkIOCompanion` is the init-once cell.

Where the design description and the code differ, the model follows the code:

- Repeated query keys. The description says the last value wins. The code reads each name once
  through the platform's lookup. The model keeps that lookup abstract and claims neither first-wins
  nor last-wins.
- The deferred flag. The description says deferred links carry `isDeferred = true`. The code passes
  on whatever the decoder produced, so the model does not fix the flag on that path.
- Writing the device identifier. The description asks that a second, racing writer of the device
  identifier be a no-op. The code always writes when it finds no identifier. With one caller at a
  time the two behave the same, and the model is sequential.

## Model

| member | source | states |
|---|---|---|
| `Classifier.QueryParams` | src/main/java/io/linkio/android/LinkIO.kt:66-71 | the parameter map has exactly the query names whose lookup gives a value, each mapped to that value |
| `Classifier.HostOf` | src/main/java/io/linkio/android/LinkIO.kt:57-60 | a host is found iff the intent, its data URI and the URI's host are all present |
| `Classifier.Classify` | src/main/java/io/linkio/android/LinkIO.kt:56-77 | a link is produced iff a host is present and equals the domain or `www.` + domain; it then has the URI's text, `isDeferred` false, and exactly the non-null query parameters |
| `Classifier.CollectParams` | src/main/java/io/linkio/android/LinkIO.kt:66-71 | the loop over the query names builds exactly the parameter map above |
| `Classifier.ExampleLinks` | src/main/java/io/linkio/android/LinkIO.kt:62-77 | `https://www.example.com/promo?ref=abc` is claimed for `example.com` with params `{ref: abc}`; a link to `other.com` is not |
| `Dispatch.Produce` | src/main/java/io/linkio/android/LinkIO.kt:79-81 | with a handler, exactly one delivery to it is appended and the pending slot is untouched; without one, nothing is delivered and the link overwrites the pending slot; the one-slot invariant is kept |
| `Dispatch.Register` | src/main/java/io/linkio/android/LinkIO.kt:86-93 | the new handler replaces the old; a pending link is delivered to it exactly once and the slot is emptied; otherwise nothing is delivered |
| `Dispatch.RunKeepsValid` | src/main/java/io/linkio/android/LinkIO.kt:79-93 | along any sequence of productions and registrations, a link only waits while no handler is registered |
| `Dispatch.RunNeverDuplicates` | src/main/java/io/linkio/android/LinkIO.kt:79-93 | the log is only appended to, and deliveries plus the waiting link never outnumber the links produced plus the one waiting at the start |
| `Dispatch.DeliveredWereProduced` | src/main/java/io/linkio/android/LinkIO.kt:79-93 | every link delivered or left waiting was produced in the run, or was waiting at its start |
| `Dispatch.HandlerReceivesEveryLink` | src/main/java/io/linkio/android/LinkIO.kt:79-81 | once a handler is registered, the delivered links are exactly the produced ones, in order, each once, and nothing waits |
| `Dispatch.RegistrationsOnly` | src/main/java/io/linkio/android/LinkIO.kt:86-93 | after registrations only, the last handler is registered, the slot is empty, and a waiting link went once to the first handler |
| `Dispatch.ProductionsOnlyMostRecentWins` | src/main/java/io/linkio/android/LinkIO.kt:79-81 | with no handler, a burst of productions delivers nothing and leaves only the last link waiting |
| `Dispatch.ExactlyOnceEitherOrder` | src/main/java/io/linkio/android/LinkIO.kt:79-93 | whether handlers are registered before or after a link arrives, the link is delivered exactly once: to the last handler before it, else to the first after it |
| `Dispatch.LastLinkBeforeRegistrationWins` | src/main/java/io/linkio/android/LinkIO.kt:79-93 | several links before any handler: only the last one is delivered, once, to the first handler registered |
| `DeviceIdentity.GetOrCreate` | src/main/java/io/linkio/android/LinkIO.kt:162-171 | a stored `device_id` is returned with the store unchanged; otherwise the fresh id is stored under `device_id` and returned; no other key changes |
| `DeviceIdentity.GetOrCreateIsStable` | src/main/java/io/linkio/android/LinkIO.kt:166-170 | a second call returns the same id and leaves the store unchanged, whatever fresh id it is offered |
| `PendingLink.PendingLinkUrl` | src/main/java/io/linkio/android/LinkIO.kt:97 | the URL is the backend URL, then `/api/pending-link/`, then the device id |
| `PendingLink.PendingLinkUrlInjective` | src/main/java/io/linkio/android/LinkIO.kt:96-97 | distinct device ids give distinct lookup URLs on the same backend |
| `PendingLink.PendingLinkOf` | src/main/java/io/linkio/android/LinkIO.kt:104-122 | a link is handed on iff the response is successful, has a body and decodes; transport failure, non-2xx, a missing body and a decode failure give nothing |
| `Referral.TrackReferralUrl` | src/main/java/io/linkio/android/LinkIO.kt:132 | the URL is the backend URL followed by `/api/track-referral` |
| `Referral.ReportedSuccess` | src/main/java/io/linkio/android/LinkIO.kt:152-158 | the reported result is true iff a response arrived with a 2xx status |
| `Referral.CallbackCalls` | src/main/java/io/linkio/android/LinkIO.kt:151-159 | without a callback nothing is invoked; with one it is invoked exactly once, with false on transport failure and with the response's success otherwise |
| `LinkIOSdk.LinkIO.constructor` | src/main/java/io/linkio/android/LinkIO.kt:18-21 | a new instance keeps its config, has no handler, nothing pending and no deliveries |
| `LinkIOSdk.LinkIO.DeliverOrBuffer` | src/main/java/io/linkio/android/LinkIO.kt:114-116 | the shared delivery step of both paths changes the fields exactly as `Dispatch.Produce` |
| `LinkIOSdk.LinkIO.HandleDeepLink` | src/main/java/io/linkio/android/LinkIO.kt:56-84 | returns true iff the intent is claimed, then applies the produce rule to the classified link; a rejected intent leaves handler, slot and deliveries unchanged |
| `LinkIOSdk.LinkIO.SetDeepLinkHandler` | src/main/java/io/linkio/android/LinkIO.kt:86-93 | the fields change exactly as `Dispatch.Register` |
| `LinkIOSdk.LinkIO.GetDeviceId` | src/main/java/io/linkio/android/LinkIO.kt:162-171 | returns the id and writes the store exactly as `DeviceIdentity.GetOrCreate` |
| `LinkIOSdk.LinkIO.CheckPendingLink` | src/main/java/io/linkio/android/LinkIO.kt:95-97 | resolves the device id (storing a fresh one if needed) and requests `PendingLinkUrl` for it |
| `LinkIOSdk.LinkIO.OnPendingLinkResponse` | src/main/java/io/linkio/android/LinkIO.kt:104-122 | only a successful decoded response goes through the produce rule; every other outcome leaves handler, slot and deliveries unchanged |
| `LinkIOSdk.LinkIO.TrackReferral` | src/main/java/io/linkio/android/LinkIO.kt:126-144 | the URL is `TrackReferralUrl`; the body always holds `referralCode` and `userId`, and holds `metadata` iff metadata was given |
| `LinkIOSdk.LinkIOCompanion.constructor` | src/main/java/io/linkio/android/LinkIO.kt:29-30 | the cell starts unconfigured |
| `LinkIOSdk.LinkIOCompanion.Configure` | src/main/java/io/linkio/android/LinkIO.kt:32-39 | the first call creates and stores a fresh idle instance with the given config; later calls return the stored instance and ignore their config |
| `LinkIOSdk.LinkIOCompanion.GetInstance` | src/main/java/io/linkio/android/LinkIO.kt:41-43 | fails with the "not initialized" error before any configure, and returns the stored instance afterwards |
| `LinkIOSdk.LaterLinkSupersedesEarlier` | src/main/java/io/linkio/android/LinkIO.kt:79-116 | a deferred link and then a direct link before any handler: the later handler receives only the direct link, once |
| `LinkIOSdk.ConfigureIsIdempotent` | src/main/java/io/linkio/android/LinkIO.kt:32-43 | two configure calls give one instance, built from the first configuration |

## Left out

- Lifecycle observation. The observer that calls `checkPendingLink` on app start when
  `autoCheckPendingLinks` is set is platform plumbing. `CheckPendingLink` is a hook the caller
  invokes, and `autoCheckPendingLinks` is kept only as a configuration field.
- HTTP. The OkHttp client, its timeouts and the asynchronous enqueueing are network I/O. A request is
  its URL (and body). The later callback is a separate call (`OnPendingLinkResponse`, or
  `Referral.CallbackCalls`) that takes an abstract outcome.
- JSON. Gson encoding and decoding are library calls. Decoding is an abstract outcome (failure or a
  link). The referral body is a map, not JSON text. An exception while the body is read is not
  modelled.
- Android `Uri` parsing and percent-decoding. These belong to a platform library. The URI is an
  abstract record.
- Randomness and persistence. `UUID.randomUUID` becomes a fresh identifier the caller supplies. The
  preference store is a map. The asynchronous `apply()` is treated as updating that map at once,
  which is what later reads see.
- Threads. The `@Volatile` double-checked locking in `configure` and the unguarded races between
  network callbacks and the main thread are concurrency. Every operation here is sequential.
- Handler reentrancy. The source calls a handler before it clears the pending slot. The model
  records the invocation as an opaque log entry, so a handler that calls back into the SDK during
  that invocation is not modelled.
- Handler exceptions. A handler that throws is not modelled. On the deferred path the source would
  catch the exception and log it, and on the direct path the exception would reach the caller.
- A null decode. A decoder that returns null instead of failing or giving a link is not modelled.
  The decode outcome is either a failure or a link.
- `appScheme`. No logic uses this configuration field, so the model drops it.
- Logging. `printStackTrace` on a decode failure only writes a log.
