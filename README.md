# Call logging for a Ktor application, in Dafny

This project models the call-logging feature of an early Ktor server
(`ktor-core/src/org/jetbrains/ktor/features/CallLogging.kt`) and proves its behaviour.

The feature does four things:

- **Installation.** It reads a configuration whose level defaults to TRACE. It accepts that
  level only if it is TRACE, DEBUG or INFO and the application's logger has it enabled.
  Otherwise it throws an `IllegalArgumentException` naming the level, before anything is built.
  On success it builds the feature. It then inserts a phase named `Logging` just before the
  pipeline's `Infrastructure` phase and adds one interceptor there.
- **Call logging.** The interceptor lets the rest of the pipeline run first. Then it logs
  `"<status>: <METHOD> - <path>"`. When the status is Found, ` -> <Location>` is appended.
  A call with no status is logged as `Unhandled`.
- **Dispatch.** `log` hands each message to exactly one of `info`, `debug` or `trace`, the one
  for the level chosen at installation.
- **Lifecycle.** Building the feature subscribes one handler to each of the application
  monitor's four slots (starting, started, stopping, stopped). Each handler logs a fixed line
  that names the application. The stopped handler also unsubscribes all four handlers,
  itself included.

Modules, one per component:

| file | module | what it holds |
|---|---|---|
| `wrappers.dfy` | `Wrappers` | `Option` (Kotlin's nullable values) and `Result` (thrown exceptions) |
| `sequences.dfy` | `Sequences` | the position of the first occurrence of a value in a sequence |
| `levels.dfy` | `Levels` | the slf4j levels, their names, the three levels the feature supports |
| `logging.dfy` | `Logging` | the logger: its enabled levels and the messages handed to it, as a class |
| `lifecycle.dfy` | `Lifecycle` | handlers, first-occurrence removal, the monitor as a class with four handler lists |
| `pipeline.dfy` | `Pipeline` | phase names, insertion before a phase, interceptor registrations, the application as a class |
| `features.dfy` | `Features` | the feature: configuration, level selection, message formatting, the `CallLogging` class, `Install` |
| `scenarios.dfy` | `Scenarios` | complete runs against a fresh logger, monitor and pipeline, with the exact log each produces |

How each part is modelled:

- **Handlers.** A handler is identified by the object that created it and its role
  (`Handler(owner, role)`). This matches Kotlin, where lambdas are equal only when they are
  the same object, and where each feature instance has four distinct handler lambdas.
- **Removal.** `-=` removes the first equal handler (`RemoveFirst`).
- **Handler bookkeeping.** `Owned` and `Foreign` split a slot's list into this feature's
  handlers and everybody else's, and the lemmas track both parts.
- **The feature's stateful parts use classes.** The logger's message list, the monitor's four
  lists and the pipeline's phases and registrations are fields of classes. The methods
  reassign these fields and state the new state in terms of the old.
- **The pure parts are functions.** The level choice and the message builders are functions
  with contracts.

## Model

| member | source | states |
|---|---|---|
| Features.DefaultConfiguration | ktor-core/src/org/jetbrains/ktor/features/CallLogging.kt:12-14 | the default configuration's level is TRACE |
| Features.SelectLevel | ktor-core/src/org/jetbrains/ktor/features/CallLogging.kt:41-46 | succeeds exactly when the requested level is TRACE, DEBUG or INFO and enabled in the logger; the chosen level is then the requested one; otherwise the error is UnsupportedLevel("The <level> log level is not supported.") |
| Features.Install | ktor-core/src/org/jetbrains/ktor/features/CallLogging.kt:38-54 | an unusable level fails with that error, builds nothing and changes neither the pipeline nor the monitor; otherwise a fresh feature is built and each slot becomes its old list followed by that feature's handler for it; on success the returned feature is that one, at the requested level and on the application's logger and monitor, `Logging` goes just before the first `Infrastructure`, and the logging phase gains exactly the feature's interceptor; a missing `Infrastructure` fails with PhaseNotFound after those subscriptions, with phases and registrations unchanged; success happens exactly when both checks pass |
| Features.LogInfo | ktor-core/src/org/jetbrains/ktor/features/CallLogging.kt:72 | the text is the method, then " - ", then the path, and nothing else |
| Features.SuccessMessage | ktor-core/src/org/jetbrains/ktor/features/CallLogging.kt:63-69 | the line starts with the status text ("Unhandled" when there is no status), ": " and the request info; it continues past that exactly when the status is Found, and then with " -> " and the Location value |
| Features.Dispatched | ktor-core/src/org/jetbrains/ktor/features/CallLogging.kt:57-61 | the three level tests hand over exactly one entry, at the level and with the message unchanged, for INFO, DEBUG or TRACE; none for any other level |
| Features.CallLogging.Log | ktor-core/src/org/jetbrains/ktor/features/CallLogging.kt:57-61 | the logger's messages grow by exactly Dispatched(level, message) |
| Features.CallLogging.LogSuccess | ktor-core/src/org/jetbrains/ktor/features/CallLogging.kt:63-69 | the logger's messages grow by the dispatched SuccessMessage of the call |
| Features.CallLogging.constructor | ktor-core/src/org/jetbrains/ktor/features/CallLogging.kt:21-34 | each slot gains exactly this feature's handler for it, at the end; other subscribers' handlers are untouched; afterwards each slot holds exactly one handler of this feature |
| Features.CallLogging.RemoveHandlers | ktor-core/src/org/jetbrains/ktor/features/CallLogging.kt:24-27 | each slot loses the first occurrence of this feature's handler for it |
| Features.CallLogging.Handle | ktor-core/src/org/jetbrains/ktor/features/CallLogging.kt:16-28 | the handler logs "Application starting/started/stopping/stopped: <app>" at the feature's level; only the stopped handler touches the monitor; it keeps every other subscriber's handlers in order and leaves no handler of the feature in any slot; a second run on an already unsubscribed feature leaves the monitor as it was |
| Features.CallLogging.Deliver | ktor-core/src/org/jetbrains/ktor/features/CallLogging.kt:30-33 | raising a slot runs the feature's handler for it once if subscribed there, and does nothing at all otherwise |
| Features.CallLogging.Intercept | ktor-core/src/org/jetbrains/ktor/features/CallLogging.kt:49-52 | the rest of the pipeline runs first and its outcome is returned; on success the logged line is built from the call as the rest left it; a downstream failure propagates with nothing logged |
| Lifecycle.RemoveFirst | ktor-core/src/org/jetbrains/ktor/features/CallLogging.kt:24-27 | removing an absent handler changes nothing; removing a present one shortens the list by exactly one |
| Lifecycle.RemoveFirstAt | ktor-core/src/org/jetbrains/ktor/features/CallLogging.kt:24-27 | for a present handler, the one removed is its first occurrence, and everything before and after it stays in order |
| Lifecycle.RemoveOwnHandler | ktor-core/src/org/jetbrains/ktor/features/CallLogging.kt:24-27 | removing a handler removes it from its owner's part of the list and leaves every other owner's handlers in place and in order |
| Lifecycle.AppendOwnHandler | ktor-core/src/org/jetbrains/ktor/features/CallLogging.kt:30-33 | appending a handler adds it to its owner's part only |
| Lifecycle.OwnedEmptyIff | ktor-core/src/org/jetbrains/ktor/features/CallLogging.kt:22-28 | a list holds no handler of an owner exactly when that owner's part of it is empty |
| Lifecycle.NoneOwned | ktor-core/src/org/jetbrains/ktor/features/CallLogging.kt:30-33 | a list none of whose handlers belongs to an owner has an empty owned part and is all foreign |
| Lifecycle.FiltersDistribute | ktor-core/src/org/jetbrains/ktor/features/CallLogging.kt:30-33 | both parts of a joined list are the joined parts |
| Lifecycle.ApplicationMonitor.Subscribe | ktor-core/src/org/jetbrains/ktor/features/CallLogging.kt:30-33 | `+=` appends to one slot and leaves the other three alone |
| Lifecycle.ApplicationMonitor.Unsubscribe | ktor-core/src/org/jetbrains/ktor/features/CallLogging.kt:24-27 | `-=` removes the first occurrence from one slot and leaves the other three alone |
| Sequences.IndexOf | ktor-core/src/org/jetbrains/ktor/features/CallLogging.kt:48 | the position found holds the phase and no earlier position does; it is the length when the phase is absent |
| Pipeline.InsertBefore | ktor-core/src/org/jetbrains/ktor/features/CallLogging.kt:48 | fails exactly when the reference phase is absent; otherwise the new phase sits just before the first occurrence of the reference, and removing it gives back the old list in its old order |
| Pipeline.InterceptorsOfAppend | ktor-core/src/org/jetbrains/ktor/features/CallLogging.kt:49-52 | a registration adds its interceptor at the end of its own phase's list and to no other |
| Pipeline.Application.InsertPhaseBefore | ktor-core/src/org/jetbrains/ktor/features/CallLogging.kt:48 | the phase list becomes InsertBefore's result, or stays as it was when the reference is missing |
| Pipeline.Application.Intercept | ktor-core/src/org/jetbrains/ktor/features/CallLogging.kt:49-52 | for a phase of the pipeline, exactly one registration is appended |
| Logging.Logger.Info | ktor-core/src/org/jetbrains/ktor/features/CallLogging.kt:58 | exactly one INFO entry with the message is appended |
| Logging.Logger.Debug | ktor-core/src/org/jetbrains/ktor/features/CallLogging.kt:59 | exactly one DEBUG entry with the message is appended |
| Logging.Logger.Trace | ktor-core/src/org/jetbrains/ktor/features/CallLogging.kt:60 | exactly one TRACE entry with the message is appended |
| Scenarios.LifecycleTranscript | ktor-core/src/org/jetbrains/ktor/features/CallLogging.kt:16-33 | default install, then starting, started, stopping, stopped and stopped again: exactly four lines, in order, each naming the application, and no handler left in any slot |
| Scenarios.StartUp | ktor-core/src/org/jetbrains/ktor/features/CallLogging.kt:16-18 | the first three transitions log their three lines and leave the monitor alone |
| Scenarios.ShutDown | ktor-core/src/org/jetbrains/ktor/features/CallLogging.kt:22-28 | raising stopped twice logs one line and empties all four slots |
| Scenarios.RedirectTranscript | ktor-core/src/org/jetbrains/ktor/features/CallLogging.kt:49-52 | a GET of /items answered downstream with Found and Location /items/1 logs exactly "<Found's text>: GET - /items -> /items/1" |
| Scenarios.OkTranscript | ktor-core/src/org/jetbrains/ktor/features/CallLogging.kt:67 | a POST of /submit answered with 200 logs exactly "<status text>: POST - /submit" at INFO |
| Scenarios.UnhandledTranscript | ktor-core/src/org/jetbrains/ktor/features/CallLogging.kt:64 | a call nothing handled logs exactly "Unhandled: GET - /missing" |
| Scenarios.RejectedInstall | ktor-core/src/org/jetbrains/ktor/features/CallLogging.kt:41-47 | asking for INFO from a logger without INFO fails with "The INFO log level is not supported.", with no phase, interceptor or handler added |

## Left out

- **slf4j logger.** It is modelled as a set of enabled levels plus the list of messages handed
  to it. Whether the backend then writes a message is the library's business and is not
  modelled.
- **`Event` and the real `ApplicationMonitor`.** Their code is not part of this model. The
  model assumes `+=` appends and `-=` removes the first equal handler (Java's `List.remove`).
  Raising a slot is modelled only as far as this feature goes (`Deliver`). Other subscribers'
  callbacks and what they do are not modelled.
- **Removal during firing.** Whether it is safe to remove handlers while a slot is being
  fired depends on the monitor's iteration, which is not visible here. Concurrency is left out.
- **The pipeline's internals.** The bodies of `insertPhaseBefore` and `intercept` are not
  part of this model. Phases are modelled as names, and an interceptor as a registration
  tied to a phase name.
- **Phase identity.** Real phases are objects compared by identity. Installing the feature
  twice therefore inserts a second, distinct `Logging` phase. The model identifies phases by
  name, so it allows the duplicate name. In that case `InterceptorsOf(registrations, "Logging")`
  merges the interceptors of both `Logging` phases, and that merged list is what the last
  clause of `Install`'s contract describes.
- **Missing `Infrastructure`.** How `insertPhaseBefore` fails is not shown. The model returns
  PhaseNotFound. Because the feature is built on the line before, its subscriptions stay in
  place in that case.
- **`intercept` on a phase the pipeline lacks.** What `intercept` does then is not shown. The
  model requires the phase to be present, which `Install` ensures by inserting it first.
- **`proceed()`.** Its coroutine and suspension semantics are left out. The rest of
  the pipeline is a function from the call to either the call as left downstream or a
  failure (an exception).
- **Execution of the whole interceptor chain.** Only the feature's own interceptor is modelled.
- **Opaque string forms.** `HttpStatusCode.toString`, the `Application`'s string form and the
  header lookup are taken as given. A status carries its own text. The `when` compares
  statuses by value and description, as data classes do. The `Location` header is an optional
  value, written as "null" when absent, because that is how a Kotlin string template renders
  null. This rendering is an assumption, not a proved fact.
- **`AttributeKey("Call Logging")` and the keyed feature store.** Only the key is built in
  the source. Storing the feature by key is not shown, so nothing of it is modelled.
- **The initial `{}` value of `stopped`.** It is replaced before anything is subscribed, so it
  can never be observed. The model gives the stopped handler its final behaviour from the start.
- **The configuration.** The mutable `Configuration` class and its `configure` block are
  modelled as a value and a function applied to the default.
