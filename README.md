# EsimHandler: a Dafny model

This project models `EsimHandler`, the main class of the Charter eSIM library.
The class downloads a cellular subscription profile through Android's
`EuiccManager` and reports the result to an `OnEsimDownloadListener`.

- `init` stores the listener.
- `downloadEsim(code)` passes two gates: carrier privileges, then the eUICC
  service being enabled. It then registers a broadcast receiver for
  `download_subscription` and submits the download asynchronously.
- The receiver's `onReceive` classifies the platform's result code. When it
  is given a non-null `Context`, it calls the listener once: `onSuccess` with
  an "active" or "inactive" message, depending on the SDK level, or
  `onFailure` with a fixed placeholder profile. Without a `Context` it calls
  no listener. Either way it then calls `onDestroy`.
- `onDestroy` unregisters the receiver.

The model has four modules:

- `EsimOutcome` (outcome.dfy): the pure decision. `Classify` maps
  (result code, SDK level, detailed code) to an `Outcome`, and
  `ListenerCallFor` maps the outcome to the listener call it produces. The
  constants are the platform's: `EMBEDDED_SUBSCRIPTION_RESULT_OK` is 0 and
  `VERSION_CODES.Q` is 29.
- `EsimTrace` (trace.dfy): what the handler does to the world, as a log of
  effects. The effects are register receiver, unregister receiver, submit
  download and notify listener. The registration state (`Registered`), the
  submissions (`Submissions`) and the listener calls (`Calls`) are read off
  this log. `WellFormed` is the order the handler keeps: a registration right
  before every submission, and an unregistration right after every listener
  call.
- `EsimLifecycle` (handler.dfy): the class `EsimHandler`. The lateinit
  listener is a real `Option` field, and the effect log is a ghost field. Each
  method's `ensures` says the log grows by exactly the effect block that a
  function of the inputs gives (`DownloadEffects`, `ReceiveEffects`,
  `DestroyEffects`). The lemmas state what those blocks mean for
  registration, submissions and listener calls.
- `EsimSession` (session.dfy): a handler's life as a sequence of calls on its
  entry points. `Step` is one call and `Run` is a sequence of calls.
  Induction lemmas state properties over every sequence: exactly one listener
  call per broadcast received with a context, one submission per
  `downloadEsim` that passes both gates, the order kept, and the receiver
  unregistered after the last event. Under the platform's rule that a
  broadcast reaches the receiver only while it is registered
  (`DeliveredWhileRegistered`), the listener is called at most once per
  download that passes both gates. `Perform` shows that the class methods
  carry out `Step`. Two client methods, `ScenarioGates` and
  `ScenarioReceive`, show what a caller can conclude from the contracts.

The external inputs become parameters:

- the answer of `TelephonyManager.hasCarrierPrivileges()`;
- `EuiccManager.isEnabled`;
- `Build.VERSION.SDK_INT`;
- the broadcast itself: its result code, whether `onReceive` got a non-null
  `Context`, and the detailed-code extra (absent when the `Intent` is null).

What the code does, and therefore what the model does:

- Nothing guards a second registration.
  `esimlibrary/src/main/java/com/charter/esimlibrary/EsimHandler.kt:83-86`
  registers every time `downloadEsim` gets past the gates, even while a
  download is outstanding.
- Unregistration is not idempotent. `EsimHandler.kt:117-119` unregisters
  unconditionally, so every `onReceive` and every `onDestroy` adds an
  unregistration, whatever the registration state.
- `init` reassigns the listener each time it is called, so `Init` may replace
  the listener.
- Without a `Context`, `onReceive` calls no listener and still unregisters
  (`EsimHandler.kt:37, 42, 47, 54`).
- `onReceive` has no `try`/`finally`. If the listener throws, `onDestroy` at
  `EsimHandler.kt:54` never runs and the receiver stays registered. The model
  does not cover this path (see "## Left out").

## Model

| member | source | states |
|---|---|---|
| EsimOutcome.Classify | esimlibrary/src/main/java/com/charter/esimlibrary/EsimHandler.kt:34-50 | Active success exactly when the result code is OK and SDK >= Q. Inactive success exactly when it is OK and SDK < Q. Failure exactly when it is not OK, and a failure carries the placeholder profile. |
| EsimOutcome.ListenerCallFor | esimlibrary/src/main/java/com/charter/esimlibrary/EsimHandler.kt:37-49 | Success outcomes become onSuccess with the active or inactive message. A failure becomes onFailure with the failure message and the outcome's profile. |
| EsimOutcome.ClassifyIgnoresDetail | esimlibrary/src/main/java/com/charter/esimlibrary/EsimHandler.kt:27-52 | The detailed code, present or absent, never changes the outcome. |
| EsimLifecycle.DownloadGates | esimlibrary/src/main/java/com/charter/esimlibrary/EsimHandler.kt:62-99 | If either gate fails, the log is unchanged. If both pass, the receiver is registered afterwards and exactly one submission of the code is added. The listener is never called. |
| EsimLifecycle.DownloadEffects | esimlibrary/src/main/java/com/charter/esimlibrary/EsimHandler.kt:62-99 | Effects exist exactly when both gates pass. They keep the order: the registration comes right before the submission of the code. They never call the listener or unregister. |
| EsimLifecycle.ReceiveEffects | esimlibrary/src/main/java/com/charter/esimlibrary/EsimHandler.kt:26-55 | One listener call, to the installed listener, exactly when there is a context. The effects always end with an unregistration, keep the order, and never register or submit. |
| EsimLifecycle.DestroyEffects | esimlibrary/src/main/java/com/charter/esimlibrary/EsimHandler.kt:117-119 | Ends with an unregistration whatever the registration state, and calls and submits nothing. |
| EsimLifecycle.ReceiveReportsOnce | esimlibrary/src/main/java/com/charter/esimlibrary/EsimHandler.kt:26-55 | A broadcast adds one listener call when there is a context and none without one. That call is the classified outcome's, sent to the installed listener. The receiver is unregistered afterwards on every branch, and nothing is submitted. |
| EsimLifecycle.ReceiveOkActive | esimlibrary/src/main/java/com/charter/esimlibrary/EsimHandler.kt:34-39 | OK with SDK >= Q adds exactly one onSuccess with the "active" message. |
| EsimLifecycle.ReceiveOkInactive | esimlibrary/src/main/java/com/charter/esimlibrary/EsimHandler.kt:40-44 | OK with SDK < Q adds exactly one onSuccess with the "inactive" message. |
| EsimLifecycle.ReceiveNotOk | esimlibrary/src/main/java/com/charter/esimlibrary/EsimHandler.kt:46-50 | Any other code adds exactly one onFailure with the failure message and the placeholder profile. |
| EsimLifecycle.DestroyUnregisters | esimlibrary/src/main/java/com/charter/esimlibrary/EsimHandler.kt:117-119 | onDestroy leaves the receiver unregistered. It adds no listener call and no submission. |
| EsimLifecycle.EsimHandler.constructor | esimlibrary/src/main/java/com/charter/esimlibrary/EsimHandler.kt:16-23 | A new handler has no listener and has done nothing. |
| EsimLifecycle.EsimHandler.Init | esimlibrary/src/main/java/com/charter/esimlibrary/EsimHandler.kt:58-60 | Stores the listener and has no other effect. |
| EsimLifecycle.EsimHandler.CheckCarrierPrivileges | esimlibrary/src/main/java/com/charter/esimlibrary/EsimHandler.kt:102-115 | Returns exactly the carrier-privilege answer. |
| EsimLifecycle.EsimHandler.DownloadEsim | esimlibrary/src/main/java/com/charter/esimlibrary/EsimHandler.kt:62-99 | The log grows by the download's effects: nothing without privileges, nothing with the service disabled, and otherwise a registration then the submission. The order invariant is kept. |
| EsimLifecycle.EsimHandler.OnReceive | esimlibrary/src/main/java/com/charter/esimlibrary/EsimHandler.kt:26-55 | Needs a listener only when there is a context. The log grows by the listener call (when there is a context) and then one unregistration. The listener is unchanged and the order invariant is kept. |
| EsimLifecycle.EsimHandler.OnDestroy | esimlibrary/src/main/java/com/charter/esimlibrary/EsimHandler.kt:117-119 | The log grows by one unregistration, whatever the registration state. The order invariant is kept. |
| EsimSession.Step | esimlibrary/src/main/java/com/charter/esimlibrary/EsimHandler.kt:26-119 | Only init changes the listener, and init leaves the log unchanged. No entry point shrinks the log. A received broadcast or onDestroy ends the log with an unregistration. |
| EsimSession.Run | esimlibrary/src/main/java/com/charter/esimlibrary/EsimHandler.kt:26-119 | After init, the listener stays set over any sequence of calls, and the log never shrinks. |
| EsimSession.StepRegistered | esimlibrary/src/main/java/com/charter/esimlibrary/EsimHandler.kt:54-119 | A download that passes both gates leaves the receiver registered. A received broadcast or onDestroy leaves it unregistered. Any other call leaves the registration state unchanged. |
| EsimSession.ListenerCalledAtMostOncePerDownload | esimlibrary/src/main/java/com/charter/esimlibrary/EsimHandler.kt:26-99 | Under the rule that a broadcast reaches onReceive only while the receiver is registered, the listener is called at most once per download that passes both gates. One more call is possible if the receiver was already registered at the start. |
| EsimSession.Perform | esimlibrary/src/main/java/com/charter/esimlibrary/EsimHandler.kt:26-119 | Each call on the class changes the listener and the log as Step says. |
| EsimSession.ListenerCalledOncePerBroadcast | esimlibrary/src/main/java/com/charter/esimlibrary/EsimHandler.kt:26-55 | Over any sequence of calls, the number of listener calls equals the number of broadcasts received with a context: at most one per event, and none without an event. |
| EsimSession.SubmittedOncePerPassedGate | esimlibrary/src/main/java/com/charter/esimlibrary/EsimHandler.kt:62-99 | Over any sequence of calls, the number of submissions equals the number of downloadEsim calls that pass both gates. |
| EsimSession.RunKeepsOrder | esimlibrary/src/main/java/com/charter/esimlibrary/EsimHandler.kt:37-91 | Over any sequence of calls, registration comes right before every submission, and unregistration right after every listener call. |
| EsimSession.EndsUnregistered | esimlibrary/src/main/java/com/charter/esimlibrary/EsimHandler.kt:54-54 | A sequence of calls that ends with a received broadcast or onDestroy leaves the receiver unregistered. |

## Left out

- Android plumbing is not modelled: `PendingIntent`, `Intent`, `IntentFilter`, `getSystemService`, and how `registerReceiver` and `unregisterReceiver` work inside the platform. Registration is only an effect in the ghost log.
- The model does not say that Android raises `IllegalArgumentException` when an unregistered receiver is unregistered, for example on an `onDestroy` after `onReceive`. That is platform behaviour, and the code does not guard against it.
- The asynchronous submission (`GlobalScope.launch` on `Dispatchers.IO`) is one `SubmitDownload` effect, recorded when `downloadEsim` returns. Scheduling and concurrency are not modelled.
- The `RemoteException` catch is not modelled, because it only logs. The submission counts as issued either way.
- The platform delivers broadcasts only to a registered receiver. `OnReceive` does not require the receiver to be registered, because the handler itself does not check this. Over sequences of calls the rule is the predicate `DeliveredWhileRegistered`. `ListenerCalledAtMostOncePerDownload` assumes it.
- EsimLifecycle.EsimHandler.OnReceive: listener calls are assumed to return normally. In the code, a listener whose `onSuccess` or `onFailure` throws (`EsimHandler.kt:38, 43, 49`) skips the `onDestroy()` at line 54, so the receiver stays registered. The model always appends the unregistration.
- Logging (`Log.*`) is not modelled. Strings are not resolved: `context.getString(R.string.…)` lookups are message keys (`MessageKey`).
- `Build.VERSION.SDK_INT`, `hasCarrierPrivileges()` and `EuiccManager.isEnabled` are parameters. They are not computed.
- An uninitialised lateinit listener is not modelled. `OnReceive` requires a listener only when the broadcast has a context, which is the only case in which the code reads the field. `Run` starts after `init`.
- The listener interface, the `Profile` class and the string resources are not part of this model. Only the parts `EsimHandler.kt` uses are given as datatypes.
