/**
 A handler's life as a sequence of calls on its entry points (init,
 downloadEsim, the receiver's onReceive and onDestroy), each with the
 external answers it sees, and what the whole sequence adds to the log.
 */
module EsimSession {
  import opened EsimOutcome
  import opened EsimTrace
  import opened EsimLifecycle

  datatype Request =
    | Init(listener: Listener)
    | DownloadEsim(code: string, hasCarrierPrivileges: bool, euiccEnabled: bool)
    | Receive(broadcast: Broadcast, sdkInt: int)
    | Destroy

  /** The handler's fields: the listener and the ghost log. */
  datatype State = State(listener: Option<Listener>, trace: seq<Effect>)

  /**
   One call, as the EsimHandler methods perform it: only init changes the
   listener and it leaves the log alone; no call shrinks the log, and a
   broadcast or onDestroy ends it with an unregistration.
   */
  function Step(s: State, r: Request): (s': State)
    requires s.listener.Some?
    ensures s'.listener == if r.Init? then Some(r.listener) else s.listener
    ensures r.Init? ==> s'.trace == s.trace
    ensures |s.trace| <= |s'.trace|
    ensures r.Receive? || r.Destroy? ==> s'.trace != [] && s'.trace[|s'.trace| - 1] == UnregisterReceiver
  {
    match r
    case Init(l) => State(Some(l), s.trace)
    case DownloadEsim(code, p, e) => State(s.listener, s.trace + DownloadEffects(code, p, e))
    case Receive(b, sdk) => State(s.listener, s.trace + ReceiveEffects(s.listener, b, sdk))
    case Destroy => State(s.listener, s.trace + DestroyEffects())
  }

  /** A sequence of calls made after init: the listener stays set and the log never shrinks. */
  function Run(s: State, rs: seq<Request>): (s': State)
    requires s.listener.Some?
    ensures s'.listener.Some?
    ensures |s.trace| <= |s'.trace|
    decreases rs
  {
    if rs == [] then s else Run(Step(s, rs[0]), rs[1..])
  }

  /** How many broadcasts in a sequence of calls reach onReceive with a context. */
  function BroadcastsWithContext(rs: seq<Request>): nat
  {
    if rs == [] then 0
    else (if rs[0].Receive? && rs[0].broadcast.hasContext then 1 else 0) + BroadcastsWithContext(rs[1..])
  }

  /** How many downloadEsim calls in a sequence pass both gates. */
  function DownloadsPassingGates(rs: seq<Request>): nat
  {
    if rs == [] then 0
    else (if rs[0].DownloadEsim? && rs[0].hasCarrierPrivileges && rs[0].euiccEnabled then 1 else 0)
         + DownloadsPassingGates(rs[1..])
  }

  /** Each call adds exactly as many listener calls as it brings broadcasts with a context. */
  lemma StepCalls(s: State, r: Request)
    requires s.listener.Some?
    ensures |Calls(Step(s, r).trace)| == |Calls(s.trace)| + (if r.Receive? && r.broadcast.hasContext then 1 else 0)
  {
    match r
    case Init(_) =>
    case DownloadEsim(code, p, e) => DownloadGates(s.trace, code, p, e);
    case Receive(b, sdk) => ReceiveReportsOnce(s.trace, s.listener, b, sdk);
    case Destroy => DestroyUnregisters(s.trace);
  }

  /**
   Over any sequence of calls the listener is called exactly once per
   broadcast received with a context: never more, never without a broadcast.
   */
  lemma {:induction false} ListenerCalledOncePerBroadcast(s: State, rs: seq<Request>)
    requires s.listener.Some?
    ensures |Calls(Run(s, rs).trace)| == |Calls(s.trace)| + BroadcastsWithContext(rs)
    decreases rs
  {
    if rs != [] {
      StepCalls(s, rs[0]);
      ListenerCalledOncePerBroadcast(Step(s, rs[0]), rs[1..]);
    }
  }

  /** Each call submits one download exactly when it is a downloadEsim that passes both gates. */
  lemma StepSubmissions(s: State, r: Request)
    requires s.listener.Some?
    ensures |Submissions(Step(s, r).trace)|
            == |Submissions(s.trace)| + (if r.DownloadEsim? && r.hasCarrierPrivileges && r.euiccEnabled then 1 else 0)
  {
    match r
    case Init(_) =>
    case DownloadEsim(code, p, e) => DownloadGates(s.trace, code, p, e);
    case Receive(b, sdk) => ReceiveReportsOnce(s.trace, s.listener, b, sdk);
    case Destroy => DestroyUnregisters(s.trace);
  }

  /** Over any sequence of calls, the downloads submitted are exactly those whose gates passed. */
  lemma {:induction false} SubmittedOncePerPassedGate(s: State, rs: seq<Request>)
    requires s.listener.Some?
    ensures |Submissions(Run(s, rs).trace)| == |Submissions(s.trace)| + DownloadsPassingGates(rs)
    decreases rs
  {
    if rs != [] {
      StepSubmissions(s, rs[0]);
      SubmittedOncePerPassedGate(Step(s, rs[0]), rs[1..]);
    }
  }

  /**
   The platform's delivery rule: a broadcast reaches onReceive only while
   the receiver is registered.
   */
  predicate DeliveredWhileRegistered(s: State, rs: seq<Request>)
    requires s.listener.Some?
    decreases rs
  {
    rs == [] ||
    ((rs[0].Receive? ==> Registered(s.trace)) && DeliveredWhileRegistered(Step(s, rs[0]), rs[1..]))
  }

  /** How each call moves the registration state. */
  lemma StepRegistered(s: State, r: Request)
    requires s.listener.Some?
    ensures Registered(Step(s, r).trace)
            == if r.DownloadEsim? && r.hasCarrierPrivileges && r.euiccEnabled then true
               else if r.Receive? || r.Destroy? then false
               else Registered(s.trace)
  {
    match r
    case Init(_) =>
    case DownloadEsim(code, p, e) => DownloadGates(s.trace, code, p, e);
    case Receive(b, sdk) => ReceiveReportsOnce(s.trace, s.listener, b, sdk);
    case Destroy => DestroyUnregisters(s.trace);
  }

  /**
   Under the delivery rule the listener is called at most once per download
   that passes both gates: onReceive always unregisters, and only such a
   download registers again, so no broadcast is handled after teardown.
   */
  lemma {:induction false} ListenerCalledAtMostOncePerDownload(s: State, rs: seq<Request>)
    requires s.listener.Some?
    requires DeliveredWhileRegistered(s, rs)
    ensures |Calls(Run(s, rs).trace)|
            <= |Calls(s.trace)| + DownloadsPassingGates(rs) + (if Registered(s.trace) then 1 else 0)
    decreases rs
  {
    if rs != [] {
      StepCalls(s, rs[0]);
      StepRegistered(s, rs[0]);
      ListenerCalledAtMostOncePerDownload(Step(s, rs[0]), rs[1..]);
    }
  }

  /**
   Over any sequence of calls the log keeps its order: registration right
   before every submission, unregistration right after every listener call.
   */
  lemma {:induction false} RunKeepsOrder(s: State, rs: seq<Request>)
    requires s.listener.Some? && WellFormed(s.trace)
    ensures WellFormed(Run(s, rs).trace)
    decreases rs
  {
    if rs != [] {
      match rs[0] {
        case Init(_) =>
        case DownloadEsim(code, p, e) =>
          WellFormedAppend(s.trace, DownloadEffects(code, p, e));
        case Receive(b, sdk) =>
          WellFormedAppend(s.trace, ReceiveEffects(s.listener, b, sdk));
        case Destroy =>
          WellFormedAppend(s.trace, DestroyEffects());
      }
      RunKeepsOrder(Step(s, rs[0]), rs[1..]);
    }
  }

  /** A run that ends with a received broadcast or onDestroy leaves the receiver unregistered. */
  lemma {:induction false} EndsUnregistered(s: State, rs: seq<Request>)
    requires s.listener.Some?
    requires rs != [] && (rs[|rs| - 1].Receive? || rs[|rs| - 1].Destroy?)
    ensures !Registered(Run(s, rs).trace)
    decreases rs
  {
    if |rs| == 1 {
      match rs[0]
      case Receive(b, sdk) => ReceiveReportsOnce(s.trace, s.listener, b, sdk);
      case Destroy => DestroyUnregisters(s.trace);
    } else {
      EndsUnregistered(Step(s, rs[0]), rs[1..]);
    }
  }

  /** The handler's methods perform Step: a call on the class matches the value model. */
  method Perform(h: EsimHandler, r: Request)
    requires h.Valid() && h.listener.Some?
    modifies h
    ensures h.Valid()
    ensures State(h.listener, h.trace) == Step(State(old(h.listener), old(h.trace)), r)
  {
    match r
    case Init(l) => h.Init(l);
    case DownloadEsim(code, p, e) => h.DownloadEsim(code, p, e);
    case Receive(b, sdk) => h.OnReceive(b, sdk);
    case Destroy => h.OnDestroy();
  }

  /** A client: without privileges or with the service disabled, downloadEsim changes nothing. */
  method ScenarioGates(code: string, l: Listener)
  {
    var h := new EsimHandler();
    h.Init(l);
    h.DownloadEsim(code, false, true);
    h.DownloadEsim(code, true, false);
    assert h.trace == [];
    h.DownloadEsim(code, true, true);
    DownloadGates([], code, true, true);
    assert Registered(h.trace) && Submissions(h.trace) == [code] && Calls(h.trace) == [];
  }

  /** A client: a completed download reports once, with the message its result calls for. */
  method ScenarioReceive(h: EsimHandler, l: Listener, resultCode: int, sdkInt: int, detail: Option<int>)
    requires h.Valid() && h.listener == Some(l)
    modifies h
  {
    ghost var t := h.trace;
    var b := Broadcast(resultCode, true, detail);
    h.OnReceive(b, sdkInt);
    ReceiveReportsOnce(t, Some(l), b, sdkInt);
    if resultCode == EmbeddedSubscriptionResultOk && sdkInt >= VersionCodeQ {
      ReceiveOkActive(t, l, b, sdkInt);
      assert Calls(h.trace) == Calls(t) + [Notify(l, OnSuccess(OnSuccessResponseActiveEsim))];
    } else if resultCode == EmbeddedSubscriptionResultOk {
      ReceiveOkInactive(t, l, b, sdkInt);
      assert Calls(h.trace) == Calls(t) + [Notify(l, OnSuccess(OnSuccessResponseInactiveEsim))];
    } else {
      ReceiveNotOk(t, l, b, sdkInt);
      assert Calls(h.trace) == Calls(t) + [Notify(l, OnFailure(OnFailureEsimDownload, PlaceholderProfile))];
    }
    assert !Registered(h.trace) && h.Valid();
  }
}
