/**
 The EsimHandler object: init stores the listener, downloadEsim passes two
 gates and then registers the receiver and submits the download, the
 receiver's onReceive reports the outcome and unregisters, and onDestroy
 unregisters. The carrier-privilege answer, the eUICC service's enabled
 flag and the SDK level are inputs; the Android calls are effects in a
 ghost log.
 */
module EsimLifecycle {
  import opened EsimOutcome
  import opened EsimTrace

  /**
   A broadcast delivered to the receiver: its result code, whether onReceive
   was given a Context, and the detailed-code extra (absent when the Intent
   is null, 0 when the extra is missing).
   */
  datatype Broadcast = Broadcast(resultCode: int, hasContext: bool, detailCode: Option<int>)

  /**
   The effects of downloadEsim: nothing unless both gates pass, and then a
   registration right before the submission, never a listener call or an
   unregistration.
   */
  function DownloadEffects(code: string, hasCarrierPrivileges: bool, euiccEnabled: bool): (r: seq<Effect>)
    ensures r != [] <==> hasCarrierPrivileges && euiccEnabled
    ensures WellFormed(r)
    ensures forall e | e in r :: !e.Notify? && e != UnregisterReceiver
    ensures SubmitDownload(code) in r <==> r != []
  {
    if !hasCarrierPrivileges then []
    else if !euiccEnabled then []
    else [RegisterReceiver, SubmitDownload(code)]
  }

  /**
   The effects of onReceive: one listener call exactly when there is a
   context, then onDestroy's unregistration on every branch; never a
   registration or a submission.
   */
  function ReceiveEffects(listener: Option<Listener>, b: Broadcast, sdkInt: int): (r: seq<Effect>)
    requires b.hasContext ==> listener.Some?
    ensures WellFormed(r)
    ensures r != [] && r[|r| - 1] == UnregisterReceiver
    ensures |r| == if b.hasContext then 2 else 1
    ensures b.hasContext ==> r[0].Notify? && r[0].listener == listener.value
    ensures forall e | e in r :: !e.SubmitDownload? && e != RegisterReceiver
  {
    (if b.hasContext
     then [Notify(listener.value, ListenerCallFor(Classify(b.resultCode, sdkInt, b.detailCode)))]
     else [])
    + DestroyEffects()
  }

  /**
   The effects of onDestroy: it ends with the receiver unregistered, whether
   or not it was registered, and calls and submits nothing.
   */
  function DestroyEffects(): (r: seq<Effect>)
    ensures r != [] && r[|r| - 1] == UnregisterReceiver
    ensures forall e | e in r :: !e.Notify? && !e.SubmitDownload? && e != RegisterReceiver
  {
    [UnregisterReceiver]
  }

  /**
   A gate that fails leaves the log as it was; when both pass, the receiver
   is registered, exactly one submission of the code is added and no
   listener is called.
   */
  lemma {:induction false} DownloadGates(t: seq<Effect>, code: string, hasCarrierPrivileges: bool, euiccEnabled: bool)
    ensures !hasCarrierPrivileges || !euiccEnabled ==> t + DownloadEffects(code, hasCarrierPrivileges, euiccEnabled) == t
    ensures hasCarrierPrivileges && euiccEnabled ==>
              Registered(t + DownloadEffects(code, hasCarrierPrivileges, euiccEnabled))
    ensures Submissions(t + DownloadEffects(code, hasCarrierPrivileges, euiccEnabled))
            == Submissions(t) + (if hasCarrierPrivileges && euiccEnabled then [code] else [])
    ensures Calls(t + DownloadEffects(code, hasCarrierPrivileges, euiccEnabled)) == Calls(t)
  {
    var d := DownloadEffects(code, hasCarrierPrivileges, euiccEnabled);
    CallsAppend(t, d);
    SubmissionsAppend(t, d);
    if d == [] {
      assert t + d == t;
    } else {
      assert (t + d)[..|t + d| - 1] == t + [RegisterReceiver];
      assert Submissions(d) == Submissions([RegisterReceiver]) + [code];
      assert Calls(d) == Calls([RegisterReceiver]);
    }
  }

  /**
   A received broadcast makes exactly one listener call when onReceive has a
   context and none without one, the call the outcome calls for, to the
   installed listener; afterwards the receiver is unregistered, whatever the
   branch, and nothing is submitted.
   */
  lemma {:induction false} ReceiveReportsOnce(t: seq<Effect>, listener: Option<Listener>, b: Broadcast, sdkInt: int)
    requires b.hasContext ==> listener.Some?
    ensures Calls(t + ReceiveEffects(listener, b, sdkInt))
            == Calls(t) + (if b.hasContext
                           then [Notify(listener.value, ListenerCallFor(Classify(b.resultCode, sdkInt, b.detailCode)))]
                           else [])
    ensures !Registered(t + ReceiveEffects(listener, b, sdkInt))
    ensures Submissions(t + ReceiveEffects(listener, b, sdkInt)) == Submissions(t)
  {
    var r := ReceiveEffects(listener, b, sdkInt);
    CallsAppend(t, r);
    SubmissionsAppend(t, r);
    if b.hasContext {
      assert r[..1] == [r[0]] && r == r[..1] + [UnregisterReceiver];
      CallsAppend(r[..1], [UnregisterReceiver]);
      SubmissionsAppend(r[..1], [UnregisterReceiver]);
    }
  }

  /** OK with SDK at least Q: one onSuccess with the "active" message. */
  lemma ReceiveOkActive(t: seq<Effect>, l: Listener, b: Broadcast, sdkInt: int)
    requires b.hasContext && b.resultCode == EmbeddedSubscriptionResultOk && sdkInt >= VersionCodeQ
    ensures Calls(t + ReceiveEffects(Some(l), b, sdkInt)) == Calls(t) + [Notify(l, OnSuccess(OnSuccessResponseActiveEsim))]
  {
    ReceiveReportsOnce(t, Some(l), b, sdkInt);
  }

  /** OK with SDK below Q: one onSuccess with the "inactive" message. */
  lemma ReceiveOkInactive(t: seq<Effect>, l: Listener, b: Broadcast, sdkInt: int)
    requires b.hasContext && b.resultCode == EmbeddedSubscriptionResultOk && sdkInt < VersionCodeQ
    ensures Calls(t + ReceiveEffects(Some(l), b, sdkInt)) == Calls(t) + [Notify(l, OnSuccess(OnSuccessResponseInactiveEsim))]
  {
    ReceiveReportsOnce(t, Some(l), b, sdkInt);
  }

  /** Any other result code: one onFailure with the failure message and the placeholder profile. */
  lemma ReceiveNotOk(t: seq<Effect>, l: Listener, b: Broadcast, sdkInt: int)
    requires b.hasContext && b.resultCode != EmbeddedSubscriptionResultOk
    ensures Calls(t + ReceiveEffects(Some(l), b, sdkInt))
            == Calls(t) + [Notify(l, OnFailure(OnFailureEsimDownload, Profile(123, "Spectrum", "somePassword")))]
  {
    ReceiveReportsOnce(t, Some(l), b, sdkInt);
  }

  /** onDestroy leaves the receiver unregistered and calls no listener. */
  lemma DestroyUnregisters(t: seq<Effect>)
    ensures !Registered(t + DestroyEffects())
    ensures Calls(t + DestroyEffects()) == Calls(t)
    ensures Submissions(t + DestroyEffects()) == Submissions(t)
  {
  }

  class EsimHandler {
    /** The lateinit listener field: None until init has run. */
    var listener: Option<Listener>
    /** Everything the handler has done to the platform and the listener, in order. */
    ghost var trace: seq<Effect>

    ghost predicate Valid()
      reads this
    {
      WellFormed(trace)
    }

    constructor ()
      ensures Valid()
      ensures listener == None && trace == []
    {
      listener := None;
      trace := [];
    }

    method Init(l: Listener)
      modifies this
      ensures listener == Some(l)
      ensures trace == old(trace)
    {
      listener := Some(l);
    }

    /** The answer of TelephonyManager.hasCarrierPrivileges, passed on unchanged (the log lines are left out). */
    method CheckCarrierPrivileges(hasCarrierPrivileges: bool) returns (isCarrier: bool)
      ensures isCarrier == hasCarrierPrivileges
    {
      if hasCarrierPrivileges {
        isCarrier := true;
      } else {
        isCarrier := false;
      }
    }

    method DownloadEsim(code: string, hasCarrierPrivileges: bool, euiccEnabled: bool)
      requires Valid()
      modifies this
      ensures Valid()
      ensures listener == old(listener)
      ensures trace == old(trace) + DownloadEffects(code, hasCarrierPrivileges, euiccEnabled)
    {
      WellFormedAppend(trace, DownloadEffects(code, hasCarrierPrivileges, euiccEnabled));
      var privileged := CheckCarrierPrivileges(hasCarrierPrivileges);
      if !privileged {
        return;
      }
      if !euiccEnabled {
        return;
      }
      trace := trace + [RegisterReceiver];
      trace := trace + [SubmitDownload(code)];
    }

    /** The receiver's onReceive: classify, tell the listener when there is a context, then onDestroy. */
    method OnReceive(b: Broadcast, sdkInt: int)
      requires Valid()
      requires b.hasContext ==> listener.Some?
      modifies this
      ensures Valid()
      ensures listener == old(listener)
      ensures trace == old(trace) + ReceiveEffects(old(listener), b, sdkInt)
    {
      WellFormedAppend(trace, ReceiveEffects(listener, b, sdkInt));
      var outcome := Classify(b.resultCode, sdkInt, b.detailCode);
      if b.hasContext {
        trace := trace + [Notify(listener.value, ListenerCallFor(outcome))];
      }
      OnDestroy();
    }

    method OnDestroy()
      modifies this
      ensures old(Valid()) ==> Valid()
      ensures listener == old(listener)
      ensures trace == old(trace) + DestroyEffects()
    {
      ghost var before := trace;
      trace := trace + [UnregisterReceiver];
      if WellFormed(before) {
        WellFormedAppend(before, DestroyEffects());
      }
    }
  }
}
