/**
 What the handler does to the world, as a log of effects: registering and
 unregistering its broadcast receiver, submitting a download, and calling the
 listener. The registration state, the submissions and the listener calls
 are all read off this one log.
 */
module EsimTrace {
  import opened EsimOutcome

  /** The listener installed by init, identified by reference. */
  datatype Listener = Listener(id: nat)

  datatype Effect =
    | RegisterReceiver                            // context.registerReceiver(receiver, ...)
    | UnregisterReceiver                          // context.unregisterReceiver(receiver)
    | SubmitDownload(code: string)                // mgr.downloadSubscription for the activation code
    | Notify(listener: Listener, call: ListenerCall)

  /** The listener calls of a log, in order. */
  function Calls(t: seq<Effect>): (r: seq<Effect>)
    ensures |r| <= |t|
    ensures forall e | e in r :: e.Notify? && e in t
    ensures (forall e | e in t :: !e.Notify?) ==> r == []
  {
    if t == [] then []
    else Calls(t[..|t| - 1]) + (if t[|t| - 1].Notify? then [t[|t| - 1]] else [])
  }

  /** The activation codes submitted in a log, in order. */
  function Submissions(t: seq<Effect>): (r: seq<string>)
    ensures |r| <= |t|
    ensures forall c | c in r :: SubmitDownload(c) in t
  {
    if t == [] then []
    else Submissions(t[..|t| - 1]) + (if t[|t| - 1].SubmitDownload? then [t[|t| - 1].code] else [])
  }

  /** Whether the receiver is registered after a log: the latest register or unregister decides. */
  function Registered(t: seq<Effect>): (b: bool)
    ensures b ==> RegisterReceiver in t
  {
    if t == [] then false
    else if t[|t| - 1] == RegisterReceiver then true
    else if t[|t| - 1] == UnregisterReceiver then false
    else Registered(t[..|t| - 1])
  }

  /**
   The order the handler keeps: every submission comes right after a
   registration, and every listener call is followed at once by an
   unregistration.
   */
  predicate WellFormed(t: seq<Effect>) {
    (forall i | 0 <= i < |t| && t[i].SubmitDownload? :: 0 < i && t[i - 1] == RegisterReceiver) &&
    (forall i | 0 <= i < |t| && t[i].Notify? :: i + 1 < |t| && t[i + 1] == UnregisterReceiver)
  }

  lemma {:induction false} CallsAppend(a: seq<Effect>, b: seq<Effect>)
    ensures Calls(a + b) == Calls(a) + Calls(b)
  {
    if b != [] {
      var b' := b[..|b| - 1];
      assert (a + b)[..|a + b| - 1] == a + b';
      CallsAppend(a, b');
    } else {
      assert a + b == a;
    }
  }

  lemma {:induction false} SubmissionsAppend(a: seq<Effect>, b: seq<Effect>)
    ensures Submissions(a + b) == Submissions(a) + Submissions(b)
  {
    if b != [] {
      var b' := b[..|b| - 1];
      assert (a + b)[..|a + b| - 1] == a + b';
      SubmissionsAppend(a, b');
    } else {
      assert a + b == a;
    }
  }

  /** Appending effects that hold no register or unregister leaves the registration state as it was. */
  lemma {:induction false} RegisteredAppend(a: seq<Effect>, b: seq<Effect>)
    requires RegisterReceiver !in b && UnregisterReceiver !in b
    ensures Registered(a + b) == Registered(a)
  {
    if b != [] {
      var b' := b[..|b| - 1];
      assert (a + b)[..|a + b| - 1] == a + b';
      RegisteredAppend(a, b');
    } else {
      assert a + b == a;
    }
  }

  /** Joining two well-formed logs keeps the order. */
  lemma WellFormedAppend(a: seq<Effect>, b: seq<Effect>)
    requires WellFormed(a) && WellFormed(b)
    ensures WellFormed(a + b)
  {
  }
}
