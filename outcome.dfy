/**
 The decision taken when the download-subscription broadcast arrives: the
 platform's result code and the device's SDK level select one of three
 outcomes, and each outcome becomes one call on the download listener.
 */
module EsimOutcome {

  datatype Option<T> = None | Some(value: T)

  /** EuiccManager.EMBEDDED_SUBSCRIPTION_RESULT_OK */
  const EmbeddedSubscriptionResultOk: int := 0

  /** Build.VERSION_CODES.Q (Android 10) */
  const VersionCodeQ: int := 29

  /** The profile record handed to OnEsimDownloadListener.onFailure. */
  datatype Profile = Profile(id: int, carrierName: string, password: string)

  /** The fixed profile every failure carries. */
  const PlaceholderProfile: Profile := Profile(123, "Spectrum", "somePassword")

  /** The string resources passed to the listener, named after their resource ids. */
  datatype MessageKey =
    | OnSuccessResponseActiveEsim
    | OnSuccessResponseInactiveEsim
    | OnFailureEsimDownload

  /** What a completed download means for the caller. */
  datatype Outcome =
    | ActiveSuccess             // profile downloaded and active
    | InactiveSuccess           // profile downloaded, SDK below Q cannot activate it
    | Failure(profile: Profile) // download not successful

  /** One call on OnEsimDownloadListener. */
  datatype ListenerCall =
    | OnSuccess(message: MessageKey)
    | OnFailure(message: MessageKey, profile: Profile)

  /**
   Classifies a completed download. The detailed code (absent when the
   broadcast carried no Intent) is accepted only to be logged.
   */
  function Classify(resultCode: int, sdkInt: int, detailCode: Option<int>): (o: Outcome)
    ensures o.ActiveSuccess? <==> resultCode == EmbeddedSubscriptionResultOk && sdkInt >= VersionCodeQ
    ensures o.InactiveSuccess? <==> resultCode == EmbeddedSubscriptionResultOk && sdkInt < VersionCodeQ
    ensures o.Failure? <==> resultCode != EmbeddedSubscriptionResultOk
    ensures o.Failure? ==> o.profile == PlaceholderProfile
  {
    if resultCode == EmbeddedSubscriptionResultOk then
      if sdkInt >= VersionCodeQ then ActiveSuccess else InactiveSuccess
    else
      Failure(PlaceholderProfile)
  }

  /** The listener call that reports an outcome. */
  function ListenerCallFor(o: Outcome): (c: ListenerCall)
    ensures c.OnSuccess? <==> !o.Failure?
    ensures o.ActiveSuccess? ==> c.message == OnSuccessResponseActiveEsim
    ensures o.InactiveSuccess? ==> c.message == OnSuccessResponseInactiveEsim
    ensures o.Failure? ==> c.message == OnFailureEsimDownload && c.profile == o.profile
  {
    match o
    case ActiveSuccess => OnSuccess(OnSuccessResponseActiveEsim)
    case InactiveSuccess => OnSuccess(OnSuccessResponseInactiveEsim)
    case Failure(p) => OnFailure(OnFailureEsimDownload, p)
  }

  /** The detailed code never changes the outcome. */
  lemma ClassifyIgnoresDetail(resultCode: int, sdkInt: int, d1: Option<int>, d2: Option<int>)
    ensures Classify(resultCode, sdkInt, d1) == Classify(resultCode, sdkInt, d2)
  {
  }
}
