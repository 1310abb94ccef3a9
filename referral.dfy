/** The referral report: its address, its body and how its outcome reaches the caller. */
module Referral {
  import opened Wrappers
  import opened Http

  const TrackReferralPath := "/api/track-referral"

  const ReferralCodeKey := "referralCode"
  const UserIdKey := "userId"
  const MetadataKey := "metadata"

  /** The address of the referral report: the backend URL followed by the referral path. */
  function TrackReferralUrl(backendURL: string): (url: string)
    ensures |url| == |backendURL| + |TrackReferralPath|
    ensures url[..|backendURL|] == backendURL
    ensures url[|backendURL|..] == TrackReferralPath
  {
    backendURL + TrackReferralPath
  }

  /** A value in the report's body: one of the two strings, or the caller's metadata map
      with values of the caller's type. */
  datatype BodyValue<M> = Text(text: string) | Metadata(fields: map<string, M>)

  /** Identity of the caller's result callback. */
  type CallbackId = nat

  /** How the report ends: the transport fails, or a response arrives with a status code. */
  datatype ReferralOutcome = ReferralFailure | ReferralResponse(code: int)

  /** The result reported to the caller: true exactly for a successful response. */
  function ReportedSuccess(outcome: ReferralOutcome): (ok: bool)
    ensures ok <==> outcome.ReferralResponse? && IsSuccessful(outcome.code)
  {
    match outcome
    case ReferralFailure => false
    case ReferralResponse(code) => IsSuccessful(code)
  }

  /** The invocations of the caller's callback when the report ends: none without a
      callback, otherwise exactly one, with the reported result. */
  function CallbackCalls(callback: Option<CallbackId>, outcome: ReferralOutcome): (calls: seq<(CallbackId, bool)>)
    ensures callback.None? ==> calls == []
    ensures callback.Some? ==> |calls| == 1 && calls[0].0 == callback.value
    ensures callback.Some? ==> (calls[0].1 <==> outcome.ReferralResponse? && IsSuccessful(outcome.code))
  {
    match callback
    case None => []
    case Some(c) => [(c, ReportedSuccess(outcome))]
  }
}
