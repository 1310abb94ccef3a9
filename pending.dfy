/** The request for a deferred link and what its response yields. */
module PendingLink {
  import opened Wrappers
  import opened LinkTypes
  import opened Http

  const PendingLinkPath := "/api/pending-link/"

  /** The address of the pending-link lookup for one device: the backend URL, the
      pending-link path, then the device identifier. */
  function PendingLinkUrl(backendURL: string, deviceId: string): (url: string)
    ensures |url| == |backendURL| + |PendingLinkPath| + |deviceId|
    ensures url[..|backendURL|] == backendURL
    ensures url[|backendURL|..|backendURL| + |PendingLinkPath|] == PendingLinkPath
    ensures url[|backendURL| + |PendingLinkPath|..] == deviceId
  {
    backendURL + PendingLinkPath + deviceId
  }

  /** Two devices never share a lookup address on the same backend. */
  lemma PendingLinkUrlInjective(backendURL: string, deviceId: string, otherId: string)
    requires PendingLinkUrl(backendURL, deviceId) == PendingLinkUrl(backendURL, otherId)
    ensures deviceId == otherId
  {
  }

  /** What decoding a response body gives: an exception or a link. */
  datatype Decode = DecodeFailure | Decoded(link: DeepLinkData)

  /** How the lookup ends: the transport fails, or a response arrives with a status code and
      a body (absent, or present with its decoding). */
  datatype PendingOutcome = PendingFailure | PendingResponse(code: int, body: Option<Decode>)

  /** The link the lookup hands on: present only for a successful response whose body is
      present and decodes; every other outcome is silently dropped. */
  function PendingLinkOf(outcome: PendingOutcome): (r: Option<DeepLinkData>)
    ensures r.Some? <==>
      outcome.PendingResponse? && IsSuccessful(outcome.code) && outcome.body.Some? && outcome.body.value.Decoded?
    ensures r.Some? ==> r.value == outcome.body.value.link
  {
    match outcome
    case PendingFailure => None
    case PendingResponse(code, body) =>
      if !IsSuccessful(code) then None
      else
        match body
        case None => None
        case Some(DecodeFailure) => None
        case Some(Decoded(link)) => Some(link)
  }
}
