/** The SDK object: the handler slot and the pending-link slot it updates in place, its
    entry points, and the process-wide cell that holds the one configured instance. */
module LinkIOSdk {
  import opened Wrappers
  import opened LinkTypes
  import opened Classifier
  import D = Dispatch
  import opened DeviceIdentity
  import opened PendingLink
  import opened Referral

  class LinkIO {
    const config: LinkIOConfig
    var deepLinkHandler: Option<D.HandlerId>
    var pendingDeepLink: Option<DeepLinkData>
    /** Every invocation of a handler, in order. */
    ghost var deliveries: seq<D.Delivery>

    /** The object's delivery state as a value of the state machine. */
    ghost function Snapshot(): D.DeliveryState
      reads this
    {
      D.DeliveryState(deepLinkHandler, pendingDeepLink, deliveries)
    }

    ghost predicate Valid()
      reads this
    {
      D.Valid(Snapshot())
    }

    constructor (config: LinkIOConfig)
      ensures this.config == config
      ensures Snapshot() == D.Idle && Valid()
    {
      this.config := config;
      deepLinkHandler := None;
      pendingDeepLink := None;
      deliveries := [];
    }

    /** Hands a produced link to the registered handler, or parks it in the pending slot. */
    method DeliverOrBuffer(link: DeepLinkData)
      requires Valid()
      modifies this
      ensures Valid()
      ensures Snapshot() == D.Produce(old(Snapshot()), link)
    {
      match deepLinkHandler {
        case Some(h) =>
          deliveries := deliveries + [D.Delivery(h, link)];
        case None =>
          pendingDeepLink := Some(link);
      }
    }

    /** The direct path: a claimed intent becomes a non-deferred link that is delivered or
        parked, and the call reports true; any other intent changes nothing and reports false. */
    method HandleDeepLink(intent: Option<Intent>) returns (handled: bool)
      requires Valid()
      modifies this
      ensures Valid()
      ensures handled <==> Classify(intent, config.domain).Some?
      ensures handled ==> Snapshot() == D.Produce(old(Snapshot()), Classify(intent, config.domain).value)
      ensures !handled ==> Snapshot() == old(Snapshot())
    {
      if intent.None? {
        return false;
      }
      var data := intent.value.data;
      if data.None? {
        return false;
      }
      var uri := data.value;
      if uri.host.None? {
        return false;
      }
      var host := uri.host.value;
      if host != config.domain && host != "www." + config.domain {
        return false;
      }
      var params := CollectParams(uri.queryParameterNames, uri.queryParameter);
      var deepLink := DeepLinkData(uri.text, params, false);
      DeliverOrBuffer(deepLink);
      return true;
    }

    /** Registers a handler in place of the previous one; a parked link goes to it at once
        and the pending slot is emptied. */
    method SetDeepLinkHandler(handler: D.HandlerId)
      requires Valid()
      modifies this
      ensures Valid()
      ensures Snapshot() == D.Register(old(Snapshot()), handler)
    {
      deepLinkHandler := Some(handler);
      match pendingDeepLink {
        case Some(link) =>
          deliveries := deliveries + [D.Delivery(handler, link)];
          pendingDeepLink := None;
        case None =>
      }
    }

    /** The device identifier from the preference store, storing the fresh one when none is there. */
    method GetDeviceId(prefs: Preferences, freshId: string) returns (id: string)
      modifies prefs
      ensures (id, prefs.entries) == GetOrCreate(old(prefs.entries), freshId)
    {
      if DeviceIdKey in prefs.entries {
        id := prefs.entries[DeviceIdKey];
      } else {
        id := freshId;
        prefs.entries := prefs.entries[DeviceIdKey := id];
      }
    }

    /** The deferred-link hook: resolves the device identifier and returns the address the
        lookup is sent to; the response arrives later through OnPendingLinkResponse. */
    method CheckPendingLink(prefs: Preferences, freshId: string) returns (url: string)
      modifies prefs
      ensures var (id, after) := GetOrCreate(old(prefs.entries), freshId);
        prefs.entries == after && url == PendingLinkUrl(config.backendURL, id)
    {
      var deviceId := GetDeviceId(prefs, freshId);
      url := config.backendURL + PendingLinkPath + deviceId;
    }

    /** The deferred path: only a successful, decoded response produces a link; every other
        outcome leaves both slots and the deliveries as they were. */
    method OnPendingLinkResponse(outcome: PendingOutcome)
      requires Valid()
      modifies this
      ensures Valid()
      ensures PendingLinkOf(outcome).Some? ==> Snapshot() == D.Produce(old(Snapshot()), PendingLinkOf(outcome).value)
      ensures PendingLinkOf(outcome).None? ==> Snapshot() == old(Snapshot())
    {
      if outcome.PendingResponse? && Http.IsSuccessful(outcome.code) {
        match outcome.body {
          case Some(Decoded(deepLink)) => DeliverOrBuffer(deepLink);
          case Some(DecodeFailure) =>
          case None =>
        }
      }
    }

    /** Builds the referral report: its address and a body holding the referral code and the
        user id, and the metadata exactly when the caller gave some. */
    method TrackReferral<M>(referralCode: string, userId: string, metadata: Option<map<string, M>>)
      returns (url: string, body: map<string, BodyValue<M>>)
      ensures url == TrackReferralUrl(config.backendURL)
      ensures body.Keys == {ReferralCodeKey, UserIdKey} + (if metadata.Some? then {MetadataKey} else {})
      ensures body[ReferralCodeKey] == Text(referralCode) && body[UserIdKey] == Text(userId)
      ensures metadata.Some? ==> body[MetadataKey] == Metadata(metadata.value)
    {
      url := config.backendURL + TrackReferralPath;
      body := map[ReferralCodeKey := Text(referralCode), UserIdKey := Text(userId)];
      if metadata.Some? {
        body := body[MetadataKey := Metadata(metadata.value)];
      }
    }
  }

  /** The process-wide cell holding the one configured instance. */
  class LinkIOCompanion {
    var instance: LinkIO?

    constructor ()
      ensures instance == null
    {
      instance := null;
    }

    /** Creates the instance on first use; every later call returns that same instance
        and ignores the configuration it is given. */
    method Configure(config: LinkIOConfig) returns (io: LinkIO)
      modifies this
      ensures old(instance) != null ==> io == old(instance) && instance == old(instance)
      ensures old(instance) == null ==>
        fresh(io) && instance == io && io.config == config && io.Snapshot() == D.Idle && io.Valid()
    {
      if instance != null {
        return instance;
      }
      io := new LinkIO(config);
      instance := io;
    }

    /** The configured instance, or an error before the first Configure. */
    method GetInstance() returns (r: Result<LinkIO, string>)
      ensures instance == null ==> r == Failure("LinkIO not initialized. Call configure() first.")
      ensures instance != null ==> r == Success(instance)
    {
      if instance == null {
        r := Failure("LinkIO not initialized. Call configure() first.");
      } else {
        r := Success(instance);
      }
    }
  }

  /** A deferred link and then a direct link arrive before any handler: the handler
      registered afterwards receives the direct link only, once. */
  method LaterLinkSupersedesEarlier(io: LinkIO, deferred: DeepLinkData, intent: Option<Intent>, handler: D.HandlerId)
    requires io.Valid() && io.Snapshot() == D.Idle
    requires Classify(intent, io.config.domain).Some?
    modifies io
    ensures io.deliveries == [D.Delivery(handler, Classify(intent, io.config.domain).value)]
    ensures io.deepLinkHandler == Some(handler) && io.pendingDeepLink == None
  {
    io.OnPendingLinkResponse(PendingResponse(200, Some(Decoded(deferred))));
    var handled := io.HandleDeepLink(intent);
    io.SetDeepLinkHandler(handler);
  }

  /** Configuring twice yields one instance, built from the first configuration; asking for
      the instance fails before the first configuration and gives that instance after it. */
  method ConfigureIsIdempotent(first: LinkIOConfig, second: LinkIOConfig) returns (a: LinkIO, b: LinkIO)
    ensures a == b && b.config == first
  {
    var cell := new LinkIOCompanion();
    var before := cell.GetInstance();
    assert before.Failure?;
    a := cell.Configure(first);
    b := cell.Configure(second);
    var after := cell.GetInstance();
    assert after == Success(a);
  }
}
