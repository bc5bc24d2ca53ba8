/**
 * The adapter object: construction from a push configuration, and `send`,
 * which classifies the installations, fans them out to the configured
 * platform senders and settles with one record per scheduled chain.
 */
module Adapter {
  import opened Wrappers
  import opened PushModel
  import opened Payloads
  import opened Classifier
  import opened Dispatch

  /** The handler the constructor stores for an accepted push type. */
  function SenderFor(pushType: string): Sender
    requires pushType in ValidPushTypes
  {
    if pushType == "ios" then ToApns else if pushType == "gcm" then ToGcm else ToAdm
  }

  /** The `snsConfig` key each handler reads its configuration from. */
  function SenderKey(sender: Sender): string {
    match sender
    case ToApns => "ios"
    case ToGcm => "gcm"
    case ToAdm => "adm"
  }

  /** `Object.keys(pushTypes)`, in key order. */
  function PushTypeKeys(entries: seq<PushTypeEntry>): seq<string> {
    seq(|entries|, i requires 0 <= i < |entries| => entries[i].pushType)
  }

  /** The `pushTypes` object as a map from push type to configuration. */
  function ConfigMap(entries: seq<PushTypeEntry>): (m: map<string, PlatformConfig>)
    ensures forall i :: 0 <= i < |entries| ==> entries[i].pushType in m
    decreases |entries|
  {
    if entries == [] then map[]
    else
      var n := |entries| - 1;
      ConfigMap(entries[..n])[entries[n].pushType := entries[n].config]
  }

  /** With distinct keys, each push type maps to the configuration given for it. */
  lemma {:induction false} ConfigMapLookup(entries: seq<PushTypeEntry>, i: nat)
    requires Distinct(PushTypeKeys(entries)) && i < |entries|
    ensures ConfigMap(entries)[entries[i].pushType] == entries[i].config
    decreases |entries|
  {
    var n := |entries| - 1;
    if i < n {
      assert PushTypeKeys(entries[..n]) == PushTypeKeys(entries)[..n];
      assert PushTypeKeys(entries)[i] != PushTypeKeys(entries)[n];
      ConfigMapLookup(entries[..n], i);
    }
  }

  /** An array's text form: its elements joined by ",". */
  function Join(items: seq<string>): string
    decreases |items|
  {
    if items == [] then ""
    else if |items| == 1 then items[0]
    else items[0] + "," + Join(items[1..])
  }

  /** The region handed to the AWS client. */
  function Region(config: PushConfig): string {
    if config.region != "" then config.region else DefaultRegion
  }

  predicate HasCredentials(config: PushConfig) {
    config.accessKey != "" && config.secretKey != ""
  }

  predicate Supported(pushTypes: seq<string>) {
    forall k :: k in pushTypes ==> k in ValidPushTypes
  }

  /** The chains one sender schedules for a bucket. */
  function SenderChains(sender: Sender, data: Notification, devices: seq<Device>,
                        snsConfig: map<string, PlatformConfig>, randomId: string, now: int): seq<Chain>
    requires SenderKey(sender) in snsConfig
  {
    match sender
    case ToApns => ApnsChains(data, devices, Variants(snsConfig["ios"]))
    case ToGcm => GcmChains(data, devices, snsConfig["gcm"], randomId, now)
    case ToAdm => AdmChains(data, devices, snsConfig["adm"])
  }

  /** The map `send` iterates over is well formed for `keys`. */
  predicate Dispatchable(keys: seq<string>, deviceMap: map<string, seq<Device>>,
                         senderMap: map<string, Sender>, snsConfig: map<string, PlatformConfig>)
  {
    forall k :: k in keys ==>
      k in deviceMap && k in ValidPushTypes && k in senderMap && senderMap[k] == SenderFor(k) && k in snsConfig
  }

  /** All chains `send` schedules: push type by push type, skipping empty buckets. */
  function Fanout(keys: seq<string>, deviceMap: map<string, seq<Device>>, senderMap: map<string, Sender>,
                  snsConfig: map<string, PlatformConfig>, data: Notification, randomId: string, now: int)
    : seq<Chain>
    requires Dispatchable(keys, deviceMap, senderMap, snsConfig)
    decreases |keys|
  {
    if keys == [] then []
    else
      var k := keys[|keys| - 1];
      Fanout(keys[..|keys| - 1], deviceMap, senderMap, snsConfig, data, randomId, now)
        + (if |deviceMap[k]| > 0 then SenderChains(senderMap[k], data, deviceMap[k], snsConfig, randomId, now) else [])
  }

  /**
   * The number of chains `send` schedules: every device of the gcm and adm
   * buckets once, and every iOS device once per variant it is eligible for.
   */
  function ExpectedCount(keys: seq<string>, insts: seq<Installation>, snsConfig: map<string, PlatformConfig>): nat
    requires "ios" in keys ==> "ios" in snsConfig
  {
    (if "ios" in keys then IosTotal(Bucket(insts, "ios"), Variants(snsConfig["ios"])) else 0)
    + (if "gcm" in keys then |Bucket(insts, "gcm")| else 0)
    + (if "adm" in keys then |Bucket(insts, "adm")| else 0)
  }

  class SNSPushAdapter {
    const validPushTypes: seq<string>
    var availablePushTypes: seq<string>
    var snsConfig: map<string, PlatformConfig>
    var senderMap: map<string, Sender>
    var sns: Option<SnsClient>

    /** What a successful construction leaves behind. */
    ghost predicate Valid()
      reads this
    {
      && validPushTypes == ValidPushTypes
      && Distinct(availablePushTypes)
      && (forall k :: k in availablePushTypes ==> k in ValidPushTypes && k in snsConfig)
      && senderMap.Keys == (set k | k in availablePushTypes)
      && (forall k :: k in senderMap ==> k in ValidPushTypes && senderMap[k] == SenderFor(k))
    }

    /** The field initialisation that precedes the checks. */
    constructor (config: PushConfig)
      ensures validPushTypes == ValidPushTypes && availablePushTypes == [] && senderMap == map[]
      ensures snsConfig == ConfigMap(config.pushTypes) && sns == None
    {
      validPushTypes := ValidPushTypes;
      availablePushTypes := [];
      snsConfig := ConfigMap(config.pushTypes);
      senderMap := map[];
      sns := None;
    }

    /** One accepted push type: it is listed as available and its handler is stored. */
    method Register(pushType: string)
      requires pushType in ValidPushTypes
      modifies this
      ensures availablePushTypes == old(availablePushTypes) + [pushType]
      ensures senderMap == old(senderMap)[pushType := SenderFor(pushType)]
      ensures snsConfig == old(snsConfig) && sns == old(sns)
    {
      availablePushTypes := availablePushTypes + [pushType];
      if pushType == "ios" {
        senderMap := senderMap[pushType := ToApns];
      } else if pushType == "gcm" {
        senderMap := senderMap[pushType := ToGcm];
      } else if pushType == "adm" {
        senderMap := senderMap[pushType := ToAdm];
      }
    }

    /** `getValidPushTypes`: the accepted push types, in configuration order. */
    function GetValidPushTypes(): (pushTypes: seq<string>)
      reads this
      requires Valid()
      ensures pushTypes == availablePushTypes
      ensures Distinct(pushTypes) && Supported(pushTypes)
    {
      availablePushTypes
    }

    /** `senderMap[pushType](data, devices)`: the chains scheduled and the bucket as stamped. */
    method CallSender(sender: Sender, data: Notification, devices: seq<Device>, randomId: string, now: int)
      returns (results: seq<Chain>, stamped: seq<Device>)
      requires SenderKey(sender) in snsConfig
      ensures results == SenderChains(sender, data, devices, snsConfig, randomId, now)
      ensures stamped == if sender == ToApns && Variants(snsConfig["ios"]) == [] then devices
                         else Stamp(devices, SenderKey(sender))
    {
      match sender
      case ToApns =>
        results, stamped := SendToApns(data, devices, snsConfig["ios"]);
      case ToGcm =>
        results, stamped := SendToGcm(data, devices, snsConfig["gcm"], randomId, now);
      case ToAdm =>
        results, stamped := SendToAdm(data, devices, snsConfig["adm"]);
    }

    /** The chains `send` schedules for these installations. */
    function SendChains(installations: seq<Installation>, data: Notification, randomId: string, now: int): seq<Chain>
      reads this
      requires Valid()
    {
      Fanout(availablePushTypes, Classified(installations, availablePushTypes), senderMap, snsConfig,
             data, randomId, now)
    }

    /**
     * `send`: classifies the installations by the configured push types,
     * calls the sender of every non-empty bucket, and settles with the
     * gathered per-device records once every endpoint resolves; it rejects
     * as soon as one endpoint request fails, and stays pending for ever when
     * an endpoint reply has no ARN and none fails. `randomId` and `now` stand for the random
     * push id and the clock reading the GCM payload draws; `gateway(i)` for
     * the gateway's replies to the i-th scheduled chain.
     */
    method Send(data: Notification, installations: seq<Installation>, randomId: string, now: int,
                gateway: nat -> Exchange)
      returns (r: Settlement)
      requires Valid()
      ensures r == Settle(SendChains(installations, data, randomId, now), gateway)
      ensures r.Fulfilled? ==> |r.records| == ExpectedCount(availablePushTypes, installations, snsConfig)
      ensures r.Fulfilled? <==>
                forall i :: 0 <= i < ExpectedCount(availablePushTypes, installations, snsConfig) ==>
                  EndpointResolved(gateway(i).endpoint)
      ensures r.Rejected? <==>
                exists i :: 0 <= i < ExpectedCount(availablePushTypes, installations, snsConfig)
                            && EndpointRejected(gateway(i).endpoint)
      ensures r.Fulfilled? ==>
                forall res :: res in r.records ==>
                  res.device.deviceType in availablePushTypes
                  && exists i :: 0 <= i < |installations| && RoutedTo(installations[i], res.device.deviceType)
                                 && res.device.deviceToken == Hex(installations[i].deviceToken)
    {
      var sendPromises := Schedule(data, installations, randomId, now);
      r := Settle(sendPromises, gateway);
      SendOutcome(availablePushTypes, installations, senderMap, snsConfig, data, randomId, now, gateway);
    }

    /**
     * The synchronous part of `send`: classification and the calls to the
     * senders of the non-empty buckets, which stamp their bucket in place.
     */
    method Schedule(data: Notification, installations: seq<Installation>, randomId: string, now: int)
      returns (sendPromises: seq<Chain>)
      requires Valid()
      ensures sendPromises == SendChains(installations, data, randomId, now)
    {
      var deviceMap := ClassifyInstallations(installations, availablePushTypes);
      assert deviceMap == Classified(installations, availablePushTypes);
      assert Dispatchable(availablePushTypes, deviceMap, senderMap, snsConfig);
      sendPromises := CallSenders(data, deviceMap, randomId, now);
    }

    /**
     * The `forEach` over the classified map: calls the sender of every
     * non-empty bucket, in push-type order, and writes the bucket back as
     * its sender stamped it.
     */
    method CallSenders(data: Notification, classified: map<string, seq<Device>>, randomId: string, now: int)
      returns (sendPromises: seq<Chain>)
      requires Distinct(availablePushTypes) && Dispatchable(availablePushTypes, classified, senderMap, snsConfig)
      ensures sendPromises == Fanout(availablePushTypes, classified, senderMap, snsConfig, data, randomId, now)
    {
      var deviceMap := classified;
      sendPromises := [];
      for i := 0 to |availablePushTypes|
        invariant forall j :: i <= j < |availablePushTypes| ==>
                    availablePushTypes[j] in deviceMap && deviceMap[availablePushTypes[j]] == classified[availablePushTypes[j]]
        invariant Dispatchable(availablePushTypes[..i], classified, senderMap, snsConfig)
        invariant sendPromises == Fanout(availablePushTypes[..i], classified, senderMap, snsConfig, data, randomId, now)
      {
        FanoutStep(availablePushTypes, i, classified, senderMap, snsConfig, data, randomId, now);
        var results;
        results, deviceMap := Visit(data, deviceMap, classified, i, randomId, now);
        sendPromises := sendPromises + results;
      }
      assert availablePushTypes[..|availablePushTypes|] == availablePushTypes;
    }

    /**
     * The `forEach` callback for the i-th push type: when its bucket is
     * non-empty, calls its sender and writes the bucket back as stamped.
     */
    method Visit(data: Notification, deviceMap: map<string, seq<Device>>, classified: map<string, seq<Device>>,
                 i: nat, randomId: string, now: int)
      returns (results: seq<Chain>, updated: map<string, seq<Device>>)
      requires i < |availablePushTypes| && Distinct(availablePushTypes)
      requires Dispatchable(availablePushTypes, classified, senderMap, snsConfig)
      requires forall j :: i <= j < |availablePushTypes| ==>
                 availablePushTypes[j] in deviceMap && deviceMap[availablePushTypes[j]] == classified[availablePushTypes[j]]
      ensures var k := availablePushTypes[i];
              results == if |classified[k]| > 0 then SenderChains(senderMap[k], data, classified[k], snsConfig, randomId, now)
                         else []
      ensures var k := availablePushTypes[i];
              k in updated
              && updated[k] == if |classified[k]| == 0 || (k == "ios" && Variants(snsConfig["ios"]) == []) then classified[k]
                               else Stamp(classified[k], k)
      ensures forall j :: i < j < |availablePushTypes| ==>
                availablePushTypes[j] in updated && updated[availablePushTypes[j]] == classified[availablePushTypes[j]]
    {
      var pushType := availablePushTypes[i];
      var devices := deviceMap[pushType];
      results, updated := [], deviceMap;
      if |devices| > 0 {
        var stamped;
        results, stamped := CallSender(senderMap[pushType], data, devices, randomId, now);
        updated := WriteBack(deviceMap, availablePushTypes, i, stamped, classified);
      }
    }
  }

  /**
   * `new SNSPushAdapter(pushConfig)`: fails with PUSH_MISCONFIGURED when a
   * credential is missing (before any push type is looked at) or when a push
   * type other than ios, gcm and adm is configured; otherwise records the
   * push types in key order with their handlers and configures the client.
   */
  method Create(config: PushConfig) returns (r: Result<SNSPushAdapter, ParseError>)
    requires Distinct(PushTypeKeys(config.pushTypes))
    ensures !HasCredentials(config) ==>
              r == Failure(ParseError(PushMisconfigured, "Need to provide AWS keys"))
    ensures HasCredentials(config) && !Supported(PushTypeKeys(config.pushTypes)) ==>
              r == Failure(ParseError(PushMisconfigured,
                                      "Push to " + Join(PushTypeKeys(config.pushTypes)) + " is not supported"))
    ensures HasCredentials(config) && Supported(PushTypeKeys(config.pushTypes)) ==>
              && r.Success? && fresh(r.value) && r.value.Valid()
              && r.value.availablePushTypes == PushTypeKeys(config.pushTypes)
              && r.value.senderMap.Keys == (set k | k in PushTypeKeys(config.pushTypes))
              && (forall k :: k in r.value.senderMap ==> r.value.senderMap[k] == SenderFor(k))
              && r.value.snsConfig == ConfigMap(config.pushTypes)
              && r.value.sns == Some(SnsClient(config.accessKey, config.secretKey, Region(config)))
  {
    var adapter := new SNSPushAdapter(config);
    if config.accessKey == "" || config.secretKey == "" {
      return Failure(ParseError(PushMisconfigured, "Need to provide AWS keys"));
    }
    var pushTypes := PushTypeKeys(config.pushTypes);
    for i := 0 to |pushTypes|
      invariant adapter.validPushTypes == ValidPushTypes
      invariant adapter.snsConfig == ConfigMap(config.pushTypes) && adapter.sns == None
      invariant adapter.availablePushTypes == pushTypes[..i]
      invariant Supported(pushTypes[..i])
      invariant adapter.senderMap.Keys == set k | k in pushTypes[..i]
      invariant forall k :: k in adapter.senderMap ==> k in ValidPushTypes && adapter.senderMap[k] == SenderFor(k)
    {
      var pushType := pushTypes[i];
      if pushType !in adapter.validPushTypes {
        return Failure(ParseError(PushMisconfigured, "Push to " + Join(pushTypes) + " is not supported"));
      }
      assert pushTypes[..i + 1] == pushTypes[..i] + [pushType];
      adapter.Register(pushType);
    }
    assert pushTypes[..|pushTypes|] == pushTypes;
    adapter.sns := Some(SnsClient(config.accessKey, config.secretKey, Region(config)));
    forall k | k in pushTypes
      ensures k in adapter.snsConfig
    {
      var i :| 0 <= i < |pushTypes| && pushTypes[i] == k;
    }
    return Success(adapter);
  }

  /**
   * Writes a stamped bucket back under `keys[i]`; the buckets of the push
   * types not yet handled are untouched.
   */
  method WriteBack(deviceMap: map<string, seq<Device>>, keys: seq<string>, i: nat, stamped: seq<Device>,
                   classified: map<string, seq<Device>>)
    returns (updated: map<string, seq<Device>>)
    requires i < |keys| && Distinct(keys) && forall k :: k in keys ==> k in classified
    requires forall j :: i <= j < |keys| ==> keys[j] in deviceMap && deviceMap[keys[j]] == classified[keys[j]]
    ensures updated.Keys == deviceMap.Keys + {keys[i]} && updated[keys[i]] == stamped
    ensures forall k :: k in deviceMap && k != keys[i] ==> updated[k] == deviceMap[k]
    ensures forall j :: i < j < |keys| ==> keys[j] in updated && updated[keys[j]] == classified[keys[j]]
  {
    updated := deviceMap[keys[i] := stamped];
  }

  /** One more push type handled: its sender's chains, if its bucket is non-empty, are appended. */
  lemma FanoutStep(keys: seq<string>, i: nat, deviceMap: map<string, seq<Device>>, senderMap: map<string, Sender>,
                   snsConfig: map<string, PlatformConfig>, data: Notification, randomId: string, now: int)
    requires i < |keys| && Dispatchable(keys, deviceMap, senderMap, snsConfig)
    ensures Dispatchable(keys[..i], deviceMap, senderMap, snsConfig)
    ensures Dispatchable(keys[..i + 1], deviceMap, senderMap, snsConfig)
    ensures Fanout(keys[..i + 1], deviceMap, senderMap, snsConfig, data, randomId, now)
            == Fanout(keys[..i], deviceMap, senderMap, snsConfig, data, randomId, now)
               + (if |deviceMap[keys[i]]| > 0
                  then SenderChains(senderMap[keys[i]], data, deviceMap[keys[i]], snsConfig, randomId, now)
                  else [])
  {
    assert keys[..i + 1][..i] == keys[..i];
  }

  lemma {:induction false} IosTotalEmpty(variants: seq<Variant>)
    ensures IosTotal([], variants) == 0
    decreases |variants|
  {
    if variants != [] {
      IosTotalEmpty(variants[..|variants| - 1]);
    }
  }

  /** `send` schedules exactly the chains the gcm, adm and iOS buckets call for. */
  lemma {:induction false} FanoutCount(keys: seq<string>, insts: seq<Installation>, deviceMap: map<string, seq<Device>>,
                                       senderMap: map<string, Sender>, snsConfig: map<string, PlatformConfig>,
                                       data: Notification, randomId: string, now: int)
    requires Distinct(keys) && Dispatchable(keys, deviceMap, senderMap, snsConfig)
    requires forall k :: k in keys ==> deviceMap[k] == Bucket(insts, k)
    ensures |Fanout(keys, deviceMap, senderMap, snsConfig, data, randomId, now)| == ExpectedCount(keys, insts, snsConfig)
    decreases |keys|
  {
    if keys != [] {
      var n := |keys| - 1;
      var k := keys[n];
      var prefix := keys[..n];
      assert keys == prefix + [k];
      assert k !in prefix;
      assert Dispatchable(prefix, deviceMap, senderMap, snsConfig);
      FanoutCount(prefix, insts, deviceMap, senderMap, snsConfig, data, randomId, now);
      ExpectedStep(prefix, k, insts, snsConfig);
      BucketShare(k, data, deviceMap[k], snsConfig, randomId, now);
    }
  }

  /** The number of chains one non-empty bucket contributes. */
  function Share(k: string, bucket: seq<Device>, snsConfig: map<string, PlatformConfig>): nat
    requires k == "ios" ==> "ios" in snsConfig
  {
    if k == "ios" then IosTotal(bucket, Variants(snsConfig["ios"])) else |bucket|
  }

  lemma ExpectedStep(prefix: seq<string>, k: string, insts: seq<Installation>, snsConfig: map<string, PlatformConfig>)
    requires k in ValidPushTypes && k !in prefix
    requires "ios" in prefix + [k] ==> "ios" in snsConfig
    ensures ExpectedCount(prefix + [k], insts, snsConfig)
            == ExpectedCount(prefix, insts, snsConfig) + Share(k, Bucket(insts, k), snsConfig)
  {
    assert forall t :: t in prefix + [k] <==> t in prefix || t == k;
  }

  lemma BucketShare(k: string, data: Notification, bucket: seq<Device>,
                    snsConfig: map<string, PlatformConfig>, randomId: string, now: int)
    requires k in ValidPushTypes && k in snsConfig
    ensures |if |bucket| > 0 then SenderChains(SenderFor(k), data, bucket, snsConfig, randomId, now) else []|
            == Share(k, bucket, snsConfig)
  {
    if k == "ios" {
      ApnsChainCount(data, bucket, Variants(snsConfig["ios"]));
      if bucket == [] {
        IosTotalEmpty(Variants(snsConfig["ios"]));
      }
    }
  }

  /** Every scheduled chain carries a bucket entry stamped with its bucket's push type. */
  lemma SenderChainsFrom(k: string, data: Notification, devices: seq<Device>,
                         snsConfig: map<string, PlatformConfig>, randomId: string, now: int, c: Chain)
    requires k in ValidPushTypes && k in snsConfig
    requires c in SenderChains(SenderFor(k), data, devices, snsConfig, randomId, now)
    ensures exists d :: d in devices && c.device == d.(deviceType := k)
  {
    if k == "ios" {
      ApnsChainShape(data, devices, Variants(snsConfig["ios"]), c);
    } else {
      var chains := SenderChains(SenderFor(k), data, devices, snsConfig, randomId, now);
      var j :| 0 <= j < |chains| && chains[j] == c;
      assert devices[j] in devices;
    }
  }

  /**
   * Every scheduled chain belongs to an installation that has a token and
   * was routed to the chain's push type, which is one of the configured ones.
   */
  lemma {:induction false} FanoutRouted(keys: seq<string>, insts: seq<Installation>, deviceMap: map<string, seq<Device>>,
                                        senderMap: map<string, Sender>, snsConfig: map<string, PlatformConfig>,
                                        data: Notification, randomId: string, now: int, c: Chain)
    requires Dispatchable(keys, deviceMap, senderMap, snsConfig)
    requires forall k :: k in keys ==> deviceMap[k] == Bucket(insts, k)
    requires c in Fanout(keys, deviceMap, senderMap, snsConfig, data, randomId, now)
    ensures c.device.deviceType in keys
    ensures exists i :: 0 <= i < |insts| && RoutedTo(insts[i], c.device.deviceType)
                        && c.device.deviceToken == insts[i].deviceToken
                        && c.device.appIdentifier == insts[i].appIdentifier
    decreases |keys|
  {
    var n := |keys| - 1;
    var k := keys[n];
    var prefix := keys[..n];
    assert Dispatchable(prefix, deviceMap, senderMap, snsConfig);
    if c in Fanout(prefix, deviceMap, senderMap, snsConfig, data, randomId, now) {
      FanoutRouted(prefix, insts, deviceMap, senderMap, snsConfig, data, randomId, now, c);
    } else {
      SenderChainsFrom(k, data, deviceMap[k], snsConfig, randomId, now, c);
      var d :| d in deviceMap[k] && c.device == d.(deviceType := k);
      BucketMembership(insts, k, d);
    }
  }

  /**
   * What `send` settles with: when every endpoint resolves, exactly the
   * expected number of records, each for an installation that has a token
   * and was routed to a configured push type; otherwise a rejection.
   */
  lemma SendOutcome(keys: seq<string>, insts: seq<Installation>, senderMap: map<string, Sender>,
                    snsConfig: map<string, PlatformConfig>, data: Notification, randomId: string, now: int,
                    gateway: nat -> Exchange)
    requires Distinct(keys) && Dispatchable(keys, Classified(insts, keys), senderMap, snsConfig)
    ensures var r := Settle(Fanout(keys, Classified(insts, keys), senderMap, snsConfig, data, randomId, now), gateway);
            && (r.Fulfilled? ==> |r.records| == ExpectedCount(keys, insts, snsConfig))
            && (r.Fulfilled? <==> forall i :: 0 <= i < ExpectedCount(keys, insts, snsConfig) ==>
                                    EndpointResolved(gateway(i).endpoint))
            && (r.Rejected? <==> exists i :: 0 <= i < ExpectedCount(keys, insts, snsConfig)
                                             && EndpointRejected(gateway(i).endpoint))
            && (r.Fulfilled? ==>
                  forall res :: res in r.records ==>
                    res.device.deviceType in keys
                    && exists i :: 0 <= i < |insts| && RoutedTo(insts[i], res.device.deviceType)
                                   && res.device.deviceToken == Hex(insts[i].deviceToken))
  {
    var deviceMap := Classified(insts, keys);
    var chains := Fanout(keys, deviceMap, senderMap, snsConfig, data, randomId, now);
    var r := Settle(chains, gateway);
    FanoutCount(keys, insts, deviceMap, senderMap, snsConfig, data, randomId, now);
    if r.Fulfilled? {
      forall res | res in r.records
        ensures res.device.deviceType in keys
        ensures exists i :: 0 <= i < |insts| && RoutedTo(insts[i], res.device.deviceType)
                            && res.device.deviceToken == Hex(insts[i].deviceToken)
      {
        var j :| 0 <= j < |r.records| && r.records[j] == res;
        FanoutRouted(keys, insts, deviceMap, senderMap, snsConfig, data, randomId, now, chains[j]);
      }
    }
  }
}
