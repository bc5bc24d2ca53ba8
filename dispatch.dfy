/**
 * The platform senders (`sendToAPNS`, `sendToGCM`, `sendToADM`, `sendToSNS`),
 * the per-device result record (`sendSNSPayload`) and the gathering of all
 * per-device outcomes into the value `send` settles with.
 */
module Dispatch {
  import opened Wrappers
  import opened PushModel
  import opened Payloads

  /** A single configuration object is treated as a one-element list. */
  function Variants(config: PlatformConfig): seq<Variant> {
    match config
    case Single(v) => [v]
    case Many(vs) => vs
  }

  /** The configuration's `ARN`; an array of configurations has none (""). */
  function Arn(config: PlatformConfig): string {
    match config
    case Single(v) => v.arn
    case Many(_) => ""
  }

  /** The devices after `device.deviceType = deviceType` has been applied to each. */
  function Stamp(devices: seq<Device>, deviceType: string): seq<Device> {
    seq(|devices|, i requires 0 <= i < |devices| => devices[i].(deviceType := deviceType))
  }

  /** A device without an app identifier goes to every variant; otherwise only to its bundle. */
  predicate EligibleFor(d: Device, v: Variant) {
    d.appIdentifier == "" || d.appIdentifier == v.bundleId
  }

  /** The devices sent through variant `v`, in bucket order. */
  function Eligible(devices: seq<Device>, v: Variant): seq<Device>
    decreases |devices|
  {
    if devices == [] then []
    else
      var last := devices[|devices| - 1];
      Eligible(devices[..|devices| - 1], v) + (if EligibleFor(last, v) then [last] else [])
  }

  /** One chain per device, all with the same payload and platform ARN. */
  function ChainsOf(devices: seq<Device>, payload: Payload, platformArn: string): seq<Chain> {
    seq(|devices|, i requires 0 <= i < |devices| => Chain(devices[i], payload, platformArn))
  }

  /** The chains one iOS variant contributes. */
  function VariantChains(data: Notification, devices: seq<Device>, v: Variant): seq<Chain> {
    ChainsOf(Eligible(Stamp(devices, "ios"), v), GenerateIosPayload(data, v.production), v.arn)
  }

  /** The chains of `sendToAPNS`: variant by variant, in configuration order. */
  function ApnsChains(data: Notification, devices: seq<Device>, variants: seq<Variant>): seq<Chain>
    decreases |variants|
  {
    if variants == [] then []
    else ApnsChains(data, devices, variants[..|variants| - 1]) + VariantChains(data, devices, variants[|variants| - 1])
  }

  /** The chains of `sendToGCM`, whose payload draws a random push id and the current time. */
  function GcmChains(data: Notification, devices: seq<Device>, config: PlatformConfig, randomId: string, now: int)
    : seq<Chain>
  {
    ChainsOf(Stamp(devices, "gcm"), GenerateGcmPayload(data, "", 0, randomId, now), Arn(config))
  }

  /** The chains of `sendToADM`. */
  function AdmChains(data: Notification, devices: seq<Device>, config: PlatformConfig): seq<Chain> {
    ChainsOf(Stamp(devices, "adm"), GenerateAdmPayload(data, false), Arn(config))
  }

  method SendToSns(payload: Payload, devices: seq<Device>, platformArn: string) returns (promises: seq<Chain>)
    ensures |promises| == |devices|
    ensures forall i :: 0 <= i < |devices| ==> promises[i] == Chain(devices[i], payload, platformArn)
  {
    promises := [];
    for i := 0 to |devices|
      invariant |promises| == i
      invariant forall j :: 0 <= j < i ==> promises[j] == Chain(devices[j], payload, platformArn)
    {
      promises := promises + [Chain(devices[i], payload, platformArn)];
    }
  }

  /** Overwrites the `deviceType` of every device in the bucket. */
  method StampDevices(devices: seq<Device>, deviceType: string) returns (stamped: seq<Device>)
    ensures |stamped| == |devices|
    ensures forall i :: 0 <= i < |devices| ==>
              stamped[i].deviceType == deviceType
              && stamped[i].deviceToken == devices[i].deviceToken
              && stamped[i].appIdentifier == devices[i].appIdentifier
  {
    stamped := devices;
    for i := 0 to |stamped|
      invariant |stamped| == |devices|
      invariant forall j :: 0 <= j < i ==> stamped[j] == devices[j].(deviceType := deviceType)
      invariant forall j :: i <= j < |devices| ==> stamped[j] == devices[j]
    {
      stamped := stamped[i := stamped[i].(deviceType := deviceType)];
    }
  }

  method SendToGcm(data: Notification, devices: seq<Device>, config: PlatformConfig, randomId: string, now: int)
    returns (promises: seq<Chain>, stamped: seq<Device>)
    ensures stamped == Stamp(devices, "gcm")
    ensures promises == GcmChains(data, devices, config, randomId, now)
  {
    var payload := GenerateGcmPayload(data, "", 0, randomId, now);
    stamped := StampDevices(devices, "gcm");
    promises := SendToSns(payload, stamped, Arn(config));
  }

  method SendToAdm(data: Notification, devices: seq<Device>, config: PlatformConfig)
    returns (promises: seq<Chain>, stamped: seq<Device>)
    ensures stamped == Stamp(devices, "adm")
    ensures promises == AdmChains(data, devices, config)
  {
    var payload := GenerateAdmPayload(data, false);
    stamped := StampDevices(devices, "adm");
    promises := SendToSns(payload, stamped, Arn(config));
  }

  /**
   * The inner loop of `sendToAPNS` for one variant: stamps every device "ios"
   * and collects, in order, those eligible for the variant.
   */
  method SelectForVariant(devices: seq<Device>, config: Variant) returns (stamped: seq<Device>, deviceSends: seq<Device>)
    ensures stamped == Stamp(devices, "ios")
    ensures deviceSends == Eligible(Stamp(devices, "ios"), config)
  {
    stamped := devices;
    deviceSends := [];
    for j := 0 to |stamped|
      invariant |stamped| == |devices|
      invariant forall k :: 0 <= k < j ==> stamped[k] == devices[k].(deviceType := "ios")
      invariant forall k :: j <= k < |devices| ==> stamped[k] == devices[k]
      invariant deviceSends == Eligible(Stamp(devices[..j], "ios"), config)
    {
      stamped := stamped[j := stamped[j].(deviceType := "ios")];
      var device := stamped[j];
      assert Stamp(devices[..j + 1], "ios")[..j] == Stamp(devices[..j], "ios");
      if device.appIdentifier == "" {
        deviceSends := deviceSends + [device];
      } else if device.appIdentifier == config.bundleId {
        deviceSends := deviceSends + [device];
      }
    }
    assert devices[..|devices|] == devices;
  }

  lemma StampTwice(devices: seq<Device>, deviceType: string)
    ensures Stamp(Stamp(devices, deviceType), deviceType) == Stamp(devices, deviceType)
  {
  }

  /**
   * For each variant, stamps every device "ios", collects the eligible ones
   * and schedules their chains when there is at least one. The bucket comes
   * back stamped whenever there is at least one variant, eligible or not.
   */
  method SendToApns(data: Notification, devices: seq<Device>, iosConfig: PlatformConfig)
    returns (promises: seq<Chain>, stamped: seq<Device>)
    ensures promises == ApnsChains(data, devices, Variants(iosConfig))
    ensures stamped == if Variants(iosConfig) == [] then devices else Stamp(devices, "ios")
  {
    var iosConfigs := Variants(iosConfig);
    promises := [];
    stamped := devices;
    for i := 0 to |iosConfigs|
      invariant promises == ApnsChains(data, devices, iosConfigs[..i])
      invariant i == 0 ==> stamped == devices
      invariant i > 0 ==> stamped == Stamp(devices, "ios")
    {
      var config := iosConfigs[i];
      var payload := GenerateIosPayload(data, config.production);
      ghost var before := stamped;
      var deviceSends;
      stamped, deviceSends := SelectForVariant(stamped, config);
      assert Stamp(before, "ios") == Stamp(devices, "ios") by {
        if i > 0 {
          StampTwice(devices, "ios");
        }
      }
      ApnsChainsStep(data, devices, iosConfigs, i);
      if |deviceSends| > 0 {
        var sendPromises := SendToSns(payload, deviceSends, config.arn);
        assert sendPromises == ChainsOf(deviceSends, payload, config.arn);
        promises := promises + sendPromises;
      } else {
        assert ChainsOf(deviceSends, payload, config.arn) == [];
      }
    }
    assert iosConfigs[..|iosConfigs|] == iosConfigs;
  }

  lemma ApnsChainsStep(data: Notification, devices: seq<Device>, variants: seq<Variant>, i: nat)
    requires i < |variants|
    ensures ApnsChains(data, devices, variants[..i + 1])
            == ApnsChains(data, devices, variants[..i]) + VariantChains(data, devices, variants[i])
  {
    assert variants[..i + 1][..i] == variants[..i];
  }

  /** The endpoint request succeeded and returned an endpoint ARN: the chain goes on to publish. */
  predicate EndpointResolved(reply: EndpointReply) {
    reply.EndpointCreated? && reply.endpointArn != ""
  }

  /** The endpoint request failed: the chain rejects with `{device, transmitted: false}`. */
  predicate EndpointRejected(reply: EndpointReply) {
    reply.EndpointError?
  }

  /**
   * The endpoint request reported no error but no endpoint ARN either: the
   * error branch reads `stack` of the absent error and throws inside the
   * callback, so the chain neither resolves nor rejects.
   */
  predicate EndpointStalls(reply: EndpointReply) {
    reply.EndpointCreated? && reply.endpointArn == ""
  }

  /** `sendSNSPayload`: the record a publish settles with, for either reply. */
  function SendSnsPayload(device: Device, reply: PublishReply): (result: DispatchResult)
    ensures result.device == ResultDevice(device.deviceType, Hex(device.deviceToken))
    ensures result.transmitted <==> reply.Published?
    ensures reply.Published? ==> result.response == Some(Reply(reply.data))
    ensures reply.PublishError? ==> (result.response.Some? <==> reply.stack != "")
    ensures reply.PublishError? && reply.stack != "" ==> result.response == Some(Stack(reply.stack))
  {
    var device := ResultDevice(device.deviceType, Hex(device.deviceToken));
    match reply
    case PublishError(stack) =>
      DispatchResult(device, false, if stack != "" then Some(Stack(stack)) else None)
    case Published(data) =>
      DispatchResult(device, true, Some(Reply(data)))
  }

  /**
   * What `send` settles with, given the gateway's replies chain by chain
   * (`gateway(i)` for the i-th chain). `Promise.all` rejects as soon as one
   * chain rejects, and no code catches that rejection; otherwise it waits for
   * every chain, so one stalled chain keeps it pending for ever; otherwise it
   * fulfils with one record per chain in chain order. Which rejecting chain's
   * rejection surfaces depends on timing; the model takes the first one in
   * chain order.
   */
  function Settle(chains: seq<Chain>, gateway: nat -> Exchange): (r: Settlement)
    ensures r.Fulfilled? <==> forall i :: 0 <= i < |chains| ==> EndpointResolved(gateway(i).endpoint)
    ensures r.Rejected? <==> exists i :: 0 <= i < |chains| && EndpointRejected(gateway(i).endpoint)
    ensures r.Fulfilled? ==> |r.records| == |chains|
    ensures r.Fulfilled? ==>
              forall i :: 0 <= i < |chains| ==> r.records[i] == SendSnsPayload(chains[i].device, gateway(i).publish)
    ensures r.Rejected? ==>
              exists i :: 0 <= i < |chains| && EndpointRejected(gateway(i).endpoint)
                          && r.rejection == Rejection(chains[i].device, false)
                          && forall j :: 0 <= j < i ==> !EndpointRejected(gateway(j).endpoint)
    decreases |chains|
  {
    if chains == [] then Fulfilled([])
    else
      var n := |chains| - 1;
      Gather(Settle(chains[..n], gateway), chains[n], gateway(n))
  }

  /** `send` stays pending exactly when no endpoint request fails and some reply lacks its ARN. */
  lemma SettlePending(chains: seq<Chain>, gateway: nat -> Exchange)
    ensures Settle(chains, gateway).Pending? <==>
              && (forall i :: 0 <= i < |chains| ==> !EndpointRejected(gateway(i).endpoint))
              && (exists i :: 0 <= i < |chains| && EndpointStalls(gateway(i).endpoint))
  {
    if Settle(chains, gateway).Pending? {
      var i :| 0 <= i < |chains| && !EndpointResolved(gateway(i).endpoint);
      assert EndpointStalls(gateway(i).endpoint);
    }
  }

  /**
   * One more chain joins what `Promise.all` has gathered so far: a rejection
   * stands; otherwise a failed endpoint request rejects with its device, and
   * a reply without an ARN leaves the whole pending.
   */
  function Gather(prior: Settlement, c: Chain, x: Exchange): (r: Settlement)
    ensures r.Fulfilled? <==> prior.Fulfilled? && EndpointResolved(x.endpoint)
    ensures r.Rejected? <==> prior.Rejected? || EndpointRejected(x.endpoint)
    ensures prior.Rejected? ==> r == prior
    ensures !prior.Rejected? && EndpointRejected(x.endpoint) ==> r == Rejected(Rejection(c.device, false))
    ensures r.Fulfilled? ==> r.records == prior.records + [SendSnsPayload(c.device, x.publish)]
  {
    match prior
    case Rejected(_) => prior
    case Pending =>
      if EndpointRejected(x.endpoint) then Rejected(Rejection(c.device, false)) else Pending
    case Fulfilled(records) =>
      if EndpointResolved(x.endpoint) then Fulfilled(records + [SendSnsPayload(c.device, x.publish)])
      else if EndpointRejected(x.endpoint) then Rejected(Rejection(c.device, false))
      else Pending
  }

  /**
   * `Settle` as the error branch of `exchangeTokenPromise` evidently means
   * it: every chain whose endpoint does not resolve rejects, a reply without
   * an endpoint ARN included, so `send` always settles.
   */
  function SettleIntended(chains: seq<Chain>, gateway: nat -> Exchange): (r: Settlement)
    ensures !r.Pending?
    ensures r.Fulfilled? <==> forall i :: 0 <= i < |chains| ==> EndpointResolved(gateway(i).endpoint)
    ensures r.Fulfilled? ==> |r.records| == |chains|
    ensures r.Fulfilled? ==>
              forall i :: 0 <= i < |chains| ==> r.records[i] == SendSnsPayload(chains[i].device, gateway(i).publish)
    ensures r.Rejected? ==>
              exists i :: 0 <= i < |chains| && !EndpointResolved(gateway(i).endpoint)
                          && r.rejection == Rejection(chains[i].device, false)
                          && forall j :: 0 <= j < i ==> EndpointResolved(gateway(j).endpoint)
    decreases |chains|
  {
    if chains == [] then Fulfilled([])
    else
      var n := |chains| - 1;
      var prior := SettleIntended(chains[..n], gateway);
      if !prior.Fulfilled? then prior
      else if EndpointResolved(gateway(n).endpoint) then
        Fulfilled(prior.records + [SendSnsPayload(chains[n].device, gateway(n).publish)])
      else
        Rejected(Rejection(chains[n].device, false))
  }

  /** Where no endpoint reply lacks its ARN, the code and its intended reading settle alike. */
  lemma {:induction false} SettleAsIntended(chains: seq<Chain>, gateway: nat -> Exchange)
    requires forall i :: 0 <= i < |chains| ==> !EndpointStalls(gateway(i).endpoint)
    ensures Settle(chains, gateway) == SettleIntended(chains, gateway)
    decreases |chains|
  {
    if chains != [] {
      SettleAsIntended(chains[..|chains| - 1], gateway);
    }
  }

  /**
   * A single chain whose endpoint reply has no error and no ARN: as written,
   * `send` never settles; as intended, it rejects for that device.
   */
  lemma StalledEndpoint(c: Chain, gateway: nat -> Exchange)
    requires gateway(0).endpoint == EndpointCreated("")
    ensures Settle([c], gateway) == Pending
    ensures SettleIntended([c], gateway) == Rejected(Rejection(c.device, false))
  {
    assert [c][..0] == [];
  }

  /** Stamping commutes with the eligibility filter, which ignores `deviceType`. */
  lemma {:induction false} EligibleStamp(devices: seq<Device>, deviceType: string, v: Variant)
    ensures Eligible(Stamp(devices, deviceType), v) == Stamp(Eligible(devices, v), deviceType)
    decreases |devices|
  {
    if devices != [] {
      var n := |devices| - 1;
      EligibleStamp(devices[..n], deviceType, v);
      assert Stamp(devices, deviceType)[..n] == Stamp(devices[..n], deviceType);
    }
  }

  /** The number of devices iOS variants send to, summed over the variants. */
  function IosTotal(devices: seq<Device>, variants: seq<Variant>): nat
    decreases |variants|
  {
    if variants == [] then 0
    else IosTotal(devices, variants[..|variants| - 1]) + |Eligible(devices, variants[|variants| - 1])|
  }

  /** `sendToAPNS` schedules exactly one chain per eligible device per variant. */
  lemma {:induction false} ApnsChainCount(data: Notification, devices: seq<Device>, variants: seq<Variant>)
    ensures |ApnsChains(data, devices, variants)| == IosTotal(devices, variants)
    decreases |variants|
  {
    if variants != [] {
      var n := |variants| - 1;
      ApnsChainCount(data, devices, variants[..n]);
      EligibleStamp(devices, "ios", variants[n]);
    }
  }

  /**
   * Every iOS chain carries a bucket device stamped "ios", and the payload
   * and ARN of a variant the device is eligible for.
   */
  lemma {:induction false} ApnsChainShape(data: Notification, devices: seq<Device>, variants: seq<Variant>, c: Chain)
    requires c in ApnsChains(data, devices, variants)
    ensures c.device.deviceType == "ios"
    ensures exists d :: d in devices && c.device == d.(deviceType := "ios")
    ensures exists v :: v in variants && EligibleFor(c.device, v)
                        && c.payload == GenerateIosPayload(data, v.production) && c.platformArn == v.arn
    decreases |variants|
  {
    var n := |variants| - 1;
    var v := variants[n];
    if c in ApnsChains(data, devices, variants[..n]) {
      ApnsChainShape(data, devices, variants[..n], c);
      var w :| w in variants[..n] && EligibleFor(c.device, w)
               && c.payload == GenerateIosPayload(data, w.production) && c.platformArn == w.arn;
      assert w in variants;
    } else {
      assert c in VariantChains(data, devices, v);
      EligibleSubset(Stamp(devices, "ios"), v, c.device);
      var k :| 0 <= k < |devices| && Stamp(devices, "ios")[k] == c.device;
      assert devices[k] in devices;
    }
  }

  lemma {:induction false} EligibleSubset(devices: seq<Device>, v: Variant, d: Device)
    requires d in Eligible(devices, v)
    ensures d in devices && EligibleFor(d, v)
    decreases |devices|
  {
    var n := |devices| - 1;
    if d in Eligible(devices[..n], v) {
      EligibleSubset(devices[..n], v, d);
    }
  }

  /** Two entries denote the same installation: same token and app identifier. */
  predicate SameDevice(a: Device, b: Device) {
    a.deviceToken == b.deviceToken && a.appIdentifier == b.appIdentifier
  }

  function DeviceCopies(devices: seq<Device>, d: Device): nat
    decreases |devices|
  {
    if devices == [] then 0
    else DeviceCopies(devices[..|devices| - 1], d) + (if SameDevice(devices[|devices| - 1], d) then 1 else 0)
  }

  function ChainCopies(chains: seq<Chain>, d: Device): nat
    decreases |chains|
  {
    if chains == [] then 0
    else ChainCopies(chains[..|chains| - 1], d) + (if SameDevice(chains[|chains| - 1].device, d) then 1 else 0)
  }

  /** The number of variants a device is eligible for. */
  function MatchingVariants(d: Device, variants: seq<Variant>): nat
    decreases |variants|
  {
    if variants == [] then 0
    else MatchingVariants(d, variants[..|variants| - 1]) + (if EligibleFor(d, variants[|variants| - 1]) then 1 else 0)
  }

  lemma {:induction false} ChainCopiesAppend(a: seq<Chain>, b: seq<Chain>, d: Device)
    ensures ChainCopies(a + b, d) == ChainCopies(a, d) + ChainCopies(b, d)
    decreases |b|
  {
    if b == [] {
      assert a + b == a;
    } else {
      var n := |b| - 1;
      assert (a + b)[..|a + b| - 1] == a + b[..n];
      ChainCopiesAppend(a, b[..n], d);
    }
  }

  lemma {:induction false} ChainCopiesOf(devices: seq<Device>, payload: Payload, platformArn: string, d: Device)
    ensures ChainCopies(ChainsOf(devices, payload, platformArn), d) == DeviceCopies(devices, d)
    decreases |devices|
  {
    if devices != [] {
      var n := |devices| - 1;
      assert ChainsOf(devices, payload, platformArn)[..n] == ChainsOf(devices[..n], payload, platformArn);
      ChainCopiesOf(devices[..n], payload, platformArn, d);
    }
  }

  lemma {:induction false} EligibleCopies(devices: seq<Device>, v: Variant, d: Device)
    ensures DeviceCopies(Eligible(devices, v), d) == if EligibleFor(d, v) then DeviceCopies(devices, d) else 0
    decreases |devices|
  {
    if devices != [] {
      var n := |devices| - 1;
      var e := Eligible(devices[..n], v);
      EligibleCopies(devices[..n], v, d);
      if EligibleFor(devices[n], v) {
        assert (e + [devices[n]])[..|e|] == e;
      } else {
        assert e + [] == e;
      }
    }
  }

  lemma {:induction false} StampCopies(devices: seq<Device>, deviceType: string, d: Device)
    ensures DeviceCopies(Stamp(devices, deviceType), d) == DeviceCopies(devices, d)
    decreases |devices|
  {
    if devices != [] {
      var n := |devices| - 1;
      assert Stamp(devices, deviceType)[..n] == Stamp(devices[..n], deviceType);
      StampCopies(devices[..n], deviceType, d);
    }
  }

  /**
   * Fan-out per installation: an iOS device is sent once per variant it is
   * eligible for, and as many times over as it occurs in the bucket.
   */
  lemma {:induction false} ApnsCopies(data: Notification, devices: seq<Device>, variants: seq<Variant>, d: Device)
    ensures ChainCopies(ApnsChains(data, devices, variants), d) == DeviceCopies(devices, d) * MatchingVariants(d, variants)
    decreases |variants|
  {
    if variants != [] {
      var n := |variants| - 1;
      var v := variants[n];
      ApnsCopies(data, devices, variants[..n], d);
      ChainCopiesAppend(ApnsChains(data, devices, variants[..n]), VariantChains(data, devices, v), d);
      ChainCopiesOf(Eligible(Stamp(devices, "ios"), v), GenerateIosPayload(data, v.production), v.arn, d);
      EligibleCopies(Stamp(devices, "ios"), v, d);
      StampCopies(devices, "ios", d);
      var m := MatchingVariants(d, variants[..n]);
      var c := DeviceCopies(devices, d);
      assert ChainCopies(VariantChains(data, devices, v), d) == if EligibleFor(d, v) then c else 0;
      MulStep(c, m);
    }
  }

  lemma MulStep(c: nat, m: nat)
    ensures c * (m + 1) == c * m + c
  {
  }

  /** A device without an app identifier is eligible for every variant. */
  lemma {:induction false} UnsetAppIdentifierMatchesAll(d: Device, variants: seq<Variant>)
    requires d.appIdentifier == ""
    ensures MatchingVariants(d, variants) == |variants|
    decreases |variants|
  {
    if variants != [] {
      UnsetAppIdentifierMatchesAll(d, variants[..|variants| - 1]);
    }
  }

  /** A device whose app identifier matches no bundle id is sent nowhere. */
  lemma {:induction false} UnmatchedAppIdentifierMatchesNone(d: Device, variants: seq<Variant>)
    requires d.appIdentifier != ""
    requires forall v :: v in variants ==> v.bundleId != d.appIdentifier
    ensures MatchingVariants(d, variants) == 0
    decreases |variants|
  {
    if variants != [] {
      var n := |variants| - 1;
      assert variants[n] in variants;
      UnmatchedAppIdentifierMatchesNone(d, variants[..n]);
    }
  }

  /**
   * Two variants with bundles "bundleA" and "bundleB": a device of bundle A
   * is sent once, a device without an app identifier twice.
   */
  lemma TwoVariantScenario(data: Notification, a: Device, b: Device)
    requires a.appIdentifier == "bundleA" && b.appIdentifier == "" && a.deviceToken != b.deviceToken
    ensures var vs := [Variant("arnA", true, "bundleA"), Variant("arnB", false, "bundleB")];
            ChainCopies(ApnsChains(data, [a, b], vs), a) == 1
            && ChainCopies(ApnsChains(data, [a, b], vs), b) == 2
  {
    var vs := [Variant("arnA", true, "bundleA"), Variant("arnB", false, "bundleB")];
    ApnsCopies(data, [a, b], vs, a);
    ApnsCopies(data, [a, b], vs, b);
    assert vs[..1] == [vs[0]];
    assert vs[..1][..0] == [];
    assert [a, b][..1] == [a];
    assert [a][..0] == [];
    assert DeviceCopies([a], a) == 1 && DeviceCopies([a], b) == 0;
    assert DeviceCopies([a, b], a) == 1 && DeviceCopies([a, b], b) == 1;
    assert MatchingVariants(a, vs[..1]) == 1 && MatchingVariants(b, vs[..1]) == 1;
    UnsetAppIdentifierMatchesAll(b, vs);
  }

  /** `sendToGCM` and `sendToADM`: one chain per bucket device, stamped, with the bucket's payload and ARN. */
  lemma SinglePayloadChains(data: Notification, devices: seq<Device>, config: PlatformConfig, randomId: string, now: int)
    ensures |GcmChains(data, devices, config, randomId, now)| == |devices|
    ensures |AdmChains(data, devices, config)| == |devices|
    ensures forall i :: 0 <= i < |devices| ==>
              var g := GcmChains(data, devices, config, randomId, now)[i];
              var a := AdmChains(data, devices, config)[i];
              g.device == devices[i].(deviceType := "gcm") && g.payload.Keys == {"GCM"} && g.platformArn == Arn(config)
              && a.device == devices[i].(deviceType := "adm") && a.payload == map["ADM" := AdmJson(data.data)]
              && a.platformArn == Arn(config)
  {
  }
}
