# SNS push adapter — a Dafny model

This project models the decision logic of the Parse Server push adapter that
delivers notifications through Amazon SNS (`src/SNSPushAdapter.js`):

- **Construction**: the adapter checks the AWS credentials and the configured
  push types (`ios`, `gcm`, `adm`). It records the accepted push types in key
  order and stores one sender per push type.
- **Classification**: installations are partitioned into one bucket per
  accepted push type. Installations without a device token are dropped, and
  so are those whose push type (`pushType`, else `deviceType`) is not accepted.
- **Payload envelopes**: APNS / APNS_SANDBOX, GCM and ADM.
- **Fan-out**: every non-empty bucket goes to its sender. A sender stamps the
  bucket's `deviceType` and schedules one resolve-then-publish chain per
  eligible device. iOS devices are matched to the configured variants by app
  identifier and bundle id.
- **Settling**: the per-device result records are shaped and gathered into
  the value `send` settles with.

Modules: `Wrappers` (Option, Result), `PushModel` (data), `Classifier`,
`Payloads`, `Dispatch` (senders, result records, gathering) and `Adapter`
(the adapter class, its factory `Create` and `send`).

Modelling conventions:
- A source field that the code only tests for truthiness is a `string`, and
  `""` stands for every falsy value (missing, `null`, `undefined`, empty).
  Likewise, a GCM time stamp of `0` stands for "not supplied".
- Device entries are values. The senders overwrite `deviceType` in a loop over
  a local sequence and return the stamped bucket, which `send` writes back
  into its local device map.
- The gateway is a parameter: `gateway(i)` is its pair of replies (endpoint
  creation, publish) for the i-th scheduled chain.
- Two sources of nondeterminism are also parameters: the GCM sender's random
  push id (`randomId`) and the clock (`now`).
- Bodies produced outside the adapter are symbolic values (`Body`):
  - the compiled APNS notification;
  - the JSON text of the GCM payload;
  - the JSON text of `{data}`.
  The hex rendering of a device token is symbolic too (`Hex`).

How `send` settles, following the code:
- A failed endpoint request rejects its chain (src/SNSPushAdapter.js:273).
  Nothing catches that rejection, so the whole `send` rejects with
  `{device, transmitted: false}`, contrary to what a caller might expect;
  it does not become a `transmitted: false` record.
- An endpoint reply with no error but no endpoint ARN (`EndpointCreated("")`)
  takes the error branch, which reads `stack` of the absent error and throws
  inside the callback (src/SNSPushAdapter.js:272); an absent reply throws
  already at line 267, with the same effect. That chain neither resolves nor rejects, so
  unless another chain rejects, `send` never settles (`Pending`). See
  "## Findings".
- `Promise.all` keeps the order of the chains, not their completion order.
  The records come back in scheduling order: push type by push type, and for
  iOS variant by variant.

## Model

| member | source | states |
|---|---|---|
| `Adapter.SNSPushAdapter.constructor` | src/SNSPushAdapter.js:17-20 | the fields start as: valid types ios/gcm/adm, no available types, empty sender map, `snsConfig` the `pushTypes` object, no client |
| `Adapter.SNSPushAdapter.Register` | src/SNSPushAdapter.js:33-44 | an accepted push type is appended to `availablePushTypes` and mapped in `senderMap` to its own platform's sender (ios to the APNS sender, gcm to GCM, adm to ADM), the other entries and fields unchanged |
| `Adapter.Create` | src/SNSPushAdapter.js:16-57 | missing access or secret key fails with PUSH_MISCONFIGURED "Need to provide AWS keys", whatever the push types; otherwise any key outside ios/gcm/adm fails with PUSH_MISCONFIGURED "Push to <keys joined by ','> is not supported"; otherwise a fresh valid adapter whose `availablePushTypes` are the keys in order, whose `senderMap` has exactly those keys, each mapped to its platform's sender, and whose client has the credentials and the region (default us-east-1) |
| `Adapter.ConfigMapLookup` | src/SNSPushAdapter.js:19 | each configured push type is looked up to the configuration given for it |
| `Adapter.SNSPushAdapter.GetValidPushTypes` | src/SNSPushAdapter.js:60-62 | returns the accepted push types, which are distinct and all among ios/gcm/adm |
| `Classifier.ClassifyInstallations` | src/SNSPushAdapter.js:71-137 | the result's key set is exactly the valid push types (empty buckets included), and each bucket is the in-order list of `{deviceToken, appIdentifier}` entries of the installations with a token whose `pushType`, else `deviceType`, is that key |
| `Classifier.BucketAppend` | src/SNSPushAdapter.js:104-120 | classification is stable: the bucket of a concatenation is the concatenation of the buckets (input order kept, no deduplication) |
| `Classifier.BucketMembership` | src/SNSPushAdapter.js:107-119 | an entry is in a bucket if and only if it is the `{deviceToken, appIdentifier}` entry of an installation with a token routed to that key |
| `Classifier.DroppedInstallation` | src/SNSPushAdapter.js:107-119 | an installation without a token, or whose key is not a valid push type, can be removed without changing any bucket |
| `Classifier.ClassifiedTotal` | src/SNSPushAdapter.js:104-120 | over distinct push types, the bucket sizes add up to the number of installations with a token and an accepted key |
| `Payloads.GenerateIosPayload` | src/SNSPushAdapter.js:139-153 | exactly one key, "APNS" when production and "APNS_SANDBOX" otherwise, holding the compiled notification of the data and expiration time |
| `Payloads.IosKeyFollowsProduction` | src/SNSPushAdapter.js:139-152 | the production flag changes only the envelope key, not the body |
| `Payloads.GenerateGcmPayload` | src/SNSPushAdapter.js:155-164 | exactly one key "GCM"; the body uses the given push id or else the random one, and the given time stamp or else the current time |
| `Payloads.GcmDeterministic` | src/SNSPushAdapter.js:155-158 | with an explicit push id and time stamp the GCM envelope does not depend on the random id or the clock |
| `Payloads.GenerateAdmPayload` | src/SNSPushAdapter.js:166-176 | exactly one key "ADM", holding the JSON text of `{data}` only |
| `Payloads.AdmIgnoresExpiration` | src/SNSPushAdapter.js:166-176 | the ADM envelope is the same for any expiration time and production flag |
| `Dispatch.SendToSns` | src/SNSPushAdapter.js:236-245 | exactly one chain per device passed in, in order, each with the given payload and platform ARN |
| `Dispatch.StampDevices` | src/SNSPushAdapter.js:219-221 | every device of the bucket gets the platform's `deviceType`; token and app identifier unchanged |
| `Dispatch.SendToGcm` | src/SNSPushAdapter.js:216-223 | the bucket comes back stamped "gcm" and every device gets one chain with the GCM envelope and the gcm ARN |
| `Dispatch.SendToAdm` | src/SNSPushAdapter.js:225-232 | the bucket comes back stamped "adm" and every device gets one chain with the ADM envelope and the adm ARN |
| `Dispatch.SinglePayloadChains` | src/SNSPushAdapter.js:216-232 | GCM and ADM schedule exactly one chain per bucket device, carrying the stamped device, the platform's envelope and the configured ARN |
| `Dispatch.SelectForVariant` | src/SNSPushAdapter.js:196-205 | stamps every device "ios" and collects, in order, the devices with no app identifier or with the variant's bundle id |
| `Dispatch.SendToApns` | src/SNSPushAdapter.js:178-214 | schedules, variant by variant (a single config as a one-element list), the chains of the eligible devices; the bucket comes back stamped "ios" whenever there is a variant, eligible or not |
| `Dispatch.EligibleStamp` | src/SNSPushAdapter.js:197-205 | stamping does not change which devices are eligible for a variant |
| `Dispatch.ApnsChainCount` | src/SNSPushAdapter.js:191-213 | the iOS chain count is the sum over variants of the eligible devices; variants with none add nothing |
| `Dispatch.ApnsChainShape` | src/SNSPushAdapter.js:191-210 | every iOS chain carries a bucket device stamped "ios", and the envelope and ARN of a variant that device is eligible for |
| `Dispatch.ApnsCopies` | src/SNSPushAdapter.js:191-211 | a device is sent once per variant it is eligible for, times its occurrences in the bucket |
| `Dispatch.UnsetAppIdentifierMatchesAll` | src/SNSPushAdapter.js:199-201 | a device without an app identifier is eligible for every variant |
| `Dispatch.UnmatchedAppIdentifierMatchesNone` | src/SNSPushAdapter.js:200-204 | a device whose app identifier matches no bundle id is sent through no variant |
| `Dispatch.TwoVariantScenario` | src/SNSPushAdapter.js:191-211 | with bundles A and B, a bundle-A device is sent once and a device without an app identifier twice |
| `Dispatch.SendSnsPayload` | src/SNSPushAdapter.js:298-321 | the record's device is only `{deviceType, hex token}`; a publish error gives `transmitted=false` with the stack as response only when there is one; a success gives `transmitted=true` with the reply as response |
| `Dispatch.Settle` | src/SNSPushAdapter.js:263-280 | fulfils with one record per chain, in chain order, if and only if every endpoint resolves (no error and an endpoint ARN); rejects with the `{device, transmitted: false}` of a chain if and only if some endpoint request failed, naming the first such chain; otherwise (no failure, some reply without an ARN) stays pending |
| `Dispatch.SettlePending` | src/SNSPushAdapter.js:266-277 | `send` stays pending if and only if no endpoint request fails and some endpoint reply has neither error nor ARN |
| `Dispatch.Gather` | src/SNSPushAdapter.js:264-277 | one more chain joins the gathered outcome: a rejection stands; a failed endpoint request rejects with its device; a resolved endpoint appends its record to a fulfilled outcome; a reply without an ARN leaves it pending |
| `Dispatch.SettleIntended` | src/SNSPushAdapter.js:266-275 | the evidently intended settling: never pending; fulfils as `Settle` does and otherwise rejects with the first chain whose endpoint did not resolve |
| `Dispatch.SettleAsIntended` | src/SNSPushAdapter.js:266-275 | when no endpoint reply lacks its ARN, the code as written and the intended settling agree |
| `Dispatch.StalledEndpoint` | src/SNSPushAdapter.js:266-275 | one chain whose endpoint reply has neither error nor ARN: as written `send` stays pending, as intended it rejects for that device |
| `Adapter.SNSPushAdapter.CallSender` | src/SNSPushAdapter.js:338-339 | calling the stored sender schedules exactly that platform's chains and returns the bucket stamped with its push type (unstamped only for ios with no variant) |
| `Adapter.SNSPushAdapter.CallSenders` | src/SNSPushAdapter.js:334-343 | push type by push type, only non-empty buckets call their sender; the chains are concatenated in that order |
| `Adapter.SNSPushAdapter.Visit` | src/SNSPushAdapter.js:334-342 | one push type: a non-empty bucket yields its sender's chains and is written back stamped; an empty one yields nothing; the buckets of later push types are untouched |
| `Adapter.WriteBack` | src/SNSPushAdapter.js:336-339 | the bucket a sender stamped in place replaces its entry in the device map; the other entries, and the buckets of the push types still to come, are untouched |
| `Adapter.SNSPushAdapter.Schedule` | src/SNSPushAdapter.js:331-343 | classifies by the available push types and schedules the chains of all non-empty buckets |
| `Adapter.SNSPushAdapter.Send` | src/SNSPushAdapter.js:330-349 | settles the scheduled chains as `Settle` does; fulfilled exactly when every chain's endpoint resolves, with exactly `|gcm bucket| + |adm bucket| + iOS eligible total` records (configured platforms only), each belonging to an installation with a token routed to a configured push type; rejected exactly when some chain's endpoint request fails; otherwise pending |
| `Adapter.FanoutCount` | src/SNSPushAdapter.js:330-343 | over distinct configured push types, the chain count is the gcm and adm bucket sizes plus the iOS eligible total |
| `Adapter.SenderChainsFrom` | src/SNSPushAdapter.js:216-232 | every chain a sender schedules carries a device of its bucket stamped with the bucket's push type |
| `Adapter.FanoutRouted` | src/SNSPushAdapter.js:330-343 | every scheduled chain belongs to an installation with a token that was routed to the chain's push type, which is configured |
| `Adapter.SendOutcome` | src/SNSPushAdapter.js:330-349 | the settled outcome of `send`: record count, fulfilment exactly when all endpoints resolve, rejection exactly when some endpoint request fails, and provenance of every record |

## Left out

- AWS client calls are not modelled as calls. This covers the client
  configuration, `new AWS.SNS()`, `createPlatformEndpoint` and `publish`. The
  model keeps only the client's settings and the gateway's replies, given per
  chain as a parameter.
- The request objects sent to the gateway are not built:
  `{PlatformApplicationArn, Token}` and `{Message, MessageStructure: 'json', TargetArn}`.
- Promise mechanics and concurrency are not modelled. Chains are scheduled
  sequentially and gathered in list order.
- The external payload compilers are not modelled: the APNS notification
  compiler, the GCM payload builder and the random-string helper.
  `JSON.stringify` and `toString('hex')` are kept symbolic. The clock and the
  random id are parameters.
- Logging is not modelled, and `Parse.Error` is reduced to its code and message.
- Inherited object properties are not modelled. In the source, `deviceMap[key]`
  is also truthy for keys such as "constructor". Maps here hold only own keys.
- A push-type configuration that is `null` (which the source would dereference
  and crash on) is not modelled, because configurations are always present
  values here.
- An array configuration for gcm or adm has no `ARN`. The model gives it the
  ARN "", standing for `undefined`.
- The `""` convention does not tell a missing string from an empty one. For
  routing keys this matters only if "" or "undefined" were themselves
  accepted push types, and construction rules that out.
- Adapter.Create: requires distinct push-type keys. A JavaScript object's own
  keys are distinct, so this excludes no real input.
- Dispatch.Settle: when several endpoint requests fail, which rejection
  `Promise.all` surfaces depends on timing. The model names the first failing
  chain in list order.
- Adapter.SNSPushAdapter.Send: the exception thrown at src/SNSPushAdapter.js:272
  for a reply without an ARN is not modelled beyond its effect on the promise
  (`Pending`); whether it also crashes the process depends on the AWS SDK and
  the host, which are not part of this model.

## Findings

| source | as written | input that shows it | evidently intended | confidence | as-written member | corrected member |
|---|---|---|---|---|---|---|
| src/SNSPushAdapter.js:266-275 | the error branch also handles a reply with no error and no `EndpointArn`, and dereferences `err.stack` with `err` null, throwing before `reject` | one chain whose `createPlatformEndpoint` callback gets `(null, {})`: `send` never settles | that chain rejects with `{device, transmitted: false}` like a failed request | high, not executed | `Dispatch.StalledEndpoint` (on `Dispatch.Settle`) | `Dispatch.SettleIntended`, with `Dispatch.SettleAsIntended` |

`Adapter.SNSPushAdapter.Send` keeps the code's behaviour (`Dispatch.Settle`);
`Dispatch.SettleAsIntended` shows that the two differ only on replies without an
ARN.
