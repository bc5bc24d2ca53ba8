/** The per-platform envelopes handed to the gateway's publish call. */
module Payloads {
  import opened Wrappers
  import opened PushModel

  /** `generateiOSPayload`: the compiled notification under "APNS" or "APNS_SANDBOX". */
  function GenerateIosPayload(data: Notification, production: bool): (payload: Payload)
    ensures production ==> payload.Keys == {"APNS"}
    ensures !production ==> payload.Keys == {"APNS_SANDBOX"}
    ensures forall k :: k in payload ==> payload[k] == ApnsNotification(data.data, data.expirationTime)
  {
    var prefix := if production then "APNS" else "APNS_SANDBOX";
    map[prefix := ApnsNotification(data.data, data.expirationTime)]
  }

  /**
   * `generateGCMPayload`: the JSON text of the GCM payload under "GCM". A push
   * identifier of "" is replaced by `randomId` and a time stamp of 0 by `now`,
   * the values the source draws from its random-string helper and the clock.
   */
  function GenerateGcmPayload(data: Notification, pushId: string, timeStamp: int, randomId: string, now: int)
    : (payload: Payload)
    ensures payload.Keys == {"GCM"}
    ensures payload["GCM"].GcmJson? && payload["GCM"].data == data.data
    ensures payload["GCM"].pushId == (if pushId != "" then pushId else randomId)
    ensures payload["GCM"].timeStamp == (if timeStamp != 0 then timeStamp else now)
    ensures payload["GCM"].expirationTime == data.expirationTime
  {
    var id := if pushId != "" then pushId else randomId;
    var stamp := if timeStamp != 0 then timeStamp else now;
    map["GCM" := GcmJson(data.data, id, stamp, data.expirationTime)]
  }

  /** `generateADMPayload`: the JSON text of `{data}` under "ADM"; `production` is unused. */
  function GenerateAdmPayload(data: Notification, production: bool): (payload: Payload)
    ensures payload.Keys == {"ADM"}
    ensures payload["ADM"] == AdmJson(data.data)
  {
    map["ADM" := AdmJson(data.data)]
  }

  /** The production flag selects only the envelope key; the body is the same. */
  lemma IosKeyFollowsProduction(data: Notification)
    ensures GenerateIosPayload(data, true)["APNS"] == GenerateIosPayload(data, false)["APNS_SANDBOX"]
    ensures "APNS_SANDBOX" !in GenerateIosPayload(data, true) && "APNS" !in GenerateIosPayload(data, false)
  {
  }

  /** With an explicit push identifier and time stamp, the GCM envelope is deterministic. */
  lemma GcmDeterministic(data: Notification, pushId: string, timeStamp: int, r1: string, n1: int, r2: string, n2: int)
    requires pushId != "" && timeStamp != 0
    ensures GenerateGcmPayload(data, pushId, timeStamp, r1, n1) == GenerateGcmPayload(data, pushId, timeStamp, r2, n2)
  {
  }

  /** The ADM envelope ignores the expiration time and the production flag. */
  lemma AdmIgnoresExpiration(d1: Notification, p1: bool, d2: Notification, p2: bool)
    requires d1.data == d2.data
    ensures GenerateAdmPayload(d1, p1) == GenerateAdmPayload(d2, p2)
  {
  }
}
