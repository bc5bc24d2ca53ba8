/**
 * The values the SNS push adapter works on.
 *
 * Convention: a field of the source that may be missing, `null`, `undefined`
 * or empty, and that the source only ever tests for truthiness, is a `string`
 * here in which "" stands for all of those falsy values.
 */
module PushModel {
  import opened Wrappers

  /** The platforms the adapter accepts, in the order the source lists them. */
  const ValidPushTypes: seq<string> := ["ios", "gcm", "adm"]

  const DefaultRegion: string := "us-east-1"

  /** Parse.Error.PUSH_MISCONFIGURED */
  const PushMisconfigured: int := 115

  /** The notification data is opaque to the adapter: it only passes it on. */
  type Data = string

  /** A push notification: its data and an optional expiration time. */
  datatype Notification = Notification(data: Data, expirationTime: Option<int>)

  /** An installation record supplied by the caller. */
  datatype Installation = Installation(
    deviceToken: string,
    deviceType: string,
    pushType: string,
    appIdentifier: string)

  /**
   * A device entry in a platform bucket. Classification fills only the token
   * and the app identifier; `deviceType` stays "" until a sender stamps it.
   */
  datatype Device = Device(deviceToken: string, appIdentifier: string, deviceType: string)

  /**
   * The body stored under an envelope key. The bodies are produced by code
   * outside the adapter and are kept symbolic:
   *   ApnsNotification — the APNS compiler's output for (data, expirationTime);
   *   GcmJson          — the JSON text of the GCM payload built from its four inputs;
   *   AdmJson          — the JSON text of the object `{data: data}`.
   */
  datatype Body =
    | ApnsNotification(data: Data, expirationTime: Option<int>)
    | GcmJson(data: Data, pushId: string, timeStamp: int, expirationTime: Option<int>)
    | AdmJson(data: Data)

  /** A payload envelope: platform key to body. */
  type Payload = map<string, Body>

  /** One platform-application configuration. "" stands for an absent field. */
  datatype Variant = Variant(arn: string, production: bool, bundleId: string)

  /** A platform's configuration: one object or an array of them. */
  datatype PlatformConfig = Single(variant: Variant) | Many(variants: seq<Variant>)

  /** One own key of the `pushTypes` configuration object, in key order. */
  datatype PushTypeEntry = PushTypeEntry(pushType: string, config: PlatformConfig)

  /** The constructor's argument; `pushTypes` is [] when the object is absent. */
  datatype PushConfig = PushConfig(
    accessKey: string,
    secretKey: string,
    region: string,
    pushTypes: seq<PushTypeEntry>)

  /** The AWS client settings the constructor installs. */
  datatype SnsClient = SnsClient(accessKeyId: string, secretAccessKey: string, region: string)

  /** The per-platform handlers stored in `senderMap`. */
  datatype Sender = ToApns | ToGcm | ToAdm

  /** The error the source throws. */
  datatype ParseError = ParseError(code: int, message: string)

  /** One scheduled resolve-then-publish operation for one device. */
  datatype Chain = Chain(device: Device, payload: Payload, platformArn: string)

  /** What the gateway answers to an endpoint-creation request. */
  datatype EndpointReply = EndpointCreated(endpointArn: string) | EndpointError

  /** What the gateway answers to a publish request; `stack` is "" when the error has none. */
  datatype PublishReply = Published(data: string) | PublishError(stack: string)

  /** The gateway's two answers for one chain. */
  datatype Exchange = Exchange(endpoint: EndpointReply, publish: PublishReply)

  /** The device token rendered with `toString('hex')`, kept symbolic. */
  datatype HexText = Hex(token: string)

  datatype ResultDevice = ResultDevice(deviceType: string, deviceToken: HexText)

  datatype Response = Stack(trace: string) | Reply(data: string)

  /** The per-device record `send` resolves with. */
  datatype DispatchResult = DispatchResult(device: ResultDevice, transmitted: bool, response: Option<Response>)

  /** The value a failed endpoint resolution rejects with: `{device, transmitted: false}`. */
  datatype Rejection = Rejection(device: Device, transmitted: bool)

  /**
   * How the promise `send` returns ends: fulfilled with the records, rejected
   * with a rejection value, or never settled (`Pending`).
   */
  datatype Settlement =
    | Fulfilled(records: seq<DispatchResult>)
    | Rejected(rejection: Rejection)
    | Pending

  predicate Distinct(s: seq<string>) {
    forall i, j :: 0 <= i < j < |s| ==> s[i] != s[j]
  }
}
