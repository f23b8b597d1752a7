// The Web Push relay as a value: its endpoints, its limiter and its sends, and what each
// request does to them.
module RelayState {
  import opened Common
  import opened Strings
  import opened Push
  import opened RateLimiter
  import Base64
  import Vapid

  const MAX_CIPHERTEXT_BYTES := 2800
  const READ_LIMIT := 64 * 1024
  const PLACEHOLDER_TITLE := "Fediverse"

  datatype Endpoint = Endpoint(platform: string, deviceToken: string, appId: string, vapidPublicKey: string, instance: string)

  // What is handed to the push layer; m carries the ciphertext.
  datatype Note = Note(token: string, platform: string, title: string, m: string, source: string)

  // Endpoints are keyed by the hash of their id.
  datatype State = State(endpoints: map<string, Endpoint>, windows: Windows, sends: seq<Attempt<Note>>)

  const EMPTY := State(map[], map[], [])

  datatype Config = Config(baseURL: string, hash: string -> string, crypto: Vapid.Crypto)

  // ------------------------------------------------------------------------- requests

  datatype Registration = Registration(
    deviceToken: string, platform: string, appId: string, vapidPublicKey: string, instance: string)

  // Bodies that are not JSON, database failures and random bytes are inputs.
  datatype Op =
    | Register(body: Option<Registration>, random: seq<Byte>, dbFails: bool)
    | Unregister(json: bool, endpoint: string, deviceToken: string, appId: string, dbFails: bool)
    | Push(id: string, authorization: string, payload: Option<seq<Byte>>, encoding: string, now: int,
           lookupFails: bool, deleteFails: bool, answer: Outcome)

  // A new endpoint id: 32 random bytes in raw base64url.
  function NewId(random: seq<Byte>): string {
    Base64.Encode(random, Base64.RAW_URL)
  }

  // ---------------------------------------------------------------- register, unregister

  // Only these letters matter for the two accepted platforms.
  function Lower(c: char): char {
    if 'A' <= c <= 'Z' then (c as int + 32) as char else if c == '\U{130}' then 'i' else c
  }

  function ToLower(s: string): (t: string)
    ensures |t| == |s|
  {
    seq(|s|, i requires 0 <= i < |s| => Lower(s[i]))
  }

  // The endpoint a registration asks for, or None when it is invalid.
  function Requested(body: Option<Registration>): Option<Endpoint> {
    if body.None? then None
    else
      var r := body.value;
      var platform := ToLower(TrimSpace(r.platform));
      if platform != "ios" && platform != "android" then None
      else if TrimSpace(r.deviceToken) == "" || TrimSpace(r.appId) == "" then None
      else Some(Endpoint(platform, TrimSpace(r.deviceToken), TrimSpace(r.appId),
                         TrimSpace(r.vapidPublicKey), TrimSpace(r.instance)))
  }

  function WithoutDevice(endpoints: map<string, Endpoint>, deviceToken: string, appId: string): map<string, Endpoint> {
    map k | k in endpoints && !(endpoints[k].deviceToken == deviceToken && endpoints[k].appId == appId) :: endpoints[k]
  }

  function Registered(c: Config, s: State, op: Op): State
    requires op.Register?
  {
    var e := Requested(op.body);
    if e.None? || op.dbFails then s
    else s.(endpoints := WithoutDevice(s.endpoints, e.value.deviceToken, e.value.appId)[c.hash(NewId(op.random)) := e.value])
  }

  function RegisterStatus(op: Op): int
    requires op.Register?
  {
    if Requested(op.body).None? then 400 else if op.dbFails then 500 else 201
  }

  // The last path segment.
  function Segment(url: string): string {
    url[LastIndex(url, '/') + 1..]
  }

  function Unregistered(c: Config, s: State, op: Op): State
    requires op.Unregister?
  {
    if !op.json || op.dbFails then s
    else if TrimSpace(op.endpoint) != "" then s.(endpoints := s.endpoints - {c.hash(Segment(op.endpoint))})
    else if TrimSpace(op.deviceToken) != "" && TrimSpace(op.appId) != "" then
      s.(endpoints := WithoutDevice(s.endpoints, op.deviceToken, op.appId))
    else s
  }

  function TrimSlashes(url: string): string {
    if url != "" && url[|url| - 1] == '/' then TrimSlashes(url[..|url| - 1]) else url
  }

  // What register hands to the client.
  function EndpointURL(c: Config, id: string): string {
    TrimSlashes(c.baseURL) + "/relay/" + id
  }

  // ----------------------------------------------------------------------------- push

  function Cut64K(body: seq<Byte>): seq<Byte> {
    if |body| > READ_LIMIT then body[..READ_LIMIT] else body
  }

  // Whether a push to an endpoint passes its VAPID check, or needs none.
  predicate Authorized(c: Config, e: Endpoint, op: Op)
    requires op.Push?
  {
    e.vapidPublicKey == "" || Vapid.Verify(op.authorization, e.vapidPublicKey, c.crypto).None?
  }

  predicate Forwardable(body: seq<Byte>, encoding: string) {
    0 < |body| <= MAX_CIPHERTEXT_BYTES && (encoding == "" || encoding == "aes128gcm")
  }

  function NoteFor(e: Endpoint, body: seq<Byte>): Note {
    Note(e.deviceToken, e.platform, PLACEHOLDER_TITLE, Base64.Encode(body, Base64.RAW_URL), "webpush")
  }

  // What handlePush answers between the rate limit and the send, or None.
  function Refused(c: Config, e: Endpoint, op: Op): Option<int>
    requires op.Push?
  {
    if !Authorized(c, e, op) then Some(202)
    else if op.payload.None? then Some(500)
    else if !Forwardable(Cut64K(op.payload.value), op.encoding) then Some(202)
    else None
  }

  function Sent(s: State, e: Endpoint, op: Op): State
    requires op.Push? && op.payload.Some?
  {
    s.(sends := s.sends + [Attempt(NoteFor(e, Cut64K(op.payload.value)), op.answer)])
  }

  function Removed(s: State, e: Endpoint, op: Op): State
    requires op.Push?
  {
    if op.deleteFails then s else s.(endpoints := WithoutDevice(s.endpoints, e.deviceToken, e.appId))
  }

  // A push with nothing else going on: the state it leaves and the status.
  function Pushed(c: Config, s: State, op: Op): (r: (State, int))
    requires op.Push?
  {
    var key := c.hash(op.id);
    if op.lookupFails then (s, 500)
    else if key !in s.endpoints then (s, 404)
    else
      var s1 := s.(windows := Allowed(s.windows, op.id, op.now));
      if !Admits(s.windows, op.id, op.now) then (s1, 429) else Admitted(c, s1, s.endpoints[key], op)
  }

  // A push to endpoint e that the limiter let through.
  function Admitted(c: Config, s: State, e: Endpoint, op: Op): (r: (State, int))
    requires op.Push?
  {
    match Refused(c, e, op)
    case Some(status) => (s, status)
    case None =>
      match op.answer
      case Delivered => (Sent(s, e, op), 201)
      case Transient => (Sent(s, e, op), 502)
      case TokenInvalid => (Removed(Sent(s, e, op), e, op), 404)
  }

  // What a registration or an unregistration does.
  function After(c: Config, s: State, op: Op): State
    requires !op.Push?
  {
    match op
    case Register(_, _, _) => Registered(c, s, op)
    case Unregister(_, _, _, _, _) => Unregistered(c, s, op)
  }
}
