// The relay's HTTP handlers.
module Relay {
  import opened Common
  import opened Strings
  import opened Push
  import opened RateLimiter
  import R = RelayState
  import Base64
  import Vapid

  class Handler {
    const config: R.Config
    const limiter: Limiter
    const sender: Sender<R.Note>
    var endpoints: map<string, R.Endpoint>

    constructor (config: R.Config, limiter: Limiter, sender: Sender<R.Note>)
      requires limiter.Valid()
      ensures Valid() && this.config == config && this.limiter == limiter && this.sender == sender && endpoints == map[]
    {
      this.config, this.limiter, this.sender, endpoints := config, limiter, sender, map[];
    }

    ghost predicate Valid()
      reads this, limiter, limiter.windows.Values
    {
      limiter.Valid()
    }

    ghost function State(): R.State
      reads this, limiter, sender
    {
      R.State(endpoints, limiter.view, sender.log)
    }

    // Answers the status and, with 201, the endpoint URL.
    method HandleRegister(body: Option<R.Registration>, random: seq<Byte>, dbFails: bool)
      returns (status: int, url: string)
      requires Valid()
      modifies this
      ensures Valid() && State() == R.Registered(config, old(State()), R.Register(body, random, dbFails))
      ensures status == R.RegisterStatus(R.Register(body, random, dbFails))
      ensures status == 201 ==> url == R.EndpointURL(config, R.NewId(random))
    {
      url := "";
      if body.None? {
        return 400, url;
      }
      var platform := R.ToLower(TrimSpace(body.value.platform));
      if platform != "ios" && platform != "android" {
        return 400, url;
      }
      if TrimSpace(body.value.deviceToken) == "" {
        return 400, url;
      }
      if TrimSpace(body.value.appId) == "" {
        return 400, url;
      }
      var e := R.Endpoint(platform, TrimSpace(body.value.deviceToken), TrimSpace(body.value.appId),
                          TrimSpace(body.value.vapidPublicKey), TrimSpace(body.value.instance));
      if dbFails {
        return 500, url;
      }
      var id := R.NewId(random);
      DeleteForDevice(e.deviceToken, e.appId);
      endpoints := endpoints[config.hash(id) := e];
      return 201, R.EndpointURL(config, id);
    }

    method DeleteForDevice(deviceToken: string, appId: string)
      modifies this`endpoints
      ensures endpoints == R.WithoutDevice(old(endpoints), deviceToken, appId)
    {
      endpoints := map k | k in endpoints && !(endpoints[k].deviceToken == deviceToken && endpoints[k].appId == appId) :: endpoints[k];
    }

    method HandleUnregister(json: bool, endpoint: string, deviceToken: string, appId: string, dbFails: bool)
      returns (status: int)
      requires Valid()
      modifies this
      ensures Valid()
      ensures State() == R.Unregistered(config, old(State()), R.Unregister(json, endpoint, deviceToken, appId, dbFails))
      ensures status ==
        if !json || (TrimSpace(endpoint) == "" && (TrimSpace(deviceToken) == "" || TrimSpace(appId) == "")) then 400
        else if dbFails then 500 else 204
    {
      if !json {
        return 400;
      }
      if TrimSpace(endpoint) != "" {
        var id := LastSegment(endpoint);
        if dbFails {
          return 500;
        }
        endpoints := endpoints - {config.hash(id)};
      } else if TrimSpace(deviceToken) != "" && TrimSpace(appId) != "" {
        if dbFails {
          return 500;
        }
        DeleteForDevice(deviceToken, appId);
      } else {
        return 400;
      }
      return 204;
    }

    // The id at the end of an endpoint URL.
    method LastSegment(endpoint: string) returns (id: string)
      ensures id == R.Segment(endpoint)
    {
      id := endpoint;
      var i := LastIndex(id, '/');
      if i >= 0 {
        id := id[i + 1..];
      }
    }

    method HandlePush(id: string, authorization: string, payload: Option<seq<Byte>>, encoding: string, now: int,
                      lookupFails: bool, deleteFails: bool) returns (status: int)
      requires Valid()
      modifies this, limiter, limiter.windows.Values, sender
      ensures Valid()
      ensures (State(), status) == R.Pushed(config, old(State()),
        R.Push(id, authorization, payload, encoding, now, lookupFails, deleteFails, sender.answers(|old(sender.log)|)))
    {
      ghost var answer := sender.answers(|sender.log|);
      ghost var op := R.Push(id, authorization, payload, encoding, now, lookupFails, deleteFails, answer);
      if lookupFails {
        return 500;
      }
      if config.hash(id) !in endpoints {
        return 404;
      }
      var endpoint := endpoints[config.hash(id)];
      var ok := limiter.Allow(id, now);
      if !ok {
        return 429;
      }
      status := HandleAdmitted(endpoint, authorization, payload, encoding, deleteFails, op);
    }

    // The part of handlePush after the rate limit.
    method HandleAdmitted(endpoint: R.Endpoint, authorization: string, payload: Option<seq<Byte>>, encoding: string,
                          deleteFails: bool, ghost op: R.Op) returns (status: int)
      requires op.Push? && op.authorization == authorization && op.payload == payload && op.encoding == encoding
      requires op.deleteFails == deleteFails && op.answer == sender.answers(|sender.log|)
      modifies this`endpoints, sender`log
      ensures (State(), status) == R.Admitted(config, old(State()), endpoint, op)
    {
      var err := Vapid.Verify(authorization, endpoint.vapidPublicKey, config.crypto);
      if err.Some? && endpoint.vapidPublicKey != "" {
        return 202;
      }
      var refused, body := ReadBody(payload, encoding);
      if refused.Some? {
        return refused.value;
      }
      status := Forward(endpoint, body, deleteFails);
    }

    // The part of handlePush that reads the body, or else the answer it gives.
    method ReadBody(payload: Option<seq<Byte>>, encoding: string) returns (refused: Option<int>, body: seq<Byte>)
      ensures refused.None? <==> payload.Some? && R.Forwardable(R.Cut64K(payload.value), encoding)
      ensures refused.Some? ==> refused.value == if payload.None? then 500 else 202
      ensures payload.Some? ==> body == R.Cut64K(payload.value)
    {
      if payload.None? {
        return Some(500), [];
      }
      body := R.Cut64K(payload.value);
      if |body| == 0 {
        return Some(202), body;
      }
      if |body| > R.MAX_CIPHERTEXT_BYTES {
        return Some(202), body;
      }
      if encoding != "" && encoding != "aes128gcm" {
        return Some(202), body;
      }
      refused := None;
    }

    // The part of handlePush that talks to the push layer.
    method Forward(endpoint: R.Endpoint, body: seq<Byte>, deleteFails: bool) returns (status: int)
      modifies this`endpoints, sender`log
      ensures var answer := sender.answers(|old(sender.log)|);
        && sender.log == old(sender.log) + [Attempt(R.NoteFor(endpoint, body), answer)]
        && status == (match answer case Delivered => 201 case Transient => 502 case TokenInvalid => 404)
        && endpoints == if answer.TokenInvalid? && !deleteFails
             then R.WithoutDevice(old(endpoints), endpoint.deviceToken, endpoint.appId) else old(endpoints)
    {
      var n := R.Note(endpoint.deviceToken, endpoint.platform, R.PLACEHOLDER_TITLE,
                      Base64.Encode(body, Base64.RAW_URL), "webpush");
      var answer := sender.Send(n);
      if answer.TokenInvalid? {
        if !deleteFails {
          DeleteForDevice(endpoint.deviceToken, endpoint.appId);
        }
        return 404;
      }
      if answer.Transient? {
        return 502;
      }
      return 201;
    }
  }
}
