/**
 * `request_jwt_strategy`: a JWT strategy whose `read_token` additionally
 * binds a token to the client address that presented it. The signature,
 * audience and expiry checks of the JWT library (RFC 7519) are abstracted
 * as a decoder that yields the claims, `Expired` or `Invalid`; the user
 * manager's `parse_id` and `get` are abstracted as partial functions.
 */
module OriginStrategy {
  import opened Wrappers
  import opened Json

  const OriginKey: string := "request_origin"
  const UserKey: string := "user_id"

  type Claims = map<string, Json>

  /** The outcome of `decode_jwt` on a raw token. */
  datatype Decoded = Decoded(claims: Claims) | Expired | Invalid

  datatype Address = Address(host: string, port: int)

  /** The part of a request the strategy reads: `request.client`, which may be absent. */
  datatype Request = Request(client: Option<Address>)

  /** The exception classes of the strategy: `diff_origin` and `expire_refresh` derive from `invalid_request`. */
  datatype Signal = InvalidRequest | DiffOrigin | ExpireRefresh

  predicate IsInvalidRequest(s: Signal) {
    s.InvalidRequest? || s.DiffOrigin? || s.ExpireRefresh?
  }

  /** What a call can raise: the strategy's own signals, or a Python runtime error. */
  datatype Raised = Signal(signal: Signal) | UnboundLocalError | NameError | AttributeError

  datatype ReadResult<U> = NoUser | Resolved(user: U) | Raise(raised: Raised)

  /** `data.get(key)`: a missing key and a JSON null both read as None. */
  function Get(claims: Claims, key: string): (r: Option<Json>)
    ensures r.None? <==> key !in claims || claims[key] == JNull
    ensures r.Some? ==> r.value == claims[key]
  {
    if key in claims && claims[key] != JNull then Some(claims[key]) else None
  }

  /** `[request.client.host, request.client.port]`. */
  function ClientOrigin(a: Address): Json {
    JArray([JStr(a.host), JInt(a.port)])
  }

  /**
   * A token carries the origin of `a` exactly when its claim is a two-element
   * list of that host and a number equal to that port (so `true` stands for
   * port 1, as Python's `==` has it).
   */
  lemma OriginMatchIff(v: Json, a: Address)
    ensures PyEq(v, ClientOrigin(a))
        <==> v.JArray? && |v.items| == 2 && v.items[0] == JStr(a.host)
             && Numeric(v.items[1]) && NumValue(v.items[1]) == a.port
  {
    if PyEq(v, ClientOrigin(a)) {
      assert PyEq(v.items[0], JStr(a.host)) && PyEq(v.items[1], JInt(a.port));
    }
    if v.JArray? && |v.items| == 2 && v.items[0] == JStr(a.host) && Numeric(v.items[1]) && NumValue(v.items[1]) == a.port {
      var o := ClientOrigin(a).items;
      assert PyEq(v.items[0], o[0]) && PyEq(v.items[1], o[1]);
    }
  }

  /** The claims on which a present request reaches the user lookup: an origin equal to its client's. */
  predicate OriginAccepted(claims: Claims, request: Request) {
    && Get(claims, OriginKey).Some?
    && request.client.Some?
    && PyEq(Get(claims, OriginKey).value, ClientOrigin(request.client.value))
  }

  /**
   * `read_token` as the source has it. Two paths fail with Python runtime
   * errors: an expired token falls through the `except` with `data` unbound,
   * and a failing `parse_id` or `get` evaluates an `except` clause naming a
   * module that was never imported.
   */
  function ReadTokenAsWritten<Id, U>(
    request: Option<Request>, token: Option<string>, decode: string -> Decoded,
    parseId: Json -> Option<Id>, get: Id -> Option<U>): (r: ReadResult<U>)
    ensures r.Resolved? <==>
      && request.Some? && token.Some? && decode(token.value).Decoded?
      && OriginAccepted(decode(token.value).claims, request.value)
      && Get(decode(token.value).claims, UserKey).Some?
      && parseId(Get(decode(token.value).claims, UserKey).value).Some?
      && get(parseId(Get(decode(token.value).claims, UserKey).value).value).Some?
    ensures r.Resolved? ==>
      get(parseId(Get(decode(token.value).claims, UserKey).value).value) == Some(r.user)
  {
    if request.None? || token.None? then NoUser
    else match decode(token.value)
      case Invalid => NoUser
      case Expired => Raise(UnboundLocalError)
      case Decoded(claims) =>
        match Get(claims, OriginKey)
        case None => NoUser
        case Some(origin) =>
          if request.value.client.None? then Raise(AttributeError)
          else if !PyEq(origin, ClientOrigin(request.value.client.value)) then Raise(Signal(DiffOrigin))
          else match Get(claims, UserKey)
            case None => NoUser
            case Some(userId) =>
              match parseId(userId)
              case None => Raise(NameError)
              case Some(id) =>
                match get(id)
                case None => Raise(NameError)
                case Some(u) => Resolved(u)
  }

  /**
   * `read_token` with the two runtime errors repaired: an expired token raises
   * `expire_refresh`, and an id that does not parse or names no user gives None.
   */
  function ReadToken<Id, U>(
    request: Option<Request>, token: Option<string>, decode: string -> Decoded,
    parseId: Json -> Option<Id>, get: Id -> Option<U>): (r: ReadResult<U>)
    ensures r.Resolved? <==>
      && request.Some? && token.Some? && decode(token.value).Decoded?
      && OriginAccepted(decode(token.value).claims, request.value)
      && Get(decode(token.value).claims, UserKey).Some?
      && parseId(Get(decode(token.value).claims, UserKey).value).Some?
      && get(parseId(Get(decode(token.value).claims, UserKey).value).value).Some?
    ensures r.Resolved? ==>
      get(parseId(Get(decode(token.value).claims, UserKey).value).value) == Some(r.user)
    ensures r.Raise? ==> r.raised.Signal? || r.raised.AttributeError?
    ensures r.Raise? && r.raised.Signal? ==> IsInvalidRequest(r.raised.signal)
  {
    if request.None? || token.None? then NoUser
    else match decode(token.value)
      case Invalid => NoUser
      case Expired => Raise(Signal(ExpireRefresh))
      case Decoded(claims) =>
        match Get(claims, OriginKey)
        case None => NoUser
        case Some(origin) =>
          if request.value.client.None? then Raise(AttributeError)
          else if !PyEq(origin, ClientOrigin(request.value.client.value)) then Raise(Signal(DiffOrigin))
          else match Get(claims, UserKey)
            case None => NoUser
            case Some(userId) =>
              match parseId(userId)
              case None => NoUser
              case Some(id) =>
                match get(id)
                case None => NoUser
                case Some(u) => Resolved(u)
  }

  /** Without a request or a token the answer is None, whatever the decoder would say. */
  lemma MissingInputIgnoresDecoder<Id, U>(
    request: Option<Request>, token: Option<string>, decode1: string -> Decoded, decode2: string -> Decoded,
    parseId: Json -> Option<Id>, get: Id -> Option<U>)
    requires request.None? || token.None?
    ensures ReadToken(request, token, decode1, parseId, get) == NoUser
    ensures ReadToken(request, token, decode1, parseId, get) == ReadToken(request, token, decode2, parseId, get)
  {
  }

  /** A token the library rejects for any reason other than expiry gives None. */
  lemma InvalidTokenGivesNone<Id, U>(
    request: Request, token: string, decode: string -> Decoded,
    parseId: Json -> Option<Id>, get: Id -> Option<U>)
    requires decode(token).Invalid?
    ensures ReadToken(Some(request), Some(token), decode, parseId, get).NoUser?
    ensures ReadTokenAsWritten(Some(request), Some(token), decode, parseId, get).NoUser?
  {
  }

  /** An expired token never yields a user; the repaired strategy signals `expire_refresh`. */
  lemma ExpiredRaisesExpireRefresh<Id, U>(
    request: Request, token: string, decode: string -> Decoded,
    parseId: Json -> Option<Id>, get: Id -> Option<U>)
    requires decode(token).Expired?
    ensures ReadToken(Some(request), Some(token), decode, parseId, get) == Raise(Signal(ExpireRefresh))
    ensures !ReadTokenAsWritten(Some(request), Some(token), decode, parseId, get).Resolved?
  {
  }

  /** As written, an expired token makes the call fail on the unbound `data`. */
  lemma AsWrittenExpiredIsUnbound<Id, U>(
    request: Request, token: string, decode: string -> Decoded,
    parseId: Json -> Option<Id>, get: Id -> Option<U>)
    requires decode(token).Expired?
    ensures ReadTokenAsWritten(Some(request), Some(token), decode, parseId, get) == Raise(UnboundLocalError)
  {
  }

  /** Claims without an origin (missing or null) give None. */
  lemma MissingOriginGivesNone<Id, U>(
    request: Request, token: string, decode: string -> Decoded,
    parseId: Json -> Option<Id>, get: Id -> Option<U>)
    requires decode(token).Decoded? && Get(decode(token).claims, OriginKey).None?
    ensures ReadToken(Some(request), Some(token), decode, parseId, get).NoUser?
    ensures ReadTokenAsWritten(Some(request), Some(token), decode, parseId, get).NoUser?
  {
  }

  /** An origin claim that differs from the presenting client raises `diff_origin`, an `invalid_request`. */
  lemma OriginMismatchRaisesDiffOrigin<Id, U>(
    client: Address, token: string, decode: string -> Decoded,
    parseId: Json -> Option<Id>, get: Id -> Option<U>)
    requires decode(token).Decoded?
    requires Get(decode(token).claims, OriginKey).Some?
    requires !PyEq(Get(decode(token).claims, OriginKey).value, ClientOrigin(client))
    ensures ReadToken(Some(Request(Some(client))), Some(token), decode, parseId, get) == Raise(Signal(DiffOrigin))
    ensures ReadTokenAsWritten(Some(Request(Some(client))), Some(token), decode, parseId, get) == Raise(Signal(DiffOrigin))
    ensures IsInvalidRequest(DiffOrigin)
  {
  }

  /** A token replayed from another host never resolves, whatever its user id. */
  lemma ReplayFromOtherHostRejected<Id, U>(
    issuer: Address, replayer: Address, token: string, decode: string -> Decoded,
    parseId: Json -> Option<Id>, get: Id -> Option<U>)
    requires issuer.host != replayer.host
    requires decode(token).Decoded? && Get(decode(token).claims, OriginKey) == Some(ClientOrigin(issuer))
    ensures ReadToken(Some(Request(Some(replayer))), Some(token), decode, parseId, get) == Raise(Signal(DiffOrigin))
  {
    OriginMatchIff(ClientOrigin(issuer), replayer);
  }

  /** Matching origin but no user id claim: None. */
  lemma MissingUserIdGivesNone<Id, U>(
    request: Request, token: string, decode: string -> Decoded,
    parseId: Json -> Option<Id>, get: Id -> Option<U>)
    requires decode(token).Decoded? && OriginAccepted(decode(token).claims, request)
    requires Get(decode(token).claims, UserKey).None?
    ensures ReadToken(Some(request), Some(token), decode, parseId, get).NoUser?
    ensures ReadTokenAsWritten(Some(request), Some(token), decode, parseId, get).NoUser?
  {
  }

  /** Matching origin and a user id that does not parse or names no user: None. */
  lemma UnknownIdGivesNone<Id, U>(
    request: Request, token: string, decode: string -> Decoded,
    parseId: Json -> Option<Id>, get: Id -> Option<U>)
    requires decode(token).Decoded? && OriginAccepted(decode(token).claims, request)
    requires Get(decode(token).claims, UserKey).Some?
    requires parseId(Get(decode(token).claims, UserKey).value).None?
          || get(parseId(Get(decode(token).claims, UserKey).value).value).None?
    ensures ReadToken(Some(request), Some(token), decode, parseId, get).NoUser?
  {
  }

  /** As written, the same input fails with a NameError instead of giving None. */
  lemma AsWrittenUnknownIdRaisesNameError<Id, U>(
    request: Request, token: string, decode: string -> Decoded,
    parseId: Json -> Option<Id>, get: Id -> Option<U>)
    requires decode(token).Decoded? && OriginAccepted(decode(token).claims, request)
    requires Get(decode(token).claims, UserKey).Some?
    requires parseId(Get(decode(token).claims, UserKey).value).None?
          || get(parseId(Get(decode(token).claims, UserKey).value).value).None?
    ensures ReadTokenAsWritten(Some(request), Some(token), decode, parseId, get) == Raise(NameError)
  {
  }

  /** Where the source completes normally, the repaired strategy agrees with it. */
  lemma RepairAgreesElsewhere<Id, U>(
    request: Option<Request>, token: Option<string>, decode: string -> Decoded,
    parseId: Json -> Option<Id>, get: Id -> Option<U>)
    requires !ReadTokenAsWritten(request, token, decode, parseId, get).Raise?
          || ReadTokenAsWritten(request, token, decode, parseId, get).raised.Signal?
          || ReadTokenAsWritten(request, token, decode, parseId, get).raised.AttributeError?
    ensures ReadToken(request, token, decode, parseId, get) == ReadTokenAsWritten(request, token, decode, parseId, get)
  {
  }

  /**
   * The claims that `write_token`, delegating to the base JWT strategy, signs:
   * the user's id under the base strategy's subject claim name `subjectKey`,
   * the audience and, when the strategy has a lifetime, the expiry. The claim
   * name belongs to the JWT library and is a parameter; the only fact the
   * model relies on is that it is not the origin claim.
   */
  function WriteClaims(subjectKey: string, userId: string, audience: seq<string>, expiry: Option<int>): (claims: Claims)
    requires subjectKey != OriginKey
    ensures OriginKey !in claims
    ensures subjectKey in claims && claims[subjectKey] == JStr(userId)
    ensures subjectKey != "aud" ==>
      "aud" in claims && claims["aud"] == JArray(seq(|audience|, k requires 0 <= k < |audience| => JStr(audience[k])))
  {
    var base := map["aud" := JArray(seq(|audience|, k requires 0 <= k < |audience| => JStr(audience[k])))];
    var timed := if expiry.Some? then base["exp" := JInt(expiry.value)] else base;
    timed[subjectKey := JStr(userId)]
  }

  /**
   * `write_token` adds no origin claim, so a token it writes reads back as
   * None under this strategy, whoever presents it, whatever the subject claim
   * is called, `user_id` included.
   */
  lemma WrittenTokenReadsAsNone<Id, U>(
    request: Request, token: string, decode: string -> Decoded,
    parseId: Json -> Option<Id>, get: Id -> Option<U>,
    subjectKey: string, userId: string, audience: seq<string>, expiry: Option<int>)
    requires subjectKey != OriginKey
    requires decode(token) == Decoded(WriteClaims(subjectKey, userId, audience, expiry))
    ensures ReadToken(Some(request), Some(token), decode, parseId, get).NoUser?
    ensures ReadTokenAsWritten(Some(request), Some(token), decode, parseId, get).NoUser?
  {
  }
}
