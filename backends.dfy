/**
 * The authentication-backend registry: two cookie backends built once from
 * the configuration, each pairing a cookie transport with a JWT strategy
 * whose lifetimes come from one expression, and a lookup by position or by
 * name.
 */
module Backends {
  import opened Wrappers

  /** The configuration values the registry reads (environment-sourced in the source). */
  datatype Config = Config(
    secretKey: string,
    accessTokenExpireSeconds: int,
    jwtAudience: string,
    jwtAlgorithm: string)

  datatype CookieTransport = CookieTransport(
    cookieName: string,
    cookieMaxAge: int,
    cookieHttpOnly: bool,
    cookieSecure: bool)

  /** What the backend's strategy factory yields on every call. */
  datatype JwtStrategy = JwtStrategy(
    secret: string,
    lifetimeSeconds: int,
    tokenAudience: seq<string>,
    algorithm: string)

  datatype Backend = Backend(name: string, transport: CookieTransport, strategy: JwtStrategy)

  /**
   * `round(ACCESS_TOKEN_EXPIRE_SECONDS * coef)` for the natural coefficients
   * the registry uses, where the rounding is exact.
   */
  function Lifetime(cfg: Config, coef: nat): int {
    cfg.accessTokenExpireSeconds * coef
  }

  function CreateCookieTransport(cfg: Config, name: string, coef: nat): CookieTransport {
    CookieTransport(name, Lifetime(cfg, coef), true, false)
  }

  function CreateStrategy(cfg: Config, coef: nat): JwtStrategy {
    JwtStrategy(cfg.secretKey, Lifetime(cfg, coef), [cfg.jwtAudience], cfg.jwtAlgorithm)
  }

  /**
   * Transport and strategy of a backend agree: the cookie carries the
   * backend's name, lives exactly as long as the token, is httponly and is
   * not marked secure; the strategy signs for the configured audience.
   */
  predicate WellFormed(cfg: Config, b: Backend) {
    && b.transport.cookieName == b.name
    && b.transport.cookieMaxAge == b.strategy.lifetimeSeconds
    && b.transport.cookieHttpOnly
    && !b.transport.cookieSecure
    && b.strategy.secret == cfg.secretKey
    && b.strategy.tokenAudience == [cfg.jwtAudience]
    && b.strategy.algorithm == cfg.jwtAlgorithm
  }

  function Min(a: nat, b: nat): nat {
    if a <= b then a else b
  }

  /** The comprehension over `zip(names, coefs)`: one backend per pair, in order. */
  function ZipBackends(cfg: Config, names: seq<string>, coefs: seq<nat>): (bs: seq<Backend>)
    ensures |bs| == Min(|names|, |coefs|)
    ensures forall i :: 0 <= i < |bs| ==>
      && bs[i].name == names[i]
      && bs[i].strategy.lifetimeSeconds == Lifetime(cfg, coefs[i])
      && WellFormed(cfg, bs[i])
  {
    if names == [] || coefs == [] then []
    else
      [Backend(names[0], CreateCookieTransport(cfg, names[0], coefs[0]), CreateStrategy(cfg, coefs[0]))]
      + ZipBackends(cfg, names[1..], coefs[1..])
  }

  const AccessTokenName: string := "access-token"
  const RefreshTokenName: string := "refresh-token"

  /** `create_backend`: the access-token backend (coefficient 1), then the refresh-token backend (coefficient 10). */
  function CreateBackend(cfg: Config): (bs: seq<Backend>)
    ensures |bs| == 2
    ensures bs[0].name == AccessTokenName && bs[1].name == RefreshTokenName
    ensures bs[0].name != bs[1].name
    ensures WellFormed(cfg, bs[0]) && WellFormed(cfg, bs[1])
    ensures bs[0].strategy.lifetimeSeconds == cfg.accessTokenExpireSeconds
    ensures bs[1].strategy.lifetimeSeconds == 10 * bs[0].strategy.lifetimeSeconds
  {
    ZipBackends(cfg, [AccessTokenName, RefreshTokenName], [1, 10])
  }

  /** The key of `get_backend`: an `int` position or a `str` name. */
  datatype Key = Index(i: int) | Name(name: string)

  const DefaultKey: Key := Index(0)

  datatype LookupError = IndexError | KeyError(missing: string)

  /** The early-exit loop over the backends: the position of the first backend named `name`. */
  function FindByName(bs: seq<Backend>, name: string): (r: Option<nat>)
    ensures r.Some? ==> r.value < |bs| && bs[r.value].name == name
    ensures r.Some? ==> forall j :: 0 <= j < r.value ==> bs[j].name != name
    ensures r.None? <==> forall j :: 0 <= j < |bs| ==> bs[j].name != name
  {
    if bs == [] then None
    else if bs[0].name == name then Some(0)
    else
      var rest := FindByName(bs[1..], name);
      assert forall j :: 1 <= j < |bs| ==> bs[j] == bs[1..][j - 1];
      if rest.None? then None else Some(rest.value + 1)
  }

  /**
   * `get_backend`: a position indexes with Python's rules (negative positions
   * count from the end, anything else out of range is an IndexError); a name
   * yields the first backend so named, or a KeyError.
   */
  function GetBackend(bs: seq<Backend>, key: Key): (r: Result<Backend, LookupError>)
    ensures key.Index? ==> (r.Ok? <==> -|bs| <= key.i < |bs|)
    ensures key.Index? && r.Err? ==> r.error == IndexError
    ensures key.Index? && 0 <= key.i < |bs| ==> r == Ok(bs[key.i])
    ensures key.Name? ==> (r.Ok? <==> exists j :: 0 <= j < |bs| && bs[j].name == key.name)
    ensures key.Name? && r.Ok? ==>
      exists j :: 0 <= j < |bs| && bs[j] == r.value && r.value.name == key.name
                  && forall k :: 0 <= k < j ==> bs[k].name != key.name
    ensures key.Name? && r.Err? ==> r.error == KeyError(key.name)
  {
    match key
    case Index(i) =>
      if 0 <= i < |bs| then Ok(bs[i])
      else if -|bs| <= i < 0 then Ok(bs[|bs| + i])
      else Err(IndexError)
    case Name(name) =>
      match FindByName(bs, name)
      case Some(k) => Ok(bs[k])
      case None => Err(KeyError(name))
  }

  /** A negative position names the same backend as the position it wraps to. */
  lemma NegativeIndexWraps(bs: seq<Backend>, i: int)
    requires 0 <= i < |bs|
    ensures GetBackend(bs, Index(i - |bs|)) == GetBackend(bs, Index(i)) == Ok(bs[i])
  {
  }

  /** On the registry built by `create_backend`, every key finds the backend its position or name promises. */
  lemma RegistryLookups(cfg: Config, name: string)
    ensures GetBackend(CreateBackend(cfg), DefaultKey) == Ok(CreateBackend(cfg)[0])
    ensures GetBackend(CreateBackend(cfg), DefaultKey).value.name == AccessTokenName
    ensures GetBackend(CreateBackend(cfg), Index(-1)) == Ok(CreateBackend(cfg)[1])
    ensures GetBackend(CreateBackend(cfg), Name(AccessTokenName)) == Ok(CreateBackend(cfg)[0])
    ensures GetBackend(CreateBackend(cfg), Name(RefreshTokenName)) == Ok(CreateBackend(cfg)[1])
    ensures name != AccessTokenName && name != RefreshTokenName ==>
      GetBackend(CreateBackend(cfg), Name(name)) == Err(KeyError(name))
    ensures GetBackend(CreateBackend(cfg), Index(2)) == Err(IndexError)
  {
    var bs := CreateBackend(cfg);
    assert bs[0].name != RefreshTokenName;
  }

  /** A login issues two cookies under distinct names, the refresh cookie living ten times as long. */
  lemma RefreshCookieOutlivesAccessCookie(cfg: Config)
    requires cfg.accessTokenExpireSeconds > 0
    ensures CreateBackend(cfg)[0].transport.cookieName != CreateBackend(cfg)[1].transport.cookieName
    ensures CreateBackend(cfg)[1].transport.cookieMaxAge == 10 * CreateBackend(cfg)[0].transport.cookieMaxAge
    ensures CreateBackend(cfg)[0].transport.cookieMaxAge < CreateBackend(cfg)[1].transport.cookieMaxAge
  {
  }
}
