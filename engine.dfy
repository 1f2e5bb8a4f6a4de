/**
 * The database-engine configuration helpers: the test-mode switch, the
 * test database URL, the engine keyword arguments, and the asynchronous to
 * synchronous driver-name conversion. Creating engines is not modelled.
 */
module Engine {
  import opened Wrappers

  /** The process environment, as `getenv` sees it. */
  type Env = map<string, string>

  const TestingVar: string := "TESTING"

  /** `is_test`: `TESTING` is set to a non-empty string, whatever it says. */
  function IsTest(env: Env): (r: bool)
    ensures r ==> TestingVar in env && |env[TestingVar]| > 0
    ensures !r ==> TestingVar !in env || env[TestingVar] == ""
  {
    TestingVar in env && env[TestingVar] != ""
  }

  /** Even "0" and "false" switch test mode on; only an unset or empty variable leaves it off. */
  lemma IsTestExamples()
    ensures IsTest(map[TestingVar := "0"]) && IsTest(map[TestingVar := "false"]) && IsTest(map[TestingVar := "1"])
    ensures !IsTest(map[]) && !IsTest(map[TestingVar := ""])
  {
  }

  /** The parts of a database URL. */
  datatype Url = Url(
    drivername: string,
    username: Option<string>,
    password: Option<string>,
    host: Option<string>,
    port: Option<int>,
    database: Option<string>)

  datatype UrlError = DatabaseNameIsNone

  const TestSuffix: string := "_test"

  /** `get_test_url`: the same URL with `_test` appended to the database name, or an error when there is none. */
  function GetTestUrl(url: Url): (r: Result<Url, UrlError>)
    ensures r.Err? <==> url.database.None?
    ensures r.Ok? ==> r.value.(database := url.database) == url
    ensures r.Ok? ==>
      && r.value.database.Some?
      && |r.value.database.value| == |url.database.value| + |TestSuffix|
      && r.value.database.value[..|url.database.value|] == url.database.value
      && r.value.database.value[|url.database.value|..] == TestSuffix
  {
    match url.database
    case None => Err(DatabaseNameIsNone)
    case Some(name) => Ok(url.(database := Some(name + TestSuffix)))
  }

  /** A URL already pointing at a test database is not the URL it came from. */
  lemma TestUrlDiffers(url: Url)
    requires url.database.Some?
    ensures GetTestUrl(url).value != url
  {
    assert |GetTestUrl(url).value.database.value| > |url.database.value|;
  }

  datatype PoolClass = NullPool | QueuePool | AsyncAdaptedQueuePool

  /** The values the engine keyword arguments take. */
  datatype Value = Flag(b: bool) | Number(n: int) | Pool(pool: PoolClass) | Text(s: string)

  const PoolPrePing: string := "pool_pre_ping"
  const Future: string := "future"
  const PoolSize: string := "pool_size"
  const PoolClassKey: string := "poolclass"

  /**
   * `get_engine_kwargs`: the defaults for the mode, filled in one key at a
   * time, then overridden by the caller's keyword arguments.
   */
  method GetEngineKwargs(isSync: bool, isTest: bool, kwargs: map<string, Value>) returns (params: map<string, Value>)
    ensures params.Keys == {PoolPrePing, Future, PoolClassKey} + (if isTest then {} else {PoolSize}) + kwargs.Keys
    ensures forall k :: k in kwargs ==> params[k] == kwargs[k]
    ensures PoolPrePing !in kwargs ==> params[PoolPrePing] == Flag(true)
    ensures Future !in kwargs ==> params[Future] == Flag(true)
    ensures PoolClassKey !in kwargs ==>
      params[PoolClassKey] == Pool(if isTest then NullPool else if isSync then QueuePool else AsyncAdaptedQueuePool)
    ensures !isTest && PoolSize !in kwargs ==> params[PoolSize] == Number(10)
    ensures isTest && PoolSize !in kwargs ==> PoolSize !in params
  {
    params := map[PoolPrePing := Flag(true), Future := Flag(true)];
    if isTest {
      params := params[PoolClassKey := Pool(NullPool)];
    } else {
      params := params[PoolSize := Number(10)];
      if isSync {
        params := params[PoolClassKey := Pool(QueuePool)];
      } else {
        params := params[PoolClassKey := Pool(AsyncAdaptedQueuePool)];
      }
    }
    params := params + kwargs;
  }

  /** `drivername.split("+")[0]`: the driver name up to its first `+`. */
  function SyncDriverName(driver: string): (r: string)
    ensures r <= driver
    ensures '+' !in r
    ensures |r| < |driver| ==> driver[|r|] == '+'
  {
    if driver == [] || driver[0] == '+' then []
    else [driver[0]] + SyncDriverName(driver[1..])
  }

  /** The three properties of `SyncDriverName` pin its result down: only one prefix has them. */
  lemma SyncDriverNameUnique(driver: string, s: string)
    requires s <= driver && '+' !in s && (|s| < |driver| ==> driver[|s|] == '+')
    ensures s == SyncDriverName(driver)
  {
  }

  /** The driver names this project uses. */
  lemma SyncDriverNameExamples()
    ensures SyncDriverName("postgresql+asyncpg") == "postgresql"
    ensures SyncDriverName("postgresql") == "postgresql"
  {
    SyncDriverNameUnique("postgresql+asyncpg", "postgresql");
    SyncDriverNameUnique("postgresql", "postgresql");
  }

  /** A name without `+` is kept whole. */
  lemma NoPlusUnchanged(driver: string)
    requires '+' !in driver
    ensures SyncDriverName(driver) == driver
  {
  }

  /** The URL part of `convert_async_to_sync`: only the driver name changes. */
  function SyncUrl(url: Url): (r: Url)
    ensures r.(drivername := url.drivername) == url
    ensures '+' !in r.drivername && r.drivername <= url.drivername
    ensures |r.drivername| < |url.drivername| ==> url.drivername[|r.drivername|] == '+'
  {
    url.(drivername := SyncDriverName(url.drivername))
  }
}
