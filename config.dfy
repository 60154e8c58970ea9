/**
  The backend's settings and the two connection strings built from them.
 */
module Config {
  import opened Wrappers
  import opened Numerals

  datatype Settings = Settings(
    projectName: string,
    apiV1Str: string,
    dbType: string,
    postgresServer: string,
    postgresUser: string,
    postgresPassword: string,
    postgresDb: string,
    sqliteUri: string,
    blumonpayTokenHost: string,
    blumonpayUsername: string,
    blumonpayPassword: string,
    blumonpayChargeHost: string,
    redisHost: string,
    redisPort: int)

  /** The values used when no environment variable overrides them. */
  const Defaults := Settings(
    "Payments App API", "/api/v1", "sqlite",
    "localhost", "postgres", "postgres", "payments_app",
    "sqlite:///./payments_app.db",
    "", "", "", "",
    "localhost", 6379)

  function LowerChar(c: char): char {
    if 'A' <= c <= 'Z' then (c as int - 'A' as int + 'a' as int) as char else c
  }

  /** `str.lower()`, on the ASCII letters. */
  function Lower(s: string): (r: string)
    ensures |r| == |s|
    ensures forall i :: 0 <= i < |s| ==> r[i] == LowerChar(s[i])
  {
    if s == [] then [] else [LowerChar(s[0])] + Lower(s[1..])
  }

  predicate IsPostgres(dbType: string) {
    Lower(dbType) == "postgres"
  }

  /** `get_db_uri`: a PostgreSQL URL when the database type is "postgres" in
      any letter case, the SQLite URI otherwise. */
  function GetDbUri(s: Settings): (r: string)
    ensures IsPostgres(s.dbType) ==>
      r == "postgresql://" + s.postgresUser + ":" + s.postgresPassword + "@" + s.postgresServer + "/" + s.postgresDb
    ensures !IsPostgres(s.dbType) ==> r == s.sqliteUri
  {
    if IsPostgres(s.dbType) then
      "postgresql://" + s.postgresUser + ":" + s.postgresPassword + "@" + s.postgresServer + "/" + s.postgresDb
    else
      s.sqliteUri
  }

  /** `get_redis_url`: `redis://HOST:PORT/0`; the port text between the
      host's colon and "/0" reads back as the configured port and is written
      as `str` writes it, with no leading zero and no "-0". */
  function GetRedisUrl(s: Settings): (r: string)
    ensures var prefix := "redis://" + s.redisHost + ":";
      && |prefix| + 2 < |r|
      && r[..|prefix|] == prefix
      && r[|r| - 2..] == "/0"
      && ParseInt(r[|prefix|..|r| - 2]) == Some(s.redisPort)
      && CanonicalInt(r[|prefix|..|r| - 2])
  {
    var port := IntToString(s.redisPort);
    var r := "redis://" + s.redisHost + ":" + port + "/0";
    var prefix := "redis://" + s.redisHost + ":";
    assert r == prefix + port + "/0";
    assert r[|prefix|..|r| - 2] == port;
    ParseIntToString(s.redisPort);
    IntToStringCanonical(s.redisPort);
    r
  }

  /** The database type names PostgreSQL exactly when each of its eight
      letters is that letter of "postgres" in either case. */
  lemma {:induction false} PostgresInAnyCase(dbType: string)
    ensures IsPostgres(dbType) <==>
      |dbType| == 8 && forall i :: 0 <= i < 8 ==> dbType[i] == "postgres"[i] || dbType[i] == "POSTGRES"[i]
  {
    var lower, upper := "postgres", "POSTGRES";
    if IsPostgres(dbType) {
      forall i | 0 <= i < 8
        ensures dbType[i] == lower[i] || dbType[i] == upper[i]
      {
        assert LowerChar(dbType[i]) == lower[i];
      }
    }
    if |dbType| == 8 && forall i :: 0 <= i < 8 ==> dbType[i] == lower[i] || dbType[i] == upper[i] {
      forall i | 0 <= i < 8
        ensures Lower(dbType)[i] == lower[i]
      {
        assert dbType[i] == lower[i] || dbType[i] == upper[i];
      }
      assert Lower(dbType) == lower;
    }
  }

  /** With every default, the backend uses the SQLite file. */
  lemma DefaultDbUri()
    ensures GetDbUri(Defaults) == "sqlite:///./payments_app.db"
  {
    assert |Lower(Defaults.dbType)| == 6;
  }
}
