/** Process configuration read from the environment (internal/config/config.go). */
module Config {
  import opened Common

  /** The process environment: a variable missing from the map is unset. */
  type Env = map<string, string>

  datatype Config = Config(
    minioHost: string,
    minioPort: int,
    minioUseSsl: bool,
    jwtSecret: string,
    sessionTimeout: int)   // minutes

  /** os.Getenv with a fallback: an empty value is treated like an unset one. */
  function GetEnv(env: Env, key: string, defaultValue: string): (r: string)
    ensures r == defaultValue || (key in env && r == env[key])
    ensures r == "" ==> defaultValue == ""
  {
    if key in env && env[key] != "" then env[key] else defaultValue
  }

  /** Setting a variable to the empty string is the same as leaving it unset. */
  lemma {:induction false} EmptyCountsAsUnset(env: Env, key: string, defaultValue: string)
    ensures GetEnv(env[key := ""], key, defaultValue) == GetEnv(env - {key}, key, defaultValue)
    ensures GetEnv(env - {key}, key, defaultValue) == defaultValue
  {
  }

  /** A non-empty value always wins over the default. */
  lemma {:induction false} SetValueWins(env: Env, key: string, value: string, defaultValue: string)
    requires value != ""
    ensures GetEnv(env[key := value], key, defaultValue) == value
  {
  }

  function Load(env: Env): (c: Config)
    ensures c.sessionTimeout == 60
    ensures c.minioUseSsl <==> "MINIO_USE_SSL" in env && env["MINIO_USE_SSL"] == "true"
    ensures MinInt64 <= c.minioPort <= MaxInt64
  {
    var port := Atoi(GetEnv(env, "MINIO_PORT", "9000"));
    Config(
      GetEnv(env, "MINIO_HOST", "localhost"),
      port,
      GetEnv(env, "MINIO_USE_SSL", "false") == "true",
      GetEnv(env, "JWT_SECRET", "your-secret-key"),
      60)
  }

  /** With nothing set, the configuration is the built-in default one. */
  lemma {:induction false} LoadDefaults()
    ensures Load(map[]) == Config("localhost", 9000, false, "your-secret-key", 60)
  {
    assert Atoi("9000") == 9000 by {
      assert "9000" == NatToDecimal(9000);
      AtoiRoundTrip(9000);
    }
  }

  /** A MINIO_PORT that is not a signed decimal gives port 0, because the
      conversion error is dropped, unless its leading digits already pass
      2^64 - 1: then the range error comes first and the port is the clamped
      int64 for the sign. */
  lemma {:induction false} NonNumericPort(env: Env, value: string)
    requires value != "" && !IsSignedDecimal(value)
    ensures !DigitsOverflow(value) ==> Load(env["MINIO_PORT" := value]).minioPort == 0
    ensures DigitsOverflow(value) ==>
      Load(env["MINIO_PORT" := value]).minioPort == (if value[0] == '-' then MinInt64 else MaxInt64)
  {
  }

  /** A MINIO_PORT holding the decimal text of a 64-bit integer is read back exactly. */
  lemma {:induction false} DecimalPortIsRead(env: Env, port: int)
    requires MinInt64 <= port <= MaxInt64
    ensures Load(env["MINIO_PORT" := IntToDecimal(port)]).minioPort == port
  {
    assert IntToDecimal(port) != "";
    AtoiRoundTrip(port);
  }

  /** "host:port" with the port in decimal. */
  function GetMinIOEndpoint(c: Config): (r: string)
    ensures HasPrefix(r, c.minioHost + ":")
    ensures MinInt64 <= c.minioPort <= MaxInt64 ==> Atoi(r[|c.minioHost| + 1..]) == c.minioPort
  {
    var r := c.minioHost + ":" + IntToDecimal(c.minioPort);
    assert r[..|c.minioHost| + 1] == c.minioHost + ":";
    assert r[|c.minioHost| + 1..] == IntToDecimal(c.minioPort);
    assert MinInt64 <= c.minioPort <= MaxInt64 ==> Atoi(IntToDecimal(c.minioPort)) == c.minioPort by {
      if MinInt64 <= c.minioPort <= MaxInt64 {
        AtoiRoundTrip(c.minioPort);
      }
    }
    r
  }
}
