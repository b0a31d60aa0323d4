/** The service configuration and the Postgres connection string built from it. */
module Config {
  import opened Text

  datatype ServiceConfig = ServiceConfig(
    port: string, debug: bool, exportUrl: string, logLevel: string, trustedProxies: seq<string>)

  datatype PostgresConfig = PostgresConfig(
    host: string, port: int, user: string, password: string, dbName: string,
    sslMode: bool, timeZone: string)

  datatype RedisConfig = RedisConfig(addr: string, password: string, db: int)

  datatype AdminConfig = AdminConfig(username: string, password: string)

  datatype SecurityConfig = SecurityConfig(
    tokenSecret: string, tsWindowSeconds: int, nonceTtlSeconds: int, dedupSeconds: int,
    rsaPrivateKeyPath: string, rsaPublicKeyPath: string, kid: string)

  datatype RateLimitConfig = RateLimitConfig(
    perIpPerMinute: int, perIpUaPerMinute: int, perTrackerIpPerMinute: int)

  datatype BotConfig = BotConfig(markThreshold: int, blockThreshold: int, blockMode: string)

  datatype AppConfig = AppConfig(
    service: ServiceConfig, postgres: PostgresConfig, redis: RedisConfig, admin: AdminConfig,
    security: SecurityConfig, rateLimit: RateLimitConfig, bot: BotConfig)

  const TimeZoneLabel: string := " TimeZone="
  const SslDisabled: string := " sslmode=disable"

  /** The mandatory part: host, user, password, database name and port, in that order. */
  function BaseDsn(p: PostgresConfig): string {
    "host=" + p.host + " user=" + p.user + " password=" + p.password
      + " dbname=" + p.dbName + " port=" + IntToString(p.port)
  }

  /** The connection string handed to the Postgres driver. */
  function Dsn(p: PostgresConfig): (r: string)
    ensures IsPrefix(BaseDsn(p), r)
    ensures |r| == |BaseDsn(p)|
      + (if p.timeZone != "" then |TimeZoneLabel| + |p.timeZone| else 0)
      + (if p.sslMode then 0 else |SslDisabled|)
    ensures p.timeZone != "" ==>
      r[|BaseDsn(p)|..|BaseDsn(p)| + |TimeZoneLabel| + |p.timeZone|] == TimeZoneLabel + p.timeZone
    ensures !p.sslMode ==> r[|r| - |SslDisabled|..] == SslDisabled
  {
    var dsn := BaseDsn(p);
    var dsn := if p.timeZone != "" then dsn + TimeZoneLabel + p.timeZone else dsn;
    if !p.sslMode then dsn + SslDisabled else dsn
  }

  /** With no time zone and SSL on, nothing follows the mandatory part. */
  lemma DsnMinimal(p: PostgresConfig)
    requires p.timeZone == "" && p.sslMode
    ensures Dsn(p) == BaseDsn(p)
  {
  }

  /** Turning SSL off appends exactly the sslmode segment, after everything else. */
  lemma DsnSslModeToggle(p: PostgresConfig)
    ensures Dsn(p.(sslMode := false)) == Dsn(p.(sslMode := true)) + SslDisabled
  {
    assert BaseDsn(p.(sslMode := false)) == BaseDsn(p.(sslMode := true));
  }

  /** Setting a time zone inserts its segment right after the mandatory part. */
  lemma DsnTimeZoneInsert(p: PostgresConfig, tz: string)
    requires tz != ""
    ensures Dsn(p.(timeZone := tz)) == BaseDsn(p) + TimeZoneLabel + tz + Dsn(p.(timeZone := ""))[|BaseDsn(p)|..]
  {
    assert BaseDsn(p.(timeZone := tz)) == BaseDsn(p) == BaseDsn(p.(timeZone := ""));
  }
}
