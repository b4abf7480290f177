/**
 * The cluster configuration (config.DatabaseCluster) as this layer reads it, and
 * the connection settings it derives per endpoint: the effective credentials and
 * the data source name handed to sql.Open.
 */
module Config {
  import opened Format

  /** One server: the writer or one reader. Empty credentials mean "not set". */
  datatype Endpoint = Endpoint(host: string, port: int, username: string, password: string)

  datatype DatabaseCluster = DatabaseCluster(
    driver: string,
    database: string,
    charset: string,
    username: string,
    password: string,
    write: Endpoint,
    read: seq<Endpoint>)

  datatype Credentials = Credentials(username: string, password: string)

  /**
   * An endpoint's own credentials are used only when both are set; otherwise both
   * come from the cluster defaults, so the two are never mixed.
   */
  function EffectiveCredentials(cfg: DatabaseCluster, ep: Endpoint): (c: Credentials)
    ensures ep.username == "" || ep.password == "" ==> c == Credentials(cfg.username, cfg.password)
    ensures ep.username != "" && ep.password != "" ==> c == Credentials(ep.username, ep.password)
    ensures c == Credentials(cfg.username, cfg.password) || c == Credentials(ep.username, ep.password)
    ensures c.username == "" || c.password == "" ==> c == Credentials(cfg.username, cfg.password)
  {
    if ep.username == "" || ep.password == "" then Credentials(cfg.username, cfg.password)
    else Credentials(ep.username, ep.password)
  }

  /** `user:pass@tcp(host:port)/database?charset=cs&parseTime=true` */
  function DataSourceName(c: Credentials, host: string, port: int, database: string, charset: string): string {
    Address(c, host) + FormatInt(port) + Options(database, charset)
  }

  /** The part of a data source name before the port: `user:pass@tcp(host:`. */
  function Address(c: Credentials, host: string): string {
    c.username + ":" + c.password + "@tcp(" + host + ":"
  }

  /** The part of a data source name after the port: `)/database?charset=cs&parseTime=true`. */
  function Options(database: string, charset: string): string {
    ")/" + database + "?charset=" + charset + "&parseTime=true"
  }

  /** The data source name of one endpoint of the cluster. */
  function EndpointDsn(cfg: DatabaseCluster, ep: Endpoint): string {
    DataSourceName(EffectiveCredentials(cfg, ep), ep.host, ep.port, cfg.database, cfg.charset)
  }

  /** Every data source name starts with the user name and enables time parsing. */
  lemma DataSourceNameLayout(c: Credentials, host: string, port: int, database: string, charset: string)
    ensures var dsn := DataSourceName(c, host, port, database, charset);
      && |dsn| > 15 && dsn[|dsn| - 15..] == "&parseTime=true"
      && |c.username| < |dsn| && dsn[..|c.username| + 1] == c.username + ":"
  {
  }

  /**
   * The port's decimal text sits between `host:` and `)/database?...`, so two
   * endpoints that agree on everything else but their port get different names.
   */
  lemma DataSourceNameDeterminesPort(c: Credentials, host: string, p1: int, p2: int, database: string, charset: string)
    requires DataSourceName(c, host, p1, database, charset) == DataSourceName(c, host, p2, database, charset)
    ensures p1 == p2
  {
    var head, tail := Address(c, host), Options(database, charset);
    var d1, d2 := FormatInt(p1), FormatInt(p2);
    var dsn := head + d1 + tail;
    assert dsn == head + d2 + tail;
    assert d1 == dsn[|head|..|head| + |d1|];
    assert d2 == dsn[|head|..|head| + |d2|];
    FormatIntInjective(p1, p2);
  }

  /** Spelled out: the defaults replace an endpoint whose password is missing. */
  lemma CredentialExamples(cfg: DatabaseCluster, ep: Endpoint)
    requires cfg.username == "root" && cfg.password == "x"
    requires ep.username == "ro" && ep.password == "y"
    ensures EffectiveCredentials(cfg, ep).username == "ro"
    ensures EffectiveCredentials(cfg, ep.(password := "")).username == "root"
    ensures EffectiveCredentials(cfg, ep.(username := "", password := "")) == Credentials("root", "x")
  {
  }
}
