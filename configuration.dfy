// The application's configuration record (name, version, description and
// the server, database and cache sections with their default values) and the
// service that reports it as maps and validates it section by section.

module Configuration {
  import opened Wrappers
  import opened Text

  /** AppProperties.Server. */
  datatype Server = Server(port: int, host: Option<string>, timeout: int, sslEnabled: bool)

  /** AppProperties.Database. */
  datatype Database = Database(url: Option<string>, username: Option<string>, password: Option<string>,
                               maxConnections: int, showSql: bool)

  /** AppProperties.Cache; `kind` is the cache type. */
  datatype Cache = Cache(kind: Option<string>, expireMinutes: int, maxEntries: int, enabled: bool)

  /** AppProperties: the "app" configuration prefix. */
  datatype AppProperties = AppProperties(name: Option<string>, version: Option<string>,
                                         description: Option<string>,
                                         server: Server, database: Database, cache: Cache)

  /** The field initialisers of AppProperties and its three sections. */
  function Defaults(): AppProperties {
    AppProperties(
      Some("Demo Application"), Some("1.0.0"), Some("Spring Boot APT Configuration Demo"),
      Server(8080, Some("localhost"), 30, false),
      Database(Some("jdbc:h2:mem:testdb"), Some("sa"), Some(""), 10, false),
      Cache(Some("memory"), 60, 1000, true))
  }

  // ----------------------------------------------------------------- reporting

  /** An Object value in a reported map. */
  datatype Value = Text(text: Option<string>) | Number(number: int) | Flag(flag: bool)

  /** The password as getDatabaseConfig reports it. */
  const Masked: string := "***"

  /** getAppInfo: name, version and description. */
  function AppInfo(p: AppProperties): (r: map<string, Value>)
    ensures r.Keys == {"name", "version", "description"}
    ensures r["name"] == Text(p.name) && r["version"] == Text(p.version)
    ensures r["description"] == Text(p.description)
  {
    map["name" := Text(p.name), "version" := Text(p.version), "description" := Text(p.description)]
  }

  /** getServerConfig: the whole server section. */
  function ServerConfig(p: AppProperties): (r: map<string, Value>)
    ensures r.Keys == {"host", "port", "timeout", "sslEnabled"}
    ensures r["host"] == Text(p.server.host) && r["port"] == Number(p.server.port)
    ensures r["timeout"] == Number(p.server.timeout) && r["sslEnabled"] == Flag(p.server.sslEnabled)
  {
    map["host" := Text(p.server.host), "port" := Number(p.server.port),
        "timeout" := Number(p.server.timeout), "sslEnabled" := Flag(p.server.sslEnabled)]
  }

  /** getDatabaseConfig: the section with the password replaced by "***". */
  function DatabaseConfig(p: AppProperties): (r: map<string, Value>)
    ensures r.Keys == {"url", "username", "password", "maxConnections", "showSql"}
    ensures r["password"] == Text(Some(Masked))
    ensures r["url"] == Text(p.database.url) && r["username"] == Text(p.database.username)
    ensures r["maxConnections"] == Number(p.database.maxConnections) && r["showSql"] == Flag(p.database.showSql)
  {
    map["url" := Text(p.database.url), "username" := Text(p.database.username),
        "password" := Text(Some(Masked)),
        "maxConnections" := Number(p.database.maxConnections), "showSql" := Flag(p.database.showSql)]
  }

  /** getCacheConfig: the whole cache section. */
  function CacheConfig(p: AppProperties): (r: map<string, Value>)
    ensures r.Keys == {"type", "expireMinutes", "maxEntries", "enabled"}
    ensures r["type"] == Text(p.cache.kind) && r["expireMinutes"] == Number(p.cache.expireMinutes)
    ensures r["maxEntries"] == Number(p.cache.maxEntries) && r["enabled"] == Flag(p.cache.enabled)
  {
    map["type" := Text(p.cache.kind), "expireMinutes" := Number(p.cache.expireMinutes),
        "maxEntries" := Number(p.cache.maxEntries), "enabled" := Flag(p.cache.enabled)]
  }

  /** getAllConfigurations: the four reports under their section names. */
  function AllConfigurations(p: AppProperties): (r: map<string, map<string, Value>>)
    ensures r.Keys == {"app", "server", "database", "cache"}
    ensures r["app"] == AppInfo(p) && r["server"] == ServerConfig(p)
    ensures r["database"] == DatabaseConfig(p) && r["cache"] == CacheConfig(p)
  {
    map["app" := AppInfo(p), "server" := ServerConfig(p),
        "database" := DatabaseConfig(p), "cache" := CacheConfig(p)]
  }

  /** Whatever the stored password, no report depends on it. */
  lemma PasswordNeverReported(p: AppProperties, password: Option<string>)
    ensures var q := p.(database := p.database.(password := password));
      DatabaseConfig(q) == DatabaseConfig(p) && AllConfigurations(q) == AllConfigurations(p)
    ensures AllConfigurations(p)["database"]["password"] == Text(Some(Masked))
  {
  }

  /** The properties with the password forgotten: what the reports can show. */
  function Reportable(p: AppProperties): AppProperties {
    p.(database := p.database.(password := None))
  }

  /**
   * The reports hide the password and nothing else: two configurations
   * give the same reports exactly when they agree on every other field.
   */
  lemma ReportsHideOnlyThePassword(p: AppProperties, q: AppProperties)
    ensures AllConfigurations(p) == AllConfigurations(q) <==> Reportable(p) == Reportable(q)
  {
    if AllConfigurations(p) == AllConfigurations(q) {
      var a, b := AllConfigurations(p), AllConfigurations(q);
      assert a["app"]["name"] == b["app"]["name"];
      assert a["app"]["version"] == b["app"]["version"];
      assert a["app"]["description"] == b["app"]["description"];
      assert a["server"]["host"] == b["server"]["host"] && a["server"]["port"] == b["server"]["port"];
      assert a["server"]["timeout"] == b["server"]["timeout"];
      assert a["server"]["sslEnabled"] == b["server"]["sslEnabled"];
      assert a["database"]["url"] == b["database"]["url"];
      assert a["database"]["username"] == b["database"]["username"];
      assert a["database"]["maxConnections"] == b["database"]["maxConnections"];
      assert a["database"]["showSql"] == b["database"]["showSql"];
      assert a["cache"]["type"] == b["cache"]["type"];
      assert a["cache"]["expireMinutes"] == b["cache"]["expireMinutes"];
      assert a["cache"]["maxEntries"] == b["cache"]["maxEntries"];
      assert a["cache"]["enabled"] == b["cache"]["enabled"];
    }
  }

  // ---------------------------------------------------------------- validation

  /** Non-null and not empty once trimmed. */
  predicate NonBlank(s: Option<string>) {
    s.Some? && !IsBlank(s.value)
  }

  predicate AppValid(p: AppProperties) {
    NonBlank(p.name)
  }

  predicate ServerValid(p: AppProperties) {
    0 < p.server.port <= 65535 && NonBlank(p.server.host)
  }

  predicate DatabaseValid(p: AppProperties) {
    NonBlank(p.database.url) && p.database.maxConnections > 0
  }

  predicate CacheValid(p: AppProperties) {
    NonBlank(p.cache.kind) && p.cache.expireMinutes > 0 && p.cache.maxEntries > 0
  }

  /** validateConfiguration: one flag per section and their conjunction. */
  function ValidateConfiguration(p: AppProperties): (r: map<string, bool>)
    ensures r.Keys == {"appConfigValid", "serverConfigValid", "databaseConfigValid",
                       "cacheConfigValid", "overallValid"}
  {
    var appValid := AppValid(p);
    var serverValid := ServerValid(p);
    var databaseValid := DatabaseValid(p);
    var cacheValid := CacheValid(p);
    map["appConfigValid" := appValid, "serverConfigValid" := serverValid,
        "databaseConfigValid" := databaseValid, "cacheConfigValid" := cacheValid,
        "overallValid" := appValid && serverValid && databaseValid && cacheValid]
  }

  /** The overall flag is exactly the conjunction of the four section flags. */
  lemma OverallIsConjunction(p: AppProperties)
    ensures var v := ValidateConfiguration(p);
      v["overallValid"] <==>
        v["appConfigValid"] && v["serverConfigValid"] && v["databaseConfigValid"] && v["cacheConfigValid"]
  {
  }

  /**
   * Each section's flag in terms of the raw fields: a positive bound on every
   * count, a port in 1..65535, and a visible character in every required string.
   */
  lemma SectionFlagsMean(p: AppProperties)
    ensures var v := ValidateConfiguration(p);
      && (v["appConfigValid"] <==> p.name.Some? && !AllTrimmed(p.name.value))
      && (v["serverConfigValid"] <==>
            1 <= p.server.port <= 65535 && p.server.host.Some? && !AllTrimmed(p.server.host.value))
      && (v["databaseConfigValid"] <==>
            p.database.url.Some? && !AllTrimmed(p.database.url.value) && p.database.maxConnections >= 1)
      && (v["cacheConfigValid"] <==>
            p.cache.kind.Some? && !AllTrimmed(p.cache.kind.value)
            && p.cache.expireMinutes >= 1 && p.cache.maxEntries >= 1)
  {
    if p.name.Some? { BlankIffAllTrimmed(p.name.value); }
    if p.server.host.Some? { BlankIffAllTrimmed(p.server.host.value); }
    if p.database.url.Some? { BlankIffAllTrimmed(p.database.url.value); }
    if p.cache.kind.Some? { BlankIffAllTrimmed(p.cache.kind.value); }
  }

  /**
   * Only the validated fields matter: version, description, timeout, ssl,
   * username, password, showSql and the cache's enabled flag never change a flag.
   */
  lemma OnlyCheckedFieldsMatter(p: AppProperties, q: AppProperties)
    requires p.name == q.name
    requires p.server.port == q.server.port && p.server.host == q.server.host
    requires p.database.url == q.database.url && p.database.maxConnections == q.database.maxConnections
    requires p.cache.kind == q.cache.kind
    requires p.cache.expireMinutes == q.cache.expireMinutes && p.cache.maxEntries == q.cache.maxEntries
    ensures ValidateConfiguration(p) == ValidateConfiguration(q)
  {
  }

  /** A string with a visible character is not blank. */
  lemma VisibleIsNonBlank(s: string, i: int)
    requires 0 <= i < |s| && s[i] > ' '
    ensures NonBlank(Some(s))
  {
    BlankIffAllTrimmed(s);
  }

  /** The shipped defaults pass every check. */
  lemma DefaultsAreValid()
    ensures forall key :: key in ValidateConfiguration(Defaults()) ==> ValidateConfiguration(Defaults())[key]
  {
    var d := Defaults();
    VisibleIsNonBlank(d.name.value, 0);
    VisibleIsNonBlank(d.server.host.value, 0);
    VisibleIsNonBlank(d.database.url.value, 0);
    VisibleIsNonBlank(d.cache.kind.value, 0);
  }
}
