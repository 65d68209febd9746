// The server settings form (src/components/ServerSettings.tsx): a configuration
// of seven sections of named fields, edited one field at a time, with an
// unsaved-changes flag, a two-phase save and a reset to the defaults.

module ServerSettings {
  import opened Wrappers

  datatype Section = General | Connection | Database | Security | Performance | Notifications | Api

  /** A field value as the form holds it. */
  datatype Value = Text(text: string) | Number(num: int) | Flag(flag: bool) | TextList(items: seq<string>)

  type Fields = map<string, Value>
  type Config = map<Section, Fields>

  /** Every section is present. */
  predicate Complete(c: Config) {
    forall s: Section :: s in c
  }

  // ---------------------------------------------------------------- defaults

  const DefaultGeneral: Fields := map[
    "serverName" := Text("Мой Проект"),
    "description" := Text("Описание проекта"),
    "adminEmail" := Text("admin@example.com"),
    "timezone" := Text("Europe/Moscow"),
    "language" := Text("ru"),
    "maintenanceMode" := Flag(false)]

  const DefaultConnection: Fields := map[
    "host" := Text("localhost"),
    "port" := Number(3000),
    "protocol" := Text("https"),
    "sslEnabled" := Flag(true),
    "apiEndpoint" := Text("/api/v1"),
    "connectionTimeout" := Number(30),
    "retryAttempts" := Number(3),
    "keepAlive" := Flag(true)]

  const DefaultDatabase: Fields := map[
    "host" := Text("localhost"),
    "port" := Number(5432),
    "name" := Text("project_db"),
    "maxConnections" := Number(100),
    "timeout" := Number(30),
    "autoBackup" := Flag(true),
    "backupInterval" := Number(24)]

  const DefaultSecurity: Fields := map[
    "enableSSL" := Flag(true),
    "requireTwoFactor" := Flag(false),
    "sessionTimeout" := Number(24),
    "maxLoginAttempts" := Number(5),
    "ipWhitelist" := Flag(false),
    "allowedIPs" := TextList([])]

  const DefaultPerformance: Fields := map[
    "maxCpuUsage" := Number(80),
    "maxMemoryUsage" := Number(85),
    "cacheEnabled" := Flag(true),
    "cacheSize" := Number(256),
    "compressionEnabled" := Flag(true),
    "rateLimitEnabled" := Flag(true),
    "maxRequestsPerMinute" := Number(1000)]

  const DefaultNotifications: Fields := map[
    "emailNotifications" := Flag(true),
    "systemAlerts" := Flag(true),
    "userRegistration" := Flag(true),
    "errorReports" := Flag(true),
    "backupReports" := Flag(true),
    "securityEvents" := Flag(true)]

  const DefaultApi: Fields := map[
    "enabled" := Flag(true),
    "version" := Text("v2.0"),
    "rateLimit" := Number(100),
    "requireAuth" := Flag(true),
    "allowCors" := Flag(false),
    "logRequests" := Flag(true)]

  /** `defaultConfig`. */
  const DefaultConfig: Config := map[
    General := DefaultGeneral,
    Connection := DefaultConnection,
    Database := DefaultDatabase,
    Security := DefaultSecurity,
    Performance := DefaultPerformance,
    Notifications := DefaultNotifications,
    Api := DefaultApi]

  /** The defaults are complete and fix the ports and the CPU ceiling. */
  lemma DefaultConfigValues()
    ensures Complete(DefaultConfig)
    ensures DefaultConfig[Connection]["port"] == Number(3000)
    ensures DefaultConfig[Database]["port"] == Number(5432)
    ensures DefaultConfig[Performance]["maxCpuUsage"] == Number(80)
    ensures DefaultConfig[Security]["allowedIPs"] == TextList([])
  {
    forall s: Section
      ensures s in DefaultConfig
    {
      DefaultHasSection(s);
    }
  }

  lemma DefaultHasSection(s: Section)
    ensures s in DefaultConfig
  {
  }

  // ---------------------------------------------------------------- field updates

  /** `updateConfig`'s new configuration: `{...prev, [section]: {...prev[section], [field]: value}}`. */
  function Updated(c: Config, section: Section, field: string, value: Value): (r: Config)
    requires section in c
    ensures r.Keys == c.Keys && r[section].Keys == c[section].Keys + {field}
    ensures r[section][field] == value
    ensures forall s :: s in c && s != section ==> r[s] == c[s]
    ensures forall f :: f in c[section] && f != field ==> r[section][f] == c[section][f]
  {
    c[section := c[section][field := value]]
  }

  /** Writing back a field's current value gives the same configuration. */
  lemma UpdateWithSameValue(c: Config, section: Section, field: string)
    requires section in c && field in c[section]
    ensures Updated(c, section, field, c[section][field]) == c
  {
    var r := Updated(c, section, field, c[section][field]);
    assert r[section] == c[section];
  }

  /** Two edits of different fields commute. */
  lemma UpdatesCommute(c: Config, s1: Section, f1: string, v1: Value, s2: Section, f2: string, v2: Value)
    requires s1 in c && s2 in c
    requires s1 != s2 || f1 != f2
    ensures Updated(Updated(c, s1, f1, v1), s2, f2, v2) == Updated(Updated(c, s2, f2, v2), s1, f1, v1)
  {
    if s1 == s2 {
      assert c[s1][f1 := v1][f2 := v2] == c[s1][f2 := v2][f1 := v1];
    } else {
      assert c[s1 := c[s1][f1 := v1]][s2 := c[s2][f2 := v2]] == c[s2 := c[s2][f2 := v2]][s1 := c[s1][f1 := v1]];
    }
  }

  // ---------------------------------------------------------------- sliders

  /** A slider: the values it can emit are `min, min + step, …` up to `max`. */
  datatype Slider = Slider(section: Section, field: string, min: int, max: int, step: nat)

  predicate OnGrid(v: int, sl: Slider) {
    sl.step > 0 && sl.min <= v <= sl.max && (v - sl.min) % sl.step == 0
  }

  const ConnectionTimeoutSlider := Slider(Connection, "connectionTimeout", 5, 120, 5)
  const RetryAttemptsSlider := Slider(Connection, "retryAttempts", 1, 10, 1)
  const MaxConnectionsSlider := Slider(Database, "maxConnections", 10, 500, 10)
  const DatabaseTimeoutSlider := Slider(Database, "timeout", 5, 120, 5)
  const BackupIntervalSlider := Slider(Database, "backupInterval", 1, 168, 1)
  const SessionTimeoutSlider := Slider(Security, "sessionTimeout", 1, 168, 1)
  const MaxLoginAttemptsSlider := Slider(Security, "maxLoginAttempts", 3, 20, 1)
  const MaxCpuSlider := Slider(Performance, "maxCpuUsage", 10, 100, 5)
  const MaxMemorySlider := Slider(Performance, "maxMemoryUsage", 10, 100, 5)
  const CacheSizeSlider := Slider(Performance, "cacheSize", 64, 2048, 64)
  const ApiRateLimitSlider := Slider(Api, "rateLimit", 10, 1000, 10)

  /** Every slider on the form, one per field. */
  const Sliders: seq<Slider> := [
    ConnectionTimeoutSlider, RetryAttemptsSlider,
    MaxConnectionsSlider, DatabaseTimeoutSlider, BackupIntervalSlider,
    SessionTimeoutSlider, MaxLoginAttemptsSlider,
    MaxCpuSlider, MaxMemorySlider, CacheSizeSlider,
    ApiRateLimitSlider]

  /** The configuration holds, in every slider's field, a number that slider can show. */
  predicate SliderFieldOk(c: Config, sl: Slider) {
    sl.section in c && sl.field in c[sl.section]
    && c[sl.section][sl.field].Number? && OnGrid(c[sl.section][sl.field].num, sl)
  }

  predicate SlidersInRange(c: Config) {
    forall sl :: sl in Sliders ==> SliderFieldOk(c, sl)
  }

  /** The value a slider emits for a field is one it can show. */
  predicate FromSlider(section: Section, field: string, value: Value) {
    forall sl :: sl in Sliders && sl.section == section && sl.field == field ==>
      value.Number? && OnGrid(value.num, sl)
  }

  /** The defaults sit on every slider's grid. */
  lemma DefaultInRange()
    ensures SlidersInRange(DefaultConfig)
  {
    DefaultConnectionInRange();
    DefaultDatabaseInRange();
    DefaultSecurityInRange();
    DefaultPerformanceInRange();
    DefaultApiInRange();
  }

  lemma DefaultConnectionInRange()
    ensures SliderFieldOk(DefaultConfig, ConnectionTimeoutSlider)
    ensures SliderFieldOk(DefaultConfig, RetryAttemptsSlider)
  {
  }

  lemma DefaultDatabaseInRange()
    ensures SliderFieldOk(DefaultConfig, MaxConnectionsSlider)
    ensures SliderFieldOk(DefaultConfig, DatabaseTimeoutSlider)
    ensures SliderFieldOk(DefaultConfig, BackupIntervalSlider)
  {
  }

  lemma DefaultSecurityInRange()
    ensures SliderFieldOk(DefaultConfig, SessionTimeoutSlider)
    ensures SliderFieldOk(DefaultConfig, MaxLoginAttemptsSlider)
  {
  }

  lemma DefaultPerformanceInRange()
    ensures SliderFieldOk(DefaultConfig, MaxCpuSlider)
    ensures SliderFieldOk(DefaultConfig, MaxMemorySlider)
    ensures SliderFieldOk(DefaultConfig, CacheSizeSlider)
  {
  }

  lemma DefaultApiInRange()
    ensures SliderFieldOk(DefaultConfig, ApiRateLimitSlider)
  {
  }

  /** An edit keeps every slider field in range, provided a slider field only
      receives values its slider can emit. */
  lemma UpdateKeepsSlidersInRange(c: Config, section: Section, field: string, value: Value)
    requires section in c && SlidersInRange(c)
    requires FromSlider(section, field, value)
    ensures SlidersInRange(Updated(c, section, field, value))
  {
    var r := Updated(c, section, field, value);
    forall sl | sl in Sliders
      ensures SliderFieldOk(r, sl)
    {
      assert SliderFieldOk(c, sl);
    }
  }

  // ---------------------------------------------------------------- the form

  class ServerSettings {
    var config: Config
    var hasChanges: bool
    var saving: bool

    ghost predicate Valid()
      reads this
    {
      Complete(config)
    }

    /** The reset button's `disabled={!hasChanges}`. */
    predicate ResetEnabled()
      reads this
    {
      hasChanges
    }

    /** The save button's `disabled={!hasChanges || saving}`. */
    predicate SaveEnabled()
      reads this
    {
      hasChanges && !saving
    }

    constructor ()
      ensures Valid() && config == DefaultConfig && !hasChanges && !saving
      ensures !ResetEnabled() && !SaveEnabled()
    {
      DefaultConfigValues();
      config := DefaultConfig;
      hasChanges := false;
      saving := false;
    }

    /** `updateConfig`: that field of that section takes the value, nothing else in
        the configuration changes, and the form is marked as changed. */
    method UpdateConfig(section: Section, field: string, value: Value)
      requires Valid()
      modifies this
      ensures Valid()
      ensures config == Updated(old(config), section, field, value)
      ensures hasChanges && saving == old(saving)
      ensures ResetEnabled() && (SaveEnabled() <==> !saving)
    {
      config := Updated(config, section, field, value);
      hasChanges := true;
    }

    /** The first half of `handleSave`: the save is pending. */
    method BeginSave()
      modifies this
      ensures config == old(config) && hasChanges == old(hasChanges)
      ensures saving && !SaveEnabled()
    {
      saving := true;
    }

    /** The second half of `handleSave`, after the delay: nothing is pending and the
        form counts as saved, including edits made while the save was pending. */
    method FinishSave()
      modifies this
      ensures config == old(config)
      ensures !saving && !hasChanges
      ensures !ResetEnabled() && !SaveEnabled()
    {
      saving := false;
      hasChanges := false;
    }

    /** `handleReset`: the defaults come back and the form counts as unchanged. */
    method HandleReset()
      modifies this
      ensures Valid() && config == DefaultConfig && SlidersInRange(config)
      ensures !hasChanges && saving == old(saving)
      ensures !ResetEnabled() && !SaveEnabled()
    {
      DefaultConfigValues();
      DefaultInRange();
      config := DefaultConfig;
      hasChanges := false;
    }
  }
}
