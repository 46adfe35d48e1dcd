/**
 * The service settings the repositories read (pydantic-settings classes
 * filled from the environment; the environment itself is not modelled).
 */
module AppConfig {

  datatype Settings = Settings(
    polygonApiKey: string,
    polygonBaseUrl: string,
    marketwatchBaseUrl: string,
    remoteChromeWebdriverAddress: string,
    seleniumHeadlessMode: bool)

  /** The settings when only the required API key is supplied. */
  function DefaultSettings(polygonApiKey: string): (s: Settings)
    ensures s.polygonApiKey == polygonApiKey
    ensures s.polygonBaseUrl == "https://api.polygon.io"
    ensures s.marketwatchBaseUrl == "https://www.marketwatch.com"
    ensures s.remoteChromeWebdriverAddress == "http://chrome:4444"
    ensures s.seleniumHeadlessMode
  {
    Settings(polygonApiKey, "https://api.polygon.io", "https://www.marketwatch.com", "http://chrome:4444", true)
  }

  /** The attribute names the service's settings class declares. */
  const AppSettingsFields: set<string> := {
    "polygon_api_key", "polygon_base_url", "marketwatch_base_url",
    "remote_chrome_webdriver_address", "selenium_headless_mode",
    "redis_url", "default_caching_time", "postgres_drivername", "postgres_username",
    "postgres_password", "postgres_host", "postgres_port", "postgres_db"}

  /** The attribute names the older revision's settings class declares. */
  const LegacySettingsFields: set<string> := {"polygon_api_key", "polygon_base_url", "marketwatch_base_url"}
}
