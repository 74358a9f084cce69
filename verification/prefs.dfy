/** The user configuration, read by every component through thin preference getters. */
module Prefs {
  import opened Common

  datatype Prefs = Prefs(
    enabled: bool,
    clearable: bool,
    clearOnConnected: bool,
    clearOnScanning: bool,
    clearOnDisabled: bool,
    showDataNetwork: bool,
    ping: bool,
    pingOnMobile: bool,
    pingTarget: Option<string>,
    pingTimeout: int,
    pingInterval: int,
    pingRetry: int,
    pingDisableWifiOnFail: bool,
    pingDisableWifiPeriod: int)

  /** The defaults the preference getters fall back to. */
  const Defaults: Prefs := Prefs(
    enabled := true,
    clearable := false,
    clearOnConnected := false,
    clearOnScanning := false,
    clearOnDisabled := false,
    showDataNetwork := true,
    ping := false,
    pingOnMobile := true,
    pingTarget := Some("www.google.com"),
    pingTimeout := 3,
    pingInterval := 10,
    pingRetry := 3,
    pingDisableWifiOnFail := false,
    pingDisableWifiPeriod := 0)
}
