/**
 * The earlier classifier (`src/net/orleaf/.../NetworkStateInfo.update`): the
 * same Wi-Fi rules, but mobile data only replaces a radio that is off, there
 * is no scanning case, and the clearability set has no scanning policy.
 */
module LegacyStateInfo {
  import opened Common
  import opened Signals
  import opened Prefs
  import IpAddress
  import NS = NetworkStateInfo

  /** Radio off yields the data verdict when mobile data is shown; every other radio state follows the shared Wi-Fi rules. */
  function Classify(info: NS.Info, sig: Snapshot, prefs: Prefs): (State, Option<MessageKey>) {
    if RadioOff(sig.radio) && prefs.showDataNetwork then (MobileRule(sig.data).0, Some(MobileRule(sig.data).1))
    else NS.WifiRule(info.state, info.detail, NS.Latch(info.supplicantConnected, sig.supplicant), sig)
  }

  /** `update`, with the same "no change" test and name rule as the current version. */
  function Update(info: NS.Info, sig: Snapshot, prefs: Prefs): (o: NS.Outcome)
    ensures info.supplicantConnected ==> o.info.supplicantConnected
    ensures o.info.supplicantConnected <==> info.supplicantConnected || sig.supplicant != Some(SupDisconnected)
    ensures !o.changed ==> o.info == info.(supplicantConnected := o.info.supplicantConnected)
    ensures !o.changed ==> info.detail.Some?
    ensures o.changed ==> (o.info.networkName.Some? ==> NS.IsWifiAPDecided(o.info.state) || NS.IsMobile(o.info.state))
    ensures o.changed ==> o.info.state != info.state || o.info.detail != info.detail || info.detail.None?
  {
    var latch := NS.Latch(info.supplicantConnected, sig.supplicant);
    var r := Classify(info, sig, prefs);
    if r.0 == info.state && info.detail.Some? && r.1 == info.detail then
      NS.Outcome(false, info.(supplicantConnected := latch))
    else
      NS.Outcome(true, NS.Info(r.0, r.1, latch, NS.NetworkNameFor(r.0, sig)))
  }

  /** `isClearableState` of this version: disabled or connected, never scanning. */
  predicate IsClearable(s: State, prefs: Prefs) {
    if prefs.clearOnDisabled && s == Disabled then true
    else if prefs.clearOnConnected && (s == WifiConnected || s == MobileConnected) then true
    else false
  }

  /** `getLocalIpAddress`: the DHCP address, only while Wi-Fi is connected and the address is set. */
  function LocalIpAddress(s: State, dhcpIp: int): (r: Option<string>)
    ensures r.Some? <==> s == WifiConnected && dhcpIp != 0
    ensures r.Some? ==> IpAddress.ParseIp(r.value) == Some(IpAddress.Octets(dhcpIp))
  {
    if s == WifiConnected && dhcpIp != 0 then
      IpAddress.Int2IpAddressRoundTrip(dhcpIp);
      Some(IpAddress.Int2IpAddress(dhcpIp))
    else None
  }

  /** `getGatewayIpAddress`: the same rule as the current version. */
  function GatewayIpAddress(s: State, gateway: int): (r: Option<string>)
    ensures r.Some? <==> s == WifiConnected && gateway != 0
    ensures r == NS.GatewayIpAddress(s, gateway)
  {
    if s == WifiConnected && gateway != 0 then Some(IpAddress.Int2IpAddress(gateway)) else None
  }

  // ------------------------------------------------------------ properties

  /** Radio off: the data state decides when it is shown, otherwise DISABLED "unavailable". */
  lemma UpdateRadioOff(info: NS.Info, sig: Snapshot, prefs: Prefs)
    requires RadioOff(sig.radio)
    ensures var i := Update(info, sig, prefs).info;
      && (prefs.showDataNetwork ==> i.state == MobileRule(sig.data).0 && i.detail == Some(MobileRule(sig.data).1))
      && (!prefs.showDataNetwork ==> i.state == Disabled && i.detail == Some(MsgUnavailable))
  {
  }

  /** Radio ENABLING gives WIFI_ENABLING; radio ENABLED never leaves the state below WIFI_ENABLED (no override exists here). */
  lemma UpdateRadioOn(info: NS.Info, sig: Snapshot, prefs: Prefs)
    ensures sig.radio == RadioEnabling ==> Update(info, sig, prefs).info.state == WifiEnabling
    ensures sig.radio == RadioEnabled ==> AtMost(WifiEnabled, Update(info, sig, prefs).info.state)
  {
    if sig.radio == RadioEnabled {
      var w := NS.WifiRule(info.state, info.detail, NS.Latch(info.supplicantConnected, sig.supplicant), sig);
      assert AtMost(WifiEnabled, w.0);
    }
  }

  /** Unlike the current version, this one resolves SCANNING to SCANNING whatever the preferences say. */
  lemma ScanningNeverOverridden(info: NS.Info, sig: Snapshot, prefs: Prefs)
    requires sig.radio == RadioEnabled && !ObtainingAddress(sig.link) && !LinkUp(sig.link)
    requires NS.Latch(info.supplicantConnected, sig.supplicant) && sig.supplicant == Some(SupScanning)
    ensures Update(info, sig, prefs).info.state == WifiScanning
  {
  }

  /** With radio on, this version and the current one agree whenever the current one's scanning override does not fire. */
  lemma AgreesWithCurrent(info: NS.Info, sig: Snapshot, prefs: Prefs)
    requires !RadioOff(sig.radio)
    requires !NS.OverrideApplies(NS.WifiRule(info.state, info.detail, NS.Latch(info.supplicantConnected, sig.supplicant), sig).0, prefs)
    ensures Update(info, sig, prefs) == NS.Update(info, sig, prefs)
  {
  }

  /** The first `update` after construction always reports a change. */
  lemma FirstUpdateChanges(sig: Snapshot, prefs: Prefs)
    ensures Update(NS.Initial, sig, prefs).changed
  {
  }

  /**
   * Without the scanning override, a repeat on identical signals reports no
   * change as soon as the detail is non-null: the only exception left is an
   * unknown radio state before any classification.
   */
  lemma RepeatUpdateUnchanged(info: NS.Info, sig: Snapshot, prefs: Prefs)
    requires Update(info, sig, prefs).info.detail.Some?
    ensures !Update(Update(info, sig, prefs).info, sig, prefs).changed
  {
    var o := Update(info, sig, prefs);
    assert NS.Latch(o.info.supplicantConnected, sig.supplicant) == o.info.supplicantConnected;
    assert Classify(o.info, sig, prefs) == (o.info.state, o.info.detail);
  }

  /** On an accepted change the name comes from the SSID, the APN, or nowhere, by state. */
  lemma UpdateNetworkName(info: NS.Info, sig: Snapshot, prefs: Prefs)
    requires Update(info, sig, prefs).changed
    ensures var i := Update(info, sig, prefs).info;
      && (NS.IsWifiAPDecided(i.state) ==> i.networkName == sig.ssid)
      && (NS.IsMobile(i.state) ==> i.networkName == sig.apn)
      && (!NS.IsWifiAPDecided(i.state) && !NS.IsMobile(i.state) ==> i.networkName.None?)
  {
  }

  /** Clearability: the current set minus the scanning policy. */
  lemma ClearableRule(s: State, prefs: Prefs)
    ensures IsClearable(s, prefs) <==>
      (prefs.clearOnDisabled && s == Disabled) || (prefs.clearOnConnected && (s == WifiConnected || s == MobileConnected))
    ensures IsClearable(s, prefs) <==> NS.IsClearable(s, prefs.(clearOnScanning := false))
    ensures s != WifiScanning ==> (IsClearable(s, prefs) <==> NS.IsClearable(s, prefs))
  {
  }
}
