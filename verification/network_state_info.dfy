/**
 * The current classifier (`NetworkStateInfo.update` and its helpers): a
 * snapshot of platform signals and the previous state become a new state,
 * detail and network name, or "no change".
 */
module NetworkStateInfo {
  import opened Common
  import opened Signals
  import opened Prefs
  import IpAddress

  /** The classifier's memory: state, detail (null at first), the "supplicant connected" latch and the network name. */
  datatype Info = Info(state: State, detail: Option<MessageKey>, supplicantConnected: bool, networkName: Option<string>)

  /** A fresh instance: DISABLED, no detail, latch clear, no name. */
  const Initial: Info := Info(Disabled, None, false, None)

  /** What `update` returns (`changed`) together with the instance after the call. */
  datatype Outcome = Outcome(changed: bool, info: Info)

  /** The latch is set by every supplicant state other than DISCONNECTED, a null one included, and never cleared. */
  function Latch(prev: bool, s: Option<Supplicant>): bool {
    prev || s != Some(SupDisconnected)
  }

  /** The first supplicant rule that fires, if the latch is set and the state is non-null. */
  function SupplicantMatch(latch: bool, s: Option<Supplicant>): Option<(State, MessageKey)> {
    if latch && s.Some? then SupplicantRule(s.value) else None
  }

  /** True when radio ENABLED has a link or supplicant rule to apply. */
  predicate RuleFires(latch: bool, sig: Snapshot) {
    ObtainingAddress(sig.link) || LinkUp(sig.link) || SupplicantMatch(latch, sig.supplicant).Some?
  }

  /**
   * The radio rules, in priority order.  Under radio ENABLED a previous state
   * below WIFI_ENABLED is first raised to it; the link rules then win over the
   * supplicant table; when nothing applies the previous pair is kept.  An
   * unknown radio state keeps the previous pair too.
   */
  function WifiRule(state: State, detail: Option<MessageKey>, latch: bool, sig: Snapshot): (State, Option<MessageKey>) {
    match sig.radio
    case RadioDisabling => (Disabled, Some(MsgUnavailable))
    case RadioDisabled => (Disabled, Some(MsgUnavailable))
    case RadioEnabling => (WifiEnabling, Some(MsgEnabling))
    case RadioEnabled =>
      if ObtainingAddress(sig.link) then (WifiObtainingIpAddr, Some(MsgObtainingIpAddr))
      else if LinkUp(sig.link) then (WifiConnected, Some(MsgConnected))
      else if SupplicantMatch(latch, sig.supplicant).Some? then
        var r := SupplicantMatch(latch, sig.supplicant).value;
        (r.0, Some(r.1))
      else if Below(state, WifiEnabled) then (WifiEnabled, Some(MsgEnabled))
      else (state, detail)
    case RadioUnknown => (state, detail)
  }

  /** With mobile data shown, DISABLED (or SCANNING under clear-on-scanning) is replaced by the data state's verdict. */
  predicate OverrideApplies(s: State, prefs: Prefs) {
    prefs.showDataNetwork && (s == Disabled || (s == WifiScanning && prefs.clearOnScanning))
  }

  function MobileOverride(r: (State, Option<MessageKey>), prefs: Prefs, data: DataState): (State, Option<MessageKey>) {
    if OverrideApplies(r.0, prefs) then (MobileRule(data).0, Some(MobileRule(data).1)) else r
  }

  /** The state and detail `update` resolves to, before the "no change" test. */
  function Classify(info: Info, sig: Snapshot, prefs: Prefs): (State, Option<MessageKey>) {
    var latch := Latch(info.supplicantConnected, sig.supplicant);
    MobileOverride(WifiRule(info.state, info.detail, latch, sig), prefs, sig.data)
  }

  /** A Wi-Fi access point has been chosen: SCANNING < state <= WIFI_CONNECTED. */
  predicate IsWifiAPDecided(s: State) {
    Below(WifiScanning, s) && AtMost(s, WifiConnected)
  }

  predicate IsMobile(s: State) {
    AtMost(MobileConnecting, s)
  }

  /** The network name taken after an accepted change: the SSID once an access point is chosen, the APN on mobile data. */
  function NetworkNameFor(s: State, sig: Snapshot): (n: Option<string>)
    ensures n.Some? ==> IsWifiAPDecided(s) || IsMobile(s)
  {
    if IsWifiAPDecided(s) then sig.ssid
    else if IsMobile(s) then sig.apn
    else None
  }

  /**
   * `update`: re-reads the signals, sets the latch, classifies, and reports no
   * change exactly when the state is the same, the previous detail is non-null
   * and the details are equal.  Only an accepted change replaces the state,
   * detail and network name.
   */
  function Update(info: Info, sig: Snapshot, prefs: Prefs): (o: Outcome)
    ensures info.supplicantConnected ==> o.info.supplicantConnected
    ensures o.info.supplicantConnected <==> info.supplicantConnected || sig.supplicant != Some(SupDisconnected)
    ensures !o.changed ==> o.info == info.(supplicantConnected := o.info.supplicantConnected)
    ensures !o.changed ==> info.detail.Some?
    ensures o.changed ==> (o.info.networkName.Some? ==> IsWifiAPDecided(o.info.state) || IsMobile(o.info.state))
    ensures o.changed ==> o.info.state != info.state || o.info.detail != info.detail || info.detail.None?
  {
    var latch := Latch(info.supplicantConnected, sig.supplicant);
    var r := Classify(info, sig, prefs);
    if r.0 == info.state && info.detail.Some? && r.1 == info.detail then
      Outcome(false, info.(supplicantConnected := latch))
    else
      Outcome(true, Info(r.0, r.1, latch, NetworkNameFor(r.0, sig)))
  }

  /** A sequence of `update` calls on one instance. */
  function UpdateAll(info: Info, sigs: seq<Snapshot>, prefs: Prefs): Info
    decreases |sigs|
  {
    if |sigs| == 0 then info else UpdateAll(Update(info, sigs[0], prefs).info, sigs[1..], prefs)
  }

  // ------------------------------------------------------------ helpers

  predicate IsConnected(s: State) {
    s == MobileConnected || s == WifiConnected
  }

  predicate IsWifiScanning(s: State) {
    s == WifiScanning
  }

  predicate IsWifiConnected(s: State) {
    s == WifiConnected
  }

  /** `isClearableState`: each enabled clear policy is checked in turn. */
  predicate IsClearable(s: State, prefs: Prefs) {
    if prefs.clearOnDisabled && s == Disabled then true
    else if prefs.clearOnScanning && IsWifiScanning(s) then true
    else if prefs.clearOnConnected && IsConnected(s) then true
    else false
  }

  function NetworkType(s: State): string {
    if IsMobile(s) then "Mobile Data" else "Wi-Fi"
  }

  /** `getGatewayIpAddress`: the DHCP gateway in dotted decimal, only while Wi-Fi is connected and the gateway is set. */
  function GatewayIpAddress(s: State, gateway: int): (r: Option<string>)
    ensures r.Some? <==> s == WifiConnected && gateway != 0
    ensures r.Some? ==> IpAddress.ParseIp(r.value) == Some(IpAddress.Octets(gateway))
  {
    if s == WifiConnected && gateway != 0 then
      IpAddress.Int2IpAddressRoundTrip(gateway);
      Some(IpAddress.Int2IpAddress(gateway))
    else None
  }

  /**
   * `getMyIpAddress`: while Wi-Fi is connected the connection's address, else
   * the DHCP address, when set; otherwise the first global interface address,
   * which the platform enumerates and is an input here.
   */
  function MyIpAddress(s: State, wifiIp: int, dhcpIp: int, interfaceAddress: Option<string>): (r: Option<string>)
    ensures s == WifiConnected && wifiIp != 0 ==> r == Some(IpAddress.Int2IpAddress(wifiIp))
    ensures s == WifiConnected && wifiIp == 0 ==>
      r == (if dhcpIp != 0 then Some(IpAddress.Int2IpAddress(dhcpIp)) else interfaceAddress)
    ensures s != WifiConnected ==> r == interfaceAddress
  {
    if s == WifiConnected && wifiIp != 0 then Some(IpAddress.Int2IpAddress(wifiIp))
    else if s == WifiConnected && dhcpIp != 0 then Some(IpAddress.Int2IpAddress(dhcpIp))
    else interfaceAddress
  }

  /** The notification text for a state: the detail key, or "IP:" and the address while connected. */
  datatype DetailText = NoDetail | KeyText(key: MessageKey) | IpText(ip: string)

  /** `getStateDetail`. */
  function StateDetail(info: Info, ip: Option<string>): (t: DetailText)
    ensures t.IpText? <==> IsConnected(info.state) && ip.Some?
    ensures t.NoDetail? <==> !t.IpText? && info.detail.None?
    ensures t.IpText? ==> t.ip == "IP:" + ip.value
    ensures t.KeyText? ==> info.detail == Some(t.key)
  {
    if IsConnected(info.state) && ip.Some? then IpText("IP:" + ip.value)
    else if info.detail.Some? then KeyText(info.detail.value)
    else NoDetail
  }

  // ------------------------------------------------------------ properties

  /** Radio DISABLING/DISABLED gives DISABLED "unavailable", unless mobile data is shown, which then decides. */
  lemma UpdateRadioOff(info: Info, sig: Snapshot, prefs: Prefs)
    requires RadioOff(sig.radio)
    ensures var o := Update(info, sig, prefs);
      && (!prefs.showDataNetwork ==> o.info.state == Disabled && o.info.detail == Some(MsgUnavailable))
      && (prefs.showDataNetwork ==> o.info.state == MobileRule(sig.data).0 && o.info.detail == Some(MobileRule(sig.data).1))
  {
  }

  /** Radio ENABLING always gives WIFI_ENABLING; no mobile override applies to it. */
  lemma UpdateRadioEnabling(info: Info, sig: Snapshot, prefs: Prefs)
    requires sig.radio == RadioEnabling
    ensures Update(info, sig, prefs).info.state == WifiEnabling
    ensures Update(info, sig, prefs).info.detail == Some(MsgEnabling)
  {
  }

  /**
   * Radio ENABLED never leaves the state below WIFI_ENABLED, except through the
   * mobile override of SCANNING, which only yields DISABLED when data is down.
   */
  lemma UpdateEnabledAtLeastEnabled(info: Info, sig: Snapshot, prefs: Prefs)
    requires sig.radio == RadioEnabled
    ensures var s := Update(info, sig, prefs).info.state;
      AtMost(WifiEnabled, s) || (s == Disabled && prefs.showDataNetwork && prefs.clearOnScanning
                                   && MobileRule(sig.data).0 == Disabled)
  {
    var latch := Latch(info.supplicantConnected, sig.supplicant);
    var w := WifiRule(info.state, info.detail, latch, sig);
    assert AtMost(WifiEnabled, w.0);
  }

  /** Radio ENABLED with nothing to apply: a state below WIFI_ENABLED is raised to it, which is always a change. */
  lemma UpdateBump(info: Info, sig: Snapshot, prefs: Prefs)
    requires sig.radio == RadioEnabled && Below(info.state, WifiEnabled)
    requires !RuleFires(Latch(info.supplicantConnected, sig.supplicant), sig)
    ensures Update(info, sig, prefs).changed
    ensures Update(info, sig, prefs).info.state == WifiEnabled
    ensures Update(info, sig, prefs).info.detail == Some(MsgEnabled)
  {
  }

  /**
   * Radio ENABLED with nothing to apply, from WIFI_ENABLED or later: the state
   * and detail carry over (unless the SCANNING override applies), so a
   * non-null detail means no change.
   */
  lemma UpdateCarryOver(info: Info, sig: Snapshot, prefs: Prefs)
    requires sig.radio == RadioEnabled && AtMost(WifiEnabled, info.state)
    requires !RuleFires(Latch(info.supplicantConnected, sig.supplicant), sig)
    requires !OverrideApplies(info.state, prefs)
    ensures Update(info, sig, prefs).info.state == info.state
    ensures Update(info, sig, prefs).info.detail == info.detail
    ensures info.detail.Some? ==> !Update(info, sig, prefs).changed
  {
  }

  /** The link rules win over the supplicant state and the latch. */
  lemma UpdateLinkPriority(info: Info, sig: Snapshot, prefs: Prefs)
    requires sig.radio == RadioEnabled
    ensures ObtainingAddress(sig.link) ==>
      Update(info, sig, prefs).info.state == WifiObtainingIpAddr
      && Update(info, sig, prefs).info.detail == Some(MsgObtainingIpAddr)
    ensures LinkUp(sig.link) ==>
      Update(info, sig, prefs).info.state == WifiConnected
      && Update(info, sig, prefs).info.detail == Some(MsgConnected)
  {
  }

  /**
   * Without a link rule, the supplicant table decides when the latch is set
   * and the state non-null: SCANNING and DISCONNECTED give SCANNING (subject
   * to the override), associating and handshake states give CONNECTING,
   * COMPLETED gives COMPLETED.
   */
  lemma UpdateSupplicantTable(info: Info, sig: Snapshot, prefs: Prefs, sup: Supplicant)
    requires sig.radio == RadioEnabled && !ObtainingAddress(sig.link) && !LinkUp(sig.link)
    requires Latch(info.supplicantConnected, sig.supplicant) && sig.supplicant == Some(sup)
    ensures var s := Update(info, sig, prefs).info.state;
      && (sup in {SupScanning, SupDisconnected} ==>
            s == (if OverrideApplies(WifiScanning, prefs) then MobileRule(sig.data).0 else WifiScanning))
      && (sup in {SupAssociating, SupAssociated, SupFourWayHandshake, SupGroupHandshake} ==> s == WifiConnecting)
      && (sup == SupCompleted ==> s == WifiCompleted)
  {
  }

  /** With the latch clear the supplicant state is ignored: only a link rule or the bump can move the state. */
  lemma UpdateLatchClearIgnoresSupplicant(info: Info, sig: Snapshot, prefs: Prefs)
    requires sig.radio == RadioEnabled && !ObtainingAddress(sig.link) && !LinkUp(sig.link)
    requires !Latch(info.supplicantConnected, sig.supplicant)
    ensures sig.supplicant == Some(SupDisconnected)
    ensures WifiRule(info.state, info.detail, false, sig)
         == (if Below(info.state, WifiEnabled) then (WifiEnabled, Some(MsgEnabled)) else (info.state, info.detail))
  {
  }

  /** The override: with mobile data shown, a resolved DISABLED, or SCANNING under clear-on-scanning, becomes the data verdict. */
  lemma UpdateMobileOverride(info: Info, sig: Snapshot, prefs: Prefs)
    requires var w := WifiRule(info.state, info.detail, Latch(info.supplicantConnected, sig.supplicant), sig);
      OverrideApplies(w.0, prefs)
    ensures Update(info, sig, prefs).info.state == MobileRule(sig.data).0
    ensures Update(info, sig, prefs).info.state in {Disabled, MobileConnecting, MobileConnected}
  {
  }

  /** The first `update` of a fresh instance always reports a change, since the detail starts out null. */
  lemma FirstUpdateChanges(sig: Snapshot, prefs: Prefs)
    ensures Update(Initial, sig, prefs).changed
  {
  }

  /**
   * Repeating `update` on identical signals reports no change, except in the
   * two cases the code does not cover: a detail that is still null (an
   * unknown radio state before any classification), and radio ENABLED with
   * nothing to apply where the override turned SCANNING into DISABLED (the
   * repeat then raises DISABLED to WIFI_ENABLED).
   */
  lemma RepeatUpdateUnchanged(info: Info, sig: Snapshot, prefs: Prefs)
    requires var o := Update(info, sig, prefs);
      && o.info.detail.Some?
      && !(sig.radio == RadioEnabled && !RuleFires(o.info.supplicantConnected, sig) && o.info.state == Disabled)
    ensures !Update(Update(info, sig, prefs).info, sig, prefs).changed
  {
    var o := Update(info, sig, prefs);
    assert Latch(o.info.supplicantConnected, sig.supplicant) == o.info.supplicantConnected;
    assert Classify(o.info, sig, prefs) == (o.info.state, o.info.detail);
  }

  /** Witness for the first exception: radio state unknown, no mobile display, fresh instance. */
  lemma RepeatUpdateUnknownRadio(sig: Snapshot, prefs: Prefs)
    requires sig.radio == RadioUnknown && !prefs.showDataNetwork
    ensures Update(Initial, sig, prefs).changed
    ensures Update(Update(Initial, sig, prefs).info, sig, prefs).changed
  {
  }

  /** Witness for the second exception: SCANNING carried over, overridden to DISABLED, then raised to WIFI_ENABLED. */
  lemma RepeatUpdateScanningOverride(info: Info, sig: Snapshot, prefs: Prefs)
    requires info.state == WifiScanning && info.detail.Some?
    requires sig.radio == RadioEnabled && !RuleFires(Latch(info.supplicantConnected, sig.supplicant), sig)
    requires prefs.showDataNetwork && prefs.clearOnScanning && MobileRule(sig.data).0 == Disabled
    ensures Update(info, sig, prefs).info.state == Disabled
    ensures Update(Update(info, sig, prefs).info, sig, prefs).changed
    ensures Update(Update(info, sig, prefs).info, sig, prefs).info.state == WifiEnabled
  {
  }

  /** On an accepted change the name is recomputed from scratch: SSID, APN, or null. */
  lemma UpdateNetworkName(info: Info, sig: Snapshot, prefs: Prefs)
    requires Update(info, sig, prefs).changed
    ensures var i := Update(info, sig, prefs).info;
      && (IsWifiAPDecided(i.state) ==> i.networkName == sig.ssid)
      && (IsMobile(i.state) ==> i.networkName == sig.apn)
      && (!IsWifiAPDecided(i.state) && !IsMobile(i.state) ==> i.networkName.None?)
  {
  }

  /** Over any sequence of calls the latch only ever goes from clear to set. */
  lemma {:induction false} LatchMonotone(info: Info, sigs: seq<Snapshot>, prefs: Prefs)
    ensures info.supplicantConnected ==> UpdateAll(info, sigs, prefs).supplicantConnected
    ensures (exists i :: 0 <= i < |sigs| && sigs[i].supplicant != Some(SupDisconnected))
            ==> UpdateAll(info, sigs, prefs).supplicantConnected
    decreases |sigs|
  {
    if |sigs| > 0 {
      var next := Update(info, sigs[0], prefs).info;
      LatchMonotone(next, sigs[1..], prefs);
      if exists i :: 0 <= i < |sigs| && sigs[i].supplicant != Some(SupDisconnected) {
        var i :| 0 <= i < |sigs| && sigs[i].supplicant != Some(SupDisconnected);
        if i > 0 {
          assert sigs[1..][i - 1] == sigs[i];
        }
      }
    }
  }

  /**
   * The address `getMyIpAddress` renders for connected Wi-Fi reads back to the
   * connection's address, or the DHCP address when the former is 0.
   */
  lemma MyIpAddressReadsBack(s: State, wifiIp: int, dhcpIp: int, interfaceAddress: Option<string>)
    requires s == WifiConnected && (wifiIp != 0 || dhcpIp != 0)
    ensures var r := MyIpAddress(s, wifiIp, dhcpIp, interfaceAddress);
      r.Some? && IpAddress.ParseIp(r.value) == Some(IpAddress.Octets(if wifiIp != 0 then wifiIp else dhcpIp))
  {
    IpAddress.Int2IpAddressRoundTrip(if wifiIp != 0 then wifiIp else dhcpIp);
  }

  /**
   * On connected Wi-Fi with an address, the notification text is "IP:"
   * followed by a dotted quad that reads back to that address.
   */
  lemma StateDetailShowsAddress(info: Info, wifiIp: int, dhcpIp: int, interfaceAddress: Option<string>)
    requires info.state == WifiConnected && wifiIp != 0
    ensures var t := StateDetail(info, MyIpAddress(info.state, wifiIp, dhcpIp, interfaceAddress));
      && t.IpText? && |t.ip| >= 3 && t.ip[..3] == "IP:"
      && IpAddress.ParseIp(t.ip[3..]) == Some(IpAddress.Octets(wifiIp))
  {
    var a := IpAddress.Int2IpAddress(wifiIp);
    IpAddress.Int2IpAddressRoundTrip(wifiIp);
    assert ("IP:" + a)[3..] == a;
  }

  /** The helper rules as the notification code relies on them. */
  lemma HelperRules(s: State, prefs: Prefs)
    ensures IsClearable(s, prefs) <==>
      (prefs.clearOnDisabled && s == Disabled)
      || (prefs.clearOnScanning && s == WifiScanning)
      || (prefs.clearOnConnected && (s == WifiConnected || s == MobileConnected))
    ensures NetworkType(s) == "Mobile Data" <==> s in {MobileConnecting, MobileConnected}
    ensures IsWifiAPDecided(s) <==> s in {WifiConnecting, WifiCompleted, WifiObtainingIpAddr, WifiConnected}
  {
  }
}
