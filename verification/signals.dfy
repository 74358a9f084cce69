/** The classifier's vocabulary: the ordered connectivity state and the raw platform signals it reads. */
module Signals {
  import opened Common

  /**
   * The application state, in declaration order.  The order is the milestone
   * progression: comparisons on it decide whether an observation may override
   * the current state.  `Wifi1` is declared but never produced.
   */
  datatype State =
    | Disabled
    | Wifi1
    | WifiEnabling
    | WifiEnabled
    | WifiScanning
    | WifiConnecting
    | WifiCompleted
    | WifiObtainingIpAddr
    | WifiConnected
    | MobileConnecting
    | MobileConnected

  /** The enum ordinal, the basis of `compareTo`. */
  function Rank(s: State): nat {
    match s
    case Disabled => 0
    case Wifi1 => 1
    case WifiEnabling => 2
    case WifiEnabled => 3
    case WifiScanning => 4
    case WifiConnecting => 5
    case WifiCompleted => 6
    case WifiObtainingIpAddr => 7
    case WifiConnected => 8
    case MobileConnecting => 9
    case MobileConnected => 10
  }

  predicate Below(a: State, b: State) {
    Rank(a) < Rank(b)
  }

  predicate AtMost(a: State, b: State) {
    Rank(a) <= Rank(b)
  }

  /** The ordinal is a faithful encoding: the order is total and strict. */
  lemma RankInjective(a: State, b: State)
    ensures Rank(a) == Rank(b) <==> a == b
  {
  }

  /** Radio power state as reported by the Wi-Fi manager (`WIFI_STATE_*`); `RadioUnknown` covers UNKNOWN and any other value. */
  datatype Radio = RadioDisabling | RadioDisabled | RadioEnabling | RadioEnabled | RadioUnknown

  predicate RadioOff(r: Radio) {
    r == RadioDisabling || r == RadioDisabled
  }

  /** Supplicant (association) state; `OtherSupplicant` covers the states no rule mentions (INACTIVE, DORMANT, ...). */
  datatype Supplicant =
    | SupDisconnected
    | SupScanning
    | SupAssociating
    | SupAssociated
    | SupFourWayHandshake
    | SupGroupHandshake
    | SupCompleted
    | OtherSupplicant

  datatype LinkPhase = PhaseConnecting | PhaseConnected | PhaseOther
  datatype LinkDetail = DetailObtainingIpAddr | DetailConnected | DetailOther

  /** The Wi-Fi `NetworkInfo`: availability, coarse state and detailed state. */
  datatype LinkInfo = LinkInfo(available: bool, phase: LinkPhase, detail: LinkDetail)

  /** Mobile data connection state (`TelephonyManager.DATA_*`). */
  datatype DataState = DataDisconnected | DataConnecting | DataConnected | DataSuspended

  /** The resource strings used as state details. */
  datatype MessageKey =
    | MsgUnavailable
    | MsgEnabling
    | MsgEnabled
    | MsgObtainingIpAddr
    | MsgConnected
    | MsgScanning
    | MsgAssociating
    | MsgAssociated
    | MsgHandshaking
    | MsgHandshakeCompleted
    | MsgDisconnected
    | MsgMobileConnecting
    | MsgMobileConnected

  /** The drawable resources used as notification icons; `NoIcon` is the resource id 0. */
  datatype Icon =
    | IconState0 | IconW1 | IconW2 | IconW3 | IconW4 | IconW5 | IconW6 | IconW7 | IconW8
    | IconM4 | IconM8 | IconWarn | NoIcon

  /**
   * Everything one classification reads from the platform: the radio state,
   * the supplicant state, the Wi-Fi `NetworkInfo` (null when absent), the
   * data state, the SSID of the connection info and the APN (extra info) of
   * the mobile `NetworkInfo`.
   */
  datatype Snapshot = Snapshot(
    radio: Radio,
    supplicant: Option<Supplicant>,
    link: Option<LinkInfo>,
    data: DataState,
    ssid: Option<string>,
    apn: Option<string>)

  /** The link is available, CONNECTING and OBTAINING_IPADDR. */
  predicate ObtainingAddress(link: Option<LinkInfo>) {
    link.Some? && link.value.available && link.value.phase == PhaseConnecting
    && link.value.detail == DetailObtainingIpAddr
  }

  /** The link is available, CONNECTED and CONNECTED. */
  predicate LinkUp(link: Option<LinkInfo>) {
    link.Some? && link.value.available && link.value.phase == PhaseConnected
    && link.value.detail == DetailConnected
  }

  /**
   * The supplicant-state table shared by every classifier version: the state
   * reached and its detail, or `None` for a supplicant state no rule names.
   */
  function SupplicantRule(s: Supplicant): (r: Option<(State, MessageKey)>)
    ensures r.Some? ==> r.value.0 in {WifiScanning, WifiConnecting, WifiCompleted}
    ensures r.None? <==> s == OtherSupplicant
  {
    match s
    case SupScanning => Some((WifiScanning, MsgScanning))
    case SupAssociating => Some((WifiConnecting, MsgAssociating))
    case SupAssociated => Some((WifiConnecting, MsgAssociated))
    case SupFourWayHandshake => Some((WifiConnecting, MsgHandshaking))
    case SupGroupHandshake => Some((WifiConnecting, MsgHandshaking))
    case SupCompleted => Some((WifiCompleted, MsgHandshakeCompleted))
    case SupDisconnected => Some((WifiScanning, MsgDisconnected))
    case OtherSupplicant => None
  }

  /** The mobile-data table: DATA_CONNECTING, DATA_CONNECTED, anything else. */
  function MobileRule(d: DataState): (r: (State, MessageKey))
    ensures r.0 == MobileConnecting <==> d == DataConnecting
    ensures r.0 == MobileConnected <==> d == DataConnected
    ensures r.0 in {Disabled, MobileConnecting, MobileConnected}
    ensures r.0 == Disabled ==> r.1 == MsgUnavailable
  {
    match d
    case DataConnecting => (MobileConnecting, MsgMobileConnecting)
    case DataConnected => (MobileConnected, MsgMobileConnected)
    case _ => (Disabled, MsgUnavailable)
  }

  /** The icon table (`getIcon`), one drawable per state. */
  function IconOf(s: State): (r: Icon)
    ensures r != NoIcon && r != IconWarn
  {
    match s
    case Disabled => IconState0
    case Wifi1 => IconW1
    case WifiEnabling => IconW2
    case WifiEnabled => IconW3
    case WifiScanning => IconW4
    case WifiConnecting => IconW5
    case WifiCompleted => IconW6
    case WifiObtainingIpAddr => IconW7
    case WifiConnected => IconW8
    case MobileConnecting => IconM4
    case MobileConnected => IconM8
  }

  /** Distinct states show distinct icons, so the icon identifies the state. */
  lemma IconOfInjective(a: State, b: State)
    ensures IconOf(a) == IconOf(b) ==> a == b
  {
  }
}
