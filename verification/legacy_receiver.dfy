/**
 * The earliest notification controller (`src/net/orleaf/.../WifiStateReceiver`):
 * the receiver caches each broadcast's value in its own field, classifies
 * inline from the cache, and keeps the last shown state and message
 * (`notifyState`, `notifyMessage`) to decide whether to re-show.
 */
module LegacyReceiver {
  import opened Common
  import opened Signals
  import opened Prefs
  import NS = NetworkStateInfo
  import LSI = LegacyStateInfo

  /** What follows the detail text: nothing, " (SSID:...)" or " (apn)". */
  datatype Suffix = NoSuffix | SsidSuffix(ssid: string) | ApnSuffix(apn: Option<string>)

  /** A notification message: the detail resource and its suffix; equal messages are equal strings. */
  datatype Message = Message(key: MessageKey, suffix: Suffix)

  /**
   * The static fields: the session flag, the last shown state and message,
   * the data-state listener, and the cached signals (radio state, supplicant
   * state, Wi-Fi link, data state and the mobile link's APN) with the
   * supplicant-connected flag.
   */
  datatype Rx = Rx(enabled: bool, notifyState: State, notifyMessage: Option<Message>, listening: bool, sig: Snapshot, latch: bool)

  /** The fields when the class is loaded: radio state 0 is DISABLING and data state 0 is DISCONNECTED. */
  const Loaded: Rx := Rx(false, Disabled, None, false, Snapshot(RadioDisabling, None, None, DataDisconnected, None, None), false)

  const ClearDelayMs: int := 3000

  /**
   * The broadcasts: the clear alarm, and the five platform actions, each with
   * the one value it carries (a missing radio extra is `RadioUnknown`).
   */
  datatype Action =
    | ClearAlarm
    | ConnectivityChanged(link: Option<LinkInfo>, apn: Option<string>)
    | WifiStateChanged(radio: Radio)
    | NetworkStateChanged(link: Option<LinkInfo>)
    | SupplicantConnectionChanged(connected: bool)
    | SupplicantStateChanged(supplicant: Option<Supplicant>)
    | NoAction
    | OtherAction

  /**
   * What `updateState` reads besides the cache: the connection's SSID, and
   * whether the new detail text is a different object from the stored message
   * (a reference comparison, so an input here).
   */
  datatype Reading = Reading(ssid: Option<string>, refDiffers: bool)

  /** A broadcast with the platform's current signals (read only when a session starts), or a data-state callback. */
  datatype Event =
    | Broadcast(action: Action, current: Snapshot, reading: Reading)
    | DataStateChanged(data: DataState, apn: Option<string>, reading: Reading)

  datatype Command = Notify(icon: Icon, message: Message, ongoing: bool) | CancelNotification | ScheduleClear(delayMs: int) | ListenData | UnlistenData

  /**
   * The inline classifier: `None` is the null result.  Radio ENABLED first
   * proposes WIFI_ENABLED when the shown state is below it; the link rules and
   * then the supplicant table replace that proposal.
   */
  function Classify(shown: State, sig: Snapshot, latch: bool, showData: bool): (r: Option<(State, MessageKey)>)
    ensures r.None? <==>
      || sig.radio == RadioUnknown
      || (sig.radio == RadioEnabled && !NS.RuleFires(latch, sig) && !Below(shown, WifiEnabled))
    ensures RadioOff(sig.radio) ==> r == Some(if showData then MobileRule(sig.data) else (Disabled, MsgUnavailable))
  {
    if RadioOff(sig.radio) then Some(if showData then MobileRule(sig.data) else (Disabled, MsgUnavailable))
    else if sig.radio == RadioEnabling then Some((WifiEnabling, MsgEnabling))
    else if sig.radio == RadioEnabled then
      var proposal := if Below(shown, WifiEnabled) then Some((WifiEnabled, MsgEnabled)) else None;
      if ObtainingAddress(sig.link) then Some((WifiObtainingIpAddr, MsgObtainingIpAddr))
      else if LinkUp(sig.link) then Some((WifiConnected, MsgConnected))
      else if latch && sig.supplicant.Some? && SupplicantRule(sig.supplicant.value).Some? then SupplicantRule(sig.supplicant.value)
      else proposal
    else None
  }

  /** The suffix rule: the SSID once an access point is chosen and the text object is new; the APN on mobile data. */
  function SuffixFor(s: State, ssid: Option<string>, newText: bool, apn: Option<string>): (x: Suffix)
    ensures x.SsidSuffix? <==> NS.IsWifiAPDecided(s) && ssid.Some? && newText
    ensures x.SsidSuffix? ==> Some(x.ssid) == ssid
    ensures x.ApnSuffix? <==> s == MobileConnected
  {
    if NS.IsWifiAPDecided(s) && ssid.Some? && newText then SsidSuffix(ssid.value)
    else if s == MobileConnected then ApnSuffix(apn)
    else NoSuffix
  }

  /**
   * `updateState`: a null classification changes nothing; otherwise the
   * notification (and a clear alarm for a clearable state) is issued when the
   * state, or the message, differs from the last shown, and the new state and
   * message are stored either way.
   */
  function UpdateState(rx: Rx, prefs: Prefs, reading: Reading): (r: (Rx, seq<Command>))
    ensures r.0.enabled == rx.enabled && r.0.listening == rx.listening && r.0.sig == rx.sig && r.0.latch == rx.latch
    ensures Classify(rx.notifyState, rx.sig, rx.latch, prefs.showDataNetwork).None? ==> r == (rx, [])
    ensures Classify(rx.notifyState, rx.sig, rx.latch, prefs.showDataNetwork).Some? ==>
      var (s, key) := Classify(rx.notifyState, rx.sig, rx.latch, prefs.showDataNetwork).value;
      && r.0.notifyState == s && r.0.notifyMessage.Some? && r.0.notifyMessage.value.key == key
      && (|r.1| > 0 <==> s != rx.notifyState || rx.notifyMessage != r.0.notifyMessage)
      && (|r.1| > 0 ==> r.1[0] == Notify(IconOf(s), r.0.notifyMessage.value, !prefs.clearable))
      && (ScheduleClear(ClearDelayMs) in r.1 <==> |r.1| > 0 && LSI.IsClearable(s, prefs))
  {
    match Classify(rx.notifyState, rx.sig, rx.latch, prefs.showDataNetwork)
    case None => (rx, [])
    case Some((s, key)) =>
      var newText := rx.notifyMessage.None? || reading.refDiffers;
      var message := Message(key, SuffixFor(s, reading.ssid, newText, rx.sig.apn));
      var show := s != rx.notifyState || rx.notifyMessage.None? || message != rx.notifyMessage.value;
      var fx := if show then [Notify(IconOf(s), message, !prefs.clearable)] + (if LSI.IsClearable(s, prefs) then [ScheduleClear(ClearDelayMs)] else []) else [];
      (rx.(notifyState := s, notifyMessage := Some(message)), fx)
  }

  /** The first event of a session: register the listener when mobile data is shown, re-read every signal, and start from DISABLED. */
  function StartSession(rx: Rx, current: Snapshot, prefs: Prefs): (r: (Rx, seq<Command>))
    ensures r.0.enabled && r.0.notifyState == Disabled && r.0.notifyMessage == rx.notifyMessage
    ensures r.0.sig == current
    ensures r.0.latch <==> rx.latch || current.supplicant != Some(SupDisconnected)
    ensures r.1 == (if prefs.showDataNetwork then [ListenData] else [])
  {
    var latch := rx.latch || current.supplicant != Some(SupDisconnected);
    (Rx(true, Disabled, rx.notifyMessage, rx.listening || prefs.showDataNetwork, current, latch),
     if prefs.showDataNetwork then [ListenData] else [])
  }

  /** `clearNotificationIcon` and `disable`: cancel the notification, end the session, drop the listener. */
  function Clear(rx: Rx): (r: (Rx, seq<Command>))
    ensures !r.0.enabled && !r.0.listening
    ensures r.0.notifyState == rx.notifyState && r.0.notifyMessage == rx.notifyMessage && r.0.sig == rx.sig
    ensures |r.1| > 0 && r.1[0] == CancelNotification
    ensures UnlistenData in r.1 <==> rx.listening
  {
    (rx.(enabled := false, listening := false), [CancelNotification] + (if rx.listening then [UnlistenData] else []))
  }

  /** Each platform action overwrites its own cached field. */
  function Cache(rx: Rx, action: Action): Rx {
    match action
    case ConnectivityChanged(link, apn) => rx.(sig := rx.sig.(link := link, apn := apn))
    case WifiStateChanged(radio) => rx.(sig := rx.sig.(radio := radio))
    case NetworkStateChanged(link) => rx.(sig := rx.sig.(link := link))
    case SupplicantConnectionChanged(connected) => rx.(latch := connected)
    case SupplicantStateChanged(supplicant) => rx.(sig := rx.sig.(supplicant := supplicant))
    case _ => rx
  }

  function Dispatch(rx: Rx, action: Action, prefs: Prefs, reading: Reading): (Rx, seq<Command>) {
    if action.ClearAlarm? && LSI.IsClearable(rx.notifyState, prefs) then Clear(rx)
    else UpdateState(Cache(rx, action), prefs, reading)
  }

  function Step(rx: Rx, e: Event, prefs: Prefs): (Rx, seq<Command>) {
    match e
    case DataStateChanged(data, apn, reading) =>
      if rx.listening && data != rx.sig.data then UpdateState(rx.(sig := rx.sig.(data := data, apn := apn)), prefs, reading)
      else (rx, [])
    case Broadcast(action, current, reading) =>
      if !prefs.enabled then (rx, [])
      else
        var (rx0, fx0) := if rx.enabled then (rx, []) else StartSession(rx, current, prefs);
        var (rx1, fx1) := Dispatch(rx0, action, prefs, reading);
        (rx1, fx0 + fx1)
  }

  function Run(rx: Rx, es: seq<Event>, prefs: Prefs): Rx
    decreases |es|
  {
    if |es| == 0 then rx else Run(Step(rx, es[0], prefs).0, es[1..], prefs)
  }

  /** A listener exists only during a session. */
  predicate Inv(rx: Rx) {
    rx.listening ==> rx.enabled
  }

  // ------------------------------------------------------------ properties

  /**
   * Wherever the inline classifier decides, it agrees with the classifier
   * object: mobile data for a radio that is off while data is shown, the
   * shared Wi-Fi rules otherwise.
   */
  lemma ClassifyAgreesWithStateInfo(shown: State, detail: Option<MessageKey>, sig: Snapshot, latch: bool, showData: bool)
    requires Classify(shown, sig, latch, showData).Some?
    ensures var r := Classify(shown, sig, latch, showData).value;
      && (RadioOff(sig.radio) && showData ==> r == MobileRule(sig.data))
      && (!(RadioOff(sig.radio) && showData) ==> NS.WifiRule(shown, detail, latch, sig) == (r.0, Some(r.1)))
  {
  }

  /** Where the inline classifier returns null, the classifier object keeps the previous state and detail. */
  lemma NullIsCarryOver(shown: State, detail: Option<MessageKey>, sig: Snapshot, latch: bool, showData: bool)
    requires Classify(shown, sig, latch, showData).None?
    ensures NS.WifiRule(shown, detail, latch, sig) == (shown, detail)
  {
  }

  /** Radio ENABLED with the shown state at or above WIFI_ENABLED and no link or supplicant rule gives null, and null does nothing. */
  lemma NullMeansNoChange(rx: Rx, prefs: Prefs, reading: Reading)
    requires rx.sig.radio == RadioEnabled && !Below(rx.notifyState, WifiEnabled) && !NS.RuleFires(rx.latch, rx.sig)
    ensures UpdateState(rx, prefs, reading) == (rx, [])
  {
  }

  /** Within a session each platform action changes only its own cached field, whatever the classification. */
  lemma ActionCachesOwnField(rx: Rx, action: Action, current: Snapshot, reading: Reading, prefs: Prefs)
    requires prefs.enabled && rx.enabled && !action.ClearAlarm?
    ensures var rx' := Step(rx, Broadcast(action, current, reading), prefs).0;
      && rx'.enabled && rx'.listening == rx.listening
      && (action.WifiStateChanged? ==> rx'.sig == rx.sig.(radio := action.radio) && rx'.latch == rx.latch)
      && (action.NetworkStateChanged? ==> rx'.sig == rx.sig.(link := action.link) && rx'.latch == rx.latch)
      && (action.ConnectivityChanged? ==> rx'.sig == rx.sig.(link := action.link, apn := action.apn) && rx'.latch == rx.latch)
      && (action.SupplicantConnectionChanged? ==> rx'.sig == rx.sig && rx'.latch == action.connected)
      && (action.SupplicantStateChanged? ==> rx'.sig == rx.sig.(supplicant := action.supplicant) && rx'.latch == rx.latch)
      && (action.NoAction? || action.OtherAction? ==> rx'.sig == rx.sig && rx'.latch == rx.latch)
  {
  }

  /** The first broadcast of a session re-reads every signal and classifies from DISABLED. */
  lemma SessionStartRereads(rx: Rx, current: Snapshot, reading: Reading, prefs: Prefs)
    requires prefs.enabled && !rx.enabled
    ensures var (rx', fx) := Step(rx, Broadcast(OtherAction, current, reading), prefs);
      && rx'.enabled && rx'.sig == current
      && (rx'.latch <==> rx.latch || current.supplicant != Some(SupDisconnected))
      && (ListenData in fx <==> prefs.showDataNetwork)
      && (Classify(Disabled, current, rx'.latch, prefs.showDataNetwork).None? ==> rx'.notifyState == Disabled)
  {
    var (rx0, fx0) := StartSession(rx, current, prefs);
    var fx1 := UpdateState(rx0, prefs, reading).1;
    assert ListenData !in fx1;
  }

  /** The alarm clears only a state that is still clearable, which ends the session; otherwise it is an ordinary broadcast. */
  lemma ClearAlarmRechecks(rx: Rx, current: Snapshot, reading: Reading, prefs: Prefs)
    requires prefs.enabled && rx.enabled
    ensures LSI.IsClearable(rx.notifyState, prefs) ==>
      var (rx', fx) := Step(rx, Broadcast(ClearAlarm, current, reading), prefs);
      !rx'.enabled && !rx'.listening && fx[0] == CancelNotification
    ensures !LSI.IsClearable(rx.notifyState, prefs) ==>
      Step(rx, Broadcast(ClearAlarm, current, reading), prefs) == Step(rx, Broadcast(OtherAction, current, reading), prefs)
  {
    if LSI.IsClearable(rx.notifyState, prefs) {
      assert [] + Clear(rx).1 == Clear(rx).1;
    }
  }

  /** The listener reclassifies only when the data state actually changes. */
  lemma SameDataStateIgnored(rx: Rx, apn: Option<string>, reading: Reading, prefs: Prefs)
    ensures Step(rx, DataStateChanged(rx.sig.data, apn, reading), prefs) == (rx, [])
  {
  }

  /** A repeated classification with the same message shows nothing more. */
  lemma SameMessageNotShownTwice(rx: Rx, prefs: Prefs, reading: Reading)
    requires Classify(rx.notifyState, rx.sig, rx.latch, prefs.showDataNetwork).Some?
    requires var (s, key) := Classify(rx.notifyState, rx.sig, rx.latch, prefs.showDataNetwork).value;
      s == rx.notifyState && rx.notifyMessage.Some? && rx.notifyMessage.value.key == key
      && rx.notifyMessage.value.suffix == SuffixFor(s, reading.ssid, reading.refDiffers, rx.sig.apn)
    ensures UpdateState(rx, prefs, reading).1 == []
  {
  }

  /** Every event keeps the listener inside a session. */
  lemma StepInv(rx: Rx, e: Event, prefs: Prefs)
    requires Inv(rx)
    ensures Inv(Step(rx, e, prefs).0)
  {
  }

  /** Over any run a listener exists only during a session. */
  lemma {:induction false} RunInv(rx: Rx, es: seq<Event>, prefs: Prefs)
    requires Inv(rx)
    ensures Inv(Run(rx, es, prefs))
    decreases |es|
  {
    if |es| > 0 {
      StepInv(rx, es[0], prefs);
      RunInv(Step(rx, es[0], prefs).0, es[1..], prefs);
    }
  }
}
