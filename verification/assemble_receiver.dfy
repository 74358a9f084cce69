/**
 * The first notification controller (`src/net/assemble/.../WifiStateReceiver`):
 * integer states 0..8, a cache of the last value of each broadcast, and the
 * notification re-shown only when the state or its message changes.  The
 * integer codes are the ranks of the later `State` enumeration.
 */
module AssembleReceiver {
  import opened Common
  import opened Signals
  import NS = NetworkStateInfo
  import LR = LegacyReceiver

  /** A message: the detail resource and the SSID appended to it, if any. */
  datatype Message = Message(key: MessageKey, ssid: Option<string>)

  /**
   * The static fields: session flag, last shown state and message, and the
   * cache (radio state, supplicant-connected flag, supplicant state, link).
   */
  datatype Rx = Rx(enabled: bool, notifyState: int, notifyMessage: Option<Message>,
                   radio: Radio, latch: bool, supplicant: Option<Supplicant>, link: Option<LinkInfo>)

  const Loaded: Rx := Rx(false, 0, None, RadioDisabling, false, None, None)

  /** The four Wi-Fi actions, each with its value (a missing radio extra is `RadioUnknown`), and any other action. */
  datatype Action =
    | WifiStateChanged(radio: Radio)
    | NetworkStateChanged(link: Option<LinkInfo>)
    | SupplicantConnectionChanged(connected: bool)
    | SupplicantStateChanged(supplicant: Option<Supplicant>)
    | OtherAction

  /** The platform's signals, read only when a session starts. */
  datatype Current = Current(radio: Radio, supplicant: Option<Supplicant>, link: Option<LinkInfo>)

  datatype Event = Event(action: Action, current: Current, reading: LR.Reading)

  /** `getIcon`: the application icon for 0, one drawable per state 1..8, resource 0 otherwise. */
  datatype AIcon = AppIcon | StateIcon(n: int) | ZeroResource

  datatype Command = Notify(icon: AIcon, message: Option<Message>) | CancelNotification

  /** The classification: no change (-1), radio off (0), a state with a fresh detail, or state 5 keeping the previous message. */
  datatype Verdict = NoChange | Off | Fresh(state: State, key: MessageKey) | Reuse

  function IconFor(n: int): (i: AIcon)
    ensures 1 <= n <= 8 <==> i.StateIcon?
    ensures i.StateIcon? ==> i.n == n
    ensures i == AppIcon <==> n == 0
  {
    if n == 0 then AppIcon else if 1 <= n <= 8 then StateIcon(n) else ZeroResource
  }

  /**
   * The rules, after radio OFF has cleared the cache: OFF gives 0; ENABLING
   * proposes 2 and ENABLED proposes 3 when the shown state is below 2; then,
   * whatever the radio, the link rules, the supplicant table (with no latch
   * test) and, for a null supplicant state with the flag set, state 5.
   */
  function Rule(shown: int, radio: Radio, latch: bool, supplicant: Option<Supplicant>, link: Option<LinkInfo>): (v: Verdict)
    ensures RadioOff(radio) <==> v.Off?
    ensures v.Fresh? ==> Rank(v.state) in {2, 3, 4, 5, 6, 7, 8}
  {
    if RadioOff(radio) then Off
    else
      var proposal :=
        if radio == RadioEnabling then Fresh(WifiEnabling, MsgEnabling)
        else if radio == RadioEnabled && shown < 2 then Fresh(WifiEnabled, MsgEnabled)
        else NoChange;
      if ObtainingAddress(link) then Fresh(WifiObtainingIpAddr, MsgObtainingIpAddr)
      else if LinkUp(link) then Fresh(WifiConnected, MsgConnected)
      else if supplicant.Some? then
        match SupplicantRule(supplicant.value)
        case Some((s, key)) => Fresh(s, key)
        case None => proposal
      else if latch then Reuse
      else proposal
  }

  /** The integer a verdict stores. */
  function Code(v: Verdict): (n: int)
    ensures n < 0 <==> v.NoChange?
    ensures !v.NoChange? ==> 0 <= n <= 10
  {
    match v
    case NoChange => -1
    case Off => 0
    case Fresh(s, _) => Rank(s)
    case Reuse => 5
  }

  function Cache(rx: Rx, action: Action): Rx {
    match action
    case WifiStateChanged(radio) => rx.(radio := radio)
    case NetworkStateChanged(link) => rx.(link := link)
    case SupplicantConnectionChanged(connected) => rx.(latch := connected)
    case SupplicantStateChanged(supplicant) => rx.(supplicant := supplicant)
    case OtherAction => rx
  }

  /** The first broadcast of a session re-reads the platform; the shown state and message are kept. */
  function StartSession(rx: Rx, c: Current): Rx {
    rx.(enabled := true, radio := c.radio, supplicant := c.supplicant, link := c.link,
        latch := rx.latch || c.supplicant != Some(SupDisconnected))
  }

  /**
   * `onReceive`: session start, caching, classification; then no change,
   * a cancelled notification for 0, or the notification when the state or
   * message differs from the last shown, with the SSID appended above state 4
   * when the detail text is a new object.
   */
  function Step(rx: Rx, e: Event): (r: (Rx, seq<Command>))
    ensures var rx1 := Cache(if rx.enabled then rx else StartSession(rx, e.current), e.action);
      var v := Rule(rx.notifyState, rx1.radio, rx1.latch, rx1.supplicant, rx1.link);
      && r.0.enabled
      && (v.NoChange? ==> r == (rx1, []))
      && (v.Off? ==>
            && r.1 == [CancelNotification] && r.0.notifyState == 0 && r.0.notifyMessage.None?
            && r.0.link.None? && r.0.supplicant.None? && !r.0.latch)
      && (!v.NoChange? ==> r.0.notifyState == Code(v))
      && (v.Reuse? ==> r.0.notifyMessage == rx.notifyMessage)
      && (v.Fresh? ==> r.0.notifyMessage.Some? && r.0.notifyMessage.value.key == v.key)
      && (v.Fresh? || v.Reuse? ==>
            (r.1 != [] <==> Code(v) != rx.notifyState || rx.notifyMessage.None? || r.0.notifyMessage != rx.notifyMessage))
      && (r.1 != [] && !v.Off? ==> r.1 == [Notify(IconFor(Code(v)), r.0.notifyMessage)])
  {
    var rx0 := if rx.enabled then rx else StartSession(rx, e.current);
    var rx1 := Cache(rx0, e.action);
    var v := Rule(rx.notifyState, rx1.radio, rx1.latch, rx1.supplicant, rx1.link);
    match v
    case NoChange => (rx1, [])
    case Off => (rx1.(link := None, latch := false, supplicant := None, notifyState := 0, notifyMessage := None), [CancelNotification])
    case Reuse =>
      var show := 5 != rx.notifyState || rx.notifyMessage.None?;
      (rx1.(notifyState := 5), if show then [Notify(IconFor(5), rx.notifyMessage)] else [])
    case Fresh(s, key) =>
      var newText := rx.notifyMessage.None? || e.reading.refDiffers;
      var ssid := if Rank(s) > 4 && e.reading.ssid.Some? && newText then e.reading.ssid else None;
      var message := Message(key, ssid);
      var show := Rank(s) != rx.notifyState || rx.notifyMessage.None? || Some(message) != rx.notifyMessage;
      (rx1.(notifyState := Rank(s), notifyMessage := Some(message)), if show then [Notify(IconFor(Rank(s)), Some(message))] else [])
  }

  // ------------------------------------------------------------ properties

  /** Radio DISABLING/DISABLED forgets the link, the supplicant state and the flag, stores 0 and cancels the notification. */
  lemma RadioOffClears(rx: Rx, e: Event)
    requires e.action == WifiStateChanged(RadioDisabled) || e.action == WifiStateChanged(RadioDisabling)
    ensures var (rx', fx) := Step(rx, e);
      rx'.notifyState == 0 && rx'.link.None? && rx'.supplicant.None? && !rx'.latch && fx == [CancelNotification]
  {
  }

  /** With no link or supplicant information, ENABLING gives 2, and ENABLED gives 3 only when the shown state is below 2. */
  lemma EnablingAndEnabled(shown: int)
    ensures Rule(shown, RadioEnabling, false, None, None) == Fresh(WifiEnabling, MsgEnabling)
    ensures Code(Rule(shown, RadioEnabled, false, None, None)) == (if shown < 2 then 3 else -1)
  {
  }

  /**
   * The link and supplicant rules give 7, 8, 4, 5, 6, 4 whatever the radio
   * (unless it is off), and a set flag with a null supplicant state gives 5.
   */
  lemma RuleCodes(shown: int, radio: Radio, latch: bool, supplicant: Option<Supplicant>, link: Option<LinkInfo>)
    requires !RadioOff(radio)
    ensures ObtainingAddress(link) ==> Code(Rule(shown, radio, latch, supplicant, link)) == 7
    ensures !ObtainingAddress(link) && LinkUp(link) ==> Code(Rule(shown, radio, latch, supplicant, link)) == 8
    ensures !ObtainingAddress(link) && !LinkUp(link) && supplicant.Some? && supplicant.value != OtherSupplicant ==>
      Code(Rule(shown, radio, latch, supplicant, link)) ==
        match supplicant.value
        case SupScanning => 4
        case SupDisconnected => 4
        case SupCompleted => 6
        case _ => 5
    ensures !ObtainingAddress(link) && !LinkUp(link) && supplicant.None? && latch ==> Rule(shown, radio, latch, supplicant, link) == Reuse
  {
  }

  /** Where the integer classifier and the later one both decide under radio ENABLED with the flag set, they agree, the codes being ranks. */
  lemma AgreesWithLaterClassifier(prev: State, detail: Option<MessageKey>, sig: Snapshot)
    requires sig.radio == RadioEnabled
    requires Rule(Rank(prev), sig.radio, true, sig.supplicant, sig.link).Fresh?
    ensures var v := Rule(Rank(prev), sig.radio, true, sig.supplicant, sig.link);
      NS.WifiRule(prev, detail, true, sig) == (v.state, Some(v.key))
  {
  }

  /** No change (-1) leaves the shown state and message alone and issues nothing. */
  lemma NoChangeDoesNothing(rx: Rx, e: Event)
    requires rx.enabled && e.action == WifiStateChanged(RadioUnknown) && rx.supplicant.None? && !rx.latch
    requires !ObtainingAddress(rx.link) && !LinkUp(rx.link)
    ensures Step(rx, e) == (rx.(radio := RadioUnknown), [])
  {
  }

  /** The same state with the same message is not shown again. */
  lemma SameNotShownTwice(rx: Rx, e: Event)
    requires rx.enabled && rx.notifyState != 0 && rx.notifyMessage.Some?
    requires Step(rx, e).0.notifyState == rx.notifyState && Step(rx, e).0.notifyMessage == rx.notifyMessage
    ensures Step(rx, e).1 == []
  {
  }
}
