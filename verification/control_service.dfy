/**
 * The radio control service (`WifiStateControlService`, identical in the
 * current and the `WifiStateCore` versions): enable, disable, and re-enable
 * after a delay through a disable-confirmation observer and a delayed enable
 * callback.  The platform calls it makes are returned as effects.
 */
module ControlService {
  import opened Common
  import opened Signals

  const ActionEnable: string := "net.orleaf.android.wifistate.ACTION_WIFI_ENABLE"
  const ActionDisable: string := "net.orleaf.android.wifistate.ACTION_WIFI_DISABLE"
  const ActionReenable: string := "net.orleaf.android.wifistate.ACTION_WIFI_REENABLE"

  /** A start intent: its action and its `sleep` extra (minutes), if present. */
  datatype Intent = Intent(action: string, sleep: Option<int>)

  /**
   * The service's state: the registered observer, holding the sleep it was
   * created with, and the delays of the enable callbacks posted and not yet
   * run (the platform queues every post).
   */
  datatype Ctl = Ctl(observer: Option<int>, pending: seq<int>)

  const Idle: Ctl := Ctl(None, [])

  /** Calls into the platform. */
  datatype Effect =
    | SetWifiEnabled(enable: bool)
    | RegisterObserver
    | UnregisterObserver
    | PostEnable(delayMs: int)
    | RemoveEnable

  /**
   * Events: a start command (the intent, null allowed, and the radio state
   * the service reads), a radio state broadcast, the delayed enable callback
   * running, and destruction.
   */
  datatype Event =
    | Start(intent: Option<Intent>, radio: Radio)
    | WifiStateChanged(state: Radio)
    | EnableFires
    | Destroy

  /** `sleep * 60 * 1000` in Java `int` arithmetic. */
  function DelayMs(sleep: int): int {
    Wrap32(Wrap32(sleep * 60) * 1000)
  }

  /** `cancelReenable`: remove every posted callback, and unregister the observer if there is one. */
  function Cancel(c: Ctl): (Ctl, seq<Effect>) {
    (Idle, [RemoveEnable] + (if c.observer.Some? then [UnregisterObserver] else []))
  }

  /** `enableWifi(boolean)`: request the radio state, then cancel. */
  function EnableWifi(c: Ctl, enable: bool): (Ctl, seq<Effect>) {
    var (c', fx) := Cancel(c);
    (c', [SetWifiEnabled(enable)] + fx)
  }

  /**
   * `reenableWifi`: on a disabled radio, enable at once; otherwise request
   * disable and register an observer unless one exists, which keeps its own
   * sleep.
   */
  function Reenable(c: Ctl, radio: Radio, sleep: int): (Ctl, seq<Effect>) {
    if radio == RadioDisabled then EnableWifi(c, true)
    else if c.observer.None? then (c.(observer := Some(sleep)), [SetWifiEnabled(false), RegisterObserver])
    else (c, [SetWifiEnabled(false)])
  }

  /** `handleCommand`: a null intent or an unknown action does nothing. */
  function Dispatch(c: Ctl, intent: Option<Intent>, radio: Radio): (Ctl, seq<Effect>) {
    if intent.None? then (c, [])
    else if intent.value.action == ActionEnable then EnableWifi(c, true)
    else if intent.value.action == ActionDisable then EnableWifi(c, false)
    else if intent.value.action == ActionReenable then
      Reenable(c, radio, if intent.value.sleep.Some? then intent.value.sleep.value else 0)
    else (c, [])
  }

  function Step(c: Ctl, e: Event): (Ctl, seq<Effect>) {
    match e
    case Start(intent, radio) => Dispatch(c, intent, radio)
    case WifiStateChanged(state) =>
      if c.observer.Some? && state == RadioDisabled then
        var d := DelayMs(c.observer.value);
        (c.(pending := c.pending + [d]), [PostEnable(d)])
      else (c, [])
    case EnableFires =>
      if |c.pending| > 0 then
        var (c1, fx1) := EnableWifi(c, true);
        var (c2, fx2) := Cancel(c1);
        (c2, fx1 + fx2)
      else (c, [])
    case Destroy => Cancel(c)
  }

  /** The state after a sequence of events, and every effect issued on the way. */
  function Run(c: Ctl, es: seq<Event>): (Ctl, seq<Effect>)
    decreases |es|
  {
    if |es| == 0 then (c, [])
    else
      var (c1, fx1) := Step(c, es[0]);
      var (c2, fx2) := Run(c1, es[1..]);
      (c2, fx1 + fx2)
  }

  /** `startService`: the intent it sends; the two-argument form sends a sleep of 0. */
  function StartServiceIntent(action: string, sleep: int): Intent {
    Intent(action, Some(sleep))
  }

  /** The `WifiStateCore` version reports whether the platform returned a component. */
  function StartService(action: string, sleep: int, component: Option<string>): (r: (Intent, bool))
    ensures r.1 <==> component.Some?
    ensures r.0.action == action && r.0.sleep == Some(sleep)
  {
    (StartServiceIntent(action, sleep), component.Some?)
  }

  /** Registered observers: 1 while one exists. */
  function Registered(c: Ctl): int {
    if c.observer.Some? then 1 else 0
  }

  /** Net registrations in a list of effects. */
  function Net(fx: seq<Effect>): int
    decreases |fx|
  {
    if |fx| == 0 then 0
    else (if fx[0] == RegisterObserver then 1 else if fx[0] == UnregisterObserver then -1 else 0) + Net(fx[1..])
  }

  lemma {:induction false} NetAppend(a: seq<Effect>, b: seq<Effect>)
    ensures Net(a + b) == Net(a) + Net(b)
    decreases |a|
  {
    if |a| > 0 {
      assert (a + b)[1..] == a[1..] + b;
      NetAppend(a[1..], b);
    } else {
      assert a + b == b;
    }
  }

  /** Cancelling unregisters exactly the observer held. */
  lemma CancelNet(c: Ctl)
    ensures Net(Cancel(c).1) == -Registered(c)
  {
    var fx := Cancel(c).1;
    assert fx[1..] == (if c.observer.Some? then [UnregisterObserver] else []);
    assert Net([UnregisterObserver]) == -1 by {
      assert [UnregisterObserver][1..] == [];
    }
  }

  lemma EnableNet(c: Ctl, enable: bool)
    ensures Net(EnableWifi(c, enable).1) == -Registered(c)
  {
    CancelNet(c);
    assert EnableWifi(c, enable).1[1..] == Cancel(c).1;
  }

  // ------------------------------------------------------------ properties

  /** A null intent, or an action the service does not know, changes nothing and calls nothing. */
  lemma IgnoredCommands(c: Ctl, intent: Option<Intent>, radio: Radio)
    requires intent.None? || intent.value.action !in {ActionEnable, ActionDisable, ActionReenable}
    ensures Step(c, Start(intent, radio)) == (c, [])
  {
  }

  /** Enable and disable request the radio state first, then cancel both the callbacks and the observer: the service ends idle. */
  lemma EnableDisableIdle(c: Ctl, enable: bool, sleep: Option<int>, radio: Radio)
    ensures var (c', fx) := Step(c, Start(Some(Intent(if enable then ActionEnable else ActionDisable, sleep)), radio));
      && c' == Idle
      && fx[0] == SetWifiEnabled(enable)
      && RemoveEnable in fx
      && (UnregisterObserver in fx <==> c.observer.Some?)
  {
  }

  /** Re-enable on a radio already disabled is exactly enable. */
  lemma ReenableOnDisabled(c: Ctl, sleep: Option<int>, other: Option<int>)
    ensures Step(c, Start(Some(Intent(ActionReenable, sleep)), RadioDisabled))
         == Step(c, Start(Some(Intent(ActionEnable, other)), RadioDisabled))
  {
  }

  /**
   * Otherwise re-enable requests disable and registers an observer only if
   * none exists; an existing observer keeps the sleep of the first request.
   * An absent sleep extra means 0.
   */
  lemma ReenableRegistersOnce(c: Ctl, sleep: Option<int>, radio: Radio)
    requires radio != RadioDisabled
    ensures var (c', fx) := Step(c, Start(Some(Intent(ActionReenable, sleep)), radio));
      && fx[0] == SetWifiEnabled(false)
      && c'.observer.Some? && c'.pending == c.pending
      && (c.observer.Some? ==> c'.observer == c.observer && fx == [SetWifiEnabled(false)])
      && (c.observer.None? ==> c'.observer == Some(if sleep.Some? then sleep.value else 0) && RegisterObserver in fx)
  {
  }

  /** The observer reacts only to DISABLED, by posting an enable after sleep·60·1000 ms; every such broadcast posts again. */
  lemma ObserverPostsDelay(c: Ctl, state: Radio)
    requires c.observer.Some?
    ensures state != RadioDisabled ==> Step(c, WifiStateChanged(state)) == (c, [])
    ensures state == RadioDisabled ==>
      Step(c, WifiStateChanged(state)) == (c.(pending := c.pending + [DelayMs(c.observer.value)]), [PostEnable(DelayMs(c.observer.value))])
  {
  }

  /** Within Java `int` range the delay is the plain product; from 35792 minutes on it wraps negative. */
  lemma DelayArithmetic(sleep: int)
    ensures 0 <= sleep <= 35791 ==> DelayMs(sleep) == sleep * 60000
    ensures DelayMs(35792) < 0
  {
  }

  /** The delayed enable, when one is posted, enables the radio and returns the service to idle. */
  lemma CallbackReturnsIdle(c: Ctl)
    requires |c.pending| > 0
    ensures Step(c, EnableFires).0 == Idle
    ensures Step(c, EnableFires).1[0] == SetWifiEnabled(true)
  {
  }

  /** Destruction cancels everything. */
  lemma DestroyIdle(c: Ctl)
    ensures Step(c, Destroy).0 == Idle
    ensures UnregisterObserver in Step(c, Destroy).1 <==> c.observer.Some?
  {
  }

  /** Each event registers or unregisters exactly as much as the observer state changes. */
  lemma StepBalance(c: Ctl, e: Event)
    ensures Net(Step(c, e).1) == Registered(Step(c, e).0) - Registered(c)
  {
    match e {
      case Start(intent, radio) =>
        if intent.Some? {
          var sleep := if intent.value.sleep.Some? then intent.value.sleep.value else 0;
          if intent.value.action == ActionEnable || intent.value.action == ActionDisable
             || (intent.value.action == ActionReenable && radio == RadioDisabled) {
            EnableNet(c, true);
            EnableNet(c, false);
          } else if intent.value.action == ActionReenable && c.observer.None? {
            var fx := [SetWifiEnabled(false), RegisterObserver];
            assert fx[1..][1..] == [];
          } else if intent.value.action == ActionReenable {
            assert [SetWifiEnabled(false)][1..] == [];
          }
        }
      case WifiStateChanged(state) =>
        if c.observer.Some? && state == RadioDisabled {
          assert [PostEnable(DelayMs(c.observer.value))][1..] == [];
        }
      case EnableFires =>
        if |c.pending| > 0 {
          EnableNet(c, true);
          CancelNet(Idle);
          NetAppend(EnableWifi(c, true).1, Cancel(Idle).1);
        }
      case Destroy =>
        CancelNet(c);
    }
  }

  /**
   * Over any run, the registrations issued net out to the change in the
   * observer state: the service never holds two observers and never
   * unregisters one it does not hold.
   */
  lemma {:induction false} RunBalance(c: Ctl, es: seq<Event>)
    ensures Net(Run(c, es).1) == Registered(Run(c, es).0) - Registered(c)
    decreases |es|
  {
    if |es| > 0 {
      var (c1, fx1) := Step(c, es[0]);
      StepBalance(c, es[0]);
      RunBalance(c1, es[1..]);
      NetAppend(fx1, Run(c1, es[1..]).1);
    }
  }

  /** Whether an observer is held after replaying `fx` from `held`. */
  function HeldAfter(held: bool, fx: seq<Effect>): bool
    decreases |fx|
  {
    if |fx| == 0 then held
    else HeldAfter(if fx[0] == RegisterObserver then true else if fx[0] == UnregisterObserver then false else held, fx[1..])
  }

  /**
   * Replaying `fx` from `held`, no effect registers while an observer is
   * held and none unregisters while none is.
   */
  predicate Disciplined(held: bool, fx: seq<Effect>)
    decreases |fx|
  {
    |fx| == 0
    || (&& (fx[0] == RegisterObserver ==> !held)
        && (fx[0] == UnregisterObserver ==> held)
        && Disciplined(if fx[0] == RegisterObserver then true else if fx[0] == UnregisterObserver then false else held, fx[1..]))
  }

  lemma {:induction false} DisciplinedAppend(held: bool, a: seq<Effect>, b: seq<Effect>)
    requires Disciplined(held, a) && Disciplined(HeldAfter(held, a), b)
    ensures Disciplined(held, a + b)
    ensures HeldAfter(held, a + b) == HeldAfter(HeldAfter(held, a), b)
    decreases |a|
  {
    if |a| > 0 {
      assert (a + b)[1..] == a[1..] + b;
      DisciplinedAppend(if a[0] == RegisterObserver then true else if a[0] == UnregisterObserver then false else held, a[1..], b);
    } else {
      assert a + b == b;
    }
  }

  lemma CancelDisciplined(c: Ctl)
    ensures Disciplined(c.observer.Some?, Cancel(c).1)
    ensures !HeldAfter(c.observer.Some?, Cancel(c).1)
  {
    var fx := Cancel(c).1;
    assert fx[1..] == (if c.observer.Some? then [UnregisterObserver] else []);
    assert [UnregisterObserver][1..] == [];
  }

  lemma EnableDisciplined(c: Ctl, enable: bool)
    ensures Disciplined(c.observer.Some?, EnableWifi(c, enable).1)
    ensures !HeldAfter(c.observer.Some?, EnableWifi(c, enable).1)
  {
    CancelDisciplined(c);
    assert EnableWifi(c, enable).1[1..] == Cancel(c).1;
  }

  /** Each event's effects are disciplined from the observer it starts with and leave the observer it ends with. */
  lemma StepDisciplined(c: Ctl, e: Event)
    ensures Disciplined(c.observer.Some?, Step(c, e).1)
    ensures HeldAfter(c.observer.Some?, Step(c, e).1) == Step(c, e).0.observer.Some?
  {
    match e {
      case Start(intent, radio) =>
        if intent.Some? {
          if intent.value.action == ActionEnable || intent.value.action == ActionDisable
             || (intent.value.action == ActionReenable && radio == RadioDisabled) {
            EnableDisciplined(c, true);
            EnableDisciplined(c, false);
          } else if intent.value.action == ActionReenable && c.observer.None? {
            var fx := [SetWifiEnabled(false), RegisterObserver];
            assert fx[1..][1..] == [];
          } else if intent.value.action == ActionReenable {
            assert [SetWifiEnabled(false)][1..] == [];
          }
        }
      case WifiStateChanged(state) =>
        if c.observer.Some? && state == RadioDisabled {
          assert [PostEnable(DelayMs(c.observer.value))][1..] == [];
        }
      case EnableFires =>
        if |c.pending| > 0 {
          EnableDisciplined(c, true);
          CancelDisciplined(Idle);
          DisciplinedAppend(c.observer.Some?, EnableWifi(c, true).1, Cancel(Idle).1);
        }
      case Destroy =>
        CancelDisciplined(c);
    }
  }

  /**
   * Over any run, at every point of the issued effects the service holds at
   * most one observer: it never registers a second one and never
   * unregisters one it does not hold; the observer it ends with is the one
   * the effects leave.
   */
  lemma {:induction false} RunDisciplined(c: Ctl, es: seq<Event>)
    ensures Disciplined(c.observer.Some?, Run(c, es).1)
    ensures HeldAfter(c.observer.Some?, Run(c, es).1) == Run(c, es).0.observer.Some?
    decreases |es|
  {
    if |es| > 0 {
      var (c1, fx1) := Step(c, es[0]);
      StepDisciplined(c, es[0]);
      RunDisciplined(c1, es[1..]);
      DisciplinedAppend(c.observer.Some?, fx1, Run(c1, es[1..]).1);
    }
  }

  /** An intent built by `startService` dispatches to the handler it names; the two-argument form behaves like a sleep of 0. */
  lemma StartServiceRoundTrip(c: Ctl, radio: Radio, sleep: int)
    ensures Dispatch(c, Some(StartServiceIntent(ActionReenable, sleep)), radio) == Reenable(c, radio, sleep)
    ensures Dispatch(c, Some(StartServiceIntent(ActionReenable, 0)), radio) == Dispatch(c, Some(Intent(ActionReenable, None)), radio)
    ensures Dispatch(c, Some(StartServiceIntent(ActionEnable, sleep)), radio) == EnableWifi(c, true)
    ensures Dispatch(c, Some(StartServiceIntent(ActionDisable, sleep)), radio) == EnableWifi(c, false)
  {
  }
}
