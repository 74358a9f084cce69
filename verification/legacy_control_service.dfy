/**
 * The earliest radio control service (`src/net/orleaf/.../WifiStateControlService`):
 * re-enable has no delay, the observer enables as soon as it sees DISABLED,
 * and there is no callback to cancel.
 */
module LegacyControlService {
  import opened Common
  import opened Signals
  import CS = ControlService

  /** The only state: whether the disable observer is registered. */
  datatype Ctl = Ctl(observing: bool)

  const Idle: Ctl := Ctl(false)

  datatype Effect = SetWifiEnabled(enable: bool) | RegisterObserver | UnregisterObserver

  /**
   * A start command (the action of its intent, `None` for a null intent,
   * and the radio state read), a radio state broadcast, or destruction.
   */
  datatype Event = Start(action: Option<string>, radio: Radio) | WifiStateChanged(state: Radio) | Destroy

  /** `cancelReenable`: unregister the observer if there is one. */
  function Cancel(c: Ctl): (Ctl, seq<Effect>) {
    (Idle, if c.observing then [UnregisterObserver] else [])
  }

  /** `enableWifi(boolean)`: request the radio state, then cancel. */
  function EnableWifi(c: Ctl, enable: bool): (Ctl, seq<Effect>) {
    (Idle, [SetWifiEnabled(enable)] + Cancel(c).1)
  }

  /** `reenableWifi`: enable a disabled radio at once, otherwise disable and watch for DISABLED. */
  function Reenable(c: Ctl, radio: Radio): (Ctl, seq<Effect>) {
    if radio == RadioDisabled then EnableWifi(c, true)
    else if !c.observing then (Ctl(true), [SetWifiEnabled(false), RegisterObserver])
    else (c, [SetWifiEnabled(false)])
  }

  function Step(c: Ctl, e: Event): (Ctl, seq<Effect>) {
    match e
    case Start(action, radio) =>
      if action == Some(CS.ActionEnable) then EnableWifi(c, true)
      else if action == Some(CS.ActionDisable) then EnableWifi(c, false)
      else if action == Some(CS.ActionReenable) then Reenable(c, radio)
      else (c, [])
    case WifiStateChanged(state) =>
      if c.observing && state == RadioDisabled then EnableWifi(c, true) else (c, [])
    case Destroy => Cancel(c)
  }

  /** `startSerivce`: true exactly when the platform started a component. */
  function StartService(action: string, component: Option<string>): (r: (Option<string>, bool))
    ensures r.1 <==> component.Some?
    ensures r.0 == Some(action)
  {
    (Some(action), component.Some?)
  }

  function Run(c: Ctl, es: seq<Event>): (Ctl, seq<Effect>)
    decreases |es|
  {
    if |es| == 0 then (c, [])
    else
      var (c1, fx1) := Step(c, es[0]);
      var (c2, fx2) := Run(c1, es[1..]);
      (c2, fx1 + fx2)
  }

  /** The effects of a run, in the same form as the current version's, for comparison. */
  function AsCurrent(fx: seq<Effect>): (r: seq<CS.Effect>)
    ensures |r| == |fx|
    decreases |fx|
  {
    if |fx| == 0 then []
    else
      [match fx[0]
       case SetWifiEnabled(b) => CS.SetWifiEnabled(b)
       case RegisterObserver => CS.RegisterObserver
       case UnregisterObserver => CS.UnregisterObserver]
      + AsCurrent(fx[1..])
  }

  lemma {:induction false} AsCurrentAppend(a: seq<Effect>, b: seq<Effect>)
    ensures AsCurrent(a + b) == AsCurrent(a) + AsCurrent(b)
    decreases |a|
  {
    if |a| > 0 {
      assert (a + b)[1..] == a[1..] + b;
      AsCurrentAppend(a[1..], b);
    } else {
      assert a + b == b;
    }
  }

  function Registered(c: Ctl): int {
    if c.observing then 1 else 0
  }

  // ------------------------------------------------------------ properties

  /** A null intent or an action the service does not know changes nothing and calls nothing. */
  lemma IgnoredCommands(c: Ctl, action: Option<string>, radio: Radio)
    requires action.None? || action.value !in {CS.ActionEnable, CS.ActionDisable, CS.ActionReenable}
    ensures Step(c, Start(action, radio)) == (c, [])
  {
  }

  /** Enable and disable request the radio state and always unregister an observer that exists. */
  lemma EnableDisableIdle(c: Ctl, enable: bool, radio: Radio)
    ensures var (c', fx) := Step(c, Start(Some(if enable then CS.ActionEnable else CS.ActionDisable), radio));
      c' == Idle && fx[0] == SetWifiEnabled(enable) && (UnregisterObserver in fx <==> c.observing)
  {
  }

  /** Re-enable on a disabled radio enables immediately; otherwise it disables and registers at most one observer. */
  lemma ReenableRule(c: Ctl, radio: Radio)
    ensures radio == RadioDisabled ==> Step(c, Start(Some(CS.ActionReenable), radio)) == EnableWifi(c, true)
    ensures radio != RadioDisabled ==>
      var (c', fx) := Step(c, Start(Some(CS.ActionReenable), radio));
      c'.observing && fx[0] == SetWifiEnabled(false) && (RegisterObserver in fx <==> !c.observing)
  {
  }

  /** The observer enables as soon as it sees DISABLED, with no delay, and that enable leaves the service idle. */
  lemma ObserverEnablesAtOnce(c: Ctl)
    requires c.observing
    ensures Step(c, WifiStateChanged(RadioDisabled)) == (Idle, [SetWifiEnabled(true), UnregisterObserver])
  {
    assert [SetWifiEnabled(true)] + [UnregisterObserver] == [SetWifiEnabled(true), UnregisterObserver];
  }

  /**
   * Compared with the current version: a disable-then-DISABLED sequence
   * enables right away here, where the current one only posts the delayed
   * enable and keeps its observer.
   */
  lemma NoDelayUnlikeCurrent(radio: Radio, sleep: int)
    requires radio != RadioDisabled
    ensures var (c1, fx1) := Step(Idle, Start(Some(CS.ActionReenable), radio));
      var (c2, fx2) := Step(c1, WifiStateChanged(RadioDisabled));
      c2 == Idle && fx1 + fx2 == [SetWifiEnabled(false), RegisterObserver, SetWifiEnabled(true), UnregisterObserver]
    ensures var (c1, fx1) := CS.Step(CS.Idle, CS.Start(Some(CS.Intent(CS.ActionReenable, Some(sleep))), radio));
      var (c2, fx2) := CS.Step(c1, CS.WifiStateChanged(RadioDisabled));
      c2 == CS.Ctl(Some(sleep), [CS.DelayMs(sleep)]) && fx1 + fx2 == [CS.SetWifiEnabled(false), CS.RegisterObserver, CS.PostEnable(CS.DelayMs(sleep))]
  {
    assert [SetWifiEnabled(true)] + [UnregisterObserver] == [SetWifiEnabled(true), UnregisterObserver];
  }

  /** The registration weight of one effect. */
  function Weight(f: Effect): int {
    match f
    case RegisterObserver => 1
    case UnregisterObserver => -1
    case SetWifiEnabled(_) => 0
  }

  /** The translated net count unfolds one effect at a time. */
  lemma NetCons(fx: seq<Effect>)
    requires |fx| > 0
    ensures CS.Net(AsCurrent(fx)) == Weight(fx[0]) + CS.Net(AsCurrent(fx[1..]))
  {
    assert AsCurrent(fx)[1..] == AsCurrent(fx[1..]);
  }

  /** Each event registers or unregisters exactly as much as the observer state changes. */
  lemma StepBalance(c: Ctl, e: Event)
    ensures CS.Net(AsCurrent(Step(c, e).1)) == Registered(Step(c, e).0) - Registered(c)
  {
    var fx := Step(c, e).1;
    assert |fx| <= 2;
    if |fx| > 0 {
      NetCons(fx);
      if |fx| == 2 {
        NetCons(fx[1..]);
        assert fx[1..][1..] == [];
      } else {
        assert fx[1..] == [];
      }
    }
  }

  /** Over any run, the registrations issued net out to the change in the observer state. */
  lemma {:induction false} RunBalance(c: Ctl, es: seq<Event>)
    ensures CS.Net(AsCurrent(Run(c, es).1)) == Registered(Run(c, es).0) - Registered(c)
    decreases |es|
  {
    if |es| > 0 {
      var (c1, fx1) := Step(c, es[0]);
      StepBalance(c, es[0]);
      RunBalance(c1, es[1..]);
      AsCurrentAppend(fx1, Run(c1, es[1..]).1);
      CS.NetAppend(AsCurrent(fx1), AsCurrent(Run(c1, es[1..]).1));
    }
  }

  /** Enable and disable, read as the current version's effects, are disciplined and leave no observer. */
  lemma EnableDisciplined(c: Ctl, enable: bool)
    ensures CS.Disciplined(c.observing, AsCurrent(EnableWifi(c, enable).1))
    ensures !CS.HeldAfter(c.observing, AsCurrent(EnableWifi(c, enable).1))
  {
    if c.observing {
      assert AsCurrent(EnableWifi(c, enable).1) == [CS.SetWifiEnabled(enable), CS.UnregisterObserver];
      assert [CS.SetWifiEnabled(enable), CS.UnregisterObserver][1..] == [CS.UnregisterObserver];
      assert !CS.HeldAfter(true, [CS.UnregisterObserver]) by {
        assert [CS.UnregisterObserver][1..] == [];
      }
    } else {
      assert AsCurrent(EnableWifi(c, enable).1) == [CS.SetWifiEnabled(enable)];
      assert [CS.SetWifiEnabled(enable)][1..] == [];
    }
  }

  /** Each event's effects, read as the current version's, are disciplined from the observer it starts with. */
  lemma StepDisciplined(c: Ctl, e: Event)
    ensures CS.Disciplined(c.observing, AsCurrent(Step(c, e).1))
    ensures CS.HeldAfter(c.observing, AsCurrent(Step(c, e).1)) == Step(c, e).0.observing
  {
    match e {
      case Start(action, radio) =>
        EnableDisciplined(c, true);
        EnableDisciplined(c, false);
        if action == Some(CS.ActionReenable) && radio != RadioDisabled {
          if !c.observing {
            assert AsCurrent(Step(c, e).1) == [CS.SetWifiEnabled(false), CS.RegisterObserver];
            assert [CS.SetWifiEnabled(false), CS.RegisterObserver][1..][1..] == [];
          } else {
            assert AsCurrent(Step(c, e).1) == [CS.SetWifiEnabled(false)];
            assert [CS.SetWifiEnabled(false)][1..] == [];
          }
        }
      case WifiStateChanged(state) =>
        EnableDisciplined(c, true);
      case Destroy =>
        if c.observing {
          assert AsCurrent(Step(c, e).1) == [CS.UnregisterObserver];
          assert [CS.UnregisterObserver][1..] == [];
        }
    }
  }

  /**
   * Over any run, at every point of the issued effects the service holds at
   * most one observer: it never registers a second one and never
   * unregisters one it does not hold.
   */
  lemma {:induction false} RunDisciplined(c: Ctl, es: seq<Event>)
    ensures CS.Disciplined(c.observing, AsCurrent(Run(c, es).1))
    ensures CS.HeldAfter(c.observing, AsCurrent(Run(c, es).1)) == Run(c, es).0.observing
    decreases |es|
  {
    if |es| > 0 {
      var (c1, fx1) := Step(c, es[0]);
      StepDisciplined(c, es[0]);
      RunDisciplined(c1, es[1..]);
      AsCurrentAppend(fx1, Run(c1, es[1..]).1);
      CS.DisciplinedAppend(c.observing, AsCurrent(fx1), AsCurrent(Run(c1, es[1..]).1));
    }
  }
}
