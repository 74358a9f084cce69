/**
 * The notification controller (`WifiStateReceiver` in `app/.../core` and its
 * `WifiStateCore` predecessor): one broadcast at a time, it classifies the
 * platform's signals, keeps the notification in step with the state, starts
 * or stops the reachability monitor, asks the radio control service for a
 * re-enable after repeated ping failures, and clears a clearable
 * notification three seconds after it appeared.
 *
 * The receiver's static fields become the record `Rx`; everything it does to
 * the platform becomes a list of `Command`s.
 */
module Receiver {
  import opened Common
  import opened Signals
  import opened Prefs
  import NS = NetworkStateInfo
  import CS = ControlService

  /** Which receiver: the current one or the `WifiStateCore` one. */
  datatype Era = Current | Core

  /** The build: era, the DEBUG flag, and LITE_VERSION (free version in `WifiStateCore`). */
  datatype Build = Build(era: Era, debug: bool, lite: bool)

  /** The static fields: the classifier instance (null after a clear), whether the data-state listener is registered, the stored reachability flag. */
  datatype Rx = Rx(info: Option<NS.Info>, listening: bool, reachable: bool)

  /** The fields when the class is loaded. */
  const Loaded: Rx := Rx(None, false, false)

  /** The delay of the clear alarm, in milliseconds. */
  const ClearDelayMs: int := 3000

  /**
   * The intent actions the receiver tells apart.  `ReachabilityAction`
   * carries the reachable extra (`None` when absent) and the debug counters;
   * `PackageReplaced` says whether the data names this package.  Every
   * platform broadcast (radio, supplicant, connectivity) is `OtherAction`.
   */
  datatype Action =
    | NoAction
    | PackageReplaced(ours: bool)
    | ReachabilityAction(reachable: Option<bool>, ok: int, total: int)
    | PingFailAction
    | ClearAlarm
    | OtherAction

  /** The platform values read while handling one event. */
  datatype Env = Env(sig: Snapshot, wifiIp: int, dhcpIp: int, interfaceAddress: Option<string>, gateway: int)

  /** A broadcast, or the data-state listener's callback. */
  datatype Event = Broadcast(action: Action) | DataStateChanged

  /** The notification title: the application name, or "type: name". */
  datatype Title = AppName | Titled(text: string)

  /** The body: the state text and, in debug builds, the ping counters appended. */
  datatype Body = Body(text: NS.DetailText, counters: Option<(int, int)>)

  datatype Notification = Notification(icon: Icon, title: Title, body: Body, ongoing: bool)

  datatype Command =
    | Notify(n: Notification)
    | CancelNotification
    | StartPing(target: Option<string>)
    | StopPing
    | StartControl(intent: CS.Intent)
    | ScheduleClear(delayMs: int)
    | ListenData
    | UnlistenData

  /** The state text shown in the body; `getStateMessage` of the `WifiStateCore` classifier is taken to be the stored detail. */
  function BodyText(b: Build, info: NS.Info, env: Env): (t: NS.DetailText)
    ensures b.era == Core ==> (t.KeyText? <==> info.detail.Some?) && !t.IpText?
  {
    match b.era
    case Current => NS.StateDetail(info, NS.MyIpAddress(info.state, env.wifiIp, env.dhcpIp, env.interfaceAddress))
    case Core => if info.detail.Some? then NS.KeyText(info.detail.value) else NS.NoDetail
  }

  /** `showNotificationIcon`: the notification for a state with a given icon and optional counters. */
  function Show(b: Build, info: NS.Info, icon: Icon, counters: Option<(int, int)>, prefs: Prefs, env: Env): (n: Notification)
    ensures n.icon == icon && n.body.counters == counters
    ensures n.ongoing <==> !prefs.clearable
    ensures n.title.Titled? <==> b.era == Current && info.networkName.Some?
    ensures n.title.Titled? ==> n.title.text == NS.NetworkType(info.state) + ": " + info.networkName.value
  {
    var title := if b.era == Current && info.networkName.Some? then Titled(NS.NetworkType(info.state) + ": " + info.networkName.value) else AppName;
    Notification(icon, title, Body(BodyText(b, info, env), counters), !prefs.clearable)
  }

  /**
   * Whether a changed state touches the monitor at all: the current receiver
   * starts or stops it in every full build; the `WifiStateCore` one only when
   * the ping preference is on, so with it off neither start nor stop is sent.
   */
  predicate PingTouched(b: Build, prefs: Prefs) {
    !b.lite && (b.era == Current || prefs.ping)
  }

  /** The ping rule of `updateState`: whether a changed state starts the monitor. */
  predicate PingWanted(b: Build, s: State, prefs: Prefs) {
    match b.era
    case Current => prefs.ping && (s == WifiConnected || (s == MobileConnected && prefs.pingOnMobile))
    case Core => prefs.ping && NS.IsConnected(s)
  }

  /**
   * `updateState`: classify; on no change only the latch is kept, otherwise
   * show the state's notification, start or stop the monitor (not in a lite
   * or free build), and arm the clear alarm when the new state is clearable.
   */
  function UpdateState(b: Build, rx: Rx, info: NS.Info, prefs: Prefs, env: Env): (r: (Rx, seq<Command>))
    ensures var o := NS.Update(info, env.sig, prefs);
      && r.0.info == Some(o.info) && r.0.listening == rx.listening
      && (!o.changed ==> r.1 == [] && r.0.reachable == rx.reachable)
      && (o.changed ==> |r.1| > 0 && r.1[0] == Notify(Show(b, o.info, IconOf(o.info.state), None, prefs, env)))
      && (ScheduleClear(ClearDelayMs) in r.1 <==> o.changed && NS.IsClearable(o.info.state, prefs))
      && ((exists t :: StartPing(t) in r.1) <==> o.changed && PingTouched(b, prefs) && PingWanted(b, o.info.state, prefs))
      && (StopPing in r.1 <==> o.changed && PingTouched(b, prefs) && !PingWanted(b, o.info.state, prefs))
      && (r.0.reachable != rx.reachable ==> r.0.reachable)
    ensures NoListenCommands(r.1)
    ensures forall k :: 0 <= k < |r.1| && r.1[k].ScheduleClear? ==> k == |r.1| - 1
    ensures NoCounters(r.1)
  {
    var o := NS.Update(info, env.sig, prefs);
    if !o.changed then (rx.(info := Some(o.info)), [])
    else
      var s := o.info.state;
      var show := [Notify(Show(b, o.info, IconOf(s), None, prefs, env))];
      var start := PingTouched(b, prefs) && PingWanted(b, s, prefs);
      var ping := if !PingTouched(b, prefs) then [] else if start then [StartPing(NS.GatewayIpAddress(s, env.gateway))] else [StopPing];
      var alarm := if NS.IsClearable(s, prefs) then [ScheduleClear(ClearDelayMs)] else [];
      assert start ==> StartPing(NS.GatewayIpAddress(s, env.gateway)) in show + ping + alarm;
      (Rx(Some(o.info), rx.listening, if start then true else rx.reachable), show + ping + alarm)
  }

  /** `clearNotification` and `disable`: cancel the notification, drop the listener, discard the classifier. */
  function Clear(rx: Rx): (r: (Rx, seq<Command>))
    ensures r.0.info.None? && !r.0.listening && r.0.reachable == rx.reachable
    ensures |r.1| > 0 && r.1[0] == CancelNotification
    ensures UnlistenData in r.1 <==> rx.listening
  {
    (Rx(None, false, rx.reachable), [CancelNotification] + (if rx.listening then [UnlistenData] else []))
  }

  /** A reachability report: acted on only while connected and only when the flag flips; it never reclassifies. */
  function Reachability(b: Build, rx: Rx, info: NS.Info, flag: Option<bool>, ok: int, total: int, prefs: Prefs, env: Env): (r: (Rx, seq<Command>))
    ensures r.0.info == Some(info) && r.0.listening == rx.listening
    ensures var reachable := if flag.Some? then flag.value else true;
      && (|r.1| > 0 <==> NS.IsConnected(info.state) && reachable != rx.reachable)
      && (|r.1| > 0 ==> r.0.reachable == reachable)
      && (|r.1| > 0 ==> r.1 == [Notify(Show(b, info, if reachable then IconOf(info.state) else IconWarn, if b.debug then Some((ok, total)) else None, prefs, env))])
      && (|r.1| == 0 ==> r.0.reachable == rx.reachable)
  {
    var reachable := if flag.Some? then flag.value else true;
    if NS.IsConnected(info.state) && reachable != rx.reachable then
      var icon := if reachable then IconOf(info.state) else IconWarn;
      var counters := if b.debug then Some((ok, total)) else None;
      (Rx(Some(info), rx.listening, reachable), [Notify(Show(b, info, icon, counters, prefs, env))])
    else (rx.(info := Some(info)), [])
  }

  /** The repeated-failure report: ask for a re-enable with the configured period when so configured and on Wi-Fi. */
  function PingFail(rx: Rx, info: NS.Info, prefs: Prefs): (r: (Rx, seq<Command>))
    ensures r.0 == rx.(info := Some(info))
    ensures |r.1| > 0 <==> prefs.pingDisableWifiOnFail && NS.IsWifiConnected(info.state)
    ensures |r.1| > 0 ==> r.1 == [StartControl(CS.Intent(CS.ActionReenable, Some(prefs.pingDisableWifiPeriod)))]
  {
    var fx := if prefs.pingDisableWifiOnFail && NS.IsWifiConnected(info.state)
      then [StartControl(CS.StartServiceIntent(CS.ActionReenable, prefs.pingDisableWifiPeriod))] else [];
    (rx.(info := Some(info)), fx)
  }

  /** The receiver's reaction to one event. */
  function Step(b: Build, rx: Rx, e: Event, prefs: Prefs, env: Env): (Rx, seq<Command>) {
    match e
    case DataStateChanged =>
      if rx.listening && rx.info.Some? then UpdateState(b, rx, rx.info.value, prefs, env) else (rx, [])
    case Broadcast(action) =>
      if !prefs.enabled then (rx, [])
      else
        var info := if rx.info.Some? then rx.info.value else NS.Initial;
        var listen := !rx.listening && prefs.showDataNetwork;
        var rx0 := Rx(Some(info), rx.listening || listen, rx.reachable);
        var fx0 := if listen then [ListenData] else [];
        var (rx1, fx1) := Dispatch(b, rx0, info, action, prefs, env);
        (rx1, fx0 + fx1)
  }

  /** `onReceive` after the classifier and listener exist. */
  function Dispatch(b: Build, rx: Rx, info: NS.Info, action: Action, prefs: Prefs, env: Env): (Rx, seq<Command>) {
    match action
    case PackageReplaced(ours) => if ours then UpdateState(b, rx, info, prefs, env) else (rx, [])
    case ReachabilityAction(flag, ok, total) => Reachability(b, rx, info, flag, ok, total, prefs, env)
    case PingFailAction =>
      if b.era == Current then PingFail(rx, info, prefs) else UpdateState(b, rx, info, prefs, env)
    case ClearAlarm =>
      if NS.IsClearable(info.state, prefs) then Clear(rx) else UpdateState(b, rx, info, prefs, env)
    case NoAction => UpdateState(b, rx, info, prefs, env)
    case OtherAction => UpdateState(b, rx, info, prefs, env)
  }

  /** The receiver after a sequence of events (one environment per event), with every command issued. */
  function Run(b: Build, rx: Rx, es: seq<(Event, Env)>, prefs: Prefs): (Rx, seq<Command>)
    decreases |es|
  {
    if |es| == 0 then (rx, [])
    else
      var (rx1, fx1) := Step(b, rx, es[0].0, prefs, es[0].1);
      var (rx2, fx2) := Run(b, rx1, es[1..], prefs);
      (rx2, fx1 + fx2)
  }

  /** Net listener registrations in a list of commands. */
  function NetListen(fx: seq<Command>): int
    decreases |fx|
  {
    if |fx| == 0 then 0
    else (if fx[0] == ListenData then 1 else if fx[0] == UnlistenData then -1 else 0) + NetListen(fx[1..])
  }

  function Listening(rx: Rx): int {
    if rx.listening then 1 else 0
  }

  // ------------------------------------------------------------ properties

  lemma {:induction false} NetListenAppend(a: seq<Command>, c: seq<Command>)
    ensures NetListen(a + c) == NetListen(a) + NetListen(c)
    decreases |a|
  {
    if |a| > 0 {
      assert (a + c)[1..] == a[1..] + c;
      NetListenAppend(a[1..], c);
    } else {
      assert a + c == c;
    }
  }

  /** Commands with no listener registration in them. */
  predicate NoListenCommands(fx: seq<Command>) {
    forall k :: 0 <= k < |fx| ==> fx[k] != ListenData && fx[k] != UnlistenData
  }

  lemma {:induction false} NetListenNone(fx: seq<Command>)
    requires NoListenCommands(fx)
    ensures NetListen(fx) == 0
    decreases |fx|
  {
    if |fx| > 0 {
      NetListenNone(fx[1..]);
    }
  }

  /** With the enabled preference off a broadcast changes nothing and issues nothing. */
  lemma DisabledIgnoresBroadcasts(b: Build, rx: Rx, action: Action, prefs: Prefs, env: Env)
    requires !prefs.enabled
    ensures Step(b, rx, Broadcast(action), prefs, env) == (rx, [])
  {
  }

  /** The first enabled broadcast creates the classifier and registers the listener once when mobile data is shown. */
  lemma BroadcastCreatesState(b: Build, rx: Rx, action: Action, prefs: Prefs, env: Env)
    requires prefs.enabled && !(action.ClearAlarm? && rx.info.Some? && NS.IsClearable(rx.info.value.state, prefs))
    requires !(action.ClearAlarm? && rx.info.None? && NS.IsClearable(NS.Initial.state, prefs))
    ensures var (rx', fx) := Step(b, rx, Broadcast(action), prefs, env);
      && rx'.info.Some?
      && rx'.listening == (rx.listening || prefs.showDataNetwork)
      && (ListenData in fx <==> !rx.listening && prefs.showDataNetwork)
  {
    var info := if rx.info.Some? then rx.info.value else NS.Initial;
    var listen := !rx.listening && prefs.showDataNetwork;
    var rx0 := Rx(Some(info), rx.listening || listen, rx.reachable);
    var (rx1, fx1) := Dispatch(b, rx0, info, action, prefs, env);
    assert ListenData !in fx1;
  }

  /**
   * A reachability report never reclassifies: the classifier is untouched,
   * and only a connected state whose stored flag differs from the report is
   * re-shown, with the warning icon when unreachable.
   */
  lemma ReachabilityOverlay(b: Build, rx: Rx, info: NS.Info, flag: Option<bool>, ok: int, total: int, prefs: Prefs, env: Env)
    requires prefs.enabled && rx.info == Some(info) && (rx.listening || !prefs.showDataNetwork)
    ensures var (rx', fx) := Step(b, rx, Broadcast(ReachabilityAction(flag, ok, total)), prefs, env);
      var reachable := if flag.Some? then flag.value else true;
      && rx'.info == rx.info
      && (fx != [] <==> NS.IsConnected(info.state) && reachable != rx.reachable)
      && (fx != [] ==> fx[0].Notify? && (fx[0].n.icon == IconWarn <==> !reachable) && rx'.reachable == reachable)
  {
    var r := Reachability(b, rx.(info := Some(info)), info, flag, ok, total, prefs, env);
    assert [] + r.1 == r.1;
    if r.1 != [] {
      IconOfNotWarn(info.state);
    }
  }

  lemma IconOfNotWarn(s: State)
    ensures IconOf(s) != IconWarn
  {
  }

  /** In the current receiver a ping-fail report asks for a re-enable only when so configured and on Wi-Fi, and never reclassifies. */
  lemma PingFailRule(b: Build, rx: Rx, info: NS.Info, prefs: Prefs, env: Env)
    requires b.era == Current && prefs.enabled && rx.info == Some(info) && (rx.listening || !prefs.showDataNetwork)
    ensures var (rx', fx) := Step(b, rx, Broadcast(PingFailAction), prefs, env);
      && rx' == rx
      && (fx != [] <==> prefs.pingDisableWifiOnFail && info.state == WifiConnected)
      && (fx != [] ==> fx == [StartControl(CS.Intent(CS.ActionReenable, Some(prefs.pingDisableWifiPeriod)))])
  {
    assert [] + PingFail(rx, info, prefs).1 == PingFail(rx, info, prefs).1;
  }

  /** The `WifiStateCore` receiver has no ping-fail branch: the report is an ordinary broadcast. */
  lemma CorePingFailFallsThrough(b: Build, rx: Rx, prefs: Prefs, env: Env)
    requires b.era == Core
    ensures Step(b, rx, Broadcast(PingFailAction), prefs, env) == Step(b, rx, Broadcast(OtherAction), prefs, env)
  {
  }

  /**
   * The clear alarm re-checks clearability: still clearable, the
   * notification is cancelled and the classifier and listener discarded;
   * otherwise the alarm is an ordinary broadcast.
   */
  lemma ClearAlarmRechecks(b: Build, rx: Rx, info: NS.Info, prefs: Prefs, env: Env)
    requires prefs.enabled && rx.info == Some(info) && (rx.listening || !prefs.showDataNetwork)
    ensures NS.IsClearable(info.state, prefs) ==>
      var (rx', fx) := Step(b, rx, Broadcast(ClearAlarm), prefs, env);
      rx'.info.None? && !rx'.listening && fx[0] == CancelNotification && (UnlistenData in fx <==> rx.listening)
    ensures !NS.IsClearable(info.state, prefs) ==>
      Step(b, rx, Broadcast(ClearAlarm), prefs, env) == Step(b, rx, Broadcast(OtherAction), prefs, env)
  {
    if NS.IsClearable(info.state, prefs) {
      assert [] + Clear(rx).1 == Clear(rx).1;
    }
  }

  /** When the classifier reports no change nothing is shown, started, stopped or scheduled; only the classifier's latch moves. */
  lemma NoChangeNoCommands(b: Build, rx: Rx, info: NS.Info, prefs: Prefs, env: Env)
    requires prefs.enabled && rx.info == Some(info) && (rx.listening || !prefs.showDataNetwork)
    requires !NS.Update(info, env.sig, prefs).changed
    ensures var (rx', fx) := Step(b, rx, Broadcast(OtherAction), prefs, env);
      fx == [] && rx' == rx.(info := Some(NS.Update(info, env.sig, prefs).info))
  {
    assert [] + UpdateState(b, rx, info, prefs, env).1 == UpdateState(b, rx, info, prefs, env).1;
  }

  /**
   * On a change the current receiver shows the new state's notification,
   * starts the monitor at the gateway with the stored flag reset exactly when
   * ping applies to the new state (Wi-Fi, or mobile data with ping-on-mobile),
   * stops it otherwise, and arms the 3-second clear alarm exactly when the
   * new state is clearable.
   */
  lemma ChangeCommands(b: Build, rx: Rx, info: NS.Info, prefs: Prefs, env: Env)
    requires b.era == Current && !b.lite
    requires NS.Update(info, env.sig, prefs).changed
    ensures var o := NS.Update(info, env.sig, prefs);
      var (rx', fx) := UpdateState(b, rx, info, prefs, env);
      var s := o.info.state;
      var wanted := prefs.ping && (s == WifiConnected || (s == MobileConnected && prefs.pingOnMobile));
      && fx[0] == Notify(Show(b, o.info, IconOf(s), None, prefs, env))
      && (wanted ==> fx[1] == StartPing(NS.GatewayIpAddress(s, env.gateway)) && rx'.reachable)
      && (!wanted ==> fx[1] == StopPing && rx'.reachable == rx.reachable)
      && (ScheduleClear(ClearDelayMs) in fx <==> NS.IsClearable(s, prefs))
      && |fx| <= 3
  {
  }

  /**
   * The `WifiStateCore` rule: outside the free version and with ping on, the
   * monitor is started exactly while connected (Wi-Fi or mobile alike) and
   * stopped otherwise; with ping off it is neither started nor stopped.
   */
  lemma CorePingRule(b: Build, rx: Rx, info: NS.Info, prefs: Prefs, env: Env)
    requires b.era == Core && !b.lite
    requires NS.Update(info, env.sig, prefs).changed
    ensures var s := NS.Update(info, env.sig, prefs).info.state;
      var fx := UpdateState(b, rx, info, prefs, env).1;
      && (prefs.ping ==> (fx[1].StartPing? <==> NS.IsConnected(s)) && (fx[1] == StopPing <==> !NS.IsConnected(s)))
      && (!prefs.ping ==> forall k :: 0 <= k < |fx| ==> !fx[k].StartPing? && fx[k] != StopPing)
  {
  }

  /** A lite or free build never touches the monitor. */
  lemma LiteNeverPings(b: Build, rx: Rx, info: NS.Info, prefs: Prefs, env: Env)
    requires b.lite
    ensures var fx := UpdateState(b, rx, info, prefs, env).1;
      forall k :: 0 <= k < |fx| ==> !fx[k].StartPing? && fx[k] != StopPing
  {
  }

  /** Alarms appear, if at all, as the last command. */
  predicate AlarmLast(fx: seq<Command>) {
    forall k :: 0 <= k < |fx| && fx[k].ScheduleClear? ==> k == |fx| - 1
  }

  lemma DispatchAlarmLast(b: Build, rx: Rx, info: NS.Info, action: Action, prefs: Prefs, env: Env)
    ensures AlarmLast(Dispatch(b, rx, info, action, prefs, env).1)
  {
  }

  /** Each event arms at most one clear alarm, and the platform replaces a pending one, so at most one is ever pending. */
  lemma AtMostOneAlarm(b: Build, rx: Rx, e: Event, prefs: Prefs, env: Env)
    ensures AlarmLast(Step(b, rx, e, prefs, env).1)
  {
    if e.Broadcast? && prefs.enabled {
      var info := if rx.info.Some? then rx.info.value else NS.Initial;
      var listen := !rx.listening && prefs.showDataNetwork;
      var rx0 := Rx(Some(info), rx.listening || listen, rx.reachable);
      var fx0: seq<Command> := if listen then [ListenData] else [];
      var fx1 := Dispatch(b, rx0, info, e.action, prefs, env).1;
      DispatchAlarmLast(b, rx0, info, e.action, prefs, env);
      forall k | 0 <= k < |fx0 + fx1| && (fx0 + fx1)[k].ScheduleClear?
        ensures k == |fx0 + fx1| - 1
      {
        if k >= |fx0| {
          assert (fx0 + fx1)[k] == fx1[k - |fx0|];
        }
      }
    }
  }

  /**
   * The title: the current receiver writes "Mobile Data: name" for a mobile
   * state and "Wi-Fi: name" otherwise when the classifier knows the name, and
   * the application name when it does not; the `WifiStateCore` receiver
   * always writes the application name.
   */
  lemma NotificationTitle(b: Build, info: NS.Info, icon: Icon, counters: Option<(int, int)>, prefs: Prefs, env: Env)
    ensures var t := Show(b, info, icon, counters, prefs, env).title;
      && (b.era == Core || info.networkName.None? ==> t == AppName)
      && (b.era == Current && info.networkName.Some? && NS.IsMobile(info.state) ==>
            t == Titled("Mobile Data: " + info.networkName.value))
      && (b.era == Current && info.networkName.Some? && !NS.IsMobile(info.state) ==>
            t == Titled("Wi-Fi: " + info.networkName.value))
  {
  }

  /** No notification in the list carries ping counters. */
  predicate NoCounters(fx: seq<Command>) {
    forall k :: 0 <= k < |fx| && fx[k].Notify? ==> fx[k].n.body.counters.None?
  }

  lemma DispatchCounters(b: Build, rx: Rx, info: NS.Info, action: Action, prefs: Prefs, env: Env)
    requires !(b.debug && action.ReachabilityAction?)
    ensures NoCounters(Dispatch(b, rx, info, action, prefs, env).1)
  {
  }

  /** The body carries the ping counters only in a debug build, and only for a reachability report. */
  lemma CountersOnlyInDebugReports(b: Build, rx: Rx, e: Event, prefs: Prefs, env: Env)
    ensures var fx := Step(b, rx, e, prefs, env).1;
      forall k :: 0 <= k < |fx| && fx[k].Notify? && fx[k].n.body.counters.Some? ==>
        b.debug && e.Broadcast? && e.action.ReachabilityAction?
  {
    if e.Broadcast? && prefs.enabled && !(b.debug && e.action.ReachabilityAction?) {
      var info := if rx.info.Some? then rx.info.value else NS.Initial;
      var listen := !rx.listening && prefs.showDataNetwork;
      var rx0 := Rx(Some(info), rx.listening || listen, rx.reachable);
      var fx0: seq<Command> := if listen then [ListenData] else [];
      var fx1 := Dispatch(b, rx0, info, e.action, prefs, env).1;
      DispatchCounters(b, rx0, info, e.action, prefs, env);
      forall k | 0 <= k < |fx0 + fx1| && (fx0 + fx1)[k].Notify?
        ensures (fx0 + fx1)[k].n.body.counters.None?
      {
        if k >= |fx0| {
          assert (fx0 + fx1)[k] == fx1[k - |fx0|];
        }
      }
    }
  }

  lemma DispatchListenBalance(b: Build, rx: Rx, info: NS.Info, action: Action, prefs: Prefs, env: Env)
    ensures NetListen(Dispatch(b, rx, info, action, prefs, env).1) == Listening(Dispatch(b, rx, info, action, prefs, env).0) - Listening(rx)
  {
    var (rx1, fx1) := Dispatch(b, rx, info, action, prefs, env);
    if action.ClearAlarm? && NS.IsClearable(info.state, prefs) {
      if rx.listening {
        assert fx1 == [CancelNotification, UnlistenData];
        assert fx1[1..] == [UnlistenData];
        assert fx1[1..][1..] == [];
        assert NetListen(fx1[1..]) == -1;
      } else {
        assert fx1 == [CancelNotification];
        assert fx1[1..] == [];
      }
    } else {
      NetListenNone(fx1);
    }
  }

  /** Each event changes the listener registration by exactly as much as the commands it issues say. */
  lemma StepListenBalance(b: Build, rx: Rx, e: Event, prefs: Prefs, env: Env)
    ensures NetListen(Step(b, rx, e, prefs, env).1) == Listening(Step(b, rx, e, prefs, env).0) - Listening(rx)
  {
    if e.DataStateChanged? {
      if rx.listening && rx.info.Some? {
        NetListenNone(UpdateState(b, rx, rx.info.value, prefs, env).1);
      }
    } else if prefs.enabled {
      var info := if rx.info.Some? then rx.info.value else NS.Initial;
      var listen := !rx.listening && prefs.showDataNetwork;
      var rx0 := Rx(Some(info), rx.listening || listen, rx.reachable);
      var fx0: seq<Command> := if listen then [ListenData] else [];
      var (rx1, fx1) := Dispatch(b, rx0, info, e.action, prefs, env);
      NetListenAppend(fx0, fx1);
      DispatchListenBalance(b, rx0, info, e.action, prefs, env);
      assert NetListen([ListenData]) == 1 by {
        assert [ListenData][1..] == [];
      }
    }
  }

  /** Over any run, the listener registrations issued net out to the change in the listener held. */
  lemma {:induction false} RunListenBalance(b: Build, rx: Rx, es: seq<(Event, Env)>, prefs: Prefs)
    ensures NetListen(Run(b, rx, es, prefs).1) == Listening(Run(b, rx, es, prefs).0) - Listening(rx)
    decreases |es|
  {
    if |es| > 0 {
      var (rx1, fx1) := Step(b, rx, es[0].0, prefs, es[0].1);
      StepListenBalance(b, rx, es[0].0, prefs, es[0].1);
      RunListenBalance(b, rx1, es[1..], prefs);
      NetListenAppend(fx1, Run(b, rx1, es[1..], prefs).1);
    }
  }

  /** Whether a listener is held after replaying `fx` from `held`. */
  function ListenAfter(held: bool, fx: seq<Command>): bool
    decreases |fx|
  {
    if |fx| == 0 then held
    else ListenAfter(if fx[0] == ListenData then true else if fx[0] == UnlistenData then false else held, fx[1..])
  }

  /**
   * Replaying `fx` from `held`, no command registers a listener while one
   * is held and none removes one while none is.
   */
  predicate ListenDisciplined(held: bool, fx: seq<Command>)
    decreases |fx|
  {
    |fx| == 0
    || (&& (fx[0] == ListenData ==> !held)
        && (fx[0] == UnlistenData ==> held)
        && ListenDisciplined(if fx[0] == ListenData then true else if fx[0] == UnlistenData then false else held, fx[1..]))
  }

  lemma {:induction false} ListenDisciplinedAppend(held: bool, a: seq<Command>, c: seq<Command>)
    requires ListenDisciplined(held, a) && ListenDisciplined(ListenAfter(held, a), c)
    ensures ListenDisciplined(held, a + c)
    ensures ListenAfter(held, a + c) == ListenAfter(ListenAfter(held, a), c)
    decreases |a|
  {
    if |a| > 0 {
      assert (a + c)[1..] == a[1..] + c;
      ListenDisciplinedAppend(if a[0] == ListenData then true else if a[0] == UnlistenData then false else held, a[1..], c);
    } else {
      assert a + c == c;
    }
  }

  lemma {:induction false} ListenDisciplinedNone(held: bool, fx: seq<Command>)
    requires NoListenCommands(fx)
    ensures ListenDisciplined(held, fx) && ListenAfter(held, fx) == held
    decreases |fx|
  {
    if |fx| > 0 {
      ListenDisciplinedNone(held, fx[1..]);
    }
  }

  lemma DispatchListenDisciplined(b: Build, rx: Rx, info: NS.Info, action: Action, prefs: Prefs, env: Env)
    ensures ListenDisciplined(rx.listening, Dispatch(b, rx, info, action, prefs, env).1)
    ensures ListenAfter(rx.listening, Dispatch(b, rx, info, action, prefs, env).1) == Dispatch(b, rx, info, action, prefs, env).0.listening
  {
    var (rx1, fx1) := Dispatch(b, rx, info, action, prefs, env);
    if action.ClearAlarm? && NS.IsClearable(info.state, prefs) {
      if rx.listening {
        assert fx1 == [CancelNotification, UnlistenData];
        assert fx1[1..] == [UnlistenData];
        assert !ListenAfter(true, [UnlistenData]) by {
          assert [UnlistenData][1..] == [];
        }
      } else {
        assert fx1 == [CancelNotification];
        assert fx1[1..] == [];
      }
    } else {
      ListenDisciplinedNone(rx.listening, fx1);
    }
  }

  /** Each event's commands are disciplined from the listener it starts with and leave the listener it ends with. */
  lemma StepListenDisciplined(b: Build, rx: Rx, e: Event, prefs: Prefs, env: Env)
    ensures ListenDisciplined(rx.listening, Step(b, rx, e, prefs, env).1)
    ensures ListenAfter(rx.listening, Step(b, rx, e, prefs, env).1) == Step(b, rx, e, prefs, env).0.listening
  {
    if e.DataStateChanged? {
      if rx.listening && rx.info.Some? {
        ListenDisciplinedNone(rx.listening, UpdateState(b, rx, rx.info.value, prefs, env).1);
      }
    } else if prefs.enabled {
      var info := if rx.info.Some? then rx.info.value else NS.Initial;
      var listen := !rx.listening && prefs.showDataNetwork;
      var rx0 := Rx(Some(info), rx.listening || listen, rx.reachable);
      var fx0: seq<Command> := if listen then [ListenData] else [];
      var (rx1, fx1) := Dispatch(b, rx0, info, e.action, prefs, env);
      DispatchListenDisciplined(b, rx0, info, e.action, prefs, env);
      assert [ListenData][1..] == [];
      ListenDisciplinedAppend(rx.listening, fx0, fx1);
    }
  }

  /**
   * Over any run, at every point of the issued commands the receiver holds
   * at most one listener: it never registers a second one and never
   * removes one it does not hold.
   */
  lemma {:induction false} RunListenDisciplined(b: Build, rx: Rx, es: seq<(Event, Env)>, prefs: Prefs)
    ensures ListenDisciplined(rx.listening, Run(b, rx, es, prefs).1)
    ensures ListenAfter(rx.listening, Run(b, rx, es, prefs).1) == Run(b, rx, es, prefs).0.listening
    decreases |es|
  {
    if |es| > 0 {
      var (rx1, fx1) := Step(b, rx, es[0].0, prefs, es[0].1);
      StepListenDisciplined(b, rx, es[0].0, prefs, es[0].1);
      RunListenDisciplined(b, rx1, es[1..], prefs);
      ListenDisciplinedAppend(rx.listening, fx1, Run(b, rx1, es[1..], prefs).1);
    }
  }
}
