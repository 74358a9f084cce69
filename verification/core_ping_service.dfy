/**
 * The earlier reachability monitor (`WifiStateCore/.../WifiStatePingService`):
 * the same round, but no failure counter, the stored flag reset only by a
 * start command, and a probe that first resolves the host name.
 */
module CorePingService {
  import opened Common
  import opened PingRound
  import PS = PingService

  /** The service's fields, with the same worker token scheme as the current version. */
  datatype Monitor = Monitor(target: Option<string>, tally: Tally, worker: Option<nat>, nextWorker: nat)

  const Created: Monitor := Monitor(None, Tally(false, 0, 0, 0), None, 0)

  /** A probe: the host name did not resolve, or the ping got a reply, or it did not. */
  datatype Probe = Unresolved | Replied | NoReply

  /** Only a reply counts as reachable; a name that does not resolve is a failed attempt. */
  function Reachable(p: Probe): bool {
    p == Replied
  }

  function Results(ps: seq<Probe>): (r: seq<bool>)
    ensures |r| == |ps|
    ensures forall k :: 0 <= k < |ps| ==> r[k] == (ps[k] == Replied)
  {
    seq(|ps|, k requires 0 <= k < |ps| => Reachable(ps[k]))
  }

  /**
   * Events: creation with the screen state (`None` when undeterminable), a
   * start command, the screen turning on or off, destruction, and one round
   * of worker `id`.
   */
  datatype Event =
    | Create(screenOn: Option<bool>)
    | Start(configured: Option<string>, extra: Option<string>)
    | ScreenOn
    | ScreenOff
    | Destroy
    | WorkerRound(id: nat, retry: int, probes: seq<Probe>)

  predicate WellFormed(e: Event) {
    e.WorkerRound? ==> PS.Tries(e.retry) <= |e.probes|
  }

  /** `start`: with a target, zero the counters (the stored flag is kept) and make sure a worker runs; without one, stop. */
  function Begin(m: Monitor): Monitor {
    if m.target.Some? then
      var m1 := m.(tally := m.tally.(numPing := 0, numOk := 0, numNg := 0));
      if m1.worker.None? then m1.(worker := Some(m1.nextWorker), nextWorker := m1.nextWorker + 1) else m1
    else m.(worker := None)
  }

  function Step(m: Monitor, e: Event): (Monitor, seq<Notice>)
    requires WellFormed(e)
  {
    match e
    case Create(screenOn) => (if screenOn != Some(false) then Begin(m) else m, [])
    case Start(configured, extra) =>
      var target := if configured.None? || configured == Some("") then extra else configured;
      (Begin(m.(target := target, tally := m.tally.(reachable := true))), [])
    case ScreenOn => (Begin(m), [])
    case ScreenOff => (m.(worker := None), [])
    case Destroy => (m.(worker := None), [])
    case WorkerRound(id, retry, probes) =>
      if m.worker == Some(id) then
        var a := Attempts(m.tally, Results(probes), PS.Tries(retry));
        (m.(tally := a.tally), a.notices)
      else (m, [])
  }

  /** The service after a sequence of events. */
  function Run(m: Monitor, es: seq<Event>): Monitor
    requires forall k :: 0 <= k < |es| ==> WellFormed(es[k])
    decreases |es|
  {
    if |es| == 0 then m else Run(Step(m, es[0]).0, es[1..])
  }

  /** What the service keeps true: consistent counters and tokens never handed out twice. */
  predicate Inv(m: Monitor) {
    Consistent(m.tally) && (m.worker.Some? ==> m.worker.value < m.nextWorker)
  }

  // ------------------------------------------------------------ properties

  /** A start command resets the stored flag to reachable and picks the target like the current version. */
  lemma StartSelectsTarget(m: Monitor, configured: Option<string>, extra: Option<string>)
    ensures var m' := Step(m, Start(configured, extra)).0;
      && m'.target == PS.SelectTarget(configured, extra)
      && m'.tally.reachable
      && (m'.target.Some? ==> m'.tally.numPing == 0 && m'.tally.numOk == 0 && m'.tally.numNg == 0 && m'.worker.Some?)
      && (m'.target.None? ==> m'.worker.None?)
  {
  }

  /** The screen turning on restarts counting but, unlike the current version, keeps the stored flag. */
  lemma ScreenOnKeepsFlag(m: Monitor)
    ensures Step(m, ScreenOn).0.tally.reachable == m.tally.reachable
    ensures m.target.Some? && m.worker.Some? ==> Step(m, ScreenOn).0.worker == m.worker
  {
  }

  /** Creation starts monitoring when the screen state is unknown, but a fresh service has no target, so it stops instead. */
  lemma CreateUnknownScreen()
    ensures Step(Created, Create(None)).0 == Created
  {
  }

  /** A name that does not resolve counts exactly like a ping without reply. */
  lemma UnresolvedIsNoReply(ps: seq<Probe>, qs: seq<Probe>)
    requires |ps| == |qs|
    requires forall k :: 0 <= k < |ps| ==> (ps[k] == qs[k] || (ps[k] == Unresolved && qs[k] == NoReply))
    ensures Results(ps) == Results(qs)
  {
  }

  /** A round of the current worker keeps total = ok + ng, counts each attempt once and stops at the first reply. */
  lemma CurrentWorkerRound(m: Monitor, retry: int, probes: seq<Probe>, i: nat)
    requires m.worker.Some? && Consistent(m.tally) && PS.Tries(retry) <= |probes|
    requires i < PS.Tries(retry) && probes[i] == Replied
    ensures var m' := Step(m, WorkerRound(m.worker.value, retry, probes)).0;
      && Consistent(m'.tally)
      && m.tally.numPing < m'.tally.numPing <= m.tally.numPing + i + 1
      && m'.tally.numOk == m.tally.numOk + 1
      && m'.tally.reachable
  {
    var rs := Results(probes);
    AttemptsSpec(m.tally, rs, PS.Tries(retry));
    AttemptsBounded(m.tally, rs, PS.Tries(retry), i);
  }

  /** A round in which no probe gets a reply: every attempt runs, each counted as a failure, and the flag ends unreachable. */
  lemma FailedRound(m: Monitor, retry: int, probes: seq<Probe>)
    requires m.worker.Some? && Consistent(m.tally) && 0 < PS.Tries(retry) <= |probes|
    requires forall i :: 0 <= i < PS.Tries(retry) ==> probes[i] != Replied
    ensures var m' := Step(m, WorkerRound(m.worker.value, retry, probes)).0;
      && Consistent(m'.tally)
      && m'.tally.numPing == m.tally.numPing + PS.Tries(retry)
      && m'.tally.numNg == m.tally.numNg + PS.Tries(retry)
      && m'.tally.numOk == m.tally.numOk
      && !m'.tally.reachable
  {
    var rs := Results(probes);
    var n := PS.Tries(retry);
    AttemptsSpec(m.tally, rs, n);
  }

  /** Every event keeps the invariant. */
  lemma StepInv(m: Monitor, e: Event)
    requires WellFormed(e) && Inv(m)
    ensures Inv(Step(m, e).0)
    ensures Step(m, e).0.nextWorker >= m.nextWorker
  {
    if e.WorkerRound? && m.worker == Some(e.id) {
      AttemptsSpec(m.tally, Results(e.probes), PS.Tries(e.retry));
    }
  }

  /** Over any run the counters stay consistent, and a worker that is not current never becomes current again. */
  lemma {:induction false} StoppedWorkerNeverResumes(m: Monitor, es: seq<Event>, id: nat)
    requires forall k :: 0 <= k < |es| ==> WellFormed(es[k])
    requires Inv(m) && id < m.nextWorker && m.worker != Some(id)
    ensures Inv(Run(m, es))
    ensures Run(m, es).worker != Some(id)
    decreases |es|
  {
    if |es| > 0 {
      StepInv(m, es[0]);
      assert forall k :: 0 <= k < |es[1..]| ==> es[1..][k] == es[k + 1];
      StoppedWorkerNeverResumes(Step(m, es[0]).0, es[1..], id);
    }
  }

  /** A worker that is not current does nothing. */
  lemma StaleWorkerIdle(m: Monitor, id: nat, retry: int, probes: seq<Probe>)
    requires m.worker != Some(id) && PS.Tries(retry) <= |probes|
    ensures Step(m, WorkerRound(id, retry, probes)) == (m, [])
  {
  }
}
