/**
 * The reachability monitor service (`WifiStatePingService`): target
 * selection, start/stop of the single worker, and the worker's rounds with
 * the consecutive-failure counter.  Threads are replaced by a generation
 * token: the worker with token `id` runs a round only while it is current.
 */
module PingService {
  import opened Common
  import opened PingRound

  /** The service's fields; `worker` is the current thread's token, `nextWorker` the token the next thread gets. */
  datatype Monitor = Monitor(target: Option<string>, tally: Tally, fail: nat, worker: Option<nat>, nextWorker: nat)

  /** A freshly created service: no target, the stored flag false, every counter 0, no thread. */
  const Created: Monitor := Monitor(None, Tally(false, 0, 0, 0), 0, None, 0)

  /**
   * Events: a start command (the configured target, the intent's target
   * extra, and the screen state, `None` when it cannot be determined), the
   * screen turning on or off, destruction, and one round of the worker `id`
   * with the configured retry count and the probe outcomes it observes.
   */
  datatype Event =
    | Command(configured: Option<string>, extra: Option<string>, screenOn: Option<bool>)
    | ScreenOn
    | ScreenOff
    | Destroy
    | WorkerRound(id: nat, retry: int, probes: seq<bool>)

  /** The broadcasts the service sends to the notification controller. */
  datatype Output = Reachability(notice: Notice) | PingFail(fail: nat)

  /** `getPingRetry() + 1` in Java `int` arithmetic. */
  function Tries(retry: int): int {
    Wrap32(retry + 1)
  }

  /** A round event supplies an outcome for every attempt its retry count allows. */
  predicate WellFormed(e: Event) {
    e.WorkerRound? ==> Tries(e.retry) <= |e.probes|
  }

  /** The target rule: the configured host when set and non-empty, else the host the caller passed. */
  function SelectTarget(configured: Option<string>, extra: Option<string>): (r: Option<string>)
    ensures configured.Some? && |configured.value| > 0 ==> r == configured
    ensures configured.None? || configured == Some("") ==> r == extra
  {
    if configured.Some? && |configured.value| > 0 then configured else extra
  }

  /** `startThread`: a new worker only when none is current. */
  function StartThread(m: Monitor): (m': Monitor)
    ensures m'.worker.Some?
    ensures m.worker.Some? ==> m' == m
    ensures m.worker.None? ==> m'.worker == Some(m.nextWorker) && m'.nextWorker == m.nextWorker + 1
  {
    if m.worker.None? then m.(worker := Some(m.nextWorker), nextWorker := m.nextWorker + 1) else m
  }

  /** `stopThread`: forget the current worker; it ends at its next loop test. */
  function StopThread(m: Monitor): Monitor {
    m.(worker := None)
  }

  /** `startPing`: with a target, reset the flag and counters and make sure a worker runs; without one, stop. */
  function StartPing(m: Monitor): Monitor {
    if m.target.Some? then StartThread(m.(tally := Tally(true, 0, 0, 0), fail := 0))
    else StopThread(m)
  }

  /** One round of the current worker, turned into broadcasts. */
  function Outputs(r: Round): seq<Output> {
    Notices(r.notices) + (if r.failNotice.Some? then [PingFail(r.failNotice.value)] else [])
  }

  function Notices(ns: seq<Notice>): (r: seq<Output>)
    ensures |r| == |ns|
    ensures forall k :: 0 <= k < |ns| ==> r[k] == Reachability(ns[k])
  {
    if |ns| == 0 then [] else [Reachability(ns[0])] + Notices(ns[1..])
  }

  /** The service's reaction to one event. */
  function Step(m: Monitor, e: Event): (Monitor, seq<Output>)
    requires WellFormed(e)
  {
    match e
    case Command(configured, extra, screenOn) =>
      var m1 := m.(target := SelectTarget(configured, extra));
      (if screenOn != Some(false) then StartPing(m1) else m1, [])
    case ScreenOn => (StartPing(m), [])
    case ScreenOff => (StopThread(m), [])
    case Destroy => (StopThread(m), [])
    case WorkerRound(id, retry, probes) =>
      if m.worker == Some(id) then
        var r := RunRound(m.tally, m.fail, probes, Tries(retry));
        (m.(tally := r.tally, fail := r.fail), Outputs(r))
      else (m, [])
  }

  /** The service after a sequence of events. */
  function Run(m: Monitor, es: seq<Event>): Monitor
    requires forall k :: 0 <= k < |es| ==> WellFormed(es[k])
    decreases |es|
  {
    if |es| == 0 then m else Run(Step(m, es[0]).0, es[1..])
  }

  /** What the service keeps true: consistent counters and tokens never handed out twice. */
  predicate Inv(m: Monitor) {
    Consistent(m.tally) && (m.worker.Some? ==> m.worker.value < m.nextWorker)
  }

  // ------------------------------------------------------------ properties

  /**
   * A start command with the screen on, or undeterminable, and a target
   * resets the stored flag to reachable and every counter to 0 and leaves a
   * worker running; without a target it stops the worker.
   */
  lemma CommandStarts(m: Monitor, configured: Option<string>, extra: Option<string>, screenOn: Option<bool>)
    requires screenOn != Some(false)
    ensures var m' := Step(m, Command(configured, extra, screenOn)).0;
      && m'.target == SelectTarget(configured, extra)
      && (m'.target.Some? ==> m'.tally == Tally(true, 0, 0, 0) && m'.fail == 0 && m'.worker.Some?)
      && (m'.target.None? ==> m'.worker.None?)
  {
  }

  /** With the screen known to be off a command only records the target. */
  lemma CommandScreenOff(m: Monitor, configured: Option<string>, extra: Option<string>)
    ensures Step(m, Command(configured, extra, Some(false))).0 == m.(target := SelectTarget(configured, extra))
  {
  }

  /** Starting while a worker is current keeps that same worker: there is never a second one. */
  lemma StartKeepsWorker(m: Monitor)
    requires m.worker.Some? && m.target.Some?
    ensures StartPing(m).worker == m.worker
    ensures StartPing(m).nextWorker == m.nextWorker
  {
  }

  /** A worker that is not current does nothing at all: no change, no broadcast. */
  lemma StaleWorkerIdle(m: Monitor, id: nat, retry: int, probes: seq<bool>)
    requires m.worker != Some(id) && Tries(retry) <= |probes|
    ensures Step(m, WorkerRound(id, retry, probes)) == (m, [])
  {
  }

  /** Every event keeps the invariant. */
  lemma StepInv(m: Monitor, e: Event)
    requires WellFormed(e) && Inv(m)
    ensures Inv(Step(m, e).0)
    ensures Step(m, e).0.nextWorker >= m.nextWorker
  {
    if e.WorkerRound? && m.worker == Some(e.id) {
      AttemptsSpec(m.tally, e.probes, Tries(e.retry));
    }
  }

  /**
   * A worker that is not current never becomes current again, whatever
   * happens next: a stopped thread cannot resume, and new threads get new
   * tokens.  The invariant holds throughout.
   */
  lemma {:induction false} StoppedWorkerNeverResumes(m: Monitor, es: seq<Event>, id: nat)
    requires forall k :: 0 <= k < |es| ==> WellFormed(es[k])
    requires Inv(m) && id < m.nextWorker && m.worker != Some(id)
    ensures Inv(Run(m, es))
    ensures Run(m, es).worker != Some(id)
    decreases |es|
  {
    if |es| > 0 {
      StepInv(m, es[0]);
      assert forall k :: 0 <= k < |es[1..]| ==> es[1..][k] == es[k + 1];
      StoppedWorkerNeverResumes(Step(m, es[0]).0, es[1..], id);
    }
  }

  /** A round of the current worker: the counters move by the attempts it made, and the failure counter follows the round's outcome. */
  lemma CurrentWorkerRound(m: Monitor, retry: int, probes: seq<bool>)
    requires m.worker.Some? && Inv(m) && Tries(retry) <= |probes| && 0 < Tries(retry)
    ensures var (m', out) := Step(m, WorkerRound(m.worker.value, retry, probes));
      && Consistent(m'.tally)
      && m'.tally.numPing > m.tally.numPing
      && m'.worker == m.worker && m'.target == m.target
      && ((forall i :: 0 <= i < Tries(retry) ==> !probes[i]) <==> m'.fail == m.fail + 1)
      && ((forall i :: 0 <= i < Tries(retry) ==> !probes[i]) ==> out[|out| - 1] == PingFail(m.fail + 1))
  {
    AttemptsSpec(m.tally, probes, Tries(retry));
  }
}
