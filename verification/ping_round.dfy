/**
 * One round of the reachability monitor (`PingThread.run`, one pass of its
 * outer loop): up to `retry + 1` probes, stopping at the first success, with
 * a notification each time a probe's result differs from the stored one.
 * Probe outcomes are an input sequence; sleeping and the probe itself are not
 * modelled.
 */
module PingRound {
  import opened Common

  /** The counters and stored flag a round reads and writes. */
  datatype Tally = Tally(reachable: bool, numPing: nat, numOk: nat, numNg: nat)

  /** Every attempt counted exactly once, as a success or a failure. */
  predicate Consistent(t: Tally) {
    t.numPing == t.numOk + t.numNg
  }

  /** A reachability notification: the new result and the counters after the attempt. */
  datatype Notice = Notice(reachable: bool, ok: nat, ng: nat, total: nat)

  /** The tally after one attempt with result `p`. */
  function Count(t: Tally, p: bool): (t1: Tally)
    ensures t1.reachable == p && t1.numPing == t.numPing + 1
    ensures t1.numOk + t1.numNg == t.numOk + t.numNg + 1
    ensures p ==> t1.numOk == t.numOk + 1 && t1.numNg == t.numNg
    ensures !p ==> t1.numOk == t.numOk && t1.numNg == t.numNg + 1
  {
    Tally(p, t.numPing + 1, if p then t.numOk + 1 else t.numOk, if p then t.numNg else t.numNg + 1)
  }

  /** The notification one attempt emits, if its result differs from the stored one. */
  function Emit(t: Tally, p: bool): seq<Notice> {
    var t1 := Count(t, p);
    if p != t.reachable then [Notice(p, t1.numOk, t1.numNg, t1.numPing)] else []
  }

  /** The reachable values of a list of notifications. */
  function Flags(ns: seq<Notice>): (r: seq<bool>)
    ensures |r| == |ns|
    ensures forall k :: 0 <= k < |ns| ==> r[k] == ns[k].reachable
  {
    if |ns| == 0 then [] else [ns[0].reachable] + Flags(ns[1..])
  }

  /**
   * The flips a round of failures followed by an optional success produces,
   * stated without reference to the loop: one "unreachable" if the stored
   * flag was set and some probe failed, then one "reachable" if the round
   * succeeded after a failure or from an unset flag.
   */
  function ExpectedFlips(prev: bool, failures: nat, success: bool): seq<bool> {
    (if prev && failures > 0 then [false] else [])
    + (if success && (failures > 0 || !prev) then [true] else [])
  }

  /** The result of the attempts: the tally, how many attempts ran, and the notifications. */
  datatype Attempted = Attempted(tally: Tally, count: nat, notices: seq<Notice>)

  /** True when the attempt count ended on a successful probe. */
  predicate Succeeded(probes: seq<bool>, count: nat) {
    0 < count <= |probes| && probes[count - 1]
  }

  /**
   * The inner loop: at most `budget` attempts (none when it is not positive),
   * stopping after the first successful probe.  `probes` must supply an
   * outcome for every attempt the budget allows.
   */
  function Attempts(t: Tally, probes: seq<bool>, budget: int): (r: Attempted)
    requires budget <= |probes|
    ensures budget <= 0 ==> r.count == 0
    ensures budget > 0 ==> 1 <= r.count <= budget
    decreases |probes|
  {
    if budget <= 0 then Attempted(t, 0, [])
    else
      var p := probes[0];
      var t1 := Count(t, p);
      if p then Attempted(t1, 1, Emit(t, p))
      else
        var rest := Attempts(t1, probes[1..], budget - 1);
        Attempted(rest.tally, rest.count + 1, Emit(t, p) + rest.notices)
  }

  /**
   * What the attempts mean: every attempt before the last failed, the last
   * one succeeded unless the budget ran out, each attempt was counted once,
   * the stored flag is the last result, and the notifications are exactly the
   * flips of that flag.
   */
  lemma {:induction false} AttemptsSpec(t: Tally, probes: seq<bool>, budget: int)
    requires budget <= |probes|
    ensures var r := Attempts(t, probes, budget);
      && (forall i :: 0 <= i < r.count - 1 ==> !probes[i])
      && (r.count > 0 ==> probes[r.count - 1] || r.count == budget)
      && r.tally.numPing == t.numPing + r.count
      && r.tally.numOk + r.tally.numNg == t.numOk + t.numNg + r.count
      && r.tally.numOk == t.numOk + (if Succeeded(probes, r.count) then 1 else 0)
      && r.tally.reachable == (if r.count > 0 then probes[r.count - 1] else t.reachable)
      && Flags(r.notices)
         == ExpectedFlips(t.reachable, r.count - (if Succeeded(probes, r.count) then 1 else 0), Succeeded(probes, r.count))
    decreases |probes|
  {
    if budget > 0 && !probes[0] {
      var t1 := Count(t, false);
      AttemptsSpec(t1, probes[1..], budget - 1);
      var rest := Attempts(t1, probes[1..], budget - 1);
      assert forall i :: 0 <= i < rest.count ==> probes[1..][i] == probes[i + 1];
      assert Flags(Emit(t, false) + rest.notices) == Flags(Emit(t, false)) + Flags(rest.notices);
    }
  }

  /** The failed probes among the attempts: the value of the source's loop counter after its early exit. */
  function Failures(probes: seq<bool>, a: Attempted): nat {
    if Succeeded(probes, a.count) then a.count - 1 else a.count
  }

  /** The outcome of a whole round, with the consecutive-failure counter and its notification. */
  datatype Round = Round(tally: Tally, count: nat, notices: seq<Notice>, fail: nat, failNotice: Option<nat>)

  /**
   * A round: the attempts, then the consecutive-failure rule.  The loop
   * counter stops on the successful probe, so it equals `ntry` only when every
   * attempt failed; an `ntry` of exactly 0 (no attempt at all) also counts as
   * a failed round, and a negative one resets the counter.
   */
  function RunRound(t: Tally, fail: nat, probes: seq<bool>, ntry: int): (r: Round)
    requires ntry <= |probes|
    ensures r.failNotice.Some? ==> r.fail == fail + 1 && r.failNotice == Some(fail + 1)
    ensures r.failNotice.None? ==> r.fail == 0
    ensures ntry > 0 ==> (r.failNotice.Some? <==> forall i :: 0 <= i < ntry ==> !probes[i])
    ensures ntry == 0 ==> r.failNotice.Some?
    ensures ntry < 0 ==> r.failNotice.None?
  {
    AttemptsSpec(t, probes, ntry);
    var a := Attempts(t, probes, ntry);
    if Failures(probes, a) == ntry then Round(a.tally, a.count, a.notices, fail + 1, Some(fail + 1))
    else Round(a.tally, a.count, a.notices, 0, None)
  }

  /** `n` more attempts in front of a result, with their notifications first. */
  function Shift(a: Attempted, n: nat, ns: seq<Notice>): Attempted {
    Attempted(a.tally, a.count + n, ns + a.notices)
  }

  /** A failed first probe is one counted attempt followed by the rest of the round. */
  lemma AttemptsStep(t: Tally, probes: seq<bool>, budget: int)
    requires 0 < budget <= |probes| && !probes[0]
    ensures Attempts(t, probes, budget) == Shift(Attempts(Count(t, false), probes[1..], budget - 1), 1, Emit(t, false))
  {
  }

  lemma ShiftShift(a: Attempted, m: nat, n: nat, ms: seq<Notice>, ns: seq<Notice>)
    ensures Shift(Shift(a, m, ms), n, ns) == Shift(a, m + n, ns + ms)
  {
    assert ns + (ms + a.notices) == (ns + ms) + a.notices;
  }

  /** An exhausted budget makes no attempt. */
  lemma AttemptsNone(t: Tally, probes: seq<bool>, budget: int)
    requires budget <= 0 && budget <= |probes|
    ensures Attempts(t, probes, budget) == Attempted(t, 0, [])
  {
  }

  /** A successful first probe ends the round after one attempt. */
  lemma AttemptsHit(t: Tally, probes: seq<bool>, budget: int)
    requires 0 < budget <= |probes| && probes[0]
    ensures Attempts(t, probes, budget) == Attempted(Count(t, true), 1, Emit(t, true))
  {
  }

  /** The loop invariant is kept by a failed probe. */
  lemma MissStep(t0: Tally, probes: seq<bool>, ntry: int, t: Tally, count: nat, notices: seq<Notice>)
    requires count < ntry <= |probes| && !probes[count]
    requires Attempts(t0, probes, ntry) == Shift(Attempts(t, probes[count..], ntry - count), count, notices)
    ensures Attempts(t0, probes, ntry)
         == Shift(Attempts(Count(t, false), probes[count + 1..], ntry - count - 1), count + 1, notices + Emit(t, false))
  {
    AttemptsStep(t, probes[count..], ntry - count);
    assert probes[count..][1..] == probes[count + 1..];
    ShiftShift(Attempts(Count(t, false), probes[count + 1..], ntry - count - 1), 1, count, Emit(t, false), notices);
  }

  /** A successful probe ends the loop with the round's result. */
  lemma HitStep(t0: Tally, probes: seq<bool>, ntry: int, t: Tally, count: nat, notices: seq<Notice>)
    requires count < ntry <= |probes| && probes[count]
    requires Attempts(t0, probes, ntry) == Shift(Attempts(t, probes[count..], ntry - count), count, notices)
    ensures Attempts(t0, probes, ntry) == Attempted(Count(t, true), count + 1, notices + Emit(t, true))
  {
    AttemptsHit(t, probes[count..], ntry - count);
  }

  /**
   * `run`'s inner loop as written: a counting loop that breaks on success.
   * `count` is the source's loop counter on exit, the number of failed probes.
   */
  method AttemptLoop(t0: Tally, probes: seq<bool>, ntry: int) returns (a: Attempted, count: int)
    requires ntry <= |probes|
    ensures a == Attempts(t0, probes, ntry)
    ensures count == Failures(probes, a)
  {
    var t := t0;
    var notices: seq<Notice> := [];
    count := 0;
    while count < ntry
      invariant 0 <= count <= |probes|
      invariant ntry > 0 ==> count <= ntry
      invariant count > 0 ==> !probes[count - 1]
      invariant Attempts(t0, probes, ntry) == Shift(Attempts(t, probes[count..], ntry - count), count, notices)
    {
      var p := probes[count];
      if p {
        HitStep(t0, probes, ntry, t, count, notices);
        a := Attempted(Count(t, p), count + 1, notices + Emit(t, p));
        return;
      }
      MissStep(t0, probes, ntry, t, count, notices);
      notices := notices + Emit(t, p);
      t := Count(t, p);
      count := count + 1;
    }
    AttemptsNone(t, probes[count..], ntry - count);
    a := Attempted(t, count, notices);
  }

  /** A whole round as written: the attempts, then the failure counter test on the loop counter. */
  method PingRoundLoop(t0: Tally, fail0: nat, probes: seq<bool>, ntry: int) returns (r: Round)
    requires ntry <= |probes|
    ensures r == RunRound(t0, fail0, probes, ntry)
  {
    var a, count := AttemptLoop(t0, probes, ntry);
    if count == ntry {
      r := Round(a.tally, a.count, a.notices, fail0 + 1, Some(fail0 + 1));
    } else {
      r := Round(a.tally, a.count, a.notices, 0, None);
    }
  }

  // ------------------------------------------------------------ properties

  /** A round never makes more than `retry + 1` attempts and stops at the first success. */
  lemma AttemptsBounded(t: Tally, probes: seq<bool>, ntry: int, i: nat)
    requires ntry <= |probes| && i < ntry && probes[i]
    ensures Attempts(t, probes, ntry).count <= i + 1
    ensures Attempts(t, probes, ntry).count <= ntry
  {
    AttemptsSpec(t, probes, ntry);
  }

  /** Every attempt raises the total and exactly one of ok/ng: a consistent tally stays consistent, and nothing decreases. */
  lemma RoundKeepsTally(t: Tally, fail: nat, probes: seq<bool>, ntry: int)
    requires ntry <= |probes| && Consistent(t)
    ensures var r := RunRound(t, fail, probes, ntry);
      Consistent(r.tally) && r.tally.numPing >= t.numPing && r.tally.numOk >= t.numOk && r.tally.numNg >= t.numNg
  {
    AttemptsSpec(t, probes, ntry);
  }

  /** A round emits at most two notifications, and they alternate, starting with the opposite of the stored flag. */
  lemma {:induction false} FlipsAlternate(prev: bool, failures: nat, success: bool)
    ensures |ExpectedFlips(prev, failures, success)| <= 2
    ensures forall k :: 0 <= k < |ExpectedFlips(prev, failures, success)| ==>
      ExpectedFlips(prev, failures, success)[k] == (if k % 2 == 0 then !prev else prev)
  {
  }

  /** The counters a notification carries are those after its own attempt, so a consistent tally gives total = ok + ng. */
  lemma {:induction false} NoticesCarryTotals(t: Tally, probes: seq<bool>, budget: int)
    requires budget <= |probes| && Consistent(t)
    ensures forall n :: n in Attempts(t, probes, budget).notices ==> n.total == n.ok + n.ng
    decreases |probes|
  {
    if budget > 0 && !probes[0] {
      NoticesCarryTotals(Count(t, false), probes[1..], budget - 1);
    }
  }

  /** The stored flag after a round is the last probe's result, and the round is silent exactly when no attempt disagreed with the stored flag. */
  lemma RoundFlagFollowsProbes(t: Tally, fail: nat, probes: seq<bool>, ntry: int)
    requires 0 < ntry <= |probes|
    ensures var r := RunRound(t, fail, probes, ntry);
      && r.tally.reachable == probes[r.count - 1]
      && (r.notices == [] <==> forall i :: 0 <= i < r.count ==> probes[i] == t.reachable)
  {
    AttemptsSpec(t, probes, ntry);
    var a := Attempts(t, probes, ntry);
    var s := Succeeded(probes, a.count);
    var f := a.count - (if s then 1 else 0);
    assert Flags(a.notices) == ExpectedFlips(t.reachable, f, s);
    if a.notices == [] {
      assert ExpectedFlips(t.reachable, f, s) == [];
      forall i | 0 <= i < a.count
        ensures probes[i] == t.reachable
      {
        if i < a.count - 1 || !s {
          assert f > 0 && !probes[i];
        }
      }
    } else {
      assert |ExpectedFlips(t.reachable, f, s)| > 0;
      if t.reachable && f > 0 {
        assert !probes[0];
      } else {
        assert s && !t.reachable;
        assert probes[a.count - 1];
      }
    }
  }

  /** A fully failed round raises the failure counter by exactly one and reports it; a success resets it silently. */
  lemma FailCounterRule(t: Tally, fail: nat, probes: seq<bool>, ntry: int)
    requires 0 < ntry <= |probes|
    ensures var r := RunRound(t, fail, probes, ntry);
      && ((forall i :: 0 <= i < ntry ==> !probes[i]) ==> r.fail == fail + 1 && r.failNotice == Some(fail + 1))
      && ((exists i :: 0 <= i < ntry && probes[i]) ==> r.fail == 0 && r.failNotice.None? && r.tally.reachable)
  {
    AttemptsSpec(t, probes, ntry);
    var a := Attempts(t, probes, ntry);
    if exists i :: 0 <= i < ntry && probes[i] {
      var i :| 0 <= i < ntry && probes[i];
      assert a.count <= i + 1;
    }
  }
}
