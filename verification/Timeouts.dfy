/** Blocking with a time-out, and delaying until an absolute time. */
module Timeouts {
  import opened Tick
  import opened Epochs

  // ---------------------------------------------------------------- time-outs

  /** TimeOut_t: when the wait was last measured.  The kernel keeps its epoch too. */
  type TimeOut = Time

  datatype Checked = Expired | Remaining(since: TimeOut, wait: nat)

  /** xTaskCheckForTimeOut for a wait that is not indefinite. */
  function Check(since: TimeOut, now: Time, wait: nat): Checked {
    if now.epoch != since.epoch && now.tick >= since.tick then Expired
    else if Minus(now.tick, since.tick) < wait then Remaining(now, wait - Minus(now.tick, since.tick))
    else Expired
  }

  /** The check misses that the wait is over exactly if the tick count wrapped twice or
      more and stands before the remembered one by no more than the wait allows. */
  lemma CheckExactly(since: TimeOut, now: Time, wait: nat)
    requires NotAfter(since, now) && wait < MAX_DELAY
    ensures (Check(since, now, wait) == Expired <==> Abs(now) - Abs(since) >= wait) <==>
      !(now.epoch >= since.epoch + 2 && now.tick < since.tick && Minus(now.tick, since.tick) < wait)
  {
    NotAfterIsAbs(since, now);
    WithinIsAbs(since, now);
    if Within(since, now) { MinusIsElapsed(since, now); }
    hide Abs;
  }

  /** Nearly two wraps late, and the check asks for one more tick. */
  lemma CheckCanMissExpiry()
    ensures var since, now, wait := Stamp(0, 3), Stamp(2, 0), M - 2;
      NotAfter(since, now) && wait < MAX_DELAY && Abs(now) - Abs(since) >= wait
      && Check(since, now, wait) == Remaining(now, 1)
  {
    assert Abs(Stamp(2, 0)) == 2 * M && Abs(Stamp(0, 3)) == 3;
  }

  /** With at most one wrap the check is exact: what is left is the wait less the time
      that passed, and never nothing. */
  lemma CheckMeasures(since: TimeOut, now: Time, wait: nat)
    requires NotAfter(since, now) && now.epoch <= since.epoch + 1 && wait < MAX_DELAY
    ensures Check(since, now, wait) ==
      if Abs(now) - Abs(since) >= wait then Expired else Remaining(now, wait - (Abs(now) - Abs(since)))
  {
    NotAfterIsAbs(since, now);
    WithinIsAbs(since, now);
    if Within(since, now) { MinusIsElapsed(since, now); }
    hide Abs;
  }

  /** Times at which a blocked call checks: in order, at most one wrap apart. */
  ghost predicate Checks(since: TimeOut, times: seq<Time>) {
    forall i :: 0 <= i < |times| ==>
      NotAfter(Before(since, times, i), times[i]) && times[i].epoch <= Before(since, times, i).epoch + 1
  }

  function Before(since: TimeOut, times: seq<Time>, i: nat): Time
    requires i < |times|
  {
    if i == 0 then since else times[i - 1]
  }

  lemma CheckAt(since: TimeOut, times: seq<Time>, i: nat)
    requires Checks(since, times) && i < |times|
    ensures NotAfter(Before(since, times, i), times[i]) && times[i].epoch <= Before(since, times, i).epoch + 1
  {
  }

  /** The retry loop of a blocking call: how long it would block after the last of
      these checks. */
  function Retry(since: TimeOut, wait: nat, times: seq<Time>): Checked
    decreases |times|
  {
    if times == [] then Remaining(since, wait)
    else
      var c := Check(since, times[0], wait);
      if c.Expired? then Expired else Retry(c.since, c.wait, times[1..])
  }

  /** Telescoping: over any number of retries what remains plus what passed is the
      original wait, and the call gives up at the first check at which all of it has passed. */
  lemma {:induction false} RetriesTelescope(since: TimeOut, wait: nat, times: seq<Time>)
    requires Checks(since, times) && 0 < wait < MAX_DELAY && times != []
    requires forall i :: 0 <= i < |times| - 1 ==> Abs(times[i]) < Abs(since) + wait
    ensures var last := times[|times| - 1];
      Retry(since, wait, times) ==
        if Abs(last) >= Abs(since) + wait then Expired else Remaining(last, Abs(since) + wait - Abs(last))
    decreases |times|
  {
    hide Abs, Check;
    assert Before(since, times, 0) == since;
    CheckMeasures(since, times[0], wait);
    if |times| > 1 {
      var c := Check(since, times[0], wait);
      NotAfterIsAbs(since, times[0]);
      forall i | 0 <= i < |times| - 1
        ensures Before(times[0], times[1..], i) == Before(since, times, i + 1) && times[1..][i] == times[i + 1]
      {
      }
      RetriesTelescope(c.since, c.wait, times[1..]);
    } else {
      assert times[1..] == [];
      NotAfterIsAbs(since, times[0]);
    }
  }

  /** vTaskSetTimeOutState and xTaskCheckForTimeOut, with the caller's two variables. */
  class Waiter {
    var overflowCount: nat     // xOverflowCount
    var timeOnEntering: nat    // xTimeOnEntering
    var ticksToWait: nat

    method SetTimeOutState(overflows: nat, tick: nat)
      modifies this`overflowCount, this`timeOnEntering
      ensures overflowCount == overflows && timeOnEntering == tick
    {
      overflowCount := overflows;
      timeOnEntering := tick;
    }

    /** With the kernel's xNumOfOverflows and xTickCount.  An indefinite wait never ends. */
    method CheckForTimeOut(overflows: nat, tick: nat) returns (expired: bool)
      requires tick < M && timeOnEntering < M
      modifies this
      ensures timeOnEntering < M
      ensures old(ticksToWait) == MAX_DELAY ==> !expired && ticksToWait == MAX_DELAY
      ensures old(ticksToWait) != MAX_DELAY ==>
        Check(Stamp(old(overflowCount), old(timeOnEntering)), Stamp(overflows, tick), old(ticksToWait)) ==
          if expired then Expired else Remaining(Stamp(overflowCount, timeOnEntering), ticksToWait)
    {
      if ticksToWait == MAX_DELAY {
        expired := false;
      } else if overflows != overflowCount && tick >= timeOnEntering {
        expired := true;
      } else if Minus(tick, timeOnEntering) < ticksToWait {
        ticksToWait := ticksToWait - Minus(tick, timeOnEntering);
        SetTimeOutState(overflows, tick);
        expired := false;
      } else {
        expired := true;
      }
    }

    /** The loop of a blocking send or receive on a queue that stays full or empty: each
        turn checks, and blocks for what is left.  It gives up at the first check at
        which the whole wait has passed, and every block would end exactly then. */
    method BlockUntilTimeOut(entered: Time, wait: nat, times: seq<Time>) returns (k: nat, blocks: seq<nat>)
      requires 0 < wait < MAX_DELAY && Checks(entered, times)
      modifies this
      ensures k <= |times| && |blocks| == k
      ensures forall i :: 0 <= i < k ==> blocks[i] > 0 && Abs(times[i]) + blocks[i] == Abs(entered) + wait
      ensures k < |times| ==> Abs(times[k]) >= Abs(entered) + wait
    {
      hide Abs, Check, Minus, NotAfter, Checks;
      ticksToWait := wait;
      SetTimeOutState(entered.epoch, entered.tick);
      ghost var since := entered;
      k, blocks := 0, [];
      while k < |times|
        invariant k <= |times| && |blocks| == k && 0 < ticksToWait < MAX_DELAY
        invariant Stamp(overflowCount, timeOnEntering) == since
        invariant k < |times| ==> since == Before(entered, times, k)
        invariant Abs(since) + ticksToWait == Abs(entered) + wait
        invariant forall i :: 0 <= i < k ==> blocks[i] > 0 && Abs(times[i]) + blocks[i] == Abs(entered) + wait
      {
        CheckAt(entered, times, k);
        CheckMeasures(since, times[k], ticksToWait);
        NotAfterIsAbs(since, times[k]);
        var expired := CheckForTimeOut(times[k].epoch, times[k].tick);
        if expired {
          return;
        }
        blocks := blocks + [ticksToWait];
        since := times[k];
        k := k + 1;
      }
    }
  }

  // ---------------------------------------------------------------- vTaskDelayUntil

  /** Whether vTaskDelayUntil delays. */
  function ShouldDelay(previous: nat, increment: nat, now: nat): bool
    requires previous < M && increment < M
  {
    var wake := Plus(previous, increment);
    if now < previous then wake < previous && wake > now
    else wake < previous || wake > now
  }

  /** It delays exactly if the wake time is still to come, and then for exactly the time
      until then, wherever the wraps are. */
  lemma DelayUntilExact(previous: Time, increment: nat, now: Time)
    requires Within(previous, now) && 0 < increment < M
    ensures ShouldDelay(previous.tick, increment, now.tick) <==> Abs(previous) + increment > Abs(now)
    ensures ShouldDelay(previous.tick, increment, now.tick) ==>
      Minus(Plus(previous.tick, increment), now.tick) == Abs(previous) + increment - Abs(now) > 0
  {
  }

  /** The wake time kept from call to call. */
  function WakeTimes(previous: Time, increments: seq<nat>): Time
    requires forall i :: 0 <= i < |increments| ==> increments[i] < M
  {
    if increments == [] then previous
    else
      var rest := increments[..|increments| - 1];
      Later(WakeTimes(previous, rest), increments[|increments| - 1])
  }

  function Sum(s: seq<nat>): nat { if s == [] then 0 else Sum(s[..|s| - 1]) + s[|s| - 1] }

  /** No drift: after any calls the kept time is the first plus all increments. */
  lemma {:induction false} NoDrift(previous: Time, increments: seq<nat>)
    requires forall i :: 0 <= i < |increments| ==> increments[i] < M
    ensures Abs(WakeTimes(previous, increments)) == Abs(previous) + Sum(increments)
  {
    if increments != [] {
      var rest := increments[..|increments| - 1];
      NoDrift(previous, rest);
      LaterIsAbs(WakeTimes(previous, rest), increments[|increments| - 1]);
    }
  }

  /** The variable vTaskDelayUntil updates in its caller. */
  class PeriodicTask {
    var previousWakeTime: nat
    ghost var previous: Time

    /** The block time, or none.  `lag` below a wrap is what the caller must ensure. */
    method DelayUntil(increment: nat, now: nat, ghost time: Time) returns (block: nat, delays: bool)
      requires previousWakeTime == previous.tick && now == time.tick && Within(previous, time) && 0 < increment < M
      modifies this
      ensures previous == Later(old(previous), increment) && previousWakeTime == previous.tick
      ensures delays <==> Abs(old(previous)) + increment > Abs(time)
      ensures delays ==> block > 0 && Abs(time) + block == Abs(previous)
    {
      hide Abs;
      DelayUntilExact(previous, increment, time);
      LaterIsAbs(previous, increment);
      var wake := Plus(previousWakeTime, increment);
      delays := false;
      if now < previousWakeTime {
        if wake < previousWakeTime && wake > now {
          delays := true;
        }
      } else {
        if wake < previousWakeTime || wake > now {
          delays := true;
        }
      }
      previousWakeTime := wake;
      previous := Later(previous, increment);
      block := if delays then Minus(wake, now) else 0;
    }
  }
}
