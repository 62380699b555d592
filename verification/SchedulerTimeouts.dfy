/** vTaskDelayUntil and xTaskCheckForTimeOut: the two places where a task compares wrapped tick counts. */
module SchedulerTimeouts {
  import opened Ticks
  import opened Rosters
  import opened Scheduler
  import opened SchedulerTime
  import opened SchedulerTasks
  import opened SchedulerSafety

  // ----- periodic delays -----

  /** The decision of vTaskDelayUntil, given the tick count and the previous wake time. */
  predicate ShouldDelay(tick: Tick, previous: Tick, increment: Tick) {
    var wake := Plus(previous, increment);
    if tick < previous then wake < previous && wake > tick else wake < previous || wake > tick
  }

  /** The body of vTaskDelayUntil between suspending and resuming the scheduler. */
  function DelayUntil(s: Sched, previous: Tick, increment: Tick): (r: Sched)
    requires s.Shape()
    ensures r.Shape()
  {
    if ShouldDelay(s.tick, previous, increment)
    then BlockCurrent(s, Minus(Plus(previous, increment), s.tick), false)
    else s
  }

  /** The decision for a caller that is late ticks past its previous wake time: it is right, that is, it
      delays exactly when the next wake time is still to come, unless the caller is more than a whole
      wrap late and the next wake time falls ahead of the wrapped tick count. */
  lemma DelayDecision(previous: nat, late: nat, increment: Tick)
    requires increment > 0
    ensures var p, tick := previous % 0x1_0000_0000, (previous + late) % 0x1_0000_0000;
      (ShouldDelay(tick, p, increment) <==> increment > late) <==>
      !(late >= 0x1_0000_0000 && increment > late % 0x1_0000_0000)
  {
    var p, tick := previous % 0x1_0000_0000, (previous + late) % 0x1_0000_0000;
    var m := late % 0x1_0000_0000;
    LateModulo(previous, late);
    assert ShouldDelay(tick, p, increment) <==> increment > m;
  }

  /** A whole wrap and a tick late, a task with a period of 10 ticks is put to sleep once more. */
  lemma WholeWrapLate(previous: nat)
    ensures var now := previous + 0x1_0000_0001;
      previous + 10 < now && ShouldDelay(now % 0x1_0000_0000, previous % 0x1_0000_0000, 10)
  {
    DelayDecision(previous, 0x1_0000_0001, 10);
  }

  lemma LateModulo(previous: nat, late: nat)
    ensures var p, m := previous % 0x1_0000_0000, late % 0x1_0000_0000;
      (previous + late) % 0x1_0000_0000 == if p + m < 0x1_0000_0000 then p + m else p + m - 0x1_0000_0000
  {
  }

  lemma OnTimeDecision(previous: nat, now: nat, increment: Tick)
    requires increment > 0 && previous <= now < previous + 0x1_0000_0000
    ensures var p, tick := previous % 0x1_0000_0000, now % 0x1_0000_0000;
      && (ShouldDelay(tick, p, increment) <==> previous + increment > now)
      && Plus(p, increment) == (previous + increment) % 0x1_0000_0000
      && (previous + increment > now ==> Minus(Plus(p, increment), tick) == previous + increment - now)
  {
    DelayDecision(previous, now - previous, increment);
    LateModulo(previous, now - previous);
    LateModulo(previous, increment);
  }

  /** A caller less than a wrap late blocks exactly if its next wake time lies after now, and then it
      wakes at exactly that time, whatever has wrapped in between. */
  lemma DelayUntilIsPeriodic(s: Sched, previous: nat, increment: Tick)
    requires s.Inv() && s.state.place[s.current].Ready? && s.current != IDLE && increment > 0
    requires previous <= s.Now() < previous + 0x1_0000_0000
    ensures var r := DelayUntil(s, previous % 0x1_0000_0000, increment);
      && r.Inv() && OnlyMoves(s, r, s.current) && s.current in r.tcbs
      && if previous + increment > s.Now() then Where(r, s.current) == Until(previous + increment) else r == s
  {
    TickIsLow(s);
    hide Roster.Consistent, Sched.ReadyListsMatch, Sched.DelaysSorted, Sched.EventWaitersBlocked, Sched.Timely,
         Sched.Settled, Sched.Now, BlockCurrent, Where, OnlyMoves, ShouldDelay, Plus, Minus;
    OnTimeDecision(previous, s.Now(), increment);
    if previous + increment > s.Now() {
      BlockSafe(s, previous + increment - s.Now(), false);
    } else {
      NothingMoves(s, s.current);
    }
  }

  lemma TickIsLow(s: Sched)
    ensures s.Now() % 0x1_0000_0000 == s.tick
  {
  }

  // ----- timeouts -----

  datatype TimeOut = TimeOut(overflowCount: nat, timeOnEntering: Tick)
  {
    /** The unbounded tick number at which the timeout was last set. */
    function EnteredAt(): nat { overflowCount * 0x1_0000_0000 + timeOnEntering }
  }

  /** vTaskSetTimeOutState */
  function SetTimeOut(s: Sched): TimeOut { TimeOut(s.overflows, s.tick) }

  datatype Check = Check(timedOut: bool, timeOut: TimeOut, ticksToWait: Tick)

  /** xTaskCheckForTimeOut */
  function CheckForTimeOut(s: Sched, t: TimeOut, ticksToWait: Tick): Check
    requires s.current in s.tcbs
  {
    var elapsed := Minus(s.tick, t.timeOnEntering);
    if Aborted(s) then Check(true, t, ticksToWait)
    else if ticksToWait == MAX_DELAY then Check(false, t, ticksToWait)
    else if s.overflows != t.overflowCount && s.tick >= t.timeOnEntering then Check(true, t, ticksToWait)
    else if elapsed < ticksToWait then Check(false, SetTimeOut(s), ticksToWait - elapsed)
    else Check(true, t, 0)
  }

  /** Unless the delay was aborted, the answer is right except after more than one full wrap, with the
      wrapped tick count short of the entry time by more than the wait allows. */
  lemma TimeOutDecision(s: Sched, t: TimeOut, ticksToWait: Tick)
    requires s.current in s.tcbs && ticksToWait != MAX_DELAY && s.Now() >= t.EnteredAt()
    ensures Aborted(s) ==> CheckForTimeOut(s, t, ticksToWait).timedOut
    ensures !Aborted(s) ==>
              ((CheckForTimeOut(s, t, ticksToWait).timedOut <==> s.Now() - t.EnteredAt() >= ticksToWait) <==>
               !(s.overflows >= t.overflowCount + 2 && s.tick < t.timeOnEntering
                 && Minus(s.tick, t.timeOnEntering) < ticksToWait))
  {
  }

  /** A check that finds the time used up leaves the entry time alone; within a wrap of it no time is left over. */
  lemma TimedOutLeaves(s: Sched, t: TimeOut, ticksToWait: Tick)
    requires s.current in s.tcbs && !Aborted(s) && s.Now() >= t.EnteredAt()
    ensures var c, late := CheckForTimeOut(s, t, ticksToWait), s.Now() - t.EnteredAt();
      c.timedOut ==>
        && c.timeOut == t
        && (late < 0x1_0000_0000 ==> c.ticksToWait == 0)
        && (late >= 0x1_0000_0000 && s.tick >= t.timeOnEntering ==> c.ticksToWait == ticksToWait)
  {
  }

  /** For example: 16 ticks before the count wraps a task begins to wait for 100 ticks, and it gets to look
      again when the count has wrapped a second time; it is told to wait on. */
  lemma TimeOutForgotten(s: Sched)
    requires s.current in s.tcbs && !Aborted(s) && s.overflows == 2 && s.tick == 0
    ensures var t := TimeOut(0, 0xFFFF_FFF0);
      s.Now() - t.EnteredAt() == 0x1_0000_0010 && CheckForTimeOut(s, t, 100) == Check(false, SetTimeOut(s), 84)
  {
    TimeOutDecision(s, TimeOut(0, 0xFFFF_FFF0), 100);
  }

  /** The check made in times[k] with what that in times[k - 1] left over, and so on back to the first. */
  function ChecksInARow(times: seq<Sched>, t: TimeOut, ticksToWait: Tick, k: nat): Check
    requires k < |times| && forall i :: 0 <= i <= k ==> times[i].current in times[i].tcbs
    decreases k
  {
    if k == 0 then CheckForTimeOut(times[0], t, ticksToWait)
    else
      var before := ChecksInARow(times, t, ticksToWait, k - 1);
      CheckForTimeOut(times[k], before.timeOut, before.ticksToWait)
  }

  /** A wait for portMAX_DELAY ticks never times out, however often and however late it is checked, unless it is
      aborted; it stays the same wait for ever. */
  lemma {:induction false} ForEverIsForEver(times: seq<Sched>, t: TimeOut, k: nat)
    requires k < |times| && forall i :: 0 <= i <= k ==> times[i].current in times[i].tcbs && !Aborted(times[i])
    ensures ChecksInARow(times, t, MAX_DELAY, k) == Check(false, t, MAX_DELAY)
    decreases k
  {
    if k > 0 {
      ForEverIsForEver(times, t, k - 1);
    }
  }

  /** An aborted delay is used up at once, and nothing else about the wait changes. */
  lemma AbortedEnds(s: Sched, t: TimeOut, ticksToWait: Tick)
    requires s.current in s.tcbs && Aborted(s) && s.Shape()
    ensures CheckForTimeOut(s, t, ticksToWait) == Check(true, t, ticksToWait)
    ensures var r := AfterCheck(s); r.current in r.tcbs && !Aborted(r)
  {
    hide Roster.Consistent;
  }

  /** The k-th check of a waiting loop is made in state times[k] with what the check before left over. */
  ghost predicate ChecksAt(times: seq<Sched>, checks: seq<Check>, start: Sched, ticksToWait: Tick, k: nat)
    requires |times| == |checks| > k
  {
    && times[k].current in times[k].tcbs && !Aborted(times[k])
    && if k == 0 then
      && checks[0] == CheckForTimeOut(times[0], SetTimeOut(start), ticksToWait)
      && start.Now() <= times[0].Now() && times[0].overflows < start.overflows + 2
    else
      && !checks[k - 1].timedOut
      && checks[k] == CheckForTimeOut(times[k], checks[k - 1].timeOut, checks[k - 1].ticksToWait)
      && times[k - 1].Now() <= times[k].Now() && times[k].overflows < times[k - 1].overflows + 2
  }

  ghost predicate IsWaitLoop(times: seq<Sched>, checks: seq<Check>, start: Sched, ticksToWait: Tick) {
    && |times| == |checks|
    && forall k :: 0 <= k < |checks| ==> ChecksAt(times, checks, start, ticksToWait, k)
  }

  lemma OneCheck(s: Sched, before: Sched, ticksToWait: Tick)
    requires s.current in s.tcbs && !Aborted(s)
    requires ticksToWait != MAX_DELAY && before.Now() <= s.Now() && s.overflows < before.overflows + 2
    ensures var c := CheckForTimeOut(s, SetTimeOut(before), ticksToWait);
      && (c.timedOut <==> s.Now() - before.Now() >= ticksToWait)
      && (!c.timedOut ==> c.ticksToWait + (s.Now() - before.Now()) == ticksToWait && c.timeOut == SetTimeOut(s))
  {
    TimeOutDecision(s, SetTimeOut(before), ticksToWait);
  }

  /** However often the task is woken, finds nothing and waits again, the time it may still wait and the
      time it has waited add up to the time it asked for, and it is told to stop at the first check at
      which that time is used up and at no check before. */
  lemma {:induction false} TimeoutBudget(times: seq<Sched>, checks: seq<Check>, start: Sched, ticksToWait: Tick, k: nat)
    requires IsWaitLoop(times, checks, start, ticksToWait) && ticksToWait != MAX_DELAY && k < |checks|
    ensures start.Now() <= times[k].Now()
    ensures checks[k].timedOut <==> times[k].Now() - start.Now() >= ticksToWait
    ensures !checks[k].timedOut ==>
              && checks[k].ticksToWait + (times[k].Now() - start.Now()) == ticksToWait
              && checks[k].timeOut == SetTimeOut(times[k])
    decreases k
  {
    hide CheckForTimeOut, Sched.Now;
    assert ChecksAt(times, checks, start, ticksToWait, k);
    if k > 0 {
      TimeoutBudget(times, checks, start, ticksToWait, k - 1);
      OneCheck(times[k], times[k - 1], checks[k - 1].ticksToWait);
    } else {
      OneCheck(times[0], start, ticksToWait);
    }
  }
}
