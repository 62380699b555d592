/** The machine-timer driver (mtimer.c).  The counter and the compare register behave as section 3.2.1 of
    the RISC-V Privileged Architecture manual, version 20211203, says: the counter counts up, and the timer
    interrupt is pending while it is at least the compare value. */
module Mtimers {

  type Word = w: int | 0 <= w < 0x1_0000_0000

  const WRAP64: int := 0x1_0000_0000_0000_0000

  function Hi(time: nat): nat { time / 0x1_0000_0000 }

  function Lo(time: nat): Word { time % 0x1_0000_0000 }

  function Join(hi: nat, lo: Word): nat { hi * 0x1_0000_0000 + lo }

  lemma JoinSplit(time: nat)
    ensures Join(Hi(time), Lo(time)) == time
  {
  }

  lemma HiMonotone(a: nat, b: nat)
    requires a <= b
    ensures Hi(a) <= Hi(b)
  {
  }

  /** The counter value at each access to a register of the timer: it never goes back and does not wrap. */
  ghost predicate Counts(clock: nat -> nat) {
    && (forall i, j :: i <= j ==> clock(i) <= clock(j))
    && (forall i :: clock(i) < WRAP64)
  }

  lemma HiInRange(clock: nat -> nat, i: nat)
    requires Counts(clock)
    ensures Hi(clock(i)) < 0x1_0000_0000
  {
    JoinSplit(clock(i));
  }

  // ----- the schedule of compare values -----

  /** The loop of mtimer_schedule_next: from next on in steps of ticks to the first value above now. */
  function CatchUp(next: nat, ticks: nat, now: nat): (r: nat)
    requires ticks > 0
    ensures r > now && r >= next
    ensures r == next || r - ticks <= now
    decreases now - next
  {
    if next <= now then CatchUp(next + ticks, ticks, now) else next
  }

  lemma CatchUpStep(next: nat, ticks: nat, now: nat)
    requires ticks > 0
    ensures CatchUp(next, ticks, now) == if next <= now then CatchUp(next + ticks, ticks, now) else next
  {
  }

  /** The compare value after a timer interrupt handled at time now. */
  function Reschedule(compare: nat, ticks: nat, now: nat): nat
    requires ticks > 0
  {
    CatchUp(compare + ticks, ticks, now)
  }

  /** value is start plus a whole number k of intervals. */
  ghost predicate OnGrid(value: nat, start: nat, ticks: nat, k: nat) {
    value == start + k * ticks
  }

  lemma GridStep(value: nat, start: nat, ticks: nat, k: nat)
    requires OnGrid(value, start, ticks, k)
    ensures OnGrid(value + ticks, start, ticks, k + 1)
  {
  }

  lemma {:induction false} CatchUpOnGrid(next: nat, ticks: nat, now: nat, start: nat, k: nat) returns (n: nat)
    requires ticks > 0 && OnGrid(next, start, ticks, k)
    ensures n >= k && OnGrid(CatchUp(next, ticks, now), start, ticks, n)
    decreases now - next
  {
    if next <= now {
      GridStep(next, start, ticks, k);
      n := CatchUpOnGrid(next + ticks, ticks, now, start, k + 1);
    } else {
      n := k;
    }
  }

  lemma GridLarger(ticks: nat, j: nat, n: nat)
    requires j <= n
    ensures j * ticks <= n * ticks
  {
  }

  /** Rescheduling picks the least value of the grid that is later than both now and the old deadline. */
  lemma RescheduleIsLeast(compare: nat, ticks: nat, now: nat, start: nat, k: nat, value: nat, j: nat)
    requires ticks > 0 && OnGrid(compare, start, ticks, k)
    requires OnGrid(value, start, ticks, j) && value > now && value > compare
    ensures Reschedule(compare, ticks, now) <= value
  {
    GridStep(compare, start, ticks, k);
    var n := CatchUpOnGrid(compare + ticks, ticks, now, start, k + 1);
    var r := Reschedule(compare, ticks, now);
    GridStrict(ticks, k, j);
    GridLarger(ticks, k + 1, j);
    if r > compare + ticks {
      assert r - ticks == start + (n - 1) * ticks;
      GridStrict(ticks, n - 1, j);
      GridLarger(ticks, n, j);
    }
  }

  lemma GridStrict(ticks: nat, a: nat, b: nat)
    requires a * ticks < b * ticks
    ensures a < b
  {
    if a >= b {
      GridLarger(ticks, b, a);
    }
  }

  /** The compare values written by successive interrupts handled at the given times. */
  function Deadlines(first: nat, ticks: nat, times: seq<nat>): seq<nat>
    requires ticks > 0
    decreases |times|
  {
    if times == [] then [first] else [first] + Deadlines(Reschedule(first, ticks, times[0]), ticks, times[1..])
  }

  /** Over all timer interrupts the compare value is the startup time plus a whole number of intervals, and
      that number goes up with every interrupt: the schedule never drifts, however late the handler is. */
  lemma {:induction false} DeadlinesStayOnGrid(first: nat, ticks: nat, times: seq<nat>, start: nat, k: nat)
    returns (ks: seq<nat>)
    requires ticks > 0 && OnGrid(first, start, ticks, k)
    ensures var d := Deadlines(first, ticks, times);
      && |ks| == |d| == |times| + 1 && ks[0] == k
      && (forall i :: 0 <= i < |ks| ==> OnGrid(d[i], start, ticks, ks[i]))
      && (forall i {:trigger ks[i]} :: 0 < i < |ks| ==> ks[i - 1] < ks[i])
      && (forall i {:trigger d[i]} :: 0 < i < |d| ==> d[i] > times[i - 1])
    decreases |times|
  {
    if times == [] {
      ks := [k];
    } else {
      GridStep(first, start, ticks, k);
      var n := CatchUpOnGrid(first + ticks, ticks, times[0], start, k + 1);
      var rest := DeadlinesStayOnGrid(Reschedule(first, ticks, times[0]), ticks, times[1..], start, n);
      ks := [k] + rest;
    }
  }

  // ----- writing the compare register -----

  /** A driver in the middle of mtimer_write_compare, after the new high word is written and before the low
      word is.  Though the value to be written lies in the future, the timer interrupt is pending for that
      moment exactly if the new high word is that of the present time and the old low word is not later
      than the low word of the present time. */
  lemma WriteMayInterrupt(d: Driver, value: nat, n: nat)
    requires d.cmpHi == Hi(value) && value > d.clock(n)
    ensures d.Pending(n) <==> Hi(value) == Hi(d.clock(n)) && Lo(d.clock(n)) >= d.cmpLo
  {
    JoinSplit(d.clock(n));
    HiMonotone(d.clock(n), value);
  }

  /** A deadline that has passed is replaced by the next one, chosen by the time that access i read.  Access n
      finds the register between the two writes, the new deadline being still ahead: the interrupt is
      pending exactly if the high word of the new deadline has been reached, and either the old one shares
      it or the low word of the old one has been reached again. */
  lemma RescheduleInterrupts(d: Driver, compare: nat, ticks: nat, i: nat, n: nat)
    requires Counts(d.clock) && i <= n && ticks > 0 && compare <= d.clock(i)
    requires var next := Reschedule(compare, ticks, d.clock(i));
      next > d.clock(n) && d.cmpHi == Hi(next) && d.cmpLo == Lo(compare)
    ensures d.Pending(n) <==>
            && d.cmpHi == Hi(d.clock(n))
            && (Hi(compare) == Hi(d.clock(n)) || Lo(d.clock(n)) >= Lo(compare))
  {
    var now := d.clock(n);
    assert d.clock(i) <= now;
    WriteMayInterrupt(d, Reschedule(compare, ticks, d.clock(i)), n);
    JoinSplit(compare);
    JoinSplit(now);
  }

  /** For example: the deadline 100 has passed, access i has read the time 105, the next deadline is 200, and by
      access n, with the high word written, it is 110. */
  lemma PendingBetweenWrites(d: Driver, i: nat, n: nat)
    requires Counts(d.clock) && i <= n && d.clock(i) == 105 && d.clock(n) == 110
    requires d.cmpLo == 100 && d.cmpHi == Hi(200)
    ensures Reschedule(100, 100, 105) == 200 && d.Pending(n)
  {
    CatchUpStep(200, 100, 105);
    RescheduleInterrupts(d, 100, 100, i, n);
  }

  /** MTIMER_RegDef and the static variables of the driver. */
  class Driver {
    /** The counter at the n-th access, and how many accesses there have been. */
    const clock: nat -> nat
    var accesses: nat
    var cmpHi: Word
    var cmpLo: Word
    var tickCount: Word
    var interval: Word
    var startup: nat
    ghost var k: nat

    constructor (clock: nat -> nat)
      ensures this.clock == clock && accesses == 0
    {
      this.clock := clock;
      accesses := 0;
      cmpHi, cmpLo, tickCount, interval, startup := 0, 0, 0, 0, 0;
      k := 0;
    }

    function Compare(): nat
      reads this
    {
      Join(cmpHi, cmpLo)
    }

    /** Whether the timer interrupt is pending at the n-th access. */
    predicate Pending(n: nat)
      reads this
    {
      clock(n) >= Compare()
    }

    /** The programmed deadline is startup + k * interval. */
    ghost predicate Scheduled()
      reads this
    {
      interval > 0 && OnGrid(Compare(), startup, interval, k)
    }

    method ReadHi() returns (hi: Word)
      requires Counts(clock)
      modifies `accesses
      ensures hi == Hi(clock(old(accesses))) && accesses == old(accesses) + 1
    {
      HiInRange(clock, accesses);
      hi := Hi(clock(accesses));
      accesses := accesses + 1;
    }

    method ReadLo() returns (lo: Word)
      modifies `accesses
      ensures lo == Lo(clock(old(accesses))) && accesses == old(accesses) + 1
    {
      lo := Lo(clock(accesses));
      accesses := accesses + 1;
    }

    /** mtimer_read_time: the value returned is the full counter at the access that read the low word, and
        the loop ends because the high word cannot change for ever. */
    method ReadTime() returns (time: nat, ghost at: nat)
      requires Counts(clock)
      modifies `accesses
      ensures old(accesses) <= at < accesses && time == clock(at) < WRAP64
    {
      time, at := 0, accesses;
      while true
        invariant old(accesses) <= accesses
        decreases 0x1_0000_0000 - Hi(clock(accesses))
      {
        ghost var first := accesses;
        var hi := ReadHi();
        at := accesses;
        var lo := ReadLo();
        var again := ReadHi();
        HiMonotone(clock(first), clock(at));
        HiMonotone(clock(at), clock(at + 1));
        if hi == again {
          JoinSplit(clock(at));
          time := Join(hi, lo);
          return;
        }
        HiMonotone(clock(at + 1), clock(accesses));
        HiInRange(clock, accesses);
      }
    }

    /** mtimer_write_compare */
    method WriteCompare(value: nat)
      requires value < WRAP64
      modifies `cmpHi, `cmpLo
      ensures Compare() == value
    {
      cmpHi := 0xFFFF_FFFF;
      WriteCompareHi(value);
      cmpLo := Lo(value);
      JoinSplit(value);
    }

    /** The second of the three writes. */
    method WriteCompareHi(value: nat)
      requires value < WRAP64
      modifies `cmpHi
      ensures Join(cmpHi, Lo(value)) == value
      ensures forall n | value > clock(n) ::
        Pending(n) <==> Hi(value) == Hi(clock(n)) && Lo(clock(n)) >= cmpLo
    {
      JoinSplit(value);
      cmpHi := Hi(value);
      forall n | value > clock(n) ensures Pending(n) <==> Hi(value) == Hi(clock(n)) && Lo(clock(n)) >= cmpLo {
        WriteMayInterrupt(this, value, n);
      }
    }

    /** The first loop of mtimer_schedule_next: nobody else writes the register. */
    method ReadCompare() returns (value: nat)
      ensures value == Compare()
    {
      var hi, lo := 0, 0;
      var again := true;
      while again
        invariant !again ==> hi == cmpHi && lo == cmpLo
        decreases again
      {
        hi := cmpHi;
        lo := cmpLo;
        again := hi != cmpHi;
      }
      value := Join(hi, lo);
    }

    /** mtimer_config, as far as the schedule goes. */
    method Configure(intervalTicks: Word)
      requires Counts(clock) && intervalTicks > 0
      requires forall i :: clock(i) + intervalTicks < WRAP64
      modifies this
      ensures Scheduled() && k == 1 && interval == intervalTicks && tickCount == 0
      ensures exists at :: old(accesses) <= at < accesses && startup == clock(at)
    {
      interval := intervalTicks;
      tickCount := 0;
      ghost var at;
      startup, at := ReadTime();
      WriteCompare(startup + intervalTicks);
      k := 1;
    }

    /** The second loop of mtimer_schedule_next. */
    method AdvancePast(first: nat, ticks: nat, now: nat, ghost start: nat, ghost k0: nat)
      returns (next: nat, ghost n: nat)
      requires ticks > 0 && OnGrid(first, start, ticks, k0)
      ensures next == CatchUp(first, ticks, now) && n >= k0 && OnGrid(next, start, ticks, n)
    {
      hide OnGrid, CatchUp;
      next, n := first, k0;
      while next <= now
        invariant OnGrid(next, start, ticks, n) && n >= k0
        invariant CatchUp(next, ticks, now) == CatchUp(first, ticks, now)
        decreases now - next
      {
        GridStep(next, start, ticks, n);
        CatchUpStep(next, ticks, now);
        next := next + ticks;
        n := n + 1;
      }
      CatchUpStep(next, ticks, now);
    }

    /** mtimer_schedule_next */
    method ScheduleNext(ticks: Word) returns (now: nat, ghost at: nat)
      requires Counts(clock) && Scheduled() && ticks == interval
      requires Compare() + ticks < WRAP64 && forall i :: clock(i) + ticks < WRAP64
      modifies `accesses, `cmpHi, `cmpLo, `k
      ensures Scheduled() && k > old(k)
      ensures old(accesses) <= at < accesses && now == clock(at)
      ensures Compare() == Reschedule(old(Compare()), ticks, now)
    {
      hide OnGrid, Hi, Lo, Join;
      GridStep(Compare(), startup, interval, k);
      var compare := ReadCompare();
      now, at := ReadTime();
      var next;
      ghost var n;
      next, n := AdvancePast(compare + ticks, ticks, now, startup, k + 1);
      WriteCompare(next);
      k := n;
    }

    /** mtime_handler, up to the user's callback. */
    method Handle() returns (now: nat, ghost at: nat)
      requires Counts(clock) && Scheduled()
      requires Compare() + interval < WRAP64 && forall i :: clock(i) + interval < WRAP64
      modifies this
      ensures Scheduled() && k > old(k) && startup == old(startup) && interval == old(interval)
      ensures old(accesses) <= at < accesses && now == clock(at)
      ensures Compare() == Reschedule(old(Compare()), interval, now) > now
      ensures tickCount == if old(tickCount) == 0xFFFF_FFFF then 0 else old(tickCount) + 1
    {
      tickCount := if tickCount == 0xFFFF_FFFF then 0 else tickCount + 1;
      now, at := ScheduleNext(interval);
    }
  }
}
