/** Auto-reload timers over runs of the daemon. */
module TimerRuns {
  import opened Ticks
  import opened ListValues
  import opened Timers

  // ----- what belongs to one timer -----

  function Mine(list: seq<Entry>, x: Timer): seq<Tick> {
    if list == [] then []
    else if list[0].timer == x then [list[0].value] + Mine(list[1..], x) else Mine(list[1..], x)
  }

  function MyCommands(queue: seq<Command>, x: Timer): seq<Command> {
    if queue == [] then []
    else if queue[0].timer == x then [queue[0]] + MyCommands(queue[1..], x) else MyCommands(queue[1..], x)
  }

  function MyCalls(calls: seq<Call>, x: Timer): seq<nat> {
    if calls == [] then []
    else if calls[0].timer == x then [calls[0].due] + MyCalls(calls[1..], x) else MyCalls(calls[1..], x)
  }

  lemma {:induction false} MineSplit(a: seq<Entry>, b: seq<Entry>, x: Timer)
    ensures Mine(a + b, x) == Mine(a, x) + Mine(b, x)
  {
    if a == [] {
      assert a + b == b;
    } else {
      MineSplit(a[1..], b, x);
      assert (a + b)[1..] == a[1..] + b;
      var p, q := Mine(a[1..], x), Mine(b, x);
      assert [a[0].value] + (p + q) == ([a[0].value] + p) + q;
    }
  }

  lemma {:induction false} MyCommandsSplit(a: seq<Command>, b: seq<Command>, x: Timer)
    ensures MyCommands(a + b, x) == MyCommands(a, x) + MyCommands(b, x)
  {
    if a == [] {
      assert a + b == b;
    } else {
      MyCommandsSplit(a[1..], b, x);
      assert (a + b)[1..] == a[1..] + b;
      var p, q := MyCommands(a[1..], x), MyCommands(b, x);
      assert [a[0]] + (p + q) == ([a[0]] + p) + q;
    }
  }

  lemma {:induction false} MyCallsSplit(a: seq<Call>, b: seq<Call>, x: Timer)
    ensures MyCalls(a + b, x) == MyCalls(a, x) + MyCalls(b, x)
  {
    if a == [] {
      assert a + b == b;
    } else {
      MyCallsSplit(a[1..], b, x);
      assert (a + b)[1..] == a[1..] + b;
      var p, q := MyCalls(a[1..], x), MyCalls(b, x);
      assert [a[0].due] + (p + q) == ([a[0].due] + p) + q;
    }
  }

  lemma OneMoreCommand(queue: seq<Command>, c: Command, x: Timer)
    ensures MyCommands(queue + [c], x) == if c.timer == x then MyCommands(queue, x) + [c] else MyCommands(queue, x)
  {
    MyCommandsSplit(queue, [c], x);
    assert [c][1..] == [];
  }

  lemma OneMoreCall(calls: seq<Call>, c: Call, x: Timer)
    ensures MyCalls(calls + [c], x) == if c.timer == x then MyCalls(calls, x) + [c.due] else MyCalls(calls, x)
  {
    MyCallsSplit(calls, [c], x);
    assert [c][1..] == [];
  }

  lemma MineInserted(list: seq<Entry>, e: Entry, x: Timer)
    ensures e.timer != x ==> Mine(Insert(list, e), x) == Mine(list, x)
    ensures e.timer == x && Mine(list, x) == [] ==> Mine(Insert(list, e), x) == [e.value]
  {
    var p := StepOver(Values(list), e.value);
    MineSplit(list[..p] + [e], list[p..], x);
    MineSplit(list[..p], [e], x);
    MineSplit(list[..p], list[p..], x);
    assert list == list[..p] + list[p..];
  }

  lemma {:induction false} MineRemoved(list: seq<Entry>, y: Timer, x: Timer)
    ensures Mine(RemoveTimer(list, y), x) == if x == y then [] else Mine(list, x)
  {
    if list != [] {
      MineRemoved(list[1..], y, x);
      if list[0].timer != y {
        var r := RemoveTimer(list[1..], y);
        assert ([list[0]] + r)[1..] == r;
      }
    }
  }

  lemma {:induction false} MineHasHead(list: seq<Entry>, x: Timer)
    requires Mine(list, x) != []
    ensures exists i :: 0 <= i < |list| && list[i].timer == x && list[i].value == Mine(list, x)[0]
  {
    if list[0].timer == x {
      assert list[0].value == Mine(list, x)[0];
    } else {
      MineHasHead(list[1..], x);
      var i :| 0 <= i < |list[1..]| && list[1..][i].timer == x && list[1..][i].value == Mine(list[1..], x)[0];
      assert list[i + 1].timer == x;
    }
  }

  // ----- the schedule -----

  /** The callbacks fall due one period apart, the first one period after start. */
  ghost predicate Periodic(calls: seq<nat>, start: nat, period: nat) {
    calls != [] ==>
      var n := |calls| - 1;
      calls[n] == Latest(calls[..n], start) + period && Periodic(calls[..n], start, period)
  }

  /** The tick at which the latest callback was due, or the timer was started. */
  function Latest(calls: seq<nat>, start: nat): nat {
    if calls == [] then start else calls[|calls| - 1]
  }

  datatype Whereabouts = InCurrent | InOverflow | InQueue | InHand

  /** Timer x was started at tick start and has been left alone: its callbacks so far are the first ones of
      its schedule, and it is in exactly one place, set for the next.  The current list stands for the
      given epoch. */
  ghost predicate OnSchedule(d: Daemon, x: Timer, start: nat, period: Period, epoch: nat, w: Whereabouts) {
    var calls := MyCalls(d.calls, x);
    var armed := Latest(calls, start);
    var due := armed + period;
    && x in d.timers && d.timers[x].period == period && d.timers[x].autoReload
    && Periodic(calls, start, period)
    && Mine(d.current, x) == (if w == InCurrent then [Low(due)] else [])
    && Mine(d.overflow, x) == (if w == InOverflow then [Low(due)] else [])
    && MyCommands(d.queue, x) == (if w == InQueue then [Command(x, Start, Low(armed), armed)] else [])
    && (w == InCurrent ==> Epoch(due) == epoch)
    && (w == InOverflow ==> Epoch(due) == epoch + 1)
  }

  lemma Fired(calls: seq<nat>, start: nat, period: nat)
    requires Periodic(calls, start, period)
    ensures var next := calls + [Latest(calls, start) + period];
      Periodic(next, start, period) && Latest(next, start) == Latest(calls, start) + period
  {
    var next := calls + [Latest(calls, start) + period];
    assert next[..|calls|] == calls;
  }

  // ----- switching the lists -----

  lemma ReloadEpoch(due: nat, period: Period)
    ensures Plus(Low(due), period) == Low(due + period)
    ensures Plus(Low(due), period) > Low(due) <==> Epoch(due + period) == Epoch(due)
  {
    PlusLow(due, period);
    EpochStep(due, due + period);
  }

  /** x itself expires in the switch. */
  lemma SwitchMine(d: Daemon, x: Timer, start: nat, period: Period)
    requires Known(d) && d.current != [] && d.current[0].timer == x
    requires OnSchedule(d, x, start, period, Epoch(d.last), InCurrent)
    ensures var w := if Mine(SwitchOne(d).current, x) != [] then InCurrent else InQueue;
      OnSchedule(SwitchOne(d), x, start, period, Epoch(d.last), w)
  {
    hide Low, Epoch, High, Plus, Insert, Periodic, Latest;
    var e := d.current[0];
    var due := Latest(MyCalls(d.calls, x), start) + period;
    LowHigh(due);
    assert Mine(d.current, x)[0] == e.value && Mine(d.current, x)[1..] == Mine(d.current[1..], x);
    assert High(Epoch(d.last), e.value) == due;
    Fired(MyCalls(d.calls, x), start, period);
    OneMoreCall(d.calls, Call(x, due), x);
    ReloadEpoch(due, period);
    MineInserted(d.current[1..], Entry(x, Plus(e.value, period)), x);
    OneMoreCommand(d.queue, Command(x, Start, e.value, due), x);
  }

  /** Somebody else does. */
  lemma SwitchOther(d: Daemon, x: Timer, start: nat, period: Period, w: Whereabouts)
    requires Known(d) && d.current != [] && d.current[0].timer != x
    requires OnSchedule(d, x, start, period, Epoch(d.last), w)
    ensures OnSchedule(SwitchOne(d), x, start, period, Epoch(d.last), w)
  {
    hide Low, Epoch, High, Plus, Insert, Periodic, Latest;
    var e := d.current[0];
    var due := High(Epoch(d.last), e.value);
    OneMoreCall(d.calls, Call(e.timer, due), x);
    MineInserted(d.current[1..], Entry(e.timer, Plus(e.value, d.timers[e.timer].period)), x);
    OneMoreCommand(d.queue, Command(e.timer, Start, e.value, due), x);
  }

  lemma SwitchStep(d: Daemon, x: Timer, start: nat, period: Period, w: Whereabouts) returns (w': Whereabouts)
    requires Known(d) && d.current != [] && OnSchedule(d, x, start, period, Epoch(d.last), w)
    ensures OnSchedule(SwitchOne(d), x, start, period, Epoch(d.last), w')
    ensures w == InHand <==> w' == InHand
  {
    if d.current[0].timer == x {
      SwitchMine(d, x, start, period);
      w' := if Mine(SwitchOne(d).current, x) != [] then InCurrent else InQueue;
    } else {
      SwitchOther(d, x, start, period, w);
      w' := w;
    }
  }

  lemma {:induction false} SwitchKeepsSchedule(d: Daemon, x: Timer, start: nat, period: Period, w: Whereabouts)
    returns (w': Whereabouts)
    requires Known(d) && OnSchedule(d, x, start, period, Epoch(d.last), w)
    ensures OnSchedule(SwitchLists(d), x, start, period, Epoch(d.last) + 1, w')
    ensures w == InHand <==> w' == InHand
    decreases Slack(d.current)
  {
    hide OnSchedule, SwitchOne, Epoch;
    if d.current == [] {
      w' := if w == InOverflow then InCurrent else w;
      ListsSwitched(d, x, start, period, Epoch(d.last), w, w');
    } else {
      var v := SwitchStep(d, x, start, period, w);
      SwitchFrame(d);
      w' := SwitchKeepsSchedule(SwitchOne(d), x, start, period, v);
    }
  }

  lemma ListsSwitched(d: Daemon, x: Timer, start: nat, period: Period, epoch: nat, w: Whereabouts, w': Whereabouts)
    requires d.current == [] && OnSchedule(d, x, start, period, epoch, w)
    requires w' == if w == InOverflow then InCurrent else w
    ensures OnSchedule(d.(current := d.overflow, overflow := []), x, start, period, epoch + 1, w')
  {
    hide Low, Epoch, Periodic, Latest, MyCalls, MyCommands;
  }

  lemma SwitchFrame(d: Daemon)
    requires Known(d) && d.current != []
    ensures SwitchOne(d).last == d.last && SwitchOne(d).now == d.now
  {
  }

  lemma SampleKeepsSchedule(d: Daemon, x: Timer, start: nat, period: Period, w: Whereabouts) returns (w': Whereabouts)
    requires Known(d) && OnSchedule(d, x, start, period, Epoch(d.last), w) && d.last <= d.now < d.last + 0x1_0000_0000
    ensures OnSchedule(Sample(d), x, start, period, Epoch(Sample(d).last), w')
    ensures Sample(d).last == Sample(d).now == d.now
    ensures w == InHand <==> w' == InHand
  {
    hide OnSchedule, Low, Epoch, SwitchLists;
    EpochStep(d.last, d.now);
    SwitchKeepsTimers(d);
    var s := d;
    w' := w;
    if Low(d.now) < Low(d.last) {
      w' := SwitchKeepsSchedule(d, x, start, period, w);
      s := SwitchLists(d);
    }
    ScheduleIgnoresClock(s, d.now, x, start, period, Epoch(d.now), w');
  }

  lemma ScheduleIgnoresClock(d: Daemon, last: nat, x: Timer, start: nat, period: Period, epoch: nat, w: Whereabouts)
    requires OnSchedule(d, x, start, period, epoch, w)
    ensures OnSchedule(d.(last := last), x, start, period, epoch, w)
  {
    hide Low, Epoch, Periodic, Latest, MyCalls, MyCommands, Mine;
  }

  // ----- an expired timer -----

  lemma ExpireMine(d: Daemon, x: Timer, start: nat, period: Period) returns (w': Whereabouts)
    requires Known(d) && d.current != [] && d.current[0].timer == x && d.current[0].value <= Low(d.last)
    requires OnSchedule(d, x, start, period, Epoch(d.last), InCurrent)
    ensures OnSchedule(ProcessExpired(d), x, start, period, Epoch(d.last), w') && w' != InHand
    ensures Latest(MyCalls(ProcessExpired(d).calls, x), start) <= d.last
  {
    hide Low, Epoch, High, Plus, Place, Insert, Periodic, Latest, MyCalls, MyCommands;
    var e := d.current[0];
    var due := Latest(MyCalls(d.calls, x), start) + period;
    LowHigh(due);
    LowHigh(d.last);
    assert Mine(d.current, x)[0] == e.value && Mine(d.current, x)[1..] == Mine(d.current[1..], x);
    SameEpoch(due, d.last);
    PlacementIsExact(due, d.last, period);
    PlusLow(due, period);
    Fired(MyCalls(d.calls, x), start, period);
    OneMoreCall(d.calls, Call(x, due), x);
    OneMoreCommand(d.queue, Command(x, Start, e.value, due), x);
    MineInserted(d.current[1..], Entry(x, Plus(e.value, period)), x);
    MineInserted(d.overflow, Entry(x, Plus(e.value, period)), x);
    var p := Place(Plus(e.value, period), Low(d.last), e.value, period);
    w' := if p == ProcessNow then InQueue else if p == IntoCurrent then InCurrent else InOverflow;
  }

  lemma SameEpoch(due: nat, now: nat)
    requires Epoch(due) == Epoch(now) && Low(due) <= Low(now)
    ensures due <= now < due + 0x1_0000_0000
  {
  }

  lemma ResetOther(d: Daemon, y: Timer, info: Info, x: Timer, start: nat, period: Period, w: Whereabouts)
    requires y in d.timers && y != x && OnSchedule(d, x, start, period, Epoch(d.last), w)
    ensures OnSchedule(d.(timers := d.timers[y := info]), x, start, period, Epoch(d.last), w)
  {
    hide Low, Epoch, Periodic, Latest, MyCalls, MyCommands, Mine;
  }

  lemma PutOther(d: Daemon, y: Timer, next: Tick, place: Placement,
                 x: Timer, start: nat, period: Period, w: Whereabouts)
    requires Known(d) && y in d.timers && y != x && OnSchedule(d, x, start, period, Epoch(d.last), w)
    ensures OnSchedule(InsertActive(d, y, next, place), x, start, period, Epoch(d.last), w)
  {
    hide Low, Epoch, Periodic, Latest, Insert;
    MineInserted(d.current, Entry(y, next), x);
    MineInserted(d.overflow, Entry(y, next), x);
  }

  lemma QueueOther(d: Daemon, c: Command, x: Timer, start: nat, period: Period, epoch: nat, w: Whereabouts)
    requires c.timer != x && OnSchedule(d, x, start, period, epoch, w)
    ensures OnSchedule(d.(queue := d.queue + [c]), x, start, period, epoch, w)
  {
    hide Low, Epoch, Periodic, Latest, MyCalls, Mine;
    OneMoreCommand(d.queue, c, x);
  }

  lemma CallOther(d: Daemon, c: Call, x: Timer, start: nat, period: Period, epoch: nat, w: Whereabouts)
    requires c.timer != x && OnSchedule(d, x, start, period, epoch, w)
    ensures OnSchedule(d.(calls := d.calls + [c]), x, start, period, epoch, w)
    ensures MyCalls(d.calls + [c], x) == MyCalls(d.calls, x)
  {
    hide Low, Epoch, Periodic, Latest, MyCommands, Mine;
    OneMoreCall(d.calls, c, x);
  }

  lemma HeadOther(d: Daemon, x: Timer, start: nat, period: Period, epoch: nat, w: Whereabouts)
    requires d.current != [] && d.current[0].timer != x && OnSchedule(d, x, start, period, epoch, w)
    ensures OnSchedule(d.(current := d.current[1..]), x, start, period, epoch, w)
  {
    hide Low, Epoch, Periodic, Latest, MyCommands, MyCalls;
  }

  lemma ExpireOther(d: Daemon, x: Timer, start: nat, period: Period, w: Whereabouts)
    requires Known(d) && d.current != [] && d.current[0].timer != x
    requires OnSchedule(d, x, start, period, Epoch(d.last), w)
    ensures OnSchedule(ProcessExpired(d), x, start, period, Epoch(d.last), w)
    ensures MyCalls(ProcessExpired(d).calls, x) == MyCalls(d.calls, x)
  {
    hide Low, Epoch, High, Plus, Place, InsertActive, OnSchedule, MyCalls;
    var e := d.current[0];
    var info := d.timers[e.timer];
    var due, next := High(Epoch(d.last), e.value), Plus(e.value, info.period);
    var place := Place(next, Low(d.last), e.value, info.period);
    var removed := d.(current := d.current[1..]);
    HeadOther(d, x, start, period, Epoch(d.last), w);
    var rearmed := removed;
    if info.autoReload {
      if place == ProcessNow {
        QueueOther(removed, Command(e.timer, Start, e.value, due), x, start, period, Epoch(d.last), w);
        rearmed := removed.(queue := removed.queue + [Command(e.timer, Start, e.value, due)]);
      } else {
        PutOther(removed, e.timer, next, place, x, start, period, w);
        rearmed := InsertActive(removed, e.timer, next, place);
      }
    } else {
      ResetOther(removed, e.timer, info.(active := false), x, start, period, w);
      rearmed := removed.(timers := d.timers[e.timer := info.(active := false)]);
    }
    CallOther(rearmed, Call(e.timer, due), x, start, period, Epoch(d.last), w);
  }

  // ----- a command -----

  lemma TakeKeepsSchedule(d: Daemon, x: Timer, start: nat, period: Period, epoch: nat, w: Whereabouts)
    requires Known(d) && d.queue != [] && OnSchedule(d, x, start, period, epoch, w) && w != InHand
    ensures OnSchedule(TakeCommand(d), x, start, period, epoch, if d.queue[0].timer == x then InHand else w)
    ensures d.queue[0].timer == x ==>
              var armed := Latest(MyCalls(d.calls, x), start);
              w == InQueue && d.queue[0] == Command(x, Start, Low(armed), armed)
  {
    hide Low, Epoch, Periodic, Latest;
    var c := d.queue[0];
    MineRemoved(d.current, c.timer, x);
    MineRemoved(d.overflow, c.timer, x);
    if c.timer == x {
      assert MyCommands(d.queue, x)[0] == c && MyCommands(d.queue, x)[1..] == MyCommands(d.queue[1..], x);
    }
  }

  lemma StartMine(d: Daemon, x: Timer, start: nat, period: Period, armed: nat) returns (w': Whereabouts)
    requires Known(d) && OnSchedule(d, x, start, period, Epoch(d.last), InHand)
    requires armed == Latest(MyCalls(d.calls, x), start) <= d.last < armed + 0x1_0000_0000
    ensures OnSchedule(StartTimer(d, x, Low(armed), armed), x, start, period, Epoch(d.last), w') && w' != InHand
    ensures Latest(MyCalls(StartTimer(d, x, Low(armed), armed).calls, x), start) <= d.last
  {
    hide Low, Epoch, High, Plus, Place, Insert, Periodic, Latest, MyCalls, MyCommands;
    var due := armed + period;
    PlacementIsExact(armed, d.last, period);
    PlusLow(armed, period);
    Fired(MyCalls(d.calls, x), start, period);
    OneMoreCall(d.calls, Call(x, due), x);
    OneMoreCommand(d.queue, Command(x, Start, Low(due), due), x);
    MineInserted(d.current, Entry(x, Low(due)), x);
    MineInserted(d.overflow, Entry(x, Low(due)), x);
    var p := Place(Plus(Low(armed), period), Low(d.last), Low(armed), period);
    w' := if p == ProcessNow then InQueue else if p == IntoCurrent then InCurrent else InOverflow;
  }

  lemma StartOther(d: Daemon, y: Timer, value: Tick, at: nat, x: Timer, start: nat, period: Period, w: Whereabouts)
    requires Known(d) && y in d.timers && y != x && OnSchedule(d, x, start, period, Epoch(d.last), w)
    ensures OnSchedule(StartTimer(d, y, value, at), x, start, period, Epoch(d.last), w)
    ensures MyCalls(StartTimer(d, y, value, at).calls, x) == MyCalls(d.calls, x)
  {
    hide Low, Epoch, High, Plus, Place, InsertActive, OnSchedule, MyCalls;
    var info := d.timers[y];
    var next := Plus(value, info.period);
    var place := Place(next, Low(d.last), value, info.period);
    var active := d.(timers := d.timers[y := info.(active := true)]);
    ResetOther(d, y, info.(active := true), x, start, period, w);
    if place != ProcessNow {
      PutOther(active, y, next, place, x, start, period, w);
    } else {
      var call := Call(y, at + info.period);
      CallOther(active, call, x, start, period, Epoch(d.last), w);
      QueueOther(active.(calls := d.calls + [call]), Command(y, Start, next, at + info.period), x, start, period,
                 Epoch(d.last), w);
    }
  }

  // ----- nothing is early -----

  lemma SwitchOneTime(d: Daemon, x: Timer, start: nat)
    requires Known(d) && d.current != []
    ensures var before, after := Latest(MyCalls(d.calls, x), start), Latest(MyCalls(SwitchOne(d).calls, x), start);
      after == before || Epoch(after) == Epoch(d.last)
  {
    hide Low, Epoch, Plus, Insert, High;
    var e := d.current[0];
    HighLow(Epoch(d.last), e.value);
    OneMoreCall(d.calls, Call(e.timer, High(Epoch(d.last), e.value)), x);
  }

  lemma {:induction false} SwitchTime(d: Daemon, x: Timer, start: nat)
    requires Known(d)
    ensures var before, after := Latest(MyCalls(d.calls, x), start), Latest(MyCalls(SwitchLists(d).calls, x), start);
      after == before || Epoch(after) == Epoch(d.last)
    decreases Slack(d.current)
  {
    if d.current != [] {
      hide SwitchOne, Epoch, Latest, MyCalls, Known;
      SwitchOneTime(d, x, start);
      SwitchFrame(d);
      SwitchTime(SwitchOne(d), x, start);
    }
  }

  lemma SampleTime(d: Daemon, x: Timer, start: nat)
    requires Known(d) && d.last <= d.now < d.last + 0x1_0000_0000 && Latest(MyCalls(d.calls, x), start) <= d.now
    ensures Latest(MyCalls(Sample(d).calls, x), start) <= d.now
  {
    SwitchTime(d, x, start);
    EpochStep(d.last, d.now);
    var after := Latest(MyCalls(SwitchLists(d).calls, x), start);
    LowHigh(after);
    LowHigh(d.now);
    hide Low, Epoch, Latest, MyCalls, SwitchLists, Known;
  }

  // ----- runs -----

  datatype Step = Advance | Expire | Handle | Send(c: Command)

  /** The daemon gets to sample the time at least once per wrap, and handles a restart of timer x less than
      a wrap after its time; nobody but the daemon commands timer x. */
  predicate Enabled(d: Daemon, s: Step, x: Timer) {
    match s
    case Advance => true
    case Expire => d.now < d.last + 0x1_0000_0000
    case Handle =>
      && d.queue != [] && d.now < d.last + 0x1_0000_0000
      && (d.queue[0].timer == x ==> d.now < d.queue[0].at + 0x1_0000_0000)
    case Send(c) => c.timer in d.timers && c.timer != x
  }

  function Next(d: Daemon, s: Step): Daemon
    requires Known(d) && (s == Handle ==> d.queue != [])
  {
    match s
    case Advance => d.(now := d.now + 1)
    case Expire => ExpireOrBlock(d)
    case Handle => HandleCommand(d)
    case Send(c) => d.(queue := d.queue + [c])
  }

  ghost predicate Inv(d: Daemon, x: Timer, start: nat, period: Period) {
    && Known(d) && d.last <= d.now && Latest(MyCalls(d.calls, x), start) <= d.now
    && exists w :: w != InHand && OnSchedule(d, x, start, period, Epoch(d.last), w)
  }

  lemma AdvanceOk(d: Daemon, x: Timer, start: nat, period: Period)
    requires Inv(d, x, start, period)
    ensures Inv(Next(d, Advance), x, start, period)
  {
    var w :| w != InHand && OnSchedule(d, x, start, period, Epoch(d.last), w);
    hide Low, Epoch, Periodic, Latest, MyCalls, MyCommands, Mine;
    assert OnSchedule(d.(now := d.now + 1), x, start, period, Epoch(d.last), w);
  }

  lemma SendOk(d: Daemon, x: Timer, start: nat, period: Period, c: Command)
    requires Inv(d, x, start, period) && c.timer in d.timers && c.timer != x
    ensures Inv(Next(d, Send(c)), x, start, period)
  {
    var w :| w != InHand && OnSchedule(d, x, start, period, Epoch(d.last), w);
    OneMoreCommand(d.queue, c, x);
    hide Low, Epoch, Periodic, Latest, MyCalls, Mine;
    assert OnSchedule(Next(d, Send(c)), x, start, period, Epoch(d.last), w);
  }

  lemma ExpireOk(d: Daemon, x: Timer, start: nat, period: Period)
    requires Inv(d, x, start, period) && d.now < d.last + 0x1_0000_0000
    ensures Inv(Next(d, Expire), x, start, period)
  {
    hide OnSchedule, Sample, ProcessExpired, Low, Epoch, Latest, MyCalls;
    var w :| w != InHand && OnSchedule(d, x, start, period, Epoch(d.last), w);
    var v := SampleKeepsSchedule(d, x, start, period, w);
    SampleTime(d, x, start);
    var s := Sample(d);
    if Low(d.now) >= Low(d.last) && s.current != [] && s.current[0].value <= Low(s.now) {
      ExpiredFrame(s);
      if s.current[0].timer == x {
        HeadIsHere(s, x, start, period, v);
        var u := ExpireMine(s, x, start, period);
      } else {
        ExpireOther(s, x, start, period, v);
      }
    }
  }

  lemma ExpiredFrame(s: Daemon)
    requires Known(s) && s.current != []
    ensures ProcessExpired(s).now == s.now && ProcessExpired(s).last == s.last
  {
  }

  lemma HeadIsHere(s: Daemon, x: Timer, start: nat, period: Period, w: Whereabouts)
    requires OnSchedule(s, x, start, period, Epoch(s.last), w) && s.current != [] && s.current[0].timer == x
    ensures w == InCurrent
  {
    hide Low, Epoch, Periodic, Latest, MyCalls, MyCommands;
    assert Mine(s.current, x) != [];
  }

  lemma TakenFrame(d: Daemon)
    requires Known(d) && d.queue != []
    ensures TakeCommand(d).now == d.now && TakeCommand(d).last == d.last && TakeCommand(d).calls == d.calls
    ensures d.queue[0].timer in TakeCommand(d).timers
  {
  }

  lemma StartFrame(s: Daemon, y: Timer, value: Tick, at: nat)
    requires Known(s) && y in s.timers
    ensures StartTimer(s, y, value, at).now == s.now && StartTimer(s, y, value, at).last == s.last
  {
    hide Place, Plus, Low;
  }

  lemma HandleMine(d: Daemon, x: Timer, start: nat, period: Period)
    requires Inv(d, x, start, period) && Enabled(d, Handle, x) && d.queue[0].timer == x
    ensures Inv(Next(d, Handle), x, start, period)
  {
    hide OnSchedule, Sample, TakeCommand, StartTimer, Low, Epoch, Latest, MyCalls;
    var w :| w != InHand && OnSchedule(d, x, start, period, Epoch(d.last), w);
    TakeKeepsSchedule(d, x, start, period, Epoch(d.last), w);
    TakenFrame(d);
    TakenKnown(d);
    var t := TakeCommand(d);
    var v := SampleKeepsSchedule(t, x, start, period, InHand);
    InHandMakesNoCalls(t, x, start, period);
    var s, armed := Sample(t), Latest(MyCalls(d.calls, x), start);
    StartFrame(s, x, Low(armed), armed);
    var u := StartMine(s, x, start, period, armed);
  }

  /** While x is in no list, switching the lists makes no callback for it. */
  lemma InHandMakesNoCalls(d: Daemon, x: Timer, start: nat, period: Period)
    requires Known(d) && OnSchedule(d, x, start, period, Epoch(d.last), InHand)
    ensures MyCalls(Sample(d).calls, x) == MyCalls(d.calls, x)
  {
    hide Low, Epoch, Periodic, Latest;
    SwitchMakesNoCalls(d, x);
  }

  lemma {:induction false} SwitchMakesNoCalls(d: Daemon, x: Timer)
    requires Known(d) && Mine(d.current, x) == []
    ensures MyCalls(SwitchLists(d).calls, x) == MyCalls(d.calls, x)
    decreases Slack(d.current)
  {
    if d.current != [] {
      var e := d.current[0];
      OneMoreCall(d.calls, Call(e.timer, High(Epoch(d.last), e.value)), x);
      MineInserted(d.current[1..], Entry(e.timer, Plus(e.value, d.timers[e.timer].period)), x);
      hide Low, Epoch, High, Plus, Insert, Slack, Known;
      SwitchMakesNoCalls(SwitchOne(d), x);
    }
  }

  lemma OtherCommand(s: Daemon, c: Command, x: Timer, start: nat, period: Period, w: Whereabouts) returns (r: Daemon)
    requires Known(s) && c.timer in s.timers && c.timer != x && OnSchedule(s, x, start, period, Epoch(s.last), w)
    ensures r == match c.kind
                 case Start => StartTimer(s, c.timer, c.value, c.at)
                 case Stop => s.(timers := s.timers[c.timer := s.timers[c.timer].(active := false)])
                 case Delete => s.(timers := s.timers[c.timer := s.timers[c.timer].(active := false)])
                 case ChangePeriod(p) =>
                   InsertActive(s.(timers := s.timers[c.timer := s.timers[c.timer].(active := true, period := p)]),
                                c.timer,
                                Plus(Low(s.last), p), Place(Plus(Low(s.last), p), Low(s.last), Low(s.last), p))
    ensures OnSchedule(r, x, start, period, Epoch(r.last), w)
    ensures MyCalls(r.calls, x) == MyCalls(s.calls, x) && r.now == s.now && r.last == s.last
  {
    hide OnSchedule, Low, Epoch, MyCalls, StartTimer, Place;
    var info := s.timers[c.timer];
    match c.kind {
      case Start =>
        StartFrame(s, c.timer, c.value, c.at);
        StartOther(s, c.timer, c.value, c.at, x, start, period, w);
        r := StartTimer(s, c.timer, c.value, c.at);
      case Stop =>
        ResetOther(s, c.timer, info.(active := false), x, start, period, w);
        r := s.(timers := s.timers[c.timer := info.(active := false)]);
      case Delete =>
        ResetOther(s, c.timer, info.(active := false), x, start, period, w);
        r := s.(timers := s.timers[c.timer := info.(active := false)]);
      case ChangePeriod(p) =>
        var t := s.(timers := s.timers[c.timer := info.(active := true, period := p)]);
        ResetOther(s, c.timer, info.(active := true, period := p), x, start, period, w);
        var next := Plus(Low(s.last), p);
        PutOther(t, c.timer, next, Place(next, Low(s.last), Low(s.last), p), x, start, period, w);
        r := InsertActive(t, c.timer, next, Place(next, Low(s.last), Low(s.last), p));
    }
  }

  lemma HandleOther(d: Daemon, x: Timer, start: nat, period: Period)
    requires Inv(d, x, start, period) && Enabled(d, Handle, x) && d.queue[0].timer != x
    ensures Inv(Next(d, Handle), x, start, period)
  {
    hide OnSchedule, Sample, TakeCommand, StartTimer, InsertActive, Low, Epoch, Latest, MyCalls, Place;
    var w :| w != InHand && OnSchedule(d, x, start, period, Epoch(d.last), w);
    TakeKeepsSchedule(d, x, start, period, Epoch(d.last), w);
    TakenFrame(d);
    TakenKnown(d);
    var t := TakeCommand(d);
    var v := SampleKeepsSchedule(t, x, start, period, w);
    SampleTime(t, x, start);
    var r := OtherCommand(Sample(t), d.queue[0], x, start, period, v);
    assert r == Next(d, Handle);
  }

  lemma StepKeepsInv(d: Daemon, s: Step, x: Timer, start: nat, period: Period)
    requires Inv(d, x, start, period) && Enabled(d, s, x)
    ensures Inv(Next(d, s), x, start, period)
  {
    hide Inv, Next;
    match s {
      case Advance => AdvanceOk(d, x, start, period);
      case Expire => ExpireOk(d, x, start, period);
      case Handle =>
        if d.queue[0].timer == x { HandleMine(d, x, start, period); } else { HandleOther(d, x, start, period); }
      case Send(c) => SendOk(d, x, start, period, c);
    }
  }

  /** Known says that every handle is that of a timer; no step is asked for anything where it does not hold,
      and InvThroughout shows that it always does. */
  ghost predicate IsRun(states: seq<Daemon>, steps: seq<Step>, x: Timer) {
    && |states| == |steps| + 1
    && forall k :: 0 <= k < |steps| && Known(states[k]) ==>
         Enabled(states[k], steps[k], x) && states[k + 1] == Next(states[k], steps[k])
  }

  /** The command that starts auto-reload timer x at tick start has just been sent, and the timer is not
      running yet. */
  ghost predicate JustStarted(d: Daemon, x: Timer, start: nat, period: Period) {
    && Known(d) && d.last <= d.now && start <= d.now
    && x in d.timers && d.timers[x].period == period && d.timers[x].autoReload
    && Mine(d.current, x) == [] && Mine(d.overflow, x) == [] && MyCalls(d.calls, x) == []
    && MyCommands(d.queue, x) == [Command(x, Start, Low(start), start)]
  }

  lemma InvKnown(d: Daemon, x: Timer, start: nat, period: Period)
    requires Inv(d, x, start, period)
    ensures Known(d)
  {
  }

  lemma {:induction false} InvThroughout(states: seq<Daemon>, steps: seq<Step>,
                                         x: Timer, start: nat, period: Period, k: nat)
    requires IsRun(states, steps, x) && JustStarted(states[0], x, start, period) && k <= |steps|
    ensures Inv(states[k], x, start, period)
    decreases k
  {
    if k == 0 {
      assert OnSchedule(states[0], x, start, period, Epoch(states[0].last), InQueue);
    } else {
      hide Inv, Next, JustStarted, Known, Enabled;
      InvThroughout(states, steps, x, start, period, k - 1);
      InvKnown(states[k - 1], x, start, period);
      StepKeepsInv(states[k - 1], steps[k - 1], x, start, period);
    }
  }

  lemma {:induction false} PeriodicMultiples(calls: seq<nat>, start: nat, period: nat, i: nat)
    requires Periodic(calls, start, period) && i < |calls|
    ensures calls[i] == start + (i + 1) * period
    decreases |calls|
  {
    var n := |calls| - 1;
    if i < n {
      PeriodicMultiples(calls[..n], start, period, i);
    } else if n > 0 {
      PeriodicMultiples(calls[..n], start, period, n - 1);
    }
  }

  lemma {:induction false} PeriodicBounded(calls: seq<nat>, start: nat, period: nat, i: nat)
    requires Periodic(calls, start, period) && i < |calls|
    ensures calls[i] <= Latest(calls, start)
    decreases |calls|
  {
    var n := |calls| - 1;
    if i < n {
      PeriodicBounded(calls[..n], start, period, i);
    }
  }

  /** In every run, through expiry, queued restarts and switches of the lists, and however late the daemon
      runs within a wrap: an auto-reload timer started at tick C with period P and left alone gets its
      callbacks for C + P, C + 2P, C + 3P and so on, in this order, none skipped, none repeated, none
      early. */
  lemma NoPeriodIsLost(states: seq<Daemon>, steps: seq<Step>, x: Timer, start: nat, period: Period, k: nat)
    requires IsRun(states, steps, x) && JustStarted(states[0], x, start, period) && k <= |steps|
    ensures var calls := MyCalls(states[k].calls, x);
      forall i :: 0 <= i < |calls| ==> calls[i] == start + (i + 1) * period && calls[i] <= states[k].now
  {
    InvThroughout(states, steps, x, start, period, k);
    var d := states[k];
    var w :| w != InHand && OnSchedule(d, x, start, period, Epoch(d.last), w);
    var calls := MyCalls(d.calls, x);
    forall i | 0 <= i < |calls| ensures calls[i] == start + (i + 1) * period && calls[i] <= d.now {
      PeriodicMultiples(calls, start, period, i);
      PeriodicBounded(calls, start, period, i);
    }
  }

  lemma HeadIsLeast(list: seq<Entry>, i: nat)
    requires InOrder(list) && i < |list|
    ensures list[0].value <= list[i].value
  {
    assert Values(list)[0] == list[0].value && Values(list)[i] == list[i].value;
  }

  /** When the daemon has caught up, that is, it has sampled the present time, the first timer of the
      current list is still to expire and no restart of x is queued, x's next callback is in the future:
      all those that were due have been made. */
  lemma CaughtUp(d: Daemon, x: Timer, start: nat, period: Period)
    requires Inv(d, x, start, period) && d.last == d.now && InOrder(d.current) && MyCommands(d.queue, x) == []
    requires d.current == [] || d.current[0].value > Low(d.now)
    ensures Latest(MyCalls(d.calls, x), start) + period > d.now
  {
    var w :| w != InHand && OnSchedule(d, x, start, period, Epoch(d.last), w);
    var due := Latest(MyCalls(d.calls, x), start) + period;
    LowHigh(due);
    LowHigh(d.now);
    if w == InCurrent {
      MineHasHead(d.current, x);
      var i :| 0 <= i < |d.current| && d.current[i].timer == x && d.current[i].value == Mine(d.current, x)[0];
      HeadIsLeast(d.current, i);
    }
  }

  // ----- and nothing that was due is missing -----

  lemma StepKeepsSorted(d: Daemon, s: Step, x: Timer)
    requires Known(d) && Enabled(d, s, x) && ListsSorted(d)
    ensures ListsSorted(Next(d, s))
  {
    hide ExpireOrBlock, HandleCommand, InOrder, Known;
    if s.Expire? {
      ExpireKeepsSorted(d);
    } else if s.Handle? {
      HandleKeepsSorted(d);
    }
  }

  lemma {:induction false} SortedThroughout(states: seq<Daemon>, steps: seq<Step>, x: Timer, start: nat, period: Period,
                                            k: nat)
    requires IsRun(states, steps, x) && JustStarted(states[0], x, start, period) && ListsSorted(states[0])
    requires k <= |steps|
    ensures ListsSorted(states[k])
    decreases k
  {
    if k > 0 {
      hide Inv, Next, JustStarted, Known, Enabled, ListsSorted;
      SortedThroughout(states, steps, x, start, period, k - 1);
      InvThroughout(states, steps, x, start, period, k - 1);
      InvKnown(states[k - 1], x, start, period);
      StepKeepsSorted(states[k - 1], steps[k - 1], x);
    }
  }

  lemma PeriodsPast(start: nat, period: nat, n: nat, now: nat)
    requires period > 0 && start + n * period <= now < start + (n + 1) * period
    ensures (now - start) / period == n
  {
    var late := now - start;
    assert late == n * period + (late - n * period);
    QuotientIs(late, period, n, late - n * period);
  }

  lemma Multiples(p: nat, q: nat, b: nat)
    ensures p < q ==> (p + 1) * b <= q * b
  {
  }

  lemma QuotientIs(a: nat, b: nat, q: nat, r: nat)
    requires b > 0 && a == q * b + r && r < b
    ensures a / b == q
  {
    Multiples(a / b, q, b);
    Multiples(q, a / b, b);
    assert a == (a / b) * b + a % b;
  }

  lemma LatestIs(calls: seq<nat>, start: nat, period: nat)
    requires Periodic(calls, start, period)
    ensures Latest(calls, start) == start + |calls| * period
  {
    if calls != [] {
      PeriodicMultiples(calls, start, period, |calls| - 1);
    }
  }

  /** In every run, whenever the daemon has caught up (it has sampled the present time, the first timer of
      the current list is still to expire and no restart of x is queued), x has been called back exactly as
      often as whole periods have passed since it was started. */
  lemma CallsMade(states: seq<Daemon>, steps: seq<Step>, x: Timer, start: nat, period: Period, k: nat)
    requires IsRun(states, steps, x) && JustStarted(states[0], x, start, period) && ListsSorted(states[0])
    requires k <= |steps| && states[k].last == states[k].now && MyCommands(states[k].queue, x) == []
    requires states[k].current == [] || states[k].current[0].value > Low(states[k].now)
    ensures start <= states[k].now
    ensures |MyCalls(states[k].calls, x)| == (states[k].now - start) / period
  {
    hide Low, Epoch, Known, Enabled, Next, JustStarted, InOrder;
    var d := states[k];
    SortedThroughout(states, steps, x, start, period, k);
    InvThroughout(states, steps, x, start, period, k);
    CaughtUp(d, x, start, period);
    var w :| w != InHand && OnSchedule(d, x, start, period, Epoch(d.last), w);
    var n := |MyCalls(d.calls, x)|;
    LatestIs(MyCalls(d.calls, x), start, period);
    assert (n + 1) * period == n * period + period;
    PeriodsPast(start, period, n, d.now);
  }
}
