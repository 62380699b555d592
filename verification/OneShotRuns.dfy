/** One-shot timers, and stopped ones, over runs of the daemon. */
module OneShotRuns {
  import opened Ticks
  import opened Timers
  import opened TimerRuns

  // ----- steps about other timers -----

  /** Nothing that concerns x has changed. */
  ghost predicate SameForMe(d: Daemon, r: Daemon, x: Timer) {
    && x in d.timers && x in r.timers && r.timers[x] == d.timers[x]
    && Mine(r.current, x) == Mine(d.current, x) && Mine(r.overflow, x) == Mine(d.overflow, x)
    && MyCommands(r.queue, x) == MyCommands(d.queue, x) && MyCalls(r.calls, x) == MyCalls(d.calls, x)
  }

  lemma InsertOther(d: Daemon, y: Timer, next: Tick, place: Placement, x: Timer)
    requires Known(d) && y in d.timers && y != x && x in d.timers
    ensures SameForMe(d, InsertActive(d, y, next, place), x)
  {
    hide Insert;
    MineInserted(d.current, Entry(y, next), x);
    MineInserted(d.overflow, Entry(y, next), x);
  }

  lemma SwitchOneOther(d: Daemon, x: Timer)
    requires Known(d) && d.current != [] && d.current[0].timer != x && x in d.timers
    ensures SameForMe(d, SwitchOne(d), x)
  {
    hide Low, Epoch, High, Plus, Insert;
    var e := d.current[0];
    var due := High(Epoch(d.last), e.value);
    OneMoreCall(d.calls, Call(e.timer, due), x);
    MineInserted(d.current[1..], Entry(e.timer, Plus(e.value, d.timers[e.timer].period)), x);
    OneMoreCommand(d.queue, Command(e.timer, Start, e.value, due), x);
  }

  lemma ProcessOther(d: Daemon, x: Timer)
    requires Known(d) && d.current != [] && d.current[0].timer != x && x in d.timers
    ensures SameForMe(d, ProcessExpired(d), x)
  {
    hide Low, Epoch, High, Plus, Place, Insert;
    var e := d.current[0];
    var due := High(Epoch(d.last), e.value);
    OneMoreCall(d.calls, Call(e.timer, due), x);
    OneMoreCommand(d.queue, Command(e.timer, Start, e.value, due), x);
    MineInserted(d.current[1..], Entry(e.timer, Plus(e.value, d.timers[e.timer].period)), x);
    MineInserted(d.overflow, Entry(e.timer, Plus(e.value, d.timers[e.timer].period)), x);
  }

  lemma StartTimerOther(d: Daemon, y: Timer, value: Tick, at: nat, x: Timer)
    requires Known(d) && y in d.timers && y != x && x in d.timers
    ensures SameForMe(d, StartTimer(d, y, value, at), x)
  {
    hide Low, Plus, Place, Insert;
    var info := d.timers[y];
    var next := Plus(value, info.period);
    OneMoreCall(d.calls, Call(y, at + info.period), x);
    OneMoreCommand(d.queue, Command(y, Start, next, at + info.period), x);
    MineInserted(d.current, Entry(y, next), x);
    MineInserted(d.overflow, Entry(y, next), x);
  }

  /** Commands of other timers, once the time has been sampled. */
  lemma CommandOther(d: Daemon, x: Timer)
    requires Known(d) && d.queue != [] && d.queue[0].timer != x && x in d.timers
    ensures x in Sample(TakeCommand(d)).timers && SameForMe(Sample(TakeCommand(d)), HandleCommand(d), x)
  {
    hide Low, Plus, Place, Insert, Sample, TakeCommand, StartTimer, InsertActive, SwitchLists;
    TakenKnown(d);
    SwitchTimers(d);
    var c, s := d.queue[0], Sample(TakeCommand(d));
    match c.kind {
      case Start => StartTimerOther(s, c.timer, c.value, c.at, x);
      case Stop =>
      case Delete =>
      case ChangePeriod(p) =>
        var next := Plus(Low(s.last), p);
        InsertOther(s.(timers := s.timers[c.timer := s.timers[c.timer].(active := true, period := p)]), c.timer, next,
                    Place(next, Low(s.last), Low(s.last), p), x);
    }
  }

  lemma SwitchTimers(d: Daemon)
    requires Known(d) && d.queue != []
    ensures Sample(TakeCommand(d)).timers == d.timers
  {
    SwitchKeepsTimers(TakeCommand(d));
  }

  /** Taking a command takes its timer off both lists. */
  lemma TakenMine(d: Daemon, x: Timer)
    requires Known(d) && d.queue != [] && x in d.timers
    ensures var t, c := TakeCommand(d), d.queue[0];
      && t.timers == d.timers && t.calls == d.calls && t.last == d.last && t.now == d.now
      && (c.timer != x ==> SameForMe(d, t, x))
      && (c.timer == x ==> Mine(t.current, x) == [] && Mine(t.overflow, x) == [] && MyCommands(d.queue, x) != []
                           && c == MyCommands(d.queue, x)[0] && MyCommands(t.queue, x) == MyCommands(d.queue, x)[1..])
  {
    MineRemoved(d.current, d.queue[0].timer, x);
    MineRemoved(d.overflow, d.queue[0].timer, x);
  }

  /** Whoever is on the current list only because of others sees the lists switched. */
  lemma {:induction false} SwitchAway(d: Daemon, x: Timer)
    requires Known(d) && x in d.timers && Mine(d.current, x) == []
    ensures var r := SwitchLists(d);
      && x in r.timers && r.timers[x] == d.timers[x]
      && Mine(r.current, x) == Mine(d.overflow, x) && Mine(r.overflow, x) == []
      && MyCommands(r.queue, x) == MyCommands(d.queue, x) && MyCalls(r.calls, x) == MyCalls(d.calls, x)
    decreases Slack(d.current)
  {
    hide SwitchOne, Known, Epoch;
    if d.current != [] {
      NotMineAhead(d.current, x);
      SwitchOneOther(d, x);
      SwitchAway(SwitchOne(d), x);
    }
  }

  lemma NotMineAhead(list: seq<Entry>, x: Timer)
    requires list != [] && Mine(list, x) == []
    ensures list[0].timer != x
  {
  }

  /** A one-shot timer on the current list is called in the switch, for the epoch that ends. */
  lemma {:induction false} SwitchHere(d: Daemon, x: Timer, v: Tick)
    requires Known(d) && x in d.timers && !d.timers[x].autoReload
    requires Mine(d.current, x) == [v] && Mine(d.overflow, x) == []
    ensures var r := SwitchLists(d);
      && x in r.timers && r.timers[x] == d.timers[x] && Mine(r.current, x) == [] && Mine(r.overflow, x) == []
      && MyCommands(r.queue, x) == MyCommands(d.queue, x)
      && MyCalls(r.calls, x) == MyCalls(d.calls, x) + [High(Epoch(d.last), v)]
    decreases Slack(d.current)
  {
    hide SwitchOne, Known, Epoch, High;
    assert d.current != [];
    if d.current[0].timer == x {
      SwitchOneMine(d, x, v);
      SwitchAway(SwitchOne(d), x);
    } else {
      SwitchOneOther(d, x);
      SwitchOneClock(d);
      SwitchHere(SwitchOne(d), x, v);
    }
  }

  lemma SwitchOneClock(d: Daemon)
    requires Known(d) && d.current != []
    ensures SwitchOne(d).last == d.last
  {
  }

  lemma SwitchOneMine(d: Daemon, x: Timer, v: Tick)
    requires Known(d) && x in d.timers && !d.timers[x].autoReload && d.current != [] && d.current[0].timer == x
    requires Mine(d.current, x) == [v]
    ensures var r := SwitchOne(d);
      && x in r.timers && r.timers[x] == d.timers[x] && Mine(r.current, x) == [] && r.overflow == d.overflow
      && r.queue == d.queue && MyCalls(r.calls, x) == MyCalls(d.calls, x) + [High(Epoch(d.last), v)]
  {
    hide Low, Epoch, High, Plus, Insert;
    assert ([d.current[0].value] + Mine(d.current[1..], x))[0] == v;
    assert ([d.current[0].value] + Mine(d.current[1..], x))[1..] == Mine(d.current[1..], x);
    OneMoreCall(d.calls, Call(x, High(Epoch(d.last), v)), x);
  }

  // ----- nowhere -----

  /** The timer is on no list, has no command under way, and has been called as often as said. */
  ghost predicate Idle(d: Daemon, x: Timer, calls: seq<nat>) {
    && x in d.timers && Mine(d.current, x) == [] && Mine(d.overflow, x) == []
    && MyCommands(d.queue, x) == [] && MyCalls(d.calls, x) == calls
  }

  lemma SampleIdle(d: Daemon, x: Timer, calls: seq<nat>)
    requires Known(d) && Idle(d, x, calls)
    ensures Idle(Sample(d), x, calls) && Sample(d).timers[x] == d.timers[x]
  {
    hide Low;
    SwitchAway(d, x);
  }

  lemma SameIsIdle(d: Daemon, r: Daemon, x: Timer, calls: seq<nat>)
    requires SameForMe(d, r, x) && Idle(d, x, calls)
    ensures Idle(r, x, calls) && r.timers[x] == d.timers[x]
  {
  }

  lemma ExpireIdle(d: Daemon, x: Timer, calls: seq<nat>)
    requires Known(d) && Idle(d, x, calls)
    ensures Idle(ExpireOrBlock(d), x, calls) && ExpireOrBlock(d).timers[x] == d.timers[x]
  {
    hide Low, Sample, ProcessExpired, Mine, Idle;
    SampleIdle(d, x, calls);
    var s := Sample(d);
    if s.current != [] {
      IdleNotHead(s, x, calls);
      IdleKnown(s, x, calls);
      ProcessOther(s, x);
      SameIsIdle(s, ProcessExpired(s), x, calls);
    }
    IdleKnown(d, x, calls);
  }

  lemma IdleKnown(d: Daemon, x: Timer, calls: seq<nat>)
    requires Idle(d, x, calls)
    ensures x in d.timers
  {
  }

  lemma IdleNotHead(d: Daemon, x: Timer, calls: seq<nat>)
    requires Idle(d, x, calls) && d.current != []
    ensures d.current[0].timer != x
  {
    NotMineAhead(d.current, x);
  }

  lemma HandleIdle(d: Daemon, x: Timer, calls: seq<nat>)
    requires Known(d) && Idle(d, x, calls) && d.queue != []
    ensures Idle(HandleCommand(d), x, calls) && HandleCommand(d).timers[x] == d.timers[x]
  {
    hide Sample, TakeCommand, HandleCommand, Mine;
    TakenMine(d, x);
    var t := TakeCommand(d);
    assert d.queue[0].timer != x;
    SameIsIdle(d, t, x, calls);
    SampleIdle(t, x, calls);
    CommandOther(d, x);
    SameIsIdle(Sample(t), HandleCommand(d), x, calls);
  }

  lemma SendIdle(d: Daemon, x: Timer, calls: seq<nat>, c: Command)
    requires Idle(d, x, calls) && c.timer != x
    ensures Idle(d.(queue := d.queue + [c]), x, calls)
  {
    OneMoreCommand(d.queue, c, x);
  }

  lemma StepIdle(d: Daemon, s: Step, x: Timer, calls: seq<nat>)
    requires Known(d) && Enabled(d, s, x) && Idle(d, x, calls)
    ensures Known(Next(d, s)) && Idle(Next(d, s), x, calls) && Next(d, s).timers[x] == d.timers[x]
  {
    hide Idle, ExpireOrBlock, HandleCommand;
    IdleKnown(d, x, calls);
    match s {
      case Advance => ClockIdle(d, x, calls);
      case Expire => ExpireIdle(d, x, calls);
      case Handle => HandleIdle(d, x, calls);
      case Send(c) => SendIdle(d, x, calls, c);
    }
  }

  lemma ClockIdle(d: Daemon, x: Timer, calls: seq<nat>)
    requires Idle(d, x, calls)
    ensures Idle(d.(now := d.now + 1), x, calls)
  {
  }

  /** A timer that is on no list and has no command under way makes no call, however long the daemon runs and
      whatever the other timers do, until it is commanded again. */
  lemma {:induction false} IdleThroughout(states: seq<Daemon>, steps: seq<Step>, x: Timer, calls: seq<nat>, k: nat)
    requires IsRun(states, steps, x) && Known(states[0]) && Idle(states[0], x, calls) && k <= |steps|
    ensures Known(states[k]) && Idle(states[k], x, calls) && states[k].timers[x] == states[0].timers[x]
    decreases k
  {
    IdleKnown(states[0], x, calls);
    hide Idle, Next, Enabled, Known;
    if k > 0 {
      IdleThroughout(states, steps, x, calls, k - 1);
      StepIdle(states[k - 1], steps[k - 1], x, calls);
    }
  }

  /** Stopping or deleting a timer that has no other command under way leaves it so, whatever it was doing, and
      inactive; its calls so far are all it gets. */
  lemma StopMakesIdle(d: Daemon, x: Timer)
    requires Known(d) && d.queue != [] && d.queue[0].timer == x && x in d.timers
    requires d.queue[0].kind == Stop || d.queue[0].kind == Delete
    requires MyCommands(d.queue, x) == [d.queue[0]]
    ensures Idle(HandleCommand(d), x, MyCalls(d.calls, x)) && !HandleCommand(d).timers[x].active
  {
    hide Sample, TakeCommand, Mine;
    TakenMine(d, x);
    SampleIdle(TakeCommand(d), x, MyCalls(d.calls, x));
  }

  // ----- one shot -----

  /** The start command is under way, or in the daemon's hand; the timer is on the list of the present epoch, or
      of the next; it has been called. */
  datatype Stage = Asked | Held | HereNow | NextEpoch | Called

  /** One-shot timer x was started at tick start, having been called before as said, and has been left alone. */
  ghost predicate OneShot(d: Daemon, x: Timer, start: nat, period: Period, before: seq<nat>, epoch: nat, w: Stage) {
    var due := start + period;
    && x in d.timers && d.timers[x].period == period && !d.timers[x].autoReload
    && Mine(d.current, x) == (if w == HereNow then [Low(due)] else [])
    && Mine(d.overflow, x) == (if w == NextEpoch then [Low(due)] else [])
    && MyCommands(d.queue, x) == (if w == Asked then [Command(x, Start, Low(start), start)] else [])
    && MyCalls(d.calls, x) == (if w == Called then before + [due] else before)
    && (w == HereNow ==> Epoch(due) == epoch) && (w == NextEpoch ==> Epoch(due) == epoch + 1)
    && (w == HereNow || w == NextEpoch ==> d.timers[x].active)
  }

  lemma SameShot(d: Daemon, r: Daemon, x: Timer, start: nat, period: Period, before: seq<nat>, epoch: nat, w: Stage)
    requires SameForMe(d, r, x) && OneShot(d, x, start, period, before, epoch, w)
    ensures OneShot(r, x, start, period, before, epoch, w)
  {
    hide Low, Epoch, Mine, MyCommands, MyCalls;
  }

  function AfterSwitch(w: Stage): Stage {
    if w == NextEpoch then HereNow else if w == HereNow then Called else w
  }

  lemma SwitchShot(d: Daemon, x: Timer, start: nat, period: Period, before: seq<nat>, w: Stage)
    requires Known(d) && OneShot(d, x, start, period, before, Epoch(d.last), w)
    ensures OneShot(SwitchLists(d), x, start, period, before, Epoch(d.last) + 1, AfterSwitch(w))
  {
    hide Low, Epoch, High, Mine, MyCommands, MyCalls, SwitchLists;
    if w == HereNow {
      SwitchHere(d, x, Low(start + period));
      LowHigh(start + period);
    } else {
      SwitchAway(d, x);
    }
  }

  /** Sampling the time less than a wrap after the last time makes no call too early. */
  lemma SampleShot(d: Daemon, x: Timer, start: nat, period: Period, before: seq<nat>, w: Stage) returns (v: Stage)
    requires Known(d) && OneShot(d, x, start, period, before, Epoch(d.last), w)
    requires d.last <= d.now < d.last + 0x1_0000_0000
    ensures OneShot(Sample(d), x, start, period, before, Epoch(Sample(d).last), v)
    ensures Sample(d).last == Sample(d).now == d.now
    ensures (v == Held <==> w == Held) && (v == Called ==> w == Called || start + period <= d.now)
  {
    hide Low, Epoch, OneShot, SwitchLists;
    EpochStep(d.last, d.now);
    SwitchKeepsTimers(d);
    var s := d;
    v := w;
    if Low(d.now) < Low(d.last) {
      SwitchShot(d, x, start, period, before, w);
      v := AfterSwitch(w);
      s := SwitchLists(d);
      DueBefore(d, x, start, period, before, w);
    }
    ClockShot(s, d.now, x, start, period, before, Epoch(d.now), v);
  }

  lemma DueBefore(d: Daemon, x: Timer, start: nat, period: Period, before: seq<nat>, w: Stage)
    requires OneShot(d, x, start, period, before, Epoch(d.last), w) && Epoch(d.now) == Epoch(d.last) + 1
    ensures w == HereNow ==> start + period <= d.now
  {
    LowHigh(start + period);
    LowHigh(d.now);
    hide Low, Epoch, Mine, MyCommands, MyCalls;
  }

  lemma ClockShot(d: Daemon, last: nat, x: Timer, start: nat, period: Period, before: seq<nat>, epoch: nat, w: Stage)
    requires OneShot(d, x, start, period, before, epoch, w)
    ensures OneShot(d.(last := last), x, start, period, before, epoch, w)
  {
    hide Low, Epoch, Mine, MyCommands, MyCalls;
  }

  /** Expiring makes the call and leaves the timer inactive. */
  lemma ProcessShot(d: Daemon, x: Timer, start: nat, period: Period, before: seq<nat>)
    requires Known(d) && d.current != [] && d.current[0].timer == x && d.current[0].value <= Low(d.last)
    requires OneShot(d, x, start, period, before, Epoch(d.last), HereNow)
    ensures OneShot(ProcessExpired(d), x, start, period, before, Epoch(d.last), Called)
    ensures start + period <= d.last && !ProcessExpired(d).timers[x].active
  {
    hide Low, Epoch, High, Plus, Place, Insert, MyCalls, MyCommands;
    var due := start + period;
    LowHigh(due);
    LowHigh(d.last);
    assert ([d.current[0].value] + Mine(d.current[1..], x))[0] == Low(due);
    assert ([d.current[0].value] + Mine(d.current[1..], x))[1..] == Mine(d.current[1..], x);
    SameEpoch(due, d.last);
    OneMoreCall(d.calls, Call(x, due), x);
  }

  /** The start command finds the timer expired, and makes the call at once, exactly if it has. */
  lemma StartShot(d: Daemon, x: Timer, start: nat, period: Period, before: seq<nat>) returns (v: Stage)
    requires Known(d) && OneShot(d, x, start, period, before, Epoch(d.last), Held)
    requires start <= d.last < start + 0x1_0000_0000
    ensures OneShot(StartTimer(d, x, Low(start), start), x, start, period, before, Epoch(d.last), v)
    ensures v != Held && v != Asked && (v == Called <==> start + period <= d.last)
    ensures StartTimer(d, x, Low(start), start).timers[x].active
  {
    hide Low, Epoch, High, Plus, Place, Insert, MyCalls, MyCommands;
    var due := start + period;
    PlacementIsExact(start, d.last, period);
    PlusLow(start, period);
    OneMoreCall(d.calls, Call(x, due), x);
    MineInserted(d.current, Entry(x, Low(due)), x);
    MineInserted(d.overflow, Entry(x, Low(due)), x);
    var p := Place(Plus(Low(start), period), Low(d.last), Low(start), period);
    v := if p == ProcessNow then Called else if p == IntoCurrent then HereNow else NextEpoch;
  }

  // ----- steps -----

  ghost predicate ShotInv(d: Daemon, x: Timer, start: nat, period: Period, before: seq<nat>) {
    && Known(d) && d.last <= d.now && start <= d.now
    && exists w :: w != Held && OneShot(d, x, start, period, before, Epoch(d.last), w)
                   && (w == Called ==> start + period <= d.now)
  }

  lemma ShotKnown(d: Daemon, x: Timer, start: nat, period: Period, before: seq<nat>, epoch: nat, w: Stage)
    requires OneShot(d, x, start, period, before, epoch, w)
    ensures x in d.timers
    ensures d.current != [] && d.current[0].timer == x ==> w == HereNow
  {
    if d.current != [] && w != HereNow {
      NotMineAhead(d.current, x);
    }
  }

  lemma ExpireShot(d: Daemon, x: Timer, start: nat, period: Period, before: seq<nat>)
    requires ShotInv(d, x, start, period, before) && d.now < d.last + 0x1_0000_0000
    ensures ShotInv(ExpireOrBlock(d), x, start, period, before)
  {
    hide OneShot, Sample, ProcessExpired, Low, Epoch;
    var w :| w != Held && OneShot(d, x, start, period, before, Epoch(d.last), w)
             && (w == Called ==> start + period <= d.now);
    var v := SampleShot(d, x, start, period, before, w);
    var s := Sample(d);
    ShotKnown(s, x, start, period, before, Epoch(s.last), v);
    if Low(d.now) >= Low(d.last) && s.current != [] && s.current[0].value <= Low(s.now) {
      ExpiredFrame(s);
      if s.current[0].timer == x {
        ProcessShot(s, x, start, period, before);
      } else {
        ProcessOther(s, x);
        SameShot(s, ProcessExpired(s), x, start, period, before, Epoch(s.last), v);
      }
    }
  }

  lemma HandleShot(d: Daemon, x: Timer, start: nat, period: Period, before: seq<nat>)
    requires ShotInv(d, x, start, period, before) && Enabled(d, Handle, x)
    ensures ShotInv(HandleCommand(d), x, start, period, before)
  {
    hide OneShot, Sample, TakeCommand, StartTimer, HandleCommand, InsertActive, Low, Epoch, Place;
    var w :| w != Held && OneShot(d, x, start, period, before, Epoch(d.last), w)
             && (w == Called ==> start + period <= d.now);
    ShotKnown(d, x, start, period, before, Epoch(d.last), w);
    TakenMine(d, x);
    TakenFrame(d);
    TakenKnown(d);
    HandledClock(d);
    var t := TakeCommand(d);
    if d.queue[0].timer == x {
      TakenShot(d, x, start, period, before, w);
      var v := SampleShot(t, x, start, period, before, Held);
      HandledStart(d);
      var u := StartShot(Sample(t), x, start, period, before);
    } else {
      SameShot(d, t, x, start, period, before, Epoch(d.last), w);
      var v := SampleShot(t, x, start, period, before, w);
      CommandOther(d, x);
      SameShot(Sample(t), HandleCommand(d), x, start, period, before, Epoch(Sample(t).last), v);
    }
  }

  lemma TakenShot(d: Daemon, x: Timer, start: nat, period: Period, before: seq<nat>, w: Stage)
    requires Known(d) && d.queue != [] && d.queue[0].timer == x && w != Held
    requires OneShot(d, x, start, period, before, Epoch(d.last), w)
    ensures w == Asked && d.queue[0] == Command(x, Start, Low(start), start)
    ensures OneShot(TakeCommand(d), x, start, period, before, Epoch(d.last), Held)
  {
    hide Low, Epoch, Mine, MyCalls, TakeCommand;
    TakenMine(d, x);
  }

  lemma HandledStart(d: Daemon)
    requires Known(d) && d.queue != [] && d.queue[0].kind == Start
    ensures var c, s := d.queue[0], Sample(TakeCommand(d));
      c.timer in s.timers && HandleCommand(d) == StartTimer(s, c.timer, c.value, c.at)
  {
    TakenKnown(d);
    hide Sample, TakeCommand, StartTimer;
  }

  lemma HandledClock(d: Daemon)
    requires Known(d) && d.queue != []
    ensures var s := Sample(TakeCommand(d)); HandleCommand(d).now == s.now && HandleCommand(d).last == s.last
  {
    TakenKnown(d);
    hide Sample, TakeCommand, Place, Plus, Low;
  }

  lemma SendShot(d: Daemon, x: Timer, start: nat, period: Period, before: seq<nat>, c: Command)
    requires ShotInv(d, x, start, period, before) && c.timer in d.timers && c.timer != x
    ensures ShotInv(d.(queue := d.queue + [c]), x, start, period, before)
  {
    var w :| w != Held && OneShot(d, x, start, period, before, Epoch(d.last), w)
             && (w == Called ==> start + period <= d.now);
    OneMoreCommand(d.queue, c, x);
    hide Low, Epoch, MyCalls, Mine, MyCommands;
    assert OneShot(d.(queue := d.queue + [c]), x, start, period, before, Epoch(d.last), w);
  }

  lemma AdvanceShot(d: Daemon, x: Timer, start: nat, period: Period, before: seq<nat>)
    requires ShotInv(d, x, start, period, before)
    ensures ShotInv(d.(now := d.now + 1), x, start, period, before)
  {
    var w :| w != Held && OneShot(d, x, start, period, before, Epoch(d.last), w)
             && (w == Called ==> start + period <= d.now);
    hide Low, Epoch, MyCalls, Mine, MyCommands;
    assert OneShot(d.(now := d.now + 1), x, start, period, before, Epoch(d.last), w);
  }

  lemma StepKeepsShot(d: Daemon, s: Step, x: Timer, start: nat, period: Period, before: seq<nat>)
    requires ShotInv(d, x, start, period, before) && Enabled(d, s, x)
    ensures ShotInv(Next(d, s), x, start, period, before)
  {
    hide ShotInv, ExpireOrBlock, HandleCommand;
    match s {
      case Advance => AdvanceShot(d, x, start, period, before);
      case Expire => ExpireShot(d, x, start, period, before);
      case Handle => HandleShot(d, x, start, period, before);
      case Send(c) => SendShot(d, x, start, period, before, c);
    }
  }

  // ----- runs -----

  /** The command that starts one-shot timer x at tick start has just been sent, and the timer is not running. */
  ghost predicate JustAsked(d: Daemon, x: Timer, start: nat, period: Period) {
    && Known(d) && d.last <= d.now && start <= d.now
    && x in d.timers && d.timers[x].period == period && !d.timers[x].autoReload
    && Mine(d.current, x) == [] && Mine(d.overflow, x) == []
    && MyCommands(d.queue, x) == [Command(x, Start, Low(start), start)]
  }

  lemma ShotBegins(d: Daemon, x: Timer, start: nat, period: Period)
    requires JustAsked(d, x, start, period)
    ensures ShotInv(d, x, start, period, MyCalls(d.calls, x))
  {
    hide Low, Epoch, Mine, MyCommands, MyCalls;
    assert OneShot(d, x, start, period, MyCalls(d.calls, x), Epoch(d.last), Asked);
  }

  lemma InvIsKnown(d: Daemon, x: Timer, start: nat, period: Period, before: seq<nat>)
    requires ShotInv(d, x, start, period, before)
    ensures Known(d)
  {
  }

  lemma {:induction false} ShotThroughout(states: seq<Daemon>, steps: seq<Step>, x: Timer, start: nat, period: Period,
                                          before: seq<nat>, k: nat)
    requires IsRun(states, steps, x) && ShotInv(states[0], x, start, period, before) && k <= |steps|
    ensures ShotInv(states[k], x, start, period, before)
    decreases k
  {
    hide ShotInv, Next, Known, Enabled;
    if k > 0 {
      ShotThroughout(states, steps, x, start, period, before, k - 1);
      InvIsKnown(states[k - 1], x, start, period, before);
      StepKeepsShot(states[k - 1], steps[k - 1], x, start, period, before);
    }
  }

  /** In every run a one-shot timer started at tick C with period P and left alone is called at most once, for
      C + P, and not before. */
  lemma CalledOnceAtMost(states: seq<Daemon>, steps: seq<Step>, x: Timer, start: nat, period: Period, k: nat)
    requires IsRun(states, steps, x) && JustAsked(states[0], x, start, period) && k <= |steps|
    ensures var before, calls := MyCalls(states[0].calls, x), MyCalls(states[k].calls, x);
      calls == before || (calls == before + [start + period] && start + period <= states[k].now)
  {
    hide Low, Epoch, MyCalls, MyCommands, Mine, Next, Known, Enabled;
    ShotBegins(states[0], x, start, period);
    ShotThroughout(states, steps, x, start, period, MyCalls(states[0].calls, x), k);
  }

  lemma {:induction false} SortedStays(states: seq<Daemon>, steps: seq<Step>, x: Timer, start: nat, period: Period,
                                       before: seq<nat>, k: nat)
    requires IsRun(states, steps, x) && ShotInv(states[0], x, start, period, before) && ListsSorted(states[0])
    requires k <= |steps|
    ensures ListsSorted(states[k])
    decreases k
  {
    hide ShotInv, Next, Known, Enabled, ListsSorted;
    if k > 0 {
      SortedStays(states, steps, x, start, period, before, k - 1);
      ShotThroughout(states, steps, x, start, period, before, k - 1);
      InvIsKnown(states[k - 1], x, start, period, before);
      StepKeepsSorted(states[k - 1], steps[k - 1], x);
    }
  }

  lemma OnListIsLater(d: Daemon, x: Timer, due: nat)
    requires InOrder(d.current) && Mine(d.current, x) == [Low(due)] && Epoch(due) == Epoch(d.now)
    requires d.current == [] || d.current[0].value > Low(d.now)
    ensures due > d.now
  {
    MineHasHead(d.current, x);
    var i :| 0 <= i < |d.current| && d.current[i].timer == x && d.current[i].value == Mine(d.current, x)[0];
    HeadIsLeast(d.current, i);
    LowHigh(due);
    LowHigh(d.now);
    hide Low, Epoch, InOrder;
  }

  lemma LaterEpoch(due: nat, now: nat)
    requires Epoch(due) == Epoch(now) + 1
    ensures due > now
  {
  }

  /** Whenever the daemon has caught up, that is, has sampled the present time, holds no command for the timer and
      finds the first timer of the current list still to expire, the timer has been called exactly if its time has
      come; and then it is on no list and has no command under way. */
  lemma CalledOnTime(states: seq<Daemon>, steps: seq<Step>, x: Timer, start: nat, period: Period, k: nat)
    requires IsRun(states, steps, x) && JustAsked(states[0], x, start, period) && ListsSorted(states[0])
    requires k <= |steps| && states[k].last == states[k].now && MyCommands(states[k].queue, x) == []
    requires states[k].current == [] || states[k].current[0].value > Low(states[k].now)
    ensures var d, before, due := states[k], MyCalls(states[0].calls, x), start + period;
      if due <= d.now then Idle(d, x, before + [due]) else MyCalls(d.calls, x) == before
  {
    hide Low, Epoch, MyCalls, MyCommands, Mine, Next, Known, Enabled, InOrder;
    var d, before := states[k], MyCalls(states[0].calls, x);
    ShotBegins(states[0], x, start, period);
    ShotThroughout(states, steps, x, start, period, before, k);
    SortedStays(states, steps, x, start, period, before, k);
    var w :| w != Held && OneShot(d, x, start, period, before, Epoch(d.last), w)
             && (w == Called ==> start + period <= d.now);
    if w == HereNow {
      OnListIsLater(d, x, start + period);
    } else if w == NextEpoch {
      LaterEpoch(start + period, d.now);
    }
  }

  // ----- a new period, and a new start -----

  /** A change of period, whatever the timer was doing, makes it active with that period and sets it to expire once,
      that long after the time the command is handled; it makes no call. */
  lemma ChangeArms(d: Daemon, x: Timer, p: Period)
    requires Known(d) && d.queue != [] && d.queue[0].timer == x && d.queue[0].kind == ChangePeriod(p) && x in d.timers
    requires MyCommands(d.queue, x) == [d.queue[0]]
    ensures var r, due := HandleCommand(d), d.now + p;
      && x in r.timers && r.timers[x] == d.timers[x].(active := true, period := p) && r.last == d.now
      && MyCalls(r.calls, x) == MyCalls(d.calls, x) && MyCommands(r.queue, x) == []
      && Mine(r.current, x) == (if Epoch(due) == Epoch(d.now) then [Low(due)] else [])
      && Mine(r.overflow, x) == (if Epoch(due) == Epoch(d.now) + 1 then [Low(due)] else [])
      && Epoch(due) <= Epoch(d.now) + 1
  {
    hide Low, Epoch, Plus, Place, Insert, MyCalls, MyCommands, Mine, TakeCommand, Sample;
    var t := TakeCommand(d);
    var s := Sample(t);
    TakenMine(d, x);
    HeldIdle(d, x);
    SampleIdle(t, x, MyCalls(d.calls, x));
    SampledNow(t);
    PlacementIsExact(d.now, d.now, p);
    PlusLow(d.now, p);
    MineInserted(s.current, Entry(x, Low(d.now + p)), x);
    MineInserted(s.overflow, Entry(x, Low(d.now + p)), x);
  }

  lemma HeldIdle(d: Daemon, x: Timer)
    requires Known(d) && d.queue != [] && d.queue[0].timer == x && x in d.timers
    requires MyCommands(d.queue, x) == [d.queue[0]]
    ensures Idle(TakeCommand(d), x, MyCalls(d.calls, x))
  {
    hide Mine, MyCalls, TakeCommand;
    TakenMine(d, x);
  }

  lemma SampledNow(d: Daemon)
    requires Known(d)
    ensures Sample(d).last == d.now == Sample(d).now && Sample(d).timers == d.timers
  {
    SwitchKeepsTimers(d);
    hide Low, SwitchLists;
  }

  /** A start or reset of a one-shot timer that is running starts it over: it is set to be called once more, a period
      after the new start, and no longer for the old one. */
  lemma StartsOver(d: Daemon, x: Timer, start: nat)
    requires Known(d) && d.queue != [] && d.queue[0] == Command(x, Start, Low(start), start) && x in d.timers
    requires MyCommands(d.queue, x) == [d.queue[0]] && !d.timers[x].autoReload
    requires start <= d.now < start + 0x1_0000_0000 && d.last <= d.now
    ensures ShotInv(HandleCommand(d), x, start, d.timers[x].period, MyCalls(d.calls, x))
  {
    hide Low, Epoch, MyCalls, MyCommands, Mine, TakeCommand, Sample, StartTimer;
    var before, period := MyCalls(d.calls, x), d.timers[x].period;
    HeldIdle(d, x);
    SampleIdle(TakeCommand(d), x, before);
    SampledNow(TakeCommand(d));
    TakenMine(d, x);
    HandledStart(d);
    HandledClock(d);
    var s := Sample(TakeCommand(d));
    assert OneShot(s, x, start, period, before, Epoch(s.last), Held);
    var v := StartShot(s, x, start, period, before);
    assert OneShot(HandleCommand(d), x, start, period, before, Epoch(HandleCommand(d).last), v);
  }
}
