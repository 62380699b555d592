/** The file-level variables of timers.c as mutable fields, with its loops. */
module TimerDaemons {
  import opened Ticks
  import opened Timers

  class TimerDaemon {
    var currentTimerList: seq<Entry>
    var overflowTimerList: seq<Entry>
    var timerQueue: seq<Command>
    var timers: map<Timer, Info>
    /** xLastTime */
    var lastTime: Tick
    /** The true tick count, of which xTaskGetTickCount returns the low word, and its value at the latest
        sample; the latter only labels commands and callbacks with the time they stand for. */
    var tickCount: nat
    var lastSample: nat
    var calls: seq<Call>

    function View(): Daemon
      reads this
    {
      Daemon(tickCount, lastSample, currentTimerList, overflowTimerList, timerQueue, timers, calls)
    }

    ghost predicate Valid()
      reads this
    {
      Known(View()) && lastTime == Low(lastSample)
    }

    /** One round of the loop of prvSwitchTimerLists. */
    method ExpireHead()
      requires Valid() && currentTimerList != []
      modifies `currentTimerList, `timerQueue, `calls
      ensures View() == SwitchOne(old(View())) && Valid()
    {
      hide Low, Epoch, Insert, Plus, High;
      var head := currentTimerList[0];
      var info := timers[head.timer];
      var due := High(Epoch(lastSample), head.value);
      currentTimerList := currentTimerList[1..];
      calls := calls + [Call(head.timer, due)];
      if info.autoReload {
        var reloadTime := Plus(head.value, info.period);
        if reloadTime > head.value {
          currentTimerList := Insert(currentTimerList, Entry(head.timer, reloadTime));
        } else {
          timerQueue := timerQueue + [Command(head.timer, Start, head.value, due)];
        }
      }
      assert View() == SwitchOne(old(View()));
    }

    /** prvSwitchTimerLists: however often timers reload within the epoch, the loop comes to an end. */
    method SwitchTimerLists()
      requires Valid()
      modifies `currentTimerList, `overflowTimerList, `timerQueue, `calls
      ensures View() == SwitchLists(old(View())) && Valid()
    {
      hide Low, SwitchOne;
      while currentTimerList != []
        invariant Valid() && SwitchLists(View()) == SwitchLists(old(View()))
        decreases Slack(currentTimerList)
      {
        ExpireHead();
      }
      currentTimerList, overflowTimerList := overflowTimerList, currentTimerList;
    }

    /** prvSampleTimeNow */
    method SampleTimeNow() returns (timeNow: Tick, switched: bool)
      requires Valid()
      modifies this
      ensures View() == Sample(old(View())) && Valid()
      ensures timeNow == Low(tickCount) && lastTime == timeNow && switched == (timeNow < old(lastTime))
    {
      hide Low, SwitchLists;
      SwitchKeepsTimers(View());
      timeNow := Low(tickCount);
      switched := timeNow < lastTime;
      if switched {
        SwitchTimerLists();
      }
      lastTime := timeNow;
      lastSample := tickCount;
    }

    /** prvInsertTimerInActiveList; true asks for the timer to be processed now. */
    method InsertTimerInActiveList(x: Timer, next: Tick, timeNow: Tick, commandTime: Tick) returns (processNow: bool)
      requires Valid() && x in timers
      modifies `currentTimerList, `overflowTimerList
      ensures var place := Place(next, timeNow, commandTime, timers[x].period);
        processNow == (place == ProcessNow) && View() == InsertActive(old(View()), x, next, place)
      ensures Valid()
    {
      hide Low, Insert, Minus;
      processNow := false;
      if next <= timeNow {
        if Minus(timeNow, commandTime) >= timers[x].period {
          processNow := true;
        } else {
          overflowTimerList := Insert(overflowTimerList, Entry(x, next));
        }
      } else if timeNow < commandTime && next >= commandTime {
        processNow := true;
      } else {
        currentTimerList := Insert(currentTimerList, Entry(x, next));
      }
      assert View() == InsertActive(old(View()), x, next, Place(next, timeNow, commandTime, timers[x].period));
    }

    /** prvProcessExpiredTimer */
    method ProcessExpiredTimer(nextExpireTime: Tick, timeNow: Tick)
      requires Valid() && currentTimerList != [] && currentTimerList[0].value == nextExpireTime && timeNow == lastTime
      modifies `currentTimerList, `overflowTimerList, `timerQueue, `timers, `calls
      ensures View() == ProcessExpired(old(View())) && Valid()
    {
      hide Low, Epoch, High, Plus, Place, InsertActive;
      var x := currentTimerList[0].timer;
      var due := High(Epoch(lastSample), nextExpireTime);
      currentTimerList := currentTimerList[1..];
      ghost var removed := View();
      if timers[x].autoReload {
        var again := InsertTimerInActiveList(x, Plus(nextExpireTime, timers[x].period), timeNow, nextExpireTime);
        if again {
          timerQueue := timerQueue + [Command(x, Start, nextExpireTime, due)];
          InsertNothing(removed, x, Plus(nextExpireTime, timers[x].period));
        }
      } else {
        timers := timers[x := timers[x].(active := false)];
      }
      calls := calls + [Call(x, due)];
    }

    /** The start and reset cases of prvProcessReceivedCommands. */
    method ProcessStart(x: Timer, value: Tick, at: nat, timeNow: Tick)
      requires Valid() && x in timers && timeNow == lastTime
      modifies `currentTimerList, `overflowTimerList, `timerQueue, `timers, `calls
      ensures View() == StartTimer(old(View()), x, value, at) && Valid()
    {
      hide Low, Epoch, High, Plus, Place, InsertActive;
      timers := timers[x := timers[x].(active := true)];
      var next := Plus(value, timers[x].period);
      var expired := InsertTimerInActiveList(x, next, timeNow, value);
      if expired {
        InsertNothing(old(View()).(timers := timers), x, next);
        calls := calls + [Call(x, at + timers[x].period)];
        if timers[x].autoReload {
          timerQueue := timerQueue + [Command(x, Start, next, at + timers[x].period)];
        }
      }
    }

    /** One round of the loop of prvProcessReceivedCommands. */
    method ProcessReceivedCommand()
      requires Valid() && timerQueue != []
      modifies this
      ensures View() == HandleCommand(old(View())) && Valid()
    {
      hide Low, Epoch, High, Plus, Place, InsertActive, StartTimer, Sample;
      TakenKnown(View());
      var message := timerQueue[0];
      var x := message.timer;
      RemoveKnown(currentTimerList, x);
      RemoveKnown(overflowTimerList, x);
      timerQueue := timerQueue[1..];
      currentTimerList := RemoveTimer(currentTimerList, x);
      overflowTimerList := RemoveTimer(overflowTimerList, x);
      var timeNow, switched := SampleTimeNow();
      SampleKeepsLast(old(View()));
      match message.kind {
        case Start => ProcessStart(x, message.value, message.at, timeNow);
        case Stop => timers := timers[x := timers[x].(active := false)];
        case Delete => timers := timers[x := timers[x].(active := false)];
        case ChangePeriod(p) =>
          timers := timers[x := timers[x].(active := true, period := p)];
          var expired := InsertTimerInActiveList(x, Plus(timeNow, p), timeNow, timeNow);
      }
    }
  }

  lemma InsertNothing(d: Daemon, x: Timer, next: Tick)
    requires Known(d) && x in d.timers
    ensures InsertActive(d, x, next, ProcessNow) == d
  {
  }

  lemma SampleKeepsLast(d: Daemon)
    requires Known(d) && d.queue != []
    ensures Sample(TakeCommand(d)).last == d.now
  {
    SwitchKeepsTimers(TakeCommand(d));
  }
}
