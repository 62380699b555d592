/** The timer daemon (timers.c): wrapped expiry times in two sorted lists, and commands that carry the
    time at which they were sent. */
module Timers {
  import opened Ticks
  import opened ListValues

  type Timer = nat

  /** xTimerPeriodInTicks is never 0. */
  type Period = p: Tick | p > 0 witness 1

  /** ucStatus and xTimerPeriodInTicks. */
  datatype Info = Info(period: Period, autoReload: bool, active: bool)

  /** A timer's list item and its value. */
  datatype Entry = Entry(timer: Timer, value: Tick)

  datatype Kind = Start | Stop | ChangePeriod(period: Period) | Delete

  /** A message to the daemon.  The value is all that is sent; at is the unbounded tick it stands for. */
  datatype Command = Command(timer: Timer, kind: Kind, value: Tick, at: nat)

  /** A callback made, and the unbounded tick it was due at. */
  datatype Call = Call(timer: Timer, due: nat)

  /** now is the true tick count and last the one at the latest sample (xLastTime); calls is the history
      of callbacks. */
  datatype Daemon = Daemon(
    now: nat, last: nat, current: seq<Entry>, overflow: seq<Entry>, queue: seq<Command>,
    timers: map<Timer, Info>, calls: seq<Call>)

  function Low(time: nat): Tick { time % 0x1_0000_0000 }

  function Epoch(time: nat): nat { time / 0x1_0000_0000 }

  function High(epoch: nat, value: Tick): nat { epoch * 0x1_0000_0000 + value }

  lemma HighLow(epoch: nat, value: Tick)
    ensures Low(High(epoch, value)) == value && Epoch(High(epoch, value)) == epoch
  {
  }

  lemma LowHigh(time: nat)
    ensures High(Epoch(time), Low(time)) == time
  {
  }

  // ----- placement -----

  datatype Placement = ProcessNow | IntoCurrent | IntoOverflow

  /** The decision of prvInsertTimerInActiveList. */
  function Place(next: Tick, now: Tick, command: Tick, period: Period): Placement {
    if next <= now then
      if Minus(now, command) >= period then ProcessNow else IntoOverflow
    else
      if now < command && next >= command then ProcessNow else IntoCurrent
  }

  lemma PlusLow(time: nat, period: Tick)
    ensures Plus(Low(time), period) == Low(time + period)
  {
  }

  lemma MinusLow(time: nat, since: nat)
    requires since <= time < since + 0x1_0000_0000
    ensures Minus(Low(time), Low(since)) == time - since
  {
  }

  /** In modular time the decision is exact: a command sent at true tick C, handled less than a wrap later
      at true tick N, is found to have expired if and only if it has, and otherwise goes to the list of
      the epoch in which it will. */
  lemma PlacementIsExact(sent: nat, now: nat, period: Period)
    requires sent <= now < sent + 0x1_0000_0000
    ensures var p, due := Place(Plus(Low(sent), period), Low(now), Low(sent), period), sent + period;
      && (p == ProcessNow <==> due <= now)
      && (p == IntoCurrent <==> due > now && Epoch(due) == Epoch(now))
      && (p == IntoOverflow <==> due > now && Epoch(due) == Epoch(now) + 1)
  {
    PlusLow(sent, period);
    MinusLow(now, sent);
    var due := sent + period;
    LowHigh(sent);
    LowHigh(now);
    LowHigh(due);
    EpochStep(sent, now);
    EpochStep(sent, due);
  }

  lemma LowOfWraps(time: nat, late: nat)
    ensures Low(time + late) == Low(time + late % 0x1_0000_0000)
  {
    var q := late / 0x1_0000_0000;
    assert time + late == (time + late % 0x1_0000_0000) + q * 0x1_0000_0000;
    LowMultiple(time + late % 0x1_0000_0000, q);
  }

  lemma {:induction false} LowMultiple(time: nat, q: nat)
    ensures Low(time + q * 0x1_0000_0000) == Low(time)
    decreases q
  {
    if q > 0 {
      LowMultiple(time, q - 1);
      assert time + q * 0x1_0000_0000 == (time + (q - 1) * 0x1_0000_0000) + 0x1_0000_0000;
    }
  }

  /** Handled any number of ticks late, the command is found to have expired rightly unless it is a wrap or
      more late and the wrapped lateness falls short of the period. */
  lemma PlacementWhenLate(sent: nat, late: nat, period: Period)
    ensures var now, p := sent + late, Place(Plus(Low(sent), period), Low(sent + late), Low(sent), period);
      (p == ProcessNow <==> sent + period <= now) <==>
        !(late >= 0x1_0000_0000 && late % 0x1_0000_0000 < period)
  {
    LowOfWraps(sent, late);
    PlacementIsExact(sent, sent + late % 0x1_0000_0000, period);
  }

  /** For example: a command that is handled 2^32 ticks late gives a timer of 10 ticks another period. */
  lemma ForgottenForAWrap(sent: nat)
    ensures Place(Plus(Low(sent), 10), Low(sent + 0x1_0000_0000), Low(sent), 10) != ProcessNow
  {
    PlacementWhenLate(sent, 0x1_0000_0000, 10);
  }

  lemma EpochStep(a: nat, b: nat)
    requires a <= b < a + 0x1_0000_0000
    ensures Epoch(b) == Epoch(a) + if Low(b) < Low(a) then 1 else 0
  {
  }

  // ----- the lists -----

  function Values(list: seq<Entry>): (v: seq<Tick>)
    ensures |v| == |list| && forall i :: 0 <= i < |v| ==> v[i] == list[i].value
  {
    seq(|list|, i requires 0 <= i < |list| => list[i].value)
  }

  /** vListInsert */
  function Insert(list: seq<Entry>, e: Entry): (r: seq<Entry>)
    ensures |r| == |list| + 1
  {
    var p := StepOver(Values(list), e.value);
    list[..p] + [e] + list[p..]
  }

  /** uxListRemove of a timer's item, if it is on the list. */
  function RemoveTimer(list: seq<Entry>, x: Timer): seq<Entry> {
    if list == [] then []
    else if list[0].timer == x then RemoveTimer(list[1..], x)
    else [list[0]] + RemoveTimer(list[1..], x)
  }

  ghost predicate InOrder(list: seq<Entry>) {
    Sorted(Values(list))
  }

  lemma InsertInOrder(list: seq<Entry>, e: Entry)
    requires InOrder(list)
    ensures InOrder(Insert(list, e))
  {
    InsertSorted(Values(list), e.value);
    var p := StepOver(Values(list), e.value);
    assert Values(Insert(list, e)) == Values(list)[..p] + [e.value] + Values(list)[p..];
  }

  // ----- the daemon's functions -----

  ghost predicate Known(d: Daemon) {
    && (forall e :: e in d.current ==> e.timer in d.timers)
    && (forall e :: e in d.overflow ==> e.timer in d.timers)
    && (forall c :: c in d.queue ==> c.timer in d.timers)
  }

  /** How far a list's items are from the end of the epoch: what the loop of prvSwitchTimerLists uses up. */
  function Slack(list: seq<Entry>): nat {
    if list == [] then 0 else (0x1_0000_0000 - list[0].value) + Slack(list[1..])
  }

  lemma {:induction false} SlackSplit(a: seq<Entry>, b: seq<Entry>)
    ensures Slack(a + b) == Slack(a) + Slack(b)
  {
    if a == [] {
      assert a + b == b;
    } else {
      SlackSplit(a[1..], b);
      assert (a + b)[1..] == a[1..] + b;
    }
  }

  lemma SlackInsert(list: seq<Entry>, e: Entry)
    ensures Slack(Insert(list, e)) == Slack(list) + (0x1_0000_0000 - e.value)
  {
    var p := StepOver(Values(list), e.value);
    SlackSplit(list[..p] + [e], list[p..]);
    SlackSplit(list[..p], [e]);
    SlackSplit(list[..p], list[p..]);
    assert list == list[..p] + list[p..];
  }

  lemma KnownAfterInsert(list: seq<Entry>, e: Entry, x: Entry)
    ensures x in Insert(list, e) <==> x == e || x in list
  {
    var p := StepOver(Values(list), e.value);
    assert list == list[..p] + list[p..];
  }

  /** One round of the loop of prvSwitchTimerLists. */
  function SwitchOne(d: Daemon): (r: Daemon)
    requires Known(d) && d.current != []
    ensures Known(r) && r == d.(current := r.current, queue := r.queue, calls := r.calls)
    ensures Slack(r.current) < Slack(d.current)
  {
    var e := d.current[0];
    var info := d.timers[e.timer];
    var due := High(Epoch(d.last), e.value);
    var reload := Plus(e.value, info.period);
    var fired := d.(current := d.current[1..], calls := d.calls + [Call(e.timer, due)]);
    if !info.autoReload then fired
    else if reload > e.value then
      var again := Entry(e.timer, reload);
      SlackInsert(fired.current, again);
      assert forall x :: x in Insert(fired.current, again) ==> x.timer in d.timers by {
        forall x | x in Insert(fired.current, again) ensures x.timer in d.timers {
          KnownAfterInsert(fired.current, again, x);
        }
      }
      fired.(current := Insert(fired.current, again))
    else fired.(queue := fired.queue + [Command(e.timer, Start, e.value, due)])
  }

  /** prvSwitchTimerLists */
  function SwitchLists(d: Daemon): (r: Daemon)
    requires Known(d)
    ensures Known(r)
    decreases Slack(d.current)
  {
    if d.current == [] then d.(current := d.overflow, overflow := [])
    else SwitchLists(SwitchOne(d))
  }

  /** prvSampleTimeNow */
  function Sample(d: Daemon): (r: Daemon)
    requires Known(d)
    ensures Known(r)
  {
    var s := if Low(d.now) < Low(d.last) then SwitchLists(d) else d;
    s.(last := d.now)
  }

  /** prvInsertTimerInActiveList, when it does insert. */
  function InsertActive(d: Daemon, x: Timer, next: Tick, place: Placement): (r: Daemon)
    requires Known(d) && x in d.timers
    ensures Known(r) && r == d.(current := r.current, overflow := r.overflow)
  {
    var e := Entry(x, next);
    match place
    case ProcessNow => d
    case IntoCurrent =>
      assert forall y :: y in Insert(d.current, e) ==> y.timer in d.timers by {
        forall y | y in Insert(d.current, e) ensures y.timer in d.timers { KnownAfterInsert(d.current, e, y); }
      }
      d.(current := Insert(d.current, e))
    case IntoOverflow =>
      assert forall y :: y in Insert(d.overflow, e) ==> y.timer in d.timers by {
        forall y | y in Insert(d.overflow, e) ensures y.timer in d.timers { KnownAfterInsert(d.overflow, e, y); }
      }
      d.(overflow := Insert(d.overflow, e))
  }

  /** prvProcessExpiredTimer, of the head of the current list. */
  function ProcessExpired(d: Daemon): (r: Daemon)
    requires Known(d) && d.current != []
    ensures Known(r)
  {
    var e := d.current[0];
    var info := d.timers[e.timer];
    var due := High(Epoch(d.last), e.value);
    var removed := d.(current := d.current[1..]);
    var rearmed :=
      if info.autoReload then
        var next := Plus(e.value, info.period);
        var place := Place(next, Low(d.last), e.value, info.period);
        if place == ProcessNow then removed.(queue := removed.queue + [Command(e.timer, Start, e.value, due)])
        else InsertActive(removed, e.timer, next, place)
      else removed.(timers := d.timers[e.timer := info.(active := false)]);
    rearmed.(calls := d.calls + [Call(e.timer, due)])
  }

  /** prvProcessTimerOrBlockTask: sample the time, and unless the lists were switched make the callback of
      the first timer if it has expired. */
  function ExpireOrBlock(d: Daemon): (r: Daemon)
    requires Known(d)
    ensures Known(r)
  {
    var switched := Low(d.now) < Low(d.last);
    var s := Sample(d);
    if !switched && s.current != [] && s.current[0].value <= Low(s.now) then ProcessExpired(s) else s
  }

  lemma RemoveKnown(list: seq<Entry>, x: Timer)
    ensures forall e :: e in RemoveTimer(list, x) ==> e in list
  {
  }

  /** The message is taken off the queue, and its timer off its list. */
  function TakeCommand(d: Daemon): (r: Daemon)
    requires Known(d) && d.queue != []
    ensures Known(r)
  {
    var x := d.queue[0].timer;
    RemoveKnown(d.current, x);
    RemoveKnown(d.overflow, x);
    d.(queue := d.queue[1..], current := RemoveTimer(d.current, x), overflow := RemoveTimer(d.overflow, x))
  }

  /** tmrCOMMAND_START and tmrCOMMAND_RESET, after the time was sampled. */
  function StartTimer(d: Daemon, x: Timer, value: Tick, at: nat): (r: Daemon)
    requires Known(d) && x in d.timers
    ensures Known(r)
  {
    var info := d.timers[x];
    var active := d.(timers := d.timers[x := info.(active := true)]);
    var next := Plus(value, info.period);
    var place := Place(next, Low(d.last), value, info.period);
    if place != ProcessNow then InsertActive(active, x, next, place)
    else
      var fired := active.(calls := d.calls + [Call(x, at + info.period)]);
      if info.autoReload then fired.(queue := fired.queue + [Command(x, Start, next, at + info.period)]) else fired
  }

  /** One round of the loop of prvProcessReceivedCommands. */
  function HandleCommand(d: Daemon): (r: Daemon)
    requires Known(d) && d.queue != []
    ensures Known(r)
  {
    var c := d.queue[0];
    TakenKnown(d);
    var s := Sample(TakeCommand(d));
    match c.kind
    case Start => StartTimer(s, c.timer, c.value, c.at)
    case Stop => s.(timers := s.timers[c.timer := s.timers[c.timer].(active := false)])
    case Delete => s.(timers := s.timers[c.timer := s.timers[c.timer].(active := false)])
    case ChangePeriod(p) =>
      var t := s.(timers := s.timers[c.timer := s.timers[c.timer].(active := true, period := p)]);
      InsertActive(t, c.timer, Plus(Low(s.last), p), Place(Plus(Low(s.last), p), Low(s.last), Low(s.last), p))
  }

  lemma {:induction false} SwitchKeepsTimers(d: Daemon)
    requires Known(d)
    ensures SwitchLists(d).timers == d.timers && SwitchLists(d).now == d.now && SwitchLists(d).last == d.last
    decreases Slack(d.current)
  {
    if d.current != [] {
      SwitchKeepsTimers(SwitchOne(d));
    }
  }

  lemma TakenKnown(d: Daemon)
    requires Known(d) && d.queue != []
    ensures d.queue[0].timer in Sample(TakeCommand(d)).timers
  {
    SwitchKeepsTimers(TakeCommand(d));
  }

  // ----- the lists stay sorted -----

  ghost predicate ListsSorted(d: Daemon) {
    InOrder(d.current) && InOrder(d.overflow)
  }

  lemma TailInOrder(list: seq<Entry>)
    requires InOrder(list) && list != []
    ensures InOrder(list[1..])
  {
    assert Values(list[1..]) == Values(list)[1..];
  }

  lemma ConsInOrder(e: Entry, rest: seq<Entry>)
    requires InOrder(rest) && forall i :: 0 <= i < |rest| ==> e.value <= rest[i].value
    ensures InOrder([e] + rest)
  {
    assert Values([e] + rest) == [e.value] + Values(rest);
  }

  lemma HeadBelow(list: seq<Entry>, rest: seq<Entry>)
    requires InOrder(list) && list != [] && forall e :: e in rest ==> e in list[1..]
    ensures forall i :: 0 <= i < |rest| ==> list[0].value <= rest[i].value
  {
    forall i | 0 <= i < |rest| ensures list[0].value <= rest[i].value {
      assert rest[i] in list[1..];
      var j :| 0 <= j < |list[1..]| && list[1..][j] == rest[i];
      assert Values(list)[0] <= Values(list)[j + 1];
    }
  }

  lemma {:induction false} RemoveInOrder(list: seq<Entry>, x: Timer)
    requires InOrder(list)
    ensures InOrder(RemoveTimer(list, x))
    ensures forall e :: e in RemoveTimer(list, x) ==> e in list
  {
    if list != [] {
      hide InOrder, Values;
      TailInOrder(list);
      RemoveInOrder(list[1..], x);
      RemoveKnown(list[1..], x);
      var rest := RemoveTimer(list[1..], x);
      if list[0].timer != x {
        HeadBelow(list, rest);
        ConsInOrder(list[0], rest);
      }
    }
  }

  lemma {:induction false} SwitchKeepsSorted(d: Daemon)
    requires Known(d) && ListsSorted(d)
    ensures ListsSorted(SwitchLists(d))
    decreases Slack(d.current)
  {
    if d.current != [] {
      var e := d.current[0];
      TailInOrder(d.current);
      InsertInOrder(d.current[1..], Entry(e.timer, Plus(e.value, d.timers[e.timer].period)));
      hide Plus, Insert, Slack, InOrder, High;
      SwitchKeepsSorted(SwitchOne(d));
    } else {
      assert Values([]) == [];
    }
  }

  lemma SampleKeepsSorted(d: Daemon)
    requires Known(d) && ListsSorted(d)
    ensures ListsSorted(Sample(d))
  {
    SwitchKeepsSorted(d);
  }

  lemma PutKeepsSorted(d: Daemon, x: Timer, next: Tick, place: Placement)
    requires Known(d) && x in d.timers && ListsSorted(d)
    ensures ListsSorted(InsertActive(d, x, next, place))
  {
    InsertInOrder(d.current, Entry(x, next));
    InsertInOrder(d.overflow, Entry(x, next));
  }

  lemma StartKeepsSorted(d: Daemon, x: Timer, value: Tick, at: nat)
    requires Known(d) && x in d.timers && ListsSorted(d)
    ensures ListsSorted(StartTimer(d, x, value, at))
  {
    hide InOrder, Place, Plus, Low, Insert;
    var info := d.timers[x];
    var next := Plus(value, info.period);
    PutKeepsSorted(d.(timers := d.timers[x := info.(active := true)]), x, next,
                   Place(next, Low(d.last), value, info.period));
  }

  /** vListInsert keeps both lists in expiry order through everything the daemon does. */
  lemma ExpireKeepsSorted(d: Daemon)
    requires Known(d) && ListsSorted(d)
    ensures ListsSorted(ExpireOrBlock(d))
  {
    SampleKeepsSorted(d);
    hide InOrder, Place, Plus, Low, Insert, High, Sample;
    var s := Sample(d);
    if s.current != [] {
      var e := s.current[0];
      var info := s.timers[e.timer];
      TailInOrder(s.current);
      var next := Plus(e.value, info.period);
      PutKeepsSorted(s.(current := s.current[1..]), e.timer, next, Place(next, Low(s.last), e.value, info.period));
    }
  }

  lemma HandleKeepsSorted(d: Daemon)
    requires Known(d) && d.queue != [] && ListsSorted(d)
    ensures ListsSorted(HandleCommand(d))
  {
    var c := d.queue[0];
    RemoveInOrder(d.current, c.timer);
    RemoveInOrder(d.overflow, c.timer);
    TakenKnown(d);
    hide InOrder, Place, Plus, Low, Insert, High, Sample, StartTimer, InsertActive;
    SampleKeepsSorted(TakeCommand(d));
    var s := Sample(TakeCommand(d));
    match c.kind {
      case Start => StartKeepsSorted(s, c.timer, c.value, c.at);
      case ChangePeriod(p) =>
        var next := Plus(Low(s.last), p);
        PutKeepsSorted(s.(timers := s.timers[c.timer := s.timers[c.timer].(active := true, period := p)]), c.timer,
                       next, Place(next, Low(s.last), Low(s.last), p));
      case _ =>
    }
  }

  lemma HeadFirst(list: seq<Entry>, e: Entry)
    requires InOrder(list) && e in list
    ensures list[0].value <= e.value
  {
    var i :| 0 <= i < |list| && list[i] == e;
    assert Values(list)[0] <= Values(list)[i];
  }

  /** One look at the timers, the count not having wrapped: if any timer has expired, exactly one callback is made, that
      of the timer that expired first, for the tick it expired at; if none has, nothing changes but the time looked
      at. */
  lemma RoundIsExact(d: Daemon)
    requires Known(d) && InOrder(d.current) && Epoch(d.now) == Epoch(d.last) && d.last <= d.now
    ensures var r := ExpireOrBlock(d);
      if exists e :: e in d.current && e.value <= Low(d.now) then
        && d.current != [] && (forall e :: e in d.current ==> d.current[0].value <= e.value)
        && r.calls == d.calls + [Call(d.current[0].timer, High(Epoch(d.now), d.current[0].value))]
      else r == d.(last := d.now)
  {
    assert Low(d.now) >= Low(d.last);
    forall e | e in d.current ensures d.current[0].value <= e.value {
      HeadFirst(d.current, e);
    }
    hide InOrder, Low, Epoch, High, Insert, Place, Plus;
  }
}
