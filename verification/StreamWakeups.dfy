/** How the two parties of a stream buffer (stream_buffer.c) sleep and wake: each registers itself in a
    critical section, sleeps until it is notified or its time is up, and is notified by the other. */
module StreamWakeups {

  /** The party that reads: it has registered and is about to sleep, sleeps, is awake but still registered,
      or has taken bytes and not yet told the writer. */
  datatype Reader = ReaderIdle | ReaderRegistered | ReaderAsleep | ReaderWoken | ReaderTaking

  /** The party that writes, likewise; or it has put bytes and not yet looked at the trigger level, or has
      found that the reader is to be told. */
  datatype Writer =
    | WriterIdle
    | WriterRegistered(required: nat)
    | WriterAsleep(required: nat)
    | WriterWoken
    | WriterPutting
    | WriterTelling

  /** capacity is xLength - 1; header is what a message needs besides its bytes, 0 in a stream buffer.  The
      notification state of a task is pending or not. */
  datatype Buffer = Buffer(
    capacity: nat, header: nat, bytes: nat, trigger: nat,
    readerWaits: bool, readerNotified: bool, writerWaits: bool, writerNotified: bool,
    reader: Reader, writer: Writer)

  datatype Step =
    | ReaderLooks
    | ReaderSleeps
    | ReaderTimesOut
    | ReaderRises
    | ReaderTakes(k: nat)
    | ReaderTells
    | WriterLooks(required: nat)
    | WriterSleeps
    | WriterTimesOut
    | WriterRises
    | WriterPuts(k: nat)
    | WriterChecks
    | WriterTells
    | NotifyReader
    | NotifyWriter
    | SetTrigger(level: nat)

  function Space(b: Buffer): nat
    requires b.bytes <= b.capacity
  {
    b.capacity - b.bytes
  }

  predicate Enabled(b: Buffer, s: Step) {
    match s
    case ReaderLooks => b.reader == ReaderIdle
    case ReaderSleeps => b.reader == ReaderRegistered
    case ReaderTimesOut => b.reader == ReaderAsleep
    case ReaderRises => b.reader == ReaderWoken
    case ReaderTakes(k) => b.reader in {ReaderIdle, ReaderTaking} && k <= b.bytes
    case ReaderTells => b.reader == ReaderTaking
    case WriterLooks(_) => b.writer == WriterIdle
    case WriterSleeps => b.writer.WriterRegistered?
    case WriterTimesOut => b.writer.WriterAsleep?
    case WriterRises => b.writer == WriterWoken
    case WriterPuts(k) => b.writer in {WriterIdle, WriterPutting} && b.bytes + k <= b.capacity
    case WriterChecks => b.writer == WriterPutting
    case WriterTells => b.writer == WriterTelling
    case NotifyReader => true
    case NotifyWriter => true
    case SetTrigger(level) => 0 < level <= b.capacity + 1
  }

  /** xTaskNotify of the reader: a sleeper wakes and uses the notification up. */
  function ReaderTold(b: Buffer): Buffer {
    if b.reader == ReaderAsleep then b.(reader := ReaderWoken) else b.(readerNotified := true)
  }

  function WriterTold(b: Buffer): Buffer {
    if b.writer.WriterAsleep? then b.(writer := WriterWoken) else b.(writerNotified := true)
  }

  function Next(b: Buffer, s: Step): Buffer
    requires Enabled(b, s) && b.bytes <= b.capacity
  {
    match s
    case ReaderLooks =>
      if b.bytes <= b.header then b.(readerNotified := false, readerWaits := true, reader := ReaderRegistered) else b
    case ReaderSleeps =>
      if b.readerNotified then b.(readerNotified := false, reader := ReaderWoken) else b.(reader := ReaderAsleep)
    case ReaderTimesOut => b.(reader := ReaderWoken)
    case ReaderRises => b.(readerWaits := false, reader := ReaderIdle)
    case ReaderTakes(k) => b.(bytes := b.bytes - k, reader := ReaderTaking)
    case ReaderTells =>
      (if b.writerWaits then WriterTold(b).(writerWaits := false) else b).(reader := ReaderIdle)
    case WriterLooks(required) =>
      if Space(b) < required
      then b.(writerNotified := false, writerWaits := true, writer := WriterRegistered(required))
      else b
    case WriterSleeps =>
      if b.writerNotified then b.(writerNotified := false, writer := WriterWoken)
      else b.(writer := WriterAsleep(b.writer.required))
    case WriterTimesOut => b.(writer := WriterWoken)
    case WriterRises => b.(writerWaits := false, writer := WriterIdle)
    case WriterPuts(k) => b.(bytes := b.bytes + k, writer := WriterPutting)
    case WriterChecks => b.(writer := if b.bytes >= b.trigger then WriterTelling else WriterIdle)
    case WriterTells =>
      (if b.readerWaits then ReaderTold(b).(readerWaits := false) else b).(writer := WriterIdle)
    case NotifyReader => ReaderTold(b)
    case NotifyWriter => WriterTold(b)
    case SetTrigger(level) => b.(trigger := level)
  }

  // ----- nobody sleeps in vain -----

  /** Nothing for the reader to be woken for. */
  predicate NothingToRead(b: Buffer) {
    b.bytes <= b.header || b.bytes < b.trigger
  }

  /** The writer has put bytes in and is yet to look, or about to tell. */
  predicate WriterBusy(b: Buffer) {
    b.writer == WriterPutting || b.writer == WriterTelling
  }

  ghost predicate ReaderOk(b: Buffer) {
    && (b.reader == ReaderAsleep ==> b.readerWaits)
    && (b.reader == ReaderRegistered && !b.readerNotified ==> b.readerWaits)
    && (b.reader in {ReaderAsleep, ReaderRegistered} && b.readerWaits && !WriterBusy(b) ==> NothingToRead(b))
  }

  ghost predicate WriterOk(b: Buffer) {
    && b.bytes <= b.capacity
    && (b.writer.WriterAsleep? ==> b.writerWaits)
    && (b.writer.WriterRegistered? && !b.writerNotified ==> b.writerWaits)
    && ((b.writer.WriterAsleep? || b.writer.WriterRegistered?) && b.writerWaits && b.reader != ReaderTaking ==>
          Space(b) < b.writer.required)
  }

  ghost predicate Inv(b: Buffer) {
    ReaderOk(b) && WriterOk(b)
  }

  /** The step moves the trigger level down to where the reader should be awake. */
  predicate LowersTrigger(b: Buffer, s: Step) {
    && s.SetTrigger? && b.reader in {ReaderAsleep, ReaderRegistered} && b.readerWaits && !WriterBusy(b)
    && b.header < b.bytes && s.level <= b.bytes
  }

  /** Every step keeps this, but for lowering the trigger level under a waiting reader, which does not. */
  lemma StepKeepsInv(b: Buffer, s: Step)
    requires Inv(b) && Enabled(b, s)
    ensures Inv(Next(b, s)) <==> !LowersTrigger(b, s)
  {
  }

  ghost predicate IsRun(states: seq<Buffer>, steps: seq<Step>) {
    && |states| == |steps| + 1
    && forall k :: 0 <= k < |steps| && Inv(states[k]) ==>
         Enabled(states[k], steps[k]) && states[k + 1] == Next(states[k], steps[k])
  }

  ghost predicate TriggerStays(states: seq<Buffer>, steps: seq<Step>) {
    |states| == |steps| + 1 && forall k :: 0 <= k < |steps| ==> !LowersTrigger(states[k], steps[k])
  }

  /** An empty buffer that nobody uses. */
  predicate Initial(b: Buffer) {
    && b.bytes == 0 && b.reader == ReaderIdle && b.writer == WriterIdle
    && !b.readerWaits && !b.writerWaits
  }

  lemma {:induction false} InvThroughout(states: seq<Buffer>, steps: seq<Step>, k: nat)
    requires IsRun(states, steps) && Initial(states[0]) && TriggerStays(states, steps) && k <= |steps|
    ensures Inv(states[k])
    decreases k
  {
    if k > 0 {
      hide Next, LowersTrigger;
      InvThroughout(states, steps, k - 1);
      StepKeepsInv(states[k - 1], steps[k - 1]);
    } else {
    }
  }

  /** In every run in which nobody lowers the trigger level under a waiting reader, wherever the steps of the
      two parties and of whoever else notifies them fall: while the reader sleeps and the writer is not in the
      middle of sending, there is less in the buffer than the trigger level, or no whole message; and while
      the writer sleeps and the reader is not in the middle of receiving, there is too little room. */
  lemma NobodySleepsInVain(states: seq<Buffer>, steps: seq<Step>, k: nat)
    requires IsRun(states, steps) && Initial(states[0]) && TriggerStays(states, steps) && k <= |steps|
    ensures var b := states[k];
      && b.bytes <= b.capacity
      && (b.reader == ReaderAsleep && !WriterBusy(b) ==> NothingToRead(b))
      && (b.writer.WriterAsleep? && b.reader != ReaderTaking ==> Space(b) < b.writer.required)
  {
    InvThroughout(states, steps, k);
  }

  function Max(a: nat, b: nat): nat { if a < b then b else a }

  /** The two can be asleep at once only if what the writer wants to put in does not fit beside what the reader
      can be left waiting with. */
  lemma BothAsleep(states: seq<Buffer>, steps: seq<Step>, k: nat)
    requires IsRun(states, steps) && Initial(states[0]) && TriggerStays(states, steps) && k <= |steps|
    requires states[k].reader == ReaderAsleep && states[k].writer.WriterAsleep?
    ensures var b := states[k];
      b.writer.required > b.capacity - Max(b.header, if b.trigger > 0 then b.trigger - 1 else 0)
  {
    NobodySleepsInVain(states, steps, k);
  }

  // ----- nobody is woken for nothing -----

  /** What the writer last did about the bytes it has put: it found the trigger level reached in step j. */
  ghost predicate FoundEnough(states: seq<Buffer>, steps: seq<Step>, j: nat, k: nat) {
    && j < k <= |steps| && |states| == |steps| + 1
    && steps[j] == WriterChecks && states[j].writer == WriterPutting && states[j].bytes >= states[j].trigger
    && forall i :: j < i <= k ==> states[i].writer == WriterTelling
  }

  lemma TellingBegins(b: Buffer, s: Step)
    requires b.bytes <= b.capacity && Enabled(b, s) && b.writer != WriterTelling && Next(b, s).writer == WriterTelling
    ensures s == WriterChecks && b.writer == WriterPutting && b.bytes >= b.trigger
  {
  }

  lemma {:induction false} TellsForAReason(states: seq<Buffer>, steps: seq<Step>, k: nat) returns (j: nat)
    requires IsRun(states, steps) && Initial(states[0]) && TriggerStays(states, steps) && k <= |steps|
    requires states[k].writer == WriterTelling
    ensures FoundEnough(states, steps, j, k)
    decreases k
  {
    hide Next, LowersTrigger;
    j := 0;
    if k > 0 {
      InvThroughout(states, steps, k - 1);
      if states[k - 1].writer == WriterTelling {
        j := TellsForAReason(states, steps, k - 1);
      } else {
        TellingBegins(states[k - 1], steps[k - 1]);
        j := k - 1;
      }
    }
  }

  lemma WakesReader(b: Buffer, s: Step)
    requires b.bytes <= b.capacity && Enabled(b, s) && b.reader == ReaderAsleep && Next(b, s).reader != ReaderAsleep
    ensures s == ReaderTimesOut || s == NotifyReader || (s == WriterTells && b.writer == WriterTelling && b.readerWaits)
    ensures Next(b, s).reader == ReaderWoken
  {
  }

  lemma WakesWriter(b: Buffer, s: Step)
    requires b.bytes <= b.capacity && Enabled(b, s) && b.writer.WriterAsleep? && !Next(b, s).writer.WriterAsleep?
    ensures s == WriterTimesOut || s == NotifyWriter || (s == ReaderTells && b.reader == ReaderTaking && b.writerWaits)
    ensures Next(b, s).writer == WriterWoken
  {
  }

  /** In every such run a reader that is asleep is woken when its time is up, by somebody else's notification, or by
      a writer that, having put bytes in, has found as many in the buffer as the trigger level; and a writer likewise
      by a reader that has taken bytes out. */
  lemma WokenForAReason(states: seq<Buffer>, steps: seq<Step>, k: nat)
    requires IsRun(states, steps) && Initial(states[0]) && TriggerStays(states, steps) && k < |steps|
    ensures states[k].reader == ReaderAsleep && states[k + 1].reader != ReaderAsleep ==>
              steps[k] == ReaderTimesOut || steps[k] == NotifyReader
              || (steps[k] == WriterTells && exists j :: FoundEnough(states, steps, j, k))
    ensures states[k].writer.WriterAsleep? && !states[k + 1].writer.WriterAsleep? ==>
              steps[k] == WriterTimesOut || steps[k] == NotifyWriter
              || (steps[k] == ReaderTells && states[k].reader == ReaderTaking)
  {
    hide Next, LowersTrigger, Enabled;
    InvThroughout(states, steps, k);
    if states[k].reader == ReaderAsleep && states[k + 1].reader != ReaderAsleep {
      WakesReader(states[k], steps[k]);
      if steps[k] == WriterTells {
        var j := TellsForAReason(states, steps, k);
      }
    }
    if states[k].writer.WriterAsleep? && !states[k + 1].writer.WriterAsleep? {
      WakesWriter(states[k], steps[k]);
    }
  }

  // ----- registering -----

  /** A party that is not waiting is not registered. */
  predicate Unregistered(b: Buffer) {
    && (b.reader in {ReaderIdle, ReaderTaking} ==> !b.readerWaits)
    && (b.writer in {WriterIdle, WriterPutting, WriterTelling} ==> !b.writerWaits)
  }

  /** So whoever looks finds nobody registered, as the source asserts. */
  lemma {:induction false} LooksUnregistered(states: seq<Buffer>, steps: seq<Step>, k: nat)
    requires IsRun(states, steps) && Initial(states[0]) && TriggerStays(states, steps) && k <= |steps|
    ensures Unregistered(states[k])
    decreases k
  {
    if k > 0 {
      hide Inv, LowersTrigger, Next, Enabled, Unregistered;
      LooksUnregistered(states, steps, k - 1);
      InvThroughout(states, steps, k - 1);
      BoundedOf(states[k - 1]);
      StepKeepsUnregistered(states[k - 1], steps[k - 1]);
    } else {
    }
  }

  lemma StepKeepsUnregistered(b: Buffer, s: Step)
    requires b.bytes <= b.capacity && Enabled(b, s) && Unregistered(b)
    ensures Unregistered(Next(b, s))
  {
  }

  lemma BoundedOf(b: Buffer)
    requires Inv(b)
    ensures b.bytes <= b.capacity
  {
  }

  /** A party registers, forgetting any notification from before, exactly if there is no more than a header to read, or
      less room than it needs. */
  lemma RegistersIff(b: Buffer, required: nat)
    requires Inv(b) && Unregistered(b)
    ensures b.reader == ReaderIdle ==>
              var r := Next(b, ReaderLooks);
              if b.bytes <= b.header then r.reader == ReaderRegistered && r.readerWaits && !r.readerNotified else r == b
    ensures b.writer == WriterIdle ==>
              var r := Next(b, WriterLooks(required));
              if b.bytes + required > b.capacity
              then r.writer == WriterRegistered(required) && r.writerWaits && !r.writerNotified else r == b
  {
  }

  /** A registered party sleeps exactly if it has not been notified since; a notification is used up. */
  lemma SleepsIff(b: Buffer)
    requires Inv(b)
    ensures b.reader == ReaderRegistered ==>
              var r := Next(b, ReaderSleeps);
              !r.readerNotified && r == b.(reader := if b.readerNotified then ReaderWoken else ReaderAsleep,
                                           readerNotified := false)
    ensures b.writer.WriterRegistered? ==>
              var r := Next(b, WriterSleeps);
              !r.writerNotified
              && r == b.(writer := if b.writerNotified then WriterWoken else WriterAsleep(b.writer.required),
                         writerNotified := false)
  {
  }

  /** The reader was notified in step j, by somebody else or by a writer about to tell it, and has been registered
      since. */
  ghost predicate NotifiedIn(states: seq<Buffer>, steps: seq<Step>, j: nat, k: nat) {
    && j < k <= |steps| && |states| == |steps| + 1
    && (steps[j] == NotifyReader || (steps[j] == WriterTells && states[j].readerWaits))
    && forall i :: j <= i <= k ==> states[i].reader == ReaderRegistered
  }

  lemma NotificationArrives(b: Buffer, s: Step)
    requires b.bytes <= b.capacity && Enabled(b, s)
    requires Next(b, s).reader == ReaderRegistered && Next(b, s).readerNotified
    ensures b.reader == ReaderRegistered
    ensures b.readerNotified || s == NotifyReader || (s == WriterTells && b.readerWaits)
  {
  }

  /** A reader that does not go to sleep after all has been notified since it registered. */
  lemma {:induction false} NotifiedSinceRegistered(states: seq<Buffer>, steps: seq<Step>, k: nat) returns (j: nat)
    requires IsRun(states, steps) && Initial(states[0]) && TriggerStays(states, steps) && k <= |steps|
    requires states[k].reader == ReaderRegistered && states[k].readerNotified
    ensures NotifiedIn(states, steps, j, k)
    decreases k
  {
    hide Next, LowersTrigger, Enabled, Inv;
    InvThroughout(states, steps, k - 1);
    BoundedOf(states[k - 1]);
    NotificationArrives(states[k - 1], steps[k - 1]);
    if states[k - 1].readerNotified {
      j := NotifiedSinceRegistered(states, steps, k - 1);
    } else {
      j := k - 1;
    }
  }

  // ----- examples of both failures -----

  /** A stream buffer of 10 bytes with trigger level 8. */
  function Empty(): Buffer {
    Buffer(10, 0, 0, 8, false, false, false, false, ReaderIdle, WriterIdle)
  }

  function WaitingReader(): Buffer {
    Next(Next(Empty(), ReaderLooks), ReaderSleeps)
  }

  function SomeBytes(): Buffer {
    Next(Next(WaitingReader(), WriterPuts(5)), WriterChecks)
  }

  /** The reader waits for 8 bytes, the writer puts 5 and then wants to put 6 more: both sleep, and without
      block times they sleep for ever. */
  lemma BothCanSleep()
    ensures var b := Next(Next(SomeBytes(), WriterLooks(6)), WriterSleeps);
      Inv(b) && b.reader == ReaderAsleep && b.writer == WriterAsleep(6) && b.bytes == 5
  {
  }

  /** The trigger level is lowered to 4 with 5 bytes in the buffer: the reader sleeps on. */
  lemma LoweredTriggerForgets()
    ensures var b := Next(SomeBytes(), SetTrigger(4));
      b.reader == ReaderAsleep && b.writer == WriterIdle && b.bytes == 5 && !NothingToRead(b)
  {
  }
}
