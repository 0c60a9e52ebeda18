/**
 * The sampling task: the handle object it updates, one cycle of its endless
 * loop over an abstract capture outcome, and the specification of what a run
 * of cycles logs and leaves in the reading.
 *
 * A capture outcome is `None` when the ring-buffer receive times out and
 * `Some(d)` when an item arrives, `d` being the item's `duration0` tick count
 * (zero included). Driver calls, posts, event-loop runs and delays are
 * entries of a ghost log; their effects on the hardware and the scheduler are
 * not modelled.
 */
module SensorTask {
  import opened Wrappers
  import opened UltrasonicTypes
  import opened RmtTiming

  /** Ticks the task waits in `xRingbufferReceive` for an echo item. */
  const ReceiveWaitTicks: nat := 1000

  /** Budget of the bounded event-loop run at the end of a cycle, in ms. */
  const LoopRunMs: nat := 50

  /** The fixed delay at the end of every cycle, in ms; the configured read interval plays no part. */
  const CycleDelayMs: nat := 100

  /** The condition of the task's loop, `while (1)`: constantly true, and the body has no `break`. */
  const LoopCondition: bool := true

  /** What the task does to the world, in order. */
  datatype LogEntry =
    | GetRingbuf(channel: nat)
    | RxStart(channel: nat)
    | WriteItem(channel: nat, item: RmtItem)
    | WaitTxDone(channel: nat)
    | Receive(waitTicks: nat)
    | ReturnItem
    | Post(id: EventId, payload: Reading)
    | RunLoop(ms: nat)
    | Delay(ms: nat)
    | DeleteSelf

  /**
   * The distance, in metres, for an echo of `us` microseconds: sound at
   * 340.29 m/s covers the round trip, so half of it is the distance. This is
   * the quantity the source computes in `double`, idealised over the reals.
   */
  function Distance(us: nat): (m: real)
    ensures m >= 0.0
    ensures m == 0.0 <==> us == 0
  {
    340.29 * (us as real) / 2_000_000.0
  }

  /** Longer echoes mean larger distances. */
  lemma DistanceMonotone(a: nat, b: nat)
    requires a <= b
    ensures Distance(a) <= Distance(b)
  {
  }

  /** The value the log line prints as centimetres: the distance times 100, i.e. 0.0170145 cm per microsecond of echo. */
  function LoggedCentimetres(us: nat): (cm: real)
    ensures cm * 20_000.0 == 340.29 * (us as real)
    ensures cm >= 0.0 && (cm == 0.0 <==> us == 0)
  {
    Distance(us) * 100.0
  }

  /** The record a capture of `d` ticks leaves in the handle. */
  function CaptureReading(d: nat): Reading
  {
    Reading(Distance(ItemDuration(d)))
  }

  /**
   * The field named `distance_cm` receives the unscaled distance: for every
   * non-zero echo it holds one hundredth of the centimetre value the task
   * logs, so it is in metres.
   */
  lemma StoredValueIsUnscaled(d: nat)
    ensures 100.0 * CaptureReading(d).distanceCm == LoggedCentimetres(ItemDuration(d))
    ensures ItemDuration(d) != 0 ==> CaptureReading(d).distanceCm != LoggedCentimetres(ItemDuration(d))
  {
  }

  /**
   * The reading after one cycle: untouched on a timeout; on a capture, a
   * non-negative distance that is zero exactly when the low 15 bits of the
   * captured tick count are zero.
   */
  function CycleReading(before: Reading, capture: Option<nat>): (r: Reading)
    ensures capture.None? ==> r == before
    ensures capture.Some? ==> r.distanceCm >= 0.0
    ensures capture.Some? ==> (r.distanceCm == 0.0 <==> capture.value % DurationModulus == 0)
  {
    match capture
    case None => before
    case Some(d) => CaptureReading(d)
  }

  /**
   * What one cycle logs: the trigger write and the wait for it, the receive;
   * on a capture the item is returned and one UPDATE carrying the new
   * reading is posted; then the bounded loop run and the fixed delay.
   */
  function CycleLog(tx: nat, capture: Option<nat>): (log: seq<LogEntry>)
    ensures |log| == if capture.Some? then 7 else 5
    ensures log[2] == Receive(ReceiveWaitTicks)
    ensures ReturnItem in log <==> capture.Some?
  {
    [WriteItem(tx, TriggerItem()), WaitTxDone(tx), Receive(ReceiveWaitTicks)]
    + (match capture
       case None => []
       case Some(d) => [ReturnItem, Post(Update, CaptureReading(d))])
    + [RunLoop(LoopRunMs), Delay(CycleDelayMs)]
  }

  /** What the task logs before its loop: it fetches the RX ring buffer and starts receiving. */
  function Prologue(rx: nat): seq<LogEntry>
  {
    [GetRingbuf(rx), RxStart(rx)]
  }

  /** The log of consecutive cycles, one per capture outcome. */
  function RunLog(tx: nat, captures: seq<Option<nat>>): seq<LogEntry>
  {
    if captures == [] then []
    else RunLog(tx, captures[..|captures| - 1]) + CycleLog(tx, captures[|captures| - 1])
  }

  /**
   * What the task logs when its loop has run one cycle per outcome: the
   * prologue, the cycles, and `vTaskDelete(NULL)` should the loop condition
   * ever be false.
   */
  function TaskLog(rx: nat, tx: nat, captures: seq<Option<nat>>): seq<LogEntry>
  {
    Prologue(rx) + RunLog(tx, captures) + (if LoopCondition then [] else [DeleteSelf])
  }

  /** The reading after consecutive cycles. */
  function FinalReading(before: Reading, captures: seq<Option<nat>>): Reading
  {
    if captures == [] then before
    else CycleReading(FinalReading(before, captures[..|captures| - 1]), captures[|captures| - 1])
  }

  /** The posts of a log, in order. */
  function Posts(log: seq<LogEntry>): (ps: seq<LogEntry>)
    ensures |ps| <= |log|
    ensures forall e :: e in ps ==> e.Post? && e in log
  {
    if log == [] then []
    else Posts(log[..|log| - 1]) + (if log[|log| - 1].Post? then [log[|log| - 1]] else [])
  }

  /** Reference definition: one UPDATE carrying the capture's reading for every capture, in order. */
  function ExpectedPosts(captures: seq<Option<nat>>): seq<LogEntry>
  {
    if captures == [] then []
    else ExpectedPosts(captures[..|captures| - 1])
         + (match captures[|captures| - 1]
            case None => []
            case Some(d) => [Post(Update, CaptureReading(d))])
  }

  /** How many of the outcomes are captures. */
  function CaptureCount(captures: seq<Option<nat>>): (n: nat)
    ensures n <= |captures|
  {
    if captures == [] then 0
    else CaptureCount(captures[..|captures| - 1]) + (if captures[|captures| - 1].Some? then 1 else 0)
  }

  lemma {:induction false} PostsAppend(a: seq<LogEntry>, b: seq<LogEntry>)
    ensures Posts(a + b) == Posts(a) + Posts(b)
  {
    if b == [] {
      assert a + b == a;
    } else {
      var b' := b[..|b| - 1];
      assert (a + b)[..|a + b| - 1] == a + b';
      PostsAppend(a, b');
    }
  }

  /** A log without posts has no posts. */
  lemma {:induction false} PostFree(log: seq<LogEntry>)
    requires forall j :: 0 <= j < |log| ==> !log[j].Post?
    ensures Posts(log) == []
  {
    if log != [] {
      PostFree(log[..|log| - 1]);
    }
  }

  /** A timeout leaves the reading as it was and posts nothing. */
  lemma TimeoutPostsNothing(tx: nat, before: Reading)
    ensures CycleReading(before, None) == before
    ensures Posts(CycleLog(tx, None)) == []
  {
    PostFree(CycleLog(tx, None));
  }

  /**
   * A capture, a zero-length one included, overwrites the reading with the
   * distance of its ITEM_DURATION and posts exactly one event: an UPDATE whose
   * payload is a copy of the new reading, after the item was returned.
   */
  lemma CapturePostsOneUpdate(tx: nat, before: Reading, d: nat)
    ensures CycleReading(before, Some(d)) == Reading(Distance(ItemDuration(d)))
    ensures Posts(CycleLog(tx, Some(d))) == [Post(Update, CycleReading(before, Some(d)))]
    ensures CycleLog(tx, Some(d))[3] == ReturnItem
  {
    var post := Post(Update, CaptureReading(d));
    var front := [WriteItem(tx, TriggerItem()), WaitTxDone(tx), Receive(ReceiveWaitTicks), ReturnItem];
    var back := [RunLoop(LoopRunMs), Delay(CycleDelayMs)];
    assert CycleLog(tx, Some(d)) == front + [post] + back;
    PostFree(front);
    PostFree(back);
    assert Posts([post]) == [post] by {
      assert [post][..0] == [];
    }
    PostsAppend(front, [post]);
    PostsAppend(front + [post], back);
  }

  /**
   * Whatever the outcome, a cycle opens with one trigger write and one wait
   * for its completion, and closes with one 50 ms loop run and the fixed
   * 100 ms delay.
   */
  lemma CycleFrame(tx: nat, capture: Option<nat>)
    ensures var log := CycleLog(tx, capture);
      && |log| >= 5
      && log[..2] == [WriteItem(tx, TriggerItem()), WaitTxDone(tx)]
      && log[|log| - 2..] == [RunLoop(LoopRunMs), Delay(CycleDelayMs)]
  {
  }

  /** Over any run, the posts are exactly one UPDATE per capture, in capture order, each with its capture's reading. */
  lemma {:induction false} RunPosts(tx: nat, captures: seq<Option<nat>>)
    ensures Posts(RunLog(tx, captures)) == ExpectedPosts(captures)
  {
    if captures != [] {
      var init := captures[..|captures| - 1];
      var last := captures[|captures| - 1];
      RunPosts(tx, init);
      PostsAppend(RunLog(tx, init), CycleLog(tx, last));
      match last {
        case None => TimeoutPostsNothing(tx, ZeroReading);
        case Some(d) => CapturePostsOneUpdate(tx, ZeroReading, d);
      }
    }
  }

  /** The expected posts are all UPDATEs, as many as there are captures. */
  lemma {:induction false} ExpectedPostsShape(captures: seq<Option<nat>>)
    ensures |ExpectedPosts(captures)| == CaptureCount(captures)
    ensures forall e :: e in ExpectedPosts(captures) ==> e.Post? && e.id == Update
  {
    if captures != [] {
      ExpectedPostsShape(captures[..|captures| - 1]);
    }
  }

  /** No run ever posts UNKNOWN, and the number of UPDATEs equals the number of captures. */
  lemma NeverUnknown(tx: nat, captures: seq<Option<nat>>)
    ensures |Posts(RunLog(tx, captures))| == CaptureCount(captures)
    ensures forall e :: e in Posts(RunLog(tx, captures)) ==> e.id == Update
  {
    RunPosts(tx, captures);
    ExpectedPostsShape(captures);
  }

  /**
   * After a run the reading is that of the last capture, or the starting
   * reading when every outcome was a timeout.
   */
  lemma {:induction false} FinalReadingIsLastCapture(before: Reading, captures: seq<Option<nat>>, i: nat)
    requires i < |captures| && captures[i].Some?
    requires forall j :: i < j < |captures| ==> captures[j].None?
    ensures FinalReading(before, captures) == CaptureReading(captures[i].value)
  {
    if i < |captures| - 1 {
      FinalReadingIsLastCapture(before, captures[..|captures| - 1], i);
    }
  }

  /** While every outcome is a timeout, the reading stays and nothing is posted. */
  lemma {:induction false} AllTimeoutsKeepReading(tx: nat, before: Reading, captures: seq<Option<nat>>)
    requires forall j :: 0 <= j < |captures| ==> captures[j].None?
    ensures FinalReading(before, captures) == before
    ensures ExpectedPosts(captures) == [] && Posts(RunLog(tx, captures)) == []
  {
    if captures != [] {
      AllTimeoutsKeepReading(tx, before, captures[..|captures| - 1]);
    }
    RunPosts(tx, captures);
  }

  /**
   * Three timeouts and then an echo of 5000 ticks: the reading becomes the
   * distance for 6250 us and exactly one UPDATE with that reading is posted.
   */
  lemma ThreeTimeoutsThenEcho(tx: nat, before: Reading)
    ensures var cs := [None, None, None, Some(5000)];
      && FinalReading(before, cs) == Reading(Distance(6250))
      && Posts(RunLog(tx, cs)) == [Post(Update, Reading(Distance(6250)))]
  {
    var cs: seq<Option<nat>> := [None, None, None, Some(5000)];
    assert ItemDuration(5000) == 6250;
    AllTimeoutsKeepReading(tx, before, cs[..3]);
    FinalReadingIsLastCapture(before, cs, 3);
    RunPosts(tx, cs);
  }

  /**
   * The handle `esp_ultrasonicsensor_t`: the reading record `parent` and the
   * two RMT channels, plus a ghost log of what its task has done. The event
   * loop and task handles are represented by the held resources of the
   * lifecycle model instead.
   */
  class Sensor {
    var parent: Reading
    var txChannel: nat
    var rxChannel: nat
    ghost var log: seq<LogEntry>

    /** A `calloc`ed handle: every field zero, nothing logged yet. */
    constructor Zeroed()
      ensures parent == ZeroReading && txChannel == 0 && rxChannel == 0 && log == []
    {
      parent := ZeroReading;
      txChannel := 0;
      rxChannel := 0;
      log := [];
    }

    /** One iteration of the task's `while (1)` body. */
    method Cycle(capture: Option<nat>)
      modifies this`parent, this`log
      ensures parent == CycleReading(old(parent), capture)
      ensures log == old(log) + CycleLog(txChannel, capture)
    {
      log := log + [WriteItem(txChannel, TriggerItem()), WaitTxDone(txChannel)];
      log := log + [Receive(ReceiveWaitTicks)];
      match capture {
        case Some(d) =>
          var distance := Distance(ItemDuration(d));
          log := log + [ReturnItem];
          parent := Reading(distance);
          log := log + [Post(Update, parent)];
        case None =>
      }
      log := log + [RunLoop(LoopRunMs)];
      log := log + [Delay(CycleDelayMs)];
    }

    /**
     * The task entry: fetch the ring buffer, start receiving, then loop.
     * The task never reaches its own deletion.
     */
    method TaskEntry(captures: seq<Option<nat>>)
      modifies this`parent, this`log
      ensures parent == FinalReading(old(parent), captures)
      ensures log == old(log) + TaskLog(rxChannel, txChannel, captures)
      ensures DeleteSelf !in log[|old(log)|..]
    {
      ghost var start := log;
      log := log + [GetRingbuf(rxChannel), RxStart(rxChannel)];
      Loop(captures);
      // The loop only ends when its condition fails; then the task deletes itself.
      log := log + if LoopCondition then [] else [DeleteSelf];
      NeverDeletesSelf(rxChannel, txChannel, captures);
      assert log[|start|..] == TaskLog(rxChannel, txChannel, captures);
    }

    /**
     * The task's `while (1)` loop. The source loops forever; `captures` is
     * the outcome of the first `|captures|` receives, and the loop runs
     * exactly that many cycles while its condition holds.
     */
    method Loop(captures: seq<Option<nat>>)
      modifies this`parent, this`log
      ensures parent == FinalReading(old(parent), captures)
      ensures log == old(log) + RunLog(txChannel, captures)
    {
      var i := 0;
      while LoopCondition && i < |captures|
        invariant 0 <= i <= |captures|
        invariant parent == FinalReading(old(parent), captures[..i])
        invariant log == old(log) + RunLog(txChannel, captures[..i])
      {
        RunStep(old(parent), txChannel, captures, i);
        Cycle(captures[i]);
        i := i + 1;
      }
      assert captures[..i] == captures;
    }
  }

  /** Running one more cycle extends the run's log by that cycle's log and moves the reading on by it. */
  lemma RunStep(before: Reading, tx: nat, captures: seq<Option<nat>>, i: nat)
    requires i < |captures|
    ensures RunLog(tx, captures[..i + 1]) == RunLog(tx, captures[..i]) + CycleLog(tx, captures[i])
    ensures FinalReading(before, captures[..i + 1]) == CycleReading(FinalReading(before, captures[..i]), captures[i])
  {
    var next := captures[..i + 1];
    assert next[..i] == captures[..i] && next[i] == captures[i];
  }

  /** `vTaskDelete(NULL)` after the loop is unreachable: no run logs it. */
  lemma {:induction false} NeverDeletesSelf(rx: nat, tx: nat, captures: seq<Option<nat>>)
    ensures DeleteSelf !in TaskLog(rx, tx, captures)
  {
    if captures != [] {
      NeverDeletesSelf(rx, tx, captures[..|captures| - 1]);
    }
  }
}
