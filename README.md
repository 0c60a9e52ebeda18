# Ultrasonic sensor driver (ESP-IDF, RMT peripheral) in Dafny

This project models the core of an ESP-IDF component that drives an HC-SR04-style
ultrasonic range sensor through the RMT peripheral. The trigger channel (TX) sends
a 10 us trigger pulse in a 20 us RMT item. The echo channel (RX) captures the echo as an RMT item. A FreeRTOS
task turns the item's high time into a distance, stores it in the handle's reading
record and posts an UPDATE event to the handle's own event loop.

The files:

- `types.dfy` (`UltrasonicTypes`) holds the public header's data: the reading
  record, the configuration and its default, and the event identifiers.
- `timing.dfy` (`RmtTiming`) holds the tick arithmetic. The RMT counter runs at
  80 MHz / 100, so ten microseconds are eight ticks. It covers `ITEM_DURATION`
  with its 15-bit mask, the RX idle threshold and glitch filter, the trigger item,
  and the two channel configurations that init builds.
- `sampling.dfy` (`SensorTask`) models the task.
  - A `Sensor` class holds the reading and the two channels. Its ghost log records
    the driver calls, the posts, the event-loop runs and the delays.
  - `Sensor.Cycle` is one iteration of the endless loop, run over an injected
    capture outcome. `None` is a receive timeout; `Some(d)` is an item whose
    `duration0` is `d` ticks.
  - `Sensor.Loop` runs one cycle per outcome of a finite sequence, while the
    loop condition of `while (1)` holds. `Sensor.TaskEntry` runs the prologue
    and then the loop.
  - Specification functions describe a run's log and its final reading. Lemmas
    prove what gets posted.
- `lifecycle.dfy` (`SensorLifecycle`) models `ultrasonicsensor_init` and
  `ultrasonicsensor_deinit` as traces of foreign calls.
  - Each acquisition's outcome is injected as "the first step that fails".
  - A held-resource set is computed from each trace.
  - Each acquisition is `Acquire`. The `goto` chain of error labels, which fall
    through into each other, becomes `Rollback`. Lemmas compare it with an exact reverse-order mirror of what was
    acquired.

The field `distance_cm` of the reading record does not hold centimetres. The task
computes the distance in metres, logs that value times 100 as centimetres, and
stores the unscaled metre value in `distance_cm`. The UPDATE payload is a copy of
that record. The model keeps this behaviour (`SensorTask.StoredValueIsUnscaled`).

Facts about the code that the model keeps as written:

- **Rollback order.** The error labels fall through into each other. Rollback
  therefore runs in reverse acquisition order, but it is not an exact reverse of
  what was acquired. Four of the seven failure points first release one thing
  that is not held: `free(NULL)` after a failed `calloc`, or the uninstall of a
  driver whose install failed or never ran. If both channels are the same, the
  same driver is uninstalled twice. Nothing leaks in any case (`NoLeakOnFailure`,
  `UnwindAgainstMirror`).
- **Read interval.** The configuration's read interval is never used. Every cycle
  ends with a 50 ms event-loop run and then a fixed 100 ms delay.
- **UNKNOWN events.** The UNKNOWN event identifier is declared but never posted.
  A timeout is only logged.
- **Configuration.** Init does not validate the configuration.
- **Failure reasons.** Init reports failure only as a null handle, with no
  sub-reason.
- **Distance units.** `distance_cm` receives metres, not centimetres.
- **Glitch filter.** The RX glitch filter threshold is the raw number 100. The
  peripheral counts it on the undivided source clock, so the model keeps it as a
  number and does not convert it to microseconds.

## Model

| member | source | states |
|---|---|---|
| UltrasonicTypes.DefaultConfig | ultrasonic.h:50-59 | the default configuration puts the trigger on RMT channel 1 / GPIO 18 and the echo on RMT channel 0 / GPIO 19, with read interval 100; the two channels and the two pins differ |
| UltrasonicTypes.EventId.Code | ultrasonic.h:61-64 | UPDATE is enumerator 0, UNKNOWN is 1; the value is 0 exactly for UPDATE |
| UltrasonicTypes.CodeInjective | ultrasonic.h:61-64 | two event identifiers have equal enumerator values iff they are the same identifier |
| RmtTiming.Tick10UsIsExact | ultrasonic.c:14-17 | RMT_TICK_10_US evaluates to 8, and 8 ticks at divider 100 of the 80 MHz APB clock are exactly 10 us |
| RmtTiming.ItemDuration | ultrasonic.c:18 | the result is the floor of 10/8 of the low 15 bits of the tick count, at most 40958 us, and 0 when those bits are 0 |
| RmtTiming.ItemDurationZero | ultrasonic.c:18 | a zero tick count converts to 0 us |
| RmtTiming.ItemDurationLow15Bits | ultrasonic.c:18 | adding any multiple of 0x8000 to a tick count does not change its duration; only the masked bits count |
| RmtTiming.ItemDurationMonotone | ultrasonic.c:18 | a larger masked tick count never gives a shorter duration |
| RmtTiming.IdleThresholdTicks | ultrasonic.c:127 | the idle threshold is a multiple of 8 ticks, i.e. the timeout rounded down to a multiple of 10 us |
| RmtTiming.IdleThresholdRoundTrip | ultrasonic.c:127 | for a timeout that is a multiple of 10 us and fits 15 bits, ITEM_DURATION of its idle threshold gives the timeout back; the 9500 us timeout is 7600 ticks |
| RmtTiming.TriggerItem | ultrasonic.c:37-42 | the trigger item is high for 8 ticks (10 us), then low for 8 ticks (10 us) |
| RmtTiming.TxConfigFor | ultrasonic.c:93-105 | the TX configuration uses the configured TX channel and trigger pin, at a divider giving 8 ticks per 10 us |
| RmtTiming.RxConfigFor | ultrasonic.c:119-127 | the RX configuration uses the configured RX channel and echo pin; the glitch filter is on with threshold 100; the idle threshold is 7600 ticks, which ITEM_DURATION converts back to the 9500 us timeout |
| SensorTask.Distance | ultrasonic.c:58-60 | the distance is non-negative and is zero iff the echo lasted 0 us |
| SensorTask.DistanceMonotone | ultrasonic.c:58-60 | a longer echo gives at least as large a distance |
| SensorTask.LoggedCentimetres | ultrasonic.c:61 | the logged centimetre figure is 340.29 * us / 20000: non-negative, and zero iff the echo lasted 0 us |
| SensorTask.CycleReading | ultrasonic.c:56-73 | a timeout keeps the reading; a capture gives a non-negative distance that is zero iff the low 15 bits of its tick count are zero |
| SensorTask.CycleLog | ultrasonic.c:52-78 | a cycle logs 7 entries after a capture and 5 after a timeout; its third entry is the receive with a 1000-tick wait; it returns an item iff there was a capture |
| SensorTask.StoredValueIsUnscaled | ultrasonic.c:59-65 | the stored `distance_cm` is one hundredth of the centimetre figure the task logs, and differs from it for every non-zero echo |
| SensorTask.TimeoutPostsNothing | ultrasonic.c:56-73 | a receive timeout leaves the reading unchanged and posts nothing |
| SensorTask.CapturePostsOneUpdate | ultrasonic.c:56-68 | a capture, a zero-length one included, sets the reading to the distance of its ITEM_DURATION, returns the item, and posts exactly one UPDATE carrying the new reading |
| SensorTask.CycleFrame | ultrasonic.c:52-78 | every cycle starts with the trigger write and the wait for it, and ends with the 50 ms loop run and the fixed 100 ms delay |
| SensorTask.PostsAppend | ultrasonic.c:50-79 | the posts of consecutive stretches of the log are the posts of each, concatenated |
| SensorTask.PostFree | ultrasonic.c:50-79 | a log with no post entries has no posts |
| SensorTask.RunPosts | ultrasonic.c:50-79 | over any run, the posts are exactly one UPDATE per capture, in capture order, each carrying its capture's reading |
| SensorTask.ExpectedPostsShape | ultrasonic.c:57-68 | the reference posts are all UPDATEs, as many as there are captures |
| SensorTask.NeverUnknown | ultrasonic.c:67-68 | no run ever posts UNKNOWN, and the number of posts equals the number of captures |
| SensorTask.FinalReadingIsLastCapture | ultrasonic.c:57-73 | after a run the reading is that of the last capture, whatever timeouts follow it |
| SensorTask.AllTimeoutsKeepReading | ultrasonic.c:70-73 | a run of timeouts only keeps the starting reading and posts nothing |
| SensorTask.ThreeTimeoutsThenEcho | ultrasonic.c:50-79 | three timeouts then a 5000-tick echo leave the distance of 6250 us in the reading and post exactly one UPDATE with it |
| SensorTask.Sensor.Zeroed | ultrasonic.c:86 | a `calloc`ed handle has a zero reading, zero channels and an empty log |
| SensorTask.Sensor.Cycle | ultrasonic.c:50-79 | one cycle sets the reading to CycleReading and appends CycleLog to the log |
| SensorTask.Sensor.Loop | ultrasonic.c:50-79 | the `while (1)` loop, run for the given outcomes, leaves the reading of the last capture (FinalReading) and appends one cycle's log per outcome |
| SensorTask.Sensor.TaskEntry | ultrasonic.c:33-80 | the task fetches the ring buffer and starts RX, then runs one cycle per outcome while the loop condition holds, and deletes itself only if the loop exits; the final reading and the log are those of the specification, and the task never deletes itself |
| SensorTask.NeverDeletesSelf | ultrasonic.c:50-80 | because the loop condition of `while (1)` is constantly true, `vTaskDelete(NULL)` after the loop appears in no run |
| SensorLifecycle.Position | ultrasonic.c:84-164 | each acquisition step has its own place in the order of the seven steps |
| SensorLifecycle.ReleaseOf | ultrasonic.c:169-179 | each resource has a release call that releases it and acquires nothing |
| SensorLifecycle.Mirror | ultrasonic.c:169-179 | the reference rollback releases every given resource once, last acquired first |
| SensorLifecycle.Attempt | ultrasonic.c:86-164 | an acquisition attempt never releases, and acquires only when it succeeds |
| SensorLifecycle.Successes | ultrasonic.c:86-164 | the given steps, each succeeding, in order |
| SensorLifecycle.UnwindChain | ultrasonic.c:169-179 | the four error labels, in fall-through order, release the event loop, the RX driver, the TX driver and the memory: the reverse of a successful init's acquisition order |
| SensorLifecycle.ChainEntry | ultrasonic.c:88-164 | the label each failure jumps to; the chain from there releases as many resources as the earlier steps acquired, or one more |
| SensorLifecycle.Unwind | ultrasonic.c:169-181 | a failure's rollback is the label chain from its entry label; it only releases, and always ends by freeing the handle |
| SensorLifecycle.InitTrace | ultrasonic.c:84-182 | without a failure, init makes the seven succeeding calls; with one, every earlier step's call succeeds and the failing step's call comes next |
| SensorLifecycle.DeinitTrace | ultrasonic.c:187-193 | deinit makes five calls, all releases, deleting the task first and freeing the handle last |
| SensorLifecycle.HeldAppend | ultrasonic.c:84-196 | the held set after two traces is that of the second, started from the first's |
| SensorLifecycle.AcquiredByAppend | ultrasonic.c:84-196 | what two traces acquire is what each acquires, in order |
| SensorLifecycle.AcquiringOnly | ultrasonic.c:86-164 | a trace with no releases adds exactly what it acquires |
| SensorLifecycle.ReleasingOnly | ultrasonic.c:169-193 | a trace with no acquisitions removes exactly what it releases |
| SensorLifecycle.SuccessesArePrefix | ultrasonic.c:86-164 | the first k steps, all succeeding, are the first k calls of a successful init |
| SensorLifecycle.PrefixAcquires | ultrasonic.c:86-164 | the first k calls of a successful init acquire the first AcquiredCount(k) of its resources, in order |
| SensorLifecycle.PrefixFacts | ultrasonic.c:86-164 | before a rollback, the calls have acquired, and hold, the resources of the steps that succeeded |
| SensorLifecycle.ChainReleases | ultrasonic.c:169-179 | entering the chain of error labels at any label releases the matching first resources of a successful init |
| SensorLifecycle.MirrorIsChainTail | ultrasonic.c:169-179 | the exact mirror of the first n resources (n up to 4) is the tail of the label chain |
| SensorLifecycle.InitSuccess | ultrasonic.c:84-167 | a successful init makes its seven calls in source order and ends holding the memory, both drivers, the loop and the task |
| SensorLifecycle.NoLeakOnFailure | ultrasonic.c:84-182 | whichever step fails first, and even if both channels are the same, init ends holding nothing |
| SensorLifecycle.UnwindAgainstMirror | ultrasonic.c:88-181 | with distinct channels, a failure at TX config, loop creation or task creation is unwound by exactly the mirror; a failure at calloc, TX install, RX config or RX install gets one extra first release of something not held, then exactly the mirror |
| SensorLifecycle.OneExtraRelease | ultrasonic.c:169-181 | when the entry label releases one resource more than the earlier steps acquired, the rollback is that extra release of something not held, then exactly the mirror |
| SensorLifecycle.ExactRelease | ultrasonic.c:169-181 | when the entry label releases as many resources as the earlier steps acquired, the rollback is exactly the mirror |
| SensorLifecycle.ChainHeadNotHeld | ultrasonic.c:169-179 | with distinct channels, the release at the label where the chain is entered is of a resource the earlier steps did not acquire |
| SensorLifecycle.UnwindFallsThrough | ultrasonic.c:169-179 | a later failure's rollback ends with the whole rollback of an earlier failure |
| SensorLifecycle.DeinitMirrorsInit | ultrasonic.c:184-196 | deinit releases exactly the mirror of a successful init's acquisitions, so that init followed by deinit holds nothing |
| SensorLifecycle.Rollback | ultrasonic.c:169-181 | after a failed step, running the label chain from that step's label completes exactly the calls of an init that fails there |
| SensorLifecycle.Acquire | ultrasonic.c:86-164 | one acquisition fails exactly when it is the injected failure; then init's calls are complete, otherwise the calls so far are those of a successful init up to this step |
| SensorLifecycle.SetUpChannels | ultrasonic.c:93-138 | configuring and installing both RMT channels fails exactly when the injected failure is one of those four steps; then init's calls are complete, otherwise they are a successful init's first five |
| SensorLifecycle.Init | ultrasonic.c:84-182 | init makes the calls of InitTrace for the injected first failure (so it ends holding `Held(InitTrace(...))`, about which the lemmas above speak); it returns a fresh handle, with its reading zeroed and both channels from the configuration, iff no step fails, and null otherwise |
| SensorLifecycle.Deinit | ultrasonic.c:184-196 | deinit deletes the task, then the loop, uninstalls RX and then TX on the handle's channels, and frees the handle; it returns the TX uninstall status, and the RX status is lost |

## Left out

- The RMT driver, the ring buffer and the GPIO matrix are not modelled. Their calls are trace or log entries, and their outcomes are injected: capture outcomes for the task, the first failing step for init, release statuses for deinit.
- The TX carrier, memory-block, loop and idle-output settings (ultrasonic.c:96-105) and the RX memory-block and mode settings (ultrasonic.c:123-124) are fixed constants, so they are not part of `ChannelConfig`.
- SensorTask.Distance: the double-precision arithmetic of ultrasonic.c:60 is idealised over the reals, so rounding is not modelled.
- `rmt_wait_tx_done`'s statuses, and the statuses of `rmt_write_items` and of the event post, are ignored by the source. The model does not represent them. In particular, a post that fails because the queue is full is still logged as a post.
- FreeRTOS scheduling, concurrency between the task and the event loop, and the conversion of the delays to ticks are not modelled. The delays are recorded in milliseconds.
- SensorTask.Sensor.TaskEntry runs a finite prefix of the endless loop, one cycle per given outcome. Non-termination itself is not modelled. The loop's condition is the constant `LoopCondition`, and the delete after the loop is logged only if that condition is false, which it never is.
- ESP-IDF logging (`ESP_LOGI`/`ESP_LOGE`) is not modelled, except that the logged centimetre value appears as `LoggedCentimetres`.
- `ultrasonicsensor_add_handler` and `ultrasonicsensor_remove_handler` (ultrasonic.c:199-210) are left out. They only forward to esp_event registration on the handle's loop, and the event dispatch is not part of this model.
- `ultrasonic_getdistance` (ultrasonic.h:73) is declared but not defined in the source, so there is nothing to model.
- The event loop's queue size (16), the task's stack size and its priority are constants passed to foreign calls. They are not modelled.
- SensorLifecycle.Deinit: freeing the handle does not invalidate the Dafny object, so using a handle after deinit is not ruled out by the model.
- SensorLifecycle.Init: the handle is a Dafny object allocated when `calloc` succeeds. Its event-loop and task handles are the `EventLoop` and `Task` entries of the held set, not fields of the object.
