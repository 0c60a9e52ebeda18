/**
 * RMT tick arithmetic: the peripheral counts at the 80 MHz APB clock divided
 * by 100, so one tick lasts 1.25 us and ten microseconds are eight ticks.
 * Also the trigger item the task transmits and the two channel
 * configurations init hands to the RMT driver.
 */
module RmtTiming {
  import opened UltrasonicTypes

  /** The APB clock that feeds the RMT counter, in Hz. */
  const ApbClockHz: nat := 80_000_000

  /** `RMT_CLK_DIV`: the RMT counter clock divider. */
  const RmtClkDiv: nat := 100

  /** `RMT_TICK_10_US`: RMT ticks in 10 us, with C's left-to-right integer division. */
  const RmtTick10Us: nat := ApbClockHz / RmtClkDiv / 100_000

  /** `rmt_item32_tIMEOUT_US`: the receiver timeout, in microseconds. */
  const RxTimeoutUs: nat := 9500

  /**
   * The RX glitch filter threshold. The RMT peripheral counts it on the
   * undivided source clock, not in the divided ticks that durations and the
   * idle threshold use, so it is kept as the raw number init configures.
   */
  const FilterTicksThresh: nat := 100

  /** An RMT item's duration fields are 15 bits wide; `& 0x7fff` keeps them. */
  const DurationModulus: nat := 0x8000

  /** Ten microseconds are exactly eight ticks: no precision is lost by the two divisions. */
  lemma Tick10UsIsExact()
    ensures RmtTick10Us == 8
    ensures RmtTick10Us * RmtClkDiv * 100_000 == ApbClockHz
  {
  }

  /**
   * `ITEM_DURATION(d)`: the number of whole microseconds in the low 15 bits
   * of a tick count `d` (`d & 0x7fff`, which for a non-negative `d` is
   * `d % 0x8000`). The result is the floor of 1.25 times the masked count.
   */
  function ItemDuration(d: nat): (us: nat)
    ensures us * 8 <= (d % DurationModulus) * 10 < (us + 1) * 8
    ensures us <= 40958
    ensures d % DurationModulus == 0 ==> us == 0
  {
    (d % DurationModulus) * 10 / RmtTick10Us
  }

  /** A zero tick count is zero microseconds. */
  lemma ItemDurationZero()
    ensures ItemDuration(0) == 0
  {
  }

  /** Only the low 15 bits of the tick count matter. */
  lemma ItemDurationLow15Bits(d: nat, k: nat)
    ensures ItemDuration(d + k * DurationModulus) == ItemDuration(d)
    ensures ItemDuration(d) == ItemDuration(d % DurationModulus)
  {
    assert (d + k * DurationModulus) % DurationModulus == d % DurationModulus by {
      ModAddMultiple(d, k);
    }
  }

  lemma ModAddMultiple(d: nat, k: nat)
    ensures (d + k * DurationModulus) % DurationModulus == d % DurationModulus
  {
    var q := d / DurationModulus;
    var r := d % DurationModulus;
    assert d + k * DurationModulus == (q + k) * DurationModulus + r;
  }

  /** The conversion never decreases when the masked tick count grows. */
  lemma ItemDurationMonotone(a: nat, b: nat)
    requires a % DurationModulus <= b % DurationModulus
    ensures ItemDuration(a) <= ItemDuration(b)
  {
  }

  /**
   * The RX idle threshold for a receiver timeout given in microseconds:
   * `timeoutUs / 10 * RMT_TICK_10_US`. It is a whole number of 10 us units,
   * namely the timeout rounded down to a multiple of 10 us.
   */
  function IdleThresholdTicks(timeoutUs: nat): (ticks: nat)
    ensures ticks % 8 == 0
    ensures (ticks / 8) * 10 <= timeoutUs < (ticks / 8) * 10 + 10
  {
    timeoutUs / 10 * RmtTick10Us
  }

  /**
   * For a timeout that is a whole number of 10 us units and short enough to
   * fit a 15-bit duration, converting the threshold back with ITEM_DURATION
   * gives the timeout again; the configured 9500 us timeout is 7600 ticks.
   */
  lemma IdleThresholdRoundTrip(timeoutUs: nat)
    requires timeoutUs % 10 == 0 && timeoutUs / 10 * 8 < DurationModulus
    ensures ItemDuration(IdleThresholdTicks(timeoutUs)) == timeoutUs
    ensures IdleThresholdTicks(RxTimeoutUs) == 7600 && ItemDuration(7600) == RxTimeoutUs
  {
    var q := timeoutUs / 10;
    assert IdleThresholdTicks(timeoutUs) == q * 8;
    assert (q * 8) % DurationModulus == q * 8;
    assert q * 8 * 10 / 8 == q * 10;
  }

  /** `rmt_item32_t`: two (level, duration) phases, each duration a tick count. */
  datatype RmtItem = RmtItem(level0: nat, duration0: nat, level1: nat, duration1: nat)

  /**
   * The trigger item the sampling task transmits: a 10 us high pulse
   * (RMT_TICK_10_US ticks), then low for as long, so the whole item lasts
   * 20 us.
   */
  function TriggerItem(): (item: RmtItem)
    ensures item.level0 == 1 && item.level1 == 0
    ensures item.duration0 == 8 && item.duration1 == 8
    ensures ItemDuration(item.duration0) == 10 && ItemDuration(item.duration1) == 10
  {
    RmtItem(1, RmtTick10Us, 0, RmtTick10Us)
  }

  /**
   * The settings init passes to `rmt_config`, reduced to what this model
   * keeps: carrier and memory-block settings are not modelled. `clkDiv` is
   * shared; the glitch filter and the idle threshold belong to the receiver.
   */
  datatype ChannelConfig =
    | TxChannelConfig(channel: nat, gpio: nat, clkDiv: nat)
    | RxChannelConfig(channel: nat, gpio: nat, clkDiv: nat, filterEnabled: bool, filterTicks: nat, idleThreshold: nat)

  /** The trigger channel's configuration: the configured TX channel and trigger pin, counted at the RMT divider. */
  function TxConfigFor(cfg: Config): (c: ChannelConfig)
    ensures c.TxChannelConfig? && c.channel == cfg.rmt.txChannel && c.gpio == cfg.rmt.triggerPin
    ensures c.clkDiv * RmtTick10Us * 100_000 == ApbClockHz
  {
    TxChannelConfig(cfg.rmt.txChannel, cfg.rmt.triggerPin, RmtClkDiv)
  }

  /**
   * The echo channel's configuration: the configured RX channel and echo pin,
   * the glitch filter enabled at a threshold of 100, and an idle threshold of
   * 7600 ticks, which is the 9500 us receiver timeout.
   */
  function RxConfigFor(cfg: Config): (c: ChannelConfig)
    ensures c.RxChannelConfig? && c.channel == cfg.rmt.rxChannel && c.gpio == cfg.rmt.echoPin
    ensures c.clkDiv * RmtTick10Us * 100_000 == ApbClockHz
    ensures c.filterEnabled && c.filterTicks == FilterTicksThresh
    ensures c.idleThreshold == 7600 && ItemDuration(c.idleThreshold) == RxTimeoutUs
  {
    IdleThresholdRoundTrip(RxTimeoutUs);
    RxChannelConfig(cfg.rmt.rxChannel, cfg.rmt.echoPin, RmtClkDiv, true, FilterTicksThresh,
                    IdleThresholdTicks(RxTimeoutUs))
  }
}
