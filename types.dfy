/**
 * The data shapes of the driver's public header: the reading record that is
 * also the UPDATE payload, the configuration with its default, and the two
 * event identifiers.
 */
module UltrasonicTypes {

  /** The configuration's `read_interval` is a 32-bit unsigned field. */
  newtype uint32 = x: int | 0 <= x < 0x1_0000_0000

  /**
   * The reading record (`ultrasonicsensor_t`). It has exactly one field,
   * `distance_cm`; the sampling task overwrites it once per captured echo and
   * posts a copy of the whole record as the UPDATE payload. Double-precision
   * arithmetic is idealised as `real`.
   */
  datatype Reading = Reading(distanceCm: real)

  /** The reading a freshly `calloc`ed handle starts with: all bits zero. */
  const ZeroReading := Reading(0.0)

  /** The RMT part of the configuration: trigger (TX) and echo (RX) channels and their GPIO pins. */
  datatype RmtPins = RmtPins(txChannel: nat, triggerPin: nat, rxChannel: nat, echoPin: nat)

  /** `ultrasonicsensor_config_t`. */
  datatype Config = Config(rmt: RmtPins, readInterval: uint32)

  /**
   * `ULTRASONICSENSOR_CONFIG_DEFAULT()`: trigger on RMT channel 1 at GPIO 18,
   * echo on RMT channel 0 at GPIO 19, read interval 100. The two channels and
   * the two pins of the default differ from each other.
   */
  function DefaultConfig(): (c: Config)
    ensures c.rmt.txChannel == 1 && c.rmt.triggerPin == 18
    ensures c.rmt.rxChannel == 0 && c.rmt.echoPin == 19
    ensures c.readInterval == 100
    ensures c.rmt.txChannel != c.rmt.rxChannel && c.rmt.triggerPin != c.rmt.echoPin
  {
    Config(RmtPins(1, 18, 0, 19), 100)
  }

  /** `ultrasonicsensor_event_id_t`: exactly two identifiers. */
  datatype EventId = Update | Unknown {

    /** The C enumerator value: UPDATE is 0, UNKNOWN is 1, and different identifiers have different values. */
    function Code(): (n: int)
      ensures 0 <= n < 2
      ensures n == 0 <==> this == Update
    {
      match this
      case Update => 0
      case Unknown => 1
    }
  }

  /** The enumerator values tell the two event identifiers apart. */
  lemma CodeInjective(a: EventId, b: EventId)
    ensures a.Code() == b.Code() <==> a == b
  {
  }
}
