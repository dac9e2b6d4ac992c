/** Values shared by the radio modules. */
module RadioTypes {
  datatype Option<+T> = None | Some(value: T)

  datatype RadioState = Idle | Rx | Tx | Preamble | Payload | Locked | Error

  /** The part of `iohcPacket` the transmit engine reads: `frame` is `payload.buffer` cut at
      `buffer_length`, `id` names the heap object, `repeats` is the mutable `repeat` byte. */
  datatype Packet = Packet(id: nat, frame: seq<bv8>, repeats: nat, repeatTimeMs: nat, frequency: nat)

  type Batch = seq<Packet>

  /** One frame handed to the transmitter. */
  datatype AirFrame = AirFrame(payload: seq<bv8>, longPreamble: bool)

  /** `txCounter` is a `uint8_t`. */
  const MAX_BATCH: nat := 255
  const TXDONE_TIMEOUT_US: nat := 2_000_000
  /** How long a full callback queue holds up the ticker. */
  const QUEUE_WAIT_US: nat := 25_000

  /** shouldStartTwoWListenAfterTx: a 2W frame (Protocol bit clear) whose command is 0x32. */
  predicate IsKeyTransfer(p: Packet) {
    |p.frame| >= 9 && p.frame[0] & 0x20 == 0 && p.frame[8] == 0x32
  }

  predicate HasKeyTransfer(batch: Batch) {
    exists i :: 0 <= i < |batch| && IsKeyTransfer(batch[i])
  }
}
