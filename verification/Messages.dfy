/** The layout of a message in a mailbox slot: sender, type and size words, then 64 data bytes
    of which only the first `size` were sent. */
module Messages {
  import opened Common
  import opened Bytes
  import opened Sched

  const MESSAGE_BYTES: nat := 12 + MESSAGE_MAX

  /** A message that a send may build: its sender is a 32-bit pid and its payload fits. */
  predicate Sendable(m: Message) {
    m.sender < WORD && 0 < |m.data| <= MESSAGE_MAX
  }

  /** The slot a send fills; `stack` is what the local buffer held before the payload was copied. */
  function Encode(m: Message, stack: seq<byte>): (slot: seq<byte>)
    requires Sendable(m) && |stack| == MESSAGE_MAX
    ensures |slot| == MESSAGE_BYTES
  {
    Le32(m.sender) + Le32(m.kind) + Le32(|m.data|) + m.data + stack[|m.data|..]
  }

  function SenderOf(slot: seq<byte>): (w: u32)
    requires |slot| == MESSAGE_BYTES
  {
    FromLe32(slot[..4])
  }

  function SizeOf(slot: seq<byte>): (w: u32)
    requires |slot| == MESSAGE_BYTES
  {
    FromLe32(slot[8..12])
  }

  /** What a receiver with room for `size` bytes copies out: the smaller of the two sizes. */
  function Payload(slot: seq<byte>, size: nat): (bytes: seq<byte>)
    requires |slot| == MESSAGE_BYTES && size <= MESSAGE_MAX
  {
    slot[12..12 + if size < SizeOf(slot) then size else if SizeOf(slot) <= MESSAGE_MAX then SizeOf(slot) else 0]
  }

  /** Whatever the stack held, the receiver gets the sender's pid and the first
      min(size, sent size) bytes that were sent. */
  lemma DeliversWhatWasSent(m: Message, stack: seq<byte>, size: nat)
    requires Sendable(m) && |stack| == MESSAGE_MAX && size <= MESSAGE_MAX
    ensures SenderOf(Encode(m, stack)) == m.sender
    ensures Payload(Encode(m, stack), size) == m.data[..if size < |m.data| then size else |m.data|]
  {
    var slot := Encode(m, stack);
    Le32RoundTrip(m.sender);
    Le32RoundTrip(|m.data|);
    assert slot[..4] == Le32(m.sender);
    assert slot[8..12] == Le32(|m.data|);
    assert slot[12..12 + |m.data|] == m.data;
  }
}
