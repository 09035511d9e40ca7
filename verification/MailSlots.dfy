/**
  A mailbox down to its bytes: messages laid out in the slots of a ring buffer come out in
  the order they went in, each with the bytes that were sent.
*/
module MailSlots {
  import opened Common
  import opened Sched
  import opened Messages
  import opened RingBuffers

  /** The bytes of `slot` are those of message `m`. */
  ghost predicate Carries(slot: seq<byte>, m: Message) {
    exists stack: seq<byte> :: Sendable(m) && |stack| == MESSAGE_MAX && slot == Encode(m, stack)
  }

  /** Slot by slot, the bytes are those of the messages. */
  ghost predicate AllCarry(slots: seq<seq<byte>>, messages: seq<Message>) {
    |slots| == |messages| && forall i :: 0 <= i < |messages| ==> Carries(slots[i], messages[i])
  }

  class MailSlots {
    const ring: RingBuffer
    /** The messages in the buffer, oldest first, and all there ever were. */
    ghost var pending: seq<Message>
    ghost var accepted: seq<Message>
    ghost var delivered: seq<Message>

    ghost predicate Valid()
      reads this, ring, ring.buf
    {
      && ring.Valid() && ring.elemSize == MESSAGE_BYTES
      && AllCarry(ring.Contents(), pending)
      && accepted == delivered + pending
    }

    /** ring_buffer_init on the mailbox of a new process; the idle process has one without slots. */
    constructor (slots: nat)
      ensures Valid() && pending == accepted == delivered == [] && fresh(ring) && fresh(ring.buf)
      ensures ring.capacity == slots
    {
      ring := new RingBuffer(MESSAGE_BYTES, slots);
      pending, accepted, delivered := [], [], [];
    }

    /** ring_buffer_empty */
    predicate Empty()
      requires Valid()
      reads this, ring, ring.buf
      ensures Empty() <==> pending == []
    {
      ring.Empty()
    }

    /** The middle of ipc_send: the message is built on the stack, over whatever was there, and pushed. */
    method Deposit(m: Message, stack: seq<byte>) returns (refused: bool)
      requires Valid() && Sendable(m) && |stack| == MESSAGE_MAX
      modifies this, ring, ring.buf
      ensures Valid() && delivered == old(delivered)
      ensures refused <==> old(|pending|) == ring.capacity
      ensures |pending| <= ring.capacity
      ensures pending == if refused then old(pending) else old(pending) + [m]
      ensures accepted == if refused then old(accepted) else old(accepted) + [m]
    {
      hide Encode, Carries;
      ghost var slots := ring.Contents();
      refused := ring.Push(Encode(m, stack));
      if !refused {
        CarryOneMore(slots, pending, Encode(m, stack), m, stack);
        pending := pending + [m];
        accepted := accepted + [m];
      }
    }

    /** The end of ipc_receive: the oldest message is popped and as much of it copied out as the
        receiver has room for. */
    method Withdraw(size: nat) returns (refused: bool, sender: Pid, data: seq<byte>)
      requires Valid() && 0 < size <= MESSAGE_MAX
      modifies this, ring
      ensures Valid() && accepted == old(accepted)
      ensures refused <==> old(pending) == []
      ensures refused ==> pending == old(pending) && delivered == old(delivered)
      ensures !refused ==> old(pending) == [old(pending)[0]] + pending
      ensures !refused ==> delivered == old(delivered) + [old(pending)[0]]
      ensures !refused ==> sender == old(pending)[0].sender
      ensures !refused ==> data == old(pending)[0].data[..Min(size, |old(pending)[0].data|)]
    {
      hide Encode, SenderOf, Payload;
      ghost var slots := ring.Contents();
      var slot;
      refused, slot := ring.Pop();
      if refused {
        return true, 0, [];
      }
      ghost var m := pending[0];
      CarriedOut(slots, pending, slot, size);
      sender := SenderOf(slot);
      data := Payload(slot, size);
      pending := pending[1..];
      delivered := delivered + [m];
    }
  }

  lemma CarryOneMore(slots: seq<seq<byte>>, messages: seq<Message>, slot: seq<byte>, m: Message, stack: seq<byte>)
    requires AllCarry(slots, messages) && Sendable(m) && |stack| == MESSAGE_MAX && slot == Encode(m, stack)
    ensures AllCarry(slots + [slot], messages + [m])
  {
    assert Carries(slot, m);
  }

  /** What comes out of the oldest slot. */
  lemma CarriedOut(slots: seq<seq<byte>>, messages: seq<Message>, slot: seq<byte>, size: nat)
    requires AllCarry(slots, messages) && slots != [] && slot == slots[0] && size <= MESSAGE_MAX
    ensures messages != [] && AllCarry(slots[1..], messages[1..]) && |slot| == MESSAGE_BYTES
    ensures SenderOf(slot) == messages[0].sender
    ensures Payload(slot, size) == messages[0].data[..Min(size, |messages[0].data|)]
  {
    assert Carries(slots[0], messages[0]);
    var stack: seq<byte> :| |stack| == MESSAGE_MAX && slot == Encode(messages[0], stack);
    DeliversWhatWasSent(messages[0], stack, size);
    forall i | 0 <= i < |messages[1..]| ensures Carries(slots[1..][i], messages[1..][i]) {
      assert Carries(slots[i + 1], messages[i + 1]);
    }
  }
}
