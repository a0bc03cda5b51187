/**
 * The output bridge: a synchronous `Write` sink whose `flush` hands the
 * buffered bytes, as one batch, to a forwarding task over an unbounded
 * channel; the task passes each batch to the transport handle in order.
 */
module Terminal {
  import opened Common
  import opened Transport

  datatype IoErrorKind = BrokenPipe

  /**
   * The sender's side of the bridge: the bytes buffered since the last flush,
   * the batches sent but not yet received by the forwarding task (oldest
   * first), and whether that task's receiver still exists.
   */
  datatype Bridge = Bridge(sink: seq<byte>, queue: seq<seq<byte>>, receiverAlive: bool)

  /** `write(buf)`: extend the sink, report the whole buffer as written. */
  function WriteStep(b: Bridge, buf: seq<byte>): (Bridge, Result<nat, IoErrorKind>)
  {
    (b.(sink := b.sink + buf), Ok(|buf|))
  }

  /** `flush()`: send a copy of the sink and clear it, or fail without clearing. */
  function FlushStep(b: Bridge): (Bridge, Result<(), IoErrorKind>)
  {
    if b.receiverAlive then (b.(sink := [], queue := b.queue + [b.sink]), Ok(()))
    else (b, Err(BrokenPipe))
  }

  /** The bridge after the writes `ws`, in order. */
  function WriteAll(b: Bridge, ws: seq<seq<byte>>): Bridge
  {
    if ws == [] then b else WriteStep(WriteAll(b, ws[..|ws| - 1]), ws[|ws| - 1]).0
  }

  /** `ws[0] + ws[1] + ... + ws[|ws| - 1]`. */
  function Concat(ws: seq<seq<byte>>): seq<byte>
  {
    if ws == [] then [] else Concat(ws[..|ws| - 1]) + ws[|ws| - 1]
  }

  /** The batches `bs` as writes to one channel. */
  function Tagged(channel: ChannelId, bs: seq<seq<byte>>): (ts: seq<(ChannelId, seq<byte>)>)
    ensures |ts| == |bs|
    ensures forall i :: 0 <= i < |bs| ==> ts[i] == (channel, bs[i])
  {
    if bs == [] then [] else Tagged(channel, bs[..|bs| - 1]) + [(channel, bs[|bs| - 1])]
  }

  /** A write always succeeds with the buffer's length and sends nothing. */
  lemma WriteNeverSends(b: Bridge, buf: seq<byte>)
    ensures WriteStep(b, buf).1 == Ok(|buf|)
    ensures WriteStep(b, buf).0.queue == b.queue
    ensures WriteStep(b, buf).0.sink == b.sink + buf
  {
  }

  /** Writes only ever extend the sink, by their concatenation, and send nothing. */
  lemma {:induction false} WritesAccumulate(b: Bridge, ws: seq<seq<byte>>)
    ensures WriteAll(b, ws) == b.(sink := b.sink + Concat(ws))
  {
    if ws != [] {
      WritesAccumulate(b, ws[..|ws| - 1]);
    }
  }

  /**
   * Writes `w1..wn` followed by one successful flush enqueue exactly one batch,
   * the bytes of the writes in order, and leave the sink empty.
   */
  lemma WritesThenFlush(b: Bridge, ws: seq<seq<byte>>)
    requires b.receiverAlive
    ensures FlushStep(WriteAll(b, ws)) == (Bridge([], b.queue + [b.sink + Concat(ws)], true), Ok(()))
  {
    WritesAccumulate(b, ws);
  }

  /** A flush with the receiver alive queues the sink as it is, even an empty one. */
  lemma FlushQueuesSink(b: Bridge)
    requires b.receiverAlive
    ensures FlushStep(b).1 == Ok(())
    ensures FlushStep(b).0 == Bridge([], b.queue + [b.sink], true)
    ensures b.sink == [] ==> FlushStep(b).0.queue == b.queue + [[]]
  {
  }

  /** A flush with the receiver gone reports a broken pipe and keeps the sink. */
  lemma FlushBrokenPipe(b: Bridge)
    requires !b.receiverAlive
    ensures FlushStep(b) == (b, Err(BrokenPipe))
  {
  }

  class TerminalHandle {
    /** The transport handle and channel the forwarding task writes to. */
    const handle: Session
    const channel: ChannelId
    var sink: seq<byte>
    /** The unbounded channel's contents, oldest batch first. */
    var queue: seq<seq<byte>>
    var receiverAlive: bool

    function State(): Bridge
      reads this
    {
      Bridge(sink, queue, receiverAlive)
    }

    /** Batches are queued only while the forwarding task can still receive them. */
    ghost predicate Valid()
      reads this
    {
      !receiverAlive ==> queue == []
    }

    /** `TerminalHandle::start`: an empty sink and an idle forwarding task. */
    constructor Start(handle: Session, channel: ChannelId)
      ensures Valid()
      ensures State() == Bridge([], [], true)
      ensures this.handle == handle && this.channel == channel
    {
      this.handle := handle;
      this.channel := channel;
      sink, queue, receiverAlive := [], [], true;
    }

    method Write(buf: seq<byte>) returns (r: Result<nat, IoErrorKind>)
      requires Valid()
      modifies this
      ensures Valid()
      ensures (State(), r) == WriteStep(old(State()), buf)
    {
      sink := sink + buf;
      r := Ok(|buf|);
    }

    method Flush() returns (r: Result<(), IoErrorKind>)
      requires Valid()
      modifies this
      ensures Valid()
      ensures (State(), r) == FlushStep(old(State()))
    {
      if !receiverAlive {
        return Err(BrokenPipe);
      }
      queue := queue + [sink];
      sink := [];
      r := Ok(());
    }

    /** The forwarding task has ended: its receiver and any queued batches are gone. */
    method ReceiverDropped()
      modifies this
      ensures Valid()
      ensures State() == Bridge(old(sink), [], false)
    {
      receiverAlive := false;
      queue := [];
    }

    /**
     * The forwarding task's receive loop, run until the channel is empty: every
     * queued batch goes to the handle, in the order it was flushed. The result
     * of each transport write is ignored, as in the source.
     */
    method Forward()
      requires Valid()
      modifies this, handle
      ensures Valid()
      ensures State() == old(State()).(queue := [])
      ensures handle.writes ==
        old(handle.writes) + (if channel in handle.open then Tagged(channel, old(queue)) else [])
      ensures handle.successes == old(handle.successes) && handle.closed == old(handle.closed)
    {
      ghost var pending := queue;
      ghost var k := 0;
      while queue != []
        invariant 0 <= k <= |pending| && queue == pending[k..]
        invariant sink == old(sink) && receiverAlive == old(receiverAlive)
        invariant handle.writes ==
          old(handle.writes) + (if channel in handle.open then Tagged(channel, pending[..k]) else [])
        invariant handle.successes == old(handle.successes) && handle.closed == old(handle.closed)
        decreases |queue|
      {
        var data := queue[0];
        queue := queue[1..];
        var _ := handle.Data(channel, data);
        assert pending[..k + 1][..k] == pending[..k];
        k := k + 1;
      }
      assert pending[..k] == pending;
    }
  }
}
