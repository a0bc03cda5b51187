/**
 * An abstract stand-in for the transport library's per-connection `Session`
 * and its cloneable `Handle`: every write is logged as a (channel, bytes) pair,
 * channel-success replies and closes are logged too. An operation on a channel
 * the transport does not have open fails and leaves the log as it was; this is
 * the error that the handlers propagate with `?`.
 */
module Transport {
  import opened Common

  type ChannelId = nat

  /** The error a handler returns when a transport operation fails. */
  datatype SshError = ChannelUnavailable(channel: ChannelId)

  class Session {
    /** The channels the transport has open for this connection. */
    const open: set<ChannelId>
    /** Every byte string sent, in order, with the channel it went to. */
    var writes: seq<(ChannelId, seq<byte>)>
    /** Channels that received a channel-success reply, in order. */
    var successes: seq<ChannelId>
    /** Channels the server asked to close. */
    var closed: set<ChannelId>

    constructor (open: set<ChannelId>)
      ensures this.open == open && writes == [] && successes == [] && closed == {}
    {
      this.open := open;
      writes, successes, closed := [], [], {};
    }

    /** `session.data(channel, bytes)` and `handle.data(channel, bytes)`. */
    method Data(channel: ChannelId, bytes: seq<byte>) returns (ok: bool)
      modifies this
      ensures ok == (channel in open)
      ensures writes == if ok then old(writes) + [(channel, bytes)] else old(writes)
      ensures successes == old(successes) && closed == old(closed)
    {
      ok := channel in open;
      if ok {
        writes := writes + [(channel, bytes)];
      }
    }

    /** `session.channel_success(channel)`. */
    method ChannelSuccess(channel: ChannelId) returns (ok: bool)
      modifies this
      ensures ok == (channel in open)
      ensures successes == if ok then old(successes) + [channel] else old(successes)
      ensures writes == old(writes) && closed == old(closed)
    {
      ok := channel in open;
      if ok {
        successes := successes + [channel];
      }
    }

    /** `session.close(channel)`. */
    method Close(channel: ChannelId) returns (ok: bool)
      modifies this
      ensures ok == (channel in open)
      ensures closed == if ok then old(closed) + {channel} else old(closed)
      ensures writes == old(writes) && successes == old(successes)
    {
      ok := channel in open;
      if ok {
        closed := closed + {channel};
      }
    }
  }
}
