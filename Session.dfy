/**
 * The serial link and the readiness handshake that opens every exchange with
 * the control unit (`Connection.__enter__` / `__exit__`).
 *
 * The link is a stand-in for the serial port: it holds the replies the device
 * will give, in order, and records everything written to it. A read takes the
 * next reply whole; a read with no reply left times out and returns nothing.
 */
module Session {
  import Codes

  const MaxRetries: nat := Codes.MaxRetries

  /** `CHECK_READY.bytes` and `kREADY.bytes`: the one-byte poll and the one-byte ready reply. */
  const CheckReadyBytes: string := [Codes.CheckReady as char]
  const ReadyBytes: string := [Codes.kReady as char]

  /** What the next read returns: the next reply, or nothing once the device has stopped answering. */
  function Next(inbox: seq<string>): string
  {
    if inbox == [] then [] else inbox[0]
  }

  /** The replies left after one read. */
  function Rest(inbox: seq<string>): seq<string>
  {
    if inbox == [] then [] else inbox[1..]
  }

  /** The reply the `k`-th read from now returns. */
  function Reply(inbox: seq<string>, k: nat): string
  {
    if k < |inbox| then inbox[k] else []
  }

  /** The replies left after `k` reads. */
  function Drop(inbox: seq<string>, k: nat): seq<string>
  {
    if k <= |inbox| then inbox[k..] else []
  }

  function Repeat(s: string, n: nat): (r: seq<string>)
    ensures |r| == n && forall k :: 0 <= k < n ==> r[k] == s
  {
    if n == 0 then [] else Repeat(s, n - 1) + [s]
  }

  lemma DropNext(inbox: seq<string>, k: nat)
    ensures Next(Drop(inbox, k)) == Reply(inbox, k)
    ensures Rest(Drop(inbox, k)) == Drop(inbox, k + 1)
  {
  }

  /** The serial port. */
  class Serial {
    var inbox: seq<string>
    var sent: seq<string>

    constructor (replies: seq<string>)
      ensures inbox == replies && sent == []
    {
      inbox := replies;
      sent := [];
    }

    method Write(data: string)
      modifies this
      ensures sent == old(sent) + [data] && inbox == old(inbox)
    {
      sent := sent + [data];
    }

    /** Reads one reply; the byte count the client asks for is not modelled. */
    method Read() returns (data: string)
      modifies this
      ensures data == Next(old(inbox)) && inbox == Rest(old(inbox)) && sent == old(sent)
    {
      data := Next(inbox);
      inbox := Rest(inbox);
    }
  }

  /**
   * The outcome of one `__enter__`: whether a ready reply arrived, how many
   * polls were written, and the value of the failure counter afterwards.
   */
  datatype Handshake = Handshake(ready: bool, polls: nat, failures: nat)

  /**
   * The polling loop of `__enter__`, from a counter value and the replies to come:
   * one poll per iteration while the counter is below `MaxRetries`, stopping at the
   * first ready reply and counting every other reply as a failure.
   */
  function Poll(failures: nat, inbox: seq<string>): (h: Handshake)
    decreases MaxRetries - failures
    ensures failures >= MaxRetries ==> h == Handshake(false, 0, failures)
    ensures failures < MaxRetries ==> 1 <= h.polls <= MaxRetries - failures
    ensures h.ready ==> Reply(inbox, h.polls - 1) == ReadyBytes && h.failures == failures + h.polls - 1 < MaxRetries
    ensures !h.ready && failures < MaxRetries ==> h.polls == MaxRetries - failures && h.failures == MaxRetries
    ensures forall k :: 0 <= k < h.polls && (k < h.polls - 1 || !h.ready) ==> Reply(inbox, k) != ReadyBytes
  {
    if failures >= MaxRetries then Handshake(false, 0, failures)
    else if Next(inbox) == ReadyBytes then Handshake(true, 1, failures)
    else
      var h := Poll(failures + 1, Rest(inbox));
      assert forall k: nat :: k < h.polls ==> Reply(Rest(inbox), k) == Reply(inbox, k + 1);
      h.(polls := h.polls + 1)
  }

  /** A failed entry leaves the counter at its limit, so the next entry fails at once without writing a poll. */
  lemma FailedEntryBlocksNext(failures: nat, inbox: seq<string>, later: seq<string>)
    requires failures <= MaxRetries
    requires !Poll(failures, inbox).ready
    ensures Poll(failures, inbox).failures == MaxRetries
    ensures Poll(Poll(failures, inbox).failures, later) == Handshake(false, 0, MaxRetries)
  {
  }

  /** The connection to the control unit, with its failure counter. */
  class Connection {
    const serial: Serial
    var connFailure: nat

    ghost predicate Valid()
      reads this
    {
      connFailure <= MaxRetries
    }

    constructor (serial: Serial)
      ensures this.serial == serial && connFailure == 0 && Valid()
    {
      this.serial := serial;
      connFailure := 0;
    }

    /** `__enter__`: poll for readiness; `ok` is false where Python raises ConnError and the port is not handed out. */
    method Enter() returns (ok: bool)
      requires Valid()
      modifies this, serial
      ensures Valid()
      ensures var h := Poll(old(connFailure), old(serial.inbox));
        && ok == h.ready
        && connFailure == h.failures
        && serial.sent == old(serial.sent) + Repeat(CheckReadyBytes, h.polls)
        && serial.inbox == Drop(old(serial.inbox), h.polls)
    {
      ghost var polls := 0;
      while connFailure < MaxRetries
        invariant connFailure <= MaxRetries
        invariant serial.sent == old(serial.sent) + Repeat(CheckReadyBytes, polls)
        invariant serial.inbox == Drop(old(serial.inbox), polls)
        invariant var h := Poll(connFailure, serial.inbox);
          Poll(old(connFailure), old(serial.inbox)) == h.(polls := h.polls + polls)
      {
        serial.Write(CheckReadyBytes);
        ghost var before := serial.inbox;
        var reply := serial.Read();
        DropNext(old(serial.inbox), polls);
        polls := polls + 1;
        if reply == ReadyBytes {
          assert Poll(connFailure, before) == Handshake(true, 1, connFailure);
          break;
        }
        connFailure := connFailure + 1;
      }
      ok := connFailure < MaxRetries;
    }

    /** `__exit__`: the counter goes back to zero. */
    method Exit()
      modifies this
      ensures connFailure == 0 && Valid()
    {
      connFailure := 0;
    }
  }
}
