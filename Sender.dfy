/**
 * `ARX._send` (ARXControl/arx.py), as functions over the state of the link.
 *
 * `SendLoop` is the retry loop: write the command, read one reply, and either
 * return the payload of an acknowledged reply or count a refusal and retry, at
 * most `MaxRetries` times. It is stated for any way of classifying a reply, so
 * the intended reading of the acknowledgement test (`Classify`) and the reading
 * of the test as written (`ClassifyAsWritten`) share one loop. `Transact` wraps
 * the loop in one readiness handshake, so it is one whole call of `_send`.
 */
module Sender {
  import opened Wrappers
  import opened Codec
  import opened Session
  import Codes

  /** What the client sees of the link: the handshake counter, the replies to come, everything written so far. */
  datatype Link = Link(failures: nat, inbox: seq<string>, sent: seq<string>)

  /** Why a setter refused its input (every case is a Python ValueError). */
  datatype Rejection =
    | OutOfRange     // the value is outside the setter's range
    | NotIntegral    // in range, but `value != int(value)`
    | NotBinary      // a power value that is not 0 or 1 after `int()`
    | NotFourValues  // an iterable power value whose length is not 4
    | NotANumber     // `int()` refused an element of an iterable power value

  /** The exceptions the client raises, one case per cause. */
  datatype ArxError =
    | ValueError(reason: Rejection)
    | ConnError                                             // the handshake gave up
    | IOError(command: string, response: Option<seq<Arg>>)  // no ACK within MaxRetries attempts
    | BadReply(field: string)                               // `unpack` could not read the reply's code
    | BadResponse(response: Option<seq<Arg>>)               // a payload the caller cannot index or convert

  /** How `_send` reads one reply: acknowledged with a payload, refused with a payload, or unreadable. */
  datatype Verdict = Acked(payload: Option<seq<Arg>>) | Refused(payload: Option<seq<Arg>>) | Garbled(field: string)

  /**
   * A reading of the acknowledgement test. The functions below take it as a
   * parameter, so that what they say holds of the test as intended (`Classify`)
   * and of the test as written (`ClassifyAsWritten`) alike.
   */
  type Classifier = string -> Verdict

  /** The acknowledgement test as intended: the reply's code is kACK. */
  function Classify(reply: string): Verdict
  {
    match Unpack(reply)
    case Err(BadCode(field)) => Garbled(field)
    case Ok(m) => if m.code == Codes.kAck then Acked(m.args) else Refused(m.args)
  }

  /**
   * The acknowledgement test as written: `code is not const.kACK` compares an
   * int with a bit-string object by identity, which never holds, so every
   * readable reply counts as a refusal.
   */
  function ClassifyAsWritten(reply: string): (v: Verdict)
    ensures !v.Acked?
  {
    match Unpack(reply)
    case Err(BadCode(field)) => Garbled(field)
    case Ok(m) => Refused(m.args)
  }

  /** The device's own replies are classified by their code: kACK and nothing else is an acknowledgement. */
  lemma ClassifyBuildResp(code: int, v: Option<int>)
    ensures Classify(BuildResp(code, if v.Some? then Some(Num(v.value)) else None)) ==
      var payload := if v.Some? then Some([Num(v.value)]) else None;
      if code == Codes.kAck then Acked(payload) else Refused(payload)
  {
    if v.Some? {
      UnpackBuildRespNum(code, v.value);
    } else {
      UnpackBuildRespNone(code);
    }
  }

  /** The result of the retry loop, and how many times it wrote the command. */
  datatype Attempts = Attempts(result: Result<Option<seq<Arg>>, ArxError>, writes: nat)

  /**
   * The `while error_cnt < MAX_RETRIES` loop of `_send`, from the counter, the
   * last refused payload, the command string and the replies to come.
   */
  function SendLoop(classify: Classifier, errorCnt: nat, last: Option<seq<Arg>>, cmd: string, inbox: seq<string>): (a: Attempts)
    decreases MaxRetries - errorCnt
    ensures errorCnt >= MaxRetries ==> a == Attempts(Err(IOError(cmd, last)), 0)
    ensures errorCnt < MaxRetries ==> 1 <= a.writes <= MaxRetries - errorCnt
  {
    if errorCnt >= MaxRetries then Attempts(Err(IOError(cmd, last)), 0)
    else
      match classify(Next(inbox))
      case Garbled(field) => Attempts(Err(BadReply(field)), 1)
      case Acked(payload) => Attempts(Ok(payload), 1)
      case Refused(payload) =>
        var a := SendLoop(classify, errorCnt + 1, payload, cmd, Rest(inbox));
        a.(writes := a.writes + 1)
  }

  /** Every reply before the last one read was a refusal: that is why the loop went on. */
  lemma {:induction false} SendLoopRetriesOnRefusal(classify: Classifier, errorCnt: nat, last: Option<seq<Arg>>, cmd: string, inbox: seq<string>, k: nat)
    requires k + 1 < SendLoop(classify, errorCnt, last, cmd, inbox).writes
    ensures classify(Reply(inbox, k)).Refused?
    decreases k
  {
    if k > 0 {
      SendLoopRetriesOnRefusal(classify, errorCnt + 1, classify(Next(inbox)).payload, cmd, Rest(inbox), k - 1);
      assert Reply(Rest(inbox), k - 1) == Reply(inbox, k);
    }
  }

  /**
   * How the loop ended, read off the last reply it read: the payload of an
   * acknowledged reply is returned; an unreadable reply is reported; otherwise
   * all `MaxRetries - errorCnt` attempts were refused and the IOError carries
   * the command and the last refused payload.
   */
  lemma {:induction false} SendLoopEnds(classify: Classifier, errorCnt: nat, last: Option<seq<Arg>>, cmd: string, inbox: seq<string>)
    requires errorCnt < MaxRetries
    ensures var a := SendLoop(classify, errorCnt, last, cmd, inbox);
      var final := classify(Reply(inbox, a.writes - 1));
      match a.result
      case Ok(payload) => final == Acked(payload)
      case Err(BadReply(field)) => final == Garbled(field)
      case Err(e) => final.Refused? && a.writes == MaxRetries - errorCnt && e == IOError(cmd, final.payload)
    decreases MaxRetries - errorCnt
  {
    var v := classify(Next(inbox));
    if v.Refused? && errorCnt + 1 < MaxRetries {
      var a := SendLoop(classify, errorCnt + 1, v.payload, cmd, Rest(inbox));
      SendLoopEnds(classify, errorCnt + 1, v.payload, cmd, Rest(inbox));
      assert Reply(Rest(inbox), a.writes - 1) == Reply(inbox, a.writes);
    }
  }

  /** When every reply is a refusal, the loop uses up all its attempts and raises IOError with the last payload. */
  lemma {:induction false} AllRefusedRaises(classify: Classifier, errorCnt: nat, last: Option<seq<Arg>>, cmd: string, inbox: seq<string>)
    requires errorCnt < MaxRetries
    requires forall k: nat :: k < MaxRetries - errorCnt ==> classify(Reply(inbox, k)).Refused?
    ensures SendLoop(classify, errorCnt, last, cmd, inbox) ==
      Attempts(Err(IOError(cmd, classify(Reply(inbox, MaxRetries - errorCnt - 1)).payload)), MaxRetries - errorCnt)
    decreases MaxRetries - errorCnt
  {
    assert classify(Reply(inbox, 0)).Refused?;
    if errorCnt + 1 < MaxRetries {
      forall k: nat | k < MaxRetries - errorCnt - 1
        ensures classify(Reply(Rest(inbox), k)).Refused?
      {
        assert Reply(Rest(inbox), k) == Reply(inbox, k + 1);
      }
      AllRefusedRaises(classify, errorCnt + 1, classify(Next(inbox)).payload, cmd, Rest(inbox));
      assert Reply(Rest(inbox), MaxRetries - errorCnt - 2) == Reply(inbox, MaxRetries - errorCnt - 1);
    }
  }

  /** The outcome of one call of `_send` and the link afterwards. */
  datatype Outcome = Outcome(result: Result<Option<seq<Arg>>, ArxError>, link: Link)

  /**
   * One call of `_send` with the command string `cmd`: the handshake, then the
   * retry loop. Leaving the `with` block, by return or by exception, resets the
   * handshake counter; a failed handshake raises before the block is entered
   * and leaves the counter as it is.
   */
  function Transact(classify: Classifier, l: Link, cmd: string): Outcome
  {
    var h := Poll(l.failures, l.inbox);
    var afterPoll := Drop(l.inbox, h.polls);
    var polled := l.sent + Repeat(CheckReadyBytes, h.polls);
    if !h.ready then Outcome(Err(ConnError), Link(h.failures, afterPoll, polled))
    else
      var a := SendLoop(classify, 0, None, cmd, afterPoll);
      Outcome(a.result, Link(0, Drop(afterPoll, a.writes), polled + Repeat(cmd, a.writes)))
  }

  /** `_send(*args)` for a request: its command string is built by `MakeCmd`. */
  function Call(classify: Classifier, l: Link, req: Request): Outcome
  {
    Transact(classify, l, MakeCmd(req))
  }

  /**
   * A call answered at once: the first poll finds the unit ready and the first
   * reply to the command is an acknowledgement. It writes one poll and one
   * command, consumes two replies, returns the reply's payload and resets the
   * handshake counter.
   */
  lemma CallAcked(classify: Classifier, l: Link, req: Request, reply: string, rest: seq<string>)
    requires l.failures < MaxRetries
    requires l.inbox == [ReadyBytes, reply] + rest
    requires classify(reply).Acked?
    ensures Call(classify, l, req) ==
      Outcome(Ok(classify(reply).payload), Link(0, rest, l.sent + [CheckReadyBytes, MakeCmd(req)]))
  {
    var after := Drop(l.inbox, 1);
    assert Next(l.inbox) == ReadyBytes;
    assert after == [reply] + rest;
    assert Next(after) == reply && Drop(after, 1) == rest;
    assert Repeat(CheckReadyBytes, 1) == [CheckReadyBytes];
    assert Repeat(MakeCmd(req), 1) == [MakeCmd(req)];
  }

  /**
   * Everything one call of `_send` writes is at most `MaxRetries` polls followed
   * by at most `MaxRetries` copies of the command, all in one handshake session;
   * a failed handshake writes no command, and the counter is back at zero unless
   * the handshake failed.
   */
  lemma TransactWrites(classify: Classifier, l: Link, cmd: string) returns (polls: nat, writes: nat)
    requires l.failures <= MaxRetries
    ensures polls <= MaxRetries && writes <= MaxRetries
    ensures Transact(classify, l, cmd).link.sent == l.sent + Repeat(CheckReadyBytes, polls) + Repeat(cmd, writes)
    ensures Transact(classify, l, cmd).link.inbox == Drop(l.inbox, polls + writes)
    ensures Transact(classify, l, cmd).result == Err(ConnError) <==> writes == 0
    ensures Transact(classify, l, cmd).result == Err(ConnError) ==> Transact(classify, l, cmd).link.failures == MaxRetries
    ensures Transact(classify, l, cmd).result != Err(ConnError) ==> Transact(classify, l, cmd).link.failures == 0
  {
    var h := Poll(l.failures, l.inbox);
    polls := h.polls;
    if h.ready {
      var a := SendLoop(classify, 0, None, cmd, Drop(l.inbox, polls));
      writes := a.writes;
      DropDrop(l.inbox, polls, writes);
      if a.result.Err? {
        SendLoopEnds(classify, 0, None, cmd, Drop(l.inbox, polls));
      }
    } else {
      writes := 0;
      assert l.sent + Repeat(CheckReadyBytes, polls) + Repeat(cmd, 0) == l.sent + Repeat(CheckReadyBytes, polls);
    }
  }

  lemma DropDrop(inbox: seq<string>, j: nat, k: nat)
    ensures Drop(Drop(inbox, j), k) == Drop(inbox, j + k)
  {
  }

  // ---------------------------------------------------------------------------
  // the acknowledgement test as written

  /** A reading of the test under which no reply is an acknowledgement makes the loop end in an exception, whatever the replies. */
  lemma {:induction false} NoAckNoReturn(classify: Classifier, errorCnt: nat, last: Option<seq<Arg>>, cmd: string, inbox: seq<string>)
    requires forall reply :: !classify(reply).Acked?
    ensures SendLoop(classify, errorCnt, last, cmd, inbox).result.Err?
    decreases MaxRetries - errorCnt
  {
    if errorCnt < MaxRetries {
      var v := classify(Next(inbox));
      if v.Refused? {
        NoAckNoReturn(classify, errorCnt + 1, v.payload, cmd, Rest(inbox));
      }
    }
  }

  /** The test as written takes no reply as an acknowledgement. */
  lemma AsWrittenNeverAcks(reply: string)
    ensures !ClassifyAsWritten(reply).Acked?
  {
  }

  /** With the test as written `_send` never returns normally: it raises IOError after its retries, or BadReply. */
  lemma AsWrittenNeverReturns(errorCnt: nat, last: Option<seq<Arg>>, cmd: string, inbox: seq<string>)
    ensures SendLoop(ClassifyAsWritten, errorCnt, last, cmd, inbox).result.Err?
  {
    forall reply
      ensures !ClassifyAsWritten(reply).Acked?
    {
      AsWrittenNeverAcks(reply);
    }
    NoAckNoReturn(ClassifyAsWritten, errorCnt, last, cmd, inbox);
  }

  /** Under a reading with no acknowledgement every call of `_send` raises. */
  lemma NoAckCallRaises(classify: Classifier, l: Link, cmd: string)
    requires forall reply :: !classify(reply).Acked?
    ensures Transact(classify, l, cmd).result.Err?
  {
    var h := Poll(l.failures, l.inbox);
    if h.ready {
      NoAckNoReturn(classify, 0, None, cmd, Drop(l.inbox, h.polls));
    }
  }

  /** With the test as written every call of `_send` raises, whatever the device replies. */
  lemma AsWrittenEveryCallRaises(l: Link, cmd: string)
    ensures Transact(ClassifyAsWritten, l, cmd).result.Err?
  {
    forall reply
      ensures !ClassifyAsWritten(reply).Acked?
    {
      AsWrittenNeverAcks(reply);
    }
    NoAckCallRaises(ClassifyAsWritten, l, cmd);
  }

  /** The bare kACK reply `1;` is an acknowledgement as intended and a refusal as written. */
  lemma BareAckClassified()
    ensures BuildResp(Codes.kAck, None) == "1;"
    ensures Classify("1;") == Acked(None)
    ensures ClassifyAsWritten("1;") == Refused(None)
  {
    assert BuildResp(Codes.kAck, None) == "1;";
    UnpackBuildRespNone(Codes.kAck);
  }

  /** The reply `1;`, a bare kACK: the intended test returns after one write, the test as written retries and raises IOError. */
  lemma AckIgnoredAsWritten(cmd: string)
    ensures SendLoop(Classify, 0, None, cmd, ["1;", "1;", "1;"]) == Attempts(Ok(None), 1)
    ensures SendLoop(ClassifyAsWritten, 0, None, cmd, ["1;", "1;", "1;"]) == Attempts(Err(IOError(cmd, None)), 3)
  {
    BareAckClassified();
    assert Rest(["1;", "1;", "1;"]) == ["1;", "1;"];
    assert Rest(["1;", "1;"]) == ["1;"];
  }
}
