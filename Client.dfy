/**
 * The `ARX` control object (ARXControl/arx.py): `_send`, the property getters
 * and setters, `roach` and `write_flash`, run step by step against the
 * connection of Session.dfy.
 *
 * Every method is proved to leave the link (`LinkState`) and return exactly
 * what the spec functions of Sender.dfy and Properties.dfy say, with the
 * acknowledgement test as intended (`Classify`).
 */
module Client {
  import opened Wrappers
  import opened Codec
  import opened Session
  import opened Sender
  import opened Properties
  import Codes

  class Arx {
    const conn: Connection
    /** How `_send` reads a reply; the constructor installs the acknowledgement test as intended. */
    const classify: Classifier
    /** The bound `EEPROM_SIZE / FLASH_SIZE` of the `eeprom_offset` setter, whose constants the repository does not define. */
    const eepromLimit: real

    ghost predicate Valid()
      reads this, conn
    {
      conn.Valid()
    }

    /** The state of the link: the handshake counter, the replies to come, everything written. */
    ghost function LinkState(): Link
      reads this, conn, conn.serial
    {
      Link(conn.connFailure, conn.serial.inbox, conn.serial.sent)
    }

    constructor (conn: Connection, eepromLimit: real)
      requires conn.Valid()
      ensures this.conn == conn && this.eepromLimit == eepromLimit && classify == Classify && Valid()
    {
      this.conn := conn;
      this.classify := Classify;
      this.eepromLimit := eepromLimit;
    }

    /**
     * The body of the `with` block of `_send`: write the command and read a
     * reply until one is acknowledged, at most `MaxRetries` times; leaving the
     * block, by return or by exception, resets the handshake counter.
     */
    method Exchange(cmd: string) returns (r: Result<Option<seq<Arg>>, ArxError>)
      modifies conn, conn.serial
      ensures var a := SendLoop(classify, 0, None, cmd, old(conn.serial.inbox));
        && r == a.result
        && conn.connFailure == 0
        && conn.serial.inbox == Drop(old(conn.serial.inbox), a.writes)
        && conn.serial.sent == old(conn.serial.sent) + Repeat(cmd, a.writes)
    {
      ghost var start := conn.serial.inbox;
      ghost var sent0 := conn.serial.sent;
      var errorCnt: nat := 0;
      var last: Option<seq<Arg>> := None;
      while errorCnt < MaxRetries
        invariant errorCnt <= MaxRetries
        invariant conn.serial.inbox == Drop(start, errorCnt)
        invariant conn.serial.sent == sent0 + Repeat(cmd, errorCnt)
        invariant var a := SendLoop(classify, errorCnt, last, cmd, conn.serial.inbox);
          SendLoop(classify, 0, None, cmd, start) == a.(writes := a.writes + errorCnt)
      {
        ghost var before := conn.serial.inbox;
        conn.serial.Write(cmd);
        var data := conn.serial.Read();
        DropNext(start, errorCnt);
        match classify(data)
        case Garbled(field) =>
          assert SendLoop(classify, errorCnt, last, cmd, before) == Attempts(Err(BadReply(field)), 1);
          conn.Exit();
          return Err(BadReply(field));
        case Acked(payload) =>
          assert SendLoop(classify, errorCnt, last, cmd, before) == Attempts(Ok(payload), 1);
          conn.Exit();
          return Ok(payload);
        case Refused(payload) =>
          ghost var a := SendLoop(classify, errorCnt + 1, payload, cmd, conn.serial.inbox);
          assert SendLoop(classify, errorCnt, last, cmd, before) == a.(writes := a.writes + 1);
          errorCnt := errorCnt + 1;
          last := payload;
      }
      conn.Exit();
      r := Err(IOError(cmd, last));
    }

    /** `_send(*args)`: the handshake, then the exchange; a failed handshake raises ConnError before anything is sent. */
    method Send(req: Request) returns (r: Result<Option<seq<Arg>>, ArxError>)
      requires Valid()
      modifies conn, conn.serial
      ensures Valid()
      ensures Outcome(r, LinkState()) == Call(classify, old(LinkState()), req)
    {
      var ok := conn.Enter();
      if !ok {
        return Err(ConnError);
      }
      r := Exchange(MakeCmd(req));
    }

    /** `int(self._send(*args)[0])`, the body of the scalar getters. */
    method ReadInt(req: Request) returns (r: Result<int, ArxError>)
      requires Valid()
      modifies conn, conn.serial
      ensures Valid()
      ensures Reading(r, LinkState()) == Query(classify, old(LinkState()), req)
    {
      var resp := Send(req);
      if resp.Err? {
        return Err(resp.error);
      }
      r := FirstInt(resp.value);
    }

    /** The `power` getter: one FEE_READ per channel, in channel order. */
    method Power() returns (r: Result<seq<int>, ArxError>)
      requires Valid()
      modifies conn, conn.serial
      ensures Valid()
      ensures Readings(r, LinkState()) == QueryAll(classify, old(LinkState()), FeeReads(4))
    {
      ghost var reqs := FeeReads(4);
      var out: seq<int> := [];
      assert reqs[0..] == reqs;
      PrefixedNothing(QueryAll(classify, LinkState(), reqs));
      for i := 0 to 4
        invariant Valid()
        invariant QueryAll(classify, old(LinkState()), reqs) == Prefixed(out, QueryAll(classify, LinkState(), reqs[i..]))
      {
        assert reqs[i..][0] == Request(Codes.FeeRead, [i]) && reqs[i..][1..] == reqs[i + 1..];
        QueryAllStep(classify, LinkState(), reqs[i..], out);
        var v := ReadInt(Request(Codes.FeeRead, [i]));
        if v.Err? {
          assert QueryAll(classify, old(LinkState()), reqs) == Readings(Err(v.error), LinkState());
          return Err(v.error);
        }
        out := out + [v.value];
      }
      assert reqs[4..] == [] && out + [] == out;
      assert QueryAll(classify, old(LinkState()), reqs) == Readings(Ok(out), LinkState());
      r := Ok(out);
    }

    /** The shared body of the `filter`, `atten0`, `atten1` and `eeprom_offset` setters. */
    method SetChecked(value: real, hi: real, code: int, prefix: seq<int>) returns (err: Option<ArxError>)
      requires |prefix| <= 1 && Valid()
      modifies conn, conn.serial
      ensures Valid()
      ensures Effect(err, LinkState()) == Run(classify, old(LinkState()), CheckedWrite(value, hi, code, prefix))
    {
      if !(0.0 <= value <= hi) {
        return Some(ValueError(OutOfRange));
      }
      if !Integral(value) {
        return Some(ValueError(NotIntegral));
      }
      ghost var before := LinkState();
      var r := Send(Request(code, prefix + [Trunc(value)]));
      err := if r.Err? then Some(r.error) else None;
      AcceptedSendsOnce(classify, before, value, hi, code, prefix);
    }

    method SetFilter(value: real) returns (err: Option<ArxError>)
      requires Valid()
      modifies conn, conn.serial
      ensures Valid()
      ensures Effect(err, LinkState()) == Run(classify, old(LinkState()), FilterPlan(value))
    {
      err := SetChecked(value, 2.0, Codes.FilterWrite, []);
    }

    method SetAtten0(level: real) returns (err: Option<ArxError>)
      requires Valid()
      modifies conn, conn.serial
      ensures Valid()
      ensures Effect(err, LinkState()) == Run(classify, old(LinkState()), AttenPlan(0, level))
    {
      err := SetChecked(level, 15.0, Codes.AttenWrite, [0]);
    }

    method SetAtten1(level: real) returns (err: Option<ArxError>)
      requires Valid()
      modifies conn, conn.serial
      ensures Valid()
      ensures Effect(err, LinkState()) == Run(classify, old(LinkState()), AttenPlan(1, level))
    {
      err := SetChecked(level, 15.0, Codes.AttenWrite, [1]);
    }

    method SetEepromOffset(position: real) returns (err: Option<ArxError>)
      requires Valid()
      modifies conn, conn.serial
      ensures Valid()
      ensures Effect(err, LinkState()) == Run(classify, old(LinkState()), EepromPlan(position, eepromLimit))
    {
      err := SetChecked(position, eepromLimit, Codes.EepromWrite, []);
    }

    method Filter() returns (r: Result<int, ArxError>)
      requires Valid()
      modifies conn, conn.serial
      ensures Valid()
      ensures Reading(r, LinkState()) == Query(classify, old(LinkState()), Request(Codes.FilterRead, []))
    {
      r := ReadInt(Request(Codes.FilterRead, []));
    }

    method Atten0() returns (r: Result<int, ArxError>)
      requires Valid()
      modifies conn, conn.serial
      ensures Valid()
      ensures Reading(r, LinkState()) == Query(classify, old(LinkState()), Request(Codes.AttenRead, [0]))
    {
      r := ReadInt(Request(Codes.AttenRead, [0]));
    }

    method Atten1() returns (r: Result<int, ArxError>)
      requires Valid()
      modifies conn, conn.serial
      ensures Valid()
      ensures Reading(r, LinkState()) == Query(classify, old(LinkState()), Request(Codes.AttenRead, [1]))
    {
      r := ReadInt(Request(Codes.AttenRead, [1]));
    }

    method EepromOffset() returns (r: Result<int, ArxError>)
      requires Valid()
      modifies conn, conn.serial
      ensures Valid()
      ensures Reading(r, LinkState()) == Query(classify, old(LinkState()), Request(Codes.EepromRead, []))
    {
      r := ReadInt(Request(Codes.EepromRead, []));
    }

    /** The `power` setter: an iterable is checked and written element by element, anything else as one number. */
    method SetPower(p: PowerInput) returns (err: Option<ArxError>)
      requires Valid()
      modifies conn, conn.serial
      ensures Valid()
      ensures Effect(err, LinkState()) == Run(classify, old(LinkState()), PowerPlan(p))
    {
      match p
      case Many(items) =>
        err := SetPowerEach(items);
      case Single(x) =>
        err := SetPowerAll(x);
    }

    /** An iterable: four elements, each converted with `int()`, checked to be 0/1 and written before the next is looked at. */
    method SetPowerEach(items: seq<PyValue>) returns (err: Option<ArxError>)
      requires Valid()
      modifies conn, conn.serial
      ensures Valid()
      ensures Effect(err, LinkState()) == Run(classify, old(LinkState()), PowerPlan(Many(items)))
    {
      if |items| != 4 {
        return Some(ValueError(NotFourValues));
      }
      ghost var plan := PowerPlan(Many(items));
      for i := 0 to 4
        invariant Valid()
        invariant i <= FirstBad(items)
        invariant Run(classify, old(LinkState()), plan) == Run(classify, LinkState(), Plan(plan.writes[i..], plan.fault))
      {
        PowerIterableAt(items, i);
        var n := PyInt(items[i]);
        if n.None? {
          assert plan.writes[i..] == [];
          return Some(ValueError(NotANumber));
        }
        if !(n.value == 1 || n.value == 0) {
          assert plan.writes[i..] == [];
          return Some(ValueError(NotBinary));
        }
        assert plan.writes[i..][0] == Request(Codes.FeeWrite, [i, n.value]);
        assert plan.writes[i..][1..] == plan.writes[i + 1..];
        RunStep(classify, LinkState(), plan.writes[i..], plan.fault);
        var r := Send(Request(Codes.FeeWrite, [i, n.value]));
        if r.Err? {
          return Some(r.error);
        }
      }
      err := None;
    }

    /** A single number: truncated with `int()`, and when 0 or 1 written to the four channels in order. */
    method SetPowerAll(x: real) returns (err: Option<ArxError>)
      requires Valid()
      modifies conn, conn.serial
      ensures Valid()
      ensures Effect(err, LinkState()) == Run(classify, old(LinkState()), PowerPlan(Single(x)))
    {
      var n := Trunc(x);
      if !(n == 1 || n == 0) {
        return Some(ValueError(NotBinary));
      }
      ghost var plan := PowerPlan(Single(x));
      for i := 0 to 4
        invariant Valid()
        invariant Run(classify, old(LinkState()), plan) == Run(classify, LinkState(), Plan(plan.writes[i..], None))
      {
        assert plan.writes[i..][0] == Request(Codes.FeeWrite, [i, n]);
        assert plan.writes[i..][1..] == plan.writes[i + 1..];
        RunStep(classify, LinkState(), plan.writes[i..], None);
        var r := Send(Request(Codes.FeeWrite, [i, n]));
        if r.Err? {
          return Some(r.error);
        }
      }
      err := None;
    }

    /** `roach(state)`. */
    method Roach(state: int) returns (r: Result<Option<int>, ArxError>)
      requires Valid()
      modifies conn, conn.serial
      ensures Valid()
      ensures RoachResult(r, LinkState()) == Properties.Roach(classify, old(LinkState()), state)
    {
      if !(0 <= state <= 1) {
        return Err(ValueError(OutOfRange));
      }
      var resp := Send(Request(Codes.RoachWrite, [state]));
      if resp.Err? {
        return Err(resp.error);
      }
      if resp.value.None? || |resp.value.value| == 0 {
        return Err(BadResponse(resp.value));
      }
      r := if resp.value.value[0] == Num(Codes.RoachWritten) then Ok(Some(state)) else Ok(None);
    }

    /** `write_flash()`. */
    method WriteFlash() returns (r: Result<bool, ArxError>)
      requires Valid()
      modifies conn, conn.serial
      ensures Valid()
      ensures Flag(r, LinkState()) == Properties.WriteFlash(classify, old(LinkState()))
    {
      var resp := Send(Request(Codes.FlashWrite, []));
      if resp.Err? {
        return Err(resp.error);
      }
      r := Ok(true);
    }
  }
}
