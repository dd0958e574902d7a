/**
 * The simulated ARX control unit of the test suite (`MockACU` in
 * tests/mocks/__init__.py): a serial port stand-in that answers each written
 * command by running a handler, and returns the handler's reply on the next read.
 *
 * `React` says what one handler does: the new state and the answer it builds
 * with `_build_resp` (a code and an optional payload). `Receive` says what a
 * write does: parse the command with the client's own `unpack`, then dispatch
 * on its code. The class `MockAcu` does the same step by step and
 * is proved against them. A handler that raises (an argument that is missing,
 * or a string compared with an int under Python 3) is a `Fault`, and changes
 * nothing.
 */
module Mock {
  import opened Wrappers
  import opened Codec
  import Session
  import Sender
  import Codes

  /** FEE power levels of channels 0..3, the two attenuator levels, the filterbank and the EEPROM offset. */
  datatype AcuState = AcuState(fee: seq<Arg>, atten: seq<Arg>, filter: int, eeprom: int)

  predicate Shaped(s: AcuState)
  {
    |s.fee| == 4 && |s.atten| == 2
  }

  /** `DEFAULT_STATE`. */
  const DefaultState: AcuState := AcuState([Num(0), Num(0), Num(0), Num(0)], [Num(15), Num(15)], 0, 1)

  /** The registered handlers of `self.responses`. */
  datatype Handler =
    | Ready | FeeRead | FeeWrite | FilterRead | FilterWrite | AttenRead | AttenWrite | EepromRead | EepromWrite

  const AllHandlers: seq<Handler> :=
    [Ready, FeeRead, FeeWrite, FilterRead, FilterWrite, AttenRead, AttenWrite, EepromRead, EepromWrite]

  /** The key each handler is registered under. */
  function CodeOf(h: Handler): int
  {
    match h
    case Ready => Codes.AcuReady
    case FeeRead => Codes.FeeRead
    case FeeWrite => Codes.FeeWrite
    case FilterRead => Codes.FilterRead
    case FilterWrite => Codes.FilterWrite
    case AttenRead => Codes.AttenRead
    case AttenWrite => Codes.AttenWrite
    case EepromRead => Codes.EepromRead
    case EepromWrite => Codes.EepromWrite
  }

  /** `self.responses[code]`: the handler registered under `code`, or None where Python raises KeyError. */
  function HandlerFor(code: int): (h: Option<Handler>)
    ensures h.Some? ==> CodeOf(h.value) == code
    ensures h.None? ==> forall g: Handler :: CodeOf(g) != code
  {
    if code == Codes.AcuReady then Some(Ready)
    else if code == Codes.FeeRead then Some(FeeRead)
    else if code == Codes.FeeWrite then Some(FeeWrite)
    else if code == Codes.FilterRead then Some(FilterRead)
    else if code == Codes.FilterWrite then Some(FilterWrite)
    else if code == Codes.AttenRead then Some(AttenRead)
    else if code == Codes.AttenWrite then Some(AttenWrite)
    else if code == Codes.EepromRead then Some(EepromRead)
    else if code == Codes.EepromWrite then Some(EepromWrite)
    else None
  }

  lemma Registered(h: Handler)
    ensures h in AllHandlers
  {
    match h
    case Ready => assert AllHandlers[0] == h;
    case FeeRead => assert AllHandlers[1] == h;
    case FeeWrite => assert AllHandlers[2] == h;
    case FilterRead => assert AllHandlers[3] == h;
    case FilterWrite => assert AllHandlers[4] == h;
    case AttenRead => assert AllHandlers[5] == h;
    case AttenWrite => assert AllHandlers[6] == h;
    case EepromRead => assert AllHandlers[7] == h;
    case EepromWrite => assert AllHandlers[8] == h;
  }

  function MaxOf(hs: seq<Handler>): (m: int)
    requires hs != []
    ensures forall h :: h in hs ==> CodeOf(h) <= m
    ensures exists h :: h in hs && CodeOf(h) == m
  {
    if |hs| == 1 then CodeOf(hs[0])
    else
      var r := MaxOf(hs[1..]);
      if CodeOf(hs[0]) >= r then CodeOf(hs[0]) else r
  }

  /** `max(self.responses)`: the largest registered code. */
  function MaxCode(): (m: int)
    ensures forall h: Handler :: CodeOf(h) <= m
    ensures exists h: Handler :: CodeOf(h) == m
  {
    assert forall h: Handler :: h in AllHandlers by {
      forall h: Handler
        ensures h in AllHandlers
      {
        Registered(h);
      }
    }
    MaxOf(AllHandlers)
  }

  /** `args[0]` when it can be compared with an int: None where Python raises (no block, or a string). */
  function FirstNum(args: Option<seq<Arg>>): (i: Option<int>)
    ensures i.Some? <==> args.Some? && |args.value| > 0 && args.value[0].Num?
    ensures i.Some? ==> args.value[0] == Num(i.value)
  {
    if args.Some? && |args.value| > 0 && args.value[0].Num? then Some(args.value[0].n) else None
  }

  /** `args[1]`: None where Python raises IndexError. */
  function SecondArg(args: seq<Arg>): (a: Option<Arg>)
    ensures a.Some? <==> |args| > 1
    ensures a.Some? ==> a.value == args[1]
  {
    if |args| > 1 then Some(args[1]) else None
  }

  /** The arguments of `_build_resp(code, resp_str)`. */
  datatype Answer = Answer(code: int, payload: Option<Arg>)

  /** The reply string `_build_resp` makes of an answer. */
  function Wire(a: Answer): string
  {
    BuildResp(a.code, a.payload)
  }

  function Ack(payload: Arg): Answer
  {
    Answer(Codes.kAck, Some(payload))
  }

  function Nak(reason: int): Answer
  {
    Answer(Codes.kErr, Some(Num(reason)))
  }

  /** What a handler leaves behind: the new state and its answer, or an exception that changed nothing. */
  datatype Reaction = Reply(state: AcuState, answer: Answer) | Fault

  /** One handler run on the arguments of a command. */
  function React(h: Handler, s: AcuState, args: Option<seq<Arg>>): (r: Reaction)
    requires Shaped(s)
    ensures r.Reply? ==> Shaped(r.state)
  {
    match h
    case Ready => Reply(s, Answer(Codes.kReady, Some(Num(Codes.ReadyRsp))))
    case FeeRead =>
      (match FirstNum(args)
       case None => Fault
       case Some(i) => if 0 <= i < 4 then Reply(s, Ack(s.fee[i])) else Reply(s, Nak(Codes.FeeRange)))
    case FeeWrite =>
      if args.None? then Reply(s, Nak(Codes.DataParseFail))
      else
        (match FirstNum(args)
         case None => Fault
         case Some(i) =>
           if !(0 <= i < 4) then Reply(s, Nak(Codes.FeeRange))
           else
             (match SecondArg(args.value)
              case None => Fault
              case Some(level) => Reply(s.(fee := s.fee[i := level]), Ack(Num(Codes.FeeWritten)))))
    case FilterRead => Reply(s, Ack(Num(s.filter)))
    case FilterWrite =>
      (match FirstNum(args)
       case None => Fault
       case Some(i) => if 0 <= i < 4 then Reply(s.(filter := i), Ack(Num(Codes.FilterWritten))) else Reply(s, Nak(Codes.FilterRange)))
    case AttenRead =>
      if args.None? then Reply(s, Nak(Codes.DataParseFail))
      else
        (match FirstNum(args)
         case None => Fault
         case Some(i) => if 0 <= i < 2 then Reply(s, Ack(s.atten[i])) else Reply(s, Nak(Codes.DataParseFail)))
    case AttenWrite =>
      if args.None? then Reply(s, Nak(Codes.DataParseFail))
      else
        (match FirstNum(args)
         case None => Fault
         case Some(i) =>
           if !(0 <= i < 2) then Reply(s, Nak(Codes.DataParseFail))
           else
             (match SecondArg(args.value)
              case None => Fault
              case Some(level) => Reply(s.(atten := s.atten[i := level]), Ack(Num(Codes.AttenWritten)))))
    case EepromRead => Reply(s, Ack(Num(s.eeprom)))
    case EepromWrite =>
      if args.None? then Reply(s, Nak(Codes.DataParseFail))
      else
        (match FirstNum(args)
         case None => Fault
         case Some(i) => if 1 <= i < 1024 then Reply(s.(eeprom := i), Ack(Num(Codes.EepromWritten))) else Reply(s, Nak(Codes.EepromRange)))
  }

  /** The unit after a write: its state and the reply waiting to be read, or an exception that changed nothing. */
  datatype Step = Step(state: AcuState, buffer: string) | Raised

  /**
   * The dispatch in `write` of a parsed command: a code below the largest
   * registered one runs its handler (KeyError when there is none); any other
   * code is ignored, and the previous reply stays in the buffer.
   */
  function Dispatch(s: AcuState, buffer: string, m: Message): (r: Step)
    requires Shaped(s)
    ensures r.Step? ==> Shaped(r.state)
  {
    if m.code < MaxCode() then
      match HandlerFor(m.code)
      case None => Raised
      case Some(h) =>
        (match React(h, s, m.args)
         case Fault => Raised
         case Reply(t, a) => Step(t, Wire(a)))
    else Step(s, buffer)
  }

  /** `write(inputstring)`: a command whose code `unpack` cannot parse raises; any other is dispatched. */
  function Receive(s: AcuState, buffer: string, input: string): (r: Step)
    requires Shaped(s)
    ensures r.Step? ==> Shaped(r.state)
  {
    match Unpack(input)
    case Err(_) => Raised
    case Ok(m) => Dispatch(s, buffer, m)
  }

  // ---------------------------------------------------------------------------
  // what the handlers promise, as the client sees the replies

  /** The handler answered with code kACK, which is what the client takes as an acknowledgement (`Sender.ClassifyBuildResp`). */
  predicate Acknowledges(r: Reaction)
  {
    r.Reply? && r.answer.code == Codes.kAck
  }

  /**
   * A FEE_WRITE is acknowledged exactly for channels 0..3; then the level is
   * stored as given, whatever it is, and no other channel changes; otherwise
   * the state is kept.
   */
  lemma FeeWriteAcknowledged(s: AcuState, i: int, level: Arg, more: seq<Arg>)
    requires Shaped(s)
    ensures var r := React(FeeWrite, s, Some([Num(i), level] + more));
      && r.Reply?
      && (Acknowledges(r) <==> 0 <= i < 4)
      && r.answer == (if 0 <= i < 4 then Ack(Num(Codes.FeeWritten)) else Nak(Codes.FeeRange))
      && (Acknowledges(r) ==> r.state.fee[i] == level && r.state == s.(fee := r.state.fee))
      && (forall j :: 0 <= j < 4 && j != i ==> r.state.fee[j] == s.fee[j])
      && (!Acknowledges(r) ==> r.state == s)
  {
    var args := [Num(i), level] + more;
    assert args[0] == Num(i) && args[1] == level;
  }

  /** A FEE_READ of channel 0..3 acknowledges with the stored level; any other channel is refused. */
  lemma FeeReadAcknowledged(s: AcuState, i: int, more: seq<Arg>)
    requires Shaped(s)
    ensures var r := React(FeeRead, s, Some([Num(i)] + more));
      && r.Reply? && r.state == s
      && (Acknowledges(r) <==> 0 <= i < 4)
      && r.answer == (if 0 <= i < 4 then Ack(s.fee[i]) else Nak(Codes.FeeRange))
  {
    assert ([Num(i)] + more)[0] == Num(i);
  }

  /** A FILTER_WRITE is acknowledged exactly for filterbanks 0..3, and only then changes the filterbank. */
  lemma FilterWriteAcknowledged(s: AcuState, i: int, more: seq<Arg>)
    requires Shaped(s)
    ensures var r := React(FilterWrite, s, Some([Num(i)] + more));
      && r.Reply?
      && (Acknowledges(r) <==> 0 <= i < 4)
      && r.answer == (if 0 <= i < 4 then Ack(Num(Codes.FilterWritten)) else Nak(Codes.FilterRange))
      && r.state == if Acknowledges(r) then s.(filter := i) else s
  {
    assert ([Num(i)] + more)[0] == Num(i);
  }

  /** An EEPROM_WRITE is acknowledged exactly for offsets 1..1023, and only then changes the offset. */
  lemma EepromWriteAcknowledged(s: AcuState, i: int, more: seq<Arg>)
    requires Shaped(s)
    ensures var r := React(EepromWrite, s, Some([Num(i)] + more));
      && r.Reply?
      && (Acknowledges(r) <==> 1 <= i < 1024)
      && r.answer == (if 1 <= i < 1024 then Ack(Num(Codes.EepromWritten)) else Nak(Codes.EepromRange))
      && r.state == if Acknowledges(r) then s.(eeprom := i) else s
  {
    assert ([Num(i)] + more)[0] == Num(i);
  }

  /**
   * An ATTEN_WRITE is acknowledged exactly for attenuators 0 and 1, and the
   * level is not range-checked: any level, in range or not, is stored.
   */
  lemma AttenWriteAcknowledged(s: AcuState, i: int, level: Arg, more: seq<Arg>)
    requires Shaped(s)
    ensures var r := React(AttenWrite, s, Some([Num(i), level] + more));
      && r.Reply?
      && (Acknowledges(r) <==> 0 <= i < 2)
      && r.answer == (if 0 <= i < 2 then Ack(Num(Codes.AttenWritten)) else Nak(Codes.DataParseFail))
      && (Acknowledges(r) ==> r.state == s.(atten := s.atten[i := level]))
      && (!Acknowledges(r) ==> r.state == s)
  {
    var args := [Num(i), level] + more;
    assert args[0] == Num(i) && args[1] == level;
  }

  /** An ATTEN_READ of attenuator 0 or 1 acknowledges with the stored level; any other index is refused with DATA_PARSE_FAIL. */
  lemma AttenReadAcknowledged(s: AcuState, i: int, more: seq<Arg>)
    requires Shaped(s)
    ensures var r := React(AttenRead, s, Some([Num(i)] + more));
      && r.Reply? && r.state == s
      && (Acknowledges(r) <==> 0 <= i < 2)
      && r.answer == (if 0 <= i < 2 then Ack(s.atten[i]) else Nak(Codes.DataParseFail))
  {
    assert ([Num(i)] + more)[0] == Num(i);
  }

  /** FILTER_READ and EEPROM_READ ignore their arguments and acknowledge with the stored filterbank and EEPROM offset. */
  lemma SettingsReadAcknowledged(s: AcuState, args: Option<seq<Arg>>)
    requires Shaped(s)
    ensures React(FilterRead, s, args) == Reply(s, Ack(Num(s.filter)))
    ensures React(EepromRead, s, args) == Reply(s, Ack(Num(s.eeprom)))
    ensures Acknowledges(React(FilterRead, s, args)) && Acknowledges(React(EepromRead, s, args))
  {
  }

  /** Every reading handler leaves the state as it is. */
  lemma ReadsKeepState(s: AcuState, args: Option<seq<Arg>>)
    requires Shaped(s)
    ensures forall h :: h in {Ready, FeeRead, FilterRead, AttenRead, EepromRead} && React(h, s, args).Reply? ==> React(h, s, args).state == s
  {
  }

  /** Writes without an argument block are refused with DATA_PARSE_FAIL, except FILTER_WRITE, which raises. */
  lemma MissingArgumentsRefused(s: AcuState)
    requires Shaped(s)
    ensures React(FeeWrite, s, None) == Reply(s, Nak(Codes.DataParseFail))
    ensures React(AttenWrite, s, None) == Reply(s, Nak(Codes.DataParseFail))
    ensures React(EepromWrite, s, None) == Reply(s, Nak(Codes.DataParseFail))
    ensures React(FilterWrite, s, None) == Fault
    ensures React(FeeRead, s, None) == Fault
  {
  }

  // ---------------------------------------------------------------------------
  // dispatch of the client's commands

  /** A command string the client builds reaches the handler registered under its code, with its integer arguments. */
  lemma ClientCommandDispatched(s: AcuState, buffer: string, req: Request)
    requires Shaped(s)
    ensures req.code < MaxCode() && HandlerFor(req.code).Some? ==>
      var r := React(HandlerFor(req.code).value, s, if req.args == [] then None else Some(Nums(req.args)));
      Receive(s, buffer, MakeCmd(req)) == if r.Fault? then Raised else Step(r.state, Wire(r.answer))
    ensures req.code < MaxCode() && HandlerFor(req.code).None? ==> Receive(s, buffer, MakeCmd(req)) == Raised
    ensures req.code >= MaxCode() ==> Receive(s, buffer, MakeCmd(req)) == Step(s, buffer)
  {
    UnpackMakeCmd(req);
    assert Receive(s, buffer, MakeCmd(req)) == Dispatch(s, buffer, Message(req.code, if req.args == [] then None else Some(Nums(req.args))));
  }

  /**
   * `int(command) < max(self.responses)` is strict: the handler registered
   * under the largest code never runs, and a command for it leaves the state
   * and the previous reply as they were.
   */
  lemma LargestCodeNeverDispatched(s: AcuState, buffer: string, req: Request)
    requires Shaped(s)
    requires HandlerFor(req.code).Some? && req.code == MaxCode()
    ensures Receive(s, buffer, MakeCmd(req)) == Step(s, buffer)
  {
    ClientCommandDispatched(s, buffer, req);
  }

  /**
   * What the handlers read of a client's argument list (as `ClientCommandDispatched`
   * delivers it): the first argument as the integer the client sent, the second
   * as given; a command without arguments has no first argument to read.
   */
  lemma ClientArgumentsSeen(ns: seq<int>)
    ensures |ns| > 0 ==> FirstNum(Some(Nums(ns))) == Some(ns[0])
    ensures |ns| > 1 ==> SecondArg(Nums(ns)) == Some(Num(ns[1]))
    ensures FirstNum(None) == None
  {
  }

  /**
   * The client reads every acknowledgement the unit builds as one, carrying its
   * value, and every refusal as a refusal carrying its reason.
   */
  lemma WireClassified(n: int, reason: int)
    ensures Sender.Classify(Wire(Ack(Num(n)))) == Sender.Acked(Some([Num(n)]))
    ensures Sender.Classify(Wire(Nak(reason))) == Sender.Refused(Some([Num(reason)]))
  {
    Sender.ClassifyBuildResp(Codes.kAck, Some(n));
    Sender.ClassifyBuildResp(Codes.kErr, Some(reason));
  }

  /**
   * The arguments of the client's FEE_WRITE of a level to channel 0..3, then
   * of its FEE_READ of that channel (as `ClientCommandDispatched` delivers
   * them): both are acknowledged, and the read answers with the level written.
   */
  lemma FeeWriteThenRead(s: AcuState, i: int, level: int)
    requires Shaped(s) && 0 <= i < 4
    ensures var w := React(FeeWrite, s, Some(Nums([i, level])));
      && Acknowledges(w)
      && React(FeeRead, w.state, Some(Nums([i]))) == Reply(w.state, Ack(Num(level)))
  {
    assert Nums([i, level]) == [Num(i), Num(level)] + [];
    FeeWriteAcknowledged(s, i, Num(level), []);
    var t := React(FeeWrite, s, Some(Nums([i, level]))).state;
    assert Nums([i]) == [Num(i)] + [];
    FeeReadAcknowledged(t, i, []);
  }

  /** The one-byte readiness poll has no decimal code, so `unpack` raises on it. */
  lemma PollUnparsable()
    ensures Unpack(Session.CheckReadyBytes).Err?
  {
    var poll := Session.CheckReadyBytes;
    assert Strip(poll, {EndCommand}) == poll;
    assert Split(poll, Separator) == [poll];
    assert !IsDigit(poll[0]);
  }

  /**
   * The simulated unit cannot take part in the readiness handshake: writing
   * the one-byte poll raises, and the unit's own ready reply is not the
   * one-byte ready reply the connection waits for.
   */
  lemma HandshakeNotUnderstood(s: AcuState, buffer: string)
    requires Shaped(s)
    ensures Receive(s, buffer, Session.CheckReadyBytes) == Raised
    ensures Wire(React(Ready, s, None).answer) != Session.ReadyBytes
  {
    PollUnparsable();
    assert Separator in Wire(React(Ready, s, None).answer);
  }

  class MockAcu {
    var state: AcuState
    var respBuffer: string

    ghost predicate Valid()
      reads this
    {
      Shaped(state)
    }

    /** The state after a reaction: its new state and buffer, or, after an exception, the old ones. */
    ghost predicate Reacted(ok: bool, r: Reaction, state0: AcuState, buffer0: string)
      reads this
    {
      match r
      case Reply(s, a) => ok && state == s && respBuffer == Wire(a)
      case Fault => !ok && state == state0 && respBuffer == buffer0
    }

    ghost predicate Stepped(ok: bool, r: Step, state0: AcuState, buffer0: string)
      reads this
    {
      match r
      case Step(s, buffer) => ok && state == s && respBuffer == buffer
      case Raised => !ok && state == state0 && respBuffer == buffer0
    }

    constructor ()
      ensures state == DefaultState && respBuffer == [] && Valid()
    {
      state := DefaultState;
      respBuffer := [];
    }

    method OnReady(args: Option<seq<Arg>>) returns (ok: bool)
      requires Valid()
      modifies this
      ensures Valid() && Reacted(ok, React(Ready, old(state), args), old(state), old(respBuffer))
    {
      respBuffer := Wire(Answer(Codes.kReady, Some(Num(Codes.ReadyRsp))));
      ok := true;
    }

    method OnFeeRead(args: Option<seq<Arg>>) returns (ok: bool)
      requires Valid()
      modifies this
      ensures Valid() && Reacted(ok, React(FeeRead, old(state), args), old(state), old(respBuffer))
    {
      var i := FirstNum(args);
      if i.None? {
        return false;
      }
      if 0 <= i.value < 4 {
        respBuffer := Wire(Ack(state.fee[i.value]));
      } else {
        respBuffer := Wire(Nak(Codes.FeeRange));
      }
      ok := true;
    }

    method OnFeeWrite(args: Option<seq<Arg>>) returns (ok: bool)
      requires Valid()
      modifies this
      ensures Valid() && Reacted(ok, React(FeeWrite, old(state), args), old(state), old(respBuffer))
    {
      if args.None? {
        respBuffer := Wire(Nak(Codes.DataParseFail));
        return true;
      }
      var i := FirstNum(args);
      if i.None? {
        return false;
      }
      if 0 <= i.value < 4 {
        var level := SecondArg(args.value);
        if level.None? {
          return false;
        }
        state := state.(fee := state.fee[i.value := level.value]);
        respBuffer := Wire(Ack(Num(Codes.FeeWritten)));
      } else {
        respBuffer := Wire(Nak(Codes.FeeRange));
      }
      ok := true;
    }

    method OnFilterRead(args: Option<seq<Arg>>) returns (ok: bool)
      requires Valid()
      modifies this
      ensures Valid() && Reacted(ok, React(FilterRead, old(state), args), old(state), old(respBuffer))
    {
      respBuffer := Wire(Ack(Num(state.filter)));
      ok := true;
    }

    method OnFilterWrite(args: Option<seq<Arg>>) returns (ok: bool)
      requires Valid()
      modifies this
      ensures Valid() && Reacted(ok, React(FilterWrite, old(state), args), old(state), old(respBuffer))
    {
      var i := FirstNum(args);
      if i.None? {
        return false;
      }
      if 0 <= i.value < 4 {
        state := state.(filter := i.value);
        respBuffer := Wire(Ack(Num(Codes.FilterWritten)));
      } else {
        respBuffer := Wire(Nak(Codes.FilterRange));
      }
      ok := true;
    }

    method OnAttenRead(args: Option<seq<Arg>>) returns (ok: bool)
      requires Valid()
      modifies this
      ensures Valid() && Reacted(ok, React(AttenRead, old(state), args), old(state), old(respBuffer))
    {
      if args.None? {
        respBuffer := Wire(Nak(Codes.DataParseFail));
        return true;
      }
      var i := FirstNum(args);
      if i.None? {
        return false;
      }
      if 0 <= i.value < 2 {
        respBuffer := Wire(Ack(state.atten[i.value]));
      } else {
        respBuffer := Wire(Nak(Codes.DataParseFail));
      }
      ok := true;
    }

    method OnAttenWrite(args: Option<seq<Arg>>) returns (ok: bool)
      requires Valid()
      modifies this
      ensures Valid() && Reacted(ok, React(AttenWrite, old(state), args), old(state), old(respBuffer))
    {
      if args.None? {
        respBuffer := Wire(Nak(Codes.DataParseFail));
        return true;
      }
      var i := FirstNum(args);
      if i.None? {
        return false;
      }
      if 0 <= i.value < 2 {
        var level := SecondArg(args.value);
        if level.None? {
          return false;
        }
        state := state.(atten := state.atten[i.value := level.value]);
        respBuffer := Wire(Ack(Num(Codes.AttenWritten)));
      } else {
        respBuffer := Wire(Nak(Codes.DataParseFail));
      }
      ok := true;
    }

    method OnEepromRead(args: Option<seq<Arg>>) returns (ok: bool)
      requires Valid()
      modifies this
      ensures Valid() && Reacted(ok, React(EepromRead, old(state), args), old(state), old(respBuffer))
    {
      respBuffer := Wire(Ack(Num(state.eeprom)));
      ok := true;
    }

    method OnEepromWrite(args: Option<seq<Arg>>) returns (ok: bool)
      requires Valid()
      modifies this
      ensures Valid() && Reacted(ok, React(EepromWrite, old(state), args), old(state), old(respBuffer))
    {
      if args.None? {
        respBuffer := Wire(Nak(Codes.DataParseFail));
        return true;
      }
      var i := FirstNum(args);
      if i.None? {
        return false;
      }
      if 1 <= i.value < 1024 {
        state := state.(eeprom := i.value);
        respBuffer := Wire(Ack(Num(Codes.EepromWritten)));
      } else {
        respBuffer := Wire(Nak(Codes.EepromRange));
      }
      ok := true;
    }

    /** `write(inputstring)`; `ok` is false where Python raises. */
    method Write(input: string) returns (ok: bool)
      requires Valid()
      modifies this
      ensures Valid() && Stepped(ok, Receive(old(state), old(respBuffer), input), old(state), old(respBuffer))
    {
      var m := Unpack(input);
      if m.Err? {
        return false;
      }
      if m.value.code >= MaxCode() {
        return true;
      }
      var h := HandlerFor(m.value.code);
      if h.None? {
        return false;
      }
      var args := m.value.args;
      match h.value
      case Ready => ok := OnReady(args);
      case FeeRead => ok := OnFeeRead(args);
      case FeeWrite => ok := OnFeeWrite(args);
      case FilterRead => ok := OnFilterRead(args);
      case FilterWrite => ok := OnFilterWrite(args);
      case AttenRead => ok := OnAttenRead(args);
      case AttenWrite => ok := OnAttenWrite(args);
      case EepromRead => ok := OnEepromRead(args);
      case EepromWrite => ok := OnEepromWrite(args);
    }

    /** `read(numberOfBytes)`: the reply left by the last handler; the byte count is ignored. */
    method Read() returns (data: string)
      ensures data == respBuffer
    {
      data := respBuffer;
    }
  }
}
