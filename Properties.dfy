/**
 * The property setters and getters of `ARX`, `roach` and `write_flash`
 * (ARXControl/arx.py), as functions over the state of the link.
 *
 * Each setter first validates its argument. `CheckedWrite` and `PowerPlan`
 * say which write commands it then issues, in order, and whether a ValueError
 * follows them; `Run` issues them through `_send` (`Sender.Call`). The getters
 * are one call each, or one per FEE channel, reading the first argument of the
 * payload as an integer.
 */
module Properties {
  import opened Wrappers
  import opened Codec
  import opened Sender
  import opened Session
  import Codes

  // ---------------------------------------------------------------------------
  // validators

  /** Python's `int()` of a float: truncation toward zero. */
  function Trunc(x: real): (n: int)
    ensures x >= 0.0 ==> n as real <= x < n as real + 1.0
    ensures x < 0.0 ==> n as real - 1.0 < x <= n as real
  {
    if x >= 0.0 then x.Floor else -((-x).Floor)
  }

  /** `value == int(value)`. */
  predicate Integral(x: real)
  {
    x == Trunc(x) as real
  }

  /** What a setter does: the write commands it issues, in order, and the ValueError raised after them, if any. */
  datatype Plan = Plan(writes: seq<Request>, fault: Option<Rejection>)

  /**
   * The guard shared by the `filter`, `atten0`, `atten1` and `eeprom_offset`
   * setters: a range test `0 <= value <= hi`, then an integrality test, then one
   * write command whose last argument is the value.
   */
  function CheckedWrite(v: real, hi: real, code: int, prefix: seq<int>): (p: Plan)
    requires |prefix| <= 1
    ensures p.fault.None? <==> 0.0 <= v <= hi && Integral(v)
    ensures p.fault == Some(OutOfRange) <==> !(0.0 <= v <= hi)
    ensures p.fault.Some? ==> p.writes == [] && p.fault.value in {OutOfRange, NotIntegral}
    ensures p.fault.None? ==>
      p.writes == [Request(code, prefix + [Trunc(v)])] && p.writes[0].args[|prefix|] as real == v
  {
    if !(0.0 <= v <= hi) then Plan([], Some(OutOfRange))
    else if !Integral(v) then Plan([], Some(NotIntegral))
    else Plan([Request(code, prefix + [Trunc(v)])], None)
  }

  /** The `filter` setter: 0..2. */
  function FilterPlan(v: real): (p: Plan)
    ensures p.fault.None? <==> v in {0.0, 1.0, 2.0}
    ensures p.fault.None? ==> p.writes == [Request(Codes.FilterWrite, [Trunc(v)])]
    ensures p.fault.Some? ==> p.writes == []
  {
    assert [] + [Trunc(v)] == [Trunc(v)];
    CheckedWrite(v, 2.0, Codes.FilterWrite, [])
  }

  /** The `atten0` and `atten1` setters: 0..15, the attenuator index first. */
  function AttenPlan(which: nat, v: real): (p: Plan)
    requires which <= 1
    ensures p.fault.None? <==> 0.0 <= v <= 15.0 && Integral(v)
    ensures p.fault.None? ==> p.writes == [Request(Codes.AttenWrite, [which, Trunc(v)])] && 0 <= Trunc(v) <= 15
    ensures p.fault.Some? ==> p.writes == []
  {
    assert [which] + [Trunc(v)] == [which, Trunc(v)];
    CheckedWrite(v, 15.0, Codes.AttenWrite, [which])
  }

  /** The `eeprom_offset` setter: 0 up to the bound `EEPROM_SIZE / FLASH_SIZE`. */
  function EepromPlan(v: real, limit: real): (p: Plan)
    ensures p.fault.None? <==> 0.0 <= v <= limit && Integral(v)
    ensures p.fault.None? ==> p.writes == [Request(Codes.EepromWrite, [Trunc(v)])] && Trunc(v) >= 0
    ensures p.fault.Some? ==> p.writes == []
  {
    assert [] + [Trunc(v)] == [Trunc(v)];
    CheckedWrite(v, limit, Codes.EepromWrite, [])
  }

  /** The filter and attenuator setters differ only in their range, and agree where both accept. */
  lemma FilterAndAttenDifferOnlyInRange(v: real, which: nat)
    requires which <= 1
    ensures FilterPlan(v).fault.None? <==> AttenPlan(which, v).fault.None? && v <= 2.0
    ensures FilterPlan(v).fault.None? ==>
      FilterPlan(v).writes[0].args[0] == AttenPlan(which, v).writes[0].args[1]
    ensures 2.0 < v <= 15.0 && Integral(v) ==> FilterPlan(v).fault == Some(OutOfRange) && AttenPlan(which, v).fault.None?
  {
  }

  /** A value of the `power` setter: a Python number, or a string `int()` may parse. */
  datatype PyValue = Number(x: real) | Str(s: string)

  /** `int(v)`, with `None` where Python raises ValueError. */
  function PyInt(v: PyValue): Option<int>
  {
    match v
    case Number(x) => Some(Trunc(x))
    case Str(s) => ParseInt(s)
  }

  /**
   * The argument of the `power` setter: an object without `__iter__` (a number)
   * or a list, whose items the setter converts with `int()` in place.
   */
  datatype PowerInput = Single(x: real) | Many(items: seq<PyValue>)

  predicate Binary(v: PyValue)
  {
    PyInt(v) == Some(0) || PyInt(v) == Some(1)
  }

  function Level(v: PyValue): int
    requires Binary(v)
  {
    PyInt(v).value
  }

  /** The FEE_WRITE commands for channels 0, 1, ... with the given levels. */
  function FeeWrites(levels: seq<int>): (reqs: seq<Request>)
    ensures |reqs| == |levels|
    ensures forall k :: 0 <= k < |levels| ==> reqs[k] == Request(Codes.FeeWrite, [k, levels[k]])
  {
    if levels == [] then []
    else FeeWrites(levels[..|levels| - 1]) + [Request(Codes.FeeWrite, [|levels| - 1, levels[|levels| - 1]])]
  }

  /** The levels of a run of binary values. */
  function Levels(items: seq<PyValue>): (levels: seq<int>)
    requires forall k :: 0 <= k < |items| ==> Binary(items[k])
    ensures |levels| == |items|
    ensures forall k :: 0 <= k < |items| ==> levels[k] == Level(items[k])
  {
    if items == [] then [] else Levels(items[..|items| - 1]) + [Level(items[|items| - 1])]
  }

  /** The index of the first element that is not 0/1 after `int()`, or the length when there is none. */
  function FirstBad(items: seq<PyValue>): (b: nat)
    ensures b <= |items|
    ensures forall k :: 0 <= k < b ==> Binary(items[k])
    ensures b < |items| ==> !Binary(items[b])
  {
    if items == [] || !Binary(items[0]) then 0 else 1 + FirstBad(items[1..])
  }

  /** Why element `v` is refused: `int()` fails, or gives something other than 0/1. */
  function Refusal(v: PyValue): Rejection
  {
    if PyInt(v).None? then NotANumber else NotBinary
  }

  /**
   * The `power` setter. A number is truncated and, when 0 or 1, written to the
   * four channels in order; an iterable must have four elements, which are
   * converted and written one channel at a time, so a bad element raises after
   * the channels before it were written.
   */
  function PowerPlan(p: PowerInput): (r: Plan)
    ensures |r.writes| <= 4 && (r.fault.None? ==> |r.writes| == 4)
    ensures forall k :: 0 <= k < |r.writes| ==>
      r.writes[k].code == Codes.FeeWrite && |r.writes[k].args| == 2 && r.writes[k].args[0] == k && r.writes[k].args[1] in {0, 1}
  {
    match p
    case Single(x) =>
      var n := Trunc(x);
      if n == 0 || n == 1 then Plan(FeeWrites([n, n, n, n]), None) else Plan([], Some(NotBinary))
    case Many(items) =>
      if |items| != 4 then Plan([], Some(NotFourValues))
      else
        var b := FirstBad(items);
        Plan(FeeWrites(Levels(items[..b])), if b < 4 then Some(Refusal(items[b])) else None)
  }

  /** A scalar power value writes all four channels, in channel order, with one level, or nothing at all. */
  lemma PowerScalar(x: real)
    ensures PowerPlan(Single(x)).fault.None? <==> Trunc(x) == 0 || Trunc(x) == 1
    ensures PowerPlan(Single(x)).fault.None? ==>
      PowerPlan(Single(x)).writes == [Request(Codes.FeeWrite, [0, Trunc(x)]), Request(Codes.FeeWrite, [1, Trunc(x)]),
                                      Request(Codes.FeeWrite, [2, Trunc(x)]), Request(Codes.FeeWrite, [3, Trunc(x)])]
    ensures PowerPlan(Single(x)).fault.Some? ==> PowerPlan(Single(x)).writes == []
  {
  }

  /**
   * An iterable power value of length 4 writes channels 0.. in order up to its
   * first bad element and raises there, without undoing the earlier writes; any
   * other length raises before anything is written.
   */
  lemma PowerIterable(items: seq<PyValue>, i: nat)
    requires |items| == 4 && i < 4
    requires forall k :: 0 <= k < i ==> Binary(items[k])
    requires !Binary(items[i])
    ensures PowerPlan(Many(items)).fault == Some(Refusal(items[i]))
    ensures |PowerPlan(Many(items)).writes| == i
    ensures forall k :: 0 <= k < i ==> PowerPlan(Many(items)).writes[k] == Request(Codes.FeeWrite, [k, PyInt(items[k]).value])
  {
    assert FirstBad(items) == i;
  }

  /** Four binary values are all written, each to its own channel. */
  lemma PowerIterableAllBinary(items: seq<PyValue>)
    requires |items| == 4
    requires forall k :: 0 <= k < 4 ==> Binary(items[k])
    ensures PowerPlan(Many(items)).fault.None?
    ensures PowerPlan(Many(items)).writes == FeeWrites([PyInt(items[0]).value, PyInt(items[1]).value, PyInt(items[2]).value, PyInt(items[3]).value])
  {
    assert FirstBad(items) == 4;
    assert items[..4] == items;
  }

  /** Element `i` of an iterable whose elements before it are binary: written next when binary, otherwise where the setter stops. */
  lemma PowerIterableAt(items: seq<PyValue>, i: nat)
    requires |items| == 4 && i < 4
    requires i <= FirstBad(items)
    ensures Binary(items[i]) ==> i < |PowerPlan(Many(items)).writes| && PowerPlan(Many(items)).writes[i] == Request(Codes.FeeWrite, [i, PyInt(items[i]).value])
    ensures !Binary(items[i]) ==> i == |PowerPlan(Many(items)).writes| && PowerPlan(Many(items)).fault == Some(Refusal(items[i]))
  {
  }

  /** An iterable of any length but four raises before writing anything. */
  lemma PowerIterableWrongLength(items: seq<PyValue>)
    requires |items| != 4
    ensures PowerPlan(Many(items)) == Plan([], Some(NotFourValues))
  {
  }

  // ---------------------------------------------------------------------------
  // chains of calls

  /** The error a chain of calls ended with, if any, and the link afterwards. */
  datatype Effect = Effect(error: Option<ArxError>, link: Link)

  /** Calls `_send` once per request, in order, stopping at the first exception. */
  function SendAll(classify: Classifier, l: Link, reqs: seq<Request>): Effect
    decreases |reqs|
  {
    if reqs == [] then Effect(None, l)
    else
      var o := Call(classify, l, reqs[0]);
      if o.result.Err? then Effect(Some(o.result.error), o.link) else SendAll(classify, o.link, reqs[1..])
  }

  /** A setter: its write commands, then its ValueError if the writes all went through. */
  function Run(classify: Classifier, l: Link, p: Plan): (e: Effect)
    ensures p.writes == [] ==> e.link == l && e.error == if p.fault.Some? then Some(ValueError(p.fault.value)) else None
  {
    var e := SendAll(classify, l, p.writes);
    if e.error.Some? || p.fault.None? then e else Effect(Some(ValueError(p.fault.value)), e.link)
  }

  /** The first write of a setter: its exception ends the setter, otherwise the rest of the setter follows on the new link. */
  lemma RunStep(classify: Classifier, l: Link, writes: seq<Request>, fault: Option<Rejection>)
    requires writes != []
    ensures var o := Call(classify, l, writes[0]);
      Run(classify, l, Plan(writes, fault)) ==
        if o.result.Err? then Effect(Some(o.result.error), o.link) else Run(classify, o.link, Plan(writes[1..], fault))
  {
  }

  /** A refused value leaves the link exactly as it was: nothing is written and no reply is consumed. */
  lemma RejectedSendsNothing(classify: Classifier, l: Link, v: real, hi: real, code: int, prefix: seq<int>)
    requires |prefix| <= 1
    requires !(0.0 <= v <= hi && Integral(v))
    ensures Run(classify, l, CheckedWrite(v, hi, code, prefix)).link == l
    ensures Run(classify, l, CheckedWrite(v, hi, code, prefix)).error.Some?
    ensures Run(classify, l, CheckedWrite(v, hi, code, prefix)).error.value.ValueError?
  {
  }

  /** An accepted value costs exactly one call of `_send`, whose outcome is the setter's. */
  lemma AcceptedSendsOnce(classify: Classifier, l: Link, v: real, hi: real, code: int, prefix: seq<int>)
    requires |prefix| <= 1
    requires 0.0 <= v <= hi && Integral(v)
    ensures var o := Call(classify, l, Request(code, prefix + [Trunc(v)]));
      Run(classify, l, CheckedWrite(v, hi, code, prefix)) == Effect(if o.result.Err? then Some(o.result.error) else None, o.link)
  {
    var p := CheckedWrite(v, hi, code, prefix);
    var o := Call(classify, l, p.writes[0]);
    assert p.writes[1..] == [];
    assert SendAll(classify, o.link, []) == Effect(None, o.link);
  }

  /** With the acknowledgement test as written, even an accepted value makes the setter raise. */
  lemma AsWrittenSettersRaise(l: Link, v: real, hi: real, code: int, prefix: seq<int>)
    requires |prefix| <= 1
    ensures Run(ClassifyAsWritten, l, CheckedWrite(v, hi, code, prefix)).error.Some?
  {
    if 0.0 <= v <= hi && Integral(v) {
      AcceptedSendsOnce(ClassifyAsWritten, l, v, hi, code, prefix);
      AsWrittenEveryCallRaises(l, MakeCmd(Request(code, prefix + [Trunc(v)])));
    }
  }

  // ---------------------------------------------------------------------------
  // getters

  /** `int(resp[0])`: the first argument of a payload, which must be an integer. */
  function FirstInt(resp: Option<seq<Arg>>): (r: Result<int, ArxError>)
    ensures r.Ok? <==> resp.Some? && |resp.value| > 0 && resp.value[0].Num?
    ensures r.Ok? ==> r.value == resp.value[0].n
    ensures r.Err? ==> r.error == BadResponse(resp)
  {
    if resp.Some? && |resp.value| > 0 && resp.value[0].Num? then Ok(resp.value[0].n) else Err(BadResponse(resp))
  }

  datatype Reading = Reading(result: Result<int, ArxError>, link: Link)

  /**
   * A getter: one call of `_send`, and the first argument of its payload as an
   * integer. It returns an integer exactly when `_send` returned a payload whose
   * first argument is one, and then it is that argument; an exception of `_send`
   * passes through, and any other payload is a bad response.
   */
  function Query(classify: Classifier, l: Link, req: Request): (r: Reading)
    ensures var o := Call(classify, l, req);
      && r.link == o.link
      && (r.result.Ok? <==> o.result.Ok? && o.result.value.Some? && |o.result.value.value| > 0 && o.result.value.value[0].Num?)
      && (r.result.Ok? ==> o.result.value.value[0] == Num(r.result.value))
      && (o.result.Err? ==> r.result == Err(o.result.error))
      && (o.result.Ok? && r.result.Err? ==> r.result == Err(BadResponse(o.result.value)))
  {
    var o := Call(classify, l, req);
    if o.result.Err? then Reading(Err(o.result.error), o.link) else Reading(FirstInt(o.result.value), o.link)
  }

  /**
   * A getter reads back the integer the unit acknowledges with
   * (`_build_resp(kACK, n)`), when the unit is ready at the first poll.
   */
  lemma QueryReadsBack(l: Link, req: Request, n: int, rest: seq<string>)
    requires l.failures < MaxRetries
    requires l.inbox == [ReadyBytes, BuildResp(Codes.kAck, Some(Num(n)))] + rest
    ensures Query(Classify, l, req) == Reading(Ok(n), Link(0, rest, l.sent + [CheckReadyBytes, MakeCmd(req)]))
  {
    ClassifyBuildResp(Codes.kAck, Some(n));
    CallAcked(Classify, l, req, BuildResp(Codes.kAck, Some(Num(n))), rest);
  }

  datatype Readings = Readings(result: Result<seq<int>, ArxError>, link: Link)

  /** The replies of a unit that is ready at every first poll and acknowledges the readings with `ns`, in order. */
  function AckedReadings(ns: seq<int>): (replies: seq<string>)
    ensures |replies| == 2 * |ns|
  {
    if ns == [] then [] else [ReadyBytes, BuildResp(Codes.kAck, Some(Num(ns[0])))] + AckedReadings(ns[1..])
  }

  /** What a run of getters answered at once writes: one poll and one command per request. */
  function PollsAndCommands(reqs: seq<Request>): (sent: seq<string>)
    ensures |sent| == 2 * |reqs|
  {
    if reqs == [] then [] else [CheckReadyBytes, MakeCmd(reqs[0])] + PollsAndCommands(reqs[1..])
  }

  /** Several getter calls in order, collecting their integers and stopping at the first exception. */
  function QueryAll(classify: Classifier, l: Link, reqs: seq<Request>): (r: Readings)
    ensures r.result.Ok? ==> |r.result.value| == |reqs|
    decreases |reqs|
  {
    if reqs == [] then Readings(Ok([]), l)
    else
      var q := Query(classify, l, reqs[0]);
      if q.result.Err? then Readings(Err(q.result.error), q.link)
      else
        var rest := QueryAll(classify, q.link, reqs[1..]);
        if rest.result.Err? then rest else Readings(Ok([q.result.value] + rest.result.value), rest.link)
  }

  /** Readings collected so far, in front of the readings still to come. */
  function Prefixed(out: seq<int>, rest: Readings): (r: Readings)
    ensures r.link == rest.link && r.result.Ok? == rest.result.Ok?
    ensures r.result.Ok? ==> r.result.value == out + rest.result.value
  {
    if rest.result.Ok? then Readings(Ok(out + rest.result.value), rest.link) else rest
  }

  lemma PrefixedNothing(rest: Readings)
    ensures Prefixed([], rest) == rest
  {
    if rest.result.Ok? {
      assert [] + rest.result.value == rest.result.value;
    }
  }

  /** One more getter call: its integer joins the readings so far, or its exception ends the run. */
  lemma QueryAllStep(classify: Classifier, l: Link, reqs: seq<Request>, out: seq<int>)
    requires reqs != []
    ensures var q := Query(classify, l, reqs[0]);
      Prefixed(out, QueryAll(classify, l, reqs)) ==
        if q.result.Err? then Readings(Err(q.result.error), q.link)
        else Prefixed(out + [q.result.value], QueryAll(classify, q.link, reqs[1..]))
  {
    var q := Query(classify, l, reqs[0]);
    if q.result.Ok? {
      var rest := QueryAll(classify, q.link, reqs[1..]);
      if rest.result.Ok? {
        assert out + ([q.result.value] + rest.result.value) == (out + [q.result.value]) + rest.result.value;
      }
    }
  }

  /** The FEE_READ commands for channels 0 .. n-1. */
  function FeeReads(n: nat): (reqs: seq<Request>)
    ensures |reqs| == n
    ensures forall k :: 0 <= k < n ==> reqs[k] == Request(Codes.FeeRead, [k])
  {
    if n == 0 then [] else FeeReads(n - 1) + [Request(Codes.FeeRead, [n - 1])]
  }

  /**
   * A run of getters against a unit that is ready at every first poll and
   * acknowledges each reading with an integer returns those integers in order,
   * having written one poll and one command per request.
   */
  lemma {:induction false} QueryAllReadsBack(l: Link, reqs: seq<Request>, ns: seq<int>, rest: seq<string>)
    requires |ns| == |reqs| && l.failures < MaxRetries
    requires l.inbox == AckedReadings(ns) + rest
    ensures var r := QueryAll(Classify, l, reqs);
      r.result == Ok(ns) && r.link.inbox == rest && r.link.sent == l.sent + PollsAndCommands(reqs)
      && r.link.failures == if reqs == [] then l.failures else 0
    decreases |reqs|
  {
    if reqs == [] {
      assert AckedReadings(ns) + rest == rest;
      assert l.sent + PollsAndCommands(reqs) == l.sent;
    } else {
      var later := AckedReadings(ns[1..]) + rest;
      AckedReadingsCons(ns, rest);
      QueryReadsBack(l, reqs[0], ns[0], later);
      var m := Link(0, later, l.sent + [CheckReadyBytes, MakeCmd(reqs[0])]);
      QueryAllReadsBack(m, reqs[1..], ns[1..], rest);
      QueryAllStep(Classify, l, reqs, []);
      PrefixedNothing(QueryAll(Classify, l, reqs));
      HeadTail(ns);
      PollsAndCommandsCons(l.sent, reqs);
    }
  }

  lemma AckedReadingsCons(ns: seq<int>, rest: seq<string>)
    requires ns != []
    ensures AckedReadings(ns) + rest == [ReadyBytes, BuildResp(Codes.kAck, Some(Num(ns[0])))] + (AckedReadings(ns[1..]) + rest)
  {
  }

  lemma PollsAndCommandsCons(sent: seq<string>, reqs: seq<Request>)
    requires reqs != []
    ensures sent + [CheckReadyBytes, MakeCmd(reqs[0])] + PollsAndCommands(reqs[1..]) == sent + PollsAndCommands(reqs)
  {
  }

  lemma HeadTail(ns: seq<int>)
    requires ns != []
    ensures [] + [ns[0]] + ns[1..] == ns
  {
  }

  /** The `power` getter reads the four FEE levels a unit acknowledges, channel by channel. */
  lemma PowerReadsBack(l: Link, levels: seq<int>, rest: seq<string>)
    requires |levels| == 4 && l.failures < MaxRetries
    requires l.inbox == AckedReadings(levels) + rest
    ensures QueryAll(Classify, l, FeeReads(4)).result == Ok(levels)
  {
    QueryAllReadsBack(l, FeeReads(4), levels, rest);
  }

  // ---------------------------------------------------------------------------
  // roach and write_flash

  datatype RoachResult = RoachResult(result: Result<Option<int>, ArxError>, link: Link)

  /**
   * `roach(state)`: outside 0..1 a ValueError and nothing sent; otherwise one
   * ROACH_WRITE, and `state` is returned only when the payload's first argument
   * is ROACH_WRITTEN (a payload with no first argument cannot be indexed).
   */
  function Roach(classify: Classifier, l: Link, state: int): (r: RoachResult)
    ensures !(0 <= state <= 1) ==> r == RoachResult(Err(ValueError(OutOfRange)), l)
    ensures 0 <= state <= 1 ==>
      var o := Call(classify, l, Request(Codes.RoachWrite, [state]));
      && r.link == o.link
      && (o.result.Err? ==> r.result == Err(o.result.error))
      && (o.result.Ok? && (o.result.value.None? || |o.result.value.value| == 0) ==>
            r.result == Err(BadResponse(o.result.value)))
      && (o.result.Ok? && o.result.value.Some? && |o.result.value.value| > 0 ==>
            (r.result == Ok(Some(state)) <==> o.result.value.value[0] == Num(Codes.RoachWritten))
            && (r.result == Ok(None) <==> o.result.value.value[0] != Num(Codes.RoachWritten)))
    ensures r.result.Ok? && r.result.value.Some? ==> r.result.value.value == state
  {
    if !(0 <= state <= 1) then RoachResult(Err(ValueError(OutOfRange)), l)
    else
      var o := Call(classify, l, Request(Codes.RoachWrite, [state]));
      if o.result.Err? then RoachResult(Err(o.result.error), o.link)
      else if o.result.value.None? || |o.result.value.value| == 0 then RoachResult(Err(BadResponse(o.result.value)), o.link)
      else if o.result.value.value[0] == Num(Codes.RoachWritten) then RoachResult(Ok(Some(state)), o.link)
      else RoachResult(Ok(None), o.link)
  }

  datatype Flag = Flag(result: Result<bool, ArxError>, link: Link)

  /** `write_flash()`: one FLASH_WRITE; true whenever `_send` returns. */
  function WriteFlash(classify: Classifier, l: Link): (r: Flag)
    ensures r.link == Call(classify, l, Request(Codes.FlashWrite, [])).link
    ensures r.result.Ok? <==> Call(classify, l, Request(Codes.FlashWrite, [])).result.Ok?
    ensures r.result.Ok? ==> r.result.value
  {
    var o := Call(classify, l, Request(Codes.FlashWrite, []));
    if o.result.Err? then Flag(Err(o.result.error), o.link) else Flag(Ok(true), o.link)
  }
}
