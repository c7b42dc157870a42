/** One tool call: `_invoke` (src/orchestrator/executor.py).  The tool itself is
    an oracle; the record it fills is determined by what the tool did. */
module Invocation {
  import opened OrderedDict
  import opened Manifests
  import opened ToolIndex

  /** What a tool returned: a dict, or anything else by truth value. */
  datatype Returned = DictValue(fields: Payload) | OtherValue(truthy: bool)

  datatype Reply = Returns(value: Returned) | Raises | TimesOut

  const OBSERVED_AT := "observed_at"
  const ERROR := "error"

  function Failed(call: ToolCall, data: Payload, error: Failure, started: real, finished: real, observedAt: real): ToolResult {
    ToolResult(call.subtaskId, call.capability, call.tool, false, data, error, started, finished, observedAt)
  }

  /** The popped timestamp, if it was there and not null. */
  function Stamp(fields: Payload): Option<Value> {
    if OBSERVED_AT in fields && fields[OBSERVED_AT] != Null then Some(fields[OBSERVED_AT]) else None
  }

  /** The record for one call.  `now` is the wall clock used when the tool
      supplies no timestamp.  A truthy value that is not a dict, or a timestamp
      that is no number, makes building the record raise inside the guarded
      block; a falsy value counts as an empty success. */
  function Invoke(call: ToolCall, tool: Option<RegisteredTool>, reply: Reply, started: real, finished: real, now: real): ToolResult {
    if tool.None? then Failed(call, map[], NotRegistered, started, finished, now) else
      match reply
      case Raises => Failed(call, map[], Raised, started, finished, now)
      case TimesOut => Failed(call, map[], TimedOut(tool.value.manifest.timeout), started, finished, now)
      case Returns(OtherValue(truthy)) =>
        if truthy then Failed(call, map[], Raised, started, finished, now)
        else ToolResult(call.subtaskId, call.capability, call.tool, true, map[], NoFailure, started, finished, now)
      case Returns(DictValue(fields)) =>
        var data := fields - {OBSERVED_AT};
        var stamp := Stamp(fields);
        if stamp.Some? && !(stamp.value.Atom? && stamp.value.asTime.Time?) then
          Failed(call, map[], Raised, started, finished, now)
        else
          var observedAt := if stamp.Some? && stamp.value.Atom? && stamp.value.asTime.Time? then stamp.value.asTime.at else now;
          if ERROR in data then Failed(call, data, ErrorPayload(data[ERROR]), started, finished, observedAt)
          else ToolResult(call.subtaskId, call.capability, call.tool, true, data, NoFailure, started, finished, observedAt)
  }

  /** r is a record of this call: the one made of this tool and reply at some
      clock readings. */
  predicate Fills(call: ToolCall, tool: Option<RegisteredTool>, reply: Reply, r: ToolResult) {
    r == Invoke(call, tool, reply, r.startedAt, r.finishedAt, r.observedAt)
  }

  /** A reply the record type accepts as a success. */
  predicate GoodReply(reply: Reply) {
    reply.Returns? &&
    match reply.value
    case OtherValue(truthy) => !truthy
    case DictValue(fields) =>
      ERROR !in fields && (Stamp(fields).Some? ==> Stamp(fields).value.Atom? && Stamp(fields).value.asTime.Time?)
  }

  /** A dict whose timestamp, if any, is a number. */
  predicate UsableDict(reply: Reply) {
    reply.Returns? && reply.value.DictValue? &&
    (Stamp(reply.value.fields).Some? ==> Stamp(reply.value.fields).value.Atom? && Stamp(reply.value.fields).value.asTime.Time?)
  }

  /** The timestamp a tool supplied with a usable dict. */
  function OwnTime(tool: Option<RegisteredTool>, reply: Reply): Option<real> {
    if tool.Some? && UsableDict(reply) && Stamp(reply.value.fields).Some? then Some(Stamp(reply.value.fields).value.asTime.at) else None
  }

  /** The tool's own timestamp, or the wall clock. */
  function ObservedAt(reply: Reply, now: real): real
    requires UsableDict(reply)
  {
    if Stamp(reply.value.fields).Some? then Stamp(reply.value.fields).value.asTime.at else now
  }

  /** Fault isolation for one call: whatever the tool does, there is a record
      for this very call; each kind of outcome occurs exactly for the replies
      that call for it; payload and timestamp are the tool's where it supplied a
      usable dict and empty and the clock's otherwise; and apart from the clock
      the record depends on nothing else. */
  lemma InvokeMeaning(call: ToolCall, tool: Option<RegisteredTool>, reply: Reply, started: real, finished: real, now: real)
    ensures var r := Invoke(call, tool, reply, started, finished, now);
            && r.subtaskId == call.subtaskId && r.capability == call.capability && r.tool == call.tool
            && r.startedAt == started && r.finishedAt == finished
            && (r.ok <==> tool.Some? && GoodReply(reply))
            && (r.ok <==> r.error == NoFailure)
            && (r.error == NotRegistered <==> tool.None?)
            && (r.error.TimedOut? <==> tool.Some? && reply.TimesOut?)
            && (r.error.TimedOut? ==> r.error.limit == tool.value.manifest.timeout)
            && (r.error.ErrorPayload? <==> tool.Some? && UsableDict(reply) && "error" in reply.value.fields)
            && (r.error.ErrorPayload? ==> r.error.error == reply.value.fields["error"])
            && (r.error == Raised <==>
                  tool.Some? && (reply.Raises? || (reply.Returns? && !UsableDict(reply) && reply.value != OtherValue(false))))
            && (if tool.Some? && UsableDict(reply)
                then r.data == reply.value.fields - {"observed_at"} && r.observedAt == ObservedAt(reply, now)
                else r.data == map[] && r.observedAt == now)
            && Fills(call, tool, reply, r)
  {
  }

  /** The payload a successful reply delivers. */
  function Delivered(reply: Reply): Payload
    requires GoodReply(reply)
  {
    if reply.value.DictValue? then reply.value.fields - {OBSERVED_AT} else map[]
  }

  /** What a record says of the call it records: whatever the clocks, it is ok
      exactly when the tool was there and its reply good, and then it holds the
      payload the reply delivered; and a timestamp the tool supplied is the one
      on record. */
  lemma FillsMeaning(call: ToolCall, tool: Option<RegisteredTool>, reply: Reply, r: ToolResult)
    requires Fills(call, tool, reply, r)
    ensures r.subtaskId == call.subtaskId && r.capability == call.capability && r.tool == call.tool
    ensures r.ok <==> tool.Some? && GoodReply(reply)
    ensures r.ok <==> r.error == NoFailure
    ensures r.ok ==> r.data == Delivered(reply)
    ensures OwnTime(tool, reply).Some? ==> r.observedAt == OwnTime(tool, reply).value
  {
  }

  /** The two records differ at most in clock readings; a timestamp the tool
      itself supplied is none. */
  predicate SameButForClocks(r1: ToolResult, r2: ToolResult, own: Option<real>) {
    && r1.subtaskId == r2.subtaskId && r1.capability == r2.capability && r1.tool == r2.tool
    && r1.ok == r2.ok && r1.data == r2.data && r1.error == r2.error
    && (own.Some? ==> r1.observedAt == r2.observedAt)
  }

  lemma FilledAlike(call: ToolCall, tool: Option<RegisteredTool>, reply: Reply, r1: ToolResult, r2: ToolResult)
    requires Fills(call, tool, reply, r1) && Fills(call, tool, reply, r2)
    ensures SameButForClocks(r1, r2, OwnTime(tool, reply))
  {
  }

  // ----- The dict the tool returned is popped in place

  class JsonDict {
    var fields: Payload

    constructor (fields: Payload)
      ensures this.fields == fields
    {
      this.fields := fields;
    }
  }

  datatype RawReply = RawDict(dict: JsonDict) | RawOther(truthy: bool) | RawRaises | RawTimesOut

  ghost function Seen(raw: RawReply): Reply
    reads if raw.RawDict? then {raw.dict} else {}
  {
    match raw
    case RawDict(d) => Returns(DictValue(d.fields))
    case RawOther(truthy) => Returns(OtherValue(truthy))
    case RawRaises => Raises
    case RawTimesOut => TimesOut
  }

  method InvokeTool(call: ToolCall, tools: Tools, raw: RawReply, started: real, finished: real, now: real) returns (r: ToolResult)
    modifies if raw.RawDict? then {raw.dict} else {}
    ensures r == Invoke(call, tools.Get(call.tool), old(Seen(raw)), started, finished, now)
    ensures raw.RawDict? && call.tool in tools.vals ==> raw.dict.fields == old(raw.dict.fields) - {OBSERVED_AT}
    ensures raw.RawDict? && call.tool !in tools.vals ==> raw.dict.fields == old(raw.dict.fields)
  {
    var tool := tools.Get(call.tool);
    if tool.None? {
      return Failed(call, map[], NotRegistered, started, finished, now);
    }
    match raw {
      case RawRaises =>
        r := Failed(call, map[], Raised, started, finished, now);
      case RawTimesOut =>
        r := Failed(call, map[], TimedOut(tool.value.manifest.timeout), started, finished, now);
      case RawOther(truthy) =>
        r := if truthy then Failed(call, map[], Raised, started, finished, now)
             else ToolResult(call.subtaskId, call.capability, call.tool, true, map[], NoFailure, started, finished, now);
      case RawDict(d) =>
        var observedAt := now;
        var usable := true;
        if OBSERVED_AT in d.fields {
          match d.fields[OBSERVED_AT] {
            case Null =>
            case Atom(_, Time(at)) => observedAt := at;
            case Atom(_, NotATime) => usable := false;
          }
          d.fields := d.fields - {OBSERVED_AT};
        }
        assert d.fields == old(d.fields) - {OBSERVED_AT};
        if !usable {
          r := Failed(call, map[], Raised, started, finished, now);
        } else if ERROR in d.fields {
          r := Failed(call, d.fields, ErrorPayload(d.fields[ERROR]), started, finished, observedAt);
        } else {
          r := ToolResult(call.subtaskId, call.capability, call.tool, true, d.fields, NoFailure, started, finished, observedAt);
        }
    }
  }

  /** A tool that hands out one dict for two calls: the second call sees what the
      first has left of the dict, so a timestamp counts only the first time, and
      one that is no number fails the first call but not the second. */
  method InvokeTwice(call1: ToolCall, call2: ToolCall, tools: Tools, dict: JsonDict, now1: real, now2: real)
    returns (first: ToolResult, second: ToolResult)
    requires call1.tool in tools.vals && call2.tool in tools.vals
    modifies dict
    ensures first == Invoke(call1, tools.Get(call1.tool), Returns(DictValue(old(dict.fields))), 0.0, 0.0, now1)
    ensures second == Invoke(call2, tools.Get(call2.tool), Returns(DictValue(old(dict.fields) - {"observed_at"})), 0.0, 0.0, now2)
    ensures dict.fields == old(dict.fields) - {"observed_at"}
    ensures first.ok <==> "error" !in old(dict.fields) && UsableDict(Returns(DictValue(old(dict.fields))))
    ensures second.ok <==> "error" !in old(dict.fields)
    ensures second.data == old(dict.fields) - {"observed_at"} && second.observedAt == now2
    ensures if UsableDict(Returns(DictValue(old(dict.fields))))
            then first.data == second.data && first.observedAt == ObservedAt(Returns(DictValue(old(dict.fields))), now1)
            else first.data == map[] && first.error == Raised
  {
    assert dict.fields - {OBSERVED_AT} - {OBSERVED_AT} == dict.fields - {OBSERVED_AT};
    first := InvokeTool(call1, tools, RawDict(dict), 0.0, 0.0, now1);
    second := InvokeTool(call2, tools, RawDict(dict), 0.0, 0.0, now2);
  }

  /** So the second call reads the same as a dict of its own would have exactly
      when the dict carried no timestamp, or a number equal to the clock. */
  lemma SharedDictLosesItsTimestamp(call: ToolCall, tool: RegisteredTool, fields: Payload, now: real)
    ensures var shared := Invoke(call, Some(tool), Returns(DictValue(fields - {OBSERVED_AT})), 0.0, 0.0, now);
            var own := Invoke(call, Some(tool), Returns(DictValue(fields)), 0.0, 0.0, now);
            shared == own <==> Stamp(fields).None? || OwnTime(Some(tool), Returns(DictValue(fields))) == Some(now)
  {
    assert fields - {OBSERVED_AT} - {OBSERVED_AT} == fields - {OBSERVED_AT};
  }

  function OneTool(): Tools {
    Empty().Put("a", RegisteredTool(ToolManifest("a", "", ["c"], Read, 1, 10.0, map[]), 0))
  }

  /** A tool that reports data from time 1 is recorded as fresh at its second
      call. */
  method StaleDataLooksFresh() returns (first: ToolResult, second: ToolResult)
    ensures first.ok && second.ok && first.data == second.data
    ensures first.observedAt == 1.0 && second.observedAt == 100.0
  {
    var call := ToolCall("t", "c", "a", map[]);
    var dict := new JsonDict(map["observed_at" := Atom(0, Time(1.0)), "temp" := Atom(1, NotATime)]);
    assert Stamp(dict.fields) == Some(Atom(0, Time(1.0)));
    first, second := InvokeTwice(call, call, OneTool(), dict, 100.0, 100.0);
  }

  /** A tool that returns one dict with a malformed timestamp fails its first
      call and succeeds with its second. */
  method SecondCallForgives() returns (first: ToolResult, second: ToolResult)
    ensures first.error == Raised && first.data == map[]
    ensures second.ok && second.data == map["temp" := Atom(1, NotATime)]
  {
    var call := ToolCall("t", "c", "a", map[]);
    var dict := new JsonDict(map["observed_at" := Atom(0, NotATime), "temp" := Atom(1, NotATime)]);
    assert Stamp(dict.fields) == Some(Atom(0, NotATime));
    assert dict.fields - {OBSERVED_AT} == map["temp" := Atom(1, NotATime)];
    first, second := InvokeTwice(call, call, OneTool(), dict, 100.0, 100.0);
  }
}
