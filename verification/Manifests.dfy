/** The records that travel through the pipeline (src/orchestrator/manifests.py).
    Times are exact reals; free-text rationales are dropped. */
module Manifests {

  datatype Scope = Read | Write | Network

  datatype ToolManifest = ToolManifest(
    name: string, description: string, capabilities: seq<string>, scope: Scope,
    priority: int, timeout: real, paramSchema: map<string, string>)

  datatype RegisteredTool = RegisteredTool(manifest: ToolManifest, fn: nat)

  /** A payload value: `token` stands for its equality class, `asTime` for the
      float that record validation would make of it, if any. */
  datatype Value = Null | Atom(token: nat, asTime: TimeReading)
  datatype TimeReading = NotATime | Time(at: real)

  type Payload = map<string, Value>

  datatype Subtask = Subtask(id: string, capability: string, args: Payload, dependsOn: seq<string>)

  datatype Plan = Plan(subtasks: seq<Subtask>, notes: string)

  datatype Denial = Denial(subtaskId: string, capability: string, tool: string, scopeRequired: Scope)

  datatype ToolCall = ToolCall(subtaskId: string, capability: string, tool: string, args: Payload)

  datatype Failure = NoFailure | NotRegistered | ErrorPayload(error: Value) | TimedOut(limit: real) | Raised

  datatype ToolResult = ToolResult(
    subtaskId: string, capability: string, tool: string, ok: bool, data: Payload, error: Failure,
    startedAt: real, finishedAt: real, observedAt: real)
  {
    function Duration(): (d: real)
      ensures d >= 0.0
    {
      if finishedAt > startedAt then finishedAt - startedAt else 0.0
    }
  }

  datatype BatchReport = BatchReport(batchIndex: nat, callCount: nat, wallTime: real, sequentialEstimate: real) {
    function Speedup(): real {
      if wallTime <= 0.0 then 1.0 else sequentialEstimate / wallTime
    }
  }

  datatype Conflict = Conflict(subtaskId: string, capability: string, results: seq<ToolResult>)

  predicate UniqueIds(p: Plan) {
    forall i, j :: 0 <= i < j < |p.subtasks| ==> p.subtasks[i].id != p.subtasks[j].id
  }
}
