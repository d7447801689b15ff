/**
  The staged pipeline engine of ex2/nexus_pipeline.py: stages applied in
  order, three adapters (JSON, CSV, stream) that each check the shape of a
  payload before running their stages and then build a report from the
  original payload, and a manager that fans one payload out to every
  registered pipeline or feeds it through a list of pipelines in turn.
 */
module Nexus {
  import opened Wrappers
  import opened Text
  import opened Seqs
  import opened Render

  // ---------------------------------------------------------------- payloads

  /** A value stored under a key of a dict payload, as far as the adapters look at it. */
  datatype Field =
    | FStr(s: string)
    | FInt(i: int)
    | FNone
    | FOther(shown: string)  // any other object (a float, a list, ...), with the text str() gives it

  /** The dynamically typed payload handed to a pipeline. */
  datatype Payload =
    | Dict(fields: map<string, Field>)
    | Str(s: string)
    | NoneValue
    | Other  // any other object: every adapter rejects it

  /** How a field value appears inside an f-string. */
  function ShowField(f: Field): string {
    match f
    case FStr(s) => s
    case FInt(i) => IntToString(i)
    case FNone => "None"
    case FOther(shown) => shown
  }

  /** Python's `d.get(key, default)`. */
  function Get(fields: map<string, Field>, key: string, default: Field): Field {
    if key in fields then fields[key] else default
  }

  // ---------------------------------------------------------------- running steps in order

  /** Applies `steps` left to right, each to the result of the one before; no steps leave `x` as it is. */
  function RunInOrder<S, T>(apply: (S, T) -> T, steps: seq<S>, x: T): (r: T)
    ensures steps == [] ==> r == x
    ensures |steps| == 1 ==> r == apply(steps[0], x)
    decreases |steps|
  {
    if steps == [] then x
    else apply(steps[|steps| - 1], RunInOrder(apply, steps[..|steps| - 1], x))
  }

  /** Running `a` and then `b` is running `a + b`. */
  lemma {:induction false} RunInOrderConcat<S, T>(apply: (S, T) -> T, a: seq<S>, b: seq<S>, x: T)
    ensures RunInOrder(apply, a + b, x) == RunInOrder(apply, b, RunInOrder(apply, a, x))
    decreases |b|
  {
    if b == [] {
      assert a + b == a;
    } else {
      assert (a + b)[..|a + b| - 1] == a + b[..|b| - 1];
      RunInOrderConcat(apply, a, b[..|b| - 1], x);
    }
  }

  /** The first step is applied first, to the input itself. */
  lemma RunInOrderFirst<S, T>(apply: (S, T) -> T, first: S, rest: seq<S>, x: T)
    ensures RunInOrder(apply, [first] + rest, x) == RunInOrder(apply, rest, apply(first, x))
  {
    RunInOrderConcat(apply, [first], rest, x);
  }

  /** Running one step more of a sequence applies that step to what the shorter run produced. */
  lemma RunInOrderPrefix<S, T>(apply: (S, T) -> T, steps: seq<S>, i: nat, x: T)
    requires i < |steps|
    ensures RunInOrder(apply, steps[..i + 1], x) == apply(steps[i], RunInOrder(apply, steps[..i], x))
  {
    assert steps[..i + 1][..i] == steps[..i];
  }

  // ---------------------------------------------------------------- stages

  /** The three shipped stages; each one's `process` returns its input. */
  datatype Stage = InputStage | TransformStage | OutputStage {
    function Process(data: Payload): (r: Payload)
      ensures r == data
    {
      data
    }
  }

  function StageStep(stage: Stage, data: Payload): Payload {
    stage.Process(data)
  }

  /** Any list of the shipped stages, however long and in whatever order, gives back its input. */
  lemma {:induction false} RunStagesIdentity(stages: seq<Stage>, data: Payload)
    ensures RunInOrder(StageStep, stages, data) == data
    decreases |stages|
  {
    if stages != [] {
      RunStagesIdentity(stages[..|stages| - 1], data);
    }
  }

  // ---------------------------------------------------------------- adapters

  /** The subclass of `ProcessingPipeline` a pipeline is an instance of. */
  datatype AdapterKind = JsonAdapter | CsvAdapter | StreamAdapter

  /** The shape check each adapter makes before it touches its stages. */
  function Accepts(kind: AdapterKind, data: Payload): (r: bool)
    ensures r ==> (data.Dict? <==> kind == JsonAdapter)
    ensures kind == CsvAdapter ==> (r <==> data.Str? && exists i :: OccursAt(data.s, ",", i))
    ensures kind != JsonAdapter && r ==> data.Str?
  {
    match kind
    case JsonAdapter => data.Dict?
    case CsvAdapter => data.Str? && Contains(data.s, ",")
    case StreamAdapter => data.Str?
  }

  /**
    `JSONAdapter.process`: None for anything but a dict; for a dict, a
    reading built from its "value" (default "N/A") and "unit" (default "").
   */
  function JsonProcess(data: Payload): (r: Option<string>)
    ensures r.None? <==> !data.Dict?
    ensures data.Dict? ==> r == Some("Processed temperature reading: "
      + (if "value" in data.fields then ShowField(data.fields["value"]) else "N/A")
      + (if "unit" in data.fields then ShowField(data.fields["unit"]) else "")
      + " (Normal range)")
  {
    if !data.Dict? then None
    else
      var value := Get(data.fields, "value", FStr("N/A"));
      var unit := Get(data.fields, "unit", FStr(""));
      Some("Processed temperature reading: " + ShowField(value) + ShowField(unit) + " (Normal range)")
  }

  /** The JSON report depends on the "value" and "unit" entries only. */
  lemma JsonReadsValueAndUnitOnly(f: map<string, Field>, g: map<string, Field>)
    requires forall key :: key in ["value", "unit"] ==> Get(f, key, FNone) == Get(g, key, FNone) && (key in f <==> key in g)
    ensures JsonProcess(Dict(f)) == JsonProcess(Dict(g))
  {
    assert "value" in ["value", "unit"] && "unit" in ["value", "unit"];
  }

  /** A dict without "value" and "unit" reports the defaults. */
  lemma JsonDefaults(f: map<string, Field>)
    requires "value" !in f && "unit" !in f
    ensures JsonProcess(Dict(f)) == Some("Processed temperature reading: N/A (Normal range)")
  {
    assert "Processed temperature reading: " + "N/A" + "" + " (Normal range)"
        == "Processed temperature reading: N/A (Normal range)";
  }

  predicate IsAction(token: string) {
    token == "action"
  }

  /** The number of comma-separated tokens of `s` that are exactly "action". */
  function ActionCount(s: string): (n: nat)
    ensures n == multiset(SplitOn(s, ","))["action"]
    ensures n <= |SplitOn(s, ",")|
    ensures n <= CountChar(s, ',') + 1
  {
    var actions := Keep(SplitOn(s, ","), IsAction);
    SplitOnCharCount(s, ',');
    KeepCounts(SplitOn(s, ","), IsAction);
    AllSameCount(actions, "action");
    |actions|
  }

  /** `CSVAdapter.process`: None unless the payload is a string containing ","; then the number of "action" tokens. */
  function CsvProcess(data: Payload): (r: Option<string>)
    ensures r.None? <==> !(data.Str? && exists i :: OccursAt(data.s, ",", i))
  {
    if !(data.Str? && Contains(data.s, ",")) then None
    else Some("User activity logged: " + IntToString(ActionCount(data.s)) + " actions processed")
  }

  const StreamSummary: string := "Stream summary: 5 readings, avg: 22.1°C"

  /** `StreamAdapter.process`: None for a non-string; the same fixed summary for every string. */
  function StreamProcess(data: Payload): (r: Option<string>)
    ensures r.None? <==> !data.Str?
    ensures r.Some? ==> r.value == StreamSummary
  {
    if !data.Str? then None else Some(StreamSummary)
  }

  /** What each kind of adapter's `process` returns. */
  function Adapt(kind: AdapterKind, data: Payload): (r: Option<string>)
    ensures r.None? <==> !Accepts(kind, data)
  {
    match kind
    case JsonAdapter => JsonProcess(data)
    case CsvAdapter => CsvProcess(data)
    case StreamAdapter => StreamProcess(data)
  }

  /** A `process` result as the Python value it is: None, or the report string. */
  function AsPayload(r: Option<string>): Payload {
    match r
    case None => NoneValue
    case Some(s) => Str(s)
  }

  /** The value one step of `chain_pipelines` passes on: the adapter's string, or None. */
  function ChainStep(kind: AdapterKind, data: Payload): (r: Payload)
    ensures r == NoneValue || r.Str?
  {
    AsPayload(Adapt(kind, data))
  }

  // ---------------------------------------------------------------- pipelines

  /** A pipeline: its kind of adapter, its id, and its growable list of stages. */
  class Pipeline {
    const kind: AdapterKind
    const pipelineId: string
    var stages: seq<Stage>

    constructor (kind: AdapterKind, pipelineId: string)
      ensures this.kind == kind && this.pipelineId == pipelineId
      ensures stages == []
    {
      this.kind := kind;
      this.pipelineId := pipelineId;
      stages := [];
    }

    /** `add_stage`: one more stage at the end; the earlier stages keep their order. */
    method AddStage(stage: Stage)
      modifies this
      ensures stages == old(stages) + [stage]
    {
      stages := stages + [stage];
    }

    /**
      `run_stages`: each stage applied in list order to the previous result;
      `calls` counts the `process` calls made on stages.
     */
    method RunStages(data: Payload) returns (result: Payload, ghost calls: nat)
      ensures result == RunInOrder(StageStep, stages, data)
      ensures result == data
      ensures calls == |stages|
    {
      result := data;
      calls := 0;
      for i := 0 to |stages|
        invariant result == RunInOrder(StageStep, stages[..i], data)
        invariant calls == i
      {
        RunInOrderPrefix(StageStep, stages, i, data);
        result := stages[i].Process(result);
        calls := calls + 1;
      }
      assert stages[..|stages|] == stages;
      RunStagesIdentity(stages, data);
    }

    /**
      `process`: a payload of the wrong shape gets None without any stage
      being run; otherwise the stages run, their result is dropped, and the
      report is built from the payload itself, so it does not depend on the stages.
     */
    method Process(data: Payload) returns (r: Option<string>, ghost stageCalls: nat)
      ensures r == Adapt(kind, data)
      ensures r.None? <==> !Accepts(kind, data)
      ensures stageCalls == if Accepts(kind, data) then |stages| else 0
    {
      if !Accepts(kind, data) {
        r, stageCalls := None, 0;
        return;
      }
      var staged, calls := RunStages(data);
      stageCalls := calls;
      r := Adapt(kind, data);
    }
  }

  /** The adapter kinds of a list of pipelines, in order. */
  function Kinds(pipelines: seq<Pipeline>): (ks: seq<AdapterKind>)
    ensures |ks| == |pipelines|
    ensures forall i :: 0 <= i < |pipelines| ==> ks[i] == pipelines[i].kind
  {
    seq(|pipelines|, i requires 0 <= i < |pipelines| => pipelines[i].kind)
  }

  // ---------------------------------------------------------------- the manager

  class NexusManager {
    var pipelines: seq<Pipeline>

    constructor ()
      ensures pipelines == []
    {
      pipelines := [];
    }

    /** `add_pipeline`: registers one more pipeline, after the others. */
    method AddPipeline(pipeline: Pipeline)
      modifies this
      ensures pipelines == old(pipelines) + [pipeline]
    {
      pipelines := pipelines + [pipeline];
    }

    /**
      `process_data`: calls `process` once on every registered pipeline, in
      registration order, with the same payload, and drops the results;
      `outcomes` records them in the order of the calls.
     */
    method ProcessData(data: Payload) returns (ghost outcomes: seq<Option<string>>)
      ensures |outcomes| == |pipelines|
      ensures forall i :: 0 <= i < |pipelines| ==> outcomes[i] == Adapt(pipelines[i].kind, data)
    {
      outcomes := [];
      for i := 0 to |pipelines|
        invariant |outcomes| == i
        invariant forall j :: 0 <= j < i ==> outcomes[j] == Adapt(pipelines[j].kind, data)
      {
        var r, _ := pipelines[i].Process(data);
        outcomes := outcomes + [r];
      }
    }

    /**
      `chain_pipelines`: feeds the payload to each pipeline of the list in
      turn, each result becoming the next input. There is no early exit:
      `calls` counts one `process` call per pipeline whatever the results.
     */
    method ChainPipelines(data: Payload, chain: seq<Pipeline>) returns (result: Payload, ghost calls: nat)
      ensures result == RunInOrder(ChainStep, Kinds(chain), data)
      ensures chain == [] ==> result == data
      ensures calls == |chain|
    {
      ghost var kinds := Kinds(chain);
      result := data;
      calls := 0;
      for i := 0 to |chain|
        invariant result == RunInOrder(ChainStep, kinds[..i], data)
        invariant calls == i
      {
        ghost var before := result;
        var r, _ := chain[i].Process(result);
        result := AsPayload(r);
        calls := calls + 1;
        assert result == ChainStep(kinds[i], before);
        RunInOrderPrefix(ChainStep, kinds, i, data);
      }
      assert kinds[..|chain|] == kinds;
    }
  }

  // ---------------------------------------------------------------- chaining properties

  /** Once a step has yielded None, every later adapter rejects it and yields None too. */
  lemma {:induction false} ChainNoneStaysNone(kinds: seq<AdapterKind>)
    ensures RunInOrder(ChainStep, kinds, NoneValue) == NoneValue
    decreases |kinds|
  {
    if kinds != [] {
      ChainNoneStaysNone(kinds[..|kinds| - 1]);
    }
  }

  /** If the first `i` pipelines of a chain end in None, so does the whole chain. */
  lemma ChainAfterFailure(kinds: seq<AdapterKind>, data: Payload, i: nat)
    requires i <= |kinds|
    requires RunInOrder(ChainStep, kinds[..i], data) == NoneValue
    ensures RunInOrder(ChainStep, kinds, data) == NoneValue
  {
    assert kinds == kinds[..i] + kinds[i..];
    RunInOrderConcat(ChainStep, kinds[..i], kinds[i..], data);
    ChainNoneStaysNone(kinds[i..]);
  }

  /** Every adapter returns a string or None, never a dict, so a JSON adapter anywhere but first ends the chain in None. */
  lemma ChainJsonNotFirst(kinds: seq<AdapterKind>, data: Payload, i: nat)
    requires 0 < i < |kinds| && kinds[i] == JsonAdapter
    ensures RunInOrder(ChainStep, kinds, data) == NoneValue
  {
    assert kinds[..i + 1][..i] == kinds[..i];
    ChainAfterFailure(kinds, data, i + 1);
  }

  // ---------------------------------------------------------------- scenarios

  /**
    A line made of at least two comma-joined tokens, none holding a comma:
    `split(",")` gives the tokens back, and the CSV report counts the tokens
    that are exactly "action".
   */
  lemma CsvReportOf(s: string, tokens: seq<string>, actions: nat)
    requires |tokens| >= 2
    requires forall k :: 0 <= k < |tokens| ==> ',' !in tokens[k]
    requires s == Join(tokens, [',']) && |Keep(tokens, IsAction)| == actions
    ensures SplitOn(s, ",") == tokens
    ensures CsvProcess(Str(s)) == Some("User activity logged: " + IntToString(actions) + " actions processed")
  {
    SplitOnJoinChar(tokens, ',');
    var i := |tokens[0]|;
    assert s == tokens[0] + [','] + Join(tokens[1..], [',']);
    assert s[i..i + 1] == ",";
    assert OccursAt(s, ",", i);
  }

  /** The error-recovery demo: the stream demo's text has no comma, so the CSV adapter returns None rather than raising. */
  lemma CsvRejectsStreamText(s: string)
    requires s == "Real-time sensor stream"
    ensures CsvProcess(Str(s)) == None
  {
    OccursAtChar(s, ',');
    assert ',' !in s;
  }

  /** Three tokens joined by commas, written out. */
  lemma CommaJoinedThree(s: string, tokens: seq<string>, a: string, b: string, c: string)
    requires tokens == [a, b, c] && s == a + "," + b + "," + c
    ensures s == Join(tokens, [','])
  {
    JoinThree(a, b, c, [',']);
  }

  /** None of the tokens "action", "login", "action" holds a comma, and two are "action". */
  lemma ActionLoginActionCount(tokens: seq<string>)
    requires tokens == ["action", "login", "action"]
    ensures forall k :: 0 <= k < |tokens| ==> ',' !in tokens[k]
    ensures |Keep(tokens, IsAction)| == 2
  {
    assert tokens[1..] == ["login", "action"] && tokens[2..] == ["action"];
    assert Keep(tokens[2..], IsAction) == ["action"];
    assert Keep(tokens[1..], IsAction) == ["action"];
  }

  /** Three tokens, two of them "action". */
  lemma CsvCountsActions(s: string)
    requires s == "action,login,action"
    ensures SplitOn(s, ",") == ["action", "login", "action"]
    ensures CsvProcess(Str(s)) == Some("User activity logged: " + IntToString(2) + " actions processed")
  {
    var tokens := ["action", "login", "action"];
    CommaJoinedThree(s, tokens, "action", "login", "action");
    ActionLoginActionCount(tokens);
    CsvReportOf(s, tokens, 2);
  }

  /** None of the demo line's tokens holds a comma, and one is "action". */
  lemma QuotedDemoCount(tokens: seq<string>)
    requires tokens == ["\"user", "action", "timestamp\""]
    ensures forall k :: 0 <= k < |tokens| ==> ',' !in tokens[k]
    ensures |Keep(tokens, IsAction)| == 1
  {
    assert tokens[1..] == ["action", "timestamp\""] && tokens[2..] == ["timestamp\""];
    assert Keep(tokens[2..], IsAction) == [];
    assert Keep(tokens[1..], IsAction) == ["action"];
  }

  /** The demo's quoted line: the quotes stay on the outer tokens, and one token is "action". */
  lemma CsvDemoLine(s: string)
    requires s == "\"user,action,timestamp\""
    ensures SplitOn(s, ",") == ["\"user", "action", "timestamp\""]
    ensures CsvProcess(Str(s)) == Some("User activity logged: " + IntToString(1) + " actions processed")
  {
    var tokens := ["\"user", "action", "timestamp\""];
    CommaJoinedThree(s, tokens, "\"user", "action", "timestamp\"");
    QuotedDemoCount(tokens);
    CsvReportOf(s, tokens, 1);
  }

  /** The demo's sensor record: the float 23.5 is shown as str() shows it, then the unit. */
  lemma JsonDemoRecord()
    ensures JsonProcess(Dict(map["sensor" := FStr("temp"), "value" := FOther("23.5"), "unit" := FStr("°C")]))
         == Some("Processed temperature reading: " + "23.5" + "°C" + " (Normal range)")
  {
  }

  /** A string is not a record: chained into a JSON pipeline it yields None, and no stage runs. */
  method ChainRejectsNonRecord(p: Pipeline) returns (result: Payload, ghost stageCalls: nat)
    requires p.kind == JsonAdapter
    ensures result == NoneValue && stageCalls == 0
  {
    var r;
    r, stageCalls := p.Process(Str("not-a-record"));
    result := AsPayload(r);
  }
}
