# Code Nexus data processors, streams and pipelines, in Dafny

This project models the three exercises of a Python course module on
polymorphism and proves properties of the model.

- **ex0, data processors** (`Processors`, stream_processor.dfy): a numeric,
  a text and a log processor. Each has `validate` and `process`, plus the
  shared `format_output`. The processors have no state, so each operation
  is a function of its argument. Python exceptions are `Err` values of a
  `Result`.
- **ex1, data streams** (`Streams`, data_stream.dfy): a `DataStream`
  class with an id, a kind (sensor, transaction or event, which are the
  source's three subclasses) and a `totalProcessed` counter. Every
  `ProcessBatch` advances the counter in place. The per-kind filters and
  batch summaries are functions beside the class.
- **ex2, the pipeline engine** (`Nexus`, nexus_pipeline.dfy):
  - stages applied in order, as `RunInOrder`, a left-to-right fold;
  - a `Pipeline` class with a kind of adapter (JSON, CSV or stream), an
    id and a growable list of stages;
  - a `NexusManager` class that holds pipelines and either fans one
    payload out to all of them or chains a payload through a list.
  - Each adapter checks the payload's shape before it runs any stage. It
    then builds its report from the original payload, not from the
    stages' result. `process` catches every exception and returns None, so
    a rejected payload gives None.
  - How many times a stage's or a pipeline's `process` is called is
    returned as a ghost count, so "no stage runs" can be stated.

The Python built-ins these rely on are modelled in their own modules, each
with a partner definition or round trip:

- `Text`: `sub in s`, `s.split(sep)` with `sep.join`, and `s.split()`;
- `Render`: `str(n)` and `f"{n:+}"`, each read back by a parser;
- `Seqs`: `sum` and list-comprehension filtering.

What the code does, and so what the model does, in the places where a
reader might expect otherwise:

- `chain_pipelines` has no early exit. Every pipeline of the list is
  called, and a None result is simply passed on to the next adapter.
- There is no `recover` operation. The "error recovery" demo only prints
  messages, because the CSV adapter returns None rather than raising.
- Reports are strings or None, not structured records with a status.
- The CSV report gives the number of "action" tokens only, not the total
  token count.
- Stages are the identity and cannot fail.

## Model

| member | source | states |
|---|---|---|
| `Processors.FormatOutput` | ex0/stream_processor.py:18-19 | the result appears unchanged after the 8-character label "Output: " |
| `Processors.NumericValidate` | ex0/stream_processor.py:31-36 | `sum(data)` succeeds exactly on lists of integers and on the empty string |
| `Processors.NumericProcess` | ex0/stream_processor.py:24-29 | succeeds exactly on non-empty lists of integers, and then reports their count and their sum (for the overflow case, see "Left out") |
| `Processors.NumericValidateProcessGap` | ex0/stream_processor.py:24-36 | `validate` accepts exactly the integer lists and the empty string (`sum("") == 0`); of those, `process` fails on exactly `[]` and `""`, with ZeroDivisionError; anything `validate` rejects, `process` rejects with TypeError |
| `Processors.NumericTotalConcat` | ex0/stream_processor.py:25-28 | the reported sum of a concatenated list is the sum of the parts' reported sums |
| `Processors.TextValidate` | ex0/stream_processor.py:46-51 | accepts exactly the strings: lists, integers and None have no `split` |
| `Processors.TextProcess` | ex0/stream_processor.py:41-51 | succeeds exactly on what `validate` accepts (strings); reports `len(data)` characters and a word count equal to the number of word starts and at most the character count; a list fails with AttributeError, anything else with TypeError |
| `Processors.TextBlankHasNoWords` | ex0/stream_processor.py:41-44 | a string of whitespace only (the empty string included) has 0 words |
| `Processors.LevelPrefix` | ex0/stream_processor.py:58-67 | ERROR maps to "[ALERT]", the four other known levels to "[LEVEL]", any other level to "[LOG]" |
| `Processors.LogValidate` | ex0/stream_processor.py:70-75 | accepts exactly the strings in which ": " occurs somewhere |
| `Processors.LogProcess` | ex0/stream_processor.py:56-68 | a string that does not split into two pieces raises ValueError; a non-string raises AttributeError |
| `Processors.TwoPiecesIffOneSeparator` | ex0/stream_processor.py:66 | `split(": ")` gives two pieces exactly when ": " occurs once and only once |
| `Processors.LogProcessSucceeds` | ex0/stream_processor.py:56-75 | `process` succeeds iff the value is a string with exactly one ": "; then the line is `level + ": " + message`, neither part containing ": ", and the report is the prefix, the level and the message |
| `Processors.LogLineRoundTrip` | ex0/stream_processor.py:56-75 | any level and message free of ": ", written as `level: message`, pass `validate` and are split back into that level and message |
| `Processors.LogValidButUnparsable` | ex0/stream_processor.py:66-75 | a line with two ": " passes `validate`, yet `process` raises ValueError on it |
| `Processors.LogValidateExactIffProcess` | ex0/stream_processor.py:66-75 | the exact check (one ": " and none after it) passes precisely the lines `process` handles, and implies `validate` |
| `Text.Find` | ex0/stream_processor.py:73 | returns an occurrence of `sub` with none before it, or None exactly when `sub` does not occur |
| `Text.Contains` | ex2/nexus_pipeline.py:80 | `sub in s` holds iff `sub` occurs at some index |
| `Text.SplitOn` | ex2/nexus_pipeline.py:88 | gives at least one piece, and no piece contains the separator |
| `Text.JoinSplitOn` | ex0/stream_processor.py:66 | joining the pieces of `s.split(sep)` with `sep` gives back `s` |
| `Text.SplitOnJoinChar` | ex2/nexus_pipeline.py:88 | splitting comma-free pieces joined by a comma gives back the pieces |
| `Text.SplitOnCharCount` | ex2/nexus_pipeline.py:88 | splitting on one character gives one piece more than there are occurrences of that character |
| `Text.SplitWhitespace` | ex0/stream_processor.py:43 | gives non-empty tokens free of whitespace, no more of them than there are characters |
| `Text.SplitWhitespaceCount` | ex0/stream_processor.py:43 | the number of tokens of `s.split()` is the number of word starts (non-space characters at the start or after whitespace) |
| `Text.AllSpaceNoWords` | ex0/stream_processor.py:43 | a whitespace-only string splits into no tokens |
| `Render.IntToStringRoundTrip` | ex1/data_stream.py:76-77 | `str(n)` starts with '-' exactly for negatives, is digits otherwise, and reads back as `n` |
| `Render.SignedToStringRoundTrip` | ex1/data_stream.py:57 | `{n:+}` starts with '+' exactly when `n >= 0` and with '-' exactly when `n < 0`, then digits, and reads back as `n` |
| `Seqs.SumConcat` | ex1/data_stream.py:57 | the sum of a concatenation is the sum of the sums |
| `Seqs.Keep` | ex1/data_stream.py:44 | the filtered list is no longer than the input and all its elements satisfy the condition |
| `Seqs.KeepCounts` | ex1/data_stream.py:62 | filtering keeps every occurrence of a value that satisfies the condition and none of any other value |
| `Seqs.KeepConcat` | ex1/data_stream.py:44 | filtering distributes over concatenation, so the kept elements stay in order |
| `Seqs.KeepAll` | ex1/data_stream.py:44 | when every element satisfies the condition, filtering returns the list unchanged |
| `Streams.SensorFilter` | ex1/data_stream.py:41-45 | with "high", keeps exactly the readings above 50, in order, with their multiplicities, and raises TypeError iff a reading is a string; with any other criterion, returns the batch |
| `Streams.TransactionFilter` | ex1/data_stream.py:59-63 | with "large", keeps exactly the amounts above 100 or below -100, in order, with their multiplicities, and raises TypeError iff an amount is a string; with any other criterion, returns the batch |
| `Streams.FilterData` | ex1/data_stream.py:17-19 | an event stream returns the batch unchanged; a successful filter never lengthens the batch |
| `Streams.FilterConcat` | ex1/data_stream.py:41-63 | filtering two parts and joining the results equals filtering the joined batch |
| `Streams.SensorSummary` | ex1/data_stream.py:36-39 | raises IndexError iff the batch is empty; otherwise reports the count and the first reading |
| `Streams.NetFlow` | ex1/data_stream.py:57 | `sum(batch)` succeeds iff every element is a number, and otherwise raises TypeError |
| `Streams.NetFlowConcat` | ex1/data_stream.py:57 | the net flow of a concatenated batch is the sum of the parts' net flows |
| `Streams.TransactionSummary` | ex1/data_stream.py:54-57 | succeeds iff every element is a number, and otherwise raises TypeError |
| `Streams.TransactionSummarySign` | ex1/data_stream.py:56-57 | the net flow is shown with '+' exactly when it is not negative, and reads back as the sum |
| `Streams.ErrorCount` | ex1/data_stream.py:74 | the count is the multiplicity of the event "error" in the batch, at most the batch length |
| `Streams.ErrorWord` | ex1/data_stream.py:75 | "error" exactly for one error, "errors" otherwise (zero included) |
| `Streams.EventSummary` | ex1/data_stream.py:72-77 | reports the batch length, the number of occurrences of "error" in the batch, and the word that goes with that number |
| `Streams.ErrorCountConcat` | ex1/data_stream.py:74 | the error count of a concatenated batch is the sum of the parts' counts |
| `Streams.BatchSummary` | ex1/data_stream.py:36-77 | events always succeed; sensors succeed iff the batch is non-empty; transactions succeed iff every element is a number |
| `Streams.DataStream.constructor` | ex1/data_stream.py:9-11 | a new stream keeps its id and kind and has processed nothing |
| `Streams.DataStream.GetStats` | ex1/data_stream.py:21-27 | the stats carry the stream's id, its kind's type names and its current count |
| `Streams.DataStream.ProcessBatch` | ex1/data_stream.py:36-77 | the count grows by the batch length even when the report then raises; the result is the kind's summary |
| `Streams.ProcessStream` | ex1/data_stream.py:81-82 | the same count update and result as the stream's own `ProcessBatch` |
| `Nexus.RunInOrder` | ex2/nexus_pipeline.py:35-39 | no steps return the input, and a single step is applied to the input itself; `RunInOrderFirst` and `RunInOrderConcat` give the general left-to-right order |
| `Nexus.Stage.Process` | ex2/nexus_pipeline.py:13-25 | each shipped stage returns its input unchanged |
| `Nexus.RunInOrderConcat` | ex2/nexus_pipeline.py:35-39 | running the steps of `a`, then those of `b`, equals running `a + b` |
| `Nexus.RunInOrderFirst` | ex2/nexus_pipeline.py:138-140 | the first step is applied to the input itself |
| `Nexus.RunStagesIdentity` | ex2/nexus_pipeline.py:13-39 | any list of the three shipped stages, in any order and of any length, returns its input |
| `Nexus.Accepts` | ex2/nexus_pipeline.py:53-108 | an accepted payload is a dict exactly for the JSON adapter and a string for the others; the CSV adapter accepts exactly the strings in which "," occurs |
| `Nexus.JsonProcess` | ex2/nexus_pipeline.py:51-70 | returns None iff the payload is not a dict; for a dict, the report shows "value", or "N/A" when it is missing, followed by "unit", or nothing when it is missing, each key defaulted on its own |
| `Nexus.JsonReadsValueAndUnitOnly` | ex2/nexus_pipeline.py:61-64 | two dicts that agree on "value" and "unit" get the same report |
| `Nexus.JsonDefaults` | ex2/nexus_pipeline.py:61-64 | a dict with neither key reports "N/A" and an empty unit |
| `Nexus.ActionCount` | ex2/nexus_pipeline.py:88-90 | the action count is the number of occurrences of "action" among the tokens of `split(",")`, at most the number of tokens, which is one more than the number of commas |
| `Nexus.CsvProcess` | ex2/nexus_pipeline.py:78-98 | returns None iff the payload is not a string containing "," |
| `Nexus.StreamProcess` | ex2/nexus_pipeline.py:106-122 | returns None iff the payload is not a string, and otherwise the same fixed summary |
| `Nexus.Adapt` | ex2/nexus_pipeline.py:51-122 | each adapter returns None exactly when the payload fails its shape check |
| `Nexus.ChainStep` | ex2/nexus_pipeline.py:140 | a chain step always produces None or a string, never a dict |
| `Nexus.Pipeline.constructor` | ex2/nexus_pipeline.py:28-49 | a new pipeline has its kind, its id and no stages |
| `Nexus.Pipeline.AddStage` | ex2/nexus_pipeline.py:32-33 | the stage is appended; the earlier stages keep their order |
| `Nexus.Pipeline.RunStages` | ex2/nexus_pipeline.py:35-39 | the result is the left-to-right fold of the stages, which is the input; each stage is called once |
| `Nexus.Pipeline.Process` | ex2/nexus_pipeline.py:51-122 | returns the adapter's report, or None iff the shape check fails; it calls every stage once when the shape is accepted and no stage otherwise |
| `Nexus.NexusManager.constructor` | ex2/nexus_pipeline.py:126-127 | a new manager has no pipelines |
| `Nexus.NexusManager.AddPipeline` | ex2/nexus_pipeline.py:129-130 | the pipeline is appended after the others |
| `Nexus.NexusManager.ProcessData` | ex2/nexus_pipeline.py:132-134 | one `process` call per registered pipeline, in registration order, each on the same payload |
| `Nexus.NexusManager.ChainPipelines` | ex2/nexus_pipeline.py:136-141 | the result is the fold of the pipelines' steps over the payload; an empty list returns the payload; every pipeline is called exactly once |
| `Nexus.ChainNoneStaysNone` | ex2/nexus_pipeline.py:136-141 | once a chain step yields None, every later adapter yields None |
| `Nexus.ChainAfterFailure` | ex2/nexus_pipeline.py:136-141 | if a prefix of the chain ends in None, so does the whole chain |
| `Nexus.ChainJsonNotFirst` | ex2/nexus_pipeline.py:136-141 | a JSON adapter anywhere but first makes the chain end in None |
| `Nexus.CsvReportOf` | ex2/nexus_pipeline.py:78-94 | for at least two comma-free tokens joined by commas, `split(",")` gives the tokens back and the report counts the tokens equal to "action" |
| `Nexus.CsvRejectsStreamText` | ex2/nexus_pipeline.py:194-199 | the recovery demo's text has no comma, so the CSV adapter returns None and nothing is raised |
| `Nexus.CsvCountsActions` | ex2/nexus_pipeline.py:88-92 | "action,login,action" splits into three tokens and reports 2 actions |
| `Nexus.CsvDemoLine` | ex2/nexus_pipeline.py:181-182 | the quoted demo line keeps its quotes on the outer tokens and reports 1 action |
| `Nexus.JsonDemoRecord` | ex2/nexus_pipeline.py:178-179 | the demo record reports "Processed temperature reading: 23.5°C (Normal range)" |
| `Nexus.ChainRejectsNonRecord` | ex2/nexus_pipeline.py:51-54 | a string chained into a JSON pipeline yields None, and no stage runs |

## Findings

| source | as written | input that shows it | evidently intended | confidence | as-written member | corrected member |
|---|---|---|---|---|---|---|
| ex0/stream_processor.py:70-75 | `LogProcessor.validate` accepts any string with at least one ": ". `process` unpacks `split(": ")` into two names and raises ValueError when there are more pieces. The demo calls `process` after a passing `validate` with no handler around it. | "ERROR: disk: full" | `validate` passes exactly the lines `process` can split, which are those with one ": " | medium, not executed | `Processors.LogValidButUnparsable` | `Processors.LogValidateExactIffProcess` |

## Left out

- Printing: the progress lines, "Input:" echoes and error messages the source prints are not modelled.
- The `__main__` demonstrations are not modelled. Their few checkable outcomes are stated as scenario lemmas (`Nexus.CsvCountsActions`, `Nexus.CsvDemoLine`, `Nexus.JsonDemoRecord`, `Nexus.CsvRejectsStreamText`).
- Floating point is not modelled. Batch elements and processor values are integers or strings. A float inside a JSON record is carried as the text `str()` gives it (`FOther`).
- Processors.NumericProcess: returns the count and the sum rather than the report string. The average is a float formatted with `.1f`, which the model does not render.
- Processors.NumericProcess: does not raise OverflowError. Python raises it when `sum(data) / len(data)` is too large for a float, e.g. on `[10**400]`. The model returns the count and the sum.
- Render.IntToString: renders every int. Python 3.11 and later raise ValueError for an int of more than 4300 digits.
- Streams.TransactionSummary: does not raise ValueError. Python 3.11 and later raise it when an int of more than 4300 digits is turned into text, as the net flow is by `{…:+}`. The model returns the report.
- Streams.SensorSummary: does not raise ValueError. Python raises it when the first reading is an int of more than 4300 digits. The model returns the report.
- Nexus.JsonProcess: does not return None when "value" or "unit" is an int of more than 4300 digits. Python raises ValueError there, and the adapter catches it. The model returns the report.
- Processors.TextProcess: returns the character and word counts rather than the report string.
- The fixed stream summary "5 readings, avg: 22.1°C" is a constant in the source and in the model.
- `StreamProcessor.stream_stats` is not modelled. It calls `get_stats` with an argument that `get_stats` does not take, so every call raises TypeError.
- Stages: only the three shipped identity stages are modelled. A caller-supplied stage that transforms its input or raises is not.
- Python's classes and subclasses are not modelled as such. A subclass of `DataStream` or `ProcessingPipeline` becomes a `kind` tag on one Dafny class.
- Pipeline ids are stored but not used, as in the source.
- Nexus.NexusManager.ProcessData: the results, which the source discards, are returned as a ghost sequence only.
- How many times stages and pipelines are called is returned as ghost counts, so it cannot be observed at run time.
- `str.isspace` uses a fixed list of Unicode whitespace code points. Python's full Unicode database is not modelled.
