/**
  The polymorphic data streams of ex1/data_stream.py. A stream has an id, a
  kind (sensor, transaction or event; the source's three subclasses), and a
  running count of the elements it has processed, which every
  `process_batch` advances in place.
 */
module Streams {
  import opened Wrappers
  import opened Seqs
  import opened Render

  /** A batch element. The sensor and transaction demos pass numbers, the event demo strings. */
  datatype Item = Num(n: int) | Word(w: string)

  /** The subclass of `DataStream` a stream is an instance of. */
  datatype StreamKind = Sensor | Transaction | Event

  function StreamType(kind: StreamKind): string {
    match kind
    case Sensor => "Environmental Data"
    case Transaction => "Financial Data"
    case Event => "System Events"
  }

  function DataType(kind: StreamKind): string {
    match kind
    case Sensor => "Sensor data"
    case Transaction => "Transaction data"
    case Event => "Event data"
  }

  /** The dictionary `get_stats` returns. */
  datatype Stats = Stats(streamId: string, streamType: string, dataType: string, totalProcessed: nat)

  /** How an item appears inside an f-string. */
  function Show(x: Item): string {
    match x
    case Num(n) => IntToString(n)
    case Word(w) => w
  }

  predicate AllNums(batch: seq<Item>) {
    forall k :: 0 <= k < |batch| ==> batch[k].Num?
  }

  function Nums(batch: seq<Item>): (xs: seq<int>)
    requires AllNums(batch)
    ensures |xs| == |batch|
  {
    seq(|batch|, k requires 0 <= k < |batch| => batch[k].n)
  }

  // ---------------------------------------------------------------- filters

  predicate IsHigh(x: Item) {
    x.Num? && x.n > 50
  }

  predicate IsLarge(x: Item) {
    x.Num? && (x.n > 100 || x.n < -100)
  }

  /**
    `SensorStream.filter_data`. With "high" it keeps the readings above 50, in
    order; comparing a string with 50 raises TypeError. Any other criterion,
    None included, returns the batch as it is.
   */
  function SensorFilter(batch: seq<Item>, criteria: Option<string>): (r: Result<seq<Item>, PyError>)
    ensures criteria != Some("high") ==> r == Ok(batch)
    ensures criteria == Some("high") ==> (r.Ok? <==> AllNums(batch)) && (r.Err? ==> r.error == TypeError)
    ensures criteria == Some("high") && r.Ok? ==>
      && r.value == Keep(batch, IsHigh)
      && (forall k :: 0 <= k < |r.value| ==> r.value[k].n > 50)
      && (forall x :: multiset(r.value)[x] == if IsHigh(x) then multiset(batch)[x] else 0)
  {
    if criteria == Some("high") then
      if AllNums(batch) then KeepCounts(batch, IsHigh); Ok(Keep(batch, IsHigh)) else Err(TypeError)
    else Ok(batch)
  }

  /**
    `TransactionStream.filter_data`. With "large" it keeps the amounts above
    100 or below -100, in order, so 100 and -100 themselves are dropped; a
    string raises TypeError. Any other criterion returns the batch as it is.
   */
  function TransactionFilter(batch: seq<Item>, criteria: Option<string>): (r: Result<seq<Item>, PyError>)
    ensures criteria != Some("large") ==> r == Ok(batch)
    ensures criteria == Some("large") ==> (r.Ok? <==> AllNums(batch)) && (r.Err? ==> r.error == TypeError)
    ensures criteria == Some("large") && r.Ok? ==>
      && r.value == Keep(batch, IsLarge)
      && (forall k :: 0 <= k < |r.value| ==> r.value[k].n > 100 || r.value[k].n < -100)
      && (forall x :: multiset(r.value)[x] == if IsLarge(x) then multiset(batch)[x] else 0)
  {
    if criteria == Some("large") then
      if AllNums(batch) then KeepCounts(batch, IsLarge); Ok(Keep(batch, IsLarge)) else Err(TypeError)
    else Ok(batch)
  }

  /** `filter_data` as each kind of stream has it; `EventStream` inherits the base class's. */
  function FilterData(kind: StreamKind, batch: seq<Item>, criteria: Option<string>): (r: Result<seq<Item>, PyError>)
    ensures kind == Event ==> r == Ok(batch)
    ensures r.Ok? ==> |r.value| <= |batch|
  {
    match kind
    case Sensor => SensorFilter(batch, criteria)
    case Transaction => TransactionFilter(batch, criteria)
    case Event => Ok(batch)
  }

  /** Filtering a batch in two parts and joining the results is filtering the whole: the order is kept. */
  lemma FilterConcat(kind: StreamKind, a: seq<Item>, b: seq<Item>, criteria: Option<string>)
    requires FilterData(kind, a, criteria).Ok? && FilterData(kind, b, criteria).Ok?
    ensures FilterData(kind, a + b, criteria) == Ok(FilterData(kind, a, criteria).value + FilterData(kind, b, criteria).value)
  {
    match kind
    case Event =>
    case Sensor =>
      if criteria == Some("high") {
        assert AllNums(a + b);
        KeepConcat(a, b, IsHigh);
      }
    case Transaction =>
      if criteria == Some("large") {
        assert AllNums(a + b);
        KeepConcat(a, b, IsLarge);
      }
  }

  // ---------------------------------------------------------------- summaries

  /**
    The report of `SensorStream.process_batch`: the number of readings and the
    first reading, so an empty batch raises IndexError.
   */
  function SensorSummary(batch: seq<Item>): (r: Result<string, PyError>)
    ensures r.Err? <==> batch == []
    ensures r.Err? ==> r.error == IndexError
    ensures r.Ok? ==> (r.value ==
      "Sensor analysis: " + IntToString(|batch|) + " readings processed, avg temp: " + Show(batch[0]) + "°C")
  {
    if batch == [] then Err(IndexError)
    else Ok("Sensor analysis: " + IntToString(|batch|) + " readings processed, avg temp: " + Show(batch[0]) + "°C")
  }

  /** Python's `sum(batch)`: a string element raises TypeError. */
  function NetFlow(batch: seq<Item>): (r: Result<int, PyError>)
    ensures r.Ok? <==> AllNums(batch)
    ensures r.Err? ==> r.error == TypeError
  {
    if AllNums(batch) then Ok(Sum(Nums(batch))) else Err(TypeError)
  }

  /** The net flow of a batch is the net flow of its first part plus that of the rest. */
  lemma NetFlowConcat(a: seq<Item>, b: seq<Item>)
    requires AllNums(a) && AllNums(b)
    ensures NetFlow(a + b) == Ok(NetFlow(a).value + NetFlow(b).value)
  {
    assert Nums(a + b) == Nums(a) + Nums(b);
    SumConcat(Nums(a), Nums(b));
  }

  /** The report of `TransactionStream.process_batch`: the number of operations and the signed net flow. */
  function TransactionSummary(batch: seq<Item>): (r: Result<string, PyError>)
    ensures r.Ok? <==> AllNums(batch)
    ensures r.Err? ==> r.error == TypeError
  {
    match NetFlow(batch)
    case Err(e) => Err(e)
    case Ok(flow) =>
      Ok("Transaction analysis: " + IntToString(|batch|) + " operations, net flow: " + SignedToString(flow) + " units")
  }

  /** The net flow is always written with a sign, `+` exactly when the flow is not negative. */
  lemma TransactionSummarySign(batch: seq<Item>)
    requires AllNums(batch)
    ensures var head := "Transaction analysis: " + IntToString(|batch|) + " operations, net flow: ";
      var flow := SignedToString(Sum(Nums(batch)));
      && TransactionSummary(batch) == Ok(head + flow + " units")
      && (flow[0] == '+' <==> Sum(Nums(batch)) >= 0)
      && ParseInt(flow) == Sum(Nums(batch))
  {
    SignedToStringRoundTrip(Sum(Nums(batch)));
  }

  predicate IsError(x: Item) {
    x == Word("error")
  }

  /** `sum(1 for event in batch if event == "error")`. */
  function ErrorCount(batch: seq<Item>): (n: nat)
    ensures n <= |batch|
    ensures n == multiset(batch)[Word("error")]
  {
    var errors := Keep(batch, IsError);
    KeepCounts(batch, IsError);
    AllSameCount(errors, Word("error"));
    |errors|
  }

  /** "error" for exactly one error, "errors" otherwise (zero included). */
  function ErrorWord(n: nat): (w: string)
    ensures w == "error" <==> n == 1
    ensures w == "errors" <==> n != 1
  {
    if n == 1 then "error" else "errors"
  }

  /** The report of `EventStream.process_batch`: the number of events and of "error" events. */
  function EventSummary(batch: seq<Item>): (r: string)
    ensures var errors := multiset(batch)[Word("error")];
      r == "Event analysis: " + IntToString(|batch|) + " events, " + IntToString(errors) + " " + ErrorWord(errors) + " detected"
  {
    var errors := ErrorCount(batch);
    "Event analysis: " + IntToString(|batch|) + " events, " + IntToString(errors) + " " + ErrorWord(errors) + " detected"
  }

  /** The error count of a batch is the sum of the counts of its parts. */
  lemma {:induction false} ErrorCountConcat(a: seq<Item>, b: seq<Item>)
    ensures ErrorCount(a + b) == ErrorCount(a) + ErrorCount(b)
  {
    KeepConcat(a, b, IsError);
  }

  /** What `process_batch` returns, by kind of stream. */
  function BatchSummary(kind: StreamKind, batch: seq<Item>): (r: Result<string, PyError>)
    ensures kind == Event ==> r.Ok?
    ensures kind == Sensor ==> (r.Ok? <==> batch != [])
    ensures kind == Transaction ==> (r.Ok? <==> AllNums(batch))
  {
    match kind
    case Sensor => SensorSummary(batch)
    case Transaction => TransactionSummary(batch)
    case Event => Ok(EventSummary(batch))
  }

  // ---------------------------------------------------------------- the stream object

  class DataStream {
    const kind: StreamKind
    const streamId: string
    var totalProcessed: nat

    /** A new stream has processed nothing. */
    constructor (kind: StreamKind, streamId: string)
      ensures this.kind == kind && this.streamId == streamId
      ensures totalProcessed == 0
    {
      this.kind := kind;
      this.streamId := streamId;
      totalProcessed := 0;
    }

    /** `get_stats`: the stream's identity, its type names and the current count. */
    function GetStats(): (s: Stats)
      reads this
      ensures s.streamId == streamId && s.totalProcessed == totalProcessed
      ensures s.streamType == StreamType(kind) && s.dataType == DataType(kind)
    {
      Stats(streamId, StreamType(kind), DataType(kind), totalProcessed)
    }

    /**
      `process_batch`: the count advances by the batch's length before the
      report is built, so it advances even when building the report raises.
     */
    method ProcessBatch(batch: seq<Item>) returns (r: Result<string, PyError>)
      modifies this
      ensures totalProcessed == old(totalProcessed) + |batch|
      ensures r == BatchSummary(kind, batch)
    {
      totalProcessed := totalProcessed + |batch|;
      r := BatchSummary(kind, batch);
    }
  }

  /** `StreamProcessor.process_stream`: hands the batch to the stream's own `process_batch`. */
  method ProcessStream(stream: DataStream, batch: seq<Item>) returns (r: Result<string, PyError>)
    modifies stream
    ensures stream.totalProcessed == old(stream.totalProcessed) + |batch|
    ensures r == BatchSummary(stream.kind, batch)
  {
    r := stream.ProcessBatch(batch);
  }
}
