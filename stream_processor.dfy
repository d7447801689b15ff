/**
  The data processors of ex0/stream_processor.py: a numeric, a text and a log
  processor, each with `validate` (may this value be processed?) and `process`
  (the report it produces, or the exception it raises). The processors have
  no fields, so each operation is a function of its argument.
 */
module Processors {
  import opened Wrappers
  import opened Text
  import opened Seqs

  /** The Python values a processor can be handed. */
  datatype Value =
    | Int(i: int)
    | Str(s: string)
    | List(items: seq<Value>)
    | NoneValue

  /** `DataProcessor.format_output`: the result, unchanged, behind the label "Output: ". */
  function FormatOutput(result: string): (r: string)
    ensures |r| == |result| + 8
    ensures r[..8] == "Output: " && r[8..] == result
  {
    "Output: " + result
  }

  // ---------------------------------------------------------------- numeric

  predicate AllInts(items: seq<Value>) {
    forall k :: 0 <= k < |items| ==> items[k].Int?
  }

  function Ints(items: seq<Value>): (xs: seq<int>)
    requires AllInts(items)
    ensures |xs| == |items|
  {
    seq(|items|, k requires 0 <= k < |items| => items[k].i)
  }

  /**
    Python's `sum(v)`: 0 plus each element in turn. A list of integers sums;
    the empty string sums to 0 because it has no characters to add; anything
    else raises TypeError (a non-iterable, or 0 + a non-integer).
   */
  function PySum(v: Value): Result<int, PyError> {
    match v
    case List(items) => if AllInts(items) then Ok(Sum(Ints(items))) else Err(TypeError)
    case Str(s) => if s == [] then Ok(0) else Err(TypeError)
    case _ => Err(TypeError)
  }

  /** `NumericProcessor.validate`: whether `sum(data)` succeeds. */
  function NumericValidate(v: Value): (r: bool)
    ensures r <==> (v.List? && AllInts(v.items)) || v == Str("")
  {
    PySum(v).Ok?
  }

  /** The integer part of `NumericProcessor.process`'s report: how many values, and their sum. */
  datatype NumericReport = NumericReport(count: nat, total: int)

  /**
    `NumericProcessor.process`: `sum(data) / len(data)` is evaluated first,
    so a value `sum` rejects raises TypeError and a summable value of length
    0 raises ZeroDivisionError.
   */
  function NumericProcess(v: Value): (r: Result<NumericReport, PyError>)
    ensures r.Ok? <==> v.List? && AllInts(v.items) && |v.items| > 0
    ensures r.Ok? ==> r.value.count == |v.items| && r.value.total == Sum(Ints(v.items))
  {
    match PySum(v)
    case Err(e) => Err(e)
    case Ok(total) =>
      var n := if v.List? then |v.items| else |v.s|;
      if n == 0 then Err(ZeroDivisionError) else Ok(NumericReport(n, total))
  }

  /**
    What `validate` accepts is exactly the lists of integers and the empty
    string; of those, `process` fails on exactly the empty ones, with
    ZeroDivisionError. What `validate` rejects, `process` rejects with TypeError.
   */
  lemma NumericValidateProcessGap(v: Value)
    ensures NumericValidate(v) <==> (v.List? && AllInts(v.items)) || v == Str("")
    ensures NumericValidate(v) && NumericProcess(v).Err? <==> v == List([]) || v == Str("")
    ensures NumericValidate(v) && NumericProcess(v).Err? ==> NumericProcess(v).error == ZeroDivisionError
    ensures !NumericValidate(v) ==> NumericProcess(v) == Err(TypeError)
  {
  }

  /** The sum in the report of a list splits over the list's parts. */
  lemma NumericTotalConcat(a: seq<Value>, b: seq<Value>)
    requires AllInts(a) && AllInts(b) && |a| > 0 && |b| > 0
    ensures NumericProcess(List(a + b)).Ok?
    ensures NumericProcess(List(a + b)).value.total
         == NumericProcess(List(a)).value.total + NumericProcess(List(b)).value.total
  {
    assert Ints(a + b) == Ints(a) + Ints(b);
    SumConcat(Ints(a), Ints(b));
  }

  // ---------------------------------------------------------------- text

  /** `TextProcessor.validate`: whether `data.split()` succeeds, which is exactly for strings. */
  function TextValidate(v: Value): (r: bool)
    ensures r <==> v.Str?
  {
    match v
    case Str(_) => true
    case _ => false
  }

  /** `TextProcessor.process`'s report: `len(data)` characters and `len(data.split())` words. */
  datatype TextReport = TextReport(chars: nat, words: nat)

  /**
    `TextProcessor.process`: `len` of a list succeeds but the list has no
    `split` (AttributeError); `len` of an integer or of None raises TypeError.
   */
  function TextProcess(v: Value): (r: Result<TextReport, PyError>)
    ensures r.Ok? <==> TextValidate(v)
    ensures r.Ok? ==> r.value.chars == |v.s| && r.value.words <= r.value.chars
    ensures r.Ok? ==> r.value.words == WordStarts(v.s, true)
    ensures r.Err? ==> r.error == if v.List? then AttributeError else TypeError
  {
    match v
    case Str(s) =>
      SplitWhitespaceCount(s);
      Ok(TextReport(|s|, |SplitWhitespace(s)|))
    case List(_) => Err(AttributeError)
    case _ => Err(TypeError)
  }

  /** A string of whitespace only, the empty string included, has no words. */
  lemma TextBlankHasNoWords(s: string)
    requires forall i :: 0 <= i < |s| ==> IsSpace(s[i])
    ensures TextProcess(Str(s)) == Ok(TextReport(|s|, 0))
  {
    AllSpaceNoWords(s);
  }

  // ---------------------------------------------------------------- log

  const Separator: string := ": "

  /** The level-to-prefix table of `LogProcessor.process`. */
  const LevelPrefixes: map<string, string> := map[
    "ERROR" := "[ALERT]",
    "INFO" := "[INFO]",
    "WARNING" := "[WARNING]",
    "DEBUG" := "[DEBUG]",
    "CRITICAL" := "[CRITICAL]"
  ]

  /** `prefixes.get(level, "[LOG]")`. */
  function LevelPrefix(level: string): (p: string)
    ensures level == "ERROR" ==> p == "[ALERT]"
    ensures level in ["INFO", "WARNING", "DEBUG", "CRITICAL"] ==> p == "[" + level + "]"
    ensures level !in ["ERROR", "INFO", "WARNING", "DEBUG", "CRITICAL"] ==> p == "[LOG]"
  {
    if level in LevelPrefixes then LevelPrefixes[level] else "[LOG]"
  }

  /** `LogProcessor.validate`: a string (it has `split`) that contains ": ". */
  function LogValidate(v: Value): (r: bool)
    ensures r <==> v.Str? && exists i :: OccursAt(v.s, Separator, i)
  {
    v.Str? && Contains(v.s, Separator)
  }

  /**
    `LogProcessor.process`: `level, message = data.split(": ")` needs
    exactly two pieces (ValueError otherwise); a non-string has no `split`
    (AttributeError).
   */
  function LogProcess(v: Value): (r: Result<string, PyError>)
    ensures r.Err? ==> r.error == if v.Str? then ValueError else AttributeError
  {
    match v
    case Str(s) =>
      var parts := SplitOn(s, Separator);
      if |parts| != 2 then Err(ValueError)
      else Ok(LevelPrefix(parts[0]) + " " + parts[0] + " level detected: " + parts[1])
    case _ => Err(AttributeError)
  }

  /** ": " cannot overlap itself: two occurrences are equal or at least two apart. */
  lemma SeparatorApart(s: string, i: int, j: int)
    requires OccursAt(s, Separator, i) && OccursAt(s, Separator, j) && i <= j
    ensures i == j || i + 2 <= j
  {
    assert s[i + 1] == s[i..i + 2][1] == ' ';
    assert s[j] == s[j..j + 2][0] == ':';
  }

  /** `split(": ")` gives two pieces exactly when ": " occurs exactly once. */
  lemma {:induction false} TwoPiecesIffOneSeparator(s: string)
    ensures |SplitOn(s, Separator)| == 2 <==>
      && (exists i :: OccursAt(s, Separator, i))
      && (forall i, j :: OccursAt(s, Separator, i) && OccursAt(s, Separator, j) ==> i == j)
  {
    match Find(s, Separator)
    case None =>
    case Some(i) =>
      var rest := s[i + 2..];
      assert SplitOn(s, Separator) == [s[..i]] + SplitOn(rest, Separator);
      OccursInSuffix(s, Separator, i + 2);
      if |SplitOn(s, Separator)| == 2 {
        assert Find(rest, Separator).None?;
        forall j | OccursAt(s, Separator, j) ensures j == i {
          if j > i {
            SeparatorApart(s, i, j);
          }
        }
      } else {
        var j :| j >= 0 && OccursAt(rest, Separator, j) && j == Find(rest, Separator).value;
        assert OccursAt(s, Separator, j + i + 2);
      }
  }

  /**
    `process` succeeds exactly on the strings with one ": ", and then splits
    them into a level and a message, neither containing ": ", that make up the
    whole line, and reports them behind the level's prefix.
   */
  lemma {:induction false} LogProcessSucceeds(v: Value)
    ensures LogProcess(v).Ok? <==>
      && v.Str?
      && (exists i :: OccursAt(v.s, Separator, i))
      && (forall i, j :: OccursAt(v.s, Separator, i) && OccursAt(v.s, Separator, j) ==> i == j)
    ensures LogProcess(v).Ok? ==> LogValidate(v) && exists level, message ::
      && v.s == level + Separator + message
      && !Contains(level, Separator) && !Contains(message, Separator)
      && LogProcess(v).value == LevelPrefix(level) + " " + level + " level detected: " + message
  {
    if v.Str? {
      TwoPiecesIffOneSeparator(v.s);
      var parts := SplitOn(v.s, Separator);
      if |parts| == 2 {
        JoinSplitOn(v.s, Separator);
        assert Join(parts, Separator) == parts[0] + Separator + parts[1];
      }
    }
  }

  /**
    Writing a level and a message, neither containing ": ", as
    `level + ": " + message` gives a line that `process` splits back into
    that level and that message.
   */
  lemma LogLineRoundTrip(level: string, message: string)
    requires !Contains(level, Separator) && !Contains(message, Separator)
    ensures LogValidate(Str(level + Separator + message))
    ensures LogProcess(Str(level + Separator + message))
         == Ok(LevelPrefix(level) + " " + level + " level detected: " + message)
  {
    var s := level + Separator + message;
    var n := |level|;
    assert s[n..n + 2] == Separator;
    forall j | 0 <= j < n ensures !OccursAt(s, Separator, j) {
      if j + 2 <= n {
        assert s[j..j + 2] == level[j..j + 2];
        assert !OccursAt(level, Separator, j);
      } else {
        assert s[j + 1] == s[n] == ':';
        assert s[j..j + 2][1] == ':';
      }
    }
    assert OccursAt(s, Separator, n);
    var found := Find(s, Separator);
    assert found.Some?;
    assert found.value > n ==> !OccursAt(s, Separator, n);
    assert found == Some(n);
    assert s[..n] == level && s[n + 2..] == message;
    assert SplitOn(s, Separator) == [level] + SplitOn(message, Separator);
  }

  /** A line with two ": " passes `validate` yet `process` raises ValueError on it. */
  lemma LogValidButUnparsable(s: string, i: int, j: int)
    requires OccursAt(s, Separator, i) && OccursAt(s, Separator, j) && i != j
    ensures LogValidate(Str(s))
    ensures LogProcess(Str(s)) == Err(ValueError)
  {
    TwoPiecesIffOneSeparator(s);
  }

  /**
    A `validate` that accepts exactly the lines `process` can split, as
    `data.count(": ") == 1` would: a first ": " and none after it.
   */
  predicate LogValidateExact(v: Value)
  {
    && v.Str?
    && match Find(v.s, Separator)
       case None => false
       case Some(i) => !Contains(v.s[i + 2..], Separator)
  }

  /** The exact check passes precisely the lines `process` handles, and it is stricter than `validate`. */
  lemma LogValidateExactIffProcess(v: Value)
    ensures LogValidateExact(v) <==> LogProcess(v).Ok?
    ensures LogValidateExact(v) ==> LogValidate(v)
  {
    if v.Str? {
      match Find(v.s, Separator)
      case None =>
      case Some(i) =>
        var rest := v.s[i + 2..];
        assert SplitOn(v.s, Separator) == [v.s[..i]] + SplitOn(rest, Separator);
        assert Find(rest, Separator).Some? ==> |SplitOn(rest, Separator)| >= 2;
    }
  }
}
