/**
 * The benchmark runner (`benchmark/benchmark.py`): reading the result count
 * back from the search command's output, the counts recorded for a manual
 * grep search, and the aggregation of saved results into per-method
 * statistics and improvements. Times, process output and identifiers are
 * parameters; nothing here runs a command or reads a clock.
 */
module Benchmark {
  import opened Wrappers
  import opened Sequences
  import opened Strings
  import opened Values
  import SearchCli

  // ---------------------------------------------------------------------------
  // Reading "Found N results" back
  // ---------------------------------------------------------------------------

  const FoundWord := "Found"
  const ResultsWord := "results"

  /** `"Found" in line and "results" in line`. */
  predicate Mentions(line: string) {
    Contains(line, FoundWord) && Contains(line, ResultsWord)
  }

  /**
   * `int(line.split("Found")[1].split("results")[0].strip())`, `None` where
   * it raises (no text after "Found", or not an integer) and the bare
   * `except` ignores it.
   */
  function ParseFound(line: string): Option<int> {
    var pieces := SplitOn(line, FoundWord);
    if |pieces| < 2 then None
    else ParseInt(Strip(SplitOn(pieces[1], ResultsWord)[0]))
  }

  /** The value a line of output sets the count to: its parsed number when it mentions both words and parses. */
  function LineCount(line: string): Option<int> {
    if Mentions(line) then ParseFound(line) else None
  }

  /** A scan that starts at 0 and lets every line `read` gives a value for replace it: the last such value wins. */
  function LastValue(lines: seq<string>, read: string -> Option<int>): int {
    if |lines| == 0 then 0
    else
      var last := lines[|lines| - 1];
      if read(last).Some? then read(last).value else LastValue(lines[..|lines| - 1], read)
  }

  /** The count after scanning `lines`: starts at 0, and every mentioning line that parses replaces it. */
  function CountFromLines(lines: seq<string>): int {
    LastValue(lines, LineCount)
  }

  /** `results_found` of `run_mcp_search`, from the command's standard output. */
  function ResultsFound(stdout: string): int {
    if Contains(stdout, FoundWord) then CountFromLines(SplitOn(stdout, "\n")) else 0
  }

  /** Scanning one more line: it replaces the count exactly when it mentions and parses. */
  lemma CountStep(lines: seq<string>, k: nat)
    requires k < |lines|
    ensures CountFromLines(lines[..k + 1]) ==
      if Mentions(lines[k]) && ParseFound(lines[k]).Some? then ParseFound(lines[k]).value else CountFromLines(lines[..k])
  {
    assert lines[..k + 1][..k] == lines[..k];
    assert lines[..k + 1][k] == lines[k];
  }

  /** The parsing loop of `run_mcp_search`. */
  method ParseResultsCount(stdout: string) returns (count: int)
    ensures count == ResultsFound(stdout)
  {
    count := 0;
    if !Contains(stdout, FoundWord) {
      return;
    }
    var lines := SplitOn(stdout, "\n");
    for k := 0 to |lines|
      invariant count == CountFromLines(lines[..k])
    {
      var line := lines[k];
      CountStep(lines, k);
      if Mentions(line) {
        var parsed := ParseFound(line);
        if parsed.Some? {
          count := parsed.value;
        }
      }
    }
    assert lines[..|lines|] == lines;
  }

  /** The outer `"Found" in stdout` test changes nothing: without it, no line mentions "Found" either. */
  lemma GuardRedundant(stdout: string)
    ensures ResultsFound(stdout) == CountFromLines(SplitOn(stdout, "\n"))
  {
    if !Contains(stdout, FoundWord) {
      var lines := SplitOn(stdout, "\n");
      forall k | 0 <= k < |lines|
        ensures !Mentions(lines[k])
      {
        if Contains(lines[k], FoundWord) {
          ContainsInPiece(stdout, "\n", FoundWord, k);
        }
      }
      NoMentionsCountZero(lines);
    }
  }

  /** Output without any parsable mention reads as 0 results. */
  lemma NoMentionsCountZero(lines: seq<string>)
    requires forall k :: 0 <= k < |lines| ==> !Mentions(lines[k])
    ensures CountFromLines(lines) == 0
  {
    NoValueZero(lines, LineCount);
  }

  lemma {:induction false} NoValueZero(lines: seq<string>, read: string -> Option<int>)
    requires forall k :: 0 <= k < |lines| ==> read(lines[k]).None?
    ensures LastValue(lines, read) == 0
  {
    if |lines| > 0 {
      NoValueZero(lines[..|lines| - 1], read);
    }
  }

  /** The last parsable mention wins: lines after it that do not parse leave the count alone. */
  lemma LastMentionWins(before: seq<string>, line: string, after: seq<string>)
    requires Mentions(line) && ParseFound(line).Some?
    requires forall k :: 0 <= k < |after| ==> !(Mentions(after[k]) && ParseFound(after[k]).Some?)
    ensures CountFromLines(before + [line] + after) == ParseFound(line).value
  {
    LastValueWins(before, line, after, LineCount);
  }

  lemma {:induction false} LastValueWins(before: seq<string>, line: string, after: seq<string>, read: string -> Option<int>)
    requires read(line).Some?
    requires forall k :: 0 <= k < |after| ==> read(after[k]).None?
    ensures LastValue(before + [line] + after, read) == read(line).value
  {
    var lines := before + [line] + after;
    if |after| == 0 {
      assert lines[|lines| - 1] == line;
    } else {
      var init := after[..|after| - 1];
      LastValueWins(before, line, init, read);
      InitOfAppend(before + [line], after);
    }
  }

  /** The command's summary line as it appears in the output, without its trailing newline. */
  function FoundLine(n: nat): string {
    SearchCli.FoundLabel + NatToString(n) + " results:"
  }

  /** The search command prints its summary as `FoundLine(n)` followed by a newline. */
  lemma FoundTextLine(n: nat)
    ensures SearchCli.FoundText(n) == FoundLine(n) + "\n"
  {
  }

  const FoundHead := "✅ "
  const ResultsTail := " results:"

  /** The summary line around its number: the emoji, "Found", the number, "results:". */
  lemma FoundLineParts(n: nat)
    ensures FoundLine(n) == FoundHead + FoundWord + (" " + NatToString(n) + ResultsTail)
  {
  }

  /** Splitting the summary line at "Found" leaves the emoji and the text after the word. */
  lemma FoundLineSplit(digits: string)
    requires IsDigits(digits)
    ensures SplitOn(FoundHead + FoundWord + (" " + digits + ResultsTail), FoundWord) == [FoundHead, " " + digits + ResultsTail]
  {
    var tail := " " + digits + ResultsTail;
    assert 'F' !in FoundHead;
    assert 'F' !in tail by {
      assert forall k :: 0 <= k < |tail| ==> tail[k] == ' ' || tail[k] in "results:" || IsDigit(tail[k]);
    }
    SplitFirst(FoundHead, FoundWord, tail);
    SplitAbsent(tail, FoundWord);
  }

  /** Splitting the text after "Found" at "results" leaves the padded number first. */
  lemma ResultsSplit(digits: string)
    requires IsDigits(digits)
    ensures SplitOn(" " + digits + ResultsTail, ResultsWord)[0] == " " + digits + " "
  {
    var padded := " " + digits + " ";
    assert " " + digits + ResultsTail == padded + ResultsWord + ":";
    assert 'r' !in padded by {
      assert forall k :: 0 <= k < |padded| ==> padded[k] == ' ' || IsDigit(padded[k]);
    }
    SplitFirst(padded, ResultsWord, ":");
  }

  /** The summary line mentions both words. */
  lemma FoundLineMentions(n: nat)
    ensures Mentions(FoundLine(n))
  {
    FoundLineParts(n);
    var line := FoundLine(n);
    var tail := " " + NatToString(n) + ResultsTail;
    assert OccursAt(line, FoundWord, |FoundHead|);
    var i := |FoundHead| + |FoundWord| + 1 + |NatToString(n)| + 1;
    assert line[i..i + |ResultsWord|] == ResultsWord;
    assert OccursAt(line, ResultsWord, i);
  }

  /** Reading back the search command's summary line gives the number of results it reported. */
  lemma FoundLineParses(n: nat)
    ensures Mentions(FoundLine(n))
    ensures ParseFound(FoundLine(n)) == Some(n)
  {
    var digits := NatToString(n);
    FoundLineMentions(n);
    FoundLineParts(n);
    FoundLineSplit(digits);
    ResultsSplit(digits);
    StripPadded(digits);
    ParseIntRoundTrip(n);
  }

  /** The summary line is a single line. */
  lemma FoundLineSingle(n: nat)
    ensures '\n' !in FoundLine(n)
  {
    FoundLineParts(n);
    var digits := NatToString(n);
    assert forall k :: 0 <= k < |digits| ==> IsDigit(digits[k]);
  }

  /** Single lines around a single line make a sequence of single lines. */
  lemma LinesSingle(before: seq<string>, line: string, after: seq<string>)
    requires '\n' !in line
    requires forall k :: 0 <= k < |before| ==> '\n' !in before[k]
    requires forall k :: 0 <= k < |after| ==> '\n' !in after[k]
    ensures forall k :: 0 <= k < |before + [line] + after| ==> '\n' !in (before + [line] + after)[k]
  {
    var lines := before + [line] + after;
    forall k | 0 <= k < |lines|
      ensures '\n' !in lines[k]
    {
      if k < |before| {
        assert lines[k] == before[k];
      } else if k > |before| {
        assert lines[k] == after[k - |before| - 1];
      }
    }
  }

  /**
   * Output whose lines end with the search command's summary line, followed
   * only by lines that do not parse, reads back as the reported count.
   */
  lemma SearchOutputCounts(before: seq<string>, n: nat, after: seq<string>)
    requires forall k :: 0 <= k < |before| ==> '\n' !in before[k]
    requires forall k :: 0 <= k < |after| ==> '\n' !in after[k] && !(Mentions(after[k]) && ParseFound(after[k]).Some?)
    ensures ResultsFound(Join(before + [FoundLine(n)] + after, "\n")) == n
  {
    var lines := before + [FoundLine(n)] + after;
    FoundLineParses(n);
    FoundLineSingle(n);
    LinesSingle(before, FoundLine(n), after);
    SplitJoin(lines, '\n');
    LastMentionWins(before, FoundLine(n), after);
    GuardRedundant(Join(lines, "\n"));
  }

  // ---------------------------------------------------------------------------
  // Benchmark results
  // ---------------------------------------------------------------------------

  /** One saved benchmark result, with the fields of the `BenchmarkResult` dataclass. */
  datatype BenchmarkResult = BenchmarkResult(
    testId: string, query: string, approach: string, timestamp: string,
    searchTime: real, totalTime: real,
    resultsFound: int, relevantResults: int, precision: real,
    apiCalls: int, costEstimate: real,
    manualSteps: int, filesOpened: int)

  const McpCostEstimate := 0.0001
  const SecondsPerFile := 10.0
  const BaseManualSteps := 3

  /** `run_mcp_search`: one embedding call, one step, no file opened, and the count read back from the output. */
  function McpResult(testId: string, timestamp: string, query: string, searchTime: real, stdout: string): (r: BenchmarkResult)
    ensures r.approach == "mcp" && r.apiCalls == 1 && r.manualSteps == 1 && r.filesOpened == 0
    ensures r.totalTime == r.searchTime == searchTime && r.resultsFound == ResultsFound(stdout)
  {
    BenchmarkResult(testId, query, "mcp", timestamp, searchTime, searchTime,
                    ResultsFound(stdout), 0, 0.0, 1, McpCostEstimate, 1, 0)
  }

  /** A benchmark of the search command that reported `n` results records `n`. */
  lemma McpRecordsReportedCount(testId: string, timestamp: string, query: string, searchTime: real,
                                before: seq<string>, n: nat, after: seq<string>)
    requires forall k :: 0 <= k < |before| ==> '\n' !in before[k]
    requires forall k :: 0 <= k < |after| ==> '\n' !in after[k] && !(Mentions(after[k]) && ParseFound(after[k]).Some?)
    ensures McpResult(testId, timestamp, query, searchTime, Join(before + [FoundLine(n)] + after, "\n")).resultsFound == n
  {
    SearchOutputCounts(before, n, after);
  }

  /** `len(stdout.split('\n')) if stdout else 0`, as written. */
  function ManualCountAsWritten(stdout: string): nat {
    if stdout != "" then |SplitOn(stdout, "\n")| else 0
  }

  /** As written, the count is one more than the number of newlines in non-empty output. */
  lemma ManualCountAsWrittenNewlines(stdout: string)
    requires stdout != ""
    ensures ManualCountAsWritten(stdout) == multiset(stdout)['\n'] + 1
  {
    SplitCount(stdout, '\n');
  }

  /** grep prints every matching line followed by a newline; one matching line is counted as two. */
  lemma ManualCountAsWrittenOvercounts()
    ensures ManualCountAsWritten("a.go:3:x\n") == 2
  {
    var line := "a.go:3:x";
    assert line + "\n" + "" == "a.go:3:x\n";
    SplitFirst(line, "\n", "");
    SplitAbsent("", "\n");
  }

  /** The number of output lines: newline-terminated lines, plus an unterminated last line if any. */
  function ManualCount(stdout: string): nat {
    multiset(stdout)['\n'] + (if stdout != "" && stdout[|stdout| - 1] != '\n' then 1 else 0)
  }

  /** Output made of `n` newline-terminated lines counts as `n`. */
  lemma {:induction false} ManualCountLines(lines: seq<string>)
    requires forall k :: 0 <= k < |lines| ==> '\n' !in lines[k]
    ensures ManualCount(Terminated(lines)) == |lines|
  {
    if |lines| > 0 {
      var init := lines[..|lines| - 1];
      ManualCountLines(init);
      var last := lines[|lines| - 1];
      assert Terminated(lines) == Terminated(init) + last + "\n";
      assert multiset(last)['\n'] == 0;
      assert multiset(Terminated(lines)) == multiset(Terminated(init)) + multiset(last) + multiset("\n");
    }
  }

  /** Each line followed by a newline, as grep prints them. */
  function Terminated(lines: seq<string>): string {
    if |lines| == 0 then "" else Terminated(lines[..|lines| - 1]) + lines[|lines| - 1] + "\n"
  }

  /** On grep's newline-terminated output the count as written is one more than the number of lines, which the corrected count gives. */
  lemma ManualCountAsWrittenOffByOne(lines: seq<string>)
    requires |lines| > 0 && forall k :: 0 <= k < |lines| ==> '\n' !in lines[k]
    ensures ManualCount(Terminated(lines)) == |lines|
    ensures ManualCountAsWritten(Terminated(lines)) == |lines| + 1
  {
    var out := Terminated(lines);
    ManualCountLines(lines);
    assert out == Terminated(lines[..|lines| - 1]) + lines[|lines| - 1] + "\n";
    assert out[|out| - 1] == '\n';
    ManualCountAsWrittenNewlines(out);
  }

  /** The manual result for a result count: three fixed steps plus one per result, one file opened per result, ten seconds read per file. */
  function ManualResultOf(testId: string, timestamp: string, query: string, searchTime: real, found: nat): (r: BenchmarkResult)
    ensures r.approach == "manual" && r.apiCalls == 0 && r.costEstimate == 0.0
    ensures r.resultsFound == found && r.manualSteps == BaseManualSteps + found
    ensures r.filesOpened == found && r.totalTime == searchTime + (found as real) * SecondsPerFile
  {
    BenchmarkResult(testId, query, "manual", timestamp, searchTime, searchTime + (found as real) * SecondsPerFile,
                    found, 0, 0.0, 0, 0.0, BaseManualSteps + found, found)
  }

  /** `run_manual_search` as written: the result count is `len(stdout.split('\n'))`. */
  function ManualResult(testId: string, timestamp: string, query: string, searchTime: real, stdout: string): (r: BenchmarkResult)
    ensures r.approach == "manual" && r.apiCalls == 0
    ensures stdout == "" ==> r.resultsFound == 0
    ensures stdout != "" ==> r.resultsFound == multiset(stdout)['\n'] + 1
    ensures r.manualSteps == BaseManualSteps + r.resultsFound
    ensures r.filesOpened == r.resultsFound && r.totalTime == searchTime + (r.resultsFound as real) * SecondsPerFile
  {
    if stdout == "" then ManualResultOf(testId, timestamp, query, searchTime, ManualCountAsWritten(stdout))
    else
      ManualCountAsWrittenNewlines(stdout);
      ManualResultOf(testId, timestamp, query, searchTime, ManualCountAsWritten(stdout))
  }

  /** `run_manual_search` with the result count corrected to the number of output lines. */
  function ManualResultCorrected(testId: string, timestamp: string, query: string, searchTime: real, stdout: string): (r: BenchmarkResult)
    ensures r.approach == "manual" && r.apiCalls == 0
    ensures r.resultsFound == ManualCount(stdout) && r.manualSteps == BaseManualSteps + r.resultsFound
    ensures r.filesOpened == r.resultsFound && r.totalTime == searchTime + (r.resultsFound as real) * SecondsPerFile
  {
    ManualResultOf(testId, timestamp, query, searchTime, ManualCount(stdout))
  }

  /**
   * On grep's output of `n > 0` matching lines, the result as written records
   * `n + 1` results, one step and one file too many and ten seconds too much;
   * the corrected result records `n`.
   */
  lemma ManualResultOvercounts(testId: string, timestamp: string, query: string, searchTime: real, lines: seq<string>)
    requires |lines| > 0 && forall k :: 0 <= k < |lines| ==> '\n' !in lines[k]
    ensures ManualResultCorrected(testId, timestamp, query, searchTime, Terminated(lines)).resultsFound == |lines|
    ensures ManualResult(testId, timestamp, query, searchTime, Terminated(lines)).resultsFound == |lines| + 1
    ensures ManualResult(testId, timestamp, query, searchTime, Terminated(lines)).manualSteps ==
      ManualResultCorrected(testId, timestamp, query, searchTime, Terminated(lines)).manualSteps + 1
    ensures ManualResult(testId, timestamp, query, searchTime, Terminated(lines)).totalTime ==
      ManualResultCorrected(testId, timestamp, query, searchTime, Terminated(lines)).totalTime + SecondsPerFile
  {
    ManualCountAsWrittenOffByOne(lines);
  }

  // ---------------------------------------------------------------------------
  // compute_stats
  // ---------------------------------------------------------------------------

  function Sum(v: seq<real>): real {
    if |v| == 0 then 0.0 else Sum(v[..|v| - 1]) + v[|v| - 1]
  }

  function MinOf(v: seq<real>): (r: real)
    requires |v| > 0
    ensures r in v && forall k :: 0 <= k < |v| ==> r <= v[k]
  {
    if |v| == 1 then v[0] else Min(MinOf(v[..|v| - 1]), v[|v| - 1])
  }

  function MaxOf(v: seq<real>): (r: real)
    requires |v| > 0
    ensures r in v && forall k :: 0 <= k < |v| ==> v[k] <= r
  {
    if |v| == 1 then v[0] else Max(MaxOf(v[..|v| - 1]), v[|v| - 1])
  }

  function Min(a: real, b: real): real { if a <= b then a else b }
  function Max(a: real, b: real): real { if a >= b then a else b }

  predicate Ascending(s: seq<real>) {
    forall i, j :: 0 <= i < j < |s| ==> s[i] <= s[j]
  }

  function Insert(x: real, s: seq<real>): seq<real> {
    if |s| == 0 then [x]
    else if x <= s[0] then [x] + s
    else [s[0]] + Insert(x, s[1..])
  }

  /** `sorted(v)`, by insertion. */
  function SortedCopy(v: seq<real>): seq<real> {
    if |v| == 0 then [] else Insert(v[0], SortedCopy(v[1..]))
  }

  /** A bound below `x` and every value of `s` is below every value of `Insert(x, s)`. */
  lemma {:induction false} InsertBelow(x: real, s: seq<real>, lo: real)
    requires lo <= x && forall k :: 0 <= k < |s| ==> lo <= s[k]
    ensures forall k :: 0 <= k < |Insert(x, s)| ==> lo <= Insert(x, s)[k]
  {
    if |s| > 0 && x > s[0] {
      InsertBelow(x, s[1..], lo);
    }
  }

  /** Inserting into an ascending sequence keeps it ascending. */
  lemma {:induction false} InsertAscending(x: real, s: seq<real>)
    requires Ascending(s)
    ensures Ascending(Insert(x, s))
  {
    if |s| > 0 && x > s[0] {
      var rest := s[1..];
      InsertAscending(x, rest);
      InsertBelow(x, rest, s[0]);
      var t := Insert(x, rest);
      forall i, j | 0 <= i < j < |[s[0]] + t|
        ensures ([s[0]] + t)[i] <= ([s[0]] + t)[j]
      {
        assert ([s[0]] + t)[j] == t[j - 1];
        if i > 0 {
          assert ([s[0]] + t)[i] == t[i - 1];
        }
      }
    }
  }

  /** Inserting adds exactly the one value. */
  lemma {:induction false} InsertPermutes(x: real, s: seq<real>)
    ensures multiset(Insert(x, s)) == multiset(s) + multiset{x}
  {
    if |s| > 0 && x > s[0] {
      InsertPermutes(x, s[1..]);
      assert s == [s[0]] + s[1..];
    }
  }

  /** The sorted copy is in ascending order and a permutation of the values. */
  lemma {:induction false} SortedCopyFacts(v: seq<real>)
    ensures Ascending(SortedCopy(v)) && multiset(SortedCopy(v)) == multiset(v)
  {
    if |v| > 0 {
      SortedCopyFacts(v[1..]);
      InsertAscending(v[0], SortedCopy(v[1..]));
      InsertPermutes(v[0], SortedCopy(v[1..]));
      assert v == [v[0]] + v[1..];
    }
  }

  /** `statistics.median`: the middle of the sorted values, or the mean of the two middle ones. */
  function Median(v: seq<real>): real
    requires |v| > 0
  {
    SortedCopyFacts(v);
    var s := SortedCopy(v);
    assert |s| == |multiset(s)| == |multiset(v)| == |v|;
    if |s| % 2 == 1 then s[|s| / 2] else (s[|s| / 2 - 1] + s[|s| / 2]) / 2.0
  }

  function Mean(v: seq<real>): real
    requires |v| > 0
  {
    Sum(v) / (|v| as real)
  }

  /** The sample variance, whose square root `statistics.stdev` returns; 0 for fewer than two values, as the code sets it. */
  function Variance(v: seq<real>): real {
    if |v| > 1 then SquaredDeviations(v, Mean(v)) / ((|v| - 1) as real) else 0.0
  }

  function SquaredDeviations(v: seq<real>, m: real): real {
    if |v| == 0 then 0.0 else SquaredDeviations(v[..|v| - 1], m) + (v[|v| - 1] - m) * (v[|v| - 1] - m)
  }

  /** `compute_stats`: all zeros (and no `stdev` entry) for no values. */
  datatype MetricStats = NoValues | MetricStats(mean: real, median: real, minimum: real, maximum: real, variance: real)

  function ComputeStats(v: seq<real>): MetricStats {
    if |v| == 0 then NoValues
    else MetricStats(Mean(v), Median(v), MinOf(v), MaxOf(v), Variance(v))
  }

  /** The `mean` entry, which is 0 when there were no values. */
  function MeanEntry(s: MetricStats): real {
    if s.NoValues? then 0.0 else s.mean
  }

  lemma {:induction false} SumBounds(v: seq<real>, lo: real, hi: real)
    requires forall k :: 0 <= k < |v| ==> lo <= v[k] <= hi
    ensures (|v| as real) * lo <= Sum(v) <= (|v| as real) * hi
  {
    if |v| > 0 {
      SumBounds(v[..|v| - 1], lo, hi);
      assert (|v| as real) * lo == ((|v| - 1) as real) * lo + lo;
      assert (|v| as real) * hi == ((|v| - 1) as real) * hi + hi;
    }
  }

  lemma MedianBetween(v: seq<real>)
    requires |v| > 0
    ensures MinOf(v) <= Median(v) <= MaxOf(v)
  {
    SortedWithin(v);
    var s := SortedCopy(v);
    var n := |s|;
    if n % 2 == 1 {
      assert Median(v) == s[n / 2];
    } else {
      assert Median(v) == (s[n / 2 - 1] + s[n / 2]) / 2.0;
    }
  }

  /** Every value of the sorted copy is one of the values, so it lies between their minimum and maximum. */
  lemma SortedWithin(v: seq<real>)
    requires |v| > 0
    ensures |SortedCopy(v)| == |v|
    ensures forall k :: 0 <= k < |SortedCopy(v)| ==> MinOf(v) <= SortedCopy(v)[k] <= MaxOf(v)
  {
    SortedCopyFacts(v);
    var s := SortedCopy(v);
    assert |s| == |multiset(s)| == |multiset(v)| == |v|;
    forall k | 0 <= k < |s|
      ensures MinOf(v) <= s[k] <= MaxOf(v)
    {
      assert s[k] in multiset(v);
      var j :| 0 <= j < |v| && v[j] == s[k];
    }
  }

  lemma QuotientBetween(total: real, n: real, lo: real, hi: real)
    requires n > 0.0 && n * lo <= total <= n * hi
    ensures lo <= total / n <= hi
  {
    var q := total / n;
    assert q * n == total;
    assert (q - lo) * n == total - n * lo;
    assert (hi - q) * n == n * hi - total;
  }

  lemma MeanBounds(v: seq<real>, lo: real, hi: real)
    requires |v| > 0 && forall k :: 0 <= k < |v| ==> lo <= v[k] <= hi
    ensures lo <= Mean(v) <= hi
  {
    SumBounds(v, lo, hi);
    QuotientBetween(Sum(v), |v| as real, lo, hi);
  }

  lemma MeanBetween(v: seq<real>)
    requires |v| > 0
    ensures MinOf(v) <= Mean(v) <= MaxOf(v)
  {
    MeanBounds(v, MinOf(v), MaxOf(v));
  }

  lemma SquareNonNegative(d: real)
    ensures d * d >= 0.0
  {
    if d < 0.0 {
      assert d * d == (-d) * (-d);
    }
  }

  lemma {:induction false} SquaredDeviationsNonNegative(v: seq<real>, m: real)
    ensures SquaredDeviations(v, m) >= 0.0
  {
    if |v| > 0 {
      SquaredDeviationsNonNegative(v[..|v| - 1], m);
      SquareNonNegative(v[|v| - 1] - m);
    }
  }

  /**
   * No values give all-zero statistics; otherwise the minimum is at most the
   * median and the mean, which are at most the maximum, and the spread is
   * never negative.
   */
  lemma ComputeStatsFacts(v: seq<real>)
    ensures ComputeStats(v).NoValues? <==> |v| == 0
    ensures var s := ComputeStats(v);
      s.MetricStats? ==> s.minimum <= s.median <= s.maximum && s.minimum <= s.mean <= s.maximum && s.variance >= 0.0
    ensures |v| == 1 ==> ComputeStats(v).variance == 0.0
  {
    if |v| > 0 {
      MedianBetween(v);
      MeanBetween(v);
      if |v| > 1 {
        SquaredDeviationsNonNegative(v, Mean(v));
      }
    }
  }

  // ---------------------------------------------------------------------------
  // aggregate_results
  // ---------------------------------------------------------------------------

  datatype Metric = SearchTime | TotalTime | ResultsCount | ManualSteps | FilesOpened

  /** The key under which `save_result` stores a metric. */
  function KeyOf(m: Metric): string {
    match m
    case SearchTime => "search_time_seconds"
    case TotalTime => "total_time_seconds"
    case ResultsCount => "results_found"
    case ManualSteps => "manual_steps_required"
    case FilesOpened => "files_manually_opened"
  }

  function MetricValue(r: BenchmarkResult, m: Metric): real {
    match m
    case SearchTime => r.searchTime
    case TotalTime => r.totalTime
    case ResultsCount => r.resultsFound as real
    case ManualSteps => r.manualSteps as real
    case FilesOpened => r.filesOpened as real
  }

  /**
   * A loaded results file: the JSON object `json.load` reads from one `*.json`
   * file of the output directory, in the order the directory listing gives.
   */
  type Loaded = map<string, Value>

  const MethodKey := "method"
  const CostKey := "cost_estimate_usd"

  /** `asdict(result)`: the object `save_result` writes as `<test_id>.json`. */
  function SavedForm(r: BenchmarkResult): Loaded {
    map["test_id" := Str(r.testId), "query" := Str(r.query), MethodKey := Str(r.approach),
        "timestamp" := Str(r.timestamp), "search_time_seconds" := Float(r.searchTime),
        "total_time_seconds" := Float(r.totalTime), "results_found" := Int(r.resultsFound),
        "relevant_results" := Int(r.relevantResults), "precision" := Float(r.precision),
        "api_calls" := Int(r.apiCalls), CostKey := Float(r.costEstimate),
        "manual_steps_required" := Int(r.manualSteps), "files_manually_opened" := Int(r.filesOpened)]
  }

  /** The entries of a saved result that the aggregation reads. */
  lemma SavedEntries(r: BenchmarkResult, m: Metric)
    ensures MethodKey in SavedForm(r) && SavedForm(r)[MethodKey] == Str(r.approach)
    ensures CostKey in SavedForm(r) && Number(SavedForm(r)[CostKey]) == Some(r.costEstimate)
    ensures KeyOf(m) in SavedForm(r) && Number(SavedForm(r)[KeyOf(m)]) == Some(MetricValue(r, m))
  {
  }

  /** `r['method'] == approach`, for a file that has the entry. */
  function MethodIs(approach: string): Loaded -> bool {
    (f: Loaded) => MethodKey in f && f[MethodKey] == Str(approach)
  }

  /** The file has a `method` entry, as every file `save_result` writes does. */
  predicate HasMethod(f: Loaded) {
    MethodKey in f
  }

  /** Some file has no `method` entry. */
  predicate SomeLacksMethod(files: seq<Loaded>) {
    exists k :: 0 <= k < |files| && MethodKey !in files[k]
  }

  /** `[r for r in all_results if r['method'] == approach]`: `KeyError('method')` on a file without the entry. */
  function WithMethod(files: seq<Loaded>, approach: string): Result<seq<Loaded>, string> {
    if SomeLacksMethod(files) then Failure(MissingKey(MethodKey)) else Success(Filter(MethodIs(approach), files))
  }

  /**
   * The partition fails exactly when a file lacks `method`; otherwise it holds
   * each file of that method as often as the input does and no other file, and
   * the partition of a concatenation is the concatenation of the partitions.
   */
  lemma WithMethodFacts(files: seq<Loaded>, more: seq<Loaded>, approach: string)
    ensures WithMethod(files, approach).Failure? <==> SomeLacksMethod(files)
    ensures WithMethod(files, approach).Failure? ==> WithMethod(files, approach).error == MissingKey(MethodKey)
    ensures WithMethod(files, approach).Success? ==> forall f ::
      multiset(WithMethod(files, approach).value)[f] == if MethodIs(approach)(f) then multiset(files)[f] else 0
    ensures WithMethod(files, approach).Success? && WithMethod(more, approach).Success? ==>
      WithMethod(files + more, approach) == Success(WithMethod(files, approach).value + WithMethod(more, approach).value)
  {
    FilterMultiset(MethodIs(approach), files);
    FilterConcat(MethodIs(approach), files, more);
    if !SomeLacksMethod(files) && !SomeLacksMethod(more) {
      forall k | 0 <= k < |files + more| ensures MethodKey in (files + more)[k] {
        if k >= |files| {
          assert (files + more)[k] == more[k - |files|];
        }
      }
    }
  }

  /** `[r[metric] for r in results if metric in r]`. */
  function MetricValues(results: seq<Loaded>, key: string): seq<Value> {
    if |results| == 0 then []
    else
      var last := results[|results| - 1];
      MetricValues(results[..|results| - 1], key) + (if key in last then [last[key]] else [])
  }

  /** When every file has the entry, the values are those entries, in file order. */
  lemma {:induction false} ValuesAllPresent(results: seq<Loaded>, key: string)
    requires forall k :: 0 <= k < |results| ==> key in results[k]
    ensures |MetricValues(results, key)| == |results|
    ensures forall k :: 0 <= k < |results| ==> MetricValues(results, key)[k] == results[k][key]
  {
    if |results| > 0 {
      ValuesAllPresent(results[..|results| - 1], key);
    }
  }

  /** A file without the entry contributes nothing, wherever it stands. */
  lemma {:induction false} ValuesSkipMissing(before: seq<Loaded>, f: Loaded, after: seq<Loaded>, key: string)
    requires key !in f
    ensures MetricValues(before + [f] + after, key) == MetricValues(before + after, key)
    decreases |after|
  {
    if |after| > 0 {
      var init := after[..|after| - 1];
      assert (before + [f] + after)[..|before + [f] + after| - 1] == before + [f] + init;
      assert (before + after)[..|before + after| - 1] == before + init;
      ValuesSkipMissing(before, f, init, key);
    } else {
      assert before + [f] + after == before + [f] && (before + [f])[..|before|] == before;
      assert before + after == before;
    }
  }

  /** The number a JSON value stands for; `bool` counts as an `int`, as in Python. */
  function Number(v: Value): Option<real> {
    match v
    case Int(i) => Some(i as real)
    case Float(x) => Some(x)
    case Bool(b) => Some(if b then 1.0 else 0.0)
    case _ => None
  }

  /** The values as numbers, when every one of them is a number. */
  function Numbers(vs: seq<Value>): (r: Option<seq<real>>)
    ensures r.Some? <==> forall k :: 0 <= k < |vs| ==> Number(vs[k]).Some?
    ensures r.Some? ==> |r.value| == |vs| && forall k :: 0 <= k < |vs| ==> Number(vs[k]) == Some(r.value[k])
  {
    if |vs| == 0 then Some([])
    else
      match Numbers(vs[..|vs| - 1])
      case None => None
      case Some(init) =>
        match Number(vs[|vs| - 1])
        case None => None
        case Some(x) => Some(init + [x])
  }

  /** `str(e)` of the `TypeError` that `statistics` or `sum` raise on a value that is not a number (stand-in text). */
  const NotANumber := "a metric value is not a number"

  /** `compute_stats(results, key)`: the statistics of the present values; a non-number raises. */
  function StatsOf(results: seq<Loaded>, key: string): Result<MetricStats, string> {
    match Numbers(MetricValues(results, key))
    case None => Failure(NotANumber)
    case Some(v) => Success(ComputeStats(v))
  }

  /** `sum(r['cost_estimate_usd'] for r in results)`: the first file lacking the key, or with a non-number, raises. */
  function CostTotal(results: seq<Loaded>): Result<real, string> {
    if |results| == 0 then Success(0.0)
    else
      var last := results[|results| - 1];
      match CostTotal(results[..|results| - 1])
      case Failure(e) => Failure(e)
      case Success(t) =>
        if CostKey !in last then Failure(MissingKey(CostKey))
        else match Number(last[CostKey])
          case None => Failure(NotANumber)
          case Some(x) => Success(t + x)
  }

  datatype MethodMetrics = MethodMetrics(
    searchTime: MetricStats, totalTime: MetricStats, resultsFound: MetricStats,
    manualSteps: MetricStats, filesOpened: MetricStats, totalCost: real)

  /** The per-method block of the summary, computed in the dictionary's order; the first error raised wins. */
  function Metrics(results: seq<Loaded>, cost: Result<real, string>): Result<MethodMetrics, string> {
    var searchTime := StatsOf(results, KeyOf(SearchTime));
    var totalTime := StatsOf(results, KeyOf(TotalTime));
    var found := StatsOf(results, KeyOf(ResultsCount));
    var steps := StatsOf(results, KeyOf(ManualSteps));
    var files := StatsOf(results, KeyOf(FilesOpened));
    if searchTime.Failure? then Failure(searchTime.error)
    else if totalTime.Failure? then Failure(totalTime.error)
    else if found.Failure? then Failure(found.error)
    else if steps.Failure? then Failure(steps.error)
    else if files.Failure? then Failure(files.error)
    else if cost.Failure? then Failure(cost.error)
    else Success(MethodMetrics(searchTime.value, totalTime.value, found.value, steps.value, files.value, cost.value))
  }

  datatype Improvements = Improvements(
    timeSaved: real, timeSavedPercent: real, speedup: real, stepsReduced: real, filesSaved: real)

  /** The improvements block, from the two methods' mean total times, steps and files. */
  function ImprovementsOf(mcp: MethodMetrics, manual: MethodMetrics): Improvements {
    var mcpTime := MeanEntry(mcp.totalTime);
    var manualTime := MeanEntry(manual.totalTime);
    Improvements(
      manualTime - mcpTime,
      if manualTime > 0.0 then (manualTime - mcpTime) / manualTime * 100.0 else 0.0,
      if mcpTime > 0.0 then manualTime / mcpTime else 0.0,
      MeanEntry(manual.manualSteps) - MeanEntry(mcp.manualSteps),
      MeanEntry(manual.filesOpened))
  }

  /** The summary: an error for no files, else the counts, both methods' metrics and, when both ran, the improvements. */
  datatype Summary =
    | NoResultsError
    | Summary(totalTests: nat, mcpTests: nat, manualTests: nat,
              mcp: MethodMetrics, manual: MethodMetrics, improvements: Option<Improvements>)

  /** `aggregate_results` over the loaded files; `Failure` carries `str(e)` of the exception it raises. */
  function Aggregate(files: seq<Loaded>): Result<Summary, string> {
    if |files| == 0 then Success(NoResultsError)
    else
      match WithMethod(files, "mcp")
      case Failure(e) => Failure(e)
      case Success(mcp) =>
        match WithMethod(files, "manual")
        case Failure(e) => Failure(e)
        case Success(manual) =>
          match Metrics(mcp, CostTotal(mcp))
          case Failure(e) => Failure(e)
          case Success(mcpMetrics) =>
            match Metrics(manual, Success(0.0))
            case Failure(e) => Failure(e)
            case Success(manualMetrics) =>
              Success(Summary(|files|, |mcp|, |manual|, mcpMetrics, manualMetrics,
                              if |mcp| > 0 && |manual| > 0 then Some(ImprovementsOf(mcpMetrics, manualMetrics)) else None))
  }

  /** Every file of the two partitions is a different file of the input. */
  lemma {:induction false} PartitionCount(files: seq<Loaded>)
    ensures |Filter(MethodIs("mcp"), files)| + |Filter(MethodIs("manual"), files)| <= |files|
    ensures (forall k :: 0 <= k < |files| ==> MethodIs("mcp")(files[k]) || MethodIs("manual")(files[k])) ==>
      |Filter(MethodIs("mcp"), files)| + |Filter(MethodIs("manual"), files)| == |files|
  {
    if |files| > 0 {
      PartitionCount(files[..|files| - 1]);
    }
  }

  /**
   * No files give the error summary; a file without `method` raises
   * `KeyError('method')`; a summary counts every file, at most once in the two
   * method partitions, and has the improvements exactly when both methods have
   * files.
   */
  lemma AggregateFacts(files: seq<Loaded>)
    ensures Aggregate(files) == Success(NoResultsError) <==> |files| == 0
    ensures |files| > 0 && SomeLacksMethod(files) ==> Aggregate(files) == Failure(MissingKey(MethodKey))
    ensures Aggregate(files).Success? && Aggregate(files).value.Summary? ==>
      && Aggregate(files).value.totalTests == |files|
      && Aggregate(files).value.mcpTests + Aggregate(files).value.manualTests <= |files|
      && (Aggregate(files).value.improvements.Some? <==>
          Aggregate(files).value.mcpTests > 0 && Aggregate(files).value.manualTests > 0)
  {
    PartitionCount(files);
  }

  /** The top-level keys of the summary `main` writes as `summary_<session>.json` into the same directory. */
  function SummaryKeys(s: Summary): set<string> {
    if s.NoResultsError? then {"error"}
    else {"total_tests", "mcp_tests", "manual_tests", "generated_at", "mcp_metrics", "manual_metrics"}
         + (if s.improvements.Some? then {"improvements"} else {})
  }

  /** A summary has no `method` entry. */
  lemma SummaryLacksMethod(s: Summary)
    ensures MethodKey !in SummaryKeys(s)
  {
  }

  /** As written: a summary saved by an earlier run is one of the `*.json` files, and aggregating raises `KeyError('method')`. */
  lemma SummaryFileBreaksAggregate(before: seq<Loaded>, summary: Loaded, s: Summary, after: seq<Loaded>)
    requires summary.Keys == SummaryKeys(s)
    ensures Aggregate(before + [summary] + after) == Failure(MissingKey(MethodKey))
  {
    var files := before + [summary] + after;
    SummaryLacksMethod(s);
    assert SomeLacksMethod(files) by {
      assert files[|before|] == summary;
    }
    AggregateFacts(files);
  }

  /** Corrected: the aggregation over the saved results only, passing over files without a `method` entry. */
  function AggregateResults(files: seq<Loaded>): Result<Summary, string> {
    Aggregate(Filter(HasMethod, files))
  }

  /** Corrected: an earlier summary among the files changes nothing. */
  lemma SummaryFileIgnored(before: seq<Loaded>, summary: Loaded, s: Summary, after: seq<Loaded>)
    requires summary.Keys == SummaryKeys(s)
    ensures AggregateResults(before + [summary] + after) == AggregateResults(before + after)
  {
    SummaryLacksMethod(s);
    assert Filter(HasMethod, before + [summary] + after) == Filter(HasMethod, before + after) by {
      FilterConcat(HasMethod, before + [summary], after);
      FilterConcat(HasMethod, before, [summary]);
      FilterConcat(HasMethod, before, after);
      assert Filter(HasMethod, [summary]) == [] by {
        assert [summary][..0] == [];
      }
    }
  }

  /** `sum(r.cost_estimate_usd for r in results)` over the results themselves. */
  function CostSum(results: seq<BenchmarkResult>): real {
    if |results| == 0 then 0.0 else CostSum(results[..|results| - 1]) + results[|results| - 1].costEstimate
  }

  /** A metric read back from saved files is the statistics of that metric of the results. */
  lemma StatsSaved(results: seq<BenchmarkResult>, m: Metric)
    ensures StatsOf(MapSeq(SavedForm, results), KeyOf(m)) ==
      Success(ComputeStats(MapSeq((r: BenchmarkResult) => MetricValue(r, m), results)))
  {
    var files := MapSeq(SavedForm, results);
    forall k | 0 <= k < |files| ensures KeyOf(m) in files[k] {
      SavedEntries(results[k], m);
    }
    ValuesAllPresent(files, KeyOf(m));
    var v := Numbers(MetricValues(files, KeyOf(m)));
    assert v.Some? by {
      forall k | 0 <= k < |files| ensures Number(MetricValues(files, KeyOf(m))[k]).Some? {
        SavedEntries(results[k], m);
      }
    }
    assert v.value == MapSeq((r: BenchmarkResult) => MetricValue(r, m), results) by {
      forall k | 0 <= k < |results| ensures v.value[k] == MetricValue(results[k], m) {
        SavedEntries(results[k], m);
      }
    }
  }

  /** The cost read back from saved files is the sum of the results' costs. */
  lemma {:induction false} CostSaved(results: seq<BenchmarkResult>)
    ensures CostTotal(MapSeq(SavedForm, results)) == Success(CostSum(results))
  {
    if |results| > 0 {
      CostSaved(results[..|results| - 1]);
      assert MapSeq(SavedForm, results)[..|results| - 1] == MapSeq(SavedForm, results[..|results| - 1]);
    }
  }

  /** `r.method == approach` on a result. */
  function ApproachIs(approach: string): BenchmarkResult -> bool {
    (r: BenchmarkResult) => r.approach == approach
  }

  /** The metrics block for saved results is the statistics of the results' own metrics. */
  lemma MetricsSaved(results: seq<BenchmarkResult>, cost: real)
    ensures Metrics(MapSeq(SavedForm, results), Success(cost)) == Success(MethodMetrics(
      ComputeStats(MapSeq((r: BenchmarkResult) => MetricValue(r, SearchTime), results)),
      ComputeStats(MapSeq((r: BenchmarkResult) => MetricValue(r, TotalTime), results)),
      ComputeStats(MapSeq((r: BenchmarkResult) => MetricValue(r, ResultsCount), results)),
      ComputeStats(MapSeq((r: BenchmarkResult) => MetricValue(r, ManualSteps), results)),
      ComputeStats(MapSeq((r: BenchmarkResult) => MetricValue(r, FilesOpened), results)), cost))
  {
    StatsSaved(results, SearchTime);
    StatsSaved(results, TotalTime);
    StatsSaved(results, ResultsCount);
    StatsSaved(results, ManualSteps);
    StatsSaved(results, FilesOpened);
  }

  /**
   * Aggregating the files `save_result` wrote for some results succeeds: every
   * result is counted, the partitions are the results of each method, and the
   * MCP cost is their summed cost estimate. The corrected aggregation agrees.
   */
  lemma AggregateSaved(results: seq<BenchmarkResult>)
    ensures Aggregate(MapSeq(SavedForm, results)).Success?
    ensures AggregateResults(MapSeq(SavedForm, results)) == Aggregate(MapSeq(SavedForm, results))
    ensures |results| == 0 <==> Aggregate(MapSeq(SavedForm, results)).value.NoResultsError?
    ensures Aggregate(MapSeq(SavedForm, results)).value.Summary? ==>
      && Aggregate(MapSeq(SavedForm, results)).value.totalTests == |results|
      && Aggregate(MapSeq(SavedForm, results)).value.mcpTests == |Filter(ApproachIs("mcp"), results)|
      && Aggregate(MapSeq(SavedForm, results)).value.manualTests == |Filter(ApproachIs("manual"), results)|
      && Aggregate(MapSeq(SavedForm, results)).value.mcp.totalCost == CostSum(Filter(ApproachIs("mcp"), results))
      && Aggregate(MapSeq(SavedForm, results)).value.manual.totalCost == 0.0
  {
    var files := MapSeq(SavedForm, results);
    forall x: BenchmarkResult ensures MethodIs("mcp")(SavedForm(x)) == ApproachIs("mcp")(x)
                                && MethodIs("manual")(SavedForm(x)) == ApproachIs("manual")(x) {
      SavedEntries(x, SearchTime);
    }
    assert !SomeLacksMethod(files) by {
      forall k | 0 <= k < |files| ensures MethodKey in files[k] {
        SavedEntries(results[k], SearchTime);
      }
    }
    assert AggregateResults(files) == Aggregate(files) by {
      FilterAll(HasMethod, files);
    }
    if |results| > 0 {
      var mcp := Filter(ApproachIs("mcp"), results);
      var manual := Filter(ApproachIs("manual"), results);
      assert WithMethod(files, "mcp") == Success(MapSeq(SavedForm, mcp)) by {
        FilterMap(MethodIs("mcp"), ApproachIs("mcp"), SavedForm, results);
      }
      assert WithMethod(files, "manual") == Success(MapSeq(SavedForm, manual)) by {
        FilterMap(MethodIs("manual"), ApproachIs("manual"), SavedForm, results);
      }
      CostSaved(mcp);
      MetricsSaved(mcp, CostSum(mcp));
      MetricsSaved(manual, 0.0);
      var mcpMetrics := Metrics(MapSeq(SavedForm, mcp), Success(CostSum(mcp))).value;
      var manualMetrics := Metrics(MapSeq(SavedForm, manual), Success(0.0)).value;
      assert Aggregate(files) == Success(Summary(|files|, |mcp|, |manual|, mcpMetrics, manualMetrics,
        if |mcp| > 0 && |manual| > 0 then Some(ImprovementsOf(mcpMetrics, manualMetrics)) else None));
    }
  }

  /** Percentages and speedups divide only by positive mean times; otherwise they are 0. */
  lemma ImprovementsGuarded(mcp: MethodMetrics, manual: MethodMetrics)
    ensures MeanEntry(manual.totalTime) <= 0.0 ==> ImprovementsOf(mcp, manual).timeSavedPercent == 0.0
    ensures MeanEntry(mcp.totalTime) <= 0.0 ==> ImprovementsOf(mcp, manual).speedup == 0.0
    ensures MeanEntry(mcp.totalTime) > 0.0 ==>
      ImprovementsOf(mcp, manual).speedup * MeanEntry(mcp.totalTime) == MeanEntry(manual.totalTime)
  {
  }
}
