// End-to-end self-test bookkeeping (backend/lib/test-utils.ts).
//
// The tester runs eight probes in a fixed order and records one result per
// probe; a summary counts passes and failures, adds up durations and lists
// the failures. Trial statistics partition the stored trials by source and by
// confidence band. Duplicate detection compares every pair of trials once.

module TestUtils {
  import opened Common

  // ---------------------------------------------------------------------------
  // findDuplicateTrials.

  /** Two trials look like duplicates when their lower-cased service names are
      equal and both end dates parse to instants at most seven days apart (an
      Invalid Date makes the day difference NaN, which is never <= 7). */
  predicate IsDuplicate(t1: Trial, t2: Trial, parse: DateParser)
  {
    && ToLower(t1.serviceName) == ToLower(t2.serviceName)
    && parse(t1.trialEnd).Some? && parse(t2.trialEnd).Some?
    && AbsInt(parse(t1.trialEnd).value - parse(t2.trialEnd).value) <= 7 * DAY_MS
  }

  datatype DuplicatePair = DuplicatePair(trial1: Trial, trial2: Trial, daysApart: real)

  /** Whole days and fractions between the two end dates, as the reason text reports. */
  function DaysApart(t1: Trial, t2: Trial, parse: DateParser): real
  {
    if parse(t1.trialEnd).Some? && parse(t2.trialEnd).Some?
    then AbsInt(parse(t1.trialEnd).value - parse(t2.trialEnd).value) as real / DAY_MS as real
    else 0.0
  }

  /** (a, b) comes before (c, d) in the order the nested loops visit pairs. */
  predicate LexLess(p: (nat, nat), q: (nat, nat))
  {
    p.0 < q.0 || (p.0 == q.0 && p.1 < q.1)
  }

  /** Strictly increasing in visiting order: no pair occurs twice. */
  ghost predicate SortedPairs(r: seq<(nat, nat)>)
  {
    forall a, b :: 0 <= a < b < |r| ==> LexLess(r[a], r[b])
  }

  /** The pairs (i, j') with i < j' < j that the inner loop has reported for
      row i once it reaches j, in visiting order. */
  function RowPairs(ts: seq<Trial>, parse: DateParser, i: nat, j: nat): seq<(nat, nat)>
    requires i < |ts| && j <= |ts|
    decreases j
  {
    if j <= i + 1 then []
    else RowPairs(ts, parse, i, j - 1) + (if IsDuplicate(ts[i], ts[j - 1], parse) then [(i, j - 1)] else [])
  }

  /** The pairs reported once the outer loop reaches i: all rows before i. */
  function PairsBelow(ts: seq<Trial>, parse: DateParser, i: nat): seq<(nat, nat)>
    requires i <= |ts|
  {
    if i == 0 then [] else PairsBelow(ts, parse, i - 1) + RowPairs(ts, parse, i - 1, |ts|)
  }

  /** All reported index pairs. */
  function AllPairs(ts: seq<Trial>, parse: DateParser): seq<(nat, nat)>
  {
    PairsBelow(ts, parse, |ts|)
  }

  function MakePair(ts: seq<Trial>, parse: DateParser, p: (nat, nat)): DuplicatePair
    requires p.0 < |ts| && p.1 < |ts|
  {
    DuplicatePair(ts[p.0], ts[p.1], DaysApart(ts[p.0], ts[p.1], parse))
  }

  /** The pairs reported so far are `idx`, each turned into its record. */
  ghost predicate Reported(ts: seq<Trial>, parse: DateParser, duplicates: seq<DuplicatePair>, idx: seq<(nat, nat)>)
  {
    |duplicates| == |idx| &&
    forall k :: 0 <= k < |idx| ==>
      idx[k].0 < |ts| && idx[k].1 < |ts| && duplicates[k] == MakePair(ts, parse, idx[k])
  }

  /** The nested loops over i < j, pushing each duplicate pair as found. */
  method FindDuplicateTrials(trials: seq<Trial>, parse: DateParser) returns (duplicates: seq<DuplicatePair>)
    ensures Reported(trials, parse, duplicates, AllPairs(trials, parse))
  {
    duplicates := [];
    ghost var idx: seq<(nat, nat)> := [];
    var i := 0;
    while i < |trials|
      invariant 0 <= i <= |trials|
      invariant idx == PairsBelow(trials, parse, i)
      invariant Reported(trials, parse, duplicates, idx)
    {
      duplicates, idx := ComparePairsOf(trials, parse, i, duplicates, idx);
      i := i + 1;
    }
  }

  /** The inner loop: trial i against every later trial j. */
  method ComparePairsOf(trials: seq<Trial>, parse: DateParser, i: nat,
                        duplicates0: seq<DuplicatePair>, ghost idx0: seq<(nat, nat)>)
    returns (duplicates: seq<DuplicatePair>, ghost idx: seq<(nat, nat)>)
    requires i < |trials|
    requires Reported(trials, parse, duplicates0, idx0)
    ensures Reported(trials, parse, duplicates, idx)
    ensures idx == idx0 + RowPairs(trials, parse, i, |trials|)
  {
    duplicates, idx := duplicates0, idx0;
    var j := i + 1;
    while j < |trials|
      invariant i + 1 <= j <= |trials|
      invariant idx == idx0 + RowPairs(trials, parse, i, j)
      invariant Reported(trials, parse, duplicates, idx)
    {
      var trial1 := trials[i];
      var trial2 := trials[j];
      ghost var row := RowPairs(trials, parse, i, j);
      assert RowPairs(trials, parse, i, j + 1)
        == row + (if IsDuplicate(trial1, trial2, parse) then [(i, j)] else []);
      if IsDuplicate(trial1, trial2, parse) {
        ReportedSnoc(trials, parse, duplicates, idx, (i, j));
        AppendAssoc(idx0, row, [(i, j)]);
        duplicates := duplicates + [DuplicatePair(trial1, trial2, DaysApart(trial1, trial2, parse))];
        idx := idx + [(i, j)];
      } else {
        assert row + [] == row;
      }
      j := j + 1;
    }
  }

  lemma ReportedSnoc(ts: seq<Trial>, parse: DateParser, duplicates: seq<DuplicatePair>, idx: seq<(nat, nat)>, p: (nat, nat))
    requires Reported(ts, parse, duplicates, idx)
    requires p.0 < |ts| && p.1 < |ts|
    ensures Reported(ts, parse, duplicates + [MakePair(ts, parse, p)], idx + [p])
  {
  }

  /** Row i reports exactly the later trials j < bound that duplicate trial i. */
  lemma {:induction false} RowPairsMember(ts: seq<Trial>, parse: DateParser, i: nat, j: nat, a: nat, b: nat)
    requires i < |ts| && j <= |ts|
    ensures (a, b) in RowPairs(ts, parse, i, j) <==> a == i && i < b < j && IsDuplicate(ts[i], ts[b], parse)
    decreases j
  {
    if j > i + 1 {
      RowPairsMember(ts, parse, i, j - 1, a, b);
    }
  }

  /** The rows before i report exactly the duplicate pairs a < b with a < i. */
  lemma {:induction false} PairsBelowMember(ts: seq<Trial>, parse: DateParser, i: nat, a: nat, b: nat)
    requires i <= |ts|
    ensures (a, b) in PairsBelow(ts, parse, i) <==> a < i && a < b < |ts| && IsDuplicate(ts[a], ts[b], parse)
  {
    if i > 0 {
      PairsBelowStep(ts, parse, i, (a, b));
      PairsBelowMember(ts, parse, i - 1, a, b);
      RowPairsMember(ts, parse, i - 1, |ts|, a, b);
    }
  }

  lemma PairsBelowStep(ts: seq<Trial>, parse: DateParser, i: nat, p: (nat, nat))
    requires 0 < i <= |ts|
    ensures p in PairsBelow(ts, parse, i) <==> p in PairsBelow(ts, parse, i - 1) || p in RowPairs(ts, parse, i - 1, |ts|)
  {
  }

  /** A pair is reported exactly when it is a duplicate at positions a < b, so
      every reported pair is a duplicate in its own right (no transitive merging). */
  lemma DuplicateMember(ts: seq<Trial>, parse: DateParser, a: nat, b: nat)
    ensures (a, b) in AllPairs(ts, parse) <==> a < b < |ts| && IsDuplicate(ts[a], ts[b], parse)
  {
    PairsBelowMember(ts, parse, |ts|, a, b);
  }

  /** Joining two sorted lists, every pair of the first before every pair of
      the second, gives a sorted list. */
  lemma {:induction false} SortedAppend(a: seq<(nat, nat)>, b: seq<(nat, nat)>)
    requires SortedPairs(a) && SortedPairs(b)
    requires forall x, y :: 0 <= x < |a| && 0 <= y < |b| ==> LexLess(a[x], b[y])
    ensures SortedPairs(a + b)
  {
    var r := a + b;
    forall x, y | 0 <= x < y < |r| ensures LexLess(r[x], r[y]) {
      if y < |a| {
        assert r[x] == a[x] && r[y] == a[y];
      } else if x < |a| {
        assert r[x] == a[x] && r[y] == b[y - |a|];
      } else {
        assert r[x] == b[x - |a|] && r[y] == b[y - |a|];
      }
    }
  }

  /** Every pair of row i is (i, j') with i < j' < j. */
  lemma {:induction false} RowPairsBounds(ts: seq<Trial>, parse: DateParser, i: nat, j: nat)
    requires i < |ts| && j <= |ts|
    ensures forall k :: 0 <= k < |RowPairs(ts, parse, i, j)| ==>
      RowPairs(ts, parse, i, j)[k].0 == i && i < RowPairs(ts, parse, i, j)[k].1 < j
    decreases j
  {
    if j > i + 1 {
      RowPairsBounds(ts, parse, i, j - 1);
    }
  }

  /** Every pair of the rows before i starts before i. */
  lemma {:induction false} PairsBelowBounds(ts: seq<Trial>, parse: DateParser, i: nat)
    requires i <= |ts|
    ensures forall k :: 0 <= k < |PairsBelow(ts, parse, i)| ==> PairsBelow(ts, parse, i)[k].0 < i
  {
    if i > 0 {
      PairsBelowBounds(ts, parse, i - 1);
      RowPairsBounds(ts, parse, i - 1, |ts|);
    }
  }

  /** Row i comes out in increasing j. */
  lemma {:induction false} RowPairsSorted(ts: seq<Trial>, parse: DateParser, i: nat, j: nat)
    requires i < |ts| && j <= |ts|
    ensures SortedPairs(RowPairs(ts, parse, i, j))
    decreases j
  {
    if j > i + 1 {
      RowPairsSorted(ts, parse, i, j - 1);
      RowPairsBounds(ts, parse, i, j - 1);
      var row := RowPairs(ts, parse, i, j - 1);
      var last: seq<(nat, nat)> := if IsDuplicate(ts[i], ts[j - 1], parse) then [(i, j - 1)] else [];
      SortedAppend(row, last);
    }
  }

  /** The rows before i come out in (a, b) order. */
  lemma {:induction false} PairsBelowSorted(ts: seq<Trial>, parse: DateParser, i: nat)
    requires i <= |ts|
    ensures SortedPairs(PairsBelow(ts, parse, i))
  {
    if i > 0 {
      PairsBelowSorted(ts, parse, i - 1);
      PairsBelowBounds(ts, parse, i - 1);
      RowPairsSorted(ts, parse, i - 1, |ts|);
      RowPairsBounds(ts, parse, i - 1, |ts|);
      SortedAppend(PairsBelow(ts, parse, i - 1), RowPairs(ts, parse, i - 1, |ts|));
    }
  }

  /** Pairs come out strictly in (i, j) order: no pair is reported twice. */
  lemma DuplicatesSorted(ts: seq<Trial>, parse: DateParser)
    ensures SortedPairs(AllPairs(ts, parse))
  {
    PairsBelowSorted(ts, parse, |ts|);
  }

  /** Number of pairs (a, b) with a < b < m. */
  function Tri(m: nat): nat
  {
    if m == 0 then 0 else (m - 1) + Tri(m - 1)
  }

  lemma {:induction false} TriClosedForm(m: nat)
    ensures 2 * Tri(m) == m * (m - 1)
  {
    if m > 0 {
      TriClosedForm(m - 1);
    }
  }

  lemma {:induction false} RowPairsCount(ts: seq<Trial>, parse: DateParser, i: nat, j: nat)
    requires i < |ts| && j <= |ts|
    ensures |RowPairs(ts, parse, i, j)| <= if j <= i + 1 then 0 else j - i - 1
    decreases j
  {
    if j > i + 1 {
      RowPairsCount(ts, parse, i, j - 1);
    }
  }

  lemma {:induction false} PairsBelowCount(ts: seq<Trial>, parse: DateParser, i: nat)
    requires i <= |ts|
    ensures |PairsBelow(ts, parse, i)| + Tri(|ts| - i) <= Tri(|ts|)
  {
    if i > 0 {
      PairsBelowCount(ts, parse, i - 1);
      RowPairsCount(ts, parse, i - 1, |ts|);
      assert Tri(|ts| - i + 1) == |ts| - i + Tri(|ts| - i);
    }
  }

  /** At most n(n-1)/2 pairs are reported. */
  lemma DuplicateCount(ts: seq<Trial>, parse: DateParser)
    ensures 2 * |AllPairs(ts, parse)| <= |ts| * (|ts| - 1)
  {
    PairsBelowCount(ts, parse, |ts|);
    TriClosedForm(|ts|);
  }

  // ---------------------------------------------------------------------------
  // The detection statistics of testTrialDetection.

  function CountSource(ts: seq<Trial>, s: Source): nat
  {
    if ts == [] then 0 else (if ts[0].source == s then 1 else 0) + CountSource(ts[1..], s)
  }

  function CountBand(ts: seq<Trial>, band: Band): nat
  {
    if ts == [] then 0 else (if BandOf(ts[0].confidence) == band then 1 else 0) + CountBand(ts[1..], band)
  }

  function CountActive(ts: seq<Trial>): nat
  {
    if ts == [] then 0 else (if ts[0].status == "active" then 1 else 0) + CountActive(ts[1..])
  }

  datatype Band = HighBand | MediumBand | LowBand

  /** The confidence bands: >= 0.8, [0.5, 0.8), < 0.5. */
  function BandOf(c: real): Band
  {
    if c >= 0.8 then HighBand else if c >= 0.5 then MediumBand else LowBand
  }

  datatype DetectionStats = DetectionStats(
    totalTrials: nat,
    email: nat, financial: nat, manual: nat,
    high: nat, medium: nat, low: nat,
    activeTrials: nat)

  function DetectionStatsOf(ts: seq<Trial>): (s: DetectionStats)
    ensures s.totalTrials == |ts|
    ensures s.high + s.medium + s.low == s.totalTrials
    ensures s.email + s.financial + s.manual == s.totalTrials
    ensures s.activeTrials <= s.totalTrials
  {
    BandPartition(ts);
    SourcePartition(ts);
    ActiveBound(ts);
    DetectionStats(
      |ts|,
      CountSource(ts, EmailSource), CountSource(ts, FinancialSource), CountSource(ts, ManualSource),
      CountBand(ts, HighBand), CountBand(ts, MediumBand), CountBand(ts, LowBand),
      CountActive(ts))
  }

  /** Every trial is in exactly one confidence band. */
  lemma {:induction false} BandPartition(ts: seq<Trial>)
    ensures CountBand(ts, HighBand) + CountBand(ts, MediumBand) + CountBand(ts, LowBand) == |ts|
  {
    if ts != [] {
      BandPartition(ts[1..]);
    }
  }

  /** Every trial has exactly one of the three sources. */
  lemma {:induction false} SourcePartition(ts: seq<Trial>)
    ensures CountSource(ts, EmailSource) + CountSource(ts, FinancialSource) + CountSource(ts, ManualSource) == |ts|
  {
    if ts != [] {
      SourcePartition(ts[1..]);
    }
  }

  lemma {:induction false} ActiveBound(ts: seq<Trial>)
    ensures CountActive(ts) <= |ts|
  {
    if ts != [] {
      ActiveBound(ts[1..]);
    }
  }

  // ---------------------------------------------------------------------------
  // Test results and the summary.

  datatype TestResult = TestResult(success: bool, message: string, error: Option<string>, duration: Option<int>)

  datatype FlowTestResult = FlowTestResult(step: string, result: TestResult, timestamp: string)

  datatype TestSummary = TestSummary(
    totalTests: nat,
    passed: nat,
    failed: nat,
    totalDuration: int,
    criticalIssues: seq<string>)

  /** The probes of the full flow, in the order they run. */
  const FLOW_TESTS: seq<string> := [
    "Gmail Connection", "Plaid Connection", "Calendar Connection", "Trial Detection",
    "Duplicate Detection", "Calendar Sync", "Notifications", "RLS Security"
  ]

  function Passed(rs: seq<FlowTestResult>): nat
  {
    if rs == [] then 0 else (if rs[0].result.success then 1 else 0) + Passed(rs[1..])
  }

  /** `duration || 0`. */
  function DurationOf(r: FlowTestResult): int
  {
    if r.result.duration.Some? then r.result.duration.value else 0
  }

  function TotalDuration(rs: seq<FlowTestResult>): int
  {
    if rs == [] then 0 else DurationOf(rs[0]) + TotalDuration(rs[1..])
  }

  /** "step: error", or "step: message" when there is no error text. */
  function IssueOf(r: FlowTestResult): string
  {
    r.step + ": " + Or(r.result.error, r.result.message)
  }

  function CriticalIssues(rs: seq<FlowTestResult>): seq<string>
  {
    if rs == [] then []
    else (if !rs[0].result.success then [IssueOf(rs[0])] else []) + CriticalIssues(rs[1..])
  }

  function Summarize(rs: seq<FlowTestResult>): TestSummary
  {
    var passed := Passed(rs);
    PassedBound(rs);
    TestSummary(|rs|, passed, |rs| - passed, TotalDuration(rs), CriticalIssues(rs))
  }

  lemma {:induction false} PassedBound(rs: seq<FlowTestResult>)
    ensures Passed(rs) <= |rs|
  {
    if rs != [] {
      PassedBound(rs[1..]);
    }
  }

  /** One issue per failed result. */
  lemma {:induction false} IssuesCountFailures(rs: seq<FlowTestResult>)
    ensures |CriticalIssues(rs)| == |rs| - Passed(rs)
  {
    if rs != [] {
      IssuesCountFailures(rs[1..]);
      PassedBound(rs[1..]);
    }
  }

  /** The summary's counts partition the results, list one issue per failure
      and add up the durations. */
  lemma SummaryAccounts(rs: seq<FlowTestResult>)
    ensures var s := Summarize(rs);
      s.passed + s.failed == s.totalTests == |rs| && |s.criticalIssues| == s.failed
      && s.totalDuration == TotalDuration(rs)
  {
    IssuesCountFailures(rs);
  }

  /** Counts, durations and issues of two runs of results add up, in order. */
  lemma {:induction false} PassedAppend(a: seq<FlowTestResult>, b: seq<FlowTestResult>)
    ensures Passed(a + b) == Passed(a) + Passed(b)
  {
    if a != [] {
      assert (a + b)[1..] == a[1..] + b;
      PassedAppend(a[1..], b);
    } else {
      assert a + b == b;
    }
  }

  lemma {:induction false} TotalDurationAppend(a: seq<FlowTestResult>, b: seq<FlowTestResult>)
    ensures TotalDuration(a + b) == TotalDuration(a) + TotalDuration(b)
  {
    if a != [] {
      assert (a + b)[1..] == a[1..] + b;
      TotalDurationAppend(a[1..], b);
    } else {
      assert a + b == b;
    }
  }

  lemma {:induction false} CriticalIssuesAppend(a: seq<FlowTestResult>, b: seq<FlowTestResult>)
    ensures CriticalIssues(a + b) == CriticalIssues(a) + CriticalIssues(b)
  {
    if a != [] {
      assert (a + b)[1..] == a[1..] + b;
      CriticalIssuesAppend(a[1..], b);
      AppendAssoc(if !a[0].result.success then [IssueOf(a[0])] else [], CriticalIssues(a[1..]), CriticalIssues(b));
    } else {
      assert a + b == b;
    }
  }

  /** A single result: it is counted as passed or appears as one issue. */
  lemma SummaryOfOne(r: FlowTestResult)
    ensures Passed([r]) == (if r.result.success then 1 else 0)
    ensures TotalDuration([r]) == DurationOf(r)
    ensures CriticalIssues([r]) == if r.result.success then [] else [IssueOf(r)]
  {
    assert [r][1..] == [];
  }

  class EndToEndTester {
    var userId: string
    var testResults: seq<FlowTestResult>

    constructor (userId: string)
      ensures this.userId == userId && testResults == []
    {
      this.userId := userId;
      testResults := [];
    }

    /** Runs the eight probes in order; `outcomes[k]` is what probe k returned
        and `timestamps[k]` when its result was recorded. */
    method RunFullFlowTest(outcomes: seq<TestResult>, timestamps: seq<string>) returns (results: seq<FlowTestResult>)
      requires |outcomes| == |FLOW_TESTS| && |timestamps| == |FLOW_TESTS|
      modifies this
      ensures testResults == old(testResults) +
        seq(|FLOW_TESTS|, k requires 0 <= k < |FLOW_TESTS| => FlowTestResult(FLOW_TESTS[k], outcomes[k], timestamps[k]))
      ensures results == testResults
      ensures userId == old(userId)
    {
      var k := 0;
      while k < |FLOW_TESTS|
        invariant 0 <= k <= |FLOW_TESTS|
        invariant testResults == old(testResults) +
          seq(k, m requires 0 <= m < k => FlowTestResult(FLOW_TESTS[m], outcomes[m], timestamps[m]))
        invariant userId == old(userId)
      {
        testResults := testResults + [FlowTestResult(FLOW_TESTS[k], outcomes[k], timestamps[k])];
        k := k + 1;
      }
      results := testResults;
    }

    function GetTestSummary(): (s: TestSummary)
      reads this
      ensures s.passed + s.failed == s.totalTests == |testResults|
      ensures |s.criticalIssues| == s.failed
      ensures s.totalDuration == TotalDuration(testResults)
      ensures s.passed == Passed(testResults)
      ensures s.criticalIssues == CriticalIssues(testResults)
    {
      SummaryAccounts(testResults);
      Summarize(testResults)
    }
  }
}
