/**
 * What one run of `exec` does, stated as values. The ClickHouse client is an
 * oracle `resp` giving, for the n-th query of the run (counted from 0), how
 * its promise settles; `clock(n)` is the time measured around the n-th
 * query; `boxplot` is the statistics library. A run issues a fixed plan of
 * statements and stops right after the first one whose `await` throws: a
 * rejected query, or a CREATE or INSERT whose response fails the `assert`.
 */
module BenchSpec {
  import opened Statements
  import opened Records
  import opened Ranking

  datatype Option<T> = None | Some(value: T)

  /** `const to = 1000`: insert/select cycles per codec. */
  const Cycles: nat := 1000

  /** Queries issued per codec: DROP, CREATE and three per cycle. */
  const CodecLen: nat := 2 + 3 * Cycles

  /** The codec configurations of the script, in the order they are benchmarked. */
  const Codecs: seq<string> := [
    "T64, LZ4",
    "Delta, ZSTD(1)",
    "Delta, ZSTD(3)",
    "Delta, LZ4",
    "Delta, LZ4HC",
    "Delta, LZ4HC(3)",
    "Delta, LZ4HC(6)",
    "Delta, LZ4HC(9)",
    "DoubleDelta, ZSTD(1)",
    "DoubleDelta, ZSTD(3)",
    "DoubleDelta, LZ4HC",
    "DoubleDelta, LZ4HC(6)",
    "DoubleDelta, LZ4HC(9)",
    "DoubleDelta, LZ4"
  ]

  datatype LogFile = SelectLog | InsertLog

  /** One `syncAppendToFile` of a rendered report. */
  datatype LogAppend = LogAppend(file: LogFile, rows: seq<MeasureCodec>)

  /** What a run did: the queries it issued in order, the reports it appended, and whether it threw. */
  datatype Execution = Execution(queries: seq<Stmt>, logs: seq<LogAppend>, thrown: bool)

  /** How a query's promise settles: rejected, or resolved with a response whose `r` field is given. */
  datatype Response = Rejected | Resolved(r: int)

  // ---------------------------------------------------------------- the plan

  function CycleStmts(dataType: DataType): seq<Stmt>
  {
    [InsertNumbers(dataType), SelectColumn, TruncateTable]
  }

  function CyclesTrace(dataType: DataType, n: nat): seq<Stmt>
  {
    if n == 0 then [] else CyclesTrace(dataType, n - 1) + CycleStmts(dataType)
  }

  function CodecTrace(dataType: DataType, columnType: string, codec: string): seq<Stmt>
  {
    [DropTable, CreateTable(columnType, codec)] + CyclesTrace(dataType, Cycles)
  }

  function CodecsTrace(dataType: DataType, columnType: string, codecs: seq<string>): seq<Stmt>
  {
    if codecs == [] then []
    else CodecsTrace(dataType, columnType, codecs[..|codecs| - 1])
         + CodecTrace(dataType, columnType, codecs[|codecs| - 1])
  }

  /** Every query a run issues when no response fails: each codec's block, then the final DROP. */
  function Planned(dataType: DataType, columnType: string, codecs: seq<string>): seq<Stmt>
  {
    CodecsTrace(dataType, columnType, codecs) + [DropTable]
  }

  /** Position in the plan of codec j's DROP, the first query of its block. */
  function CodecStart(j: nat): nat
  {
    j * CodecLen
  }

  /** Position in the plan of codec j's i-th INSERT; its SELECT and TRUNCATE follow it. */
  function InsertCall(j: nat, i: nat): nat
  {
    CodecStart(j) + 2 + 3 * i
  }

  // ------------------------------------------------------------- the failure

  /**
   * Awaiting statement s throws: its promise was rejected, or it is a CREATE
   * or INSERT and `assert(resp['r'] === 1)` fails.
   */
  predicate Throws(s: Stmt, x: Response)
  {
    x.Rejected? || (Checked(s) && x.r != 1)
  }

  /** Query n of the plan throws. */
  predicate FailsAt(plan: seq<Stmt>, resp: nat -> Response, n: nat)
  {
    n < |plan| && Throws(plan[n], resp(n))
  }

  ghost predicate NoFailureBefore(plan: seq<Stmt>, resp: nat -> Response, k: nat)
  {
    forall n: nat :: n < k ==> !FailsAt(plan, resp, n)
  }

  /** The queries issued are the first ones of the plan. */
  ghost predicate PrefixOfPlan(plan: seq<Stmt>, queries: seq<Stmt>)
  {
    |queries| <= |plan| && forall i :: 0 <= i < |queries| ==> queries[i] == plan[i]
  }

  /** The queries issued so far follow the plan and none of them failed. */
  ghost predicate OnPlan(plan: seq<Stmt>, resp: nat -> Response, queries: seq<Stmt>)
  {
    PrefixOfPlan(plan, queries) && NoFailureBefore(plan, resp, |queries|)
  }

  /** The queries issued follow the plan and end with its first failing query. */
  ghost predicate AbortedOnPlan(plan: seq<Stmt>, resp: nat -> Response, queries: seq<Stmt>)
  {
    0 < |queries| && PrefixOfPlan(plan, queries) && FirstFailure(plan, resp, 0) == Some(|queries| - 1)
  }

  /** The first failing query at or after `from`, if any. */
  function FirstFailure(plan: seq<Stmt>, resp: nat -> Response, from: nat): (r: Option<nat>)
    requires from <= |plan|
    decreases |plan| - from
    ensures r.Some? ==> from <= r.value < |plan| && FailsAt(plan, resp, r.value)
    ensures r.Some? ==> forall n: nat :: from <= n < r.value ==> !FailsAt(plan, resp, n)
    ensures r.None? <==> forall n: nat :: from <= n < |plan| ==> !FailsAt(plan, resp, n)
  {
    if from == |plan| then None
    else if FailsAt(plan, resp, from) then Some(from)
    else FirstFailure(plan, resp, from + 1)
  }

  // ---------------------------------------------------- timings and records

  /** `total_insert_time` of codec j: the times of its own INSERT queries, in cycle order. */
  function InsertTimings(clock: nat -> real, j: nat): seq<real>
  {
    seq(Cycles, i requires 0 <= i < Cycles => clock(InsertCall(j, i)))
  }

  /** `total_select_time` of codec j: the times of its own SELECT queries, in cycle order. */
  function SelectTimings(clock: nat -> real, j: nat): seq<real>
  {
    seq(Cycles, i requires 0 <= i < Cycles => clock(InsertCall(j, i) + 1))
  }

  /** The `select` array before sorting: one record per codec, in codec order. */
  function SelectRecords(codecs: seq<string>, clock: nat -> real, boxplot: seq<real> -> Summary): seq<MeasureCodec>
  {
    seq(|codecs|, j requires 0 <= j < |codecs| => MakeRecord(codecs[j], boxplot(SelectTimings(clock, j))))
  }

  /** The `insert` array before sorting. */
  function InsertRecords(codecs: seq<string>, clock: nat -> real, boxplot: seq<real> -> Summary): seq<MeasureCodec>
  {
    seq(|codecs|, j requires 0 <= j < |codecs| => MakeRecord(codecs[j], boxplot(InsertTimings(clock, j))))
  }

  // ------------------------------------------------------------ the outcome

  /** The two `syncAppendToFile` calls: the ranked select report, then the ranked insert report. */
  function Reports(codecs: seq<string>, clock: nat -> real, boxplot: seq<real> -> Summary): seq<LogAppend>
  {
    [LogAppend(SelectLog, SortByMedian(SelectRecords(codecs, clock, boxplot))),
     LogAppend(InsertLog, SortByMedian(InsertRecords(codecs, clock, boxplot)))]
  }

  /**
   * What `exec` does: the plan up to and including the first query that
   * throws, or all of it. The reports are appended once every codec is done,
   * before the final DROP, so they are there unless a codec's query threw.
   */
  function ExpectedExec(dataType: DataType, columnType: string, codecs: seq<string>,
                        resp: nat -> Response, clock: nat -> real, boxplot: seq<real> -> Summary): Execution
  {
    var plan := Planned(dataType, columnType, codecs);
    match FirstFailure(plan, resp, 0)
    case Some(k) =>
      if k + 1 < |plan| then Execution(plan[..k + 1], [], true)
      else Execution(plan, Reports(codecs, clock, boxplot), true)
    case None => Execution(plan, Reports(codecs, clock, boxplot), false)
  }

  /** The script's entry point: `exec` and, when it throws, the catch handler's DROP. */
  function ExpectedRun(dataType: DataType, columnType: string, codecs: seq<string>,
                       resp: nat -> Response, clock: nat -> real, boxplot: seq<real> -> Summary): Execution
  {
    var e := ExpectedExec(dataType, columnType, codecs, resp, clock, boxplot);
    if e.thrown then e.(queries := e.queries + [DropTable]) else e
  }

  /** A run that stopped inside the codec blocks at the plan's first failure is what `exec` does for this oracle. */
  lemma ExpectedExecAborted(dataType: DataType, columnType: string, codecs: seq<string>,
                            resp: nat -> Response, clock: nat -> real, boxplot: seq<real> -> Summary, queries: seq<Stmt>)
    requires AbortedOnPlan(Planned(dataType, columnType, codecs), resp, queries)
    requires |queries| < |Planned(dataType, columnType, codecs)|
    ensures ExpectedExec(dataType, columnType, codecs, resp, clock, boxplot) == Execution(queries, [], true)
  {
    assert queries == Planned(dataType, columnType, codecs)[..|queries|];
  }

  /** A run that issued the whole plan is what `exec` does, whether or not its final DROP threw. */
  lemma ExpectedExecCompleted(dataType: DataType, columnType: string, codecs: seq<string>,
                              resp: nat -> Response, clock: nat -> real, boxplot: seq<real> -> Summary,
                              queries: seq<Stmt>, thrown: bool)
    requires queries == Planned(dataType, columnType, codecs)
    requires thrown ==> AbortedOnPlan(queries, resp, queries)
    requires !thrown ==> OnPlan(queries, resp, queries)
    ensures ExpectedExec(dataType, columnType, codecs, resp, clock, boxplot)
            == Execution(queries, Reports(codecs, clock, boxplot), thrown)
  {
  }

  /** Pushing codec c's record extends the record prefix by one. */
  lemma RecordsPrefix(codecs: seq<string>, clock: nat -> real, boxplot: seq<real> -> Summary, c: nat)
    requires c < |codecs|
    ensures SelectRecords(codecs, clock, boxplot)[..c + 1]
            == SelectRecords(codecs, clock, boxplot)[..c] + [SelectRecords(codecs, clock, boxplot)[c]]
    ensures InsertRecords(codecs, clock, boxplot)[..c + 1]
            == InsertRecords(codecs, clock, boxplot)[..c] + [InsertRecords(codecs, clock, boxplot)[c]]
  {
  }

  // ------------------------------------------------------ shape of the plan

  lemma {:induction false} CyclesTraceLength(dataType: DataType, n: nat)
    ensures |CyclesTrace(dataType, n)| == 3 * n
  {
    if n > 0 {
      CyclesTraceLength(dataType, n - 1);
    }
  }

  lemma {:induction false} CyclesTraceAt(dataType: DataType, n: nat, i: nat, r: nat)
    requires i < n && r < 3
    ensures |CyclesTrace(dataType, n)| == 3 * n
    ensures CyclesTrace(dataType, n)[3 * i + r] == CycleStmts(dataType)[r]
  {
    CyclesTraceLength(dataType, n);
    CyclesTraceLength(dataType, n - 1);
    if i < n - 1 {
      CyclesTraceAt(dataType, n - 1, i, r);
    }
  }

  lemma CodecStartNext(j: nat)
    ensures CodecStart(j + 1) == CodecStart(j) + CodecLen
  {
  }

  lemma CodecStartMono(j: nat, m: nat)
    requires j < m
    ensures CodecStart(j) + CodecLen <= CodecStart(m)
  {
    assert CodecStart(m) - CodecStart(j) == (m - j) * CodecLen;
  }

  lemma {:induction false} CodecsTraceLength(dataType: DataType, columnType: string, codecs: seq<string>)
    ensures |CodecsTrace(dataType, columnType, codecs)| == CodecStart(|codecs|)
  {
    if codecs != [] {
      CodecsTraceLength(dataType, columnType, codecs[..|codecs| - 1]);
      CyclesTraceLength(dataType, Cycles);
      assert CodecStart(|codecs| - 1) + CodecLen == CodecStart(|codecs|);
    }
  }

  lemma {:induction false} CodecsTraceAt(dataType: DataType, columnType: string, codecs: seq<string>, j: nat, k: nat)
    requires j < |codecs| && k < CodecLen
    ensures CodecStart(j) + k < |CodecsTrace(dataType, columnType, codecs)|
    ensures |CodecTrace(dataType, columnType, codecs[j])| == CodecLen
    ensures CodecsTrace(dataType, columnType, codecs)[CodecStart(j) + k]
            == CodecTrace(dataType, columnType, codecs[j])[k]
  {
    var init := codecs[..|codecs| - 1];
    var front := CodecsTrace(dataType, columnType, init);
    var back := CodecTrace(dataType, columnType, codecs[|codecs| - 1]);
    assert CodecsTrace(dataType, columnType, codecs) == front + back;
    CodecsTraceLength(dataType, columnType, init);
    CyclesTraceLength(dataType, Cycles);
    assert |back| == CodecLen;
    if j < |init| {
      CodecsTraceAt(dataType, columnType, init, j, k);
      CodecStartMono(j, |init|);
      assert init[j] == codecs[j];
      assert (front + back)[CodecStart(j) + k] == front[CodecStart(j) + k];
    } else {
      assert j == |init|;
      assert (front + back)[CodecStart(j) + k] == back[k];
    }
  }

  lemma PlanLength(dataType: DataType, columnType: string, codecs: seq<string>)
    ensures |Planned(dataType, columnType, codecs)| == CodecStart(|codecs|) + 1
    ensures Planned(dataType, columnType, codecs)[CodecStart(|codecs|)] == DropTable
  {
    CodecsTraceLength(dataType, columnType, codecs);
  }

  /** Codec j's block opens with DROP and a CREATE carrying codec j, and ends before the plan does. */
  lemma PlanAtCodec(dataType: DataType, columnType: string, codecs: seq<string>, j: nat)
    requires j < |codecs|
    ensures CodecStart(j) + CodecLen < |Planned(dataType, columnType, codecs)|
    ensures Planned(dataType, columnType, codecs)[CodecStart(j)] == DropTable
    ensures Planned(dataType, columnType, codecs)[CodecStart(j) + 1] == CreateTable(columnType, codecs[j])
  {
    CodecsTraceLength(dataType, columnType, codecs);
    CodecStartMono(j, |codecs|);
    CodecTraceHead(dataType, columnType, codecs[j]);
    CodecsTraceAt(dataType, columnType, codecs, j, 0);
    CodecsTraceAt(dataType, columnType, codecs, j, 1);
    PlanIndex(dataType, columnType, codecs, CodecStart(j));
    PlanIndex(dataType, columnType, codecs, CodecStart(j) + 1);
  }

  lemma CodecTraceHead(dataType: DataType, columnType: string, codec: string)
    ensures CodecTrace(dataType, columnType, codec)[..2] == [DropTable, CreateTable(columnType, codec)]
  {
  }

  /** Below the closing DROP, the plan is the codec blocks. */
  lemma PlanIndex(dataType: DataType, columnType: string, codecs: seq<string>, n: nat)
    requires n < |CodecsTrace(dataType, columnType, codecs)|
    ensures |Planned(dataType, columnType, codecs)| == |CodecsTrace(dataType, columnType, codecs)| + 1
    ensures Planned(dataType, columnType, codecs)[n] == CodecsTrace(dataType, columnType, codecs)[n]
  {
  }

  /** Cycle i of codec j is INSERT, SELECT, TRUNCATE at InsertCall(j, i) and the two positions after it. */
  lemma PlanAtCycle(dataType: DataType, columnType: string, codecs: seq<string>, j: nat, i: nat)
    requires j < |codecs| && i < Cycles
    ensures InsertCall(j, i) + 2 < CodecStart(j) + CodecLen < |Planned(dataType, columnType, codecs)|
    ensures Planned(dataType, columnType, codecs)[InsertCall(j, i)] == InsertNumbers(dataType)
    ensures Planned(dataType, columnType, codecs)[InsertCall(j, i) + 1] == SelectColumn
    ensures Planned(dataType, columnType, codecs)[InsertCall(j, i) + 2] == TruncateTable
  {
    PlanAtCodec(dataType, columnType, codecs, j);
    PlanAtCycleStmt(dataType, columnType, codecs, j, i, 0);
    PlanAtCycleStmt(dataType, columnType, codecs, j, i, 1);
    PlanAtCycleStmt(dataType, columnType, codecs, j, i, 2);
  }

  lemma PlanAtCycleStmt(dataType: DataType, columnType: string, codecs: seq<string>, j: nat, i: nat, r: nat)
    requires j < |codecs| && i < Cycles && r < 3
    ensures InsertCall(j, i) + r < |Planned(dataType, columnType, codecs)|
    ensures Planned(dataType, columnType, codecs)[InsertCall(j, i) + r] == CycleStmts(dataType)[r]
  {
    CyclesTraceAt(dataType, Cycles, i, r);
    CodecsTraceAt(dataType, columnType, codecs, j, 2 + 3 * i + r);
    assert InsertCall(j, i) + r == CodecStart(j) + (2 + 3 * i + r);
    PlanIndex(dataType, columnType, codecs, InsertCall(j, i) + r);
  }

  /**
   * The plan is codec after codec: DROP, CREATE with that codec, then
   * `Cycles` times INSERT, SELECT, TRUNCATE; one DROP closes it.
   */
  lemma PlanShape(dataType: DataType, columnType: string, codecs: seq<string>, j: nat, i: nat)
    requires j < |codecs| && i < Cycles
    ensures |Planned(dataType, columnType, codecs)| == CodecStart(|codecs|) + 1
    ensures Planned(dataType, columnType, codecs)[CodecStart(|codecs|)] == DropTable
    ensures CodecStart(j) + CodecLen <= CodecStart(|codecs|)
    ensures Planned(dataType, columnType, codecs)[CodecStart(j)] == DropTable
    ensures Planned(dataType, columnType, codecs)[CodecStart(j) + 1] == CreateTable(columnType, codecs[j])
    ensures Planned(dataType, columnType, codecs)[InsertCall(j, i)] == InsertNumbers(dataType)
    ensures Planned(dataType, columnType, codecs)[InsertCall(j, i) + 1] == SelectColumn
    ensures Planned(dataType, columnType, codecs)[InsertCall(j, i) + 2] == TruncateTable
  {
    PlanLength(dataType, columnType, codecs);
    PlanAtCodec(dataType, columnType, codecs, j);
    PlanAtCycle(dataType, columnType, codecs, j, i);
  }

  /** Issuing the next planned query, when awaiting it does not throw, keeps the run on the plan. */
  lemma PlanStepOk(plan: seq<Stmt>, resp: nat -> Response, queries: seq<Stmt>, s: Stmt)
    requires OnPlan(plan, resp, queries) && |queries| < |plan| && plan[|queries|] == s
    requires !Throws(s, resp(|queries|))
    ensures OnPlan(plan, resp, queries + [s])
  {
  }

  /** Issuing the next planned query, when awaiting it throws, makes it the run's first failure. */
  lemma PlanStepFails(plan: seq<Stmt>, resp: nat -> Response, queries: seq<Stmt>, s: Stmt)
    requires OnPlan(plan, resp, queries) && |queries| < |plan| && plan[|queries|] == s
    requires Throws(s, resp(|queries|))
    ensures AbortedOnPlan(plan, resp, queries + [s])
  {
    assert FailsAt(plan, resp, |queries|);
    FirstFailureIs(plan, resp, |queries|);
  }

  lemma FirstFailureIs(plan: seq<Stmt>, resp: nat -> Response, k: nat)
    requires FailsAt(plan, resp, k) && NoFailureBefore(plan, resp, k)
    ensures FirstFailure(plan, resp, 0) == Some(k)
  {
  }

  /** Pushing the next cycle's time extends the timing prefix by one. */
  lemma TimingsPrefix(clock: nat -> real, j: nat, k: nat)
    requires k < Cycles
    ensures InsertTimings(clock, j)[..k + 1] == InsertTimings(clock, j)[..k] + [clock(InsertCall(j, k))]
    ensures SelectTimings(clock, j)[..k + 1] == SelectTimings(clock, j)[..k] + [clock(InsertCall(j, k) + 1)]
  {
    assert InsertTimings(clock, j)[..k + 1] == InsertTimings(clock, j)[..k] + [InsertTimings(clock, j)[k]];
    assert SelectTimings(clock, j)[..k + 1] == SelectTimings(clock, j)[..k] + [SelectTimings(clock, j)[k]];
  }
}
