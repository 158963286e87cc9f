/**
 * `exec` and the script's entry point as imperative code: the codec loop, the
 * cycle loop over `range(1, to, 1)`, the timing arrays, the `jsonObject` of
 * boxplot results, the pushes onto `select` and `insert`, the in-place sorts,
 * the two report appends and the final DROP. Every query goes through
 * `Query`, which stops the run when awaiting it throws.
 */
module Bench {
  import opened Ranges
  import opened Statements
  import opened Records
  import opened Ranking
  import opened BenchSpec

  /** `exec(data_type, type)`: everything it issues and appends, and whether it throws. */
  method Exec(dataType: DataType, columnType: string, codecs: seq<string>,
              resp: nat -> Response, clock: nat -> real, boxplot: seq<real> -> Summary)
    returns (e: Execution)
    ensures e == ExpectedExec(dataType, columnType, codecs, resp, clock, boxplot)
  {
    ghost var plan := Planned(dataType, columnType, codecs);
    PlanLength(dataType, columnType, codecs);
    var queries, records := RunCodecs(dataType, columnType, codecs, plan, resp, clock, boxplot);
    if records.None? {
      ExpectedExecAborted(dataType, columnType, codecs, resp, clock, boxplot, queries);
      return Execution(queries, [], true);
    }
    var selectSorted := SortReport(records.value.0);
    var insertSorted := SortReport(records.value.1);
    var logs := [LogAppend(SelectLog, selectSorted), LogAppend(InsertLog, insertSorted)];

    var failed;
    queries, failed := Query(plan, resp, queries, DropTable);
    assert queries == plan;
    ExpectedExecCompleted(dataType, columnType, codecs, resp, clock, boxplot, queries, failed);
    e := Execution(queries, logs, failed);
  }

  /** Sorts a report the way `arr.sort((a, b) => a.median - b.median)` does, on an array of its own. */
  method SortReport(rows: seq<MeasureCodec>) returns (sorted: seq<MeasureCodec>)
    ensures sorted == SortByMedian(rows)
  {
    var a := new MeasureCodec[|rows|](i requires 0 <= i < |rows| => rows[i]);
    assert a[..] == rows;
    SortByMedianInPlace(a);
    sorted := a[..];
  }

  /** The loop over the codecs: one block of queries and one select and one insert record per codec. */
  method RunCodecs(dataType: DataType, columnType: string, codecs: seq<string>, ghost plan: seq<Stmt>,
                   resp: nat -> Response, clock: nat -> real, boxplot: seq<real> -> Summary)
    returns (queries: seq<Stmt>, records: Option<(seq<MeasureCodec>, seq<MeasureCodec>)>)
    requires plan == Planned(dataType, columnType, codecs)
    ensures |queries| <= CodecStart(|codecs|)
    ensures records.None? ==> AbortedOnPlan(plan, resp, queries)
    ensures records.Some? ==> |queries| == CodecStart(|codecs|) && OnPlan(plan, resp, queries)
    ensures records.Some? ==> records.value.0 == SelectRecords(codecs, clock, boxplot)
    ensures records.Some? ==> records.value.1 == InsertRecords(codecs, clock, boxplot)
  {
    queries := [];
    var select: seq<MeasureCodec> := [];
    var insert: seq<MeasureCodec> := [];
    PlanLength(dataType, columnType, codecs);

    var c := 0;
    while c < |codecs|
      invariant 0 <= c <= |codecs|
      invariant |queries| == CodecStart(c) && OnPlan(plan, resp, queries)
      invariant select == SelectRecords(codecs, clock, boxplot)[..c]
      invariant insert == InsertRecords(codecs, clock, boxplot)[..c]
    {
      CodecStartMono(c, |codecs|);
      var rows;
      queries, rows := RunCodec(dataType, columnType, codecs, c, plan, queries, resp, clock, boxplot);
      if rows.None? {
        return queries, None;
      }
      RecordsPrefix(codecs, clock, boxplot, c);
      select := select + [rows.value.0];
      insert := insert + [rows.value.1];
      c := c + 1;
    }
    assert SelectRecords(codecs, clock, boxplot)[..c] == SelectRecords(codecs, clock, boxplot);
    assert InsertRecords(codecs, clock, boxplot)[..c] == InsertRecords(codecs, clock, boxplot);
    records := Some((select, insert));
  }

  /**
   * One iteration of the codec loop: DROP, CREATE, the cycles, then the two
   * boxplot results stored in `jsonObject` and read back into the records.
   */
  method RunCodec(dataType: DataType, columnType: string, codecs: seq<string>, c: nat,
                  ghost plan: seq<Stmt>, queries: seq<Stmt>,
                  resp: nat -> Response, clock: nat -> real, boxplot: seq<real> -> Summary)
    returns (queries': seq<Stmt>, rows: Option<(MeasureCodec, MeasureCodec)>)
    requires c < |codecs| && plan == Planned(dataType, columnType, codecs)
    requires |queries| == CodecStart(c) && OnPlan(plan, resp, queries)
    ensures |queries'| <= CodecStart(c + 1)
    ensures rows.None? ==> AbortedOnPlan(plan, resp, queries')
    ensures rows.Some? ==> |queries'| == CodecStart(c + 1) && OnPlan(plan, resp, queries')
    ensures rows.Some? ==> rows.value.0 == SelectRecords(codecs, clock, boxplot)[c]
    ensures rows.Some? ==> rows.value.1 == InsertRecords(codecs, clock, boxplot)[c]
  {
    var codec := codecs[c];
    PlanAtCodec(dataType, columnType, codecs, c);
    CodecStartNext(c);

    var failed;
    queries', failed := Query(plan, resp, queries, DropTable);
    if failed {
      return queries', None;
    }
    queries', failed := Query(plan, resp, queries', CreateTable(columnType, codec));
    if failed {
      return queries', None;
    }

    var totalSelect, totalInsert;
    queries', failed, totalInsert, totalSelect := RunCycles(dataType, columnType, codecs, c, plan, queries', resp, clock);
    if failed {
      return queries', None;
    }

    var jo, joIns := Summarize(codec, totalSelect, totalInsert, boxplot);
    rows := Some((MakeRecord(codec, jo), MakeRecord(codec, joIns)));
  }

  /**
   * The `jsonObject` round trip: both boxplot results are stored under keys
   * made from the codec and read back. The keys differ in their eighth
   * character, so the second store does not overwrite the first.
   */
  method Summarize(codec: string, totalSelect: seq<real>, totalInsert: seq<real>, boxplot: seq<real> -> Summary)
    returns (jo: Summary, joIns: Summary)
    ensures jo == boxplot(totalSelect) && joIns == boxplot(totalInsert)
  {
    var jsonObject: map<string, Summary> := map[];
    jsonObject := jsonObject["bp_res_sel_" + codec := boxplot(totalSelect)];
    jsonObject := jsonObject["bp_res_ins_" + codec := boxplot(totalInsert)];
    assert ("bp_res_sel_" + codec)[7] != ("bp_res_ins_" + codec)[7];
    jo := jsonObject["bp_res_sel_" + codec];
    joIns := jsonObject["bp_res_ins_" + codec];
  }

  /** The loop over `range(1, to, 1)`: INSERT (checked and timed), SELECT (timed), TRUNCATE. */
  method RunCycles(dataType: DataType, columnType: string, codecs: seq<string>, c: nat,
                   ghost plan: seq<Stmt>, queries: seq<Stmt>, resp: nat -> Response, clock: nat -> real)
    returns (queries': seq<Stmt>, failed: bool, totalInsert: seq<real>, totalSelect: seq<real>)
    requires c < |codecs| && plan == Planned(dataType, columnType, codecs)
    requires |queries| == CodecStart(c) + 2 && OnPlan(plan, resp, queries)
    ensures |queries'| <= CodecStart(c + 1)
    ensures failed ==> AbortedOnPlan(plan, resp, queries')
    ensures !failed ==> |queries'| == CodecStart(c + 1) && OnPlan(plan, resp, queries')
    ensures !failed ==> totalInsert == InsertTimings(clock, c) && totalSelect == SelectTimings(clock, c)
  {
    var cycleIds := Range(1, Cycles, 1);
    CycleCounter();
    CodecStartNext(c);
    queries', failed, totalInsert, totalSelect := queries, false, [], [];

    var k := 0;
    while k < |cycleIds|
      invariant 0 <= k <= Cycles == |cycleIds|
      invariant |queries'| == InsertCall(c, k) && OnPlan(plan, resp, queries')
      invariant totalInsert == InsertTimings(clock, c)[..k]
      invariant totalSelect == SelectTimings(clock, c)[..k]
    {
      queries', failed, totalInsert, totalSelect :=
        RunCycle(dataType, columnType, codecs, c, k, plan, queries', resp, clock, totalInsert, totalSelect);
      if failed {
        return;
      }
      k := k + 1;
    }
  }

  /** One cycle: the INSERT, whose response is checked and whose time is pushed, then the timed SELECT and the TRUNCATE. */
  method RunCycle(dataType: DataType, columnType: string, codecs: seq<string>, c: nat, k: nat,
                  ghost plan: seq<Stmt>, queries: seq<Stmt>, resp: nat -> Response, clock: nat -> real,
                  totalInsert: seq<real>, totalSelect: seq<real>)
    returns (queries': seq<Stmt>, failed: bool, totalInsert': seq<real>, totalSelect': seq<real>)
    requires c < |codecs| && k < Cycles && plan == Planned(dataType, columnType, codecs)
    requires |queries| == InsertCall(c, k) && OnPlan(plan, resp, queries)
    requires totalInsert == InsertTimings(clock, c)[..k] && totalSelect == SelectTimings(clock, c)[..k]
    ensures |queries'| <= InsertCall(c, k + 1)
    ensures failed ==> AbortedOnPlan(plan, resp, queries')
    ensures !failed ==> |queries'| == InsertCall(c, k + 1) && OnPlan(plan, resp, queries')
    ensures !failed ==> totalInsert' == InsertTimings(clock, c)[..k + 1]
    ensures !failed ==> totalSelect' == SelectTimings(clock, c)[..k + 1]
  {
    PlanAtCycle(dataType, columnType, codecs, c, k);
    TimingsPrefix(clock, c, k);
    var n := |queries|;
    totalInsert', totalSelect' := totalInsert, totalSelect;

    queries', failed := Query(plan, resp, queries, InsertNumbers(dataType));
    if failed {
      return;
    }
    totalInsert' := totalInsert + [clock(n)];

    queries', failed := Query(plan, resp, queries', SelectColumn);
    if failed {
      return;
    }
    totalSelect' := totalSelect + [clock(n + 1)];

    queries', failed := Query(plan, resp, queries', TruncateTable);
  }

  /**
   * `await clickhouse.query(sql).toPromise()`, followed for a CREATE or INSERT
   * by `assert(resp['r'] === 1)`: the run stops here when either throws.
   */
  method Query(ghost plan: seq<Stmt>, resp: nat -> Response, queries: seq<Stmt>, s: Stmt)
    returns (queries': seq<Stmt>, failed: bool)
    requires OnPlan(plan, resp, queries) && |queries| < |plan| && plan[|queries|] == s
    ensures queries' == queries + [s]
    ensures failed <==> Throws(s, resp(|queries|))
    ensures failed ==> AbortedOnPlan(plan, resp, queries')
    ensures !failed ==> OnPlan(plan, resp, queries')
  {
    queries' := queries + [s];
    var x := resp(|queries|);
    failed := x.Rejected? || (Checked(s) && x.r != 1);
    if failed {
      PlanStepFails(plan, resp, queries, s);
    } else {
      PlanStepOk(plan, resp, queries, s);
    }
  }

  /** `exec(DataType.LINEAR, 'DateTime')` with its `.catch` handler's DROP. */
  method RunBenchmark(resp: nat -> Response, clock: nat -> real, boxplot: seq<real> -> Summary)
    returns (e: Execution)
    ensures e == ExpectedRun(Linear, "DateTime", Codecs, resp, clock, boxplot)
  {
    e := Exec(Linear, "DateTime", Codecs, resp, clock, boxplot);
    if e.thrown {
      e := e.(queries := e.queries + [DropTable]);
    }
  }
}
