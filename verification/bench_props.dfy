/**
 * What a run of the benchmark guarantees, stated over `ExpectedRun`, the
 * behaviour `RunBenchmark` and `Exec` are proved to have: where a throwing
 * query stops the run, that only CREATE and INSERT responses are checked,
 * what the two reports hold when nothing throws, and where each codec's
 * timings come from.
 */
module BenchProps {
  import opened Statements
  import opened Records
  import opened Ranking
  import opened BenchSpec

  /** The run throws exactly when awaiting some query of the plan throws. */
  lemma ThrownIffSomeFailure(dataType: DataType, columnType: string, codecs: seq<string>,
                             resp: nat -> Response, clock: nat -> real, boxplot: seq<real> -> Summary)
    ensures ExpectedRun(dataType, columnType, codecs, resp, clock, boxplot).thrown
            <==> exists n: nat :: FailsAt(Planned(dataType, columnType, codecs), resp, n)
  {
    var plan := Planned(dataType, columnType, codecs);
    var r := FirstFailure(plan, resp, 0);
    if r.Some? {
      assert FailsAt(plan, resp, r.value);
    }
  }

  /**
   * When query k, inside the codec blocks, is the first that throws, the run
   * issues the plan up to and including it, then the catch handler's DROP; it
   * pushes no record and appends no report.
   */
  lemma AbortAtFirstFailure(dataType: DataType, columnType: string, codecs: seq<string>,
                            resp: nat -> Response, clock: nat -> real, boxplot: seq<real> -> Summary, k: nat)
    requires k < CodecStart(|codecs|)
    requires FailsAt(Planned(dataType, columnType, codecs), resp, k)
    requires NoFailureBefore(Planned(dataType, columnType, codecs), resp, k)
    ensures var e := ExpectedRun(dataType, columnType, codecs, resp, clock, boxplot);
      && e.thrown && e.logs == []
      && e.queries == Planned(dataType, columnType, codecs)[..k + 1] + [DropTable]
      && Throws(e.queries[k], resp(k))
  {
    PlanLength(dataType, columnType, codecs);
    FirstFailureIs(Planned(dataType, columnType, codecs), resp, k);
  }

  /**
   * When only the final DROP throws, both reports have already been appended:
   * the run issues the whole plan and the catch handler's DROP.
   */
  lemma FinalDropThrows(dataType: DataType, columnType: string, codecs: seq<string>,
                        resp: nat -> Response, clock: nat -> real, boxplot: seq<real> -> Summary)
    requires NoFailureBefore(Planned(dataType, columnType, codecs), resp, CodecStart(|codecs|))
    requires resp(CodecStart(|codecs|)).Rejected?
    ensures var e := ExpectedRun(dataType, columnType, codecs, resp, clock, boxplot);
      && e.thrown
      && e.queries == Planned(dataType, columnType, codecs) + [DropTable]
      && e.logs == Reports(codecs, clock, boxplot)
  {
    PlanLength(dataType, columnType, codecs);
    FirstFailureIs(Planned(dataType, columnType, codecs), resp, CodecStart(|codecs|));
  }

  /**
   * Two oracles that differ only in what the DROP, SELECT and TRUNCATE
   * queries resolve to give the same run: those responses are awaited but
   * never looked at.
   */
  lemma UncheckedResponsesIgnored(dataType: DataType, columnType: string, codecs: seq<string>,
                                  resp: nat -> Response, resp': nat -> Response,
                                  clock: nat -> real, boxplot: seq<real> -> Summary)
    requires forall n: nat :: n < |Planned(dataType, columnType, codecs)| ==>
      || resp(n) == resp'(n)
      || (!Checked(Planned(dataType, columnType, codecs)[n]) && resp(n).Resolved? && resp'(n).Resolved?)
    ensures ExpectedRun(dataType, columnType, codecs, resp, clock, boxplot)
            == ExpectedRun(dataType, columnType, codecs, resp', clock, boxplot)
  {
    var plan := Planned(dataType, columnType, codecs);
    forall n: nat | n < |plan|
      ensures Throws(plan[n], resp(n)) == Throws(plan[n], resp'(n))
    {
    }
    FirstFailureAgree(plan, resp, resp', 0);
  }

  lemma {:induction false} FirstFailureAgree(plan: seq<Stmt>, resp: nat -> Response, resp': nat -> Response, from: nat)
    requires from <= |plan|
    requires forall n: nat :: from <= n < |plan| ==> Throws(plan[n], resp(n)) == Throws(plan[n], resp'(n))
    ensures FirstFailure(plan, resp, from) == FirstFailure(plan, resp', from)
    decreases |plan| - from
  {
    if from < |plan| {
      FirstFailureAgree(plan, resp, resp', from + 1);
    }
  }

  /**
   * When no query throws the run issues the whole plan, throws nothing and
   * appends two reports, select then insert, each a ranking of one record per
   * codec.
   */
  lemma CompletedRun(dataType: DataType, columnType: string, codecs: seq<string>,
                     resp: nat -> Response, clock: nat -> real, boxplot: seq<real> -> Summary)
    requires forall n: nat :: !FailsAt(Planned(dataType, columnType, codecs), resp, n)
    ensures var e := ExpectedRun(dataType, columnType, codecs, resp, clock, boxplot);
      && !e.thrown
      && e.queries == Planned(dataType, columnType, codecs)
      && |e.logs| == 2
      && e.logs[0].file == SelectLog && IsRanking(e.logs[0].rows, SelectRecords(codecs, clock, boxplot))
      && e.logs[1].file == InsertLog && IsRanking(e.logs[1].rows, InsertRecords(codecs, clock, boxplot))
  {
    RankingIsSortByMedian(SelectRecords(codecs, clock, boxplot), SortByMedian(SelectRecords(codecs, clock, boxplot)));
    RankingIsSortByMedian(InsertRecords(codecs, clock, boxplot), SortByMedian(InsertRecords(codecs, clock, boxplot)));
  }

  /**
   * One select and one insert record per codec, in codec order, each naming
   * its codec and carrying the median of that codec's own timings to the
   * nearest 10^-4 s.
   */
  lemma RecordsPerCodec(codecs: seq<string>, clock: nat -> real, boxplot: seq<real> -> Summary)
    ensures |SelectRecords(codecs, clock, boxplot)| == |InsertRecords(codecs, clock, boxplot)| == |codecs|
    ensures forall j :: 0 <= j < |codecs| ==>
      && SelectRecords(codecs, clock, boxplot)[j].codecName == codecs[j]
      && InsertRecords(codecs, clock, boxplot)[j].codecName == codecs[j]
      && Near(SelectRecords(codecs, clock, boxplot)[j].median, boxplot(SelectTimings(clock, j)).median)
      && Near(InsertRecords(codecs, clock, boxplot)[j].median, boxplot(InsertTimings(clock, j)).median)
  {
    forall j | 0 <= j < |codecs|
      ensures Near(SelectRecords(codecs, clock, boxplot)[j].median, boxplot(SelectTimings(clock, j)).median)
      ensures Near(InsertRecords(codecs, clock, boxplot)[j].median, boxplot(InsertTimings(clock, j)).median)
    {
      MakeRecordMedian(codecs[j], boxplot(SelectTimings(clock, j)));
      MakeRecordMedian(codecs[j], boxplot(InsertTimings(clock, j)));
    }
  }

  /** A median in 10^-4 s is within half a unit of a median in seconds. */
  ghost predicate Near(units: int, seconds: real)
  {
    units as real - 0.5 <= seconds * 10000.0 <= units as real + 0.5
  }

  /**
   * Codec j's timing arrays start empty and hold `Cycles` times each: the
   * i-th insert time is that of the INSERT of its i-th cycle and the i-th
   * select time that of the SELECT right after it, both inside codec j's own
   * block of the plan.
   */
  lemma TimingsOwnBlock(dataType: DataType, columnType: string, codecs: seq<string>, clock: nat -> real, j: nat)
    requires j < |codecs|
    ensures |InsertTimings(clock, j)| == |SelectTimings(clock, j)| == Cycles
    ensures forall i :: 0 <= i < Cycles ==>
      && CodecStart(j) + 1 < InsertCall(j, i) && InsertCall(j, i) + 1 < CodecStart(j + 1)
      && InsertCall(j, i) + 1 < |Planned(dataType, columnType, codecs)|
      && InsertTimings(clock, j)[i] == clock(InsertCall(j, i))
      && Planned(dataType, columnType, codecs)[InsertCall(j, i)] == InsertNumbers(dataType)
      && SelectTimings(clock, j)[i] == clock(InsertCall(j, i) + 1)
      && Planned(dataType, columnType, codecs)[InsertCall(j, i) + 1] == SelectColumn
  {
    CodecStartNext(j);
    forall i | 0 <= i < Cycles
      ensures InsertCall(j, i) + 1 < |Planned(dataType, columnType, codecs)|
      ensures Planned(dataType, columnType, codecs)[InsertCall(j, i)] == InsertNumbers(dataType)
      ensures Planned(dataType, columnType, codecs)[InsertCall(j, i) + 1] == SelectColumn
    {
      PlanAtCycle(dataType, columnType, codecs, j, i);
    }
  }

  /** The first CREATE gets a response whose `r` is not 1: DROP, CREATE, then only the catch handler's DROP. */
  lemma CreateRefused(dataType: DataType, columnType: string, codecs: seq<string>,
                      resp: nat -> Response, clock: nat -> real, boxplot: seq<real> -> Summary)
    requires |codecs| > 0 && resp(0).Resolved? && resp(1).Resolved? && resp(1).r != 1
    ensures var e := ExpectedRun(dataType, columnType, codecs, resp, clock, boxplot);
      e.thrown && e.logs == [] && e.queries == [DropTable, CreateTable(columnType, codecs[0]), DropTable]
  {
    var plan := Planned(dataType, columnType, codecs);
    FirstCycle(dataType, columnType, codecs);
    assert NoFailureBefore(plan, resp, 1) by {
      assert plan[0] == plan[..6][0];
    }
    assert plan[1] == plan[..6][1];
    PlanAtCodec(dataType, columnType, codecs, 0);
    CodecStartMono(0, |codecs|);
    AbortAtFirstFailure(dataType, columnType, codecs, resp, clock, boxplot, 1);
    assert plan[..2] == plan[..6][..2];
  }

  /**
   * The INSERT of the second cycle gets a response whose `r` is not 1: one
   * full cycle, that INSERT, then only the catch handler's DROP.
   */
  lemma SecondInsertRefused(dataType: DataType, columnType: string, codecs: seq<string>,
                            resp: nat -> Response, clock: nat -> real, boxplot: seq<real> -> Summary)
    requires |codecs| > 0
    requires forall n: nat :: n < 5 ==> resp(n).Resolved?
    requires resp(1).r == 1 && resp(2).r == 1
    requires resp(5).Resolved? && resp(5).r != 1
    ensures var e := ExpectedRun(dataType, columnType, codecs, resp, clock, boxplot);
      && e.thrown
      && e.logs == []
      && e.queries == [DropTable, CreateTable(columnType, codecs[0]),
                       InsertNumbers(dataType), SelectColumn, TruncateTable,
                       InsertNumbers(dataType), DropTable]
  {
    var plan := Planned(dataType, columnType, codecs);
    FirstCycle(dataType, columnType, codecs);
    assert NoFailureBefore(plan, resp, 5) by {
      forall n: nat | n < 5
        ensures !FailsAt(plan, resp, n)
      {
        assert plan[n] == plan[..6][n];
      }
    }
    assert plan[5] == plan[..6][5];
    PlanAtCodec(dataType, columnType, codecs, 0);
    CodecStartMono(0, |codecs|);
    AbortAtFirstFailure(dataType, columnType, codecs, resp, clock, boxplot, 5);
  }

  /** The plan opens with the first codec's DROP and CREATE and its first cycle, then the second INSERT. */
  lemma FirstCycle(dataType: DataType, columnType: string, codecs: seq<string>)
    requires |codecs| > 0
    ensures |Planned(dataType, columnType, codecs)| > 6
    ensures Planned(dataType, columnType, codecs)[..6]
            == [DropTable, CreateTable(columnType, codecs[0]),
                InsertNumbers(dataType), SelectColumn, TruncateTable, InsertNumbers(dataType)]
  {
    var plan := Planned(dataType, columnType, codecs);
    PlanAtCodec(dataType, columnType, codecs, 0);
    PlanAtCycle(dataType, columnType, codecs, 0, 0);
    PlanAtCycle(dataType, columnType, codecs, 0, 1);
    assert CodecStart(0) == 0 && InsertCall(0, 0) == 2 && InsertCall(0, 1) == 5;
    PrefixOfSix(plan, DropTable, CreateTable(columnType, codecs[0]),
                InsertNumbers(dataType), SelectColumn, TruncateTable, InsertNumbers(dataType));
  }

  lemma PrefixOfSix(p: seq<Stmt>, a: Stmt, b: Stmt, c: Stmt, d: Stmt, e: Stmt, f: Stmt)
    requires |p| >= 6 && p[0] == a && p[1] == b && p[2] == c && p[3] == d && p[4] == e && p[5] == f
    ensures p[..6] == [a, b, c, d, e, f]
  {
    var q := [a, b, c, d, e, f];
    assert forall i :: 0 <= i < 6 ==> p[..6][i] == q[i] by {
      forall i | 0 <= i < 6
        ensures p[..6][i] == q[i]
      {
        assert i == 0 || i == 1 || i == 2 || i == 3 || i == 4 || i == 5;
      }
    }
  }

  /**
   * When every query resolves with r = 1, a run issues CodecLen queries per
   * codec and the final DROP, and appends both reports: `CompletedRun` for
   * this oracle, with the length of the plan.
   */
  lemma AllOkRun(dataType: DataType, columnType: string, codecs: seq<string>,
                 resp: nat -> Response, clock: nat -> real, boxplot: seq<real> -> Summary)
    requires forall n: nat :: resp(n) == Resolved(1)
    ensures var e := ExpectedRun(dataType, columnType, codecs, resp, clock, boxplot);
      !e.thrown && |e.queries| == CodecStart(|codecs|) + 1 && |e.logs| == 2
  {
    CompletedRun(dataType, columnType, codecs, resp, clock, boxplot);
    PlanLength(dataType, columnType, codecs);
  }

  /** The script's 14 codecs make 42,029 queries when every query resolves with r = 1: 3,002 per codec and the final DROP. */
  lemma AllOkQueryCount(resp: nat -> Response, clock: nat -> real, boxplot: seq<real> -> Summary)
    requires forall n: nat :: resp(n) == Resolved(1)
    ensures var e := ExpectedRun(Linear, "DateTime", Codecs, resp, clock, boxplot);
      !e.thrown && |e.queries| == 42029 && |e.logs| == 2
  {
    AllOkRun(Linear, "DateTime", Codecs, resp, clock, boxplot);
    CodecsQueries();
  }

  lemma CodecsQueries()
    ensures CodecStart(|Codecs|) + 1 == 42029
  {
    assert |Codecs| == 14;
  }
}
