/**
 * The statements the benchmark sends to ClickHouse, and their SQL text. Only
 * CREATE and INSERT responses are checked by the script; the others are
 * awaited and ignored.
 */
module Statements {

  /** The data-generation pattern of the benchmarked column (the `DataType` enum). */
  datatype DataType = Linear | Random

  datatype Stmt =
    | DropTable
    | CreateTable(columnType: string, codec: string)
    | InsertNumbers(dataType: DataType)
    | SelectColumn
    | TruncateTable

  const TableName: string := "t_perf"

  /** `rows` of the linear insert; the random insert spells the same count literally. */
  const Rows: nat := 10_000_000

  /** Whether the script asserts `r === 1` on the response to this statement. */
  predicate Checked(s: Stmt)
  {
    s.CreateTable? || s.InsertNumbers?
  }

  function Digit(d: nat): char
    requires d < 10
  {
    "0123456789"[d]
  }

  /** Decimal rendering of a natural number, as template-string interpolation writes it. */
  function Decimal(n: nat): string
    decreases n
  {
    if n < 10 then [Digit(n)] else Decimal(n / 10) + [Digit(n % 10)]
  }

  /** The SQL text of each statement (layout whitespace of the CREATE template collapsed). */
  function Sql(s: Stmt): string
  {
    match s
    case DropTable => "DROP TABLE IF EXISTS " + TableName + ";"
    case CreateTable(ty, codec) =>
      "CREATE TABLE " + TableName + " ( n Int32, column " + ty + " default n "
      + "CODEC(" + codec + ")"
      + " ) Engine = MergeTree PARTITION BY tuple() ORDER BY tuple();"
    case InsertNumbers(Linear) =>
      "insert into " + TableName + " (n) select number from " + ("numbers(" + Decimal(Rows) + ")")
      + " settings max_block_size=1000000;"
    case InsertNumbers(Random) =>
      "insert into " + TableName
      + " (n) select round(number * rand() / 4294967295, 2) as number from " + "numbers(10000000)"
      + " settings max_block_size=1000000"
    case SelectColumn => "SELECT column FROM " + TableName
    case TruncateTable => "TRUNCATE TABLE " + TableName
  }

  /** t occurs as a contiguous piece of s. */
  ghost predicate IsInfix(t: string, s: string)
  {
    exists i :: OccursAt(t, s, i)
  }

  ghost predicate OccursAt(t: string, s: string, i: int)
  {
    0 <= i <= |s| - |t| && s[i..i + |t|] == t
  }

  lemma InfixOf(p: string, t: string, q: string)
    ensures IsInfix(t, p + t + q)
  {
    var s := p + t + q;
    assert OccursAt(t, s, |p|);
  }

  /** The CREATE statement carries the codec string verbatim inside CODEC(...). */
  lemma CreateEmbedsCodec(columnType: string, codec: string)
    ensures IsInfix("CODEC(" + codec + ")", Sql(CreateTable(columnType, codec)))
  {
    var p := "CREATE TABLE " + TableName + " ( n Int32, column " + columnType + " default n ";
    var q := " ) Engine = MergeTree PARTITION BY tuple() ORDER BY tuple();";
    assert Sql(CreateTable(columnType, codec)) == p + ("CODEC(" + codec + ")") + q;
    InfixOf(p, "CODEC(" + codec + ")", q);
  }

  /** Both insert variants generate the same ten million rows. */
  lemma InsertGeneratesTenMillionRows(dataType: DataType)
    ensures IsInfix("numbers(10000000)", Sql(InsertNumbers(dataType)))
  {
    match dataType
    case Linear => LinearInsertRows();
    case Random => RandomInsertRows();
  }

  lemma LinearInsertRows()
    ensures IsInfix("numbers(10000000)", Sql(InsertNumbers(Linear)))
  {
    RowsDecimal();
    var p := "insert into " + TableName + " (n) select number from ";
    var q := " settings max_block_size=1000000;";
    var t := "numbers(" + Decimal(Rows) + ")";
    assert t == "numbers(10000000)";
    assert Sql(InsertNumbers(Linear)) == p + t + q;
    InfixOf(p, t, q);
  }

  lemma RandomInsertRows()
    ensures IsInfix("numbers(10000000)", Sql(InsertNumbers(Random)))
  {
    var p := "insert into " + TableName + " (n) select round(number * rand() / 4294967295, 2) as number from ";
    var q := " settings max_block_size=1000000";
    assert Sql(InsertNumbers(Random)) == p + "numbers(10000000)" + q;
    InfixOf(p, "numbers(10000000)", q);
  }

  lemma RowsDecimal()
    ensures Decimal(Rows) == "10000000"
  {
    assert Decimal(1) == "1";
    assert Decimal(10) == "10";
    assert Decimal(100) == "100";
    assert Decimal(1000) == "1000";
    assert Decimal(10000) == "10000";
    assert Decimal(100000) == "100000";
    assert Decimal(1000000) == "1000000";
  }
}
