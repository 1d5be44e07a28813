/** The staging-table name and the fixed SQL texts that Upsert sends
    alongside the rendered templates. */
module Staging {

  /** `strings.Replace(s, ".", "_", -1)`: every `.` becomes `_`. */
  function ReplaceDots(s: string): (r: string)
    ensures |r| == |s|
    ensures forall i :: 0 <= i < |s| ==> r[i] == (if s[i] == '.' then '_' else s[i])
  {
    if s == [] then [] else [if s[0] == '.' then '_' else s[0]] + ReplaceDots(s[1..])
  }

  const TEMP_SUFFIX: string := "_temp"

  /** The name of the session-local staging table for `table`. */
  function StagingName(table: string): (r: string)
    ensures |r| == |table| + 5
    ensures '.' !in r
    ensures r[|table|..] == "_temp"
    ensures forall i :: 0 <= i < |table| ==> r[i] == (if table[i] == '.' then '_' else table[i])
  {
    ReplaceDots(table) + TEMP_SUFFIX
  }

  /** A name without a schema qualifier only gains the suffix. */
  lemma DotFreeNameKept(table: string)
    requires '.' !in table
    ensures StagingName(table) == table + "_temp"
  {
  }

  /** The derivation is not injective: a qualified and an unqualified table
      can share one staging name. */
  lemma StagingNameNotInjective()
    ensures "a.b" != "a_b" && StagingName("a.b") == StagingName("a_b")
  {
    assert StagingName("a.b") == "a_b_temp";
    assert StagingName("a_b") == "a_b_temp";
  }

  function CreateTempSql(tempTable: string, table: string): string {
    "CREATE TEMP TABLE " + tempTable + "(LIKE " + table + ")"
  }

  function UniqueIndexSql(tempTable: string, idColumn: string): string {
    "CREATE UNIQUE INDEX ON " + tempTable + "(" + idColumn + ")"
  }

  function AnalyzeSql(tempTable: string): string {
    "ANALYZE " + tempTable
  }
}
