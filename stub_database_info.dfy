/**
 * The naming authority used by the unit tests: every query source of type
 * IQueryable<Student> lives in the table "sourceTable", and a member maps to
 * the column named after it with "Column" appended, except the member
 * "NonDBProperty", which is not persisted (a null column name in C#).
 * Members are identified by their name; a CLR type by its full name and the
 * names of the types it can be assigned to.
 */
module StubDatabaseInfo {
  import opened Wrappers

  const SourceTableName: string := "sourceTable"
  const NonPersistedMemberName: string := "NonDBProperty"
  const ColumnSuffix: string := "Column"
  const QueryableOfStudent: string := "IQueryable<Student>"

  /** A CLR type: its full name and the full names of the types it is assignable to. */
  datatype ClrType = ClrType(fullName: string, assignableTo: set<string>)

  /** Whether a value of type `t` may be stored in a variable of the type named `target`. */
  predicate IsAssignableTo(t: ClrType, target: string)
  {
    target == t.fullName || target in t.assignableTo
  }

  /** The table of a query source; the source must be a query over students. */
  function GetTableName(querySourceType: ClrType): (tableName: string)
    requires IsAssignableTo(querySourceType, QueryableOfStudent)
    ensures tableName == SourceTableName
  {
    SourceTableName
  }

  /** The column a member is stored in, or None when the member is not persisted. */
  function GetColumnName(memberName: string): (column: Option<string>)
    ensures column.None? <==> memberName == NonPersistedMemberName
    ensures column.Some? ==> memberName <= column.value
    ensures column.Some? ==> |column.value| == |memberName| + 6
    ensures column.Some? ==> column.value[|memberName|..] == ColumnSuffix
  {
    if memberName == NonPersistedMemberName then None else Some(memberName + ColumnSuffix)
  }

  /**
   * The member stored in a column: the column name without its "Column"
   * suffix, unless there is no such suffix or the stem is the member that
   * is never persisted.
   */
  function MemberOfColumn(column: string): (memberName: Option<string>)
    ensures memberName.Some? ==> |memberName.value| + 6 == |column|
  {
    if |column| >= |ColumnSuffix| && column[|column| - |ColumnSuffix|..] == ColumnSuffix
       && column[..|column| - |ColumnSuffix|] != NonPersistedMemberName
    then Some(column[..|column| - |ColumnSuffix|])
    else None
  }

  /** Column names determine members and members determine column names. */
  lemma {:induction false} ColumnNameRoundTrip(memberName: string, column: string)
    ensures GetColumnName(memberName) == Some(column) <==> MemberOfColumn(column) == Some(memberName)
  {
    var n := |column| - |ColumnSuffix|;
    if MemberOfColumn(column) == Some(memberName) {
      assert column == column[..n] + column[n..];
    }
  }

  /** Two members that share a column name, or are both unpersisted, are the same member. */
  lemma {:induction false} ColumnNameInjective(a: string, b: string)
    requires GetColumnName(a) == GetColumnName(b)
    ensures a == b
  {
  }
}
