/**
 * The two copies of `executeQuery`, side by side: `RootDataRepo` and
 * `SqlController` run the same statements against the same database, and
 * differ only in DATE values, in a NULL DATE, and in what a mutation counts.
 */
module Copies {
  import opened Results
  import opened Jdbc
  import opened Statements
  import RootDataRepo
  import SqlController

  /** No column of the table is typed DATE. */
  predicate NoDateColumns(t: Table) {
    forall i :: 0 <= i < |t.meta| ==> !IsDateColumn(t.meta[i])
  }

  /**
   * Both copies fail on the same calls, with the same SQLException message,
   * except that a NULL in a DATE column fails only the repository's copy.
   */
  lemma FailTogether(db: Database, sql: string, ms: int)
    ensures var repo := RootDataRepo.Execute(db, sql, ms);
            var ctrl := SqlController.Execute(db, sql, ms);
            (forall m :: repo == Err(SqlException(m)) <==> ctrl == Err(m))
            && (repo == Err(NullPointer) <==>
                  db.connectionFailure.None? && IsRead(sql) && db.query(sql).Ok? && RootDataRepo.HasNullDate(db.query(sql).value))
            && (repo == Err(NullPointer) ==> ctrl.Ok?)
  {
    RootDataRepo.ExecuteOutcomes(db, sql, ms);
    SqlController.ExecuteOutcomes(db, sql, ms);
  }

  /**
   * When the copies both succeed on a read they list the same columns and the
   * same number of rows, and each repository cell is the controller's cell with
   * a DATE written as its ISO-8601 text: without DATE columns the two tables
   * are identical.
   */
  lemma ReadsDifferOnlyInDates(db: Database, sql: string, ms: int)
    requires db.connectionFailure.None? && IsRead(sql)
    requires RootDataRepo.Execute(db, sql, ms).Ok?
    ensures var repo := RootDataRepo.Execute(db, sql, ms).value;
            var ctrl := SqlController.Execute(db, sql, ms);
            && ctrl.Ok?
            && repo.columns == ctrl.value.columns
            && |repo.rows| == |ctrl.value.rows| == repo.count == ctrl.value.totalRows
            && (forall k, i :: 0 <= k < |repo.rows| && 0 <= i < |repo.columns| ==>
                 repo.rows[k][i] == RootDataRepo.Normalize(db.query(sql).value.meta[i], ctrl.value.rows[k][i]))
            && (NoDateColumns(db.query(sql).value) ==> repo.rows == ctrl.value.rows)
  {
    RootDataRepo.ExecuteOutcomes(db, sql, ms);
    SqlController.ExecuteOutcomes(db, sql, ms);
    var t := db.query(sql).value;
    var repo := RootDataRepo.Execute(db, sql, ms).value;
    var ctrl := SqlController.Execute(db, sql, ms).value;
    forall k, i | 0 <= k < |repo.rows| && 0 <= i < |repo.columns|
      ensures repo.rows[k][i] == RootDataRepo.Normalize(t.meta[i], ctrl.rows[k][i])
    {
      assert |repo.columns| == |t.meta|;
    }
    if NoDateColumns(t) {
      forall k | 0 <= k < |repo.rows| ensures repo.rows[k] == ctrl.rows[k] {
        assert |repo.rows[k]| == |t.meta| == |ctrl.rows[k]|;
      }
    }
  }

  /**
   * A mutation yields the same one-cell table from both copies, but the
   * repository counts the affected rows while the controller counts the single
   * row of that table: the two counts agree only when exactly one row was
   * affected.
   */
  lemma MutationCountsDiffer(db: Database, sql: string, ms: int)
    requires db.connectionFailure.None? && !IsRead(sql) && db.update(sql).Ok?
    ensures var repo := RootDataRepo.Execute(db, sql, ms);
            var ctrl := SqlController.Execute(db, sql, ms);
            && repo.Ok? && ctrl.Ok?
            && repo.value.columns == ctrl.value.columns == ["rows_affected"]
            && repo.value.rows == ctrl.value.rows == [[Int(db.update(sql).value)]]
            && repo.value.count == db.update(sql).value
            && ctrl.value.totalRows == 1
            && (repo.value.count == ctrl.value.totalRows <==> db.update(sql).value == 1)
  {
    RootDataRepo.ExecuteOutcomes(db, sql, ms);
    SqlController.ExecuteOutcomes(db, sql, ms);
  }
}
