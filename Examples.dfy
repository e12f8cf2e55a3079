/**
 Worked statements: the guard's outcome on small parsed queries.
 */
module GuardExamples {
  import opened SqlParser
  import opened Policy
  import opened Guard

  /** A bare column `name` in a select list. */
  function Column(name: string): SelectExpr
  {
    AliasedExpr(ColNameExpr(ColName(TableName("", ""), name)))
  }

  /** A FROM entry `qualifier.table`. */
  function Table(qualifier: string, table: string): TableExpr
  {
    AliasedTableExpr(TableRef(TableName(qualifier, table)))
  }

  /** `SELECT items FROM from [WHERE where]` */
  function Query(items: seq<SelectExpr>, from: seq<TableExpr>, where: Option<Expr>): Stmt
  {
    Select(items, from, where, [], None, [], None)
  }

  /** `column IN (sub)` */
  function InSubquery(column: ColName, sub: Stmt): Expr
  {
    ComparisonExpr(ColNameExpr(column), Subquery(sub), NilExpr)
  }

  const CountOnly := Allowlists(None, None, None, Some(["COUNT"]), None)

  /** With no database list, `SELECT a FROM db.t` is rejected and
      `SELECT a FROM t` passes. */
  lemma QualifierNeedsDatabaseList()
    ensures StmtOutcome(Query([Column("a")], [Table("db", "t")], None), CountOnly)
            == Reject(BadTableQualifier("db"))
    ensures StmtOutcome(Query([Column("a")], [Table("", "t")], None), CountOnly) == Pass
  {
  }

  /** `SELECT COUNT(*) FROM t` is rejected when no function-name list is set. */
  lemma FunctionsDeniedByDefault()
    ensures StmtOutcome(Query([AliasedExpr(FuncExpr("", "COUNT", [StarExpr(TableName("", ""))]))],
                              [Table("", "t")], None),
                        Allowlists(None, None, None, None, None))
            == Reject(BadFuncName("COUNT"))
  {
    var cfg := Allowlists(None, None, None, None, None);
    var item := AliasedExpr(FuncExpr("", "COUNT", [StarExpr(TableName("", ""))]));
    assert FuncNameOutcome("", "COUNT", cfg) == Reject(BadFuncName("COUNT"));
    assert SelectExprOutcome(item, cfg) == Reject(BadFuncName("COUNT"));
    assert [item][1..] == [];
    assert SelectExprsOutcome([item], cfg) == Reject(BadFuncName("COUNT"));
  }

  /** `SELECT count(*) FROM t` passes once "COUNT" is listed: the name is
      upper-cased before the lookup. */
  lemma ListedFunctionPasses()
    ensures StmtOutcome(Query([AliasedExpr(FuncExpr("", "count", [StarExpr(TableName("", ""))]))],
                              [Table("", "t")], None),
                        CountOnly)
            == Pass
  {
    var star := StarExpr(TableName("", ""));
    var item := AliasedExpr(FuncExpr("", "count", [star]));
    assert ToUpper("count") == "COUNT" by {
      assert ToUpper("count")[0] == 'C' && ToUpper("count")[1] == 'O' && ToUpper("count")[2] == 'U';
      assert ToUpper("count")[3] == 'N' && ToUpper("count")[4] == 'T';
    }
    assert FuncNameOutcome("", "count", CountOnly) == Pass;
    assert [star][1..] == [];
    assert SelectExprsOutcome([star], CountOnly) == Pass;
    assert SelectExprOutcome(item, CountOnly) == Pass;
    assert [item][1..] == [];
    assert SelectExprsOutcome([item], CountOnly) == Pass;
    assert [Table("", "t")][1..] == [];
    assert TableExprsOutcome([Table("", "t")], CountOnly) == Pass;
  }

  /** A bare column in a select list passes whatever the allowlists. */
  lemma ColumnListPasses(column: string, cfg: Allowlists)
    ensures SelectExprsOutcome([Column(column)], cfg) == Pass
  {
    assert ExprOutcome(ColNameExpr(ColName(TableName("", ""), column)), cfg) == Pass;
    assert SelectExprOutcome(Column(column), cfg) == Pass;
    assert [Column(column)][1..] == [];
  }

  /** `FROM table`, for a table the table list admits (or no table list). */
  lemma ListedTablePasses(table: string, cfg: Allowlists)
    requires Admits(cfg.tables, table)
    ensures TableExprsOutcome([Table("", table)], cfg) == Pass
  {
    assert TableExprOutcome(Table("", table), cfg) == Pass;
    assert [Table("", table)][1..] == [];
  }

  /** `SELECT id FROM v WHERE id IN (SELECT ...)`-shaped queries over an
      admitted table take the outcome of their subquery. */
  lemma NestedQuery(column: string, table: string, sub: Stmt, cfg: Allowlists)
    requires Admits(cfg.tables, table)
    ensures StmtOutcome(Query([Column(column)], [Table("", table)],
                              Some(InSubquery(ColName(TableName("", table), "id"), sub))), cfg)
            == StmtOutcome(sub, cfg)
  {
    ColumnListPasses(column, cfg);
    ListedTablePasses(table, cfg);
    assert ExprOutcome(InSubquery(ColName(TableName("", table), "id"), sub), cfg) == StmtOutcome(sub, cfg);
  }

  /** `SELECT a FROM t WHERE t.id IN (SELECT id FROM u WHERE u.id IN (SELECT id FROM v))`:
      a table missing from the list at the innermost level is reported. */
  lemma InnermostViolationReported()
    ensures
      var innermost := Query([Column("id")], [Table("", "v")], None);
      var middle := Query([Column("id")], [Table("", "u")], Some(InSubquery(ColName(TableName("", "u"), "id"), innermost)));
      var outer := Query([Column("a")], [Table("", "t")], Some(InSubquery(ColName(TableName("", "t"), "id"), middle)));
      StmtOutcome(outer, CountOnly.(tables := Some(["t", "u"]))) == Reject(BadTableName("v"))
  {
    var cfg := CountOnly.(tables := Some(["t", "u"]));
    var innermost := Query([Column("id")], [Table("", "v")], None);
    var middle := Query([Column("id")], [Table("", "u")], Some(InSubquery(ColName(TableName("", "u"), "id"), innermost)));
    ColumnListPasses("id", cfg);
    assert TableExprOutcome(Table("", "v"), cfg) == Reject(BadTableName("v"));
    assert [Table("", "v")][1..] == [];
    assert StmtOutcome(innermost, cfg) == Reject(BadTableName("v"));
    NestedQuery("id", "u", innermost, cfg);
    NestedQuery("a", "t", middle, cfg);
  }
}
