/**
 The shapes of a parsed SQL statement that the guard looks at.

 The tree is produced by an external SQL parser; only the node kinds the
 guard dispatches on are kept, each with the children it inspects. Every
 Go interface slot that may hold nil has an explicit Nil* variant, and
 every nilable struct pointer (WHERE, HAVING, LIMIT, an ORDER BY entry, a
 WHEN branch) is an Option. Node kinds the guard does not recognise are
 collapsed into one Other* variant per interface.
 */
module SqlParser {

  datatype Option<+T> = None | Some(value: T)

  /** A table reference `qualifier.name`; an empty string stands for an absent part. */
  datatype TableName = TableName(qualifier: string, name: string)

  /** A column reference `qualifier.name`, whose qualifier is a table reference. */
  datatype ColName = ColName(qualifier: TableName, name: string)

  /** A statement. Only `Select` is accepted; unions, inserts, updates,
      deletes, DDL and the rest are all `OtherStmt`. */
  datatype Stmt =
    | NilStmt
    | Select(
        selectExprs: seq<SelectExpr>,
        from: seq<TableExpr>,
        where: Option<Expr>,
        groupBy: seq<Expr>,
        having: Option<Expr>,
        orderBy: seq<Option<Expr>>,
        limit: Option<Limit>)
    | OtherStmt

  /** `LIMIT offset, rowcount`; either part may be NilExpr. */
  datatype Limit = Limit(offset: Expr, rowcount: Expr)

  /** An entry of the FROM list. The join kind and a USING clause are not inspected. */
  datatype TableExpr =
    | NilTableExpr
    | AliasedTableExpr(simple: SimpleTableExpr)
    | ParenTableExpr(exprs: seq<TableExpr>)
    | JoinTableExpr(left: TableExpr, right: TableExpr, on: Expr)
    | OtherTableExpr

  /** What an aliased FROM entry refers to: a table or a derived table. */
  datatype SimpleTableExpr =
    | NilSimpleTableExpr
    | TableRef(table: TableName)
    | SubqueryTable(select: Stmt)
    | OtherSimpleTableExpr

  /** An entry of a select list (also of function arguments and MATCH columns). */
  datatype SelectExpr =
    | NilSelectExpr
    | StarExpr(tableName: TableName)
    | AliasedExpr(expr: Expr)
    | Nextval(expr: Expr)
    | OtherSelectExpr

  /** `WHEN cond THEN val` */
  datatype When = When(cond: Expr, val: Expr)

  /** An expression. Operators, literal texts, type names, charsets and
      other payloads the guard never reads are left out. */
  datatype Expr =
    | NilExpr
    | AndExpr(left: Expr, right: Expr)
    | OrExpr(left: Expr, right: Expr)
    | NotExpr(expr: Expr)
    | ParenExpr(expr: Expr)
    | ComparisonExpr(left: Expr, right: Expr, escape: Expr)
    | RangeCond(left: Expr, from: Expr, to: Expr)
    | IsExpr(expr: Expr)
    | ExistsExpr(subquery: Stmt)
    | SqlVal(text: string)
    | NullVal
    | BoolVal(b: bool)
    | ColNameExpr(col: ColName)
    | ValTuple(elems: seq<Expr>)
    | Subquery(select: Stmt)
    | ListArg(arg: string)
    | BinaryExpr(left: Expr, right: Expr)
    | UnaryExpr(expr: Expr)
    | IntervalExpr(expr: Expr)
    | CollateExpr(expr: Expr)
    | FuncExpr(qualifier: string, name: string, args: seq<SelectExpr>)
    | CaseExpr(expr: Expr, whens: seq<Option<When>>, elseExpr: Expr)
    | ValuesFuncExpr(col: ColName)
    | ConvertExpr(expr: Expr)
    | SubstrExpr(col: ColName, from: Expr, to: Expr)
    | ConvertUsingExpr(expr: Expr)
    | MatchExpr(columns: seq<SelectExpr>, expr: Expr)
    | GroupConcatExpr(args: seq<SelectExpr>, orderBy: seq<Option<Expr>>)
    | DefaultExpr(colName: string)
    | OtherExpr
}
